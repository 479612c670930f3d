/**
 * The steps of the protocol one by one: what each needs, and the state it adds
 * to a run.  Imperative code extends its history with these.
 */
module ProtocolSteps {
  import opened Basics
  import opened EventLog
  import opened EventTable
  import opened Ledger
  import opened Protocol
  import opened ProtocolSafety
  import opened ProtocolRuns

  lemma DoCrash(r: seq<State>) returns (q: seq<State>)
    requires IsRun(r)
    ensures IsRun(q) && q == r + [Last(r).(desk := Idle, work := None, staged := None, armed := None)]
  {
    Extend(r, Crash);
    q := r + [Next(Last(r), Crash)];
  }

  lemma DoUnlock(r: seq<State>) returns (q: seq<State>)
    requires IsRun(r)
    ensures IsRun(q) && q == r + [Last(r).(work := None, staged := None, armed := None)]
  {
    Extend(r, Unlock);
    q := r + [Next(Last(r), Unlock)];
  }

  lemma DoLockForEntry(r: seq<State>, t: TradeId) returns (q: seq<State>)
    requires IsRun(r) && Last(r).work.None? && Last(r).desk == Approved(t) && NoneUnresolved(Last(r).intents)
    requires forall u :: u in Last(r).trades && Active(Last(r).trades[u]) ==> u == t
    ensures IsRun(q) && q == r + [Last(r).(work := Some(t))]
  {
    Extend(r, LockForEntry(t));
    q := r + [Next(Last(r), LockForEntry(t))];
  }

  lemma DoLockLive(r: seq<State>, t: TradeId) returns (q: seq<State>)
    requires IsRun(r) && Last(r).work.None? && t in Last(r).trades && Live(Last(r).trades[t])
    ensures IsRun(q) && q == r + [Last(r).(work := Some(t))]
  {
    Extend(r, LockLive(t));
    q := r + [Next(Last(r), LockLive(t))];
  }

  lemma DoLockUnresolved(r: seq<State>, id: IntentId) returns (q: seq<State>)
    requires IsRun(r) && Last(r).work.None? && id in Last(r).intents && Unresolved(Last(r).intents[id].state)
    ensures IsRun(q) && q == r + [Last(r).(work := Some(Last(r).intents[id].trade))]
  {
    Extend(r, LockUnresolved(Last(r).intents[id].trade));
    q := r + [Next(Last(r), LockUnresolved(Last(r).intents[id].trade))];
  }

  lemma DoUpsert(r: seq<State>, t: TradeId, row: Row) returns (q: seq<State>)
    requires IsRun(r) && Last(r).work == Some(t) && t in Last(r).trades
    requires row.lifecycle.SignalApproved? ==> Unbound(row)
    ensures IsRun(q) && q == r + [Last(r).(trades := Last(r).trades[t := row])]
  {
    Extend(r, Upsert(t, row));
    q := r + [Next(Last(r), Upsert(t, row))];
  }

  lemma DoStore(r: seq<State>, e: Event) returns (q: seq<State>)
    requires IsRun(r)
    ensures IsRun(q) && q == r + [Last(r).(trades := Touched(Last(r).trades, e))]
  {
    Extend(r, StoreEvent(e));
    q := r + [Next(Last(r), StoreEvent(e))];
  }

  lemma DoReplay(r: seq<State>, t: TradeId, es: seq<Event>) returns (q: seq<State>)
    requires IsRun(r) && t in Last(r).trades
    requires forall k :: 0 <= k < |es| ==> ReplayMatches(Last(r).trades[t], es[k])
    ensures IsRun(q) && q == r + [Last(r).(trades := Last(r).trades[t := ApplyAll(Last(r).trades[t], es)])]
  {
    Extend(r, ReplayEvents(t, es));
    q := r + [Next(Last(r), ReplayEvents(t, es))];
  }

  lemma DoPrepare(r: seq<State>, i: Intent) returns (q: seq<State>)
    requires IsRun(r) && MayPrepare(Last(r), i)
    ensures IsRun(q) && q == r + [AfterPrepare(Last(r), i, None)]
  {
    Extend(r, PrepareIntent(i));
    q := r + [Next(Last(r), PrepareIntent(i))];
  }

  lemma DoPrepareChild(r: seq<State>, i: Intent, cancel: IntentId) returns (q: seq<State>)
    requires IsRun(r) && MayPrepareChild(Last(r), i, cancel)
    ensures IsRun(q) && q == r + [AfterPrepare(Last(r), i, i.parent)]
  {
    Extend(r, PrepareChild(i, cancel));
    q := r + [Next(Last(r), PrepareChild(i, cancel))];
  }

  ghost predicate MayMark(s: State, id: IntentId) {
    && CanMark(s.intents, id) && !s.intents[id].op.ReplacePlan?
    && s.work == Some(s.intents[id].trade) && s.armed.None?
    && (s.staged == Some(id) || (s.staged.None? && IsChild(s.intents[id])))
  }

  lemma DoMark(r: seq<State>, id: IntentId) returns (q: seq<State>)
    requires IsRun(r) && MayMark(Last(r), id)
    ensures IsRun(q)
    ensures q == r + [Last(r).(intents := SetState(Last(r).intents, id, Submitting), staged := None, armed := Some(id))]
  {
    Extend(r, MarkSubmitting(id));
    q := r + [Next(Last(r), MarkSubmitting(id))];
  }

  lemma DoSend(r: seq<State>, id: IntentId) returns (q: seq<State>)
    requires IsRun(r) && Last(r).armed == Some(id)
    ensures IsRun(q) && q == r + [Last(r).(wire := Last(r).wire + [Wire(id, Fate.Pending)], armed := None)]
  {
    Extend(r, Send(id));
    q := r + [Next(Last(r), Send(id))];
  }

  /** What a settling step needs: the lock, the evidence, and no send in between. */
  ghost predicate MaySettle(s: State, id: IntentId, st: IntentState) {
    && id in s.intents && s.work == Some(s.intents[id].trade) && s.staged != Some(id) && s.armed != Some(id)
    && match st
       case Confirmed =>
         && (s.intents[id].state.Submitting? || s.intents[id].state.Ambiguous?)
         && (if s.intents[id].request.Place? then SentWith(s, id, Landed) else Target(s.intents[id]) in s.done)
       case DefiniteReject =>
         s.intents[id].state.Submitting? && s.intents[id].request.Place? && SentWith(s, id, Refused)
       case Ambiguous => s.intents[id].state.Submitting? && Sent(s, id)
       case Aborted => (s.intents[id].state.Prepared? || s.intents[id].state.Aborted?) && !IsChild(s.intents[id])
       case _ => false
  }

  lemma DoSettle(r: seq<State>, id: IntentId, st: IntentState) returns (q: seq<State>)
    requires IsRun(r) && MaySettle(Last(r), id, st)
    ensures IsRun(q) && q == r + [Last(r).(intents := SetState(Last(r).intents, id, st))]
  {
    if st.Confirmed? {
      Extend(r, Confirm(id));
      q := r + [Next(Last(r), Confirm(id))];
    } else if st.DefiniteReject? {
      Extend(r, Refuse(id));
      q := r + [Next(Last(r), Refuse(id))];
    } else if st.Ambiguous? {
      Extend(r, Doubt(id));
      q := r + [Next(Last(r), Doubt(id))];
    } else {
      Extend(r, Abort(id));
      q := r + [Next(Last(r), Abort(id))];
    }
  }

  lemma DoDecide(r: seq<State>, k: nat, f: Fate) returns (q: seq<State>)
    requires IsRun(r) && k < |Last(r).wire| && Last(r).wire[k].fate.Pending? && !f.Pending?
    ensures IsRun(q) && q == r + [Last(r).(wire := Last(r).wire[k := Last(r).wire[k].(fate := f)])]
  {
    Extend(r, Decide(k, f));
    q := r + [Next(Last(r), Decide(k, f))];
  }

  lemma DoFinish(r: seq<State>, ref: Ref) returns (q: seq<State>)
    requires IsRun(r)
    ensures IsRun(q) && q == r + [Last(r).(done := Last(r).done + {ref})]
  {
    Extend(r, Finish(ref));
    q := r + [Next(Last(r), Finish(ref))];
  }

  // ---- the order manager ----

  lemma DoClaim(r: seq<State>, t: TradeId) returns (q: seq<State>)
    requires IsRun(r) && Last(r).desk.Idle? && t !in Last(r).signals
    ensures IsRun(q) && q == r + [Last(r).(signals := Last(r).signals[t := InProgress], desk := Claimed(t))]
  {
    Extend(r, Claim(t));
    q := r + [Next(Last(r), Claim(t))];
  }

  lemma DoRecordSignal(r: seq<State>, t: TradeId, m: Mark) returns (q: seq<State>)
    requires IsRun(r)
    ensures IsRun(q) && q == r + [Last(r).(signals := Last(r).signals[t := m])]
  {
    Extend(r, RecordSignal(t, m));
    q := r + [Next(Last(r), RecordSignal(t, m))];
  }

  lemma DoApprove(r: seq<State>, t: TradeId, row: Row) returns (q: seq<State>)
    requires IsRun(r) && Last(r).desk == Claimed(t) && row.lifecycle.SignalApproved? && Unbound(row)
    ensures IsRun(q) && q == r + [Last(r).(trades := Last(r).trades[t := row], desk := Approved(t))]
  {
    Extend(r, Approve(t, row));
    q := r + [Next(Last(r), Approve(t, row))];
  }

  lemma DoReject(r: seq<State>, t: TradeId) returns (q: seq<State>)
    requires IsRun(r) && (Last(r).desk == Approved(t) || Last(r).desk == Offered(t)) && t in Last(r).trades
    ensures IsRun(q)
    ensures q == r + [Last(r).(trades := Last(r).trades[t := Dismissed(Last(r).trades[t])], desk := Idle)]
  {
    Extend(r, Reject(t));
    q := r + [Next(Last(r), Reject(t))];
  }

  lemma DoCloseDesk(r: seq<State>) returns (q: seq<State>)
    requires IsRun(r)
    ensures IsRun(q) && q == r + [Last(r).(desk := Idle)]
  {
    Extend(r, CloseDesk);
    q := r + [Next(Last(r), CloseDesk)];
  }
}
