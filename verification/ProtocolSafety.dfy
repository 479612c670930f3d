/**
 * What every step of the order protocol keeps, and what follows for every run.
 */
module ProtocolSafety {
  import opened Basics
  import opened EventLog
  import opened EventTable
  import opened Ledger
  import opened Protocol

  // ---- the invariant ----

  ghost predicate LedgerInv(s: State) {
    forall id :: id in s.intents ==> s.intents[id].id == id && WellFormed(s.intents[id])
  }

  /** Requests on the wire are rows past PREPARED, one wire entry per row. */
  ghost predicate WireInv(s: State) {
    && (forall k :: 0 <= k < |s.wire| ==> s.wire[k].id in s.intents)
    && (forall k :: 0 <= k < |s.wire| ==>
          var i := s.intents[s.wire[k].id];
          !i.op.ReplacePlan? && !i.state.Prepared? && !i.state.Aborted?)
    && (forall j, k :: 0 <= j < k < |s.wire| ==> s.wire[j].id != s.wire[k].id)
  }

  ghost predicate ControlInv(s: State) {
    && (s.armed.Some? ==>
          && s.staged.None? && s.armed.value in s.intents
          && s.intents[s.armed.value].state.Submitting?
          && !s.intents[s.armed.value].op.ReplacePlan?
          && s.work == Some(s.intents[s.armed.value].trade)
          && !Sent(s, s.armed.value))
    && (s.staged.Some? ==>
          && s.staged.value in s.intents
          && s.intents[s.staged.value].state.Prepared?
          && s.work == Some(s.intents[s.staged.value].trade))
  }

  ghost predicate EvidenceInv(s: State) {
    forall id :: id in s.intents ==>
      var i := s.intents[id];
      && (i.state.Confirmed? ==>
            if i.request.Place? then SentWith(s, id, Landed) else Target(i) in s.done)
      && (i.state.DefiniteReject? ==> i.request.Place? && SentWith(s, id, Refused))
      && (i.state.Ambiguous? ==> Sent(s, id))
  }

  ghost predicate PlanInv(s: State) {
    && (forall id :: id in s.intents && s.intents[id].op.ReplacePlan? ==>
          (s.intents[id].state.Prepared? || s.intents[id].state.Aborted?))
    && (forall id :: id in s.intents && IsChild(s.intents[id]) ==>
          var p := s.intents[id].parent.value;
          p in s.intents && s.intents[p].op.ReplacePlan? && s.intents[p].state.Aborted?
          && s.intents[p].trade == s.intents[id].trade)
    && (forall c, d | c in s.intents && d in s.intents && IsChild(s.intents[c]) && IsChild(s.intents[d]) ::
          s.intents[c].parent == s.intents[d].parent ==> c == d)
  }

  /** Two rows share a client id only when one is the other's plan. */
  ghost predicate ClientInv(s: State) {
    forall c, d | c in s.intents && d in s.intents && c != d && s.intents[c].request.Place? && s.intents[d].request.Place? ::
      s.intents[c].request.client == s.intents[d].request.client ==>
        s.intents[c].parent == Some(d) || s.intents[d].parent == Some(c)
  }

  ghost predicate Pending(s: State, t: TradeId) {
    exists id :: id in s.intents && Unresolved(s.intents[id].state) && s.intents[id].trade == t
  }

  ghost predicate OneExposure(s: State) {
    forall t, u :: t in s.trades && u in s.trades && Live(s.trades[t]) && Live(s.trades[u]) ==> t == u
  }

  /** Live rows, unresolved intents and the lock all speak of one trade. */
  ghost predicate TradeInv(s: State) {
    && OneExposure(s)
    && (forall t :: t in s.trades && s.trades[t].lifecycle.SignalApproved? ==> Unbound(s.trades[t]))
    && (forall id, t :: id in s.intents && Unresolved(s.intents[id].state) && t in s.trades && Live(s.trades[t]) ==>
          s.intents[id].trade == t)
    && (forall c, d :: c in s.intents && d in s.intents && Unresolved(s.intents[c].state) && Unresolved(s.intents[d].state) ==>
          s.intents[c].trade == s.intents[d].trade)
    && (s.work.Some? ==>
          && (forall t :: t in s.trades && Live(s.trades[t]) ==> s.work == Some(t))
          && (forall id :: id in s.intents && Unresolved(s.intents[id].state) ==> s.work == Some(s.intents[id].trade)))
  }

  /** A trade has at most one ENTRY intent, and none while its signal waits;
      a trade row exists only for a claimed signal. */
  ghost predicate DeskInv(s: State) {
    && s.trades.Keys <= s.signals.Keys
    && (s.desk.Claimed? ==> s.desk.trade !in s.trades)
    && (s.desk.Claimed? || s.desk.Approved? ==>
          s.desk.trade in s.signals &&
          forall id :: id in s.intents && s.intents[id].op.Entry? ==> s.intents[id].trade != s.desk.trade)
    && (forall id :: id in s.intents && s.intents[id].op.Entry? ==> s.intents[id].trade in s.signals)
    && (forall c, d | c in s.intents && d in s.intents && s.intents[c].op.Entry? && s.intents[d].op.Entry? ::
          s.intents[c].trade == s.intents[d].trade ==> c == d)
  }

  /** From its prepare to its send, an ENTRY is the only unresolved intent. */
  ghost predicate EntryInv(s: State) {
    forall e, id | e in s.intents && s.intents[e].op.Entry? && id in s.intents && id != e ::
      s.staged == Some(e) || s.armed == Some(e) ==> !Unresolved(s.intents[id].state)
  }

  ghost predicate ConfirmedCancel(s: State, c: IntentId, t: TradeId) {
    c in s.intents && s.intents[c].op.CancelProtection? && s.intents[c].trade == t && s.intents[c].state.Confirmed?
  }

  ghost predicate BasisInv(s: State) {
    forall id :: id in s.intents && IsChild(s.intents[id]) ==>
      exists c :: ConfirmedCancel(s, c, s.intents[id].trade)
  }

  ghost predicate Inv(s: State) {
    && LedgerInv(s) && WireInv(s) && ControlInv(s) && EvidenceInv(s) && PlanInv(s)
    && ClientInv(s) && TradeInv(s) && DeskInv(s) && EntryInv(s) && BasisInv(s)
  }

  // ---- every step keeps it ----

  lemma StartInv(step: real)
    ensures Inv(Start(step))
  {
  }

  // ---- invariants that read only some of the state ----

  lemma TablesKeep(s: State, n: State)
    requires LedgerInv(s) && PlanInv(s) && ClientInv(s) && BasisInv(s)
    requires n.intents == s.intents && n.covers == s.covers
    ensures LedgerInv(n) && PlanInv(n) && ClientInv(n) && BasisInv(n)
  {
    forall id | id in n.intents && IsChild(n.intents[id])
      ensures exists c :: ConfirmedCancel(n, c, n.intents[id].trade)
    {
      var c :| ConfirmedCancel(s, c, s.intents[id].trade);
      assert ConfirmedCancel(n, c, n.intents[id].trade);
    }
  }

  lemma EvidenceKeeps(s: State, n: State)
    requires LedgerInv(s) && EvidenceInv(s)
    requires n.intents == s.intents && s.done <= n.done
    requires forall id :: Sent(s, id) ==> Sent(n, id)
    requires forall id, f :: SentWith(s, id, f) && !f.Pending? ==> SentWith(n, id, f)
    ensures EvidenceInv(n)
  {
  }

  lemma RowsAndDeskKeep(s: State, n: State)
    requires TradeInv(s) && DeskInv(s)
    requires n.intents == s.intents && n.trades == s.trades && n.work == s.work
    requires n.desk == s.desk && n.signals == s.signals
    ensures TradeInv(n) && DeskInv(n)
  {
  }

  // ---- steps that change the state of one row ----

  /** The evidence each outcome needs, and the states it may replace. */
  ghost predicate Justified(s: State, id: IntentId, st: IntentState)
    requires id in s.intents
  {
    var i := s.intents[id];
    && !i.state.Confirmed? && !i.state.DefiniteReject?
    && match st
       case Prepared => false
       case Submitting => i.state.Prepared? && !i.op.ReplacePlan?
       case Confirmed =>
         (i.state.Submitting? || i.state.Ambiguous?) &&
         if i.request.Place? then SentWith(s, id, Landed) else Target(i) in s.done
       case DefiniteReject => i.state.Submitting? && i.request.Place? && SentWith(s, id, Refused)
       case Ambiguous => i.state.Submitting? && Sent(s, id)
       case Aborted => i.state.Prepared? || i.state.Aborted?
  }

  ghost predicate Restated(s: State, n: State, id: IntentId, st: IntentState) {
    && id in s.intents && Justified(s, id, st)
    && s.work == Some(s.intents[id].trade)
    && (if st.Submitting? then s.armed.None? && (s.staged == Some(id) || (s.staged.None? && IsChild(s.intents[id])))
        else s.armed != Some(id) && s.staged != Some(id))
    && n == s.(intents := SetState(s.intents, id, st),
               staged := if st.Submitting? then None else s.staged,
               armed := if st.Submitting? then Some(id) else s.armed)
  }

  lemma RestatedKeepsWire(s: State, n: State, id: IntentId, st: IntentState)
    requires LedgerInv(s) && WireInv(s) && ControlInv(s) && EvidenceInv(s) && Restated(s, n, id, st)
    ensures LedgerInv(n) && WireInv(n) && ControlInv(n) && EvidenceInv(n)
  {
    assert forall k :: 0 <= k < |s.wire| && s.wire[k].id == id ==> !st.Aborted? && !st.Submitting?;
  }

  lemma RestatedKeepsPlans(s: State, n: State, id: IntentId, st: IntentState)
    requires PlanInv(s) && ClientInv(s) && DeskInv(s) && Restated(s, n, id, st)
    ensures PlanInv(n) && ClientInv(n) && DeskInv(n)
  {
  }

  lemma RestatedKeepsTrades(s: State, n: State, id: IntentId, st: IntentState)
    requires EntryInv(s) && BasisInv(s) && TradeInv(s) && Restated(s, n, id, st)
    ensures EntryInv(n) && BasisInv(n) && TradeInv(n)
  {
    forall id | id in n.intents && IsChild(n.intents[id])
      ensures exists c :: ConfirmedCancel(n, c, n.intents[id].trade)
    {
      var c :| ConfirmedCancel(s, c, s.intents[id].trade);
      assert ConfirmedCancel(n, c, n.intents[id].trade);
    }
  }

  lemma RestatedKeeps(s: State, n: State, id: IntentId, st: IntentState)
    requires Inv(s) && Restated(s, n, id, st)
    ensures Inv(n)
  {
    RestatedKeepsWire(s, n, id, st);
    RestatedKeepsPlans(s, n, id, st);
    RestatedKeepsTrades(s, n, id, st);
  }

  // ---- steps that insert a row ----

  /** `r` is the new row; nothing else in the table moves. */
  ghost predicate Inserted(s: State, n: State, r: Intent) {
    && r.id !in s.intents && r.state.Prepared?
    && s.work == Some(r.trade) && s.staged.None? && s.armed.None?
    && n == s.(intents := s.intents[r.id := r], covers := n.covers, desk := n.desk,
               staged := if r.op.ReplacePlan? then None else Some(r.id))
  }

  lemma InsertedKeepsWire(s: State, n: State, r: Intent)
    requires LedgerInv(s) && WireInv(s) && ControlInv(s) && EvidenceInv(s)
    requires Inserted(s, n, r) && WellFormed(r)
    ensures LedgerInv(n) && WireInv(n) && ControlInv(n) && EvidenceInv(n)
  {
  }

  ghost predicate OnlyChildOf(s: State, r: Intent, p: IntentId) {
    && p in s.intents && s.intents[p].op.ReplacePlan? && s.intents[p].state.Aborted? && s.intents[p].trade == r.trade
    && forall c :: c in s.intents ==> s.intents[c].parent != Some(p)
  }

  lemma InsertedKeepsPlans(s: State, n: State, r: Intent)
    requires PlanInv(s) && Inserted(s, n, r)
    requires IsChild(r) ==> OnlyChildOf(s, r, r.parent.value)
    ensures PlanInv(n)
  {
  }

  ghost predicate ClientFree(s: State, r: Intent) {
    r.request.Place? ==>
      forall d :: d in s.intents && s.intents[d].request.Place? && s.intents[d].request.client == r.request.client ==>
        r.parent == Some(d)
  }

  lemma InsertedKeepsClients(s: State, n: State, r: Intent)
    requires ClientInv(s) && Inserted(s, n, r) && ClientFree(s, r)
    ensures ClientInv(n)
  {
  }

  lemma InsertedKeepsDesk(s: State, n: State, r: Intent)
    requires DeskInv(s) && EntryInv(s) && Inserted(s, n, r)
    requires if r.op.Entry? then s.desk == Approved(r.trade) && n.desk == Offered(r.trade) && NoneUnresolved(s.intents)
             else n.desk == s.desk
    ensures DeskInv(n) && EntryInv(n)
  {
  }

  lemma InsertedKeepsTrades(s: State, n: State, r: Intent)
    requires BasisInv(s) && TradeInv(s) && Inserted(s, n, r)
    requires IsChild(r) ==> exists c :: ConfirmedCancel(s, c, r.trade)
    ensures BasisInv(n) && TradeInv(n)
  {
    forall c, t | ConfirmedCancel(s, c, t)
      ensures ConfirmedCancel(n, c, t)
    {
    }
  }

  lemma InsertedKeeps(s: State, n: State, r: Intent)
    requires Inv(s) && Inserted(s, n, r) && WellFormed(r) && ClientFree(s, r)
    requires IsChild(r) ==> OnlyChildOf(s, r, r.parent.value) && exists c :: ConfirmedCancel(s, c, r.trade)
    requires if r.op.Entry? then s.desk == Approved(r.trade) && n.desk == Offered(r.trade) && NoneUnresolved(s.intents)
             else n.desk == s.desk
    ensures Inv(n)
  {
    InsertedKeepsWire(s, n, r);
    InsertedKeepsPlans(s, n, r);
    InsertedKeepsClients(s, n, r);
    InsertedKeepsDesk(s, n, r);
    InsertedKeepsTrades(s, n, r);
  }

  lemma PrepareKeeps(s: State, i: Intent)
    requires Inv(s) && MayPrepare(s, i)
    ensures Inv(Next(s, PrepareIntent(i)))
  {
    var n := Next(s, PrepareIntent(i));
    var r := i.(state := Prepared, created := |s.intents|);
    assert Inserted(s, n, r);
    InsertedKeeps(s, n, r);
  }

  lemma ClosePlanKeeps(s: State, p: IntentId)
    requires Inv(s) && s.staged.None? && s.armed.None?
    requires p in s.intents && s.intents[p].op.ReplacePlan? && s.intents[p].state.Prepared? && s.work == Some(s.intents[p].trade)
    ensures Inv(s.(intents := SetState(s.intents, p, Aborted)))
    ensures forall c :: c in s.intents ==> s.intents[c].parent != Some(p)
  {
    RestatedKeeps(s, s.(intents := SetState(s.intents, p, Aborted)), p, Aborted);
  }

  /** Inserting a child and closing its plan is closing the plan, then inserting. */
  lemma PrepareChildSplits(s: State, i: Intent, cancel: IntentId, m: State, r: Intent)
    requires MayPrepareChild(s, i, cancel)
    requires m == s.(intents := SetState(s.intents, i.parent.value, Aborted))
    requires r == i.(state := Prepared, created := |s.intents|)
    ensures Inserted(m, Next(s, PrepareChild(i, cancel)), r)
    ensures WellFormed(r) && ConfirmedCancel(m, cancel, r.trade)
  {
    assert i.id != i.parent.value;
    var n := Next(s, PrepareChild(i, cancel));
    assert n.intents == m.intents[r.id := r];
  }

  /** The plan's client id is free for its first child. */
  lemma ChildClient(s: State, i: Intent, p: IntentId)
    requires LedgerInv(s) && PlanInv(s) && ClientInv(s)
    requires p in s.intents && s.intents[p].op.ReplacePlan? && s.intents[p].state.Prepared? && s.intents[p].request.Place?
    requires i.parent == Some(p) && i.request.Place?
    requires i.request.client == s.intents[p].request.client || UnusedClient(s, i.request.client)
    ensures ClientFree(s, i)
  {
  }

  lemma PlanClosedFor(s: State, p: IntentId, r: Intent, m: State)
    requires Inv(s) && s.staged.None? && s.armed.None? && s.work == Some(r.trade)
    requires p in s.intents && s.intents[p].op.ReplacePlan? && s.intents[p].state.Prepared? && s.intents[p].trade == r.trade
    requires m == s.(intents := SetState(s.intents, p, Aborted)) && ClientFree(s, r)
    ensures Inv(m) && OnlyChildOf(m, r, p) && ClientFree(m, r)
  {
    ClosePlanKeeps(s, p);
  }

  lemma PrepareChildKeeps(s: State, i: Intent, cancel: IntentId)
    requires Inv(s) && MayPrepareChild(s, i, cancel)
    ensures Inv(Next(s, PrepareChild(i, cancel)))
  {
    var p := i.parent.value;
    var m := s.(intents := SetState(s.intents, p, Aborted));
    var r := i.(state := Prepared, created := |s.intents|);
    PrepareChildSplits(s, i, cancel, m, r);
    ChildClient(s, i, p);
    PlanClosedFor(s, p, r, m);
    InsertedKeeps(m, Next(s, PrepareChild(i, cancel)), r);
  }

  // ---- steps on the wire ----

  lemma SendKeepsWire(s: State, n: State, id: IntentId)
    requires WireInv(s) && ControlInv(s) && EntryInv(s)
    requires s.armed == Some(id) && n == s.(wire := s.wire + [Wire(id, Fate.Pending)], armed := None)
    ensures WireInv(n) && ControlInv(n) && EntryInv(n)
  {
    forall k | 0 <= k < |s.wire|
      ensures s.wire[k].id != id
    {
      assert !Sent(s, id);
    }
  }

  lemma SendKeeps(s: State, n: State, id: IntentId)
    requires Inv(s) && s.armed == Some(id) && n == s.(wire := s.wire + [Wire(id, Fate.Pending)], armed := None)
    ensures Inv(n)
  {
    forall x, f | SentWith(s, x, f)
      ensures SentWith(n, x, f)
    {
      var k :| 0 <= k < |s.wire| && s.wire[k] == Wire(x, f);
      assert n.wire[k] == Wire(x, f);
    }
    forall x | Sent(s, x)
      ensures Sent(n, x)
    {
      var k :| 0 <= k < |s.wire| && s.wire[k].id == x;
      assert n.wire[k].id == x;
    }
    TablesKeep(s, n);
    EvidenceKeeps(s, n);
    RowsAndDeskKeep(s, n);
    SendKeepsWire(s, n, id);
  }

  lemma DecideKeepsWire(s: State, n: State, k: nat, f: Fate)
    requires WireInv(s) && ControlInv(s) && EntryInv(s)
    requires k < |s.wire| && n == s.(wire := s.wire[k := s.wire[k].(fate := f)])
    ensures WireInv(n) && ControlInv(n) && EntryInv(n)
  {
    assert forall j :: 0 <= j < |s.wire| ==> n.wire[j].id == s.wire[j].id;
  }

  lemma DecideKeeps(s: State, n: State, k: nat, f: Fate)
    requires Inv(s) && k < |s.wire| && s.wire[k].fate.Pending? && !f.Pending?
    requires n == s.(wire := s.wire[k := s.wire[k].(fate := f)])
    ensures Inv(n)
  {
    forall x, g | SentWith(s, x, g) && !g.Pending?
      ensures SentWith(n, x, g)
    {
      var j :| 0 <= j < |s.wire| && s.wire[j] == Wire(x, g);
      assert n.wire[j] == Wire(x, g);
    }
    forall x | Sent(s, x)
      ensures Sent(n, x)
    {
      var j :| 0 <= j < |s.wire| && s.wire[j].id == x;
      assert n.wire[j].id == x;
    }
    TablesKeep(s, n);
    EvidenceKeeps(s, n);
    RowsAndDeskKeep(s, n);
    DecideKeepsWire(s, n, k, f);
  }

  // ---- steps that leave the ledger and the wire alone ----

  ghost predicate Quiet(s: State, n: State) {
    && n.intents == s.intents && n.wire == s.wire && n.covers == s.covers && s.done <= n.done
    && s.signals.Keys <= n.signals.Keys
    && (n.staged.None? || (n.staged == s.staged && n.work == s.work))
    && (n.armed.None? || (n.armed == s.armed && n.work == s.work && n.staged == s.staged))
  }

  lemma QuietKeepsControl(s: State, n: State)
    requires WireInv(s) && ControlInv(s) && EntryInv(s) && Quiet(s, n)
    ensures WireInv(n) && ControlInv(n) && EntryInv(n)
  {
    assert forall id :: Sent(s, id) == Sent(n, id);
  }

  predicate OffLedger(a: Action) {
    a.Claim? || a.RecordSignal? || a.Approve? || a.Reject? || a.CloseDesk? || a.LockForEntry? || a.LockLive?
    || a.LockUnresolved? || a.Unlock? || a.Upsert? || a.StoreEvent? || a.ReplayEvents? || a.Finish? || a.Crash?
  }

  lemma OffLedgerIsQuiet(s: State, a: Action)
    requires ControlInv(s) && Enabled(s, a) && OffLedger(a)
    ensures Quiet(s, Next(s, a))
  {
  }

  /** Events reach bound rows only, and never make a row live. */
  lemma EventTames(r: Row, e: Event)
    requires RecordMatches(r, e) || ReplayMatches(r, e)
    requires r.lifecycle.SignalApproved? ==> Unbound(r)
    ensures !r.lifecycle.SignalApproved?
    ensures !Applied(r, e).lifecycle.SignalApproved?
    ensures Live(Applied(r, e)) ==> Live(r)
    ensures SameIds(r, Applied(r, e))
  {
  }

  lemma {:induction false} ReplayTames(r: Row, es: seq<Event>)
    requires es != [] && forall k :: 0 <= k < |es| ==> ReplayMatches(r, es[k])
    requires r.lifecycle.SignalApproved? ==> Unbound(r)
    ensures !r.lifecycle.SignalApproved?
    ensures !ApplyAll(r, es).lifecycle.SignalApproved?
    ensures Live(ApplyAll(r, es)) ==> Live(r)
  {
    var n := |es| - 1;
    var q := ApplyAll(r, es[..n]);
    ApplyAllKeepsIds(r, es[..n]);
    assert ReplayMatches(r, es[n]);
    if n == 0 {
      assert q == r;
    } else {
      ReplayTames(r, es[..n]);
    }
    EventTames(q, es[n]);
  }

  lemma StoreKeepsTrades(s: State, e: Event)
    requires TradeInv(s)
    ensures TradeInv(s.(trades := Touched(s.trades, e)))
  {
    forall t | t in s.trades && RecordMatches(s.trades[t], e)
      ensures Live(Applied(s.trades[t], e)) ==> Live(s.trades[t])
      ensures !Applied(s.trades[t], e).lifecycle.SignalApproved?
    {
      EventTames(s.trades[t], e);
    }
  }

  lemma RowKeepsTrades(s: State, t: TradeId, row: Row)
    requires TradeInv(s)
    requires row.lifecycle.SignalApproved? ==> Unbound(row)
    requires Live(row) ==> s.work == Some(t) || (t in s.trades && Live(s.trades[t]))
    ensures TradeInv(s.(trades := s.trades[t := row]))
  {
  }

  lemma LockKeepsTrades(s: State, t: TradeId)
    requires TradeInv(s)
    requires Enabled(s, LockForEntry(t)) || Enabled(s, LockLive(t)) || Enabled(s, LockUnresolved(t))
    ensures TradeInv(s.(work := Some(t)))
  {
  }

  lemma OffLedgerKeepsTrades(s: State, a: Action)
    requires TradeInv(s) && Enabled(s, a) && OffLedger(a)
    ensures TradeInv(Next(s, a))
  {
    match a
    case Approve(t, row) => RowKeepsTrades(s, t, row);
    case Reject(t) => RowKeepsTrades(s, t, Dismissed(s.trades[t]));
    case Upsert(t, row) => RowKeepsTrades(s, t, row);
    case StoreEvent(e) => StoreKeepsTrades(s, e);
    case ReplayEvents(t, es) =>
      if es != [] { ReplayTames(s.trades[t], es); }
      RowKeepsTrades(s, t, ApplyAll(s.trades[t], es));
    case LockForEntry(t) => LockKeepsTrades(s, t);
    case LockLive(t) => LockKeepsTrades(s, t);
    case LockUnresolved(t) => LockKeepsTrades(s, t);
    case _ =>
  }

  lemma OffLedgerKeepsDesk(s: State, a: Action)
    requires DeskInv(s) && Enabled(s, a) && OffLedger(a)
    ensures DeskInv(Next(s, a))
  {
  }

  lemma OffLedgerKeeps(s: State, a: Action)
    requires Inv(s) && Enabled(s, a) && OffLedger(a)
    ensures Inv(Next(s, a))
  {
    var n := Next(s, a);
    OffLedgerIsQuiet(s, a);
    TablesKeep(s, n);
    EvidenceKeeps(s, n);
    QuietKeepsControl(s, n);
    OffLedgerKeepsTrades(s, a);
    OffLedgerKeepsDesk(s, a);
  }

  /** The row a settling step rewrites, and the state it leaves there. */
  function Settles(a: Action): Option<(IntentId, IntentState)> {
    match a
    case MarkSubmitting(id) => Some((id, Submitting))
    case Confirm(id) => Some((id, Confirmed))
    case Refuse(id) => Some((id, DefiniteReject))
    case Doubt(id) => Some((id, IntentState.Ambiguous))
    case Abort(id) => Some((id, Aborted))
    case _ => None
  }

  lemma SettlesRestates(s: State, a: Action)
    requires ControlInv(s) && Enabled(s, a) && Settles(a).Some?
    ensures Restated(s, Next(s, a), Settles(a).value.0, Settles(a).value.1)
  {
  }

  /** Every step of the protocol keeps the invariant. */
  lemma StepKeeps(s: State, a: Action)
    requires Inv(s) && Enabled(s, a)
    ensures Inv(Next(s, a))
  {
    if OffLedger(a) {
      OffLedgerKeeps(s, a);
    } else if Settles(a).Some? {
      SettlesRestates(s, a);
      RestatedKeeps(s, Next(s, a), Settles(a).value.0, Settles(a).value.1);
    } else {
      match a
      case PrepareIntent(i) => PrepareKeeps(s, i);
      case PrepareChild(i, cancel) => PrepareChildKeeps(s, i, cancel);
      case Send(id) => SendKeeps(s, Next(s, a), id);
      case Decide(k, f) => DecideKeeps(s, Next(s, a), k, f);
    }
  }

  ghost predicate Step(s: State, n: State) {
    exists a :: Enabled(s, a) && n == Next(s, a)
  }

  lemma SuccessorKeeps(s: State, n: State)
    requires Inv(s) && Step(s, n)
    ensures Inv(n)
  {
    var a :| Enabled(s, a) && n == Next(s, a);
    StepKeeps(s, a);
  }
}
