/**
 * What the tables alone prove about the exchange: an order has ended in every
 * reachable state that shows the same tables, or there is a run to the same
 * tables in which it has not.
 */
module ProtocolEvidence {
  import opened Basics
  import opened EventLog
  import opened EventTable
  import opened Ledger
  import opened Protocol
  import opened ProtocolSafety
  import opened ProtocolRuns
  import opened ProtocolSteps

  ghost predicate Reaches(r: seq<State>, s: State) {
    IsRun(r) && Last(r) == s
  }

  ghost predicate Reachable(s: State) {
    exists r :: Reaches(r, s)
  }

  /** All that is durable in this process, and what its plans were drawn up for. */
  predicate SameTables(s: State, n: State) {
    n.intents == s.intents && n.trades == s.trades && n.signals == s.signals && n.covers == s.covers
  }

  /** A CONFIRMED cancel row that names the order. */
  predicate Names(s: State, x: IntentId, ref: Ref) {
    x in s.intents && s.intents[x].state.Confirmed? && s.intents[x].request.Cancel? && Target(s.intents[x]) == ref
  }

  ghost predicate Proven(s: State, ref: Ref) {
    exists x :: Names(s, x, ref)
  }

  lemma ProvenHasEnded(s: State, n: State, ref: Ref)
    requires Inv(n) && SameTables(s, n) && Proven(s, ref)
    ensures ref in n.done
  {
    var x :| Names(s, x, ref);
  }

  // ---- the same run without the end of one order ----

  /** The same state, but for orders that ended: `ref` did not, others may have. */
  predicate Mirrors(s: State, m: State, ref: Ref) {
    m == s.(done := m.done) && ref !in m.done && s.done - {ref} <= m.done
  }

  lemma ProvenStays(s: State, n: State, ref: Ref)
    requires Grows(s, n) && Proven(s, ref)
    ensures Proven(n, ref)
  {
    var x :| Names(s, x, ref);
    assert Names(n, x, ref);
  }

  /** Steps that rest on the end of an order, or bring it about. */
  predicate OnEnds(a: Action) {
    a.PrepareIntent? || a.PrepareChild? || a.Confirm? || a.Finish?
  }

  lemma BlindStep(s: State, m: State, a: Action, ref: Ref)
    requires Mirrors(s, m, ref) && Enabled(s, a) && !OnEnds(a)
    ensures Enabled(m, a) && Mirrors(Next(s, a), Next(m, a), ref)
  {
  }

  lemma FinishStep(s: State, m: State, x: Ref, ref: Ref)
    requires Mirrors(s, m, ref) && x != ref
    ensures Mirrors(Next(s, Finish(x)), Next(m, Finish(x)), ref)
  {
  }

  lemma ConfirmStep(s: State, m: State, id: IntentId, ref: Ref)
    requires Mirrors(s, m, ref) && Enabled(s, Confirm(id)) && !Proven(Next(s, Confirm(id)), ref)
    ensures Enabled(m, Confirm(id)) && Mirrors(Next(s, Confirm(id)), Next(m, Confirm(id)), ref)
  {
    assert !Names(Next(s, Confirm(id)), id, ref);
  }

  lemma ChildMirrors(s: State, m: State, i: Intent, cancel: IntentId, ref: Ref)
    requires Mirrors(s, m, ref) && MayPrepareChild(s, i, cancel) && !Proven(s, ref)
    ensures MayPrepareChild(m, i, cancel)
    ensures Mirrors(AfterPrepare(s, i, i.parent), AfterPrepare(m, i, i.parent), ref)
  {
    assert !Names(s, cancel, ref);
  }

  /** An emergency sell that was written because `ref` had ended. */
  predicate ExitOn(s: State, i: Intent, ref: Ref) {
    i.op.EmergencyExit? && i.trade in s.trades && RecordedProtection(s.trades[i.trade]) == Some(ref)
  }

  lemma PrepareMirrors(s: State, m: State, i: Intent, ref: Ref)
    requires Mirrors(s, m, ref) && MayPrepare(s, i) && !ExitOn(s, i, ref)
    ensures MayPrepare(m, i)
    ensures Mirrors(AfterPrepare(s, i, None), AfterPrepare(m, i, None), ref)
  {
  }

  /** A list id that is not `ref`'s. */
  function OtherList(ref: Ref): int {
    if ref == ListRef(1) then 2 else 1
  }

  lemma DetourMayPrepare(s: State, m: State, i: Intent, ref: Ref, row: Row, d: State)
    requires Mirrors(s, m, ref) && MayPrepare(s, i) && ExitOn(s, i, ref)
    requires row == s.trades[i.trade].(listId := Some(OtherList(ref)))
    requires d == m.(trades := m.trades[i.trade := row], done := m.done + {ListRef(OtherList(ref))})
    ensures MayPrepare(d, i)
  {
  }

  /** An emergency sell names no order: the same row can be written while the trade
      records another list, one that has ended. */
  lemma Detour(q: seq<State>, s: State, i: Intent, ref: Ref) returns (p: seq<State>)
    requires IsRun(q) && TradeInv(s) && Mirrors(s, Last(q), ref) && MayPrepare(s, i) && ExitOn(s, i, ref)
    ensures IsRun(p) && Mirrors(AfterPrepare(s, i, None), Last(p), ref)
  {
    var t, held := i.trade, s.trades[i.trade];
    var row := held.(listId := Some(OtherList(ref)));
    p := DoUpsert(q, t, row);
    p := DoFinish(p, ListRef(OtherList(ref)));
    DetourMayPrepare(s, Last(q), i, ref, row, Last(p));
    p := DoPrepare(p, i);
    assert s.trades[t := row][t := held] == s.trades;
    p := DoUpsert(p, t, held);
  }

  lemma InsertStep(s: State, m: State, a: Action, ref: Ref)
    requires Mirrors(s, m, ref) && Enabled(s, a) && (a.PrepareIntent? || a.PrepareChild?)
    requires !Proven(s, ref) && (a.PrepareIntent? ==> !ExitOn(s, a.intent, ref))
    ensures Enabled(m, a) && Mirrors(Next(s, a), Next(m, a), ref)
  {
    if a.PrepareIntent? {
      PrepareMirrors(s, m, a.intent, ref);
    } else {
      ChildMirrors(s, m, a.intent, a.cancel, ref);
    }
  }

  lemma MirrorStep(s: State, m: State, a: Action, ref: Ref)
    requires Mirrors(s, m, ref) && Enabled(s, a) && a != Finish(ref)
    requires !Proven(s, ref) && !Proven(Next(s, a), ref) && (a.PrepareIntent? ==> !ExitOn(s, a.intent, ref))
    ensures Enabled(m, a) && Mirrors(Next(s, a), Next(m, a), ref)
  {
    if a.PrepareIntent? || a.PrepareChild? {
      InsertStep(s, m, a, ref);
    } else if a.Confirm? {
      ConfirmStep(s, m, a.id, ref);
    } else if a.Finish? {
      FinishStep(s, m, a.ref, ref);
    } else {
      BlindStep(s, m, a, ref);
    }
  }

  lemma FinishSkipped(s: State, m: State, ref: Ref)
    requires Mirrors(s, m, ref)
    ensures Mirrors(Next(s, Finish(ref)), m, ref)
  {
  }

  lemma MirrorExtends(q: seq<State>, s: State, a: Action, ref: Ref) returns (p: seq<State>)
    requires IsRun(q) && TradeInv(s) && Mirrors(s, Last(q), ref) && Enabled(s, a)
    requires !Proven(s, ref) && !Proven(Next(s, a), ref)
    ensures IsRun(p) && Mirrors(Next(s, a), Last(p), ref)
  {
    if a == Finish(ref) {
      FinishSkipped(s, Last(q), ref);
      p := q;
    } else if a.PrepareIntent? && ExitOn(s, a.intent, ref) {
      p := Detour(q, s, a.intent, ref);
    } else {
      MirrorStep(s, Last(q), a, ref);
      Extend(q, a);
      p := q + [Next(Last(q), a)];
    }
  }

  /** Unless a CONFIRMED cancel names the order, another run ends in the same
      tables, on the same wire, under the same control, with the order open. */
  lemma {:induction false} OpenElsewhere(r: seq<State>, n: nat, ref: Ref) returns (q: seq<State>)
    requires IsRun(r) && n < |r| && !Proven(r[n], ref)
    ensures IsRun(q) && Mirrors(r[n], Last(q), ref)
  {
    if n == 0 {
      q := [r[0]];
    } else {
      GrowsAt(r, n);
      RunInv(r, n - 1);
      RunControl(r, n);
      if Proven(r[n - 1], ref) {
        ProvenStays(r[n - 1], r[n], ref);
      }
      q := OpenElsewhere(r, n - 1, ref);
      var a :| Enabled(r[n - 1], a) && r[n] == Next(r[n - 1], a);
      q := MirrorExtends(q, r[n - 1], a, ref);
    }
  }

  // ---- what the tables prove ----

  /** The order has ended in every reachable state with these tables. */
  ghost predicate SureEnded(s: State, ref: Ref) {
    forall n :: Reachable(n) && SameTables(s, n) ==> ref in n.done
  }

  lemma ReachableInv(s: State)
    requires Reachable(s)
    ensures Inv(s)
  {
    var r :| Reaches(r, s);
    RunInv(r, |r| - 1);
  }

  lemma ProvenIsSure(s: State, ref: Ref)
    requires Proven(s, ref)
    ensures SureEnded(s, ref)
  {
    forall n | Reachable(n) && SameTables(s, n)
      ensures ref in n.done
    {
      ReachableInv(n);
      ProvenHasEnded(s, n, ref);
    }
  }

  /** The tables prove that an order has ended exactly when a CONFIRMED cancel row
      names it. */
  lemma TablesProveEndIff(s: State, ref: Ref)
    requires Reachable(s)
    ensures SureEnded(s, ref) <==> exists x :: Names(s, x, ref)
  {
    if Proven(s, ref) {
      ProvenIsSure(s, ref);
    } else {
      var r :| Reaches(r, s);
      var q := OpenElsewhere(r, |r| - 1, ref);
      assert Reaches(q, Last(q)) && SameTables(s, Last(q));
    }
  }

  // ---- recovery ----

  /** Every child that may be written on `cancel` leaves the plan's order ended. */
  ghost predicate ProvesOwn(s: State, plan: Intent, cancel: IntentId)
    requires plan.id in s.covers
  {
    forall i: Intent :: i.parent == Some(plan.id) && Enabled(s, PrepareChild(i, cancel)) ==>
      s.covers[plan.id] in Next(s, PrepareChild(i, cancel)).done
  }

  /** In every reachable state with these tables and this plan under the lock. */
  ghost predicate SureOwn(s: State, plan: Intent, cancel: IntentId)
    requires plan.id in s.covers
  {
    forall n :: Reachable(n) && SameTables(s, n) && Held(n, plan) ==> ProvesOwn(n, plan, cancel)
  }

  lemma ChildShowsOpen(r: seq<State>, plan: Intent, cancel: IntentId)
    requires IsRun(r) && Held(Last(r), plan) && plan.id in Last(r).covers && Last(r).covers[plan.id] !in Last(r).done
    requires LatestCancel(Last(r).intents, plan.trade, cancel) && Last(r).intents[cancel].state.Confirmed?
    ensures !ProvesOwn(Last(r), plan, cancel)
  {
    RunInv(r, |r| - 1);
    SellsInSteps(r, |r| - 1, plan.id);
    var child := ChildOf(plan, plan.request);
    CrashedPlanIsResumable(Last(r), plan, plan.request, cancel);
    ChildStep(Last(r), child, cancel);
    assert child.parent == Some(plan.id);
  }

  lemma SureEndIsSureOwn(s: State, plan: Intent, cancel: IntentId)
    requires plan.id in s.covers && SureEnded(s, s.covers[plan.id])
    ensures SureOwn(s, plan, cancel)
  {
    forall n | Reachable(n) && SameTables(s, n) && Held(n, plan)
      ensures ProvesOwn(n, plan, cancel)
    {
      forall i: Intent | i.parent == Some(plan.id) && Enabled(n, PrepareChild(i, cancel))
        ensures n.covers[plan.id] in Next(n, PrepareChild(i, cancel)).done
      {
        ChildStep(n, i, cancel);
      }
    }
  }

  /** Recovery writes a plan's child on the trade's newest confirmed cancel.  What
      it has then is proof that the plan's own order ended exactly when some
      CONFIRMED cancel row of the ledger names that order; otherwise the very same
      tables also arise with that order open, and the child is written there too. */
  lemma RecoveryProvesOwnIff(s: State, plan: Intent, cancel: IntentId)
    requires Reachable(s) && Held(s, plan) && plan.id in s.covers
    requires LatestCancel(s.intents, plan.trade, cancel) && s.intents[cancel].state.Confirmed?
    ensures SureOwn(s, plan, cancel) <==> exists x :: Names(s, x, s.covers[plan.id])
  {
    var ref := s.covers[plan.id];
    if Proven(s, ref) {
      ProvenIsSure(s, ref);
      SureEndIsSureOwn(s, plan, cancel);
    } else {
      var r :| Reaches(r, s);
      var q := OpenElsewhere(r, |r| - 1, ref);
      ChildShowsOpen(q, plan, cancel);
      assert Reaches(q, Last(q)) && SameTables(s, Last(q)) && Held(Last(q), plan);
    }
  }
}
