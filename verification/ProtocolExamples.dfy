/**
 * One run of the order protocol from empty tables, step by step: an entry, a
 * first conversion, a second one that stops after its plan is written, and its
 * recovery beside the order it was to replace.
 */
module ProtocolExamples {
  import opened Basics
  import opened EventLog
  import opened EventTable
  import opened Ledger
  import opened Protocol
  import opened ProtocolSafety
  import opened ProtocolRuns
  import opened ProtocolSteps
  import opened Rounding
  import AdapterSpecs
  import StateStores

  /** The lock is free, nothing is unresolved, and `t` holds 1 BTC under an open
      list, `list`. */
  ghost predicate Protected(s: State, t: TradeId, list: int) {
    && s.work.None? && s.staged.None? && s.armed.None? && NoneUnresolved(s.intents)
    && t in s.trades && s.trades[t].lifecycle.ProtectionActive? && s.trades[t].filled == Some(1.0)
    && s.trades[t].listId == Some(list) && list != 0 && ListRef(list) !in s.done && s.step == 1.0
  }

  lemma {:induction false} ClientBound(tab: Intents, ids: set<IntentId>) returns (c: nat)
    ensures forall id :: id in ids && id in tab && tab[id].request.Place? ==> tab[id].request.client < c
  {
    c := 0;
    if ids != {} {
      var id :| id in ids;
      var rest := ClientBound(tab, ids - {id});
      c := if id in tab && tab[id].request.Place? && tab[id].request.client >= rest then tab[id].request.client + 1 else rest;
    }
  }

  /** A client id the ledger does not hold. */
  lemma FreshClient(s: State) returns (c: nat)
    ensures UnusedClient(s, c)
  {
    c := ClientBound(s.intents, s.intents.Keys);
  }

  // ---- the entry ----

  lemma EntryAllowed(t: TradeId, symbol: string) returns (r: seq<State>)
    ensures IsRun(r)
    ensures Last(r) == Start(1.0).(trades := map[t := StateStores.NewRow(symbol)], signals := map[t := InProgress],
                             desk := Desk.Approved(t), work := Some(t))
  {
    r := DoClaim([Start(1.0)], t);
    r := DoApprove(r, t, StateStores.NewRow(symbol));
    r := DoLockForEntry(r, t);
    assert Last(r).trades == map[t := StateStores.NewRow(symbol)] && Last(r).signals == map[t := InProgress];
  }

  /** The row of `i`, just prepared, is sent, lands, and is confirmed. */
  lemma Confirmed(r: seq<State>, id: IntentId) returns (q: seq<State>)
    requires IsRun(r) && MayMark(Last(r), id) && Last(r).intents[id].request.Place?
    ensures IsRun(q) && r <= q
    ensures
      var s, n := Last(r), Last(q);
      n == s.(intents := SetState(s.intents, id, IntentState.Confirmed), wire := n.wire, staged := None, armed := None)
  {
    var s := Last(r);
    q := DoMark(r, id);
    q := DoSend(q, id);
    q := DoDecide(q, |s.wire|, Landed);
    assert Last(q).wire[|s.wire|] == Wire(id, Landed);
    q := DoSettle(q, id, IntentState.Confirmed);
    assert Last(q).intents == SetState(s.intents, id, IntentState.Confirmed);
  }

  lemma Entered(t: TradeId, symbol: string, list: int) returns (r: seq<State>)
    requires list != 0
    ensures IsRun(r) && Protected(Last(r), t, list) && Last(r).done == {}
    ensures NoOther(Last(r).intents, t, None)
  {
    var i := AdapterSpecs.EntryOf(t, PostOtoco, 0, 1.0, false);
    r := EntryAllowed(t, symbol);
    r := DoPrepare(r, i);
    r := Confirmed(r, i.id);
    var row := StateStores.NewRow(symbol).(lifecycle := ProtectionActive, listId := Some(list), filled := Some(1.0));
    r := DoUpsert(r, t, row);
    r := DoUnlock(r);
  }

  // ---- a conversion ----

  /** The plan of a conversion of the whole position to a fixed OCO. */
  function ReplacementPlan(t: TradeId, client: nat): Intent {
    AdapterSpecs.PlanOf(t, PostOco, AdapterSpecs.SellOf(client, 1.0, FixedOco))
  }

  lemma WholeOnGrid()
    ensures OnGrid(1.0, 1.0)
  {
    assert 1.0 == Grid(1, 1.0);
  }

  lemma PlanMayBeWritten(r: seq<State>, t: TradeId, list: int, client: nat)
    requires IsRun(r) && Last(r).work == Some(t) && Protected(Last(r).(work := None), t, list)
    requires UnusedClient(Last(r), client)
    ensures MayPrepare(Last(r), ReplacementPlan(t, client))
  {
    WholeOnGrid();
    RunInv(r, |r| - 1);
  }

  /** The plan of the trade is written, and the lock is on it. */
  lemma Planned(r: seq<State>, t: TradeId, list: int, client: nat) returns (q: seq<State>)
    requires IsRun(r) && Protected(Last(r), t, list) && UnusedClient(Last(r), client)
    ensures IsRun(q) && r <= q
    ensures
      var s, plan := Last(r), ReplacementPlan(t, client).(created := |Last(r).intents|);
      plan.id !in s.intents &&
      Last(q) == s.(intents := s.intents[plan.id := plan], covers := s.covers[plan.id := ListRef(list)], work := Some(t))
  {
    q := DoLockLive(r, t);
    PlanMayBeWritten(q, t, list, client);
    q := DoPrepare(q, ReplacementPlan(t, client));
  }

  /** The cancel of `id`, just prepared, is sent, and its order ends. */
  lemma Ended(r: seq<State>, id: IntentId) returns (q: seq<State>)
    requires IsRun(r) && MayMark(Last(r), id) && Last(r).intents[id].request.Cancel?
    ensures IsRun(q) && r <= q
    ensures
      var s, n := Last(r), Last(q);
      n == s.(intents := SetState(s.intents, id, IntentState.Confirmed), wire := n.wire, staged := None, armed := None,
              done := s.done + {Target(s.intents[id])})
  {
    var s := Last(r);
    q := DoMark(r, id);
    q := DoSend(q, id);
    q := DoFinish(q, Target(s.intents[id]));
    q := DoSettle(q, id, IntentState.Confirmed);
    assert Last(q).intents == SetState(s.intents, id, IntentState.Confirmed);
  }

  lemma CancelMayBeWritten(r: seq<State>, t: TradeId, list: int)
    requires IsRun(r) && Last(r).work == Some(t) && Last(r).staged.None? && Last(r).armed.None?
    requires t in Last(r).trades && Last(r).trades[t].listId == Some(list) && list != 0
    requires forall x :: !CancelOf(Last(r), x, t)
    ensures MayPrepare(Last(r), AdapterSpecs.ProtectionCancel(t, Last(r).trades[t]))
  {
    RunInv(r, |r| - 1);
    var c := AdapterSpecs.ProtectionCancel(t, Last(r).trades[t]);
    assert c.id in Last(r).intents ==> CancelOf(Last(r), c.id, t);
  }

  /** The recorded list is cancelled, and has ended. */
  lemma Cancelled(r: seq<State>, t: TradeId, list: int) returns (q: seq<State>)
    requires IsRun(r) && Last(r).work == Some(t) && Last(r).staged.None? && Last(r).armed.None?
    requires t in Last(r).trades && Last(r).trades[t].listId == Some(list) && list != 0
    requires forall x :: !CancelOf(Last(r), x, t)
    ensures IsRun(q) && r <= q
    ensures
      var s, n := Last(r), Last(q);
      var c := AdapterSpecs.ProtectionCancel(t, s.trades[t]).(created := |s.intents|, state := IntentState.Confirmed);
      && c.id !in s.intents && Target(c) == ListRef(list)
      && n == s.(intents := s.intents[c.id := c], wire := n.wire, done := s.done + {ListRef(list)})
  {
    var c := AdapterSpecs.ProtectionCancel(t, Last(r).trades[t]);
    CancelMayBeWritten(r, t, list);
    q := DoPrepare(r, c);
    q := Ended(q, c.id);
  }

  lemma ChildTable(r: seq<State>, plan: Intent, cancel: IntentId)
    requires IsRun(r) && Held(Last(r), plan)
    requires LatestCancel(Last(r).intents, plan.trade, cancel) && Last(r).intents[cancel].state.Confirmed?
    ensures
      var s, child := Last(r), ChildOf(plan, plan.request);
      && MayPrepareChild(s, child, cancel) && child.id !in s.intents
      && PrepareTable(s.intents, child, Some(plan.id)) ==
         SetState(s.intents, plan.id, Aborted)[child.id := child.(created := |s.intents|)]
  {
    RunInv(r, |r| - 1);
    SellsInSteps(r, |r| - 1, plan.id);
    CrashedPlanIsResumable(Last(r), plan, plan.request, cancel);
  }

  /** The plan's child is written on the proven cancel, sent, and confirmed. */
  lemma Replaced(r: seq<State>, plan: Intent, cancel: IntentId) returns (q: seq<State>)
    requires IsRun(r) && Held(Last(r), plan)
    requires LatestCancel(Last(r).intents, plan.trade, cancel) && Last(r).intents[cancel].state.Confirmed?
    ensures IsRun(q) && r <= q
    ensures
      var s, n := Last(r), Last(q);
      var child := ChildOf(plan, plan.request).(created := |s.intents|, state := IntentState.Confirmed);
      && child.id !in s.intents
      && n == s.(intents := SetState(s.intents, plan.id, Aborted)[child.id := child], wire := n.wire)
  {
    var child := ChildOf(plan, plan.request);
    ChildTable(r, plan, cancel);
    q := DoPrepareChild(r, child, cancel);
    var table := SetState(Last(r).intents, plan.id, Aborted);
    assert Last(q).intents == table[child.id := child.(created := |Last(r).intents|)];
    q := Confirmed(q, child.id);
  }

  // ---- the first conversion, whole ----

  predicate IsCancel(i: Intent, t: TradeId) {
    i.op.CancelProtection? && i.trade == t
  }

  /** `c` is the only protection cancel of the trade, if `c` is one. */
  ghost predicate NoOther(tab: Intents, t: TradeId, c: Option<IntentId>) {
    forall x :: x in tab && IsCancel(tab[x], t) ==> c == Some(x)
  }

  lemma NoOtherAfter(tab: Intents, i: Intent, t: TradeId, c: Option<IntentId>)
    requires NoOther(tab, t, c) && (IsCancel(i, t) ==> c == Some(i.id))
    ensures NoOther(tab[i.id := i], t, c)
  {
  }

  lemma SoleIsLatest(tab: Intents, t: TradeId, c: IntentId)
    requires NoOther(tab, t, Some(c)) && c in tab && IsCancel(tab[c], t)
    ensures LatestCancel(tab, t, c)
  {
  }

  /** The table of a finished conversion: everything in it is resolved. */
  lemma AllSettled(tab: Intents, plan: Intent, c: Intent, child: Intent)
    requires NoneUnresolved(tab) && c.state.Confirmed? && child.state.Confirmed?
    requires plan.id in tab[plan.id := plan][c.id := c]
    ensures NoneUnresolved(SetState(tab[plan.id := plan][c.id := c], plan.id, Aborted)[child.id := child])
  {
  }

  /** The recorded list is cancelled, and the plan is carried out on that. */
  lemma CarriedOut(r: seq<State>, plan: Intent, list: int) returns (q: seq<State>, c: Intent, child: Intent)
    requires IsRun(r) && Held(Last(r), plan)
    requires plan.trade in Last(r).trades && Last(r).trades[plan.trade].listId == Some(list) && list != 0
    requires NoOther(Last(r).intents, plan.trade, None)
    ensures IsRun(q) && r <= q && c.state.Confirmed? && IsCancel(c, plan.trade) && child.state.Confirmed?
    ensures child.op.Protection? && c.id != child.id && c.id != plan.id
    ensures
      var s, n := Last(r), Last(q);
      n == s.(intents := SetState(s.intents[c.id := c], plan.id, Aborted)[child.id := child], wire := n.wire,
              done := s.done + {ListRef(list)})
  {
    var t := plan.trade;
    assert forall x :: CancelOf(Last(r), x, t) ==> IsCancel(Last(r).intents[x], t);
    c := AdapterSpecs.ProtectionCancel(t, Last(r).trades[t]).(created := |Last(r).intents|, state := IntentState.Confirmed);
    q := Cancelled(r, t, list);
    NoOtherAfter(Last(r).intents, c, t, Some(c.id));
    SoleIsLatest(Last(q).intents, t, c.id);
    child := ChildOf(plan, plan.request).(created := |Last(q).intents|, state := IntentState.Confirmed);
    q := Replaced(q, plan, c.id);
  }

  lemma Rebound(r: seq<State>, t: TradeId, list: int, next: int) returns (q: seq<State>)
    requires IsRun(r) && Last(r).work == Some(t) && NoneUnresolved(Last(r).intents)
    requires t in Last(r).trades && Last(r).trades[t].lifecycle.ProtectionActive? && Last(r).trades[t].filled == Some(1.0)
    requires next != 0 && ListRef(next) !in Last(r).done && Last(r).step == 1.0
    ensures IsRun(q) && r <= q && Protected(Last(q), t, next) && Last(q).intents == Last(r).intents
  {
    q := DoUpsert(r, t, Last(r).trades[t].(listId := Some(next)));
    q := DoUnlock(q);
  }

  /** A first conversion: the list `list` gives way to `next`, over `cancel`. */
  lemma Converted(r: seq<State>, t: TradeId, list: int, next: int, client: nat)
    returns (q: seq<State>, cancel: IntentId)
    requires IsRun(r) && Protected(Last(r), t, list) && UnusedClient(Last(r), client)
    requires NoOther(Last(r).intents, t, None)
    requires next != 0 && next != list && ListRef(next) !in Last(r).done
    ensures IsRun(q) && r <= q && Protected(Last(q), t, next)
    ensures LatestCancel(Last(q).intents, t, cancel) && Last(q).intents[cancel].state.Confirmed?
  {
    WholeOnGrid();
    var tab := Last(r).intents;
    var plan := ReplacementPlan(t, client).(created := |tab|);
    q := Planned(r, t, list, client);
    NoOtherAfter(tab, plan, t, None);
    var c, child;
    q, c, child := CarriedOut(q, plan, list);
    cancel := c.id;
    AllSettled(tab, plan, c, child);
    NoOtherAfter(tab[plan.id := plan], c, t, Some(cancel));
    var settled := tab[plan.id := plan][cancel := c];
    NoOtherAfter(settled, settled[plan.id].(state := Aborted), t, Some(cancel));
    NoOtherAfter(SetState(settled, plan.id, Aborted), child, t, Some(cancel));
    SoleIsLatest(Last(q).intents, t, cancel);
    q := Rebound(q, t, list, next);
  }

  // ---- recovery beside an open order ----

  /** From empty tables: an entry under one list, a first conversion to another,
      a second plan, a crash, and a recovery that writes the plan's child while
      the order it was to replace is open. */
  lemma RecoveredBesideOpenOrder(t: TradeId, symbol: string, list: int, next: int) returns (r: seq<State>, plan: IntentId)
    requires list != 0 && next != 0 && list != next
    ensures IsRun(r) && plan in Last(r).covers && Last(r).covers[plan] == ListRef(next) && ListRef(next) !in Last(r).done
    ensures
      var n := Last(r);
      n.staged.Some? && n.staged.value in n.intents && n.intents[n.staged.value].parent == Some(plan)
  {
    r := Entered(t, symbol, list);
    var cancel;
    var client := FreshClient(Last(r));
    r, cancel := Converted(r, t, list, next, client);
    client := FreshClient(Last(r));
    r := DoLockLive(r, t);
    PlanMayBeWritten(r, t, next, client);
    plan := ReplacementPlan(t, client).id;
    r := SecondConversionResumesOnOldCancel(r, ReplacementPlan(t, client), cancel);
  }
}
