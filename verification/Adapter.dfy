/**
 * `BitcoinSpotAdapter`: the sole owner of exchange orders, statement by
 * statement.  The process may die at any step and any exchange call may raise;
 * every state the code can leave is a state of the step system in `Protocol`.
 */
module Adapters {
  import opened AdapterSpecs
  import opened Basics
  import opened EventLog
  import opened EventTable
  import opened Ledger
  import opened Protocol
  import opened ProtocolSafety
  import opened ProtocolRuns
  import opened ProtocolSteps
  import opened Rounding
  import opened StateStores

  /** The exchange, truthful but unreliable: it may answer late, lose a request,
      or fail to answer; what it does say about an order is true. */
  class Exchange {
    const step: real
    var wire: seq<Wire>
    var done: set<Ref>

    constructor (step: real)
      ensures this.step == step && wire == [] && done == {}
    {
      this.step, wire, done := step, [], {};
    }
  }

  class Adapter {
    const store: StateStore
    const gateway: Exchange
    var enabled: bool
    // control state and history of the step system
    ghost var covers: map<IntentId, Ref>
    ghost var desk: Desk
    ghost var work: Option<TradeId>
    ghost var staged: Option<IntentId>
    ghost var armed: Option<IntentId>
    ghost var history: seq<State>

    ghost function S(): State
      reads this, store, gateway
    {
      State(store.intents, store.trades, store.signals, covers, gateway.wire, gateway.done, desk, work, staged, armed,
            gateway.step)
    }

    /** The tables, the exchange and the control state are what `history` leads to. */
    ghost predicate Valid()
      reads this, store, gateway
    {
      gateway.step > 0.0 && IsRun(history) && S() == Last(history)
    }

    /** A legal continuation: history is only extended, entries never re-armed. */
    twostate predicate Onward()
      reads this, store, gateway
    {
      Valid() && old(history) <= history && (enabled ==> old(enabled))
    }

    constructor (step: real)
      requires step > 0.0
      ensures Valid() && fresh(store) && fresh(gateway) && S() == Start(step) && !enabled
    {
      store := new StateStore();
      gateway := new Exchange(step);
      enabled := false;
      covers, desk, work, staged, armed, history := map[], Idle, None, None, None, [Start(step)];
    }

    // ---- the process and the exchange ----

    /** The process dies here, or does not. */
    method MayCrash() returns (r: Res<()>)
      requires Valid()
      modifies this
      ensures Onward()
      ensures r.Done? ==> S() == old(S())
      ensures r.Stop? ==> r.crashed && S() == old(S()).(desk := Idle, work := None, staged := None, armed := None)
    {
      if * {
        history := DoCrash(history);
        desk, work, staged, armed := Idle, None, None, None;
        enabled := false;
        return Stop(true);
      }
      return Done(());
    }

    /** Orders land, are lost, are refused or end, whatever this process does. */
    method Interfere()
      requires Valid()
      modifies `history, gateway
      ensures Onward() && Drifts(old(S()), S())
    {
      var n: nat := *;
      while n > 0
        invariant Onward() && Drifts(old(S()), S())
      {
        var k: nat := *;
        var fate: Fate := *;
        var ref: Ref := *;
        if 0 <= k < |gateway.wire| && gateway.wire[k].fate.Pending? && !fate.Pending? {
          history := DoDecide(history, k, fate);
          gateway.wire := gateway.wire[k := gateway.wire[k].(fate := fate)];
        } else {
          history := DoFinish(history, ref);
          gateway.done := gateway.done + {ref};
        }
        n := n - 1;
      }
    }

    /** A call that touches nothing here: metadata, preflight, a read that may raise. */
    method External() returns (r: Res<()>)
      requires Valid()
      modifies this, gateway
      ensures Onward()
      ensures r.Done? || !r.crashed ==> Drifts(old(S()), S())
      ensures Halts(old(S()), S()) && |gateway.wire| == old(|gateway.wire|)
    {
      Interfere();
      var _ :- MayCrash();
      if * {
        return Stop(false);
      }
      return Done(());
    }

    method FreeBtc() returns (r: Res<real>)
      requires Valid()
      modifies this, gateway
      ensures Onward()
      ensures r.Done? || !r.crashed ==> Drifts(old(S()), S())
      ensures Halts(old(S()), S()) && |gateway.wire| == old(|gateway.wire|)
    {
      var _ :- External();
      var free: real := *;
      return Done(free);
    }

    /** The free balance in whole steps, under the current symbol rules. */
    method FreeSteps() returns (r: Res<real>)
      requires Valid()
      modifies this, gateway
      ensures Onward()
      ensures r.Done? ==> Drifts(old(S()), S()) && OnGrid(r.value, gateway.step)
      ensures Halts(old(S()), S()) && |gateway.wire| == old(|gateway.wire|)
    {
      var _ :- External();
      var free :- FreeBtc();
      FloorStepBounds(free, gateway.step);
      return Done(FloorStep(free, gateway.step));
    }

    /** The request leaves the process, unless that dies first. */
    method Depart(id: IntentId) returns (r: Res<nat>)
      requires Valid() && S().armed == Some(id) && id in store.intents
      modifies this, gateway
      ensures Onward()
      ensures r.Done? ==>
                && r.value == old(|gateway.wire|)
                && S() == old(S()).(armed := None, wire := old(gateway.wire) + [Wire(id, Fate.Pending)])
      ensures r.Stop? ==> Halts(old(S()), S()) && gateway.wire == old(gateway.wire)
    {
      var _ :- MayCrash();
      var k := |gateway.wire|;
      history := DoSend(history, id);
      armed := None;
      gateway.wire := gateway.wire + [Wire(id, Fate.Pending)];
      return Done(k);
    }

    /** The request leaves, and the exchange does something with it. */
    method Transmit(id: IntentId) returns (r: Res<Fate>)
      requires Valid() && S().armed == Some(id) && id in store.intents
      modifies this, gateway
      ensures Onward()
      ensures r.Done? ==> Posted(old(S()), S(), id) && gateway.wire[|gateway.wire| - 1] == Wire(id, r.value)
      ensures r.Stop? ==> Halts(old(S()), S()) && gateway.wire == old(gateway.wire)
    {
      var k :- Depart(id);
      var fate: Fate := *;
      if !fate.Pending? {
        history := DoDecide(history, k, fate);
        gateway.wire := gateway.wire[k := Wire(id, fate)];
      }
      return Done(fate);
    }

    /** POST: the request leaves the process; the reply, if any, is true. */
    method Place(id: IntentId) returns (r: Res<Reply>)
      requires Valid() && S().armed == Some(id) && id in store.intents && store.intents[id].request.Place?
      modifies this, gateway
      ensures Onward()
      ensures r.Done? ==> Posted(old(S()), S(), id)
      ensures r.Done? && r.value.Replied? && Truthy(Identifier(store.intents[id].endpoint, r.value.ids)) ==>
                SentWith(S(), id, Landed)
      ensures r.Done? && r.value.Rejection? ==> SentWith(S(), id, Refused)
      ensures Halts(old(S()), S()) && SentOnly(old(gateway.wire), gateway.wire, id)
    {
      var fate :- Transmit(id);
      ghost var k := |gateway.wire| - 1;
      Interfere();
      assert gateway.wire[k].id == id && (!fate.Pending? ==> gateway.wire[k] == Wire(id, fate));
      var _ :- MayCrash();
      var ids: Ids := *;
      var heard: bool := *;
      if heard && fate.Refused? {
        return Done(Rejection);
      } else if heard && (fate.Landed? || !Truthy(Identifier(store.intents[id].endpoint, ids))) {
        return Done(Replied(ids));
      }
      return Done(Unknown);
    }

    /** DELETE: like a POST; a terminal reply means the order is terminal. */
    method SendCancel(id: IntentId) returns (r: Res<Option<Sighting>>)
      requires Valid() && S().armed == Some(id) && id in store.intents && store.intents[id].request.Cancel?
      modifies this, gateway
      ensures Onward()
      ensures r.Done? ==> Posted(old(S()), S(), id)
      ensures r.Done? && r.value.Some? && r.value.value.probe.Ended? ==> Target(store.intents[id]) in gateway.done
      ensures Halts(old(S()), S()) && SentOnly(old(gateway.wire), gateway.wire, id)
    {
      var fate :- Transmit(id);
      var _ :- MayCrash();
      var seen: Sighting := *;
      var heard: bool := *;
      if !heard {
        return Done(None);
      }
      if seen.probe.Ended? {
        var ref := Target(store.intents[id]);
        history := DoFinish(history, ref);
        gateway.done := gateway.done + {ref};
      }
      return Done(Some(seen));
    }

    /** GET by deterministic client id; None when the call raises. */
    method Lookup(id: IntentId) returns (r: Res<Option<Ids>>)
      requires Valid() && id in store.intents && store.intents[id].request.Place? && !store.intents[id].op.ReplacePlan?
      modifies this, gateway
      ensures Onward()
      ensures r.Done? || !r.crashed ==> Drifts(old(S()), S())
      ensures r.Done? && r.value.Some? && (Truthy(r.value.value.list) || Truthy(r.value.value.order)) ==>
                SentWith(S(), id, Landed)
      ensures Halts(old(S()), S()) && |gateway.wire| == old(|gateway.wire|)
    {
      Interfere();
      var _ :- MayCrash();
      var ids: Ids := *;
      var k: nat := *;
      var client := store.intents[id].request.client;
      var heard: bool := *;
      if 0 <= k < |gateway.wire| && gateway.wire[k].id in store.intents && gateway.wire[k].fate.Landed?
         && store.intents[gateway.wire[k].id].request.Place? && store.intents[gateway.wire[k].id].request.client == client {
        RunInv(history, |history| - 1);
        LandedIsMine(S(), k, id);
        return Done(Some(ids));
      } else if heard && !Truthy(ids.list) && !Truthy(ids.order) {
        return Done(Some(ids));
      }
      return Done(None);
    }

    /** GET of one order or list; raises, or reports truly. */
    method GetStatus(ref: Ref) returns (r: Res<Sighting>)
      requires Valid()
      modifies this, gateway
      ensures Onward()
      ensures r.Done? || !r.crashed ==> Drifts(old(S()), S())
      ensures r.Done? && r.value.probe.Ended? ==> ref in gateway.done
      ensures Halts(old(S()), S()) && |gateway.wire| == old(|gateway.wire|)
    {
      var _ :- External();
      var seen: Sighting := *;
      if seen.probe.Ended? {
        history := DoFinish(history, ref);
        gateway.done := gateway.done + {ref};
      }
      return Done(seen);
    }

    // ---- durable transactions ----

    ghost predicate MaySubmit(i: Intent, cancel: IntentId)
      reads this, store, gateway
    {
      i.id !in store.intents ==> if i.parent.None? then MayPrepare(S(), i) else MayPrepareChild(S(), i, cancel)
    }

    method PrepareRow(i: Intent, ghost cancel: IntentId) returns (r: Res<Prepare>)
      requires Valid() && MaySubmit(i, cancel)
      modifies this, store
      ensures Onward()
      ensures r.Done? && i.id in old(store.intents) ==> r.value.AlreadyThere? && S() == old(S())
      ensures r.Done? && i.id !in old(store.intents) ==> r.value.Inserted? && S() == AfterPrepare(old(S()), i, i.parent)
      ensures r.Stop? ==> Halts(old(S()), S()) && gateway.wire == old(gateway.wire)
    {
      var _ :- MayCrash();
      ghost var s := S();
      var p := store.PrepareIntent(i, i.parent);
      if p.Inserted? {
        if i.parent.None? {
          history := DoPrepare(history, i);
        } else {
          history := DoPrepareChild(history, i, cancel);
        }
        covers, desk, staged := Last(history).covers, Last(history).desk, Last(history).staged;
      }
      return Done(p);
    }

    method Mark(id: IntentId) returns (r: Res<()>)
      requires Valid() && MayMark(S(), id)
      modifies this, store
      ensures Onward()
      ensures r.Done? ==> S() == old(S()).(intents := SetState(old(S()).intents, id, Submitting), staged := None, armed := Some(id))
      ensures r.Stop? ==> Halts(old(S()), S()) && gateway.wire == old(gateway.wire)
    {
      var _ :- MayCrash();
      history := DoMark(history, id);
      staged, armed := None, Some(id);
      var ok := store.MarkIntentSubmitting(id);
      return Done(());
    }

    method Settle(id: IntentId, st: IntentState) returns (r: Res<()>)
      requires Valid() && MaySettle(S(), id, st)
      modifies this, store
      ensures Onward()
      ensures r.Done? ==> S() == old(S()).(intents := SetState(old(S()).intents, id, st))
      ensures r.Stop? ==> Halts(old(S()), S()) && gateway.wire == old(gateway.wire)
    {
      var _ :- MayCrash();
      history := DoSettle(history, id, st);
      var ok := store.FinishIntent(id, st);
      return Done(());
    }

    method Upsert(t: TradeId, p: Patch) returns (r: Res<()>)
      requires Valid() && S().work == Some(t) && t in store.trades
      requires Patched(store.trades[t], p).lifecycle.SignalApproved? ==> Unbound(Patched(store.trades[t], p))
      modifies this, store
      ensures Onward()
      ensures r.Done? ==> S() == old(S()).(trades := old(S()).trades[t := Patched(old(S()).trades[t], p)])
      ensures r.Done? ==> store.log == old(store.log)
      ensures r.Stop? ==> Halts(old(S()), S()) && gateway.wire == old(gateway.wire)
    {
      var _ :- MayCrash();
      history := DoUpsert(history, t, Patched(store.trades[t], p));
      store.UpsertTrade(t, store.trades[t].symbol, p);
      return Done(());
    }

    method RecordEvent(e: Event) returns (r: Res<()>)
      requires Valid()
      modifies this, store
      ensures Onward()
      ensures r.Done? ==> Tables(store.trades, store.log) == Record(Tables(old(store.trades), old(store.log)), e)
      ensures r.Done? ==> S() == old(S()).(trades := S().trades) && store.trades.Keys == old(store.trades).Keys
      ensures r.Stop? ==> Halts(old(S()), S()) && gateway.wire == old(gateway.wire)
    {
      var _ :- MayCrash();
      var isNew := store.RecordExchangeEvent(e);
      if isNew {
        history := DoStore(history, e);
      }
      return Done(());
    }

    method ReplayTrade(t: TradeId) returns (r: Res<()>)
      requires Valid()
      modifies this, store
      ensures Onward()
      ensures r.Done? ==> Tables(store.trades, store.log) == Replay(Tables(old(store.trades), old(store.log)), t)
      ensures r.Done? ==> S() == old(S()).(trades := S().trades) && store.trades.Keys == old(store.trades).Keys
      ensures r.Stop? ==> Halts(old(S()), S()) && gateway.wire == old(gateway.wire)
    {
      var _ :- MayCrash();
      if t in store.trades {
        RoutedMatches(store.trades[t], store.log);
        history := DoReplay(history, t, Routed(store.trades[t], store.log));
      }
      var applied := store.ReplayExchangeEventsForTrade(t);
      return Done(());
    }

    // ---- crossing to the exchange ----

    method Post(id: IntentId) returns (r: Res<Reply>)
      requires Valid() && MayMark(S(), id) && store.intents[id].request.Place?
      modifies this, store, gateway
      ensures Onward() && Confined(old(S()), S(), id)
      ensures r.Done? ==> Crossed(old(S()), S(), id, Submitting)
      ensures r.Done? && r.value.Replied? && Truthy(Identifier(store.intents[id].endpoint, r.value.ids)) ==>
                SentWith(S(), id, Landed)
      ensures r.Done? && r.value.Rejection? ==> SentWith(S(), id, Refused)
    {
      var _ :- Mark(id);
      var reply :- Place(id);
      return Done(reply);
    }

    /** Looks for an exchange identifier: in the reply, and by client id on doubt. */
    method Identify(id: IntentId, reply: Reply, first: bool) returns (r: Res<Naming>)
      requires Valid() && id in store.intents && store.intents[id].request.Place? && !store.intents[id].op.ReplacePlan?
      requires reply.Replied? && Truthy(Identifier(store.intents[id].endpoint, reply.ids)) ==> SentWith(S(), id, Landed)
      modifies this, gateway
      ensures Onward() && Halts(old(S()), S()) && |gateway.wire| == old(|gateway.wire|)
      ensures r.Done? ==> Drifts(old(S()), S())
      ensures r.Done? && r.value.NamedBy? ==>
                Truthy(Identifier(store.intents[id].endpoint, r.value.ids)) && SentWith(S(), id, Landed)
      ensures r.Done? && r.value.Unanswered? ==> !reply.Replied?
    {
      var ids: Ids;
      if reply.Replied? {
        ids := reply.ids;
      } else {
        var found :- Lookup(id);
        if found.None? || (!Truthy(found.value.list) && !Truthy(found.value.order)) {
          return Done(Unanswered);
        }
        ids := found.value;
      }
      if first && !Truthy(Identifier(store.intents[id].endpoint, ids)) {
        var found :- Lookup(id);
        if found.Some? {
          ids := found.value;
        }
      }
      return Done(if Truthy(Identifier(store.intents[id].endpoint, ids)) then NamedBy(ids) else Nameless);
    }

    method Conclude(id: IntentId, st: IntentState, pause: bool) returns (r: Res<()>)
      requires Valid() && MaySettle(S(), id, st)
      modifies this, store
      ensures Onward()
      ensures r.Done? ==> S() == old(S()).(intents := SetState(old(S()).intents, id, st))
      ensures r.Stop? ==> Halts(old(S()), S()) && gateway.wire == old(gateway.wire)
      ensures r.Done? && pause && st.Ambiguous? ==> !enabled
    {
      var _ :- Settle(id, st);
      if pause && st.Ambiguous? {
        Pause();
      }
      return Done(());
    }

    /** The shared tail of `_submit_once` and `_resume_existing_prepared_submission`:
        mark, POST once, look up on doubt, and finish on evidence.  A first
        submission looks up a second time and pauses entries when in doubt. */
    method Cross(id: IntentId, first: bool) returns (r: Res<Outcome>)
      requires Valid() && MayMark(S(), id) && store.intents[id].request.Place?
      modifies this, store, gateway
      ensures Onward() && Confined(old(S()), S(), id)
      ensures r.Done? ==> Crossed(old(S()), S(), id, r.value.state)
      ensures r.Done? ==> r.value.state.Confirmed? || r.value.state.DefiniteReject? || r.value.state.Ambiguous?
      ensures r.Done? && r.value.state.Confirmed? ==>
                r.value.ids.Some? && Truthy(Identifier(store.intents[id].endpoint, r.value.ids.value))
      ensures r.Done? && r.value.state.Ambiguous? && first ==> !enabled
    {
      var reply :- Post(id);
      var naming :- Identify(id, reply, first);
      assert Crossed(old(S()), S(), id, Submitting);
      var st := if naming.NamedBy? then Confirmed
                else if naming.Unanswered? && reply.Rejection? then DefiniteReject else IntentState.Ambiguous;
      var _ :- Conclude(id, st, first);
      return Done(Outcome(st, if naming.NamedBy? then Some(naming.ids) else None));
    }

    /** `_submit_once`: prepare under a deterministic id, then cross once.  An id
        that is already in the ledger is reported as it stands and not sent. */
    method SubmitOnce(i: Intent, ghost cancel: IntentId) returns (r: Res<Outcome>)
      requires Valid() && MaySubmit(i, cancel) && i.request.Place? && !i.op.ReplacePlan?
      modifies this, store, gateway
      ensures Onward() && Ventured(old(S()), S(), i)
      ensures r.Done? && i.id in old(store.intents) ==>
                S() == old(S()) && r.value == Outcome(old(store.intents)[i.id].state, None)
      ensures r.Done? && i.id !in old(store.intents) ==> Submitted(old(S()), S(), i, r.value.state)
      ensures r.Done? && i.id !in old(store.intents) ==>
                (r.value.state.Confirmed? && r.value.ids.Some? && Truthy(Identifier(i.endpoint, r.value.ids.value)))
                || r.value.state.DefiniteReject? || (r.value.state.Ambiguous? && !enabled)
    {
      var p :- PrepareRow(i, cancel);
      if p.AlreadyThere? {
        return Done(Outcome(store.intents[i.id].state, None));
      }
      var out :- Cross(i.id, true);
      return Done(out);
    }

    /** DELETE of a prepared cancel row.  `expected` is the identifier the reply
        has to carry, when the caller checks it. */
    method CrossCancel(id: IntentId, expected: Option<int>) returns (r: Res<bool>)
      requires Valid() && MayMark(S(), id) && store.intents[id].request.Cancel?
      modifies this, store, gateway
      ensures Onward() && Confined(old(S()), S(), id)
      ensures r.Done? ==> Crossed(old(S()), S(), id, if r.value then Confirmed else IntentState.Ambiguous)
      ensures r.Done? && r.value ==> Target(store.intents[id]) in gateway.done
    {
      var _ :- Mark(id);
      var seen :- SendCancel(id);
      var valid := seen.Some? && seen.value.probe.Ended? && (expected.Some? ==> seen.value.named == expected);
      var _ :- Settle(id, if valid then Confirmed else IntentState.Ambiguous);
      return Done(valid);
    }

    // ---- binding ----

    method RecordReports(reports: seq<Event>) returns (r: Res<()>)
      requires Valid()
      modifies this, store, gateway
      ensures Onward() && RowsOnly(old(S()), S())
      ensures r.Done? ==> Drifts(old(S()).(trades := S().trades), S())
      ensures r.Done? ==> Tables(store.trades, store.log) == RecordAll(Tables(old(store.trades), old(store.log)), reports)
    {
      ghost var db := Tables(store.trades, store.log);
      var k := 0;
      assert reports[..0] == [];
      while k < |reports|
        invariant 0 <= k <= |reports|
        invariant Onward() && RowsOnly(old(S()), S())
        invariant Drifts(old(S()).(trades := S().trades), S())
        invariant Tables(store.trades, store.log) == RecordAll(db, reports[..k])
      {
        var _ :- External();
        var _ :- RecordEvent(reports[k]);
        assert reports[..k + 1][..k] == reports[..k];
        k := k + 1;
      }
      assert reports[..k] == reports;
      return Done(());
    }

    method BindAndReplay(i: Intent, ids: Ids) returns (r: Res<()>)
      requires Valid() && S().work == Some(i.trade) && i.trade in store.trades
      modifies this, store, gateway
      ensures Onward() && RowsOnly(old(S()), S())
      ensures r.Done? ==> Drifts(old(S()).(trades := S().trades), S())
      ensures r.Done? ==>
                Tables(store.trades, store.log) ==
                Replay(RecordAll(Bound(Tables(old(store.trades), old(store.log)), i, ids), ids.reports), i.trade)
    {
      BoundRowIsTame(history, i, ids);
      var _ :- Upsert(i.trade, BindPatch(i, ids, store.trades[i.trade]));
      ghost var u := S();
      RowsThen(old(S()), old(S()), u);
      var reported := RecordReports(ids.reports);
      ghost var m := S();
      RowsJoin(old(S()), u, m);
      if reported.Stop? {
        return Stop(reported.crashed);
      }
      r := ReplayTrade(i.trade);
      if r.Done? {
        RowsThen(old(S()), m, S());
      } else {
        RowsHalt(old(S()), m, S());
      }
    }

    /** Identifiers first, then the reply's events, then a replay of everything
        stored: events that overtook the reply are not lost. */
    method Bind(i: Intent, ids: Ids) returns (r: Res<()>)
      requires Valid() && S().work == Some(i.trade)
      modifies this, store, gateway
      ensures Onward() && RowsOnly(old(S()), S())
      ensures r.Done? ==> Drifts(old(S()).(trades := S().trades), S())
      ensures r.Done? && i.trade in old(store.trades) ==>
                Tables(store.trades, store.log) ==
                Replay(RecordAll(Bound(Tables(old(store.trades), old(store.log)), i, ids), ids.reports), i.trade)
      ensures r.Done? && i.trade in old(store.trades) && Named(i, ids) ==> Tied(i, store.trades[i.trade])
    {
      if i.trade !in store.trades {
        return Done(());
      }
      BindTies(Tables(store.trades, store.log), i, ids);
      r := BindAndReplay(i, ids);
    }

    /** Bind, then overwrite what the caller decided about the row. */
    method BindThen(i: Intent, ids: Ids, p: Patch) returns (r: Res<()>)
      requires Valid() && S().work == Some(i.trade) && i.trade in store.trades
      requires p.lifecycle.Some? && !p.lifecycle.value.SignalApproved?
      modifies this, store, gateway
      ensures Onward() && RowsOnly(old(S()), S())
      ensures r.Done? ==> Drifts(old(S()).(trades := S().trades), S())
      ensures r.Done? ==> store.trades[i.trade] == Patched(store.trades[i.trade], p)
      ensures r.Done? && p.ids.None? && Named(i, ids) ==> Tied(i, store.trades[i.trade])
    {
      var _ :- Bind(i, ids);
      PatchTwice(store.trades[i.trade], p);
      ghost var m := S();
      r := Upsert(i.trade, p);
      if r.Done? {
        RowsThen(old(S()), m, S());
      } else {
        RowsHalt(old(S()), m, S());
      }
    }

    // ---- cancelling ----

    /** A cancel already in the ledger counts only if it was confirmed and the
        order is still seen terminal; a failing lookup proves nothing. */
    method PriorCancelHolds(i: Intent) returns (r: Res<bool>)
      requires Valid() && i.id in store.intents && i.request.Cancel?
      modifies this, gateway
      ensures Onward() && Halts(old(S()), S()) && |gateway.wire| == old(|gateway.wire|)
      ensures r.Done? ==> Drifts(old(S()), S())
      ensures r.Done? && r.value ==> store.intents[i.id].state.Confirmed? && Target(i) in gateway.done
    {
      if !store.intents[i.id].state.Confirmed? {
        return Done(false);
      }
      var seen := GetStatus(Target(i));
      match seen
      case Stop(crashed) => return if crashed then Stop(true) else Done(false);
      case Done(s) => return Done(s.named == Some(RefId(Target(i))) && s.probe.Ended?);
    }

    /** True only when the recorded list or stop order is proven terminal by a
        confirmed cancel that names exactly it. */
    method CancelProtectionOf(t: TradeId) returns (r: Res<bool>)
      requires Valid() && work == Some(t) && staged.None? && armed.None? && t in store.trades
      modifies this, store, gateway
      ensures Onward() && OnlyCancels(old(S()), S(), ProtectionCancel(t, old(store.trades)[t]))
      ensures r.Done? ==> work == Some(t) && staged.None? && armed.None? && desk == old(desk)
      ensures r.Done? && r.value ==>
                RecordedProtection(old(store.trades)[t]).Some? &&
                CancelProven(S(), t, RecordedProtection(old(store.trades)[t]).value, ProtectionCancel(t, old(store.trades)[t]).id)
    {
      var row := store.trades[t];
      if !Truthy(row.listId) && !Truthy(row.stopId) {
        return Done(false);
      }
      var i := ProtectionCancel(t, row);
      var p :- PrepareRow(i, i.id);
      if p.AlreadyThere? {
        var holds :- PriorCancelHolds(i);
        if holds {
          StoredCancel(history, t, row);
        }
        return Done(holds);
      }
      var ok :- CrossCancel(i.id, Some(RefId(Target(i))));
      return Done(ok);
    }

    /** The working BUY's own list; the caller re-reads the order afterwards. */
    method CancelEntryList(t: TradeId, op: Operation) returns (r: Res<bool>)
      requires Valid() && work == Some(t) && staged.None? && armed.None? && t in store.trades
      requires op.CancelPartialEntry? || op.CancelStaleEntry?
      modifies this, store, gateway
      ensures Onward() && OnlyCancels(old(S()), S(), EntryCancel(op, t, old(store.trades)[t]))
      ensures r.Done? ==> work == Some(t) && staged.None? && armed.None? && desk == old(desk)
      ensures r.Done? && r.value && Truthy(old(store.trades)[t].listId) ==>
                var id := EntryCancel(op, t, old(store.trades)[t]).id;
                id in store.intents && store.intents[id].state.Confirmed?
    {
      var row := store.trades[t];
      if !Truthy(row.listId) {
        return Done(true);
      }
      var i := EntryCancel(op, t, row);
      var p :- PrepareRow(i, i.id);
      if p.AlreadyThere? {
        return Done(store.intents[i.id].state.Confirmed?);
      }
      var ok :- CrossCancel(i.id, None);
      return Done(ok);
    }

    // ---- replacing protection ----

    /** A client id no placement in the ledger carries. */
    method NewClient() returns (c: nat)
      ensures UnusedClient(S(), c)
    {
      c := 0;
      var left := store.intents.Keys;
      while left != {}
        invariant left <= store.intents.Keys
        invariant forall id :: id in store.intents && id !in left && store.intents[id].request.Place? ==>
                    store.intents[id].request.client < c
        decreases |left|
      {
        var id :| id in left;
        left := left - {id};
        if store.intents[id].request.Place? && store.intents[id].request.client >= c {
          c := store.intents[id].request.client + 1;
        }
      }
    }

    /** The plan is written down before anything is cancelled. */
    method WritePlan(t: TradeId, mode: Mode, quantity: real) returns (r: Res<Intent>)
      requires Valid() && work == Some(t) && staged.None? && armed.None? && t in store.trades
      requires NoneUnresolved(store.intents)
      requires 0.0 < quantity <= Owned(store.trades[t]) && OnGrid(quantity, gateway.step)
      modifies this, store
      ensures Onward()
      ensures r.Done? ==>
                && r.value.id !in old(store.intents) && r.value.op.ReplacePlan? && r.value.trade == t
                && r.value.request == SellOf(r.value.request.GetClient(), quantity, mode)
                && r.value.endpoint == EndpointOf(mode) && WellFormed(r.value) && r.value.state.Prepared?
                && r.value.created == |old(store.intents)|
                && S() == old(S()).(intents := old(S()).intents[r.value.id := r.value], covers := covers)
                && (RecordedProtection(store.trades[t]).Some? ==>
                      r.value.id in covers && covers[r.value.id] == RecordedProtection(store.trades[t]).value)
      ensures r.Stop? ==> Halts(old(S()), S()) && gateway.wire == old(gateway.wire)
    {
      var client := NewClient();
      var plan := PlanOf(t, EndpointOf(mode), SellOf(client, quantity, mode));
      PlanIsNew(history, plan);
      var p :- PrepareRow(plan, plan.id);
      return Done(store.intents[plan.id]);
    }

    /** Preflight, then the child of `plan` through `_submit_once`. */
    method SubmitChild(plan: Intent, use: Request, ghost cancel: IntentId) returns (r: Res<Outcome>)
      requires Valid() && PlanOpen(S(), plan) && MayReplace(S(), plan, use)
      requires ChildOf(plan, use).id !in store.intents && MayPrepareChild(S(), ChildOf(plan, use), cancel)
      modifies this, store, gateway
      ensures Onward() && CarriesOut(old(S()), S(), plan) && ChildrenAre(old(S()), S(), use)
      ensures S().trades == old(S()).trades && S().signals == old(S()).signals
      ensures r.Done? ==>
                && work == Some(plan.trade) && staged.None? && armed.None? && desk == old(desk)
                && ChildOf(plan, use).id in store.intents
                && store.intents[ChildOf(plan, use).id].state == r.value.state
                && store.intents[plan.id].state.Aborted?
      ensures r.Done? ==>
                (r.value.state.Confirmed? && r.value.ids.Some? && Truthy(Identifier(plan.endpoint, r.value.ids.value)))
                || r.value.state.DefiniteReject? || (r.value.state.Ambiguous? && !enabled)
    {
      var _ :- External();
      assert MayPrepareChild(S(), ChildOf(plan, use), cancel);
      var out :- SubmitOnce(ChildOf(plan, use), cancel);
      return Done(out);
    }

    /** The plan's own request, or a new one for the smaller free balance. */
    method Shrink(plan: Intent, mode: Mode, held: real) returns (r: Res<Request>)
      requires Valid() && plan.request.Place? && 0.0 < plan.request.quantity && 0.0 < held
      requires OnGrid(plan.request.quantity, gateway.step) && OnGrid(held, gateway.step)
      modifies this, gateway
      ensures Onward() && Halts(old(S()), S()) && |gateway.wire| == old(|gateway.wire|)
      ensures r.Done? ==>
                && Drifts(old(S()), S()) && MayReplace(S(), plan, r.value)
                && r.value.quantity == (if held < plan.request.quantity then held else plan.request.quantity)
    {
      if held >= plan.request.quantity {
        return Done(plan.request);
      }
      var _ :- External();
      var client := NewClient();
      return Done(SellOf(client, held, mode));
    }

    method RecordReplacement(child: Intent, out: Outcome, mode: Mode, guard: Guard) returns (r: Res<Conversion>)
      requires Valid() && S().work == Some(child.trade) && child.trade in store.trades && child.request.Place?
      requires out.state.Confirmed? ==> out.ids.Some?
      modifies this, store, gateway
      ensures Onward() && RowsOnly(old(S()), S())
      ensures r.Done? ==> r.value == if out.state.Confirmed? then Replaced(child.id, out.ids.value) else Unconfirmed
      ensures r.Done? && out.state.Confirmed? ==>
                ReplacedRow(store.trades[child.trade], child.endpoint, out.ids.value, mode, guard, child.request.quantity)
      ensures r.Done? && !out.state.Confirmed? ==> store.trades[child.trade].lifecycle == Lifecycle.Ambiguous
    {
      if !out.state.Confirmed? {
        var _ :- Upsert(child.trade, Patch1(Lifecycle.Ambiguous, "PROTECTION_REPLACEMENT_UNCONFIRMED"));
        return Done(Unconfirmed);
      }
      var patch := ReplacedPatch(store.trades[child.trade], child.endpoint, out.ids.value, mode, guard, child.request.quantity);
      var _ :- BindThen(child, out.ids.value, patch);
      return Done(Replaced(child.id, out.ids.value));
    }

    /** After the cancel: shrink to the free balance if it fell short, submit,
        and bind; an unconfirmed replacement leaves the row AMBIGUOUS. */
    method PlaceReplacement(plan: Intent, mode: Mode, guard: Guard, held: real, ghost cancel: IntentId)
      returns (r: Res<Conversion>)
      requires Valid() && PlanOpen(S(), plan) && plan.trade in store.trades
      requires plan.request.Place? && 0.0 < plan.request.quantity && 0.0 < held
      requires OnGrid(plan.request.quantity, gateway.step) && OnGrid(held, gateway.step)
      requires plan.id in covers && CancelProven(S(), plan.trade, covers[plan.id], cancel)
      modifies this, store, gateway
      ensures Onward() && CarriesOut(old(S()), S(), plan)
      ensures ChildrenSell(old(S()), S(), if held < plan.request.quantity then held else plan.request.quantity)
      ensures r.Done? ==> r.value.Replaced? || r.value.Unconfirmed?
      ensures r.Done? && plan.trade in store.trades ==> store.intents[plan.id].state.Aborted?
      ensures r.Done? && r.value.Replaced? ==>
                && r.value.child in store.intents && r.value.child !in old(store.intents)
                && store.intents[r.value.child].state.Confirmed?
                && plan.trade in store.trades
                && ReplacedRow(store.trades[plan.trade], plan.endpoint, r.value.ids, mode, guard,
                               if held < plan.request.quantity then held else plan.request.quantity)
      ensures r.Done? && r.value.Unconfirmed? ==>
                plan.trade in store.trades && store.trades[plan.trade].lifecycle == Lifecycle.Ambiguous
    {
      var use :- Shrink(plan, mode, held);
      OwnCancelAllowsChild(history, plan, use, cancel);
      var out :- SubmitChild(plan, use, cancel);
      var end :- RecordReplacement(ChildOf(plan, use), out, mode, guard);
      return Done(end);
    }

    /** Nothing is free: the position is gone, or still locked somewhere. */
    method CloseIfExited(plan: Intent, note: string) returns (r: Res<bool>)
      requires Valid() && PlanOpen(S(), plan) && plan.trade in store.trades
      modifies this, store, gateway
      ensures Onward() && CarriesOut(old(S()), S(), plan) && S().intents.Keys == old(S()).intents.Keys
      ensures r.Done? ==>
                && plan.trade in store.trades
                && store.intents[plan.id].state == (if r.value then Aborted else Prepared)
                && (r.value ==> store.trades[plan.trade].lifecycle.ExitFilled?)
    {
      var total :- FreeBtc();
      if FloorStep(total, gateway.step) > 0.0 {
        return Done(false);
      }
      var _ :- Settle(plan.id, Aborted);
      var _ :- Upsert(plan.trade, Patch1(ExitFilled, note));
      return Done(true);
    }

    /** The cancel is proven: measure what is free, and replace or close. */
    method ReplaceAfterCancel(plan: Intent, mode: Mode, guard: Guard, ghost cancel: IntentId)
      returns (r: Res<Conversion>)
      requires Valid() && PlanOpen(S(), plan) && plan.trade in store.trades
      requires plan.request.Place? && 0.0 < plan.request.quantity && OnGrid(plan.request.quantity, gateway.step)
      requires plan.id in covers && CancelProven(S(), plan.trade, covers[plan.id], cancel)
      modifies this, store, gateway
      ensures Onward() && CarriesOut(old(S()), S(), plan) && ChildrenFit(old(S()), S(), plan, gateway.step)
      ensures r.Done? ==> ConversionEnds(S(), plan, mode, guard, r.value)
    {
      var held :- FreeSteps();
      if held <= 0.0 {
        var gone :- CloseIfExited(plan, "EXITED_DURING_PROTECTION_CONVERSION");
        return Done(if gone then Exited else Retained);
      }
      var end :- PlaceReplacement(plan, mode, guard, held, cancel);
      return Done(end);
    }

    /** The plan stays PREPARED when the cancel cannot be proven. */
    method PlanAndCancel(t: TradeId, mode: Mode, quantity: real) returns (r: Res<(Intent, bool)>)
      requires Valid() && work == Some(t) && staged.None? && armed.None? && t in store.trades
      requires NoneUnresolved(store.intents)
      requires 0.0 < quantity <= Owned(store.trades[t]) && OnGrid(quantity, gateway.step)
      modifies this, store, gateway
      ensures Onward() && ConvertsOwn(old(S()), S(), t, gateway.step)
      ensures r.Done? ==>
                && !enabled && PlanOpen(S(), r.value.0) && r.value.0.id !in old(store.intents)
                && r.value.0.trade == t && t in store.trades
                && r.value.0.endpoint == EndpointOf(mode)
                && r.value.0.request == SellOf(r.value.0.request.GetClient(), quantity, mode)
                && r.value.0.created == |old(store.intents)|
      ensures r.Done? && r.value.1 ==> ReadyToReplace(old(S()), S(), r.value.0, gateway.step)
    {
      ghost var s := S();
      var plan :- WritePlan(t, mode, quantity);
      ghost var m := S();
      Pause();
      var ok := CancelProtectionOf(t);
      PlannedAndCancelled(s, m, S(), plan, gateway.step);
      match ok
      case Stop(crashed) => return Stop(crashed);
      case Done(proven) => return Done((plan, proven));
    }

    /** With the lock held and every check passed: plan, cancel, replace. */
    method ConvertLocked(t: TradeId, mode: Mode, guard: Guard, quantity: real) returns (r: Res<Conversion>)
      requires Valid() && work == Some(t) && staged.None? && armed.None? && t in store.trades
      requires NoneUnresolved(store.intents)
      requires 0.0 < quantity <= Owned(store.trades[t]) && OnGrid(quantity, gateway.step)
      modifies this, store, gateway
      ensures Onward() && ConvertsOwn(old(S()), S(), t, gateway.step)
      ensures r.Done? ==> !enabled && Converted(old(store.intents), S(), t, mode, guard, r.value)
    {
      ghost var s := S();
      var planned :- PlanAndCancel(t, mode, quantity);
      var plan := planned.0;
      if !planned.1 {
        return Done(Retained);
      }
      ghost var c := S();
      r := ReplaceAfterCancel(plan, mode, guard, ProtectionCancel(t, s.trades[t]).id);
      ConversionComposes(s, c, S(), plan, gateway.step);
    }

    method ConvertChecked(symbol: string, mode: Mode, guard: Guard) returns (r: Res<Conversion>)
      requires Valid() && work.None? && staged.None? && armed.None?
      modifies this, store, gateway
      ensures Onward() && MayConvert(old(S()), S(), gateway.step)
      ensures r.Done? && r.value.Declined? ==> Drifts(old(S()), S())
      ensures r.Done? && !r.value.Declined? ==>
                !enabled && exists t: TradeId :: Converted(old(store.intents), S(), t, mode, guard, r.value)
    {
      var found := store.ActiveTradeForSymbol(symbol);
      if found.None? || !NoneUnresolved(store.intents) || !Convertible(store.trades[found.value].lifecycle) {
        return Done(Declined);
      }
      var t := found.value;
      var _ :- External();
      var quantity := FloorStep(HeldQuantity(store.trades[t]), gateway.step);
      FloorStepBounds(HeldQuantity(store.trades[t]), gateway.step);
      var priced: bool := *;
      if store.trades[t].average.GetOr(0.0) <= 0.0 || quantity <= 0.0 || !priced {
        return Done(Declined);
      }
      var _ :- External();
      LockLiveTrade(t);
      ghost var s := S();
      r := ConvertLocked(t, mode, guard, quantity);
      ConvertsFromDrift(old(S()), s, S(), t, gateway.step);
    }

    /** `convert`: a protection changes hands only under the lock, and only once
        the protection on record is proven terminal. */
    method Convert(symbol: string, asked: Mode, guard: Guard) returns (r: Res<Conversion>)
      requires Valid() && work.None? && staged.None? && armed.None?
      modifies this, store, gateway
      ensures Onward() && work.None? && staged.None? && armed.None?
      ensures MayConvert(old(S()), S(), gateway.step)
      ensures r.Done? && r.value.Declined? ==> Drifts(old(S()), S())
      ensures r.Done? && !r.value.Declined? ==>
                !enabled && exists t: TradeId :: ConvertedAs(old(store.intents), S(), t, guard, asked, r.value)
    {
      r := ConvertChecked(symbol, ModeFor(guard, asked), guard);
      ghost var n := S();
      Unlock();
      if r.Done? && !r.value.Declined? {
        ghost var t :| Converted(old(store.intents), n, t, ModeFor(guard, asked), guard, r.value);
        assert ConvertedAs(old(store.intents), S(), t, guard, asked, r.value);
      }
    }

    // ---- entering ----

    /** The reply decides the row: bound, rejected, or left in doubt. */
    method RecordEntry(i: Intent, out: Outcome) returns (r: Res<bool>)
      requires Valid() && S().work == Some(i.trade) && i.trade in store.trades && i.op.Entry? && WellFormed(i)
      requires out.state.Confirmed? ==> out.ids.Some? && Truthy(Identifier(i.endpoint, out.ids.value))
      modifies this, store, gateway
      ensures Onward() && RowsOnly(old(S()), S())
      ensures r.Done? ==> Drifts(old(S()).(trades := S().trades), S()) && r.value == out.state.Confirmed?
      ensures r.Done? && r.value ==> Truthy(store.trades[i.trade].listId)
      ensures r.Done? && out.state.DefiniteReject? ==> store.trades[i.trade].lifecycle.EntryRejected?
      ensures r.Done? && !out.state.DefiniteReject? && !out.state.Confirmed? ==>
                store.trades[i.trade].lifecycle == Lifecycle.Ambiguous && (enabled ==> old(enabled))
    {
      if out.state.DefiniteReject? {
        var _ :- Upsert(i.trade, Patch1(EntryRejected, "ENTRY_DEFINITELY_REJECTED"));
        return Done(false);
      } else if !out.state.Confirmed? {
        var _ :- Upsert(i.trade, Patch1(Lifecycle.Ambiguous, "ENTRY_AMBIGUOUS_RECONCILE_REQUIRED"));
        return Done(false);
      }
      var _ :- Bind(i, out.ids.value);
      return Done(true);
    }

    method PostEntry(t: TradeId, endpoint: Endpoint, quantity: real, trailing: bool) returns (r: Res<(Intent, Outcome)>)
      requires Valid() && work == Some(t) && staged.None? && armed.None? && desk == Approved(t)
      requires t in store.trades && NoneUnresolved(store.intents) && (endpoint.PostOto? || endpoint.PostOtoco?)
      modifies this, store, gateway
      ensures Onward() && EntersOnce(old(S()), S(), t)
      ensures r.Done? ==>
                && EntrySent(old(S()), S(), t, r.value.0, r.value.1.state) && WellFormed(r.value.0)
                && (r.value.1.state.Confirmed? ==>
                      r.value.1.ids.Some? && Truthy(Identifier(r.value.0.endpoint, r.value.1.ids.value)))
                && (r.value.1.state.Ambiguous? ==> !enabled)
    {
      var _ :- Upsert(t, Patch1(EntrySubmitted, "ENTRY_INTENT_PREPARED"));
      ghost var u := S();
      var client := NewClient();
      var i := EntryOf(t, endpoint, client, quantity, trailing);
      EntryIsNew(history, i);
      var out := SubmitOnce(i, i.id);
      VenturedEnters(old(S()), u, S(), i);
      match out
      case Stop(crashed) => return Stop(crashed);
      case Done(o) => return Done((i, o));
    }

    method SubmitEntry(t: TradeId, endpoint: Endpoint, quantity: real, trailing: bool) returns (r: Res<bool>)
      requires Valid() && work == Some(t) && staged.None? && armed.None? && desk == Approved(t)
      requires t in store.trades && NoneUnresolved(store.intents) && (endpoint.PostOto? || endpoint.PostOtoco?)
      modifies this, store, gateway
      ensures Onward() && EntersOnce(old(S()), S(), t)
      ensures r.Done? ==> EntryEnds(old(S()), S(), t, r.value, enabled)
    {
      var sent :- PostEntry(t, endpoint, quantity, trailing);
      ghost var m := S();
      r := RecordEntry(sent.0, sent.1);
      EntersOnceStays(old(S()), m, S(), t);
    }

    method SubmitChecked(t: TradeId) returns (r: Res<bool>)
      requires Valid() && work.None? && staged.None? && armed.None? && desk == Approved(t) && t in store.trades
      modifies this, store, gateway
      ensures Onward() && EntersOnce(old(S()), S(), t)
      ensures |gateway.wire| > old(|gateway.wire|) ==>
                && old(enabled) && NoneUnresolved(old(store.intents))
                && forall u :: u in old(store.trades) && Active(old(store.trades)[u]) ==> u == t
      ensures r.Done? ==> (Drifts(old(S()), S()) && !r.value) || EntryEnds(old(S()), S(), t, r.value, enabled)
    {
      if !enabled || (exists u :: u in store.trades && u != t && Active(store.trades[u])) || !NoneUnresolved(store.intents) {
        return Done(false);
      }
      var _ :- External();
      var funded: bool := *;
      if !funded {
        return Done(false);
      }
      var _ :- External();
      var otoco: bool := *;
      var quantity: real := *;
      var trailing: bool := *;
      LockEntry(t);
      ghost var m := S();
      r := SubmitEntry(t, if otoco then PostOtoco else PostOto, quantity, trailing);
      EntersAfterDrift(old(S()), m, S(), t);
    }

    /** `submit`: at most one ENTRY, and only beside no other exposure. */
    method Submit(t: TradeId) returns (r: Res<bool>)
      requires Valid() && work.None? && staged.None? && armed.None? && desk == Approved(t) && t in store.trades
      modifies this, store, gateway
      ensures Onward() && work.None? && staged.None? && armed.None? && EntersOnce(old(S()), S(), t)
      ensures |gateway.wire| > old(|gateway.wire|) ==>
                && old(enabled) && NoneUnresolved(old(store.intents))
                && forall u :: u in old(store.trades) && Active(old(store.trades)[u]) ==> u == t
      ensures r.Done? ==> (Drifts(old(S()), S()) && !r.value) || EntryEnds(old(S()), S(), t, r.value, enabled)
    {
      r := SubmitChecked(t);
      Unlock();
    }

    // ---- selling outside a conversion ----

    /** One fresh sell through `_submit_once`, bound when confirmed. */
    method Sell(op: Operation, t: TradeId, endpoint: Endpoint, quantity: real, trailing: bool, ghost cancel: Operation)
      returns (r: Res<Option<Ids>>)
      requires Valid() && work == Some(t) && staged.None? && armed.None? && t in store.trades
      requires 0.0 < quantity <= Owned(store.trades[t]) && OnGrid(quantity, gateway.step)
      requires op.PartialProtection? || op.EmergencyExit?
      requires endpoint.PostOrder? || (op.PartialProtection? && endpoint.PostOco?)
      requires op.EmergencyExit? ==>
                 RecordedProtection(store.trades[t]).Some? && RecordedProtection(store.trades[t]).value in gateway.done
      modifies this, store, gateway
      ensures Onward() && Adds(old(S()), S(), t, cancel, op, gateway.step)
      ensures r.Done? ==> work == Some(t)
      ensures r.Done? && r.value.Some? ==>
                exists id :: id in store.intents && id !in old(store.intents)
                             && store.intents[id].op == op && store.intents[id].state.Confirmed?
      ensures r.Done? && r.value.Some? && op.PartialProtection? ==> t in store.trades && RecordedProtection(store.trades[t]).Some?
    {
      var client := NewClient();
      var i := SellIntent(op, t, endpoint, Request.Place(client, quantity, trailing));
      SellIsNew(history, i);
      var out := SubmitOnce(i, i.id);
      ghost var m := S();
      SellAdds(old(S()), m, i, cancel, gateway.step);
      match out
      case Stop(crashed) => return Stop(crashed);
      case Done(o) =>
        if !o.state.Confirmed? {
          return Done(None);
        }
        assert i.id in m.intents && m.intents[i.id].state.Confirmed?;
        var bound := Bind(i, o.ids.value);
        RowsAdd(m, S(), t, cancel, op, gateway.step);
        AddsTwice(old(S()), m, S(), t, cancel, op, gateway.step);
        return if bound.Stop? then Stop(bound.crashed) else Done(o.ids);
    }

    /** GET of the IOC order: has it ended?  What it reports is recorded. */
    method ReadExit(orderId: Option<int>) returns (r: Res<bool>)
      requires Valid()
      modifies this, store, gateway
      ensures Onward() && RowsOnly(old(S()), S()) && (r.Stop? ==> r.crashed)
      ensures r.Done? ==> work == old(work) && (r.value ==> OrderRef(orderId.GetOr(0)) in gateway.done)
    {
      var seen := GetStatus(OrderRef(orderId.GetOr(0)));
      if seen.Stop? {
        return if seen.crashed then Stop(true) else Done(false);
      }
      if seen.value.named.GetOr(0) != orderId.GetOr(0) || !seen.value.probe.Ended? {
        return Done(false);
      }
      var event: Option<Event> := *;
      if event.Some? {
        ghost var m := S();
        var recordedEvent := RecordEvent(event.value);
        if recordedEvent.Stop? {
          RowsHalt(old(S()), m, S());
          return Stop(true);
        }
      }
      return Done(true);
    }

    /** The IOC is out: only once it is seen ended, and sold all but less than the
        smallest order, and the balance shows it, does the row close. */
    method ConfirmExit(t: TradeId, orderId: Option<int>, recorded: real, quantity: real, freeBefore: real, minQty: real)
      returns (r: Res<ExitStage>)
      requires Valid() && work == Some(t) && t in store.trades
      modifies this, store, gateway
      ensures Onward() && RowsOnly(old(S()), S())
      ensures r.Done? && r.value.VerifiedExit? ==>
                && store.trades[t].lifecycle.ExitFilled? && OrderRef(orderId.GetOr(0)) in gateway.done
                && 0.0 <= r.value.executed <= quantity && ExitAddsUp(recorded, r.value.executed, gateway.step, minQty)
                && freeBefore - r.value.freeAfter + gateway.step >= r.value.executed
    {
      var ended :- ReadExit(orderId);
      if !ended {
        return Done(TerminalUnproven);
      }
      var executed: real := *;
      if executed < 0.0 || executed > quantity {
        return Done(InvalidFill);
      }
      var freeAfter :- FreeSteps();
      if !ExitAddsUp(recorded, executed, gateway.step, minQty) || freeBefore - freeAfter + gateway.step < executed {
        return Done(PartialOrUnfilled);
      }
      ghost var m := S();
      var closed := Upsert(t, Patch1(ExitFilled, "EMERGENCY_EXIT_VERIFIED"));
      if closed.Stop? {
        RowsHalt(old(S()), m, S());
        return Stop(closed.crashed);
      }
      RowsThen(old(S()), m, S());
      return Done(VerifiedExit(executed, freeAfter));
    }

    /** Sells what the row owns and is free, only once the cancel is proven. */
    method ExitLocked(t: TradeId, minQty: real) returns (r: Res<ExitStage>)
      requires Valid() && work == Some(t) && staged.None? && armed.None? && t in store.trades && !enabled
      modifies this, store, gateway
      ensures Onward() && Adds(old(S()), S(), t, CancelProtection, EmergencyExit, gateway.step)
      ensures SoldOnlyFreed(old(S()), S(), t)
      ensures r.Done? && r.value.VerifiedExit? ==> t in store.trades && store.trades[t].lifecycle.ExitFilled?
    {
      var row := store.trades[t];
      var ok := CancelProtectionOf(t);
      ghost var m := S();
      CancelAdds(old(S()), m, ProtectionCancel(t, row), EmergencyExit, gateway.step);
      if ok.Stop? || !ok.value {
        return if ok.Stop? then Stop(ok.crashed) else Done(CancelAmbiguous);
      }
      if row.filled.GetOr(0.0) < 0.0 || row.protectedQty.GetOr(0.0) < 0.0 {
        return Done(MalformedState);
      }
      r := SellFreed(t, Owned(row), minQty);
      AddsTwice(old(S()), m, S(), t, CancelProtection, EmergencyExit, gateway.step);
    }

    method SellFreed(t: TradeId, recorded: real, minQty: real) returns (r: Res<ExitStage>)
      requires Valid() && work == Some(t) && staged.None? && armed.None? && t in store.trades
      requires recorded == Owned(store.trades[t])
      requires RecordedProtection(store.trades[t]).Some? && RecordedProtection(store.trades[t]).value in gateway.done
      modifies this, store, gateway
      ensures Onward() && Adds(old(S()), S(), t, CancelProtection, EmergencyExit, gateway.step)
      ensures r.Done? && r.value.VerifiedExit? ==> t in store.trades && store.trades[t].lifecycle.ExitFilled?
    {
      var held :- FreeSteps();
      var quantity := FloorStep(Smaller(held, recorded), gateway.step);
      FloorStepBounds(Smaller(held, recorded), gateway.step);
      if quantity <= 0.0 {
        return Done(NothingToSell);
      }
      var _ :- External();
      ghost var u := S();
      var sold := Sell(EmergencyExit, t, PostOrder, quantity, false, CancelProtection);
      ghost var m := S();
      AddsTwice(old(S()), u, m, t, CancelProtection, EmergencyExit, gateway.step);
      if sold.Stop? || sold.value.None? {
        return if sold.Stop? then Stop(sold.crashed) else Done(SubmitUnconfirmed);
      }
      r := ConfirmExit(t, sold.value.value.order, recorded, quantity, held, minQty);
      RowsAdd(m, S(), t, CancelProtection, EmergencyExit, gateway.step);
      AddsTwice(old(S()), m, S(), t, CancelProtection, EmergencyExit, gateway.step);
    }

    /** `emergency_exit`: halts entries first, and sells only what was freed. */
    method EmergencyExitOf(symbol: string, minQty: real) returns (r: Res<ExitStage>)
      requires Valid() && work.None? && staged.None? && armed.None?
      modifies this, store, gateway
      ensures Onward() && work.None? && staged.None? && armed.None?
      ensures S().intents == old(S()).intents || exists t: TradeId :: ExitsOwn(old(S()), S(), t, gateway.step)
      ensures r.Done? && !r.value.NotFound? ==> !enabled
    {
      var found := store.ActiveTradeForSymbol(symbol);
      if found.None? {
        return Done(NotFound);
      }
      var t := found.value;
      Pause();
      if RecordedProtection(store.trades[t]).None? {
        return Done(CancelAmbiguous);
      }
      BoundIsLive(history, t);
      LockLiveTrade(t);
      ghost var s := S();
      r := ExitLocked(t, minQty);
      assert ExitsOwn(old(S()), S(), t, gateway.step);
      Unlock();
      assert ExitsOwn(old(S()), S(), t, gateway.step);
    }

    /** GET of the working BUY. */
    method GetOrder() returns (r: Res<OrderView>)
      requires Valid()
      modifies this, gateway
      ensures Onward()
      ensures r.Done? ==> Drifts(old(S()), S()) && (r.value.event.Some? ==> Truthy(r.value.named))
      ensures Halts(old(S()), S()) && |gateway.wire| == old(|gateway.wire|)
    {
      var _ :- External();
      var view: OrderView := *;
      return Done(if Truthy(view.named) then view else view.(event := None));
    }

    /** Records what the GET reported, and replays the row's stored events. */
    method Absorb(t: TradeId, e: Event) returns (r: Res<()>)
      requires Valid() && t in store.trades
      modifies this, store, gateway
      ensures Onward() && RowsOnly(old(S()), S())
      ensures r.Done? ==> Drifts(old(S()).(trades := S().trades), S())
    {
      var _ :- External();
      var _ :- RecordEvent(e);
      var _ :- ReplayTrade(t);
      return Done(());
    }

    /** Then the open orders and lists: is the protection open, is the BUY's list? */
    method Observe(t: TradeId, e: Event) returns (r: Res<(bool, bool)>)
      requires Valid() && t in store.trades
      modifies this, store, gateway
      ensures Onward() && RowsOnly(old(S()), S())
      ensures r.Done? ==> Drifts(old(S()).(trades := S().trades), S())
    {
      var _ :- Absorb(t, e);
      var _ :- External();
      var protectionOpen: bool := *;
      var listOpen: bool := *;
      return Done((protectionOpen, listOpen));
    }

    /** The BUY's own list is cancelled first, and the BUY read again: the sell
        is sized by a fill that can no longer grow. */
    method StopEntry(t: TradeId) returns (r: Res<bool>)
      requires Valid() && work == Some(t) && staged.None? && armed.None? && t in store.trades
      modifies this, store, gateway
      ensures Onward() && Adds(old(S()), S(), t, CancelPartialEntry, PartialProtection, gateway.step)
      ensures r.Done? ==> work == Some(t) && staged.None? && armed.None? && t in store.trades
      ensures r.Done? && r.value ==> EntryStopped(S(), t, old(store.trades)[t])
      ensures forall id :: id in store.intents && id !in old(store.intents) ==> !store.intents[id].op.PartialProtection?
    {
      var row := store.trades[t];
      var ok := CancelEntryList(t, CancelPartialEntry);
      ghost var m := S();
      CancelAdds(old(S()), m, EntryCancel(CancelPartialEntry, t, row), PartialProtection, gateway.step);
      if ok.Stop? || !ok.value {
        return if ok.Stop? then Stop(ok.crashed) else Done(false);
      }
      assert EntryStopped(m, t, row);
      r := ReadTerminal(t);
      RowsAdd(m, S(), t, CancelPartialEntry, PartialProtection, gateway.step);
      AddsTwice(old(S()), m, S(), t, CancelPartialEntry, PartialProtection, gateway.step);
    }

    method ReadTerminal(t: TradeId) returns (r: Res<bool>)
      requires Valid() && t in store.trades
      modifies this, store, gateway
      ensures Onward() && RowsOnly(old(S()), S())
      ensures r.Done? ==> Drifts(old(S()).(trades := S().trades), S())
    {
      var view :- GetOrder();
      if view.event.None? || !TerminalStatus(view.status) {
        return Done(false);
      }
      var _ :- Absorb(t, view.event.value);
      return Done(true);
    }

    /** What was bought and is free, in whole steps. */
    method FilledAndFree(t: TradeId) returns (r: Res<real>)
      requires Valid() && t in store.trades
      modifies this, gateway
      ensures Onward() && Halts(old(S()), S()) && |gateway.wire| == old(|gateway.wire|)
      ensures r.Done? ==> Drifts(old(S()), S()) && OnGrid(r.value, gateway.step)
      ensures r.Done? && r.value > 0.0 ==> r.value <= store.trades[t].filled.GetOr(0.0)
    {
      var free :- FreeBtc();
      var sellable := Smaller(free, store.trades[t].filled.GetOr(0.0));
      FloorStepBounds(sellable, gateway.step);
      return Done(FloorStep(sellable, gateway.step));
    }

    method NoteProtected(t: TradeId) returns (r: Res<()>)
      requires Valid() && work == Some(t) && t in store.trades
      modifies this, store
      ensures Onward() && RowsOnly(old(S()), S())
      ensures r.Done? ==> RecordedProtection(store.trades[t]) == RecordedProtection(old(store.trades)[t])
    {
      PatchKeepsTame(history, t);
      r := Upsert(t, Patch(None, None, None, None, "PARTIAL_FILL_PROTECTED"));
    }

    /** The filled part is protected on its own. */
    method ProtectFilled(t: TradeId, mode: Mode) returns (r: Res<bool>)
      requires Valid() && work == Some(t) && staged.None? && armed.None? && t in store.trades
      modifies this, store, gateway
      ensures Onward() && Adds(old(S()), S(), t, CancelPartialEntry, PartialProtection, gateway.step)
      ensures r == Done(true) ==> PartialConfirmed(old(S()), S()) && t in store.trades && RecordedProtection(store.trades[t]).Some?
    {
      var quantity :- FilledAndFree(t);
      if quantity <= 0.0 {
        return Done(false);
      }
      var _ :- External();
      ghost var u := S();
      var sold := Sell(PartialProtection, t, EndpointOf(mode), quantity, mode.OcoTrailing?, CancelPartialEntry);
      ghost var m := S();
      RowsAdd(old(S()), u, t, CancelPartialEntry, PartialProtection, gateway.step);
      AddsTwice(old(S()), u, m, t, CancelPartialEntry, PartialProtection, gateway.step);
      if sold.Stop? || sold.value.None? {
        return if sold.Stop? then Stop(sold.crashed) else Done(false);
      }
      var noted := NoteProtected(t);
      RowsAdd(m, S(), t, CancelPartialEntry, PartialProtection, gateway.step);
      AddsTwice(old(S()), m, S(), t, CancelPartialEntry, PartialProtection, gateway.step);
      return if noted.Stop? then Stop(noted.crashed) else Done(true);
    }

    /** While the BUY's own list is open nothing is sold beside it: first its
        cancel is confirmed.  A BUY still working outside any list is left alone. */
    method ProtectSettled(t: TradeId, listOpen: bool, terminal: bool, mode: Mode) returns (r: Res<bool>)
      requires Valid() && work == Some(t) && staged.None? && armed.None? && t in store.trades
      modifies this, store, gateway
      ensures Onward() && Adds(old(S()), S(), t, CancelPartialEntry, PartialProtection, gateway.step)
      ensures r == Done(true) ==> PartialConfirmed(old(S()), S())
      ensures SoldPartial(old(S()), S()) ==>
                if listOpen then EntryStopped(S(), t, old(store.trades)[t]) else terminal
    {
      if !listOpen && !terminal {
        return Done(false);
      }
      ghost var m := S();
      if listOpen {
        r := StopEntry(t);
        if r.Stop? || !r.value {
          return;
        }
        m := S();
      }
      r := ProtectFilled(t, mode);
      AddsTwice(old(S()), m, S(), t, CancelPartialEntry, PartialProtection, gateway.step);
    }

    /** With the lock held: record what the BUY reports, then protect what it bought. */
    method ProtectLocked(t: TradeId, view: OrderView, mode: Mode) returns (r: Res<bool>)
      requires Valid() && work == Some(t) && staged.None? && armed.None? && t in store.trades && view.event.Some?
      modifies this, store, gateway
      ensures Onward() && Adds(old(S()), S(), t, CancelPartialEntry, PartialProtection, gateway.step)
      ensures SoldPartial(old(S()), S()) ==> Recoverable(view.status)
      ensures r == Done(true) ==>
                PartialConfirmed(old(S()), S()) || (view.status.Filled? && store.trades[t].lifecycle.ProtectionActive?)
    {
      var seen :- Observe(t, view.event.value);
      if view.status.Filled? && seen.0 {
        var _ :- Upsert(t, Patch1(ProtectionActive, "ENTRY_FILLED_AND_PENDING_PROTECTION_VERIFIED_OPEN"));
        return Done(true);
      }
      if !Recoverable(view.status) {
        return Done(false);
      }
      ghost var m := S();
      r := ProtectSettled(t, seen.1, TerminalStatus(view.status), mode);
      RowsAdd(old(S()), m, t, CancelPartialEntry, PartialProtection, gateway.step);
      AddsTwice(old(S()), m, S(), t, CancelPartialEntry, PartialProtection, gateway.step);
    }

    /** `_place_partial_protection`: a partly filled BUY never stays bare, and is
        never sold twice. */
    method PlacePartialProtection(symbol: string, mode: Mode) returns (r: Res<bool>)
      requires Valid() && work.None? && staged.None? && armed.None?
      modifies this, store, gateway
      ensures Onward() && work.None? && staged.None? && armed.None?
      ensures S().intents == old(S()).intents ||
              exists t: TradeId :: Adds(old(S()), S(), t, CancelPartialEntry, PartialProtection, gateway.step)
    {
      var found := store.ActiveTradeForSymbol(symbol);
      if found.None? {
        return Done(false);
      }
      var t := found.value;
      var view := GetOrder();
      if view.Stop? {
        Unlock();
        return Stop(view.crashed);
      }
      if view.value.named.GetOr(0) != store.trades[t].entryId.GetOr(0) || view.value.event.None? {
        return Done(false);
      }
      BoundIsLive(history, t);
      LockLiveTrade(t);
      ghost var s := S();
      r := ProtectLocked(t, view.value, mode);
      assert Adds(old(S()), S(), t, CancelPartialEntry, PartialProtection, gateway.step);
      Unlock();
      assert Adds(old(S()), S(), t, CancelPartialEntry, PartialProtection, gateway.step);
    }

    // ---- recovery ----

    /** A resumed child that was confirmed is bound like any other. */
    method RecordResumed(child: Intent, out: Outcome, note: string) returns (r: Res<()>)
      requires Valid() && S().work == Some(child.trade) && child.trade in store.trades
      requires out.state.Confirmed? ==> out.ids.Some?
      modifies this, store, gateway
      ensures Onward() && RowsOnly(old(S()), S())
      ensures r.Done? && out.state.Confirmed? ==>
                && store.trades[child.trade].lifecycle == ProtectedAs(ConfirmedMode(child.endpoint, child.request))
                && store.trades[child.trade].mode == Some(ConfirmedMode(child.endpoint, child.request))
                && (Named(child, out.ids.value) ==> Tied(child, store.trades[child.trade]))
    {
      if out.state.Confirmed? {
        var mode := ConfirmedMode(child.endpoint, child.request);
        var _ :- BindThen(child, out.ids.value, Patch(Some(ProtectedAs(mode)), None, None, Some(mode), note));
      }
      return Done(());
    }

    method ResumeChild(plan: Intent, use: Request, ghost cancel: IntentId) returns (r: Res<()>)
      requires Valid() && PlanOpen(S(), plan) && MayReplace(S(), plan, use) && plan.trade in store.trades
      requires LatestCancel(store.intents, plan.trade, cancel) && store.intents[cancel].state.Confirmed?
      modifies this, store, gateway
      ensures Onward() && CarriesOut(old(S()), S(), plan) && ChildrenAre(old(S()), S(), use)
      ensures r.Done? ==> store.intents[plan.id].state.Aborted? && ChildWritten(old(S()), S())
    {
      LatestCancelAllowsChild(history, plan, use, cancel);
      var out :- SubmitChild(plan, use, cancel);
      ghost var m := S();
      var _ :- Settle(plan.id, Aborted);
      assert store.intents == m.intents;
      assert ChildOf(plan, use).id in store.intents && ChildOf(plan, use).id !in old(store.intents);
      var _ :- RecordResumed(ChildOf(plan, use), out, "CRASHED_REPLACEMENT_RESUMED_AND_CONFIRMED");
      return Done(());
    }

    /** The trade's newest cancel, if it is confirmed and seen terminal again. */
    method EndedCancel(plan: Intent, c: IntentId) returns (r: Res<bool>)
      requires Valid() && LatestCancel(store.intents, plan.trade, c)
      modifies this, store, gateway
      ensures Onward() && Halts(old(S()), S()) && |gateway.wire| == old(|gateway.wire|)
      ensures r.Done? ==> Drifts(old(S()), S())
      ensures store.intents[c].request.Cancel?
      ensures r.Done? && r.value ==> store.intents[c].state.Confirmed? && Target(store.intents[c]) in gateway.done
    {
      CancelsCancel(history, c);
      if !store.intents[c].state.Confirmed? {
        return Done(false);
      }
      var seen :- GetStatus(Target(store.intents[c]));
      return Done(seen.probe.Ended?);
    }

    /** `_resume_prepared_replacement`: false leaves the plan as it is.  `held` is
        the free balance, once the newest cancel was seen ended and it was read:
        the child is written exactly when that is at least one step, also while
        the order the plan was to replace is open. */
    method ResumePlan(plan: Intent) returns (r: Res<bool>, held: Option<real>)
      requires Valid() && PlanOpen(S(), plan)
      modifies this, store, gateway
      ensures Onward() && CarriesOut(old(S()), S(), plan) && RecoveryChildren(old(S()), S(), plan)
      ensures r.Done? ==> store.intents[plan.id].state == if r.value then Aborted else Prepared
      ensures held.Some? ==> NewestEnded(old(S()), S(), plan)
      ensures ChildWritten(old(S()), S()) ==> Free(held)
      ensures r.Done? && Free(held) ==> ChildWritten(old(S()), S())
      ensures r.Done? && plan.id in covers && covers[plan.id] !in gateway.done ==>
                (WrittenBesideOpen(old(S()), S(), plan) <==> Free(held))
    {
      held := None;
      var _ :- External();
      var latest := store.LatestProtectionCancel(plan.trade);
      if latest.None? {
        var _ :- Settle(plan.id, Aborted);
        return Done(true), None;
      }
      var ended :- EndedCancel(plan, latest.value);
      if !ended {
        return Done(false), None;
      }
      OpenPlanIsChildless(history, plan);
      if plan.trade !in store.trades || plan.request.quantity <= 0.0 {
        return Stop(false), None;
      }
      ghost var m := S();
      r, held := ResumeWith(plan, latest.value);
      RecoveryAfterDrift(old(S()), m, S(), plan);
    }

    method ResumeWith(plan: Intent, c: IntentId) returns (r: Res<bool>, held: Option<real>)
      requires Valid() && PlanOpen(S(), plan) && plan.trade in store.trades && plan.request.Place? && 0.0 < plan.request.quantity
      requires LatestCancel(store.intents, plan.trade, c) && store.intents[c].state.Confirmed?
      requires store.intents[c].request.Cancel? && Target(store.intents[c]) in gateway.done
      modifies this, store, gateway
      ensures Onward() && CarriesOut(old(S()), S(), plan) && RecoveryChildren(old(S()), S(), plan)
      ensures r.Done? ==> r.value && store.intents[plan.id].state.Aborted?
      ensures ChildWritten(old(S()), S()) ==> Free(held)
      ensures r.Done? && Free(held) ==> ChildWritten(old(S()), S())
    {
      held := None;
      var free :- FreeSteps();
      held := Some(free);
      FloorStepBounds(plan.request.quantity, gateway.step);
      SellsInSteps(history, |history| - 1, plan.id);
      if free <= 0.0 {
        var gone :- CloseIfExited(plan, "EXIT_VERIFIED_DURING_REPLACEMENT_RECOVERY");
        return if gone then Done(true) else Stop(false), held;
      }
      var quantity := if free < FloorStep(plan.request.quantity, gateway.step) then free else plan.request.quantity;
      var use := plan.request.(quantity := quantity);
      ghost var m := S();
      var done := ResumeChild(plan, use, c);
      ChildrenRecovered(old(S()), m, S(), plan, use, c);
      match done
      case Stop(crashed) => return Stop(crashed), held;
      case Done(_) => return Done(true), held;
    }

    /** A PREPARED replacement child was never sent: it is sent now, once. */
    method ResolveChild(i: Intent) returns (r: Res<()>)
      requires Valid() && Waiting(store.intents, i) && i.state.Prepared? && IsChild(i) && i.request.Place?
      requires S().work == Some(i.trade) && staged.None? && armed.None?
      modifies this, store, gateway
      ensures Onward() && Touches(old(S()), S(), i)
      ensures r.Done? ==> Resolved(i, store.intents[i.id].state)
      ensures r.Done? && store.intents[i.id].state.Confirmed? && WellFormed(i) ==>
                i.trade in store.trades && Tied(i, store.trades[i.trade])
    {
      if i.trade !in store.trades {
        return Stop(false);
      }
      var _ :- External();
      var out :- Cross(i.id, false);
      var _ :- RecordResumed(i, out, "PREPARED_REPLACEMENT_CHILD_RESUMED");
      return Done(());
    }

    /** Any other PREPARED row is aborted unsent, and an ENTRY's trade is closed. */
    method AbortPrepared(i: Intent) returns (r: Res<()>)
      requires Valid() && Waiting(store.intents, i) && i.state.Prepared? && !IsChild(i) && !i.op.ReplacePlan?
      requires S().work == Some(i.trade) && staged.None? && armed.None?
      modifies this, store, gateway
      ensures Onward() && Touches(old(S()), S(), i) && |gateway.wire| == old(|gateway.wire|)
      ensures r.Done? ==> store.intents[i.id].state.Aborted?
      ensures r.Done? && i.op.Entry? && i.trade in store.trades ==> store.trades[i.trade].lifecycle.EntryRejected?
    {
      var _ :- Settle(i.id, Aborted);
      if i.op.Entry? && i.trade in store.trades {
        var _ :- Upsert(i.trade, Patch1(EntryRejected, "ENTRY_PREPARED_ABORTED_BEFORE_POST"));
      }
      return Done(());
    }

    /** A cancel that may have landed: only a terminal order settles it. */
    method ResolveCancel(i: Intent) returns (r: Res<()>)
      requires Valid() && Waiting(store.intents, i) && !i.state.Prepared? && i.request.Cancel?
      requires S().work == Some(i.trade) && staged.None? && armed.None?
      modifies this, store, gateway
      ensures Onward() && Touches(old(S()), S(), i) && |gateway.wire| == old(|gateway.wire|)
      ensures r.Done? ==> store.intents[i.id].state.Confirmed?
    {
      var seen :- GetStatus(Target(i));
      if !seen.probe.Ended? {
        return Stop(false);
      }
      var _ :- Settle(i.id, Confirmed);
      return Done(());
    }

    /** A placement that may have landed: only its own client id settles it. */
    method ResolvePlacement(i: Intent) returns (r: Res<()>)
      requires Valid() && Waiting(store.intents, i) && !i.state.Prepared? && i.request.Place? && !i.op.ReplacePlan?
      requires S().work == Some(i.trade) && staged.None? && armed.None?
      modifies this, store, gateway
      ensures Onward() && Touches(old(S()), S(), i) && |gateway.wire| == old(|gateway.wire|)
      ensures r.Done? ==> store.intents[i.id].state.Confirmed?
      ensures r.Done? && i.trade in store.trades && WellFormed(i) ==> Tied(i, store.trades[i.trade])
    {
      var found :- Lookup(i.id);
      if found.None? || !Truthy(Identifier(i.endpoint, found.value)) {
        return Stop(false);
      }
      var _ :- Settle(i.id, Confirmed);
      ghost var m := S();
      assert Touches(old(S()), m, i) && |gateway.wire| == old(|gateway.wire|);
      r := Bind(i, found.value);
      TouchesThenRows(old(S()), m, S(), i);
    }

    /** One round of the first pass, under the lock; plans wait for the second. */
    method ResolveOne(i: Intent) returns (r: Res<()>)
      requires Valid() && Waiting(store.intents, i)
      requires work.None? && staged.None? && armed.None?
      modifies this, store, gateway
      ensures Onward() && work.None? && staged.None? && armed.None? && Touches(old(S()), S(), i)
      ensures |gateway.wire| > old(|gateway.wire|) ==> IsChild(i) && i.state.Prepared?
      ensures r.Done? ==> Resolved(i, store.intents[i.id].state)
    {
      if i.op.ReplacePlan? {
        return Done(());
      }
      LockIntent(i.id);
      ChildrenPlace(history, i);
      if i.state.Prepared? && IsChild(i) {
        r := ResolveChild(i);
      } else if i.state.Prepared? {
        r := AbortPrepared(i);
      } else if i.request.Cancel? {
        r := ResolveCancel(i);
      } else {
        r := ResolvePlacement(i);
      }
      Unlock();
    }

    /** The first pass: every unresolved row but the plans, each on its own; a
        round that raises is counted and the pass goes on. */
    method ResolveListed() returns (r: Res<nat>)
      requires Valid() && work.None? && staged.None? && armed.None?
      modifies this, store, gateway
      ensures Onward() && work.None? && staged.None? && armed.None? && NoPostRepeated(old(S()), S())
      ensures r.Done? && r.value == 0 ==> AllResolved(old(S()), S())
    {
      IdsAreKeys(history);
      var rows := store.UnresolvedIntents();
      var errors, k := 0, 0;
      while k < |rows|
        invariant 0 <= k <= |rows|
        invariant Onward() && work.None? && staged.None? && armed.None?
        invariant NoPostRepeated(old(S()), S()) && Passed(old(S()), S(), rows, k, errors)
      {
        ghost var m := S();
        var i := rows[k];
        var one := ResolveOne(i);
        TouchesRepeatsNothing(old(S()), m, S(), i);
        if one.Stop? && one.crashed {
          return Stop(true);
        }
        PassedOne(old(S()), m, S(), rows, k, errors, one.Done?);
        errors := if one.Done? then errors else errors + 1;
        k := k + 1;
      }
      return Done(errors);
    }

    method ResumeOne(plan: Intent) returns (r: Res<bool>)
      requires Valid() && Waiting(store.intents, plan) && plan.op.ReplacePlan? && plan.state.Prepared?
      requires work.None? && staged.None? && armed.None?
      modifies this, store, gateway
      ensures Onward() && work.None? && staged.None? && armed.None?
      ensures CarriesOut(old(S()), S(), plan) && RecoveryChildren(old(S()), S(), plan)
      ensures r.Done? ==> store.intents[plan.id].state == if r.value then Aborted else Prepared
    {
      ChildrenPlace(history, plan);
      LockIntent(plan.id);
      ghost var s := S();
      var held;
      r, held := ResumePlan(plan);
      Unlock();
    }

    /** The second pass: the plans that are still PREPARED. */
    method ResumePlans() returns (r: Res<nat>)
      requires Valid() && work.None? && staged.None? && armed.None?
      modifies this, store, gateway
      ensures Onward() && work.None? && staged.None? && armed.None? && NoPostRepeated(old(S()), S())
      ensures forall id :: id in old(store.intents) && !old(store.intents)[id].op.ReplacePlan? ==>
                id in store.intents && store.intents[id] == old(store.intents)[id]
    {
      IdsAreKeys(history);
      var plans := store.UnresolvedIntents();
      var errors, k := 0, 0;
      while k < |plans|
        invariant 0 <= k <= |plans|
        invariant Onward() && work.None? && staged.None? && armed.None? && NoPostRepeated(old(S()), S())
        invariant forall id :: id in old(store.intents) && !old(store.intents)[id].op.ReplacePlan? ==>
                    id in store.intents && store.intents[id] == old(store.intents)[id]
        invariant forall j :: k <= j < |plans| ==> plans[j].id in store.intents && store.intents[plans[j].id] == plans[j]
      {
        ghost var m := S();
        var plan := plans[k];
        if plan.state.Prepared? && plan.op.ReplacePlan? {
          var one := ResumeOne(plan);
          CarriesOutRepeatsNothing(old(S()), m, S(), plan);
          match one
          case Stop(crashed) =>
            if crashed {
              return Stop(true);
            }
            errors := errors + 1;
          case Done(_) =>
        }
        k := k + 1;
      }
      return Done(errors);
    }

    /** `_resolve_operation_intents`: what may have landed is settled by GET, no
        POST is repeated, and without an error every listed row was dealt with. */
    method ResolveOperationIntents() returns (r: Res<nat>)
      requires Valid() && work.None? && staged.None? && armed.None?
      modifies this, store, gateway
      ensures Onward() && work.None? && staged.None? && armed.None? && NoPostRepeated(old(S()), S())
      ensures r.Done? && r.value == 0 ==> AllResolved(old(S()), S())
    {
      var first :- ResolveListed();
      ghost var m := S();
      var second := ResumePlans();
      RepeatsNothingTwice(old(S()), m, S());
      match second
      case Stop(crashed) => return Stop(crashed);
      case Done(errors) => return Done(first + errors);
    }

    // ---- the lock ----

    ghost method LockLiveTrade(t: TradeId)
      requires Valid() && work.None? && t in store.trades && Live(store.trades[t])
      modifies `work, `history
      ensures Onward() && S() == old(S()).(work := Some(t))
    {
      history := DoLockLive(history, t);
      work := Some(t);
    }

    ghost method LockIntent(id: IntentId)
      requires Valid() && work.None? && id in store.intents && Unresolved(store.intents[id].state)
      modifies `work, `history
      ensures Onward() && S() == old(S()).(work := Some(store.intents[id].trade))
    {
      history := DoLockUnresolved(history, id);
      work := Some(store.intents[id].trade);
    }

    ghost method LockEntry(t: TradeId)
      requires Valid() && work.None? && desk == Approved(t) && NoneUnresolved(store.intents)
      requires forall u :: u in store.trades && Active(store.trades[u]) ==> u == t
      modifies `work, `history
      ensures Onward() && S() == old(S()).(work := Some(t))
    {
      history := DoLockForEntry(history, t);
      work := Some(t);
    }

    ghost method Unlock()
      requires Valid()
      modifies `work, `staged, `armed, `history
      ensures Onward() && S() == old(S()).(work := None, staged := None, armed := None)
    {
      history := DoUnlock(history);
      work, staged, armed := None, None, None;
    }

    method Pause()
      requires Valid()
      modifies `enabled
      ensures Onward() && S() == old(S()) && !enabled
    {
      enabled := false;
    }
  }
}
