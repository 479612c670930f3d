/**
 * `OrderManager.process_signal`: the gate in front of `submit`.  A signal id is
 * claimed durably before anything can reach the exchange, and never twice.
 */
module OrderManagers {
  import opened Adapters
  import opened AdapterSpecs
  import opened Basics
  import opened EventLog
  import opened EventTable
  import opened Ledger
  import opened Protocol
  import opened ProtocolSafety
  import opened ProtocolRuns
  import opened ProtocolSteps
  import opened StateStores

  /** A signal file after its envelope is checked.  `early` marks the rejections
      that are recorded before the id is looked up: missing fields, a bad pair,
      or a symbol that is not the pair's. */
  datatype Incoming =
    | Unverified
    | Signal(id: TradeId, named: bool, early: bool, wellFormedId: bool, symbol: string)

  /** The early rejection overwrites whatever the ledger of signals held. */
  predicate RejectedEarly(s: Incoming) {
    s.Signal? && s.early
  }

  class OrderManager {
    const adapter: Adapter
    var entries: bool

    ghost predicate Ready()
      reads this, adapter, adapter.store, adapter.gateway
    {
      adapter.Valid() && adapter.desk.Idle? && adapter.work.None? && adapter.staged.None? && adapter.armed.None?
    }

    constructor (step: real)
      requires step > 0.0
      ensures Ready() && fresh(adapter) && adapter.S() == Start(step) && !entries
    {
      adapter := new Adapter(step);
      entries := false;
    }

    method Record(t: TradeId, result: string) returns (r: Res<()>)
      requires adapter.Valid()
      modifies adapter, adapter.store
      ensures adapter.Onward()
      ensures r.Done? ==> adapter.S() == old(adapter.S()).(signals := old(adapter.S()).signals[t := Mark.Result(result)])
      ensures r.Stop? ==> r.crashed && Crashed(old(adapter.S()), adapter.S())
    {
      var _ :- adapter.MayCrash();
      adapter.history := DoRecordSignal(adapter.history, t, Mark.Result(result));
      adapter.store.RecordSignal(t, result);
      return Done(());
    }

    method Claim(t: TradeId) returns (r: Res<bool>)
      requires adapter.Valid() && adapter.desk.Idle?
      modifies adapter, adapter.store
      ensures adapter.Onward()
      ensures r.Done? ==> r.value == (t !in old(adapter.store.signals))
      ensures r == Done(false) ==> adapter.S() == old(adapter.S())
      ensures r == Done(true) ==>
                adapter.S() == old(adapter.S()).(signals := old(adapter.S()).signals[t := InProgress], desk := Claimed(t))
      ensures r.Stop? ==> r.crashed && Crashed(old(adapter.S()), adapter.S())
    {
      var _ :- adapter.MayCrash();
      var claimed := adapter.store.ClaimSignal(t);
      if claimed {
        adapter.history := DoClaim(adapter.history, t);
        adapter.desk := Claimed(t);
      }
      return Done(claimed);
    }

    method ApproveTrade(t: TradeId, symbol: string) returns (r: Res<()>)
      requires adapter.Valid() && adapter.desk == Claimed(t)
      modifies adapter, adapter.store
      ensures adapter.Onward()
      ensures r.Done? ==>
                && adapter.desk == Approved(t) && t !in old(adapter.store.trades) && t in adapter.store.trades
                && adapter.store.trades[t].lifecycle.SignalApproved?
                && adapter.S() == old(adapter.S()).(trades := old(adapter.S()).trades[t := adapter.store.trades[t]],
                                                    desk := Approved(t))
      ensures r.Stop? ==> r.crashed && Crashed(old(adapter.S()), adapter.S())
    {
      var _ :- adapter.MayCrash();
      ClaimedIsNew(adapter.history, t);
      var patch := Patch1(SignalApproved, "SIGNAL_ACCEPTED");
      adapter.history := DoApprove(adapter.history, t, Patched(NewRow(symbol), patch));
      adapter.store.UpsertTrade(t, symbol, patch);
      adapter.desk := Approved(t);
      return Done(());
    }

    /** A refused signal whose symbol still shows a SIGNAL_APPROVED row closes its own row. */
    method CloseRefused(t: TradeId, symbol: string) returns (r: Res<()>)
      requires adapter.Valid() && t in adapter.store.trades
      requires adapter.desk == Approved(t) || adapter.desk == Offered(t)
      modifies adapter, adapter.store
      ensures adapter.Onward()
      ensures r.Done? ==> adapter.desk.Idle? || adapter.desk == old(adapter.desk)
      ensures r.Done? ==> adapter.S() == old(adapter.S()).(trades := adapter.store.trades, desk := adapter.desk)
      ensures r.Stop? ==> r.crashed && Crashed(old(adapter.S()), adapter.S())
      ensures r.Done? && adapter.store.trades != old(adapter.store.trades) ==>
                t in adapter.store.trades && adapter.store.trades[t].lifecycle.EntryRejected?
      ensures r.Done? && old(adapter.store.trades)[t].lifecycle.SignalApproved? && old(adapter.store.trades)[t].symbol == symbol
              && (forall u :: u in old(adapter.store.trades) && Active(old(adapter.store.trades)[u]) ==> u == t) ==>
                t in adapter.store.trades && adapter.store.trades[t].lifecycle.EntryRejected?
    {
      var current := adapter.store.ActiveTradeForSymbol(symbol);
      if current.Some? && adapter.store.trades[current.value].lifecycle.SignalApproved? {
        var _ :- adapter.MayCrash();
        adapter.history := DoReject(adapter.history, t);
        adapter.desk := Idle;
        adapter.store.UpsertTrade(t, symbol, Patch1(EntryRejected, "ENTRY_NOT_SUBMITTED"));
      }
      return Done(());
    }

    /** The result is recorded, and a refused row closed. */
    method Conclude(t: TradeId, symbol: string, accepted: bool) returns (r: Res<()>)
      requires adapter.Valid() && t in adapter.store.trades
      requires !accepted ==> adapter.desk == Approved(t) || adapter.desk == Offered(t)
      modifies adapter, adapter.store
      ensures adapter.Onward() && Concluded(old(adapter.S()), adapter.S(), t)
      ensures r.Done? ==> t in adapter.store.signals && adapter.store.signals[t].Result?
      ensures r.Done? ==> adapter.work == old(adapter.work)
      ensures r.Done? ==> adapter.staged == old(adapter.staged) && adapter.armed == old(adapter.armed)
      ensures r.Stop? ==> adapter.work.None? && adapter.staged.None? && adapter.armed.None?
    {
      var _ :- Record(t, if accepted then "accepted" else "rejected");
      if !accepted {
        var _ :- CloseRefused(t, symbol);
      }
      return Done(());
    }

    /** From the claim on: approve, submit, record, and close a refused row. */
    method Execute(t: TradeId, symbol: string) returns (r: Res<bool>)
      requires adapter.Valid() && adapter.desk == Claimed(t) && t in adapter.store.signals
      requires adapter.work.None? && adapter.staged.None? && adapter.armed.None?
      modifies this, adapter, adapter.store, adapter.gateway
      ensures adapter.Onward() && adapter.work.None? && adapter.staged.None? && adapter.armed.None?
      ensures ClaimsOnce(old(adapter.S()), adapter.S(), t)
      ensures r.Done? ==> t in adapter.store.signals && adapter.store.signals[t].Result?
      ensures r.Done? && r.value ==> EnteredWith(old(adapter.S()), adapter.S(), t)
    {
      ghost var s := adapter.S();
      var _ :- ApproveTrade(t, symbol);
      ghost var m := adapter.S();
      var submitted := adapter.Submit(t);
      ghost var n := adapter.S();
      EntersFrom(s, m, n, t);
      if submitted.Stop? {
        return submitted;
      }
      var _ :- Conclude(t, symbol, submitted.value);
      return submitted;
    }

    /** A rejection that is recorded before the id is looked up. */
    method RejectEarly(f: Incoming) returns (r: Res<bool>)
      requires adapter.Valid() && f.Signal?
      modifies adapter, adapter.store
      ensures adapter.Onward()
      ensures r.Done? ==> !r.value && adapter.S() == old(adapter.S()).(signals := adapter.store.signals)
      ensures r.Done? && !f.named ==> adapter.store.signals == old(adapter.store.signals)
      ensures r.Done? && f.named ==>
                adapter.store.signals == old(adapter.store.signals)[f.id := Mark.Result("rejected")]
      ensures r.Stop? ==> Crashed(old(adapter.S()), adapter.S())
    {
      if f.named {
        var _ :- Record(f.id, "rejected");
      }
      return Done(false);
    }

    /** An id seen before: a mark without a result pauses everything. */
    method RejectKnown(f: Incoming) returns (r: Res<bool>)
      requires adapter.Valid() && f.Signal? && f.id in adapter.store.signals
      modifies this, adapter`enabled
      ensures adapter.Onward() && r == Done(false) && adapter.S() == old(adapter.S())
      ensures adapter.store.signals[f.id].InProgress? ==> !entries && !adapter.enabled
    {
      if adapter.store.signals[f.id].InProgress? {
        entries := false;
        adapter.Pause();
      }
      return Done(false);
    }

    /** An unseen id: the gates, then the claim, then the submission. */
    method AcceptFresh(f: Incoming, permitted: bool) returns (r: Res<bool>)
      requires Ready() && Fresh(f, adapter.store.signals)
      modifies this, adapter, adapter.store, adapter.gateway
      ensures adapter.Onward() && adapter.work.None? && adapter.staged.None? && adapter.armed.None?
      ensures ClaimsOnce(old(adapter.S()), adapter.S(), f.id)
      ensures r.Done? ==> f.id in adapter.store.signals && adapter.store.signals[f.id].Result?
      ensures r.Done? && r.value ==> permitted && old(entries) && EnteredWith(old(adapter.S()), adapter.S(), f.id)
      ensures |adapter.gateway.wire| > old(|adapter.gateway.wire|) ==> permitted && old(entries)
    {
      if !permitted || !entries {
        var _ :- Record(f.id, "rejected");
        return Done(false);
      }
      var claimed :- Claim(f.id);
      assert claimed;
      r := Execute(f.id, f.symbol);
    }

    method Sort(f: Incoming, permitted: bool) returns (r: Res<bool>)
      requires Ready()
      modifies this, adapter, adapter.store, adapter.gateway
      ensures adapter.Onward() && adapter.work.None? && adapter.staged.None? && adapter.armed.None?
      ensures Fresh(f, old(adapter.store.signals)) ==> ClaimsOnce(old(adapter.S()), adapter.S(), f.id)
      ensures !Fresh(f, old(adapter.store.signals)) ==> OnlySignals(old(adapter.S()), adapter.S(), f)
      ensures r.Done? ==> Sorted(old(adapter.S()), adapter.S(), f, r.value)
      ensures LeftInProgress(f, old(adapter.store.signals)) ==> r == Done(false) && !entries && !adapter.enabled
    {
      if f.Unverified? {
        return Done(false);
      }
      if f.early {
        r := RejectEarly(f);
      } else if !f.wellFormedId {
        return Done(false);
      } else if f.id in adapter.store.signals {
        r := RejectKnown(f);
      } else {
        r := AcceptFresh(f, permitted);
      }
    }

    /** `process_signal`: whatever the file and however often it is delivered, an
        id reaches the exchange only through its one claim. */
    method ProcessSignal(f: Incoming, permitted: bool) returns (r: Res<bool>)
      requires Ready()
      modifies this, adapter, adapter.store, adapter.gateway
      ensures adapter.Onward() && Ready()
      ensures Fresh(f, old(adapter.store.signals)) ==> ClaimsOnce(old(adapter.S()), adapter.S(), f.id)
      ensures !Fresh(f, old(adapter.store.signals)) ==> OnlySignals(old(adapter.S()), adapter.S(), f)
      ensures r.Done? ==> Sorted(old(adapter.S()), adapter.S(), f, r.value)
      ensures LeftInProgress(f, old(adapter.store.signals)) ==> r == Done(false) && !entries && !adapter.enabled
    {
      r := Sort(f, permitted);
      ghost var n := adapter.S();
      adapter.history := DoCloseDesk(adapter.history);
      adapter.desk := Idle;
      assert adapter.S() == n.(desk := Idle);
    }
  }

  /** Nothing but, at most, the mark of an early rejection. */
  ghost predicate OnlySignals(s: State, n: State, f: Incoming) {
    && n == s.(signals := n.signals, desk := n.desk, work := n.work, staged := n.staged, armed := n.armed)
    && (n.signals == s.signals || (RejectedEarly(f) && f.named && n.signals == s.signals[f.id := Mark.Result("rejected")]))
  }

  /** A call that returns leaves a result behind for every id it looked up, and
      an IN_PROGRESS mark survives it unless a named early rejection overwrote it. */
  ghost predicate Sorted(s: State, n: State, f: Incoming, accepted: bool) {
    && (Fresh(f, s.signals) ==> f.id in n.signals && n.signals[f.id].Result?)
    && (accepted ==> Fresh(f, s.signals) && EnteredWith(s, n, f.id))
    && (f.Signal? && f.id in s.signals && s.signals[f.id].InProgress? ==>
          f.id in n.signals && (n.signals[f.id].InProgress? <==> !(f.early && f.named)))
  }

  /** What a signal file with an unclaimed, well-formed id goes through. */
  predicate Fresh(f: Incoming, signals: map<TradeId, Mark>) {
    f.Signal? && !f.early && f.wellFormedId && f.id !in signals
  }

  /** The id was claimed before and its submission never came to a result. */
  predicate LeftInProgress(f: Incoming, signals: map<TradeId, Mark>) {
    f.Signal? && !f.early && f.wellFormedId && f.id in signals && signals[f.id].InProgress?
  }

  /** At most one ENTRY of `t` was added and sent, and every mark was kept but its own. */
  ghost predicate ClaimsOnce(s: State, n: State, t: TradeId) {
    && (forall id :: id in s.intents ==> id in n.intents && n.intents[id] == s.intents[id])
    && (forall id :: id in n.intents && id !in s.intents ==> n.intents[id].op.Entry? && n.intents[id].trade == t)
    && (forall u :: u in s.signals ==> u in n.signals && (u != t ==> n.signals[u] == s.signals[u]))
    && n.signals.Keys <= s.signals.Keys + {t}
    && KeepsWire(s.wire, n.wire) && |n.wire| <= |s.wire| + 1
    && (|n.wire| > |s.wire| ==> n.wire[|s.wire|].id in n.intents && n.wire[|s.wire|].id !in s.intents && t in n.signals)
  }

  ghost predicate EnteredWith(s: State, n: State, t: TradeId) {
    && |n.wire| == |s.wire| + 1 && n.wire[|s.wire|].id in n.intents
    && n.intents[n.wire[|s.wire|].id].op.Entry? && n.intents[n.wire[|s.wire|].id].trade == t
    && n.intents[n.wire[|s.wire|].id].state.Confirmed?
  }

  /** No order state moved: only the mark of `t`, its row and the control state. */
  ghost predicate Concluded(s: State, n: State, t: TradeId) {
    && n == s.(signals := n.signals, trades := n.trades, desk := n.desk, work := n.work, staged := n.staged, armed := n.armed)
    && (n.signals == s.signals || (t in n.signals && n.signals == s.signals[t := n.signals[t]]))
  }

  lemma EntersFrom(s: State, m: State, n: State, t: TradeId)
    requires m == s.(trades := m.trades, desk := m.desk) && t in s.signals
    requires EntersOnce(m, n, t)
    ensures ClaimsOnce(s, n, t)
  {
  }

  ghost predicate Crashed(s: State, n: State) {
    n == s.(desk := Idle, work := None, staged := None, armed := None)
  }

  lemma ClaimedIsNew(q: seq<State>, t: TradeId)
    requires IsRun(q) && Last(q).desk == Claimed(t)
    ensures t !in Last(q).trades
  {
    RunInv(q, |q| - 1);
  }
}
