/**
 * `StateStore`: the SQLite tables of the execution sidecar, each method one
 * transaction.  Every method is specified by a function on the old tables.
 */
module StateStores {
  import opened Basics
  import opened EventLog
  import opened EventTable
  import opened Ledger
  import opened Protocol

  /** The columns one `upsert_trade` call names; the others keep their value. */
  datatype Patch = Patch(
    lifecycle: Option<Lifecycle>,
    ids: Option<Binding>,
    protectedQty: Option<real>,
    mode: Option<Mode>,
    note: string)

  function NewRow(symbol: string): Row {
    Row(symbol, SignalApproved, None, None, None, None, None, None, None, None, None, None, Note(""))
  }

  /** An insert starts from the SIGNAL_APPROVED default; an update that does not
      name the lifecycle leaves it as it is. */
  function Patched(r: Row, p: Patch): Row {
    var bound := if p.ids.Some? then r.(entryId := p.ids.value.entryId, listId := p.ids.value.listId,
                                        takeProfitId := p.ids.value.takeProfitId, stopId := p.ids.value.stopId) else r;
    bound.(lifecycle := p.lifecycle.GetOr(r.lifecycle),
           protectedQty := OrElse(p.protectedQty, r.protectedQty),
           mode := OrElse(p.mode, r.mode),
           recon := Note(p.note))
  }

  predicate Oldest(rows: set<Intent>, i: Intent) {
    i in rows && forall j :: j in rows ==> i.created <= j.created
  }

  lemma {:induction false} OldestExists(rows: set<Intent>)
    requires rows != {}
    ensures exists i :: Oldest(rows, i)
    decreases |rows|
  {
    var i :| i in rows;
    var rest := rows - {i};
    if rest == {} {
      assert rows == {i};
      assert Oldest(rows, i);
    } else {
      OldestExists(rest);
      var j :| Oldest(rest, j);
      assert Oldest(rows, if i.created <= j.created then i else j);
    }
  }

  predicate Waiting(tab: Intents, i: Intent) {
    i.id in tab && i == tab[i.id] && Unresolved(i.state)
  }

  predicate OldestFirst(rows: seq<Intent>) {
    forall j, k :: 0 <= j < k < |rows| ==> rows[j].id != rows[k].id && rows[j].created <= rows[k].created
  }

  /** `rows` holds each unresolved row of the table once, oldest first. */
  predicate ListsUnresolved(tab: Intents, rows: seq<Intent>) {
    && (forall k :: 0 <= k < |rows| ==> Waiting(tab, rows[k]))
    && (forall id :: id in tab && Unresolved(tab[id].state) ==> tab[id] in rows)
    && OldestFirst(rows)
  }

  lemma ExtendOldest(rows: seq<Intent>, i: Intent)
    requires OldestFirst(rows)
    requires forall k :: 0 <= k < |rows| ==> rows[k].id != i.id && rows[k].created <= i.created
    ensures OldestFirst(rows + [i])
  {
  }

  class StateStore {
    var intents: Intents
    var trades: map<TradeId, Row>
    var signals: map<TradeId, Mark>
    var log: seq<Event>

    constructor ()
      ensures intents == map[] && trades == map[] && signals == map[] && log == []
    {
      intents, trades, signals, log := map[], map[], map[], [];
    }

    // ---- intents ----

    /** Inserts the row and closes its parent in one transaction, or does nothing. */
    method PrepareIntent(i: Intent, close: Option<IntentId>) returns (r: Prepare)
      modifies this`intents
      ensures r == PrepareOutcome(old(intents), i, close)
      ensures intents == PrepareTable(old(intents), i, close)
    {
      if i.id in intents {
        return AlreadyThere;
      }
      var tab := intents[i.id := i.(state := Prepared, created := |intents|)];
      if close.Some? {
        if close.value !in tab || !tab[close.value].state.Prepared? {
          return RolledBack;
        }
        tab := tab[close.value := tab[close.value].(state := Aborted)];
      }
      intents := tab;
      return Inserted;
    }

    method MarkIntentSubmitting(id: IntentId) returns (ok: bool)
      modifies this`intents
      ensures ok == CanMark(old(intents), id)
      ensures intents == if ok then SetState(old(intents), id, Submitting) else old(intents)
    {
      ok := id in intents && intents[id].state.Prepared?;
      if ok {
        intents := intents[id := intents[id].(state := Submitting)];
      }
    }

    method FinishIntent(id: IntentId, st: IntentState) returns (ok: bool)
      modifies this`intents
      ensures ok == (id in old(intents) && !st.Prepared? && !st.Submitting?)
      ensures intents == if ok then SetState(old(intents), id, st) else old(intents)
    {
      ok := id in intents && (st.Confirmed? || st.DefiniteReject? || st.Ambiguous? || st.Aborted?);
      if ok {
        intents := intents[id := intents[id].(state := st)];
      }
    }

    /** Every unresolved row once, oldest first. */
    method UnresolvedIntents() returns (rows: seq<Intent>)
      requires forall id :: id in intents ==> intents[id].id == id
      ensures ListsUnresolved(intents, rows)
    {
      rows := [];
      var left := set id | id in intents && Unresolved(intents[id].state) :: intents[id];
      while left != {}
        invariant forall i :: i in left ==> Waiting(intents, i)
        invariant forall k :: 0 <= k < |rows| ==> Waiting(intents, rows[k])
        invariant forall id :: id in intents && Unresolved(intents[id].state) ==> intents[id] in rows || intents[id] in left
        invariant OldestFirst(rows)
        invariant forall k, i :: 0 <= k < |rows| && i in left ==> rows[k].id != i.id && rows[k].created <= i.created
        decreases |left|
      {
        OldestExists(left);
        var i :| Oldest(left, i);
        ExtendOldest(rows, i);
        rows := rows + [i];
        left := left - {i};
      }
    }

    /** The newest CANCEL_PROTECTION row of the trade, if it has one. */
    method LatestProtectionCancel(t: TradeId) returns (c: Option<IntentId>)
      ensures c.Some? ==> LatestCancel(intents, t, c.value)
      ensures c.None? ==> forall d :: d in intents && intents[d].op.CancelProtection? ==> intents[d].trade != t
    {
      c := None;
      var left := intents.Keys;
      while left != {}
        invariant left <= intents.Keys
        invariant c.Some? ==>
          && c.value in intents && intents[c.value].op.CancelProtection? && intents[c.value].trade == t
          && (forall d :: d in intents && d !in left && intents[d].op.CancelProtection? && intents[d].trade == t ==>
                intents[d].created <= intents[c.value].created)
        invariant c.None? ==>
          forall d :: d in intents && d !in left && intents[d].op.CancelProtection? ==> intents[d].trade != t
        decreases |left|
      {
        var d :| d in left;
        left := left - {d};
        if intents[d].op.CancelProtection? && intents[d].trade == t {
          if c.None? || intents[c.value].created <= intents[d].created {
            c := Some(d);
          }
        }
      }
    }

    // ---- signals ----

    /** True exactly for the first claim or record of a signal id. */
    method ClaimSignal(t: TradeId) returns (claimed: bool)
      modifies this`signals
      ensures claimed == (t !in old(signals))
      ensures signals == if claimed then old(signals)[t := InProgress] else old(signals)
    {
      claimed := t !in signals;
      if claimed {
        signals := signals[t := InProgress];
      }
    }

    method RecordSignal(t: TradeId, result: string)
      modifies this`signals
      ensures signals == old(signals)[t := Mark.Result(result)]
    {
      signals := signals[t := Mark.Result(result)];
    }

    // ---- trades ----

    method UpsertTrade(t: TradeId, symbol: string, p: Patch)
      modifies this`trades
      ensures trades == old(trades)[t := Patched(if t in old(trades) then old(trades)[t] else NewRow(symbol), p)]
    {
      var row := if t in trades then trades[t] else NewRow(symbol);
      trades := trades[t := Patched(row, p)];
    }

    /** Some nonterminal row of the symbol; which one depends on the clock. */
    method ActiveTradeForSymbol(symbol: string) returns (t: Option<TradeId>)
      ensures t.Some? ==> t.value in trades && Active(trades[t.value]) && trades[t.value].symbol == symbol
      ensures t.None? ==> forall u :: u in trades && Active(trades[u]) ==> trades[u].symbol != symbol
    {
      var rows := set u | u in trades && Active(trades[u]) && trades[u].symbol == symbol;
      if rows == {} {
        assert forall u :: u in trades && Active(trades[u]) ==> (trades[u].symbol == symbol ==> u in rows);
        return None;
      }
      var u :| u in rows;
      return Some(u);
    }

    // ---- events ----

    /** Stores and applies an event once; a second delivery changes nothing. */
    method RecordExchangeEvent(e: Event) returns (isNew: bool)
      modifies this`trades, this`log
      ensures isNew == !Seen(old(log), e.key)
      ensures Tables(trades, log) == Record(Tables(old(trades), old(log)), e)
    {
      var k := 0;
      while k < |log|
        invariant 0 <= k <= |log|
        invariant forall j :: 0 <= j < k ==> log[j].key != e.key
      {
        if log[k].key == e.key {
          return false;
        }
        k := k + 1;
      }
      trades := Touched(trades, e);
      log := log + [e];
      isNew := true;
    }

    /** Applies the stored events of a row in id order, over its current value. */
    method ReplayExchangeEventsForTrade(t: TradeId) returns (applied: nat)
      modifies this`trades
      ensures Tables(trades, log) == Replay(Tables(old(trades), log), t)
      ensures applied == if t in old(trades) then |Routed(old(trades)[t], log)| else 0
    {
      applied := 0;
      if t !in trades {
        return;
      }
      var row := trades[t];
      var k := 0;
      assert Routed(row, log[..0]) == [];
      while k < |log|
        invariant 0 <= k <= |log|
        invariant applied == |Routed(row, log[..k])|
        invariant t in trades && trades[t] == ApplyAll(row, Routed(row, log[..k]))
        invariant trades == old(trades)[t := trades[t]]
      {
        RoutedSnoc(row, log[..k], log[k]);
        assert log[..k + 1] == log[..k] + [log[k]];
        if ReplayMatches(row, log[k]) {
          ApplyAllSnoc(row, Routed(row, log[..k]), log[k]);
          trades := trades[t := Applied(trades[t], log[k])];
          applied := applied + 1;
        } else {
          assert Routed(row, log[..k]) + [] == Routed(row, log[..k]);
        }
        k := k + 1;
      }
      assert log[..|log|] == log;
    }
  }
}
