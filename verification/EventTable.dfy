/**
 * The `exchange_events` table beside `trade_records`: store an event once,
 * apply it to the rows it names, and replay stored events after a late binding.
 */
module EventTable {
  import opened Basics
  import opened EventLog

  predicate Names(id: Option<int>, column: Option<int>) {
    id.Some? && column == id
  }

  /** `_matching_trade_rows`: the routing used when an event is first stored. */
  predicate RecordMatches(r: Row, e: Event) {
    && e.key.symbol == r.symbol
    && ( (e.key.orderId != Some(-1) &&
          (Names(e.key.orderId, r.entryId) || Names(e.key.orderId, r.takeProfitId) || Names(e.key.orderId, r.stopId)))
      || (e.key.listId != Some(-1) && Names(e.key.listId, r.listId)))
  }

  /** The routing used by a replay: it starts from the row's identifiers instead. */
  predicate ReplayMatches(r: Row, e: Event) {
    && e.key.symbol == r.symbol
    && ( (e.key.orderId != Some(0) &&
          (Names(e.key.orderId, r.entryId) || Names(e.key.orderId, r.takeProfitId) || Names(e.key.orderId, r.stopId)))
      || (e.key.listId != Some(0) && Names(e.key.listId, r.listId)))
  }

  predicate Ordinary(id: Option<int>) {
    id != Some(0) && id != Some(-1)
  }

  /** Identifiers as the exchange issues them for lists and list legs. */
  predicate OrdinaryIds(r: Row) {
    Ordinary(r.entryId) && Ordinary(r.takeProfitId) && Ordinary(r.stopId) && Ordinary(r.listId)
  }

  predicate Unbound(r: Row) {
    r.entryId.None? && r.takeProfitId.None? && r.stopId.None? && r.listId.None?
  }

  datatype Tables = Tables(rows: map<TradeId, Row>, log: seq<Event>)

  predicate Seen(log: seq<Event>, k: EventKey) {
    exists i :: 0 <= i < |log| && log[i].key == k
  }

  /** The stored events a replay of `r` visits, in id order. */
  function Routed(r: Row, log: seq<Event>): seq<Event> {
    if log == [] then []
    else Routed(r, log[..|log| - 1]) +
         (if ReplayMatches(r, log[|log| - 1]) then [log[|log| - 1]] else [])
  }

  /** Every row the event names, updated; the others as they were. */
  function Touched(rows: map<TradeId, Row>, e: Event): map<TradeId, Row> {
    map t | t in rows :: if RecordMatches(rows[t], e) then Applied(rows[t], e) else rows[t]
  }

  function Record(db: Tables, e: Event): Tables {
    if Seen(db.log, e.key) then db else Tables(Touched(db.rows, e), db.log + [e])
  }

  function RecordAll(db: Tables, es: seq<Event>): Tables {
    if es == [] then db else Record(RecordAll(db, es[..|es| - 1]), es[|es| - 1])
  }

  function Replay(db: Tables, t: TradeId): Tables {
    if t !in db.rows then db
    else db.(rows := db.rows[t := ApplyAll(db.rows[t], Routed(db.rows[t], db.log))])
  }

  /** What the REST reply writes: identifiers and a lifecycle. */
  datatype Binding = Binding(lifecycle: Lifecycle, entryId: Option<int>, listId: Option<int>,
                             takeProfitId: Option<int>, stopId: Option<int>)

  function BindRow(r: Row, b: Binding): Row {
    r.(lifecycle := b.lifecycle, entryId := b.entryId, listId := b.listId,
       takeProfitId := b.takeProfitId, stopId := b.stopId)
  }

  function Bind(db: Tables, t: TradeId, b: Binding): Tables
    requires t in db.rows
  {
    db.(rows := db.rows[t := BindRow(db.rows[t], b)])
  }

  // ---- the two routings ----

  /** Storing and replaying route every event alike exactly when no bound
      identifier is 0 or -1. */
  lemma RoutingsAgreeIff(r: Row)
    ensures OrdinaryIds(r) <==> forall e :: RecordMatches(r, e) == ReplayMatches(r, e)
  {
    if !OrdinaryIds(r) {
      var list := if Ordinary(r.listId) then None else r.listId;
      var order := if !Ordinary(r.entryId) then r.entryId
                   else if !Ordinary(r.takeProfitId) then r.takeProfitId
                   else if !Ordinary(r.stopId) then r.stopId else None;
      var e := Event(EventKey(r.symbol, order, None, None, None, ""), OtherKind, None);
      var f := Event(EventKey(r.symbol, None, list, None, None, ""), OtherKind, None);
      assert RecordMatches(r, e) != ReplayMatches(r, e) || RecordMatches(r, f) != ReplayMatches(r, f);
    }
  }

  lemma {:induction false} RoutedMatches(r: Row, log: seq<Event>)
    ensures forall k :: 0 <= k < |Routed(r, log)| ==> ReplayMatches(r, Routed(r, log)[k])
  {
    if log != [] {
      RoutedMatches(r, log[..|log| - 1]);
    }
  }

  // ---- late binding ----

  lemma {:induction false} RoutedSameIds(r: Row, q: Row, log: seq<Event>)
    requires r.symbol == q.symbol && r.entryId == q.entryId && r.listId == q.listId
    requires r.takeProfitId == q.takeProfitId && r.stopId == q.stopId
    ensures Routed(r, log) == Routed(q, log)
  {
    if log != [] {
      RoutedSameIds(r, q, log[..|log| - 1]);
    }
  }

  predicate SameIds(r: Row, q: Row) {
    && r.symbol == q.symbol && r.entryId == q.entryId && r.listId == q.listId
    && r.takeProfitId == q.takeProfitId && r.stopId == q.stopId
  }

  lemma {:induction false} ApplyAllKeepsIds(r: Row, es: seq<Event>)
    ensures SameIds(r, ApplyAll(r, es))
  {
    if es != [] {
      ApplyAllKeepsIds(r, es[..|es| - 1]);
    }
  }

  /** No event ever changes which identifiers a row is bound to. */
  lemma {:induction false} RecordAllKeepsIds(db: Tables, t: TradeId, es: seq<Event>)
    requires t in db.rows
    ensures t in RecordAll(db, es).rows && SameIds(db.rows[t], RecordAll(db, es).rows[t])
  {
    if es != [] {
      RecordAllKeepsIds(db, t, es[..|es| - 1]);
    }
  }

  lemma ReplayKeepsIds(db: Tables, t: TradeId)
    requires t in db.rows
    ensures t in Replay(db, t).rows && SameIds(db.rows[t], Replay(db, t).rows[t])
  {
    ApplyAllKeepsIds(db.rows[t], Routed(db.rows[t], db.log));
  }

  /** `matched` is what storing `es` applied to the row: new events that name it. */
  ghost predicate Reached(db: Tables, t: TradeId, es: seq<Event>, matched: seq<Event>)
    requires t in db.rows
  {
    && t in RecordAll(db, es).rows && RecordAll(db, es).rows[t] == ApplyAll(db.rows[t], matched)
    && forall k :: 0 <= k < |matched| ==>
         matched[k] in es && matched[k] in RecordAll(db, es).log
         && RecordMatches(db.rows[t], matched[k]) && !Seen(db.log, matched[k].key)
  }

  lemma {:induction false} LogGrows(db: Tables, es: seq<Event>)
    ensures db.log <= RecordAll(db, es).log
    ensures forall k :: Seen(db.log, k) ==> Seen(RecordAll(db, es).log, k)
  {
    if es != [] {
      LogGrows(db, es[..|es| - 1]);
    }
  }

  lemma {:induction false} RecordAllReaches(db: Tables, t: TradeId, es: seq<Event>) returns (matched: seq<Event>)
    requires t in db.rows
    ensures Reached(db, t, es, matched)
  {
    matched := [];
    if es != [] {
      var n := |es| - 1;
      var e := es[n];
      var mid := RecordAll(db, es[..n]);
      matched := RecordAllReaches(db, t, es[..n]);
      LogGrows(db, es[..n]);
      ApplyAllKeepsIds(db.rows[t], matched);
      if !Seen(mid.log, e.key) && RecordMatches(mid.rows[t], e) {
        ApplyAllSnoc(db.rows[t], matched, e);
        matched := matched + [e];
      }
    }
  }

  lemma {:induction false} RecordAllLog(db: Tables, dc: Tables, es: seq<Event>)
    requires db.log == dc.log
    ensures RecordAll(db, es).log == RecordAll(dc, es).log
  {
    if es != [] {
      RecordAllLog(db, dc, es[..|es| - 1]);
    }
  }

  lemma RoutedSnoc(base: Row, log: seq<Event>, e: Event)
    ensures Routed(base, log + [e]) == Routed(base, log) + (if ReplayMatches(base, e) then [e] else [])
  {
    assert (log + [e])[..|log|] == log;
  }

  lemma ApplyAllSnoc(base: Row, es: seq<Event>, e: Event)
    ensures ApplyAll(base, es + [e]) == Applied(ApplyAll(base, es), e)
  {
    assert (es + [e])[..|es|] == es;
  }

  /** Up to date: the row is the replay of the whole log over the row it was bound as. */
  ghost predicate Current(db: Tables, t: TradeId, base: Row) {
    t in db.rows && db.rows[t] == ApplyAll(base, Routed(base, db.log))
  }

  lemma RecordKeepsCurrent(db: Tables, t: TradeId, base: Row, e: Event)
    requires OrdinaryIds(base) && Current(db, t, base)
    ensures Current(Record(db, e), t, base)
  {
    var routed := Routed(base, db.log);
    ApplyAllKeepsIds(base, routed);
    RoutingsAgreeIff(base);
    var row := db.rows[t];
    assert RecordMatches(row, e) == RecordMatches(base, e);
    RoutedSnoc(base, db.log, e);
    ApplyAllSnoc(base, routed, e);
    if ReplayMatches(base, e) {
    } else {
      assert routed + [] == routed;
    }
  }

  lemma {:induction false} RecordAllKeepsCurrent(db: Tables, t: TradeId, base: Row, es: seq<Event>)
    requires OrdinaryIds(base) && Current(db, t, base)
    ensures Current(RecordAll(db, es), t, base)
  {
    if es != [] {
      RecordAllKeepsCurrent(db, t, base, es[..|es| - 1]);
      RecordKeepsCurrent(RecordAll(db, es[..|es| - 1]), t, base, es[|es| - 1]);
    }
  }

  lemma ReplayMakesCurrent(db: Tables, t: TradeId, b: Binding)
    requires t in db.rows
    ensures Current(Replay(Bind(db, t, b), t), t, BindRow(db.rows[t], b))
  {
  }

  lemma ReplayOfCurrent(db: Tables, t: TradeId, base: Row)
    requires Current(db, t, base)
    ensures Replay(db, t) == db
  {
    var routed := Routed(base, db.log);
    ApplyAllKeepsIds(base, routed);
    RoutedSameIds(base, db.rows[t], db.log);
    ReplayIdempotent(base, routed);
    assert db.rows[t := db.rows[t]] == db.rows;
  }

  lemma {:induction false} LastWriteIff<T>(es: seq<Event>, w: Event -> Option<T>)
    ensures LastWrite(es, w).Some? <==> exists e :: e in es && w(e).Some?
  {
    if es != [] {
      var n := |es| - 1;
      LastWriteIff(es[..n], w);
      assert es == es[..n] + [es[n]];
    }
  }

  lemma WritesCarryOver<T>(a: seq<Event>, b: seq<Event>, w: Event -> Option<T>, held: Option<T>)
    requires forall e :: e in a ==> e in b
    ensures OrElse(LastWrite(b, w), OrElse(LastWrite(a, w), held)) == OrElse(LastWrite(b, w), held)
  {
    LastWriteIff(a, w);
    LastWriteIff(b, w);
  }

  /** What earlier events wrote is masked by a replay that contains them. */
  lemma ReplayMasks(r: Row, b: Binding, a: seq<Event>, all: seq<Event>)
    requires forall e :: e in a ==> e in all
    ensures ApplyAll(BindRow(ApplyAll(r, a), b), all) == ApplyAll(BindRow(r, b), all)
  {
    ApplyAllColumns(r, a);
    ApplyAllColumns(BindRow(ApplyAll(r, a), b), all);
    ApplyAllColumns(BindRow(r, b), all);
    WritesCarryOver(a, all, NewFilled, r.filled);
    WritesCarryOver(a, all, NewAverage, r.average);
    WritesCarryOver(a, all, NewProtected, r.protectedQty);
    WritesCarryOver(a, all, (e: Event) => e.commission, r.commission);
    if a != [] {
      assert a[0] in all;
    }
  }

  lemma {:induction false} RoutedHas(r: Row, log: seq<Event>, e: Event)
    requires e in log && ReplayMatches(r, e)
    ensures e in Routed(r, log)
  {
    var n := |log| - 1;
    if e != log[n] {
      assert log == log[..n] + [log[n]];
      RoutedHas(r, log[..n], e);
    }
  }

  /** Every new event that names the row as it is, is also routed to it as bound. */
  ghost predicate StillNamed(db: Tables, row: Row, base: Row, es: seq<Event>) {
    forall e :: e in es && !Seen(db.log, e.key) && RecordMatches(row, e) ==> ReplayMatches(base, e)
  }

  /** Storing events before the identifiers are bound and replaying them
      afterwards gives the row that binding first and storing one by one gives,
      also when the row was bound to other identifiers before. */
  lemma LateBindingAgrees(db: Tables, t: TradeId, b: Binding, es: seq<Event>)
    requires t in db.rows && OrdinaryIds(BindRow(db.rows[t], b))
    requires StillNamed(db, db.rows[t], BindRow(db.rows[t], b), es)
    ensures LateEqualsEarly(db, t, b, es)
    ensures RecordAll(db, es).log == RecordAll(Replay(Bind(db, t, b), t), es).log
  {
    var row := db.rows[t];
    var base := BindRow(row, b);
    var stored := RecordAll(db, es);
    var matched := RecordAllReaches(db, t, es);
    var routed := Routed(base, stored.log);
    forall e | e in matched
      ensures e in routed
    {
      var k :| 0 <= k < |matched| && matched[k] == e;
      RoutedHas(base, stored.log, e);
    }
    ApplyAllKeepsIds(row, matched);
    RoutedSameIds(base, BindRow(stored.rows[t], b), stored.log);
    ReplayMasks(row, b, matched, routed);
    var start := Replay(Bind(db, t, b), t);
    ReplayMakesCurrent(db, t, b);
    RecordAllKeepsCurrent(start, t, base, es);
    RecordAllLog(db, start, es);
  }

  /** Once a row is up to date, a further replay of everything stored, any
      number of events later, changes nothing in any table. */
  lemma ReplayConverges(db: Tables, t: TradeId, b: Binding, es: seq<Event>)
    requires t in db.rows && OrdinaryIds(BindRow(db.rows[t], b))
    ensures
      var now := RecordAll(Replay(Bind(db, t, b), t), es);
      Replay(now, t) == now
  {
    var base := BindRow(db.rows[t], b);
    var start := Replay(Bind(db, t, b), t);
    ReplayMakesCurrent(db, t, b);
    RecordAllKeepsCurrent(start, t, base, es);
    ReplayOfCurrent(RecordAll(start, es), t, base);
  }

  ghost predicate LateEqualsEarly(db: Tables, t: TradeId, b: Binding, es: seq<Event>)
    requires t in db.rows
  {
    t in RecordAll(db, es).rows &&
    var late := Replay(Bind(RecordAll(db, es), t, b), t);
    var early := RecordAll(Replay(Bind(db, t, b), t), es);
    t in late.rows && t in early.rows && late.rows[t] == early.rows[t]
  }

  // ---- when late and early binding agree on every history ----

  predicate KeepsOrder(id: Option<int>, base: Row) {
    id.Some? && id != Some(-1) ==>
      id != Some(0) && (id == base.entryId || id == base.takeProfitId || id == base.stopId)
  }

  /** Every identifier the row is found by is among those of `base`. */
  predicate KeepsIds(row: Row, base: Row) {
    && KeepsOrder(row.entryId, base) && KeepsOrder(row.takeProfitId, base) && KeepsOrder(row.stopId, base)
    && (row.listId.Some? && row.listId != Some(-1) ==> row.listId != Some(0) && row.listId == base.listId)
  }

  /** An event that says nothing, on an order or a list. */
  function Notice(symbol: string, order: Option<int>, list: Option<int>, raw: Option<string>): Event {
    Event(EventKey(symbol, order, list, raw, None, ""), OtherKind, None)
  }

  /** A raw id no earlier event of the row had. */
  function FreshRaw(row: Row): Option<string> {
    if row.lastEvent.Some? && row.lastEvent.value.rawId.None? then Some("") else None
  }

  /** An order id of the row that `base` drops, if there is one. */
  function Dropped(row: Row, base: Row): Option<int> {
    if !KeepsOrder(row.entryId, base) then row.entryId
    else if !KeepsOrder(row.takeProfitId, base) then row.takeProfitId
    else if !KeepsOrder(row.stopId, base) then row.stopId
    else None
  }

  lemma KeepsIdsIff(row: Row, base: Row)
    requires row.symbol == base.symbol
    ensures KeepsIds(row, base) <==> forall e :: RecordMatches(row, e) ==> ReplayMatches(base, e)
  {
    if !KeepsIds(row, base) {
      var order := Dropped(row, base);
      var e := Notice(row.symbol, order, if order.Some? then None else row.listId, None);
      assert RecordMatches(row, e) && !ReplayMatches(base, e);
    }
  }

  function Alone(t: TradeId, row: Row): Tables {
    Tables(map[t := row], [])
  }

  function AfterRecord(row: Row, e: Event): Row {
    if RecordMatches(row, e) then Applied(row, e) else row
  }

  function AfterReplay(row: Row, e: Event): Row {
    if ReplayMatches(row, e) then Applied(row, e) else row
  }

  /** Both orders of binding, worked out for a history of one event. */
  lemma OneEvent(t: TradeId, row: Row, b: Binding, e: Event)
    ensures t in RecordAll(Alone(t, row), [e]).rows
    ensures
      var late := Replay(Bind(RecordAll(Alone(t, row), [e]), t, b), t);
      t in late.rows && late.rows[t] == AfterReplay(BindRow(AfterRecord(row, e), b), e)
    ensures
      var early := RecordAll(Replay(Bind(Alone(t, row), t, b), t), [e]);
      t in early.rows && early.rows[t] == AfterRecord(BindRow(row, b), e)
  {
    assert [e][..0] == [];
    assert RecordAll(Alone(t, row), [e]) == Record(Alone(t, row), e);
    var base := BindRow(AfterRecord(row, e), b);
    RoutedSnoc(base, [], e);
    ApplyAllSnoc(base, [], e);
    assert [] + [e] == [e];
    var start := Replay(Bind(Alone(t, row), t, b), t);
    assert start.rows[t] == BindRow(row, b);
    assert RecordAll(start, [e]) == Record(RecordAll(start, [e][..0]), e);
  }

  /** The identifiers a reply writes: none of them is 0. */
  predicate NonZero(b: Binding) {
    b.entryId != Some(0) && b.takeProfitId != Some(0) && b.stopId != Some(0) && b.listId != Some(0)
  }

  function Unlisted(r: Row): Option<int> {
    if r.entryId == Some(-1) || r.takeProfitId == Some(-1) || r.stopId == Some(-1) then Some(-1) else None
  }

  lemma BadBindingDiffers(t: TradeId, row: Row, b: Binding)
    requires NonZero(b)
    requires !OrdinaryIds(BindRow(row, b)) || !KeepsIds(row, BindRow(row, b))
    ensures exists e :: !LateEqualsEarly(Alone(t, row), t, b, [e])
  {
    var base := BindRow(row, b);
    var e;
    if !OrdinaryIds(base) {
      var order := Unlisted(base);
      e := Notice(row.symbol, order, if order.Some? then None else Some(-1), FreshRaw(row));
      assert !RecordMatches(row, e) && !RecordMatches(base, e) && ReplayMatches(base, e);
    } else {
      var order := Dropped(row, base);
      e := Notice(row.symbol, order, if order.Some? then None else row.listId, FreshRaw(row));
      assert RecordMatches(row, e) && !RecordMatches(base, e) && !ReplayMatches(base, e);
    }
    OneEvent(t, row, b, e);
    assert !LateEqualsEarly(Alone(t, row), t, b, [e]);
  }

  /** Late and early binding agree on every history exactly when the binding
      holds no -1 and keeps every identifier the row was found by: a check on the
      row and the reply, before the bind. */
  lemma LateBindingIff(t: TradeId, row: Row, b: Binding)
    requires NonZero(b)
    ensures
      var base := BindRow(row, b);
      OrdinaryIds(base) && KeepsIds(row, base) <==>
      forall db: Tables, es :: t in db.rows && db.rows[t] == row ==> LateEqualsEarly(db, t, b, es)
  {
    var base := BindRow(row, b);
    if OrdinaryIds(base) && KeepsIds(row, base) {
      KeepsIdsIff(row, base);
      forall db: Tables, es | t in db.rows && db.rows[t] == row
        ensures LateEqualsEarly(db, t, b, es)
      {
        LateBindingAgrees(db, t, b, es);
      }
    } else {
      BadBindingDiffers(t, row, b);
      var e :| !LateEqualsEarly(Alone(t, row), t, b, [e]);
      assert t in Alone(t, row).rows && Alone(t, row).rows[t] == row;
    }
  }

  // ---- list id -1 ----

  predicate SoldOut(e: Event, symbol: string) {
    e.key.symbol == symbol && e.kind.ExecutionReport? && e.kind.side.Sell? && e.kind.status.Filled?
  }

  /** A row bound to list id -1 is closed by the replay as soon as any single
      order of the symbol was ever sold out, whichever trade it belonged to. */
  lemma UnlistedBindingCloses(db: Tables, t: TradeId, b: Binding, e: Event)
    requires t in db.rows && b.listId == Some(-1)
    requires !b.lifecycle.Reconciled? && Rank(b.lifecycle) <= 8
    requires e in db.log && SoldOut(e, db.rows[t].symbol) && e.key.listId == Some(-1)
    ensures Terminal(Replay(Bind(db, t, b), t).rows[t].lifecycle)
  {
    var base := BindRow(db.rows[t], b);
    RoutedHas(base, db.log, e);
    ApplyAllColumns(base, Routed(base, db.log));
    SoldOutCloses(base.lifecycle, Routed(base, db.log), e);
  }

  lemma SoldOutCloses(l: Lifecycle, es: seq<Event>, e: Event)
    requires !l.Reconciled? && Rank(l) <= 8 && e in es && Produced(e) == Some(ExitFilled)
    ensures Terminal(Final(l, es))
  {
    FinalIsMaximum(l, es);
    var k :| 0 <= k < |es| && es[k] == e;
    assert Produces(es, ExitFilled);
    if Final(l, es) != l {
      var i :| 0 <= i < |es| && Produced(es[i]) == Some(Final(l, es));
      ProducedRank(es[i]);
    }
  }

  /** The fill of a single sell order that is none of the row's, nor `stop`. */
  predicate OtherFill(row: Row, stop: int, fill: Event) {
    && SoldOut(fill, row.symbol) && fill.key.listId == Some(-1) && fill.key.orderId.Some?
    && fill.key.orderId != row.entryId && fill.key.orderId != row.takeProfitId
    && fill.key.orderId != row.stopId && fill.key.orderId != Some(stop)
  }

  function UnlistedStop(row: Row, stop: int): Binding {
    Binding(TrailingActive, row.entryId, Some(-1), None, Some(stop))
  }

  lemma OtherFillRouting(row: Row, stop: int, fill: Event)
    requires OtherFill(row, stop, fill)
    ensures AfterRecord(row, fill) == row
    ensures AfterReplay(BindRow(row, UnlistedStop(row, stop)), fill).lifecycle == ExitFilled
    ensures AfterRecord(BindRow(row, UnlistedStop(row, stop)), fill).lifecycle == TrailingActive
  {
  }

  /** A bound row, such as a partly filled entry, is protected by one trailing
      order: the reply carries list id -1.  An earlier trade of the symbol left
      the fill of its emergency exit in the log, under another order id.  The
      replay closes the row; binding before that fill was stored would not. */
  lemma UnlistedBindingDiffers(t: TradeId, row: Row, stop: int, fill: Event)
    requires OtherFill(row, stop, fill)
    ensures t in RecordAll(Alone(t, row), [fill]).rows
    ensures
      var b := UnlistedStop(row, stop);
      var late := Replay(Bind(RecordAll(Alone(t, row), [fill]), t, b), t);
      var early := RecordAll(Replay(Bind(Alone(t, row), t, b), t), [fill]);
      t in late.rows && t in early.rows &&
      late.rows[t].lifecycle == ExitFilled && early.rows[t].lifecycle == TrailingActive
  {
    OneEvent(t, row, UnlistedStop(row, stop), fill);
    OtherFillRouting(row, stop, fill);
  }
}
