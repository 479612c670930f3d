/**
 * Exchange events folded into durable trade rows (`StateStore` in
 * services/execution_sidecar/state_store.py).
 *
 * An event is raw evidence: it is stored once, and applied to every row whose
 * exchange identifiers it names.  Because identifiers are bound only after the
 * REST reply arrives, an event may be stored first and replayed later.
 */
module EventLog {
  import opened Basics

  datatype Lifecycle =
    | SignalApproved | EntrySubmitted | EntryPartiallyFilled | EntryFilled
    | Reconciled | ProtectionActive | BreakEvenArmed | ProfitLocked | TrailingActive
    | ExitFilled | EntryRejected | Ambiguous | Error

  predicate Terminal(l: Lifecycle) {
    l.ExitFilled? || l.EntryRejected?
  }

  function Rank(l: Lifecycle): nat {
    match l
    case SignalApproved => 0
    case EntrySubmitted => 1
    case EntryPartiallyFilled => 2
    case EntryFilled => 3
    case Reconciled => 4
    case ProtectionActive => 5
    case BreakEvenArmed => 6
    case ProfitLocked => 7
    case TrailingActive => 8
    case ExitFilled => 9
    case EntryRejected => 9
    case Ambiguous => 10
    case Error => 10
  }

  datatype Recon =
    | UserStreamEventApplied
    | MalformedFill
    | MalformedProtection
    | EntryPartialFillCancelAndProtect
    | EntryTerminalPartialFill
    | EntryTerminalNoFill
    | SellProtectionTerminal
    | UnmatchedRejection
    | ListExecutingPhaseUnproven
    | ListTerminalExitConfirmed
    | ListTerminalReconcile
    | ListActionRejected
    | Note(text: string)

  datatype Mode = FixedOco | TrailingOnly | OcoTrailing

  /** The columns of `trade_records` that the money-side code reads. */
  datatype Row = Row(
    symbol: string,
    lifecycle: Lifecycle,
    entryId: Option<int>,
    listId: Option<int>,
    takeProfitId: Option<int>,
    stopId: Option<int>,
    filled: Option<real>,
    protectedQty: Option<real>,
    average: Option<real>,
    commission: Option<string>,
    mode: Option<Mode>,
    lastEvent: Option<EventKey>,
    recon: Recon)

  // ---- events ----

  /** A number on the wire: missing or empty, unparseable, or finite. */
  datatype Numeric = Absent | Malformed | Amount(value: real)

  datatype Side = Buy | Sell | NoSide
  datatype Status = New | PartiallyFilled | Filled | Canceled | Expired | ExpiredInMatch | Rejected | OtherStatus
  datatype OrderType = StopLoss | StopLossLimit | TakeProfit | TakeProfitLimit | LimitMaker | OtherType
  datatype ListPhase = ExecStarted | Updated | AllDone | Response | OtherPhase
  datatype ListOrder = Executing | ListAllDone | ListReject | OtherListOrder

  datatype Kind =
    | ExecutionReport(side: Side, status: Status, orderType: OrderType,
                      cumulative: Numeric, quote: Numeric, original: Numeric)
    | ListStatus(phase: ListPhase, listOrder: ListOrder)
    | OtherKind

  /** The thirteen joined fields that make two deliveries "the same event";
      `shape` stands for the six that carry no routing information. */
  datatype EventKey = EventKey(symbol: string, orderId: Option<int>, listId: Option<int>,
                               rawId: Option<string>, time: Option<int>, shape: string)

  datatype Event = Event(key: EventKey, kind: Kind, commission: Option<string>)

  predicate Cancelled(s: Status) {
    s.Canceled? || s.Expired? || s.ExpiredInMatch? || s.Rejected?
  }

  predicate Resting(s: Status) {
    s.New? || s.PartiallyFilled?
  }

  function Executed(n: Numeric): real {
    if n.Amount? && n.value >= 0.0 then n.value else 0.0
  }

  predicate BadFill(n: Numeric) {
    n.Malformed? || (n.Amount? && n.value < 0.0)
  }

  /** The lifecycle an event argues for, looking at the event alone. */
  function Produced(e: Event): Option<Lifecycle> {
    match e.kind
    case ExecutionReport(Buy, PartiallyFilled, _, _, _, _) => Some(EntryPartiallyFilled)
    case ExecutionReport(Buy, Filled, _, _, _, _) => Some(EntryFilled)
    case ExecutionReport(Buy, s, _, z, _, _) =>
      if !Cancelled(s) then None
      else if Executed(z) > 0.0 then Some(EntryPartiallyFilled) else Some(EntryRejected)
    case ExecutionReport(Sell, Filled, _, _, _, _) => Some(ExitFilled)
    case ExecutionReport(Sell, s, o, _, _, _) =>
      if Resting(s) && !o.OtherType? then Some(ProtectionActive) else None
    case _ => None
  }

  /** The guard on the lifecycle column: terminal rows absorb, RECONCILED rows
      accept anything, every other row only moves up in rank. */
  function Advance(held: Lifecycle, p: Option<Lifecycle>): Lifecycle {
    if p.Some? && !Terminal(held) && (held.Reconciled? || Rank(p.value) >= Rank(held))
    then p.value else held
  }

  function NewFilled(e: Event): Option<real> {
    match e.kind
    case ExecutionReport(Buy, _, _, z, _, _) => if z.Absent? then None else Some(Executed(z))
    case _ => None
  }

  function NewAverage(e: Event): Option<real> {
    match e.kind
    case ExecutionReport(Buy, _, _, z, q, _) =>
      if Executed(z) > 0.0 && q.Amount? && q.value >= 0.0 then Some(q.value / Executed(z)) else None
    case _ => None
  }

  function NewProtected(e: Event): Option<real> {
    match e.kind
    case ExecutionReport(Sell, s, _, _, _, q) =>
      if Resting(s) && q.Amount? && q.value > 0.0 then Some(q.value) else None
    case _ => None
  }

  /** The reconciliation status the event leaves, given the row's lifecycle when
      it is applied (only the list-terminal case looks at it). */
  function NewRecon(l: Lifecycle, e: Event): Recon {
    match e.kind
    case ExecutionReport(side, s, o, z, q, orig) =>
      if side.Buy? && s.PartiallyFilled? then EntryPartialFillCancelAndProtect
      else if side.Buy? && Cancelled(s) then
        if Executed(z) > 0.0 then EntryTerminalPartialFill else EntryTerminalNoFill
      else if side.Sell? && Cancelled(s) then SellProtectionTerminal
      else if s.Rejected? then UnmatchedRejection
      else if side.Sell? && Resting(s) && !orig.Absent? && NewProtected(e).None? then MalformedProtection
      else if BadFill(z) then MalformedFill
      else if side.Buy? && Executed(z) > 0.0 && !q.Absent? && NewAverage(e).None? then MalformedFill
      else UserStreamEventApplied
    case ListStatus(phase, order) =>
      if (phase.ExecStarted? || phase.Updated?) && order.Executing? then ListExecutingPhaseUnproven
      else if phase.AllDone? || order.ListAllDone? then
        if l.ExitFilled? then ListTerminalExitConfirmed else ListTerminalReconcile
      else if phase.Response? || order.ListReject? then ListActionRejected
      else UserStreamEventApplied
    case OtherKind => UserStreamEventApplied
  }

  function OrElse<T>(a: Option<T>, b: Option<T>): Option<T> {
    if a.Some? then a else b
  }

  /** `_event_updates` followed by `_apply_event`. */
  function Applied(r: Row, e: Event): Row {
    r.(lifecycle := Advance(r.lifecycle, Produced(e)),
       filled := OrElse(NewFilled(e), r.filled),
       average := OrElse(NewAverage(e), r.average),
       protectedQty := OrElse(NewProtected(e), r.protectedQty),
       commission := OrElse(e.commission, r.commission),
       lastEvent := Some(e.key),
       recon := NewRecon(r.lifecycle, e))
  }

  function ApplyAll(r: Row, es: seq<Event>): Row {
    if es == [] then r else Applied(ApplyAll(r, es[..|es| - 1]), es[|es| - 1])
  }

  function Final(l: Lifecycle, es: seq<Event>): Lifecycle {
    if es == [] then l else Advance(Final(l, es[..|es| - 1]), Produced(es[|es| - 1]))
  }

  // ---- lifecycle: monotone, absorbing, order-independent ----

  predicate Produces(es: seq<Event>, l: Lifecycle) {
    exists i :: 0 <= i < |es| && Produced(es[i]) == Some(l)
  }

  lemma ProducesSnoc(es: seq<Event>, n: nat)
    requires |es| == n + 1
    ensures forall p :: Produces(es, p) <==> Produces(es[..n], p) || Produced(es[n]) == Some(p)
  {
    forall p
      ensures Produces(es, p) <==> Produces(es[..n], p) || Produced(es[n]) == Some(p)
    {
      if Produces(es, p) {
        var i :| 0 <= i < |es| && Produced(es[i]) == Some(p);
        if i < n {
          assert Produced(es[..n][i]) == Some(p);
        }
      }
      if Produces(es[..n], p) {
        var i :| 0 <= i < n && Produced(es[..n][i]) == Some(p);
        assert Produced(es[i]) == Some(p);
      }
    }
  }

  lemma ProducedRank(e: Event)
    ensures Produced(e).Some? ==> 2 <= Rank(Produced(e).value) <= 9 && !Produced(e).value.Reconciled?
  {
  }

  /** Over any events the rank never falls, the result is the old lifecycle or
      one an event argued for, and no event argued for anything higher. */
  lemma {:induction false} FinalIsMaximum(l: Lifecycle, es: seq<Event>)
    requires !l.Reconciled?
    ensures !Final(l, es).Reconciled?
    ensures Rank(l) <= Rank(Final(l, es))
    ensures Final(l, es) == l || Produces(es, Final(l, es))
    ensures forall p :: Produces(es, p) ==> Rank(p) <= Rank(Final(l, es))
    ensures Terminal(l) ==> Final(l, es) == l
  {
    if es != [] {
      var n := |es| - 1;
      FinalIsMaximum(l, es[..n]);
      ProducesSnoc(es, n);
      ProducedRank(es[n]);
    }
  }

  lemma {:induction false} FinalConcat(l: Lifecycle, a: seq<Event>, b: seq<Event>)
    ensures Final(l, a + b) == Final(Final(l, a), b)
  {
    if b == [] {
      assert a + b == a;
    } else {
      var n := |b| - 1;
      assert (a + b)[..|a + b| - 1] == a + b[..n];
      FinalConcat(l, a, b[..n]);
    }
  }

  /** What has been reached is never given up by the events that follow. */
  lemma RankNeverFalls(l: Lifecycle, a: seq<Event>, b: seq<Event>)
    requires !l.Reconciled?
    ensures Rank(Final(l, a)) <= Rank(Final(l, a + b))
    ensures Terminal(Final(l, a)) ==> Final(l, a + b) == Final(l, a)
  {
    FinalConcat(l, a, b);
    FinalIsMaximum(l, a);
    FinalIsMaximum(Final(l, a), b);
  }

  predicate BothKinds(es: seq<Event>) {
    Produces(es, ExitFilled) && Produces(es, EntryRejected)
  }

  lemma PermutationProduces(a: seq<Event>, b: seq<Event>, p: Lifecycle)
    requires multiset(a) == multiset(b)
    ensures Produces(a, p) == Produces(b, p)
  {
    if Produces(a, p) {
      var i :| 0 <= i < |a| && Produced(a[i]) == Some(p);
      assert a[i] in multiset(b);
      var j :| 0 <= j < |b| && b[j] == a[i];
      assert Produced(b[j]) == Some(p);
    }
    if Produces(b, p) {
      var i :| 0 <= i < |b| && Produced(b[i]) == Some(p);
      assert b[i] in multiset(a);
      var j :| 0 <= j < |a| && a[j] == b[i];
      assert Produced(a[j]) == Some(p);
    }
  }

  /** From any lifecycle, what is reached ranks at least as high as anything that
      was argued for, and is one of those unless nothing moved. */
  lemma FinalReaches(l: Lifecycle, es: seq<Event>)
    ensures Final(l, es) == l || (Produces(es, Final(l, es)) && Rank(Final(l, es)) <= 9)
    ensures forall p :: Produces(es, p) ==> Rank(p) <= Rank(Final(l, es)) && Rank(p) <= 9
    ensures l.Reconciled? && Final(l, es) == l ==> forall p :: !Produces(es, p)
    ensures Terminal(l) ==> Final(l, es) == l
  {
    FinalFromReconciled(es);
    if !l.Reconciled? {
      FinalIsMaximum(l, es);
    }
  }

  lemma PermutationReaches(l: Lifecycle, a: seq<Event>, b: seq<Event>)
    requires multiset(a) == multiset(b)
    ensures Rank(Final(l, a)) <= Rank(Final(l, b))
    ensures Final(l, a) == l || (Produces(a, Final(l, a)) && Rank(Final(l, a)) <= 9)
    ensures Terminal(l) ==> Final(l, a) == l
  {
    FinalReaches(l, a);
    FinalReaches(l, b);
    PermutationProduces(a, b, Final(l, a));
    PermutationProduces(a, b, Final(l, b));
    if !l.Reconciled? {
      FinalIsMaximum(l, b);
    }
  }

  lemma SameRank(a: Lifecycle, b: Lifecycle)
    requires Rank(a) == Rank(b) && a != b
    ensures Rank(a) == 10 || (a == ExitFilled && b == EntryRejected) || (a == EntryRejected && b == ExitFilled)
  {
  }

  lemma OrderIndependent(l: Lifecycle, a: seq<Event>, b: seq<Event>)
    requires multiset(a) == multiset(b) && !BothKinds(a)
    ensures Final(l, a) == Final(l, b)
  {
    PermutationReaches(l, a, b);
    PermutationReaches(l, b, a);
    PermutationProduces(a, b, Final(l, b));
    if Final(l, a) != Final(l, b) {
      SameRank(Final(l, a), Final(l, b));
    }
  }

  lemma MoveToFront(es: seq<Event>, p: Lifecycle) returns (moved: seq<Event>)
    requires Produces(es, p)
    ensures multiset(moved) == multiset(es)
    ensures moved != [] && Produced(moved[0]) == Some(p)
  {
    var i :| 0 <= i < |es| && Produced(es[i]) == Some(p);
    moved := [es[i]] + (es[..i] + es[i + 1..]);
    assert es == es[..i] + [es[i]] + es[i + 1..];
  }

  lemma FirstWins(l: Lifecycle, es: seq<Event>)
    requires !Terminal(l) && Rank(l) <= 8
    requires es != [] && Produced(es[0]).Some? && Terminal(Produced(es[0]).value)
    ensures Final(l, es) == Produced(es[0]).value
  {
    assert es == [es[0]] + es[1..];
    FinalConcat(l, [es[0]], es[1..]);
    assert [es[0]][..0] == [];
    assert Final(l, [es[0]]) == Advance(Final(l, []), Produced(es[0]));
    FinalIsMaximum(Final(l, [es[0]]), es[1..]);
  }

  /** The final lifecycle of a live row ignores the order of its events exactly
      when they do not argue for both terminal lifecycles. */
  lemma OrderIndependentIff(l: Lifecycle, es: seq<Event>)
    requires !Terminal(l) && Rank(l) <= 8
    ensures !BothKinds(es) <==>
            forall a :: multiset(a) == multiset(es) ==> Final(l, a) == Final(l, es)
  {
    if BothKinds(es) {
      var exitFirst := MoveToFront(es, ExitFilled);
      var rejectFirst := MoveToFront(es, EntryRejected);
      FirstWins(l, exitFirst);
      FirstWins(l, rejectFirst);
      assert Final(l, exitFirst) != Final(l, rejectFirst);
    } else {
      forall a | multiset(a) == multiset(es)
        ensures Final(l, a) == Final(l, es)
      {
        OrderIndependent(l, es, a);
      }
    }
  }

  // ---- the filled quantity is not monotone ----

  function HeldFilled(r: Row): real {
    r.filled.GetOr(0.0)
  }

  /** The row holds a cumulative quantity that a BUY report overwrites with less;
      a malformed or negative cumulative writes 0. */
  predicate Undercuts(e: Event, held: real) {
    e.kind.ExecutionReport? && e.kind.side.Buy? && !e.kind.cumulative.Absent? && Executed(e.kind.cumulative) < held
  }

  function FilledAfter(r: Row, es: seq<Event>, i: nat): real
    requires i <= |es|
  {
    HeldFilled(ApplyAll(r, es[..i]))
  }

  /** At no event does the filled quantity of the row fall. */
  ghost predicate FilledNeverFalls(r: Row, es: seq<Event>) {
    forall i :: 0 < i <= |es| ==> FilledAfter(r, es, i - 1) <= FilledAfter(r, es, i)
  }

  /** The cumulative quantities the BUY reports write, in order. */
  function FillsWritten(es: seq<Event>): seq<real> {
    if es == [] then []
    else
      var w := NewFilled(es[|es| - 1]);
      FillsWritten(es[..|es| - 1]) + (if w.Some? then [w.value] else [])
  }

  predicate Ascending(s: seq<real>) {
    forall i :: 0 < i < |s| ==> s[i - 1] <= s[i]
  }

  lemma AscendingSnoc(s: seq<real>, x: real)
    requires s != []
    ensures Ascending(s + [x]) <==> Ascending(s) && s[|s| - 1] <= x
  {
    if Ascending(s + [x]) {
      assert (s + [x])[|s| - 1] <= (s + [x])[|s|];
      forall i | 0 < i < |s|
        ensures s[i - 1] <= s[i]
      {
        assert (s + [x])[i - 1] <= (s + [x])[i];
      }
    }
  }

  lemma {:induction false} LastFillIsHeld(r: Row, es: seq<Event>)
    ensures
      var fills := [HeldFilled(r)] + FillsWritten(es);
      fills[|fills| - 1] == HeldFilled(ApplyAll(r, es))
  {
    if es != [] {
      LastFillIsHeld(r, es[..|es| - 1]);
    }
  }

  lemma FilledAfterFront(r: Row, es: seq<Event>, n: nat, i: nat)
    requires i <= n <= |es|
    ensures FilledAfter(r, es[..n], i) == FilledAfter(r, es, i)
  {
    assert es[..n][..i] == es[..i];
  }

  lemma FilledNeverFallsSnoc(r: Row, es: seq<Event>, n: nat)
    requires |es| == n + 1
    ensures FilledNeverFalls(r, es) <==>
            FilledNeverFalls(r, es[..n]) && FilledAfter(r, es, n) <= FilledAfter(r, es, n + 1)
  {
    forall i: nat | i <= n
      ensures FilledAfter(r, es[..n], i) == FilledAfter(r, es, i)
    {
      FilledAfterFront(r, es, n, i);
    }
  }

  /** One event lowers the filled quantity exactly when it undercuts it. */
  lemma FilledFallsIff(r: Row, e: Event)
    ensures HeldFilled(Applied(r, e)) < HeldFilled(r) <==> Undercuts(e, HeldFilled(r))
  {
  }

  /** The filled quantity never falls exactly when the cumulative quantities of
      the BUY reports, in the order they are applied, ascend from the one held. */
  lemma {:induction false} FilledNeverFallsIff(r: Row, es: seq<Event>)
    ensures FilledNeverFalls(r, es) <==> Ascending([HeldFilled(r)] + FillsWritten(es))
  {
    if es != [] {
      var n := |es| - 1;
      var fills := [HeldFilled(r)] + FillsWritten(es[..n]);
      FilledNeverFallsIff(r, es[..n]);
      FilledNeverFallsSnoc(r, es, n);
      LastFillIsHeld(r, es[..n]);
      assert es[..n + 1] == es;
      var w := NewFilled(es[n]);
      if w.Some? {
        AscendingSnoc(fills, w.value);
        assert [HeldFilled(r)] + FillsWritten(es) == fills + [w.value];
      } else {
        assert [HeldFilled(r)] + FillsWritten(es) == fills;
      }
    }
  }

  /** Two reports of one BUY delivered out of order: 2 filled, then 1. */
  lemma LateReportLowersFilled(r: Row, first: Event, second: Event)
    requires !Terminal(r.lifecycle) && Rank(r.lifecycle) <= 2
    requires first.kind == ExecutionReport(Buy, PartiallyFilled, OtherType, Amount(2.0), Absent, Absent)
    requires second.kind == ExecutionReport(Buy, PartiallyFilled, OtherType, Amount(1.0), Absent, Absent)
    ensures
      var once, twice := ApplyAll(r, [first]), ApplyAll(r, [first, second]);
      && once.filled == Some(2.0) && twice.filled == Some(1.0)
      && once.lifecycle == EntryPartiallyFilled && twice.lifecycle == EntryPartiallyFilled
  {
    assert [first][..0] == [];
    assert [first, second][..1] == [first];
  }

  // ---- replay is idempotent ----

  /** The last value that some event writes into a column, if any does. */
  function LastWrite<T>(es: seq<Event>, w: Event -> Option<T>): Option<T> {
    if es == [] then None else OrElse(w(es[|es| - 1]), LastWrite(es[..|es| - 1], w))
  }

  /** A fold of events, column by column: quantities are last-writer, the
      lifecycle is a rank fold, and only the last event leaves a status. */
  lemma {:induction false} ApplyAllColumns(r: Row, es: seq<Event>)
    ensures ApplyAll(r, es) == r.(
              lifecycle := Final(r.lifecycle, es),
              filled := OrElse(LastWrite(es, NewFilled), r.filled),
              average := OrElse(LastWrite(es, NewAverage), r.average),
              protectedQty := OrElse(LastWrite(es, NewProtected), r.protectedQty),
              commission := OrElse(LastWrite(es, (e: Event) => e.commission), r.commission),
              lastEvent := if es == [] then r.lastEvent else Some(es[|es| - 1].key),
              recon := if es == [] then r.recon
                       else NewRecon(Final(r.lifecycle, es), es[|es| - 1]))
  {
    if es != [] {
      ApplyAllColumns(r, es[..|es| - 1]);
    }
  }

  lemma {:induction false} ApplyAllConcat(r: Row, a: seq<Event>, b: seq<Event>)
    ensures ApplyAll(r, a + b) == ApplyAll(ApplyAll(r, a), b)
  {
    if b == [] {
      assert a + b == a;
    } else {
      var n := |b| - 1;
      assert (a + b)[..|a + b| - 1] == a + b[..n];
      ApplyAllConcat(r, a, b[..n]);
    }
  }

  lemma FinalIdempotent(l: Lifecycle, es: seq<Event>)
    ensures Final(Final(l, es), es) == Final(l, es)
  {
    if l.Reconciled? {
      FinalFromReconciled(es);
    } else {
      FinalIsMaximum(l, es);
    }
    var f := Final(l, es);
    if !f.Reconciled? {
      FinalIsMaximum(f, es);
    }
  }

  /** A RECONCILED row adopts the first lifecycle argued for and then climbs. */
  lemma {:induction false} FinalFromReconciled(es: seq<Event>)
    ensures Final(Reconciled, es).Reconciled? ==> forall p :: !Produces(es, p)
    ensures !Final(Reconciled, es).Reconciled? ==> Produces(es, Final(Reconciled, es))
    ensures !Final(Reconciled, es).Reconciled? && !Terminal(Final(Reconciled, es)) ==>
            forall p :: Produces(es, p) ==> Rank(p) <= Rank(Final(Reconciled, es))
    ensures forall p :: Produces(es, p) ==> Rank(p) <= 9
  {
    if es != [] {
      var n := |es| - 1;
      FinalFromReconciled(es[..n]);
      ProducesSnoc(es, n);
      ProducedRank(es[n]);
    }
  }

  /** Replaying the same stored events a second time changes no column. */
  lemma ReplayIdempotent(r: Row, es: seq<Event>)
    ensures ApplyAll(ApplyAll(r, es), es) == ApplyAll(r, es)
  {
    ApplyAllColumns(r, es);
    ApplyAllColumns(ApplyAll(r, es), es);
    FinalIdempotent(r.lifecycle, es);
  }
}
