/**
 * `OrderRequestFactory` and the reading of its requests by the filter check:
 * what is printed into a request is what the check reads back, on the ticks and
 * steps it was built for.  The factory fills in trailing bounds that the symbol
 * does not state and clamps to bounds that the check refuses; a request with a
 * trailing leg passes exactly when the symbol states bounds that are in order.
 */
module OrderRequests {
  import opened Basics
  import opened DecimalText
  import opened EventLog
  import opened Ledger
  import opened Rounding

  // ---- rules, settings, rounding to a unit ----

  type Unit = d: Dec | d.coef > 0 witness Dec(1, 0)

  /** What the symbol's metadata says.  The bounds are those of the TRAILING_DELTA
      filter; without the filter both are missing. */
  datatype Rules = Rules(tick: Unit, step: Unit, trailingStops: bool, minBelow: Option<int>, maxBelow: Option<int>) {
    /** `_rules` fills in 10 and 2000. */
    function TrailMin(): int { minBelow.GetOr(10) }
    function TrailMax(): int { maxBelow.GetOr(2000) }
  }

  datatype Settings = Settings(takeProfitPct: real, fixedStopPct: real, trailingDelta: int, bufferBips: int, feePct: real)

  lemma UnitIsPositive(u: Unit)
    ensures Value(u) > 0.0
  {
    ShiftKeepsSign(u.coef as real, u.exp);
  }

  function Steps(v: real, step: real): int
    requires step > 0.0
  {
    if v >= 0.0 then (v / step).Floor else -(-v / step).Floor
  }

  /** Positive units make every rounding below well defined. */
  lemma RulesAreUsable(r: Rules)
    ensures Usable(r)
  {
    UnitIsPositive(r.tick);
    UnitIsPositive(r.step);
  }

  /** `floor_step` on decimals: a whole number of units, with the unit's exponent. */
  function FloorTo(v: real, u: Unit): Dec
    requires Value(u) > 0.0
  {
    Dec(Steps(v, Value(u)) * u.coef, u.exp)
  }

  lemma MultipleValue(k: int, d: Dec)
    ensures Value(Dec(k * d.coef, d.exp)) == k as real * Value(d)
  {
    ShiftScales(k as real, d.coef as real, (k * d.coef) as real, d.exp);
  }

  /** On decimals and on rationals, rounding down is the same operation. */
  lemma FloorToIsFloorStep(v: real, u: Unit)
    requires Value(u) > 0.0
    ensures Value(FloorTo(v, u)) == FloorStep(v, Value(u))
  {
    MultipleValue(Steps(v, Value(u)), u);
    if v < 0.0 {
      GridSign((-v / Value(u)).Floor, Value(u));
    }
  }

  // ---- what a request asks for ----

  /** The numbers of one request; a working BUY is present in entries only. */
  datatype Quote = Quote(mode: Mode, buy: Option<(Dec, Dec)>, quantity: Dec, above: Dec, below: Dec, stop: Dec, delta: int)

  function Raised(v: real, pct: real): real {
    v * (1.0 + pct / 100.0)
  }

  function Under(v: real, pct: real): real {
    v * (1.0 - pct / 100.0)
  }

  function Lowered(v: real, bips: int): real {
    v * (1.0 - bips as real / 10000.0)
  }

  function Delta(r: Rules, requested: int): int {
    var capped := if requested <= r.TrailMax() then requested else r.TrailMax();
    if capped >= r.TrailMin() then capped else r.TrailMin()
  }

  function PendingQty(r: Rules, s: Settings, qty: real): Option<Dec>
    requires Value(r.step) > 0.0
  {
    if s.feePct < 0.0 || s.feePct >= 100.0 then None else Some(FloorTo(AfterFee(s, qty), r.step))
  }

  /** What a BUY of `qty` leaves once its fee is taken in the base asset. */
  function AfterFee(s: Settings, qty: real): real {
    Under(qty, s.feePct)
  }

  function FixedStop(r: Rules, s: Settings, entry: real): Dec
    requires Usable(r)
  {
    FloorTo(Under(entry, s.fixedStopPct), r.tick)
  }

  function LimitUnder(r: Rules, stop: Dec, bips: int): Dec
    requires Usable(r)
  {
    FloorTo(Lowered(Value(stop), bips), r.tick)
  }

  function TakeProfit(r: Rules, s: Settings, entry: real): Dec
    requires Usable(r)
  {
    FloorTo(Raised(entry, s.takeProfitPct), r.tick)
  }

  /** Both units are positive; stated once for everything that rounds. */
  predicate Usable(r: Rules) {
    Value(r.tick) > 0.0 && Value(r.step) > 0.0
  }

  function Larger(a: real, b: real): real {
    if b > a then b else a
  }

  /** `factory.entry`; None is its ValueError. */
  function EntryQuote(m: Mode, r: Rules, s: Settings, qty: real, entry: real): Option<Quote>
    requires Usable(r)
  {
    var q := FloorTo(qty, r.step);
    var price := FloorTo(entry, r.tick);
    var e := Value(price);
    var pending := PendingQty(r, s, Value(q));
    if pending.None? || Value(pending.value) <= 0.0 then None
    else
      var delta := Delta(r, s.trailingDelta);
      var stop := FixedStop(r, s, e);
      var below := if m.FixedOco? then LimitUnder(r, stop, s.bufferBips) else LimitUnder(r, price, delta + s.bufferBips);
      Some(Quote(m, Some((q, price)), pending.value, TakeProfit(r, s, e), below, stop, delta))
  }

  /** `factory.replacement`; None is its ValueError. */
  function ReplacementQuote(m: Mode, r: Rules, s: Settings, qty: real, entry: real, current: real,
                            stopPrice: Option<real>, bips: Option<int>): Option<Quote>
    requires Usable(r)
  {
    var q := FloorTo(qty, r.step);
    var stop := if stopPrice.Some? then FloorTo(stopPrice.value, r.tick) else FixedStop(r, s, entry);
    if Value(q) <= 0.0 || entry <= 0.0 || current <= 0.0 then None
    else if m.FixedOco? && Value(stop) >= current then None
    else
      var delta := Delta(r, if bips.Some? && bips.value != 0 then bips.value else s.trailingDelta);
      var above := FloorTo(Larger(Raised(entry, s.takeProfitPct), current * 1.002), r.tick);
      var below := if m.FixedOco? then LimitUnder(r, stop, s.bufferBips)
                   else FloorTo(Lowered(current, delta + s.bufferBips), r.tick);
      Some(Quote(m, None, q, above, below, stop, delta))
  }

  // ---- the request as sent ----

  datatype Key =
    | WorkingQuantity | WorkingPrice | PendingQuantity
    | PendingPrice | PendingStopPrice | PendingTrailingDelta
    | PendingAbovePrice | PendingBelowPrice | PendingBelowStopPrice | PendingBelowTrailingDelta
    | Quantity | Price | StopPrice | TrailingDelta
    | AbovePrice | BelowPrice | BelowStopPrice | BelowTrailingDelta

  /** Numbers travel as text, trailing deltas as integers. */
  datatype Field = Number(text: string) | Bips(n: int)

  type Params = map<Key, Field>

  function Printed(d: Dec): Field {
    Field.Number(Text(d))
  }

  function SingleFields(q: Quote): Params {
    map[Quantity := Printed(q.quantity), Price := Printed(q.below), TrailingDelta := Bips(q.delta)]
  }

  function ListFields(q: Quote): Params {
    var p: Params := map[Quantity := Printed(q.quantity), AbovePrice := Printed(q.above), BelowPrice := Printed(q.below)];
    if q.mode.FixedOco? then p[BelowStopPrice := Printed(q.stop)] else p[BelowTrailingDelta := Bips(q.delta)]
  }

  function WorkingFields(q: Quote): Params
    requires q.buy.Some?
  {
    map[WorkingQuantity := Printed(q.buy.value.0), WorkingPrice := Printed(q.buy.value.1),
        PendingQuantity := Printed(q.quantity)]
  }

  function OtoFields(q: Quote): Params
    requires q.buy.Some?
  {
    WorkingFields(q)[PendingPrice := Printed(q.below)][PendingTrailingDelta := Bips(q.delta)]
  }

  function OtocoFields(q: Quote): Params
    requires q.buy.Some?
  {
    var p := WorkingFields(q)[PendingAbovePrice := Printed(q.above)][PendingBelowPrice := Printed(q.below)];
    if q.mode.FixedOco? then p[PendingBelowStopPrice := Printed(q.stop)] else p[PendingBelowTrailingDelta := Bips(q.delta)]
  }

  function EndpointFor(q: Quote): Endpoint {
    if q.buy.Some? then if q.mode.TrailingOnly? then PostOto else PostOtoco
    else if q.mode.TrailingOnly? then PostOrder else PostOco
  }

  function FieldsOf(q: Quote): Params {
    if q.buy.Some? then if q.mode.TrailingOnly? then OtoFields(q) else OtocoFields(q)
    else if q.mode.TrailingOnly? then SingleFields(q) else ListFields(q)
  }

  // ---- the request as checked ----

  datatype Leg = Leg(sell: bool, qty: real, price: Option<real>, stop: Option<real>, delta: Option<int>)

  function ReadNumber(p: Params, k: Key): Option<real> {
    if k in p && p[k].Number? && Read(p[k].text).Some? then Some(Value(Read(p[k].text).value)) else None
  }

  function ReadBips(p: Params, k: Key): Option<int> {
    if k in p && p[k].Bips? then Some(p[k].n) else None
  }

  function ReadLeg(p: Params, sell: bool, qty: Key, price: Key, stop: Key, delta: Key): Option<Leg> {
    var q := ReadNumber(p, qty);
    if q.None? then None else Some(Leg(sell, q.value, ReadNumber(p, price), ReadNumber(p, stop), ReadBips(p, delta)))
  }

  /** A leg whose stop and delta are never looked up. */
  function ReadPlainLeg(p: Params, sell: bool, qty: Key, price: Key): Option<Leg> {
    var q := ReadNumber(p, qty);
    if q.None? then None else Some(Leg(sell, q.value, ReadNumber(p, price), None, None))
  }

  function Both(a: Option<Leg>, b: Option<seq<Leg>>): Option<seq<Leg>> {
    if a.Some? && b.Some? then Some([a.value] + b.value) else None
  }

  function Alone(a: Option<Leg>): Option<seq<Leg>> {
    if a.Some? then Some([a.value]) else None
  }

  /** `legs_from_request`; None stands for a missing or unreadable quantity. */
  function LegsFromRequest(e: Endpoint, p: Params): Option<seq<Leg>> {
    if e.PostOrder? then Alone(ReadLeg(p, true, Quantity, Price, StopPrice, TrailingDelta))
    else if e.PostOto? then
      Both(ReadPlainLeg(p, false, WorkingQuantity, WorkingPrice),
           Alone(ReadLeg(p, true, PendingQuantity, PendingPrice, PendingStopPrice, PendingTrailingDelta)))
    else if e.PostOtoco? then
      Both(ReadPlainLeg(p, false, WorkingQuantity, WorkingPrice),
           Both(ReadPlainLeg(p, true, PendingQuantity, PendingAbovePrice),
                Alone(ReadLeg(p, true, PendingQuantity, PendingBelowPrice, PendingBelowStopPrice, PendingBelowTrailingDelta))))
    else
      Both(ReadPlainLeg(p, true, Quantity, AbovePrice),
           Alone(ReadLeg(p, true, Quantity, BelowPrice, BelowStopPrice, BelowTrailingDelta)))
  }

  function BelowLeg(q: Quote): Leg {
    Leg(true, Value(q.quantity), Some(Value(q.below)), if q.mode.FixedOco? then Some(Value(q.stop)) else None,
        if q.mode.FixedOco? then None else Some(q.delta))
  }

  function PairOf(q: Quote): seq<Leg> {
    [Leg(true, Value(q.quantity), Some(Value(q.above)), None, None)] + [BelowLeg(q)]
  }

  /** The legs a quote stands for, as exact values. */
  function LegsOf(q: Quote): seq<Leg> {
    var sells := if q.mode.TrailingOnly? then [BelowLeg(q)] else PairOf(q);
    if q.buy.Some? then [Leg(false, Value(q.buy.value.0), Some(Value(q.buy.value.1)), None, None)] + sells else sells
  }

  lemma ReadsBack(p: Params, k: Key, d: Dec)
    requires k in p && p[k] == Printed(d)
    ensures ReadNumber(p, k) == Some(Value(d))
  {
    ReadOfText(d);
  }

  /** A trailing or fixed sell leg reads back as it was quoted. */
  lemma LegReadsBack(p: Params, qty: Key, price: Key, stop: Key, delta: Key, q: Quote)
    requires qty in p && p[qty] == Printed(q.quantity) && price in p && p[price] == Printed(q.below)
    requires if q.mode.FixedOco? then stop in p && p[stop] == Printed(q.stop) && delta !in p
             else stop !in p && delta in p && p[delta] == Bips(q.delta)
    ensures ReadLeg(p, true, qty, price, stop, delta) == Some(BelowLeg(q))
  {
    ReadsBack(p, qty, q.quantity);
    ReadsBack(p, price, q.below);
    if q.mode.FixedOco? {
      ReadsBack(p, stop, q.stop);
    }
  }

  lemma PlainLegReadsBack(p: Params, sell: bool, qty: Key, price: Key, d: Dec, e: Dec)
    requires qty in p && p[qty] == Printed(d) && price in p && p[price] == Printed(e)
    ensures ReadPlainLeg(p, sell, qty, price) == Some(Leg(sell, Value(d), Some(Value(e)), None, None))
  {
    ReadsBack(p, qty, d);
    ReadsBack(p, price, e);
  }

  lemma SingleSurvives(q: Quote)
    requires q.buy.None? && q.mode.TrailingOnly?
    ensures LegsFromRequest(PostOrder, SingleFields(q)) == Some(LegsOf(q))
  {
    LegReadsBack(SingleFields(q), Quantity, Price, StopPrice, TrailingDelta, q);
  }

  /** A pair of protective legs reads back from the keys it was written under. */
  lemma PairReadsBack(p: Params, qty: Key, above: Key, below: Key, stop: Key, delta: Key, q: Quote)
    requires qty in p && p[qty] == Printed(q.quantity)
    requires above in p && p[above] == Printed(q.above) && below in p && p[below] == Printed(q.below)
    requires if q.mode.FixedOco? then stop in p && p[stop] == Printed(q.stop) && delta !in p
             else stop !in p && delta in p && p[delta] == Bips(q.delta)
    ensures Both(ReadPlainLeg(p, true, qty, above), Alone(ReadLeg(p, true, qty, below, stop, delta))) == Some(PairOf(q))
  {
    PlainLegReadsBack(p, true, qty, above, q.quantity, q.above);
    LegReadsBack(p, qty, below, stop, delta, q);
  }

  lemma ListSurvives(q: Quote)
    requires q.buy.None? && !q.mode.TrailingOnly?
    ensures LegsFromRequest(PostOco, ListFields(q)) == Some(LegsOf(q))
  {
    PairReadsBack(ListFields(q), Quantity, AbovePrice, BelowPrice, BelowStopPrice, BelowTrailingDelta, q);
  }

  lemma WorkingReadsBack(p: Params, q: Quote)
    requires q.buy.Some? && WorkingQuantity in p && WorkingPrice in p
    requires p[WorkingQuantity] == Printed(q.buy.value.0) && p[WorkingPrice] == Printed(q.buy.value.1)
    ensures ReadPlainLeg(p, false, WorkingQuantity, WorkingPrice) ==
            Some(Leg(false, Value(q.buy.value.0), Some(Value(q.buy.value.1)), None, None))
  {
    PlainLegReadsBack(p, false, WorkingQuantity, WorkingPrice, q.buy.value.0, q.buy.value.1);
  }

  lemma OtoWorking(q: Quote)
    requires q.buy.Some? && q.mode.TrailingOnly?
    ensures ReadPlainLeg(OtoFields(q), false, WorkingQuantity, WorkingPrice) == Some(LegsOf(q)[0])
  {
    WorkingReadsBack(OtoFields(q), q);
  }

  lemma OtoSell(q: Quote)
    requires q.buy.Some? && q.mode.TrailingOnly?
    ensures ReadLeg(OtoFields(q), true, PendingQuantity, PendingPrice, PendingStopPrice, PendingTrailingDelta) == Some(BelowLeg(q))
  {
    LegReadsBack(OtoFields(q), PendingQuantity, PendingPrice, PendingStopPrice, PendingTrailingDelta, q);
  }

  lemma OtoSurvives(q: Quote)
    requires q.buy.Some? && q.mode.TrailingOnly?
    ensures LegsFromRequest(PostOto, OtoFields(q)) == Some(LegsOf(q))
  {
    OtoWorking(q);
    OtoSell(q);
  }

  lemma OtocoWorking(q: Quote)
    requires q.buy.Some? && !q.mode.TrailingOnly?
    ensures ReadPlainLeg(OtocoFields(q), false, WorkingQuantity, WorkingPrice) == Some(LegsOf(q)[0])
  {
    WorkingReadsBack(OtocoFields(q), q);
  }

  lemma OtocoKeys(q: Quote)
    requires q.buy.Some?
    ensures
      var p := OtocoFields(q);
      && PendingQuantity in p && p[PendingQuantity] == Printed(q.quantity)
      && PendingAbovePrice in p && p[PendingAbovePrice] == Printed(q.above)
      && PendingBelowPrice in p && p[PendingBelowPrice] == Printed(q.below)
      && (q.mode.FixedOco? <==> PendingBelowStopPrice in p) && (q.mode.FixedOco? <==> PendingBelowTrailingDelta !in p)
      && (q.mode.FixedOco? ==> p[PendingBelowStopPrice] == Printed(q.stop))
      && (!q.mode.FixedOco? ==> p[PendingBelowTrailingDelta] == Bips(q.delta))
  {
    var base := WorkingFields(q)[PendingAbovePrice := Printed(q.above)][PendingBelowPrice := Printed(q.below)];
    assert PendingBelowStopPrice !in base && PendingBelowTrailingDelta !in base;
  }

  lemma OtocoPair(q: Quote)
    requires q.buy.Some? && !q.mode.TrailingOnly?
    ensures Both(ReadPlainLeg(OtocoFields(q), true, PendingQuantity, PendingAbovePrice),
                 Alone(ReadLeg(OtocoFields(q), true, PendingQuantity, PendingBelowPrice, PendingBelowStopPrice,
                               PendingBelowTrailingDelta)))
            == Some(PairOf(q))
  {
    OtocoKeys(q);
    PairReadsBack(OtocoFields(q), PendingQuantity, PendingAbovePrice, PendingBelowPrice, PendingBelowStopPrice,
                  PendingBelowTrailingDelta, q);
  }

  lemma OtocoSurvives(q: Quote)
    requires q.buy.Some? && !q.mode.TrailingOnly?
    ensures LegsFromRequest(PostOtoco, OtocoFields(q)) == Some(LegsOf(q))
  {
    OtocoWorking(q);
    OtocoPair(q);
  }

  /** Whatever the factory quotes survives printing and reading with equal values. */
  lemma LegsSurvive(q: Quote)
    ensures LegsFromRequest(EndpointFor(q), FieldsOf(q)) == Some(LegsOf(q))
  {
    if q.buy.Some? {
      if q.mode.TrailingOnly? {
        OtoSurvives(q);
      } else {
        OtocoSurvives(q);
      }
    } else if q.mode.TrailingOnly? {
      SingleSurvives(q);
    } else {
      ListSurvives(q);
    }
  }

  // ---- the factory against the filters ----

  /** What the check demands of the symbol before it looks at a trailing leg. */
  predicate TrailingInOrder(r: Rules) {
    && r.trailingStops && r.minBelow.Some? && r.maxBelow.Some?
    && 1 <= r.minBelow.value <= r.maxBelow.value
  }

  /** The tick, step, trailing-stop and trailing-delta parts of `validate_replacement`. */
  ghost predicate Passes(r: Rules, leg: Leg) {
    && OnGrid(leg.qty, Value(r.step))
    && (leg.price.Some? ==> OnGrid(leg.price.value, Value(r.tick)))
    && (leg.stop.Some? ==> OnGrid(leg.stop.value, Value(r.tick)))
    && (leg.delta.Some? ==> TrailingInOrder(r) && r.minBelow.value <= leg.delta.value <= r.maxBelow.value)
  }

  lemma FloorToOnGrid(v: real, u: Unit)
    requires Value(u) > 0.0
    ensures OnGrid(Value(FloorTo(v, u)), Value(u))
  {
    FloorToIsFloorStep(v, u);
    FloorStepBounds(v, Value(u));
  }

  /** All numbers of the quote came out of a rounding to the rules' own units. */
  ghost predicate OnUnits(r: Rules, q: Quote) {
    && OnGrid(Value(q.quantity), Value(r.step))
    && (q.buy.Some? ==> OnGrid(Value(q.buy.value.0), Value(r.step)) && OnGrid(Value(q.buy.value.1), Value(r.tick)))
    && OnGrid(Value(q.above), Value(r.tick)) && OnGrid(Value(q.below), Value(r.tick)) && OnGrid(Value(q.stop), Value(r.tick))
  }

  lemma EntryOnUnits(m: Mode, r: Rules, s: Settings, qty: real, entry: real)
    requires Usable(r) && EntryQuote(m, r, s, qty, entry).Some?
    ensures OnUnits(r, EntryQuote(m, r, s, qty, entry).value)
  {
    forall v
      ensures OnGrid(Value(FloorTo(v, r.tick)), Value(r.tick)) && OnGrid(Value(FloorTo(v, r.step)), Value(r.step))
    {
      FloorToOnGrid(v, r.tick);
      FloorToOnGrid(v, r.step);
    }
  }

  lemma ReplacementOnUnits(m: Mode, r: Rules, s: Settings, qty: real, entry: real, current: real,
                           stopPrice: Option<real>, bips: Option<int>)
    requires Usable(r) && ReplacementQuote(m, r, s, qty, entry, current, stopPrice, bips).Some?
    ensures OnUnits(r, ReplacementQuote(m, r, s, qty, entry, current, stopPrice, bips).value)
  {
    forall v
      ensures OnGrid(Value(FloorTo(v, r.tick)), Value(r.tick)) && OnGrid(Value(FloorTo(v, r.step)), Value(r.step))
    {
      FloorToOnGrid(v, r.tick);
      FloorToOnGrid(v, r.step);
    }
  }

  /** Some leg of the request trails. */
  predicate Trails(q: Quote) {
    !q.mode.FixedOco?
  }

  ghost predicate AllPass(r: Rules, e: Endpoint, p: Params) {
    LegsFromRequest(e, p).Some? && forall leg :: leg in LegsFromRequest(e, p).value ==> Passes(r, leg)
  }

  lemma TrailingLegIsThere(q: Quote)
    ensures BelowLeg(q) in LegsOf(q)
  {
    var sells := if q.mode.TrailingOnly? then [BelowLeg(q)] else PairOf(q);
    assert sells[|sells| - 1] == BelowLeg(q);
    assert LegsOf(q)[|LegsOf(q)| - 1] == BelowLeg(q);
  }

  /** Read back from the request itself, every leg passes exactly when no leg
      trails, or the symbol allows trailing stops and states bounds in order. */
  lemma RequestPasses(r: Rules, q: Quote, requested: int)
    requires OnUnits(r, q) && q.delta == Delta(r, requested)
    ensures AllPass(r, EndpointFor(q), FieldsOf(q)) <==> !Trails(q) || TrailingInOrder(r)
  {
    LegsSurvive(q);
    TrailingLegIsThere(q);
    var legs := LegsOf(q);
    if !Trails(q) || TrailingInOrder(r) {
      forall leg | leg in legs
        ensures Passes(r, leg)
      {
      }
    } else {
      assert !Passes(r, BelowLeg(q));
    }
  }

  lemma EntryPassesIff(m: Mode, r: Rules, s: Settings, qty: real, entry: real)
    requires Usable(r) && EntryQuote(m, r, s, qty, entry).Some?
    ensures
      var q := EntryQuote(m, r, s, qty, entry).value;
      AllPass(r, EndpointFor(q), FieldsOf(q)) <==> m.FixedOco? || TrailingInOrder(r)
  {
    EntryOnUnits(m, r, s, qty, entry);
    RequestPasses(r, EntryQuote(m, r, s, qty, entry).value, s.trailingDelta);
  }

  lemma ReplacementPassesIff(m: Mode, r: Rules, s: Settings, qty: real, entry: real, current: real,
                             stopPrice: Option<real>, bips: Option<int>)
    requires Usable(r) && ReplacementQuote(m, r, s, qty, entry, current, stopPrice, bips).Some?
    ensures
      var q := ReplacementQuote(m, r, s, qty, entry, current, stopPrice, bips).value;
      AllPass(r, EndpointFor(q), FieldsOf(q)) <==> m.FixedOco? || TrailingInOrder(r)
  {
    ReplacementOnUnits(m, r, s, qty, entry, current, stopPrice, bips);
    RequestPasses(r, ReplacementQuote(m, r, s, qty, entry, current, stopPrice, bips).value,
                  if bips.Some? && bips.value != 0 then bips.value else s.trailingDelta);
  }

  // ---- trailing requests the factory builds and the check refuses ----

  /** Whole ticks and steps, and the given trailing bounds. */
  function WholeUnits(minBelow: Option<int>, maxBelow: Option<int>): Rules {
    Rules(Dec(1, 0), Dec(1, 0), true, minBelow, maxBelow)
  }

  function PlainSettings(): Settings {
    Settings(1.2, 2.0, 40, 20, 0.0)
  }

  /** One unit at a price of 100, to be protected by a trailing stop. */
  lemma TrailingEntryIsBuilt(minBelow: Option<int>, maxBelow: Option<int>)
    ensures Usable(WholeUnits(minBelow, maxBelow))
    ensures EntryQuote(TrailingOnly, WholeUnits(minBelow, maxBelow), PlainSettings(), 1.0, 100.0).Some?
  {
    var r := WholeUnits(minBelow, maxBelow);
    RulesAreUsable(r);
    assert Value(r.step) == 1.0;
    assert FloorTo(1.0, r.step) == Dec(1, 0);
    assert AfterFee(PlainSettings(), 1.0) == 1.0;
  }

  /** A symbol without a TRAILING_DELTA filter: the factory clamps to 10 and 2000,
      and the check refuses the request it builds. */
  lemma MissingFilterRefused()
    ensures
      var r := WholeUnits(None, None);
      Usable(r) &&
      var q := EntryQuote(TrailingOnly, r, PlainSettings(), 1.0, 100.0);
      q.Some? && r.TrailMin() <= q.value.delta <= r.TrailMax() && !AllPass(r, EndpointFor(q.value), FieldsOf(q.value))
  {
    TrailingEntryIsBuilt(None, None);
    EntryPassesIff(TrailingOnly, WholeUnits(None, None), PlainSettings(), 1.0, 100.0);
  }

  /** A lower bound of 0: the delta lies within the bounds, and is refused. */
  lemma ZeroBoundRefused()
    ensures
      var r := WholeUnits(Some(0), Some(2000));
      Usable(r) &&
      var q := EntryQuote(TrailingOnly, r, PlainSettings(), 1.0, 100.0);
      q.Some? && r.TrailMin() <= q.value.delta <= r.TrailMax() && !AllPass(r, EndpointFor(q.value), FieldsOf(q.value))
  {
    TrailingEntryIsBuilt(Some(0), Some(2000));
    EntryPassesIff(TrailingOnly, WholeUnits(Some(0), Some(2000)), PlainSettings(), 1.0, 100.0);
  }

  // ---- what an entry's numbers promise ----

  lemma FloorToBounds(v: real, u: Unit)
    requires Value(u) > 0.0 && v >= 0.0
    ensures 0.0 <= Value(FloorTo(v, u)) <= v
  {
    FloorToIsFloorStep(v, u);
    FloorStepBounds(v, Value(u));
  }

  /** Rounding down never falls below a grid point that lies under the value. */
  lemma FloorToKeeps(v: real, u: Unit, g: real)
    requires Value(u) > 0.0 && v >= g >= 0.0 && OnGrid(g, Value(u))
    ensures Value(FloorTo(v, u)) >= g
  {
    var k :| g == Grid(k, Value(u));
    FloorToIsFloorStep(v, u);
    FloorStepLargest(v, Value(u), k);
  }

  lemma ScaledDown(v: real, f: real)
    requires v >= 0.0 && 0.0 <= f <= 1.0
    ensures 0.0 <= v * f <= v
    ensures v > 0.0 && f < 1.0 ==> v * f < v
  {
  }

  lemma ScaledUp(v: real, f: real)
    requires v >= 0.0 && f >= 1.0
    ensures v * f >= v
  {
  }

  lemma LoweredFloor(v: real, f: real, p: real, u: Unit)
    requires Value(u) > 0.0 && v >= 0.0 && 0.0 <= f <= 1.0 && p == v * f
    ensures 0.0 <= Value(FloorTo(p, u)) <= p <= v
    ensures v > 0.0 && f < 1.0 ==> p < v
  {
    ScaledDown(v, f);
    FloorToBounds(p, u);
  }

  lemma RaisedFloor(v: real, f: real, p: real, u: Unit)
    requires Value(u) > 0.0 && v >= 0.0 && f >= 1.0 && p == v * f && OnGrid(v, Value(u))
    ensures Value(FloorTo(p, u)) >= v
  {
    ScaledUp(v, f);
    FloorToKeeps(p, u, v);
  }

  lemma FeeTaken(r: Rules, s: Settings, bought: real)
    requires Usable(r) && bought >= 0.0 && 0.0 <= s.feePct < 100.0
    ensures 0.0 <= Value(FloorTo(AfterFee(s, bought), r.step)) <= AfterFee(s, bought) <= bought
  {
    LoweredFloor(bought, 1.0 - s.feePct / 100.0, AfterFee(s, bought), r.step);
  }

  /** The protective sell of an entry never exceeds what the BUY leaves after its fee. */
  lemma PendingWithinFee(m: Mode, r: Rules, s: Settings, qty: real, entry: real)
    requires Usable(r) && EntryQuote(m, r, s, qty, entry).Some? && qty >= 0.0
    ensures
      var q := EntryQuote(m, r, s, qty, entry).value;
      q.buy.Some? &&
      var bought := Value(q.buy.value.0);
      0.0 < Value(q.quantity) <= AfterFee(s, bought) <= bought <= qty
  {
    FloorToBounds(qty, r.step);
    FeeTaken(r, s, Value(FloorTo(qty, r.step)));
  }

  lemma StopUnderEntry(r: Rules, s: Settings, e: real)
    requires Usable(r) && e > 0.0 && 0.0 < s.fixedStopPct <= 100.0
    ensures 0.0 <= Value(FixedStop(r, s, e)) < e
  {
    LoweredFloor(e, 1.0 - s.fixedStopPct / 100.0, Under(e, s.fixedStopPct), r.tick);
  }

  lemma LimitUnderStop(r: Rules, stop: Dec, bips: int)
    requires Usable(r) && Value(stop) >= 0.0 && 0 <= bips <= 10000
    ensures 0.0 <= Value(LimitUnder(r, stop, bips)) <= Value(stop)
  {
    LoweredFloor(Value(stop), 1.0 - bips as real / 10000.0, Lowered(Value(stop), bips), r.tick);
  }

  lemma ProfitOverEntry(r: Rules, s: Settings, e: real)
    requires Usable(r) && e > 0.0 && OnGrid(e, Value(r.tick)) && s.takeProfitPct >= 0.0
    ensures e <= Value(TakeProfit(r, s, e))
  {
    RaisedFloor(e, 1.0 + s.takeProfitPct / 100.0, Raised(e, s.takeProfitPct), r.tick);
  }

  /** A fixed-OCO entry is ordered: limit at or under stop, stop under the entry,
      take-profit at or above it. */
  lemma FixedEntryIsOrdered(r: Rules, s: Settings, qty: real, entry: real)
    requires Usable(r) && EntryQuote(FixedOco, r, s, qty, entry).Some? && Value(FloorTo(entry, r.tick)) > 0.0
    requires s.takeProfitPct >= 0.0 && 0.0 < s.fixedStopPct <= 100.0 && 0 <= s.bufferBips <= 10000
    ensures
      var q := EntryQuote(FixedOco, r, s, qty, entry).value;
      q.buy.Some? && Value(q.below) <= Value(q.stop) < Value(q.buy.value.1) <= Value(q.above)
  {
    FloorToOnGrid(entry, r.tick);
    var e := Value(FloorTo(entry, r.tick));
    StopUnderEntry(r, s, e);
    LimitUnderStop(r, FixedStop(r, s, e), s.bufferBips);
    ProfitOverEntry(r, s, e);
  }

  // ---- break-even and profit lock ----

  /** `fee_adjusted_break_even`; None is its ValueError. */
  function BreakEvenPrice(entry: real, buyFee: real, sellFee: real, slippage: real): Option<real> {
    if entry <= 0.0 || buyFee < 0.0 || buyFee >= 100.0 || sellFee < 0.0 || sellFee >= 100.0
       || slippage < 0.0 || slippage >= 100.0 || 1.0 - (sellFee + slippage) / 100.0 <= 0.0
    then None
    else Some(entry * (1.0 + (buyFee + slippage) / 100.0) / (1.0 - (sellFee + slippage) / 100.0))
  }

  lemma PositiveQuotient(a: real, b: real)
    requires a > 0.0 && b > 0.0
    ensures a / b > 0.0
  {
    assert a / b * b == a;
  }

  lemma Quotient(a: real, f: real)
    requires f > 0.0
    ensures a / f * f == a
  {
  }

  lemma Scaled(a: real, b: real, f: real)
    requires a >= b && f >= 0.0
    ensures a * f >= b * f
  {
  }

  /** `convert`'s two ceilings around the division by the buffer. */
  function BufferedStop(level: real, f: real, tick: real): real
    requires tick > 0.0 && f > 0.0
  {
    CeilStep(CeilStep(level, tick) / f, tick)
  }

  lemma BufferedStopCovers(level: real, f: real, tick: real)
    requires tick > 0.0 && level > 0.0 && f > 0.0
    ensures BufferedStop(level, f, tick) > 0.0 && OnGrid(BufferedStop(level, f, tick), tick)
    ensures OnGrid(CeilStep(level, tick), tick) && level <= CeilStep(level, tick) <= BufferedStop(level, f, tick) * f
  {
    var first := CeilStep(level, tick);
    CeilStepBounds(level, tick);
    var w := first / f;
    Quotient(first, f);
    PositiveQuotient(first, f);
    CeilStepBounds(w, tick);
    Scaled(CeilStep(w, tick), w, f);
  }

  /** They survive the factory's two floors. */
  lemma StopSurvivesFloors(r: Rules, level: real, f: real, p: real)
    requires Usable(r) && level > 0.0 && f > 0.0 && p == BufferedStop(level, f, Value(r.tick)) * f
    ensures
      var stop := BufferedStop(level, f, Value(r.tick));
      stop > 0.0 && Value(FloorTo(stop, r.tick)) == stop && Value(FloorTo(p, r.tick)) >= level
  {
    var stop := BufferedStop(level, f, Value(r.tick));
    BufferedStopCovers(level, f, Value(r.tick));
    FloorToIsFloorStep(stop, r.tick);
    FloorStepExact(stop, Value(r.tick));
    FloorToKeeps(p, r.tick, CeilStep(level, Value(r.tick)));
  }

  /** What a unit bought at `price` cost, its fee and slippage included. */
  function Cost(price: real, fee: real, slippage: real): real {
    Raised(price, fee + slippage)
  }

  /** What a unit sold at `price` brings in. */
  function Proceeds(price: real, fee: real, slippage: real): real {
    Under(price, fee + slippage)
  }

  lemma NoLossAtBreakEven(entry: real, fee: real, slippage: real, limit: real)
    requires BreakEvenPrice(entry, fee, fee, slippage).Some? && limit >= BreakEvenPrice(entry, fee, fee, slippage).value
    ensures Proceeds(limit, fee, slippage) >= Cost(entry, fee, slippage)
  {
    var even := BreakEvenPrice(entry, fee, fee, slippage).value;
    var keep := 1.0 - (fee + slippage) / 100.0;
    Quotient(entry * (1.0 + (fee + slippage) / 100.0), keep);
    Scaled(limit, even, keep);
  }

  lemma BreakEvenIsPositive(entry: real, fee: real, slippage: real)
    requires BreakEvenPrice(entry, fee, fee, slippage).Some?
    ensures BreakEvenPrice(entry, fee, fee, slippage).value > 0.0
  {
    var cost := entry * (1.0 + (fee + slippage) / 100.0);
    ScaledUp(entry, 1.0 + (fee + slippage) / 100.0);
    PositiveQuotient(cost, 1.0 - (fee + slippage) / 100.0);
  }

  /** The owner's lock percentage counts without its sign. */
  function Magnitude(pct: real): real {
    if pct < 0.0 then -pct else pct
  }

  /** The level a conversion protects: break-even, or the locked profit above it. */
  function ProtectedLevel(s: Settings, entry: real, slippage: real, lockPct: Option<real>): Option<real> {
    var even := BreakEvenPrice(entry, s.feePct, s.feePct, slippage);
    if even.None? || lockPct.None? then even else Some(Larger(even.value, Raised(entry, Magnitude(lockPct.value))))
  }

  /** The stop `convert` hands to the factory for a break-even or a profit lock. */
  function LockedStop(r: Rules, s: Settings, entry: real, slippage: real, lockPct: Option<real>): Option<real>
    requires Usable(r) && s.bufferBips < 10000
  {
    var level := ProtectedLevel(s, entry, slippage, lockPct);
    if level.None? then None
    else Some(BufferedStop(level.value, 1.0 - s.bufferBips as real / 10000.0, Value(r.tick)))
  }

  lemma LockedQuote(r: Rules, s: Settings, qty: real, entry: real, current: real, stop: real)
    requires Usable(r) && ReplacementQuote(FixedOco, r, s, qty, entry, current, Some(stop), None).Some?
    ensures
      var q := ReplacementQuote(FixedOco, r, s, qty, entry, current, Some(stop), None).value;
      && q.stop == FloorTo(stop, r.tick) && Value(q.stop) < current
      && q.below == LimitUnder(r, q.stop, s.bufferBips)
  {
  }

  lemma LevelCovers(s: Settings, entry: real, slippage: real, lockPct: Option<real>)
    requires ProtectedLevel(s, entry, slippage, lockPct).Some?
    ensures
      var level := ProtectedLevel(s, entry, slippage, lockPct).value;
      var even := BreakEvenPrice(entry, s.feePct, s.feePct, slippage);
      even.Some? && 0.0 < even.value <= level && (lockPct.Some? ==> Raised(entry, Magnitude(lockPct.value)) <= level)
  {
    BreakEvenIsPositive(entry, s.feePct, slippage);
  }

  lemma LockedLimit(r: Rules, s: Settings, entry: real, slippage: real, lockPct: Option<real>)
    requires Usable(r) && 0 <= s.bufferBips < 10000 && LockedStop(r, s, entry, slippage, lockPct).Some?
    ensures
      var stop := LockedStop(r, s, entry, slippage, lockPct).value;
      var limit := Value(LimitUnder(r, FloorTo(stop, r.tick), s.bufferBips));
      var even := BreakEvenPrice(entry, s.feePct, s.feePct, slippage);
      && Value(FloorTo(stop, r.tick)) == stop && even.Some? && limit >= even.value
      && (lockPct.Some? ==> limit >= Raised(entry, Magnitude(lockPct.value)))
  {
    var level := ProtectedLevel(s, entry, slippage, lockPct).value;
    var f := 1.0 - s.bufferBips as real / 10000.0;
    LevelCovers(s, entry, slippage, lockPct);
    var stop := BufferedStop(level, f, Value(r.tick));
    StopSurvivesFloors(r, level, f, Lowered(stop, s.bufferBips));
    assert LimitUnder(r, FloorTo(stop, r.tick), s.bufferBips) == FloorTo(Lowered(stop, s.bufferBips), r.tick);
  }

  /** A break-even or profit-lock conversion sends a stop limit that is still at
      least the fee-adjusted break-even and the locked level after every rounding;
      a fill at that limit, with slippage and both fees paid, loses nothing. */
  lemma LockedConversionNeverLoses(r: Rules, s: Settings, qty: real, entry: real, current: real,
                                   slippage: real, lockPct: Option<real>)
    requires Usable(r) && 0 <= s.bufferBips < 10000
    requires LockedStop(r, s, entry, slippage, lockPct).Some?
    requires ReplacementQuote(FixedOco, r, s, qty, entry, current, LockedStop(r, s, entry, slippage, lockPct), None).Some?
    ensures
      var q := ReplacementQuote(FixedOco, r, s, qty, entry, current, LockedStop(r, s, entry, slippage, lockPct), None).value;
      var even := BreakEvenPrice(entry, s.feePct, s.feePct, slippage);
      && Value(q.stop) == LockedStop(r, s, entry, slippage, lockPct).value < current
      && even.Some? && Value(q.below) >= even.value
      && (lockPct.Some? ==> Value(q.below) >= Raised(entry, Magnitude(lockPct.value)))
      && Proceeds(Value(q.below), s.feePct, slippage) >= Cost(entry, s.feePct, slippage)
  {
    var stop := LockedStop(r, s, entry, slippage, lockPct).value;
    var limit := Value(LimitUnder(r, FloorTo(stop, r.tick), s.bufferBips));
    LockedLimit(r, s, entry, slippage, lockPct);
    NoLossAtBreakEven(entry, s.feePct, slippage, limit);
    LockedQuote(r, s, qty, entry, current, stop);
  }
}
