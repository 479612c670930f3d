/**
 * What the methods of `BitcoinSpotAdapter` write, and how far each may go before
 * it is cut short; the specifications of the class in Adapter.dfy.
 */
module AdapterSpecs {
  import opened Basics
  import opened EventLog
  import opened EventTable
  import opened Ledger
  import opened Protocol
  import opened ProtocolSafety
  import opened ProtocolRuns
  import opened Rounding
  import opened StateStores

  /** A finished call, or one cut short: by a crash, or by a raised exception. */
  datatype Res<+T> = Done(value: T) | Stop(crashed: bool) {
    predicate IsFailure() { Stop? }
    function PropagateFailure<U>(): Res<U>
      requires Stop?
    {
      Stop(crashed)
    }
    function Extract(): T
      requires Done?
    {
      value
    }
  }

  /** Identifiers and order reports in an exchange reply. */
  datatype Ids = Ids(list: Option<int>, entry: Option<int>, takeProfit: Option<int>, stop: Option<int>,
                     order: Option<int>, reports: seq<Event>)

  datatype Reply = Replied(ids: Ids) | Rejection | Unknown

  datatype Probe = Ended | Open | Unclear

  /** What a status reply says, and the identifier it names itself by. */
  datatype Sighting = Sighting(probe: Probe, named: Option<int>)

  /** What the lookups after a POST found. */
  datatype Naming = NamedBy(ids: Ids) | Nameless | Unanswered

  /** The state a submission ended in, with the reply that confirmed it. */
  datatype Outcome = Outcome(state: IntentState, ids: Option<Ids>)

  function Identifier(e: Endpoint, ids: Ids): Option<int> {
    if e.PostOrder? then ids.order else ids.list
  }

  /** Python's `int(x or 0) or None`. */
  function OrNone(id: Option<int>): Option<int> {
    if Truthy(id) then id else None
  }

  function RefId(ref: Ref): int {
    match ref
    case ListRef(l) => l
    case OrderRef(o) => o
  }

  // ---- what the exchange may do on its own ----

  predicate KeepsWire(a: seq<Wire>, b: seq<Wire>) {
    |a| <= |b| &&
    forall k :: 0 <= k < |a| ==> b[k].id == a[k].id && (!a[k].fate.Pending? ==> b[k] == a[k])
  }

  /** Only the exchange moved, and nothing more was sent. */
  predicate Drifts(s: State, n: State) {
    n == s.(wire := n.wire, done := n.done) && |n.wire| == |s.wire| && KeepsWire(s.wire, n.wire) && s.done <= n.done
  }

  /** Only the exchange moved, and exactly the request of `id` was sent. */
  predicate Posted(s: State, n: State, id: IntentId) {
    n == s.(wire := n.wire, done := n.done, armed := None)
    && |n.wire| == |s.wire| + 1 && KeepsWire(s.wire, n.wire) && s.done <= n.done
    && n.wire[|s.wire|].id == id
  }

  /** What was sent on the way, if anything, is the request of `id`. */
  predicate SentOnly(a: seq<Wire>, b: seq<Wire>, id: IntentId) {
    |a| <= |b| <= |a| + 1 && (|b| > |a| ==> b[|a|].id == id)
  }

  /** The call was cut short: no table changed. */
  predicate Halts(s: State, n: State) {
    n == s.(wire := n.wire, done := n.done, desk := n.desk, work := n.work, staged := n.staged, armed := n.armed)
    && KeepsWire(s.wire, n.wire) && s.done <= n.done
  }

  /** Apart from the row of `id`, no table changed, and only its request was sent. */
  ghost predicate Confined(s: State, n: State, id: IntentId)
    requires id in s.intents
  {
    && n == s.(intents := n.intents, wire := n.wire, done := n.done,
               desk := n.desk, work := n.work, staged := n.staged, armed := n.armed)
    && id in n.intents && n.intents == SetState(s.intents, id, n.intents[id].state)
    && KeepsWire(s.wire, n.wire) && s.done <= n.done && SentOnly(s.wire, n.wire, id)
  }

  /** The prepared request of `id` crossed to the exchange once, and ended as `st`. */
  ghost predicate Crossed(s: State, n: State, id: IntentId, st: IntentState)
    requires id in s.intents
  {
    && n == s.(intents := SetState(s.intents, id, st), wire := n.wire, done := n.done, staged := None, armed := None)
    && |n.wire| == |s.wire| + 1 && KeepsWire(s.wire, n.wire) && s.done <= n.done && n.wire[|s.wire|].id == id
  }

  /** At most the row of `i` was added, its plan closed, and its request sent. */
  ghost predicate Ventured(s: State, n: State, i: Intent) {
    && n == s.(intents := n.intents, wire := n.wire, done := n.done,
               desk := n.desk, work := n.work, staged := n.staged, armed := n.armed)
    && (n.intents == s.intents
        || (i.id !in s.intents && i.id in n.intents && i.id in PrepareTable(s.intents, i, i.parent)
            && n.intents == SetState(PrepareTable(s.intents, i, i.parent), i.id, n.intents[i.id].state)))
    && KeepsWire(s.wire, n.wire) && s.done <= n.done && SentOnly(s.wire, n.wire, i.id)
    && (|n.wire| > |s.wire| ==> i.id !in s.intents && i.id in n.intents)
  }

  /** The new row of `i` was sent once and ended as `st`; its plan is closed. */
  ghost predicate Submitted(s: State, n: State, i: Intent, st: IntentState) {
    && i.id !in s.intents && i.id in PrepareTable(s.intents, i, i.parent)
    && n == s.(intents := SetState(PrepareTable(s.intents, i, i.parent), i.id, st), wire := n.wire, done := n.done,
               staged := None, armed := None, desk := if i.op.Entry? then Offered(i.trade) else s.desk)
    && |n.wire| == |s.wire| + 1 && KeepsWire(s.wire, n.wire) && s.done <= n.done && n.wire[|s.wire|].id == i.id
  }

  // ---- what a confirmed intent writes into its trade row ----

  function ConfirmedMode(e: Endpoint, request: Request): Mode {
    if e.PostOrder? then TrailingOnly else if request.Place? && request.trailing then OcoTrailing else FixedOco
  }

  function ProtectedAs(m: Mode): Lifecycle {
    if m.TrailingOnly? then TrailingActive else ProtectionActive
  }

  /** A single order has no list; its own id is the stop. */
  function ProtectionIds(r: Row, ids: Ids): Binding {
    Binding(r.lifecycle, r.entryId, OrNone(ids.list), OrNone(ids.takeProfit),
            if OrNone(ids.stop).Some? then OrNone(ids.stop) else OrNone(ids.order))
  }

  function BindPatch(i: Intent, ids: Ids, r: Row): Patch {
    var note := "INTENT_CONFIRMED_BY_LOOKUP";
    if i.op.Entry? then
      Patch(Some(EntrySubmitted),
            Some(Binding(EntrySubmitted, OrNone(ids.entry), OrNone(ids.list), OrNone(ids.takeProfit), OrNone(ids.stop))),
            None, None, note)
    else if (i.op.Protection? || i.op.PartialProtection?) && i.request.Place? then
      var mode := ConfirmedMode(i.endpoint, i.request);
      Patch(Some(ProtectedAs(mode)), Some(ProtectionIds(r, ids)), Some(i.request.quantity), Some(mode), note)
    else
      Patch(None, None, None, None, note)
  }

  function Patch1(lifecycle: Lifecycle, note: string): Patch {
    Patch(Some(lifecycle), None, None, None, note)
  }

  /** The tables after the identifiers are written and before any event is replayed. */
  function Bound(db: Tables, i: Intent, ids: Ids): Tables
    requires i.trade in db.rows
  {
    db.(rows := db.rows[i.trade := Patched(db.rows[i.trade], BindPatch(i, ids, db.rows[i.trade]))])
  }

  /** Writing the same columns twice is writing them once; without identifiers
      among them the row stays bound as it is. */
  lemma PatchTwice(r: Row, p: Patch)
    requires p.lifecycle.Some?
    ensures Patched(Patched(r, p), p) == Patched(r, p) && Patched(r, p).lifecycle == p.lifecycle.value
    ensures p.ids.None? ==> forall i :: Tied(i, r) ==> Tied(i, Patched(r, p))
  {
  }

  // ---- cancelling ----

  function ProtectionCancel(t: TradeId, row: Row): Intent {
    var request := Request.Cancel(row.listId, row.stopId);
    Intent(RequestSeed(CancelProtection, t, request), CancelProtection, t,
           if Truthy(row.listId) then DeleteList else DeleteOrder, request, None, Prepared, 0)
  }

  function EntryCancel(op: Operation, t: TradeId, row: Row): Intent {
    var request := Request.Cancel(row.listId, None);
    Intent(RequestSeed(op, t, request), op, t, DeleteList, request, None, Prepared, 0)
  }

  /** Whatever the call did, it only wrote the row of the cancel `i`. */
  ghost predicate OnlyCancels(s: State, n: State, i: Intent) {
    && n == s.(intents := n.intents, wire := n.wire, done := n.done,
               desk := n.desk, work := n.work, staged := n.staged, armed := n.armed)
    && (forall id :: id in s.intents && id != i.id ==> id in n.intents && n.intents[id] == s.intents[id])
    && n.intents.Keys <= s.intents.Keys + {i.id}
    && (i.id in s.intents ==> n.intents == s.intents)
    && (i.id in n.intents && i.id !in s.intents ==> n.intents[i.id].op == i.op && n.intents[i.id].trade == i.trade)
    && KeepsWire(s.wire, n.wire) && s.done <= n.done && SentOnly(s.wire, n.wire, i.id)
  }

  /** A confirmed cancel of this trade names exactly this order, which is terminal. */
  ghost predicate CancelProven(s: State, t: TradeId, ref: Ref, c: IntentId) {
    ConfirmedCancel(s, c, t) && s.intents[c].request.Cancel? && Target(s.intents[c]) == ref && ref in s.done
  }

  lemma StoredCancel(q: seq<State>, t: TradeId, row: Row)
    requires IsRun(q) && ProtectionCancel(t, row).id in Last(q).intents
    requires Last(q).intents[ProtectionCancel(t, row).id].state.Confirmed?
    requires RecordedProtection(row) == Some(Target(ProtectionCancel(t, row)))
    ensures CancelProven(Last(q), t, RecordedProtection(row).value, ProtectionCancel(t, row).id)
  {
    RunInv(q, |q| - 1);
    assert WellFormed(Last(q).intents[ProtectionCancel(t, row).id]);
  }

  // ---- replacing protection ----

  /** A plan with a fresh client id has a fresh intent id. */
  lemma PlanIsNew(q: seq<State>, plan: Intent)
    requires IsRun(q) && plan.op.ReplacePlan? && plan.request.Place? && UnusedClient(Last(q), plan.request.client)
    requires plan.id == RequestSeed(ReplacePlan, plan.trade, plan.request)
    ensures plan.id !in Last(q).intents
  {
    RunInv(q, |q| - 1);
  }

  /** What the owner asked for besides a mode. */
  datatype Guard = Plain | BreakEven | ProfitLock

  datatype Conversion = Declined | Retained | Exited | Unconfirmed | Replaced(child: IntentId, ids: Ids)

  function PlanOf(t: TradeId, endpoint: Endpoint, request: Request): Intent {
    Intent(RequestSeed(ReplacePlan, t, request), ReplacePlan, t, endpoint, request, None, Prepared, 0)
  }

  function ModeFor(guard: Guard, asked: Mode): Mode {
    if guard.Plain? then asked else FixedOco
  }

  function SellOf(client: nat, quantity: real, m: Mode): Request {
    Request.Place(client, quantity, m.OcoTrailing?)
  }

  function EndpointOf(m: Mode): Endpoint {
    if m.TrailingOnly? then PostOrder else PostOco
  }

  predicate Convertible(l: Lifecycle) {
    l.ProtectionActive? || l.BreakEvenArmed? || l.ProfitLocked? || l.TrailingActive?
  }

  function ConvertedTo(guard: Guard, m: Mode): Lifecycle {
    match guard
    case BreakEven => BreakEvenArmed
    case ProfitLock => ProfitLocked
    case Plain => if m.FixedOco? then ProtectionActive else TrailingActive
  }

  /** The ids `convert` writes last: a single order is its own stop. */
  function ConvertedIds(e: Endpoint, r: Row, ids: Ids): Binding {
    Binding(r.lifecycle, r.entryId, OrNone(ids.list), OrNone(ids.takeProfit),
            if e.PostOrder? then OrNone(ids.order) else OrNone(ids.stop))
  }

  /** `str(row.protected_quantity or row.filled_quantity or "0")`. */
  function HeldQuantity(r: Row): real {
    if r.protectedQty.Some? then r.protectedQty.value else r.filled.GetOr(0.0)
  }

  function ReplacedPatch(r: Row, e: Endpoint, ids: Ids, m: Mode, guard: Guard, quantity: real): Patch {
    Patch(Some(ConvertedTo(guard, m)), Some(ConvertedIds(e, r, ids)), Some(quantity), Some(m), "PROTECTION_REPLACED")
  }

  /** The row after a conversion: what is recorded is the order that replaced. */
  predicate ReplacedRow(r: Row, e: Endpoint, ids: Ids, m: Mode, guard: Guard, quantity: real) {
    && r.lifecycle == ConvertedTo(guard, m) && r.protectedQty == Some(quantity) && r.mode == Some(m)
    && r.listId == OrNone(ids.list) && r.takeProfitId == OrNone(ids.takeProfit)
    && r.stopId == (if e.PostOrder? then OrNone(ids.order) else OrNone(ids.stop))
  }

  /** A replacement row: it sells whole steps, no more than the row owned, and
      the very order the row recorded is terminal by a confirmed cancel. */
  ghost predicate ReplacesOwn(s: State, n: State, i: Intent, step: real) {
    && IsChild(i) && i.trade in s.trades && i.request.Place? && i.parent.value in n.covers
    && OnGrid(i.request.quantity, step) && 0.0 < i.request.quantity <= Owned(s.trades[i.trade])
    && RecordedProtection(s.trades[i.trade]) == Some(n.covers[i.parent.value])
    && CancelProven(n, i.trade, n.covers[i.parent.value], ProtectionCancel(i.trade, s.trades[i.trade]).id)
  }

  /** A conversion leaves every existing ledger row alone; the rows it adds are
      one trade's plan, the cancel of its recorded protection, and at most
      replacements of exactly that protection. */
  ghost predicate ConvertsOwn(s: State, n: State, t: TradeId, step: real) {
    && (forall id :: id in s.intents ==> id in n.intents && n.intents[id] == s.intents[id])
    && (forall id :: id in n.intents && id !in s.intents ==>
          n.intents[id].trade == t &&
          (n.intents[id].op.ReplacePlan? || n.intents[id].op.CancelProtection? || ReplacesOwn(s, n, n.intents[id], step)))
    && KeepsWire(s.wire, n.wire) && |n.wire| <= |s.wire| + 2
  }

  /** How a conversion that got past its cancel may end. */
  ghost predicate ConversionEnds(n: State, plan: Intent, m: Mode, guard: Guard, end: Conversion) {
    && plan.trade in n.trades && plan.id in n.intents && plan.request.Place?
    && match end
       case Declined => false
       case Retained => n.intents[plan.id].state.Prepared?
       case Exited => n.intents[plan.id].state.Aborted? && n.trades[plan.trade].lifecycle.ExitFilled?
       case Unconfirmed => n.intents[plan.id].state.Aborted? && n.trades[plan.trade].lifecycle == Lifecycle.Ambiguous
       case Replaced(child, ids) =>
         && n.intents[plan.id].state.Aborted?
         && child in n.intents && n.intents[child].parent == Some(plan.id) && n.intents[child].state.Confirmed?
         && n.intents[child].request.Place?
         && ReplacedRow(n.trades[plan.trade], plan.endpoint, ids, m, guard, n.intents[child].request.quantity)
  }

  ghost predicate Converted(before: Intents, n: State, t: TradeId, m: Mode, guard: Guard, end: Conversion) {
    exists plan: Intent :: plan.id !in before && plan.trade == t && plan.endpoint == EndpointOf(m)
                           && ConversionEnds(n, plan, m, guard, end)
  }

  /** The plan is on the ledger, still open, and the lock is on its trade. */
  ghost predicate PlanOpen(s: State, plan: Intent) {
    && plan.op.ReplacePlan? && plan.state.Prepared? && WellFormed(plan)
    && plan.id in s.intents && s.intents[plan.id] == plan
    && s.work == Some(plan.trade) && s.staged.None? && s.armed.None?
  }

  ghost predicate MayReplace(s: State, plan: Intent, use: Request) {
    && use.Place? && plan.request.Place? && 0.0 < use.quantity <= plan.request.quantity && OnGrid(use.quantity, s.step)
    && (use.client == plan.request.client || UnusedClient(s, use.client))
  }

  lemma OwnCancelAllowsChild(q: seq<State>, plan: Intent, use: Request, cancel: IntentId)
    requires IsRun(q) && PlanOpen(Last(q), plan) && MayReplace(Last(q), plan, use)
    requires plan.id in Last(q).covers && CancelProven(Last(q), plan.trade, Last(q).covers[plan.id], cancel)
    ensures ChildOf(plan, use).id !in Last(q).intents && MayPrepareChild(Last(q), ChildOf(plan, use), cancel)
  {
    RunInv(q, |q| - 1);
    ChildIsNew(Last(q), plan, use);
  }

  /** While `plan` is carried out: every other row stays, the plan is only
      closed, and what is added is its one child, sent at most once. */
  ghost predicate CarriesOut(s: State, n: State, plan: Intent) {
    && (forall id :: id in s.intents && id != plan.id ==> id in n.intents && n.intents[id] == s.intents[id])
    && plan.id in n.intents && n.intents[plan.id] == plan.(state := n.intents[plan.id].state)
    && (forall id :: id in n.intents && id !in s.intents ==>
          && IsChild(n.intents[id]) && n.intents[id].parent == Some(plan.id) && n.intents[id].trade == plan.trade
          && n.intents[id].request.Place?)
    && n.covers == s.covers && s.done <= n.done
    && KeepsWire(s.wire, n.wire) && |n.wire| <= |s.wire| + 1
    && (|n.wire| > |s.wire| ==> n.wire[|s.wire|].id in n.intents && n.wire[|s.wire|].id !in s.intents)
  }

  ghost predicate ChildrenAre(s: State, n: State, use: Request) {
    forall id :: id in n.intents && id !in s.intents ==> n.intents[id].request == use
  }

  ghost predicate ChildrenSell(s: State, n: State, quantity: real) {
    forall id :: id in n.intents && id !in s.intents && n.intents[id].request.Place? ==> n.intents[id].request.quantity == quantity
  }

  ghost predicate ChildrenFit(s: State, n: State, plan: Intent, step: real) {
    plan.request.Place? &&
    forall id :: id in n.intents && id !in s.intents && n.intents[id].request.Place? ==>
      OnGrid(n.intents[id].request.quantity, step) && 0.0 < n.intents[id].request.quantity <= plan.request.quantity
  }

  /** The plan of a conversion has just been added to `s`. */
  ghost predicate PlanAdded(s: State, m: State, plan: Intent) {
    && plan.id !in s.intents && plan.op.ReplacePlan? && plan.trade in s.trades
    && plan.request.Place? && plan.request.quantity <= Owned(s.trades[plan.trade])
    && m == s.(intents := s.intents[plan.id := plan], covers := m.covers)
    && (RecordedProtection(s.trades[plan.trade]).Some? ==>
          plan.id in m.covers && m.covers[plan.id] == RecordedProtection(s.trades[plan.trade]).value)
  }

  /** Nothing was written, or a conversion of one trade in a protected state was. */
  ghost predicate MayConvert(s: State, n: State, step: real) {
    n.intents == s.intents ||
    exists t: TradeId :: t in s.trades && Convertible(s.trades[t].lifecycle) && NoneUnresolved(s.intents)
                         && ConvertsOwn(s, n, t, step)
  }

  lemma ConvertsFromDrift(s: State, m: State, n: State, t: TradeId, step: real)
    requires m == s.(wire := m.wire, done := m.done, work := m.work) && |m.wire| == |s.wire| && KeepsWire(s.wire, m.wire)
    requires t in s.trades && Convertible(s.trades[t].lifecycle) && NoneUnresolved(s.intents)
    requires ConvertsOwn(m, n, t, step)
    ensures MayConvert(s, n, step)
  {
    assert forall i :: ReplacesOwn(m, n, i, step) ==> ReplacesOwn(s, n, i, step);
    assert ConvertsOwn(s, n, t, step);
  }

  ghost predicate ConvertedAs(before: Intents, n: State, t: TradeId, guard: Guard, asked: Mode, end: Conversion) {
    Converted(before, n, t, ModeFor(guard, asked), guard, end)
  }

  lemma PlannedAndCancelled(s: State, m: State, n: State, plan: Intent, step: real)
    requires PlanAdded(s, m, plan)
    requires OnlyCancels(m, n, ProtectionCancel(plan.trade, s.trades[plan.trade]))
    ensures ConvertsOwn(s, n, plan.trade, step) && |n.wire| <= |s.wire| + 1
  {
  }

  /** Since `s`, only the plan and its proven cancel were added. */
  ghost predicate ReadyToReplace(s: State, c: State, plan: Intent, step: real) {
    && PlanOpen(c, plan) && plan.id !in s.intents && plan.trade in s.trades
    && plan.request.Place? && 0.0 < plan.request.quantity <= Owned(s.trades[plan.trade])
    && RecordedProtection(s.trades[plan.trade]).Some?
    && plan.id in c.covers && c.covers[plan.id] == RecordedProtection(s.trades[plan.trade]).value
    && CancelProven(c, plan.trade, c.covers[plan.id], ProtectionCancel(plan.trade, s.trades[plan.trade]).id)
    && ConvertsOwn(s, c, plan.trade, step) && |c.wire| <= |s.wire| + 1
  }

  lemma ConversionComposes(s: State, c: State, n: State, plan: Intent, step: real)
    requires ReadyToReplace(s, c, plan, step)
    requires CarriesOut(c, n, plan) && ChildrenFit(c, n, plan, step)
    ensures ConvertsOwn(s, n, plan.trade, step)
  {
    var cancel := ProtectionCancel(plan.trade, s.trades[plan.trade]).id;
    assert cancel != plan.id;
    assert n.intents[cancel] == c.intents[cancel];
  }

  /** A trade whose row records list -1, which never ends, is not converted. */
  lemma UnlistedIsNotConverted(s: State, n: State, t: TradeId, step: real)
    requires ConvertsOwn(s, n, t, step) && t in s.trades && s.trades[t].listId == Some(-1) && ListRef(-1) !in n.done
    ensures forall id :: id in n.intents && id !in s.intents ==>
              n.intents[id].op.ReplacePlan? || n.intents[id].op.CancelProtection?
  {
  }

  // ---- entering ----

  function EntryOf(t: TradeId, endpoint: Endpoint, client: nat, quantity: real, trailing: bool): Intent {
    Intent(SubmitSeed(Entry, t, endpoint, client), Entry, t, endpoint, Request.Place(client, quantity, trailing),
           None, Prepared, 0)
  }

  lemma EntryIsNew(q: seq<State>, i: Intent)
    requires IsRun(q) && i.op.Entry? && i.request.Place? && UnusedClient(Last(q), i.request.client)
    requires i.id == SubmitSeed(Entry, i.trade, i.endpoint, i.request.client)
    ensures i.id !in Last(q).intents
  {
    RunInv(q, |q| - 1);
  }

  /** However a submission is cut short, it added at most one ENTRY row for this
      trade, sent at most that, and left every other row of the ledger alone. */
  ghost predicate EntersOnce(s: State, n: State, t: TradeId) {
    && (forall id :: id in s.intents ==> id in n.intents && n.intents[id] == s.intents[id])
    && (forall id :: id in n.intents && id !in s.intents ==> n.intents[id].op.Entry? && n.intents[id].trade == t)
    && (forall c, d :: c in n.intents && c !in s.intents && d in n.intents && d !in s.intents ==> c == d)
    && n.trades.Keys == s.trades.Keys && n.signals == s.signals
    && KeepsWire(s.wire, n.wire) && |n.wire| <= |s.wire| + 1
    && (|n.wire| > |s.wire| ==> n.wire[|s.wire|].id in n.intents && n.wire[|s.wire|].id !in s.intents)
  }

  /** The ENTRY row `i` was added, sent once, and ended as `st`. */
  ghost predicate EntrySent(s: State, m: State, t: TradeId, i: Intent, st: IntentState) {
    && i.op.Entry? && i.trade == t && t in m.trades && m.work == Some(t) && m.desk == Offered(t)
    && |m.wire| == |s.wire| + 1 && m.wire[|s.wire|].id == i.id
    && i.id in m.intents && m.intents[i.id].op.Entry? && m.intents[i.id].trade == t && m.intents[i.id].state == st
    && (st.Confirmed? || st.DefiniteReject? || st.Ambiguous?)
  }

  /** A submission that ran to its end sent exactly one ENTRY and settled it. */
  ghost predicate EntryEnds(s: State, n: State, t: TradeId, accepted: bool, armed: bool) {
    && |n.wire| == |s.wire| + 1 && n.wire[|s.wire|].id in n.intents && t in n.trades
    && n.desk == Offered(t)
    && var i := n.intents[n.wire[|s.wire|].id];
       && i.op.Entry? && i.trade == t
       && (accepted <==> i.state.Confirmed?) && (accepted ==> Truthy(n.trades[t].listId))
       && (!accepted ==>
             || (i.state.DefiniteReject? && n.trades[t].lifecycle.EntryRejected?)
             || (i.state.Ambiguous? && n.trades[t].lifecycle == Lifecycle.Ambiguous && !armed))
  }

  lemma VenturedEnters(s: State, u: State, m: State, i: Intent)
    requires u == s.(trades := u.trades) && u.trades.Keys == s.trades.Keys
    requires i.op.Entry? && i.parent.None? && Ventured(u, m, i)
    ensures EntersOnce(s, m, i.trade)
  {
  }

  lemma EntersAfterDrift(s: State, m: State, n: State, t: TradeId)
    requires m == s.(wire := m.wire, done := m.done, work := m.work) && |m.wire| == |s.wire| && KeepsWire(s.wire, m.wire)
    requires EntersOnce(m, n, t)
    ensures EntersOnce(s, n, t)
    ensures forall accepted, armed :: EntryEnds(m, n, t, accepted, armed) <==> EntryEnds(s, n, t, accepted, armed)
  {
  }

  lemma EntersOnceStays(s: State, m: State, n: State, t: TradeId)
    requires EntersOnce(s, m, t) && RowsOnly(m, n)
    ensures EntersOnce(s, n, t)
  {
  }

  // ---- selling outside a conversion ----

  function SellIntent(op: Operation, t: TradeId, endpoint: Endpoint, request: Request): Intent {
    Intent(SubmitSeed(op, t, endpoint, request.GetClient()), op, t, endpoint, request, None, Prepared, 0)
  }

  lemma SellIsNew(q: seq<State>, i: Intent)
    requires IsRun(q) && i.request.Place? && UnusedClient(Last(q), i.request.client)
    requires i.id == SubmitSeed(i.op, i.trade, i.endpoint, i.request.client)
    requires i.op.PartialProtection? || i.op.EmergencyExit?
    ensures i.id !in Last(q).intents
  {
    RunInv(q, |q| - 1);
  }

  /** No existing row moved; what was added is this trade's, and a cancel or a
      sell of the two kinds named, each sell in whole steps. */
  ghost predicate Adds(s: State, n: State, t: TradeId, cancel: Operation, sell: Operation, step: real) {
    && (forall id :: id in s.intents ==> id in n.intents && n.intents[id] == s.intents[id])
    && (forall id :: id in n.intents && id !in s.intents ==>
          && n.intents[id].trade == t
          && (n.intents[id].op == cancel ||
              (n.intents[id].op == sell && n.intents[id].request.Place?
               && 0.0 < n.intents[id].request.quantity && OnGrid(n.intents[id].request.quantity, step))))
    && n.covers == s.covers && n.trades.Keys == s.trades.Keys && s.done <= n.done && KeepsWire(s.wire, n.wire)
  }

  lemma AddsTwice(s: State, m: State, n: State, t: TradeId, cancel: Operation, sell: Operation, step: real)
    requires Adds(s, m, t, cancel, sell, step) && Adds(m, n, t, cancel, sell, step)
    ensures Adds(s, n, t, cancel, sell, step)
  {
  }

  lemma CancelAdds(s: State, n: State, i: Intent, sell: Operation, step: real)
    requires OnlyCancels(s, n, i)
    ensures Adds(s, n, i.trade, i.op, sell, step)
  {
  }

  lemma SellAdds(s: State, n: State, i: Intent, cancel: Operation, step: real)
    requires Ventured(s, n, i) && i.parent.None? && i.request.Place?
    requires 0.0 < i.request.quantity && OnGrid(i.request.quantity, step)
    ensures Adds(s, n, i.trade, cancel, i.op, step)
  {
  }

  lemma RowsAdd(s: State, n: State, t: TradeId, cancel: Operation, sell: Operation, step: real)
    requires RowsOnly(s, n)
    ensures Adds(s, n, t, cancel, sell, step)
  {
  }

  /** An emergency sell was written only once the recorded protection had ended. */
  ghost predicate SoldOnlyFreed(s: State, n: State, t: TradeId) {
    (exists id :: id in n.intents && id !in s.intents && n.intents[id].op.EmergencyExit?) ==>
      t in s.trades && RecordedProtection(s.trades[t]).Some? && RecordedProtection(s.trades[t]).value in n.done
  }

  ghost predicate ExitsOwn(s: State, n: State, t: TradeId, step: real) {
    Adds(s, n, t, CancelProtection, EmergencyExit, step) && SoldOnlyFreed(s, n, t)
  }

  /** What is left of the recorded quantity is below the smallest order. */
  predicate ExitAddsUp(recorded: real, executed: real, step: real, minQty: real)
    requires step > 0.0
  {
    FloorStep(if recorded > executed then recorded - executed else 0.0, step) < minQty
  }

  predicate Recoverable(s: Status) {
    s.PartiallyFilled? || s.Canceled? || s.Expired? || s.Rejected? || s.Filled?
  }

  ghost predicate SoldPartial(s: State, n: State) {
    exists id :: id in n.intents && id !in s.intents && n.intents[id].op.PartialProtection?
  }

  ghost predicate PartialConfirmed(s: State, n: State) {
    exists id :: id in n.intents && id !in s.intents && n.intents[id].op.PartialProtection? && n.intents[id].state.Confirmed?
  }

  /** The list of the partly filled BUY, if any is recorded, was cancelled for good. */
  ghost predicate EntryStopped(s: State, t: TradeId, row: Row) {
    Truthy(row.listId) ==>
      var id := EntryCancel(CancelPartialEntry, t, row).id;
      id in s.intents && s.intents[id].state.Confirmed?
  }

  lemma PatchKeepsTame(q: seq<State>, t: TradeId)
    requires IsRun(q) && t in Last(q).trades
    ensures Last(q).trades[t].lifecycle.SignalApproved? ==> Unbound(Last(q).trades[t])
  {
    RunInv(q, |q| - 1);
  }

  /** A row with recorded protection has left SIGNAL_APPROVED. */
  lemma BoundIsLive(q: seq<State>, t: TradeId)
    requires IsRun(q) && t in Last(q).trades && Active(Last(q).trades[t]) && !Unbound(Last(q).trades[t])
    ensures Live(Last(q).trades[t])
  {
    RunInv(q, |q| - 1);
  }

  /** A single order as a GET reports it. */
  datatype OrderView = OrderView(named: Option<int>, status: Status, event: Option<Event>)

  predicate TerminalStatus(s: Status) {
    s.Filled? || Cancelled(s)
  }

  datatype ExitStage =
    | NotFound | CancelAmbiguous | MalformedState | NothingToSell | SubmitUnconfirmed
    | TerminalUnproven | InvalidFill | PartialOrUnfilled | VerifiedExit(executed: real, freeAfter: real)

  function Smaller(a: real, b: real): real {
    if b < a then b else a
  }

  // ---- recovery ----

  /** What a recovered child rests on: the trade's newest cancel, confirmed, and
      terminal at the exchange; it keeps the plan's client id, sells whole steps and
      never grows. */
  ghost predicate RecoveryChild(s: State, n: State, plan: Intent, child: Intent) {
    && child.request.Place? && plan.request.Place? && child.request.client == plan.request.client
    && 0.0 < child.request.quantity <= plan.request.quantity && OnGrid(child.request.quantity, s.step)
    && NewestEnded(s, n, plan)
  }

  /** The trade's newest cancel is confirmed and its order has ended. */
  ghost predicate NewestEnded(s: State, n: State, plan: Intent) {
    exists c :: LatestCancel(s.intents, plan.trade, c) && s.intents[c].state.Confirmed?
                && s.intents[c].request.Cancel? && Target(s.intents[c]) in n.done
  }

  ghost predicate ChildWritten(s: State, n: State) {
    exists id :: id in n.intents && id !in s.intents
  }

  /** The balance was read, and is at least one step. */
  predicate Free(held: Option<real>) {
    held.Some? && held.value > 0.0
  }

  /** A child was written while the order its plan was to replace is open. */
  ghost predicate WrittenBesideOpen(s: State, n: State, plan: Intent) {
    ChildWritten(s, n) && plan.id in n.covers && n.covers[plan.id] !in n.done
  }

  /** Then the cancel recovery looked at names another order. */
  lemma BesideOpenIsNotOwn(s: State, n: State, plan: Intent)
    requires WrittenBesideOpen(s, n, plan) && RecoveryChildren(s, n, plan)
    ensures exists c :: LatestCancel(s.intents, plan.trade, c) && s.intents[c].request.Cancel?
                        && Target(s.intents[c]) != n.covers[plan.id]
  {
    var id :| id in n.intents && id !in s.intents;
    assert RecoveryChild(s, n, plan, n.intents[id]);
  }

  ghost predicate RecoveryChildren(s: State, n: State, plan: Intent) {
    forall id :: id in n.intents && id !in s.intents ==> RecoveryChild(s, n, plan, n.intents[id])
  }

  /** Only the row of `i` may have moved, and only its request may have been sent. */
  ghost predicate Touches(s: State, n: State, i: Intent) {
    && i.id in s.intents && i.id in n.intents && n.intents == SetState(s.intents, i.id, n.intents[i.id].state)
    && n.covers == s.covers && n.signals == s.signals && s.done <= n.done
    && KeepsWire(s.wire, n.wire) && SentOnly(s.wire, n.wire, i.id)
  }

  /** Where recovery leaves a row it has dealt with. */
  predicate Resolved(i: Intent, st: IntentState) {
    if i.op.ReplacePlan? then true
    else if i.state.Prepared? && !IsChild(i) then st.Aborted?
    else if i.state.Prepared? then !st.Prepared? && !st.Aborted? && !st.Submitting?
    else st.Confirmed?
  }

  /** Rows keep everything but their state, and all that was sent is the child of
      a plan: nothing that may already have landed is ever repeated. */
  ghost predicate NoPostRepeated(s: State, n: State) {
    && (forall id :: id in s.intents ==> id in n.intents && n.intents[id] == s.intents[id].(state := n.intents[id].state))
    && KeepsWire(s.wire, n.wire)
    && forall k :: |s.wire| <= k < |n.wire| ==> n.wire[k].id in n.intents && IsChild(n.intents[n.wire[k].id])
  }

  lemma TouchesRepeatsNothing(s: State, m: State, n: State, i: Intent)
    requires NoPostRepeated(s, m) && Touches(m, n, i) && m.intents[i.id] == i
    requires |n.wire| > |m.wire| ==> IsChild(i)
    ensures NoPostRepeated(s, n)
  {
  }

  lemma CarriesOutRepeatsNothing(s: State, m: State, n: State, plan: Intent)
    requires NoPostRepeated(s, m) && CarriesOut(m, n, plan) && plan.id in m.intents && m.intents[plan.id] == plan
    ensures NoPostRepeated(s, n)
  {
  }

  lemma RepeatsNothingTwice(s: State, m: State, n: State)
    requires NoPostRepeated(s, m) && NoPostRepeated(m, n)
    ensures NoPostRepeated(s, n)
  {
    assert forall k :: 0 <= k < |m.wire| ==> n.wire[k].id == m.wire[k].id;
  }

  /** How far the first pass has come over the rows it listed at the start. */
  ghost predicate Passed(s: State, n: State, rows: seq<Intent>, k: nat, errors: nat)
    requires k <= |rows|
  {
    && (forall j :: k <= j < |rows| ==> rows[j].id in n.intents && n.intents[rows[j].id] == rows[j])
    && (errors == 0 ==> forall j :: 0 <= j < k ==> rows[j].id in n.intents && Resolved(rows[j], n.intents[rows[j].id].state))
  }

  lemma PassedOne(s: State, m: State, n: State, rows: seq<Intent>, k: nat, errors: nat, ok: bool)
    requires k < |rows| && Passed(s, m, rows, k, errors) && OldestFirst(rows) && Touches(m, n, rows[k])
    requires ok ==> Resolved(rows[k], n.intents[rows[k].id].state)
    ensures Passed(s, n, rows, k + 1, if ok then errors else errors + 1)
  {
  }

  ghost predicate AllResolved(s: State, n: State) {
    forall id :: id in s.intents && Unresolved(s.intents[id].state) ==>
      id in n.intents && Resolved(s.intents[id], n.intents[id].state)
  }

  lemma ChildrenRecovered(s: State, m: State, n: State, plan: Intent, use: Request, c: IntentId)
    requires Drifts(s, m) && CarriesOut(m, n, plan) && ChildrenAre(m, n, use)
    requires plan.request.Place? && use.Place? && use == plan.request.(quantity := use.quantity)
    requires 0.0 < use.quantity <= plan.request.quantity && OnGrid(use.quantity, s.step)
    requires LatestCancel(s.intents, plan.trade, c) && s.intents[c].state.Confirmed? && s.intents[c].request.Cancel?
    requires Target(s.intents[c]) in s.done
    ensures CarriesOut(s, n, plan) && RecoveryChildren(s, n, plan)
  {
  }

  lemma LatestCancelAllowsChild(q: seq<State>, plan: Intent, use: Request, cancel: IntentId)
    requires IsRun(q) && PlanOpen(Last(q), plan) && MayReplace(Last(q), plan, use)
    requires LatestCancel(Last(q).intents, plan.trade, cancel) && Last(q).intents[cancel].state.Confirmed?
    ensures ChildOf(plan, use).id !in Last(q).intents && MayPrepareChild(Last(q), ChildOf(plan, use), cancel)
  {
    RunInv(q, |q| - 1);
    CrashedPlanIsResumable(Last(q), plan, use, cancel);
  }

  lemma IdsAreKeys(q: seq<State>)
    requires IsRun(q)
    ensures forall id :: id in Last(q).intents ==> Last(q).intents[id].id == id
  {
    RunInv(q, |q| - 1);
  }

  lemma ChildrenPlace(q: seq<State>, i: Intent)
    requires IsRun(q) && Waiting(Last(q).intents, i)
    ensures IsChild(i) ==> i.request.Place?
    ensures WellFormed(i)
  {
    RunInv(q, |q| - 1);
  }

  lemma CancelsCancel(q: seq<State>, c: IntentId)
    requires IsRun(q) && c in Last(q).intents && Last(q).intents[c].op.CancelProtection?
    ensures Last(q).intents[c].request.Cancel?
  {
    RunInv(q, |q| - 1);
    assert WellFormed(Last(q).intents[c]);
  }

  /** A PREPARED plan has no child, so the source's branch for one is dead. */
  lemma OpenPlanIsChildless(q: seq<State>, plan: Intent)
    requires IsRun(q) && PlanOpen(Last(q), plan)
    ensures forall c :: c in Last(q).intents ==> Last(q).intents[c].parent != Some(plan.id)
  {
    RunInv(q, |q| - 1);
    assert forall c :: c in Last(q).intents ==> WellFormed(Last(q).intents[c]);
  }

  /** A confirmed placement leaves its row tied to the exchange: an ENTRY to its
      order list, a protection to the list or stop order that carries it. */
  predicate Tied(i: Intent, r: Row) {
    && (i.op.Entry? ==> Truthy(r.listId))
    && (i.op.Protection? || i.op.PartialProtection? ==> RecordedProtection(r).Some?)
  }

  predicate Named(i: Intent, ids: Ids) {
    WellFormed(i) && Truthy(Identifier(i.endpoint, ids))
  }

  lemma BindTies(db: Tables, i: Intent, ids: Ids)
    requires i.trade in db.rows
    ensures
      var after := Replay(RecordAll(Bound(db, i, ids), ids.reports), i.trade);
      i.trade in after.rows && (Named(i, ids) ==> Tied(i, after.rows[i.trade]))
  {
    var bound := Bound(db, i, ids);
    RecordAllKeepsIds(bound, i.trade, ids.reports);
    ReplayKeepsIds(RecordAll(bound, ids.reports), i.trade);
  }

  lemma BoundRowIsTame(q: seq<State>, i: Intent, ids: Ids)
    requires IsRun(q) && i.trade in Last(q).trades
    ensures
      var row := Patched(Last(q).trades[i.trade], BindPatch(i, ids, Last(q).trades[i.trade]));
      row.lifecycle.SignalApproved? ==> Unbound(row)
  {
    RunInv(q, |q| - 1);
  }

  /** No ledger row changed and nothing was sent. */
  predicate RowsOnly(s: State, n: State) {
    n == s.(trades := n.trades, wire := n.wire, done := n.done,
            desk := n.desk, work := n.work, staged := n.staged, armed := n.armed)
    && n.trades.Keys == s.trades.Keys && |n.wire| == |s.wire| && KeepsWire(s.wire, n.wire) && s.done <= n.done
  }

  lemma RowsThen(s: State, m: State, n: State)
    requires RowsOnly(s, m) && n == m.(trades := n.trades) && n.trades.Keys == m.trades.Keys
    ensures RowsOnly(s, n)
    ensures Drifts(s.(trades := m.trades), m) ==> Drifts(s.(trades := n.trades), n)
  {
  }

  lemma RowsJoin(s: State, m: State, n: State)
    requires RowsOnly(s, m) && RowsOnly(m, n)
    ensures RowsOnly(s, n)
    ensures Drifts(s.(trades := m.trades), m) && Drifts(m.(trades := n.trades), n) ==> Drifts(s.(trades := n.trades), n)
  {
  }

  lemma TouchesThenRows(s: State, m: State, n: State, i: Intent)
    requires Touches(s, m, i) && RowsOnly(m, n)
    ensures Touches(s, n, i)
  {
  }

  /** Carrying out a plan after the exchange moved is carrying it out. */
  lemma RecoveryAfterDrift(s: State, m: State, n: State, plan: Intent)
    requires Drifts(s, m) && CarriesOut(m, n, plan) && RecoveryChildren(m, n, plan)
    ensures CarriesOut(s, n, plan) && RecoveryChildren(s, n, plan)
    ensures ChildWritten(s, n) <==> ChildWritten(m, n)
    ensures NewestEnded(m, n, plan) ==> NewestEnded(s, n, plan)
  {
  }

  lemma RowsHalt(s: State, m: State, n: State)
    requires RowsOnly(s, m) && Halts(m, n) && n.wire == m.wire
    ensures RowsOnly(s, n)
  {
  }

  /** A client id that landed is this row's own request: the only other row that
      may carry it is a plan, and plans are never sent. */
  lemma LandedIsMine(s: State, k: int, id: IntentId)
    requires Inv(s) && id in s.intents && s.intents[id].request.Place? && !s.intents[id].op.ReplacePlan?
    requires PlacedAs(s, k, s.intents[id].request.client) && s.wire[k].fate.Landed?
    ensures SentWith(s, id, Landed)
  {
    NotPlansShareNothing(s, s.wire[k].id, id);
  }

  lemma NotPlansShareNothing(s: State, c: IntentId, d: IntentId)
    requires LedgerInv(s) && PlanInv(s) && ClientInv(s) && c in s.intents && d in s.intents
    requires s.intents[c].request.Place? && s.intents[d].request.Place?
    requires s.intents[c].request.client == s.intents[d].request.client
    requires !s.intents[c].op.ReplacePlan? && !s.intents[d].op.ReplacePlan?
    ensures c == d
  {
    assert WellFormed(s.intents[c]) && WellFormed(s.intents[d]);
  }
}
