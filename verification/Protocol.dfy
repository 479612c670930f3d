/**
 * The intent-first order protocol as a step system.
 *
 * Every durable transaction is one step.  The process may crash between any two
 * steps, losing its control state but no table.  The exchange decides the fate
 * of each request on its own, at any later time, and orders end on their own.
 */
module Protocol {
  import opened Basics
  import opened EventLog
  import opened EventTable
  import opened Ledger
  import opened Rounding

  /** An order or order list at the exchange. */
  datatype Ref = ListRef(list: int) | OrderRef(order: int)

  datatype Fate = Pending | Landed | Lost | Refused

  /** One request that left the process, and what became of it. */
  datatype Wire = Wire(id: IntentId, fate: Fate)

  /** The signal the order manager currently holds. */
  datatype Desk = Idle | Claimed(trade: TradeId) | Approved(trade: TradeId) | Offered(trade: TradeId)

  datatype Mark = InProgress | Result(text: string)

  datatype State = State(
    // durable
    intents: Intents,
    trades: map<TradeId, Row>,
    signals: map<TradeId, Mark>,
    // history: the protection each replacement plan was drawn up to replace
    covers: map<IntentId, Ref>,
    // the exchange: requests sent to it, and what is terminal there
    wire: seq<Wire>,
    done: set<Ref>,
    // control state of the process
    desk: Desk,
    work: Option<TradeId>,
    staged: Option<IntentId>,
    armed: Option<IntentId>,
    // the quantity step of the symbol rules
    step: real)

  function Start(step: real): State {
    State(map[], map[], map[], map[], [], {}, Idle, None, None, None, step)
  }

  // ---- reading rows ----

  /** Python's truth test on a nullable identifier. */
  predicate Truthy(id: Option<int>) {
    id.Some? && id.value != 0
  }

  predicate Active(r: Row) {
    !Terminal(r.lifecycle)
  }

  /** Nonterminal and past SIGNAL_APPROVED: the row may own BTC or open orders. */
  predicate Live(r: Row) {
    Active(r) && !r.lifecycle.SignalApproved?
  }

  function RecordedProtection(r: Row): Option<Ref> {
    if Truthy(r.listId) then Some(ListRef(r.listId.value))
    else if Truthy(r.stopId) then Some(OrderRef(r.stopId.value))
    else None
  }

  function Target(i: Intent): Ref
    requires i.request.Cancel?
  {
    if i.endpoint.DeleteList? then ListRef(i.request.list.GetOr(0)) else OrderRef(i.request.order.GetOr(0))
  }

  predicate IsChild(i: Intent) {
    i.op.Protection? && i.parent.Some?
  }

  predicate Sent(s: State, id: IntentId) {
    exists k :: 0 <= k < |s.wire| && s.wire[k].id == id
  }

  predicate SentWith(s: State, id: IntentId, f: Fate) {
    exists k :: 0 <= k < |s.wire| && s.wire[k] == Wire(id, f)
  }

  predicate UnusedClient(s: State, client: nat) {
    forall id :: id in s.intents && s.intents[id].request.Place? ==> s.intents[id].request.client != client
  }

  /** `cancels[-1]`: the newest CANCEL_PROTECTION row of the trade. */
  predicate LatestCancel(tab: Intents, t: TradeId, c: IntentId) {
    && c in tab && tab[c].op.CancelProtection? && tab[c].trade == t
    && forall d :: d in tab && tab[d].op.CancelProtection? && tab[d].trade == t ==> tab[d].created <= tab[c].created
  }

  /** The BTC the durable row says the bot may own. */
  function Owned(r: Row): real {
    var f, p := r.filled.GetOr(0.0), r.protectedQty.GetOr(0.0);
    if f >= p then f else p
  }

  /** A sell of whole steps, no more than the row owns. */
  ghost predicate WithinOwned(s: State, i: Intent) {
    && i.request.Place? && i.trade in s.trades && 0.0 < i.request.quantity <= Owned(s.trades[i.trade])
    && OnGrid(i.request.quantity, s.step)
  }

  /** The row of a signal that was refused before anything was submitted. */
  function Dismissed(r: Row): Row {
    r.(lifecycle := EntryRejected, recon := Note("ENTRY_NOT_SUBMITTED"))
  }

  // ---- actions ----

  datatype Action =
    // order manager
    | Claim(trade: TradeId)
    | RecordSignal(trade: TradeId, mark: Mark)
    | Approve(trade: TradeId, row: Row)
    | Reject(trade: TradeId)
    | CloseDesk
    // adapter lock, taken on behalf of one trade
    | LockForEntry(trade: TradeId)
    | LockLive(trade: TradeId)
    | LockUnresolved(trade: TradeId)
    | Unlock
    // trade rows
    | Upsert(trade: TradeId, row: Row)
    | StoreEvent(event: Event)
    | ReplayEvents(trade: TradeId, events: seq<Event>)
    // intents
    | PrepareIntent(intent: Intent)
    | PrepareChild(intent: Intent, cancel: IntentId)
    | MarkSubmitting(id: IntentId)
    | Send(id: IntentId)
    | Confirm(id: IntentId)
    | Refuse(id: IntentId)
    | Doubt(id: IntentId)
    | Abort(id: IntentId)
    // exchange
    | Decide(k: nat, fate: Fate)
    | Finish(ref: Ref)
    // environment
    | Crash

  /** The seeds and endpoints the adapter builds for each operation. */
  predicate WellFormed(i: Intent) {
    match i.op
    case Entry =>
      i.id == SubmitSeed(Entry, i.trade, i.endpoint, i.request.GetClient()) && i.request.Place?
      && (i.endpoint.PostOto? || i.endpoint.PostOtoco?) && i.parent.None?
    case ReplacePlan =>
      i.id == RequestSeed(ReplacePlan, i.trade, i.request) && i.request.Place?
      && (i.endpoint.PostOrder? || i.endpoint.PostOco?) && i.parent.None?
    case Protection =>
      i.id == SubmitSeed(Protection, i.trade, i.endpoint, i.request.GetClient()) && i.request.Place?
      && (i.endpoint.PostOrder? || i.endpoint.PostOco?) && i.parent.Some?
    case PartialProtection =>
      i.id == SubmitSeed(PartialProtection, i.trade, i.endpoint, i.request.GetClient()) && i.request.Place?
      && (i.endpoint.PostOrder? || i.endpoint.PostOco?) && i.parent.None?
    case EmergencyExit =>
      i.id == SubmitSeed(EmergencyExit, i.trade, i.endpoint, i.request.GetClient()) && i.request.Place?
      && i.endpoint.PostOrder? && i.parent.None?
    case CancelProtection =>
      i.id == RequestSeed(CancelProtection, i.trade, i.request) && i.request.Cancel?
      && (i.endpoint.DeleteList? <==> Truthy(i.request.list)) && (i.endpoint.DeleteOrder? || i.endpoint.DeleteList?)
      && i.parent.None?
    case CancelPartialEntry =>
      i.id == RequestSeed(CancelPartialEntry, i.trade, i.request) && i.request.Cancel?
      && i.endpoint.DeleteList? && i.parent.None?
    case CancelStaleEntry =>
      i.id == RequestSeed(CancelStaleEntry, i.trade, i.request) && i.request.Cancel?
      && i.endpoint.DeleteList? && i.parent.None?
  }

  ghost predicate MayPrepare(s: State, i: Intent) {
    && WellFormed(i) && i.id !in s.intents
    && s.work == Some(i.trade) && s.staged.None? && s.armed.None?
    && (i.request.Place? ==> UnusedClient(s, i.request.client))
    && match i.op
       case Entry => s.desk == Approved(i.trade) && NoneUnresolved(s.intents)
       case ReplacePlan =>
         NoneUnresolved(s.intents) && WithinOwned(s, i)
       case Protection => false
       case PartialProtection => WithinOwned(s, i)
       case EmergencyExit =>
         WithinOwned(s, i) && RecordedProtection(s.trades[i.trade]).Some?
         && RecordedProtection(s.trades[i.trade]).value in s.done
       case CancelProtection =>
         i.trade in s.trades && i.request == Cancel(s.trades[i.trade].listId, s.trades[i.trade].stopId)
         && RecordedProtection(s.trades[i.trade]) == Some(Target(i))
       case CancelPartialEntry => i.trade in s.trades && i.request == Cancel(s.trades[i.trade].listId, None)
       case CancelStaleEntry => i.trade in s.trades && i.request == Cancel(s.trades[i.trade].listId, None)
  }

  /** A child is inserted in the transaction that closes its plan.  A conversion
      shows the cancel of the plan's own protection; recovery shows the trade's
      latest cancel.  Either is confirmed, and terminal at the exchange. */
  ghost predicate MayPrepareChild(s: State, i: Intent, cancel: IntentId) {
    && WellFormed(i) && IsChild(i) && i.id !in s.intents
    && s.work == Some(i.trade) && s.staged.None? && s.armed.None?
    && i.parent.value in s.intents
    && var plan := s.intents[i.parent.value];
       && plan.op.ReplacePlan? && plan.state.Prepared? && plan.trade == i.trade
       && plan.request.Place?
       && (i.request.client == plan.request.client || UnusedClient(s, i.request.client))
       && 0.0 < i.request.quantity <= plan.request.quantity && OnGrid(i.request.quantity, s.step)
       && cancel in s.intents && s.intents[cancel].op.CancelProtection? && s.intents[cancel].trade == i.trade
       && s.intents[cancel].state.Confirmed? && s.intents[cancel].request.Cancel?
       && Target(s.intents[cancel]) in s.done
       && ((plan.id in s.covers && Target(s.intents[cancel]) == s.covers[plan.id])
           || LatestCancel(s.intents, i.trade, cancel))
  }

  ghost predicate Enabled(s: State, a: Action) {
    match a
    case Claim(t) => s.desk.Idle? && t !in s.signals
    case RecordSignal(t, m) => true
    case Approve(t, row) => s.desk == Claimed(t) && row.lifecycle.SignalApproved? && Unbound(row)
    case Reject(t) =>
      (s.desk == Approved(t) || s.desk == Offered(t)) && t in s.trades
    case CloseDesk => true
    case LockForEntry(t) =>
      && s.work.None? && s.desk == Approved(t) && NoneUnresolved(s.intents)
      && forall u :: u in s.trades && Active(s.trades[u]) ==> u == t
    case LockLive(t) => s.work.None? && t in s.trades && Live(s.trades[t])
    case LockUnresolved(t) =>
      s.work.None? && exists id :: id in s.intents && Unresolved(s.intents[id].state) && s.intents[id].trade == t
    case Unlock => true
    case Upsert(t, row) =>
      s.work == Some(t) && t in s.trades && (row.lifecycle.SignalApproved? ==> Unbound(row))
    case StoreEvent(e) => true
    case ReplayEvents(t, es) =>
      t in s.trades && forall k :: 0 <= k < |es| ==> ReplayMatches(s.trades[t], es[k])
    case PrepareIntent(i) => MayPrepare(s, i)
    case PrepareChild(i, cancel) => MayPrepareChild(s, i, cancel)
    case MarkSubmitting(id) =>
      && CanMark(s.intents, id) && !s.intents[id].op.ReplacePlan?
      && s.work == Some(s.intents[id].trade) && s.armed.None?
      && (s.staged == Some(id) || (s.staged.None? && IsChild(s.intents[id])))
    case Send(id) => s.armed == Some(id)
    case Confirm(id) =>
      && id in s.intents && s.work == Some(s.intents[id].trade) && s.armed != Some(id)
      && (s.intents[id].state.Submitting? || s.intents[id].state.Ambiguous?)
      && (if s.intents[id].request.Place? then SentWith(s, id, Landed) else Target(s.intents[id]) in s.done)
    case Refuse(id) =>
      && id in s.intents && s.work == Some(s.intents[id].trade)
      && s.intents[id].state.Submitting? && s.intents[id].request.Place? && SentWith(s, id, Refused)
    case Doubt(id) =>
      && id in s.intents && s.work == Some(s.intents[id].trade) && s.intents[id].state.Submitting? && Sent(s, id)
    case Abort(id) =>
      && id in s.intents && s.work == Some(s.intents[id].trade)
      && (s.intents[id].state.Prepared? || s.intents[id].state.Aborted?) && s.staged != Some(id)
      && !IsChild(s.intents[id])
    case Decide(k, f) => k < |s.wire| && s.wire[k].fate.Pending? && !f.Pending?
    case Finish(ref) => true
    case Crash => true
  }

  function AfterPrepare(s: State, i: Intent, close: Option<IntentId>): State
    requires i.op.ReplacePlan? ==> i.trade in s.trades
  {
    s.(intents := PrepareTable(s.intents, i, close),
       staged := if i.op.ReplacePlan? then None else Some(i.id),
       desk := if i.op.Entry? then Offered(i.trade) else s.desk,
       covers := if i.op.ReplacePlan? && RecordedProtection(s.trades[i.trade]).Some?
                 then s.covers[i.id := RecordedProtection(s.trades[i.trade]).value] else s.covers)
  }

  function Next(s: State, a: Action): State
    requires Enabled(s, a)
  {
    match a
    case Claim(t) => s.(signals := s.signals[t := InProgress], desk := Claimed(t))
    case RecordSignal(t, m) => s.(signals := s.signals[t := m])
    case Approve(t, row) => s.(trades := s.trades[t := row], desk := Approved(t))
    case Reject(t) => s.(trades := s.trades[t := Dismissed(s.trades[t])], desk := Idle)
    case CloseDesk => s.(desk := Idle)
    case LockForEntry(t) => s.(work := Some(t))
    case LockLive(t) => s.(work := Some(t))
    case LockUnresolved(t) => s.(work := Some(t))
    case Unlock => s.(work := None, staged := None, armed := None)
    case Upsert(t, row) => s.(trades := s.trades[t := row])
    case StoreEvent(e) => s.(trades := Touched(s.trades, e))
    case ReplayEvents(t, es) => s.(trades := s.trades[t := ApplyAll(s.trades[t], es)])
    case PrepareIntent(i) => AfterPrepare(s, i, None)
    case PrepareChild(i, cancel) => AfterPrepare(s, i, i.parent)
    case MarkSubmitting(id) =>
      s.(intents := SetState(s.intents, id, Submitting), staged := None, armed := Some(id))
    case Send(id) => s.(wire := s.wire + [Wire(id, Pending)], armed := None)
    case Confirm(id) => s.(intents := SetState(s.intents, id, Confirmed))
    case Refuse(id) => s.(intents := SetState(s.intents, id, DefiniteReject))
    case Doubt(id) => s.(intents := SetState(s.intents, id, IntentState.Ambiguous))
    case Abort(id) => s.(intents := SetState(s.intents, id, Aborted))
    case Decide(k, f) => s.(wire := s.wire[k := s.wire[k].(fate := f)])
    case Finish(ref) => s.(done := s.done + {ref})
    case Crash => s.(desk := Idle, work := None, staged := None, armed := None)
  }
}
