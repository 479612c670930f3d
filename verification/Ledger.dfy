/**
 * The `operation_intents` table: one row for every request that may reach the
 * exchange, written before the request is sent.
 */
module Ledger {
  import opened Basics

  datatype Operation =
    | Entry
    | ReplacePlan            // REPLACE_PROTECTION: a plan, sent only through a child
    | Protection
    | PartialProtection
    | EmergencyExit
    | CancelProtection
    | CancelPartialEntry
    | CancelStaleEntry

  datatype Endpoint = PostOrder | PostOto | PostOtoco | PostOco | DeleteOrder | DeleteList

  /** `client` is the deterministic client id the exchange can be asked about:
      listClientOrderId for order lists, newClientOrderId for single orders. */
  datatype Request =
    | Place(client: nat, quantity: real, trailing: bool)
    | Cancel(list: Option<int>, order: Option<int>)
  {
    function GetClient(): nat { if Place? then client else 0 }
  }

  /** Intent ids are digests of these seeds; the digest is taken as injective. */
  datatype IntentId =
    | SubmitSeed(op: Operation, trade: TradeId, endpoint: Endpoint, client: nat)
    | RequestSeed(op: Operation, trade: TradeId, request: Request)

  datatype IntentState = Prepared | Submitting | Confirmed | DefiniteReject | Ambiguous | Aborted

  datatype Intent = Intent(
    id: IntentId,
    op: Operation,
    trade: TradeId,
    endpoint: Endpoint,
    request: Request,
    parent: Option<IntentId>,
    state: IntentState,
    created: nat)

  type Intents = map<IntentId, Intent>

  predicate Unresolved(s: IntentState) {
    s.Prepared? || s.Submitting? || s.Ambiguous?
  }

  predicate NoneUnresolved(tab: Intents) {
    forall id :: id in tab ==> !Unresolved(tab[id].state)
  }

  // ---- prepare_intent: insert a row and close its parent, or neither ----

  datatype Prepare = Inserted | AlreadyThere | RolledBack

  function WithRow(tab: Intents, i: Intent): Intents {
    tab[i.id := i.(state := Prepared, created := |tab|)]
  }

  function PrepareOutcome(tab: Intents, i: Intent, close: Option<IntentId>): Prepare {
    if i.id in tab then AlreadyThere
    else if close.Some? && !(close.value in WithRow(tab, i) && WithRow(tab, i)[close.value].state.Prepared?)
    then RolledBack
    else Inserted
  }

  function PrepareTable(tab: Intents, i: Intent, close: Option<IntentId>): Intents {
    if !PrepareOutcome(tab, i, close).Inserted? then tab
    else if close.None? then WithRow(tab, i)
    else WithRow(tab, i)[close.value := WithRow(tab, i)[close.value].(state := Aborted)]
  }

  // ---- mark_intent_submitting and finish_intent ----

  predicate CanMark(tab: Intents, id: IntentId) {
    id in tab && tab[id].state.Prepared?
  }

  function SetState(tab: Intents, id: IntentId, s: IntentState): Intents
    requires id in tab
  {
    tab[id := tab[id].(state := s)]
  }
}
