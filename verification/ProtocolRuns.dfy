/**
 * Every run of the order protocol: any interleaving of the order manager, the
 * adapter, the exchange and crashes, from empty tables.
 */
module ProtocolRuns {
  import opened Basics
  import opened EventLog
  import opened EventTable
  import opened Ledger
  import opened Protocol
  import opened ProtocolSafety
  import opened Rounding

  /** Names a position in a run, so that proofs choose the steps they look at. */
  predicate At(k: int) {
    true
  }

  /** A run: the states the system passes through, from empty tables. */
  ghost predicate IsRun(r: seq<State>) {
    && r != [] && r[0] == Start(r[0].step)
    && forall k {:trigger At(k)} :: At(k) && 0 < k < |r| ==> Step(r[k - 1], r[k])
  }

  function Last(r: seq<State>): State
    requires r != []
  {
    r[|r| - 1]
  }

  lemma {:induction false} RunInv(r: seq<State>, k: nat)
    requires IsRun(r) && k < |r|
    ensures Inv(r[k])
  {
    if k == 0 {
      StartInv(r[0].step);
    } else {
      RunInv(r, k - 1);
      assert At(k);
      SuccessorKeeps(r[k - 1], r[k]);
    }
  }

  lemma RunControl(r: seq<State>, k: nat)
    requires IsRun(r) && 0 < k < |r|
    ensures LedgerInv(r[k - 1]) && ControlInv(r[k - 1]) && Step(r[k - 1], r[k])
  {
    RunInv(r, k - 1);
    assert At(k);
  }

  lemma Extend(r: seq<State>, a: Action)
    requires IsRun(r) && Enabled(Last(r), a)
    ensures IsRun(r + [Next(Last(r), a)])
  {
    var q := r + [Next(Last(r), a)];
    forall k | At(k) && 0 < k < |q|
      ensures Step(q[k - 1], q[k])
    {
    }
  }

  // ---- at most one send ----

  /** In every run each intent id is sent at most once, and a row that is
      PREPARED or ABORTED was never sent. */
  lemma SentAtMostOnce(r: seq<State>, n: nat)
    requires IsRun(r) && n < |r|
    ensures forall j, k :: 0 <= j < k < |r[n].wire| ==> r[n].wire[j].id != r[n].wire[k].id
    ensures forall id :: id in r[n].intents && (r[n].intents[id].state.Prepared? || r[n].intents[id].state.Aborted?) ==>
              !Sent(r[n], id)
  {
    RunInv(r, n);
  }

  /** The only ways a row's state may move; the last three states are final. */
  predicate Moves(a: IntentState, b: IntentState) {
    || a == b
    || (a.Prepared? && (b.Submitting? || b.Aborted? || b.Confirmed? || b.DefiniteReject? || b.Ambiguous?))
    || (a.Submitting? && (b.Confirmed? || b.DefiniteReject? || b.Ambiguous?))
    || (a.Ambiguous? && b.Confirmed?)
  }

  ghost predicate Grows(s: State, n: State) {
    && (forall id :: id in s.intents ==>
          id in n.intents && n.intents[id] == s.intents[id].(state := n.intents[id].state)
          && Moves(s.intents[id].state, n.intents[id].state))
    && |s.wire| <= |n.wire|
    && (forall k :: 0 <= k < |s.wire| ==>
          n.wire[k].id == s.wire[k].id && (!s.wire[k].fate.Pending? ==> n.wire[k] == s.wire[k]))
    && s.signals.Keys <= n.signals.Keys
    && s.done <= n.done && s.step == n.step
  }

  lemma RestatedGrows(s: State, n: State, id: IntentId, st: IntentState)
    requires Restated(s, n, id, st)
    ensures Grows(s, n)
  {
  }

  lemma ChildGrows(s: State, i: Intent, cancel: IntentId, n: State)
    requires MayPrepareChild(s, i, cancel) && n == Next(s, PrepareChild(i, cancel))
    ensures Grows(s, n)
  {
    var m := s.(intents := SetState(s.intents, i.parent.value, Aborted));
    PrepareChildSplits(s, i, cancel, m, i.(state := Prepared, created := |s.intents|));
  }

  lemma StepGrows(s: State, a: Action)
    requires ControlInv(s) && Enabled(s, a)
    ensures Grows(s, Next(s, a))
  {
    if OffLedger(a) {
      OffLedgerIsQuiet(s, a);
    } else if Settles(a).Some? {
      SettlesRestates(s, a);
      RestatedGrows(s, Next(s, a), Settles(a).value.0, Settles(a).value.1);
    } else if a.PrepareChild? {
      ChildGrows(s, a.intent, a.cancel, Next(s, a));
    }
  }

  lemma StepGrowth(s: State, n: State)
    requires ControlInv(s) && Step(s, n)
    ensures Grows(s, n)
  {
    var a :| Enabled(s, a) && n == Next(s, a);
    StepGrows(s, a);
  }

  lemma GrowsTransitive(s: State, m: State, n: State)
    requires Grows(s, m) && Grows(m, n)
    ensures Grows(s, n)
  {
  }

  lemma GrowsAt(r: seq<State>, k: nat)
    requires IsRun(r) && 0 < k < |r|
    ensures Grows(r[k - 1], r[k])
  {
    RunControl(r, k);
    StepGrowth(r[k - 1], r[k]);
  }

  /** Nothing durable is forgotten: rows keep their request, outcomes are final,
      no row becomes PREPARED again, and the wire is only appended to. */
  lemma {:induction false} RunGrows(r: seq<State>, j: nat, k: nat)
    requires IsRun(r) && j <= k < |r|
    ensures Grows(r[j], r[k])
  {
    if j < k {
      RunGrows(r, j, k - 1);
      GrowsAt(r, k);
      GrowsTransitive(r[j], r[k - 1], r[k]);
    }
  }

  // ---- recovery never sends what a crash left PREPARED ----

  /** Left PREPARED by a flow that is over, and not a replacement child. */
  ghost predicate Stranded(s: State, id: IntentId) {
    && id in s.intents && !IsChild(s.intents[id])
    && (s.intents[id].state.Prepared? || s.intents[id].state.Aborted?)
    && s.staged != Some(id) && s.armed != Some(id)
  }

  lemma StrandedStays(s: State, a: Action, id: IntentId)
    requires ControlInv(s) && Enabled(s, a) && Stranded(s, id)
    ensures Stranded(Next(s, a), id)
  {
    if OffLedger(a) {
      OffLedgerIsQuiet(s, a);
    } else if Settles(a).Some? {
      SettlesRestates(s, a);
    }
  }

  lemma StrandedStep(s: State, n: State, id: IntentId)
    requires ControlInv(s) && Step(s, n) && Stranded(s, id)
    ensures Stranded(n, id)
  {
    var a :| Enabled(s, a) && n == Next(s, a);
    StrandedStays(s, a, id);
  }

  lemma {:induction false} StrandedRemains(r: seq<State>, j: nat, k: nat, id: IntentId)
    requires IsRun(r) && j <= k < |r| && Stranded(r[j], id)
    ensures Stranded(r[k], id)
  {
    if j < k {
      StrandedRemains(r, j, k - 1, id);
      RunControl(r, k);
      StrandedStep(r[k - 1], r[k], id);
    }
  }

  /** A crash (or any release of the lock) with a row still PREPARED: unless it is
      a replacement child, no continuation of the run ever sends it. */
  lemma StrandedNeverSent(r: seq<State>, j: nat, k: nat, id: IntentId)
    requires IsRun(r) && j <= k < |r| && Stranded(r[j], id)
    ensures !Sent(r[k], id)
  {
    StrandedRemains(r, j, k, id);
    SentAtMostOnce(r, k);
  }

  // ---- one exposure ----

  /** At most one trade is nonterminal and past SIGNAL_APPROVED. */
  lemma AtMostOneExposure(r: seq<State>, n: nat, t: TradeId, u: TradeId)
    requires IsRun(r) && n < |r|
    requires t in r[n].trades && u in r[n].trades && Live(r[n].trades[t]) && Live(r[n].trades[u])
    ensures t == u
  {
    RunInv(r, n);
  }

  /** A finished trade comes back to life only while no other trade is live. */
  lemma NoRevivalBesideAnother(r: seq<State>, k: nat, t: TradeId)
    requires IsRun(r) && 0 < k < |r| && t in r[k - 1].trades && !Live(r[k - 1].trades[t])
    ensures t in r[k].trades && Live(r[k].trades[t]) ==>
              r[k - 1].work == Some(t) && NoneLive(r[k - 1])
  {
    RunInv(r, k - 1);
    assert At(k);
    ReviveStep(r[k - 1], r[k], t);
  }

  lemma UntouchedRows(s: State, a: Action)
    requires Enabled(s, a)
    requires !a.Approve? && !a.Reject? && !a.Upsert? && !a.StoreEvent? && !a.ReplayEvents?
    ensures Next(s, a).trades == s.trades
  {
  }

  ghost predicate NoneLive(s: State) {
    forall u :: u in s.trades ==> !Live(s.trades[u])
  }

  lemma ReviveAlone(s: State, a: Action, t: TradeId)
    requires TradeInv(s) && Enabled(s, a) && t in s.trades && !Live(s.trades[t])
    ensures t in Next(s, a).trades && Live(Next(s, a).trades[t]) ==> s.work == Some(t) && NoneLive(s)
  {
    if a.StoreEvent? {
      if RecordMatches(s.trades[t], a.event) {
        EventTames(s.trades[t], a.event);
      }
    } else if a.ReplayEvents? {
      if a.events != [] {
        ReplayTames(s.trades[a.trade], a.events);
      }
    } else if !a.Approve? && !a.Reject? && !a.Upsert? {
      UntouchedRows(s, a);
    }
  }

  lemma ReviveStep(s: State, n: State, t: TradeId)
    requires TradeInv(s) && Step(s, n) && t in s.trades && !Live(s.trades[t])
    ensures t in n.trades && Live(n.trades[t]) ==> s.work == Some(t) && NoneLive(s)
  {
    var a :| Enabled(s, a) && n == Next(s, a);
    ReviveAlone(s, a, t);
  }

  // ---- replacement plans ----

  /** A plan is never on the wire, is PREPARED or ABORTED, has at most one child
      ever, and has none while it is PREPARED. */
  lemma PlansYieldOneChild(r: seq<State>, n: nat, p: IntentId)
    requires IsRun(r) && n < |r| && p in r[n].intents && r[n].intents[p].op.ReplacePlan?
    ensures
      var s := r[n];
      && !Sent(s, p)
      && (s.intents[p].state.Prepared? || s.intents[p].state.Aborted?)
      && (forall c, d | c in s.intents && d in s.intents && IsChild(s.intents[c]) && IsChild(s.intents[d]) ::
            s.intents[c].parent == Some(p) && s.intents[d].parent == Some(p) ==> c == d)
      && (s.intents[p].state.Prepared? ==> forall c :: c in s.intents ==> s.intents[c].parent != Some(p))
  {
    RunInv(r, n);
  }

  // ---- evidence ----

  ghost predicate PlacedAs(s: State, k: int, client: nat) {
    0 <= k < |s.wire| && s.wire[k].id in s.intents
    && s.intents[s.wire[k].id].request.Place? && s.intents[s.wire[k].id].request.client == client
  }

  /** The evidence on which a sent request was settled. */
  predicate SettledBy(s: State, i: Intent, fate: Fate) {
    if i.request.Place? then (i.state.Confirmed? && fate.Landed?) || (i.state.DefiniteReject? && fate.Refused?)
    else i.state.Confirmed? && Target(i) in s.done
  }

  lemma ResolvedWire(s: State, k: nat)
    requires WireInv(s) && EvidenceInv(s) && k < |s.wire|
    ensures s.wire[k].id in s.intents
    ensures
      var i := s.intents[s.wire[k].id];
      !Unresolved(i.state) ==> SettledBy(s, i, s.wire[k].fate)
  {
    var id := s.wire[k].id;
    if f :| SentWith(s, id, f) {
      var j :| 0 <= j < |s.wire| && s.wire[j] == Wire(id, f);
      assert j == k;
    }
  }

  /** A sent request leaves the unresolved set only on evidence: a placement has
      landed, or was refused itself; a cancel's target is terminal. */
  lemma ResolvedOnEvidence(r: seq<State>, n: nat, k: nat)
    requires IsRun(r) && n < |r| && k < |r[n].wire|
    ensures
      var s := r[n];
      s.wire[k].id in s.intents &&
      var i := s.intents[s.wire[k].id];
      !Unresolved(i.state) ==> SettledBy(s, i, s.wire[k].fate)
  {
    RunInv(r, n);
    ResolvedWire(r[n], k);
  }

  lemma OneWirePerClient(s: State, j: int, k: int, client: nat)
    requires WireInv(s) && ClientInv(s) && PlanInv(s) && LedgerInv(s)
    requires PlacedAs(s, j, client) && PlacedAs(s, k, client)
    ensures j == k
  {
    var c, d := s.wire[j].id, s.wire[k].id;
    assert !s.intents[c].op.ReplacePlan? && !s.intents[d].op.ReplacePlan?;
    assert WellFormed(s.intents[c]) && WellFormed(s.intents[d]);
  }

  /** Whatever the exchange does with it, no client id is ever placed twice. */
  lemma PlacedAtMostOnce(r: seq<State>, n: nat, client: nat, j: int, k: int)
    requires IsRun(r) && n < |r| && PlacedAs(r[n], j, client) && PlacedAs(r[n], k, client)
    ensures j == k
  {
    RunInv(r, n);
    OneWirePerClient(r[n], j, k, client);
  }

  /** A CONFIRMED placement is at the exchange exactly once. */
  lemma ConfirmedLandsExactlyOnce(r: seq<State>, n: nat, id: IntentId)
    requires IsRun(r) && n < |r| && id in r[n].intents
    requires r[n].intents[id].state.Confirmed? && r[n].intents[id].request.Place?
    ensures
      var s := r[n];
      var client := s.intents[id].request.client;
      exists k :: PlacedAs(s, k, client) && s.wire[k] == Wire(id, Landed)
                  && forall j :: PlacedAs(s, j, client) ==> j == k
  {
    RunInv(r, n);
    var s := r[n];
    var client := s.intents[id].request.client;
    var k :| 0 <= k < |s.wire| && s.wire[k] == Wire(id, Landed);
    assert PlacedAs(s, k, client);
    forall j | PlacedAs(s, j, client)
      ensures j == k
    {
      OneWirePerClient(s, j, k, client);
    }
  }

  // ---- entries ----

  /** Each signal id causes at most one ENTRY request on the wire. */
  lemma OneEntryPerSignal(r: seq<State>, n: nat, j: nat, k: nat)
    requires IsRun(r) && n < |r| && j < k < |r[n].wire|
    ensures
      var s := r[n];
      var i, h := s.wire[j].id, s.wire[k].id;
      i in s.intents && h in s.intents &&
      (s.intents[i].op.Entry? && s.intents[h].op.Entry? ==>
         s.intents[i].trade != s.intents[h].trade && s.intents[i].trade in s.signals)
  {
    RunInv(r, n);
  }

  /** When an ENTRY is sent, every placement sent before it has been settled by
      the exchange: nothing in flight can still land beside it. */
  lemma EntrySentAlone(r: seq<State>, n: nat, id: IntentId, k: nat)
    requires IsRun(r) && n < |r| && r[n].armed == Some(id)
    requires id in r[n].intents && r[n].intents[id].op.Entry?
    requires k < |r[n].wire|
    ensures
      var s := r[n];
      s.wire[k].id in s.intents &&
      (s.intents[s.wire[k].id].request.Place? ==> s.wire[k].fate.Landed? || s.wire[k].fate.Refused?)
  {
    RunInv(r, n);
    ResolvedWire(r[n], k);
  }

  // ---- replacements ----

  /** A replacement order exists only after some cancel of the same trade's
      protection was confirmed, its target terminal at the exchange. */
  lemma ReplacedOnlyAfterCancel(r: seq<State>, n: nat, c: IntentId)
    requires IsRun(r) && n < |r| && c in r[n].intents && IsChild(r[n].intents[c])
    ensures
      var s := r[n];
      exists x :: ConfirmedCancel(s, x, s.intents[c].trade) && s.intents[x].request.Cancel? && Target(s.intents[x]) in s.done
  {
    RunInv(r, n);
    var s := r[n];
    var x :| ConfirmedCancel(s, x, s.intents[c].trade);
    assert WellFormed(s.intents[x]);
  }

  // ---- the first conversion ----

  /** From `k` to `n` the row of `t` records the protection `ref`. */
  ghost predicate Records(r: seq<State>, k: nat, n: nat, t: TradeId, ref: Ref)
    requires n < |r|
  {
    forall m {:trigger At(m)} :: At(m) && k <= m <= n ==>
      t in r[m].trades && RecordedProtection(r[m].trades[t]) == Some(ref)
  }

  predicate CancelOf(s: State, x: IntentId, t: TradeId) {
    x in s.intents && s.intents[x].op.CancelProtection? && s.intents[x].trade == t
  }

  predicate PlanFor(s: State, p: IntentId, t: TradeId) {
    p in s.intents && s.intents[p].op.ReplacePlan? && s.intents[p].trade == t
  }

  predicate ExitOf(s: State, x: IntentId, t: TradeId) {
    x in s.intents && s.intents[x].op.EmergencyExit? && s.intents[x].trade == t
  }

  /** Since `before`, every protection cancel of `t` names `ref`, every plan of
      `t` was drawn up to replace it, and an emergency sell of `t` waited for it. */
  ghost predicate AllName(before: State, s: State, t: TradeId, ref: Ref) {
    && (forall x :: CancelOf(s, x, t) && x !in before.intents ==>
          s.intents[x].request.Cancel? && Target(s.intents[x]) == ref)
    && (forall p :: PlanFor(s, p, t) && p !in before.intents ==> p in s.covers && s.covers[p] == ref)
    && (forall x :: ExitOf(s, x, t) && x !in before.intents ==> ref in s.done)
  }

  lemma PreparedNames(s: State, i: Intent, t: TradeId, ref: Ref)
    requires MayPrepare(s, i) && t in s.trades && RecordedProtection(s.trades[t]) == Some(ref)
    ensures AllName(s, AfterPrepare(s, i, None), t, ref)
  {
    var n := AfterPrepare(s, i, None);
    var row := i.(state := Prepared, created := |s.intents|);
    assert n.intents == s.intents[i.id := row];
    if i.op.CancelProtection? && i.trade == t {
      assert Target(row) == Target(i);
    }
  }

  predicate Inserts(a: Action) {
    a.PrepareIntent? || a.PrepareChild?
  }

  lemma SameRows(s: State, a: Action)
    requires ControlInv(s) && Enabled(s, a) && !Inserts(a)
    ensures Next(s, a).intents.Keys == s.intents.Keys && Next(s, a).covers == s.covers
  {
    if OffLedger(a) {
      OffLedgerIsQuiet(s, a);
    } else if Settles(a).Some? {
      SettlesRestates(s, a);
    }
  }

  lemma ChildNames(s: State, i: Intent, cancel: IntentId, t: TradeId, ref: Ref)
    requires MayPrepareChild(s, i, cancel)
    ensures
      var n := AfterPrepare(s, i, i.parent);
      AllName(s, n, t, ref) && n.covers == s.covers
  {
    var n := AfterPrepare(s, i, i.parent);
    assert n.intents.Keys == s.intents.Keys + {i.id} && n.intents[i.id].op.Protection?;
  }

  lemma SameRowsName(s: State, n: State, t: TradeId, ref: Ref)
    requires n.intents.Keys == s.intents.Keys
    ensures AllName(s, n, t, ref)
  {
  }

  ghost predicate CoversKept(s: State, n: State) {
    forall p :: p in s.intents && p in s.covers ==> p in n.covers && n.covers[p] == s.covers[p]
  }

  /** What a step writes about a trade's protection, it writes from the row. */
  lemma StepNames(s: State, a: Action, t: TradeId, ref: Ref)
    requires ControlInv(s) && Enabled(s, a) && t in s.trades && RecordedProtection(s.trades[t]) == Some(ref)
    ensures AllName(s, Next(s, a), t, ref) && CoversKept(s, Next(s, a))
  {
    if a.PrepareIntent? {
      PreparedNames(s, a.intent, t, ref);
    } else if a.PrepareChild? {
      ChildNames(s, a.intent, a.cancel, t, ref);
    } else {
      SameRows(s, a);
      SameRowsName(s, Next(s, a), t, ref);
    }
  }

  lemma StepNamesStep(s: State, n: State, t: TradeId, ref: Ref)
    requires ControlInv(s) && Step(s, n) && t in s.trades && RecordedProtection(s.trades[t]) == Some(ref)
    ensures AllName(s, n, t, ref) && CoversKept(s, n)
  {
    var a :| Enabled(s, a) && n == Next(s, a);
    StepNames(s, a, t, ref);
  }

  lemma NamesOn(before: State, s: State, n: State, t: TradeId, ref: Ref)
    requires AllName(before, s, t, ref) && AllName(s, n, t, ref) && Grows(s, n) && CoversKept(s, n)
    ensures AllName(before, n, t, ref)
  {
  }

  lemma NamesNext(r: seq<State>, n: nat, t: TradeId, ref: Ref)
    requires IsRun(r) && 0 < n < |r| && t in r[n - 1].trades && RecordedProtection(r[n - 1].trades[t]) == Some(ref)
    ensures AllName(r[n - 1], r[n], t, ref) && CoversKept(r[n - 1], r[n])
  {
    RunControl(r, n);
    StepNamesStep(r[n - 1], r[n], t, ref);
  }

  lemma {:induction false} CancelsNameRecorded(r: seq<State>, k: nat, n: nat, t: TradeId, ref: Ref)
    requires IsRun(r) && k <= n < |r| && Records(r, k, n, t, ref)
    ensures AllName(r[k], r[n], t, ref)
  {
    if k < n {
      CancelsNameRecorded(r, k, n - 1, t, ref);
      assert At(n - 1);
      NamesNext(r, n, t, ref);
      GrowsAt(r, n);
      NamesOn(r[k], r[n - 1], r[n], t, ref);
    }
  }

  /** On a trade's first conversion, while the row goes on recording the same
      order, a replacement exists only once that very order has ended; and that
      order is the one the plan was drawn up to replace. */
  lemma FirstConversionIsOwn(r: seq<State>, k: nat, n: nat, c: IntentId, t: TradeId, ref: Ref)
    requires IsRun(r) && k <= n < |r| && Records(r, k, n, t, ref)
    requires forall x :: !CancelOf(r[k], x, t)
    requires c in r[n].intents && IsChild(r[n].intents[c]) && r[n].intents[c].trade == t
    ensures ref in r[n].done
    ensures
      var p := r[n].intents[c].parent.value;
      p !in r[k].intents ==> p in r[n].covers && r[n].covers[p] == ref
  {
    CancelsNameRecorded(r, k, n, t, ref);
    ReplacedOnlyAfterCancel(r, n, c);
    RunInv(r, n);
    var s := r[n];
    var x :| ConfirmedCancel(s, x, t) && s.intents[x].request.Cancel? && Target(s.intents[x]) in s.done;
    if x in r[k].intents {
      RunGrows(r, k, n);
      assert CancelOf(r[k], x, t);
    }
    assert CancelOf(s, x, t);
    assert PlanFor(s, s.intents[c].parent.value, t);
  }

  /** While the order a row records has not ended, no cancel of it is confirmed,
      and the trade is not sold out of it. */
  lemma StuckWhileOpen(r: seq<State>, k: nat, n: nat, t: TradeId, ref: Ref, x: IntentId)
    requires IsRun(r) && k <= n < |r| && Records(r, k, n, t, ref) && ref !in r[n].done && x !in r[k].intents
    ensures !ExitOf(r[n], x, t)
    ensures CancelOf(r[n], x, t) ==> !r[n].intents[x].state.Confirmed?
  {
    CancelsNameRecorded(r, k, n, t, ref);
    RunInv(r, n);
  }

  /** A single protective order is bound with list id -1, and what the row then
      records is list -1, whatever its stop order.  No list has that id, so it
      never ends: no cancel names the stop order, none is ever confirmed, and the
      trade can be neither sold nor converted on its own cancel. */
  lemma UnlistedIsStuck(r: seq<State>, k: nat, n: nat, t: TradeId, x: IntentId)
    requires IsRun(r) && k <= n < |r| && x !in r[k].intents
    requires forall m {:trigger At(m)} :: At(m) && k <= m <= n ==> t in r[m].trades && r[m].trades[t].listId == Some(-1)
    requires ListRef(-1) !in r[n].done
    ensures !ExitOf(r[n], x, t)
    ensures CancelOf(r[n], x, t) ==>
              && r[n].intents[x].request.Cancel? && Target(r[n].intents[x]) == ListRef(-1)
              && !r[n].intents[x].state.Confirmed?
  {
    assert Records(r, k, n, t, ListRef(-1));
    CancelsNameRecorded(r, k, n, t, ListRef(-1));
    StuckWhileOpen(r, k, n, t, ListRef(-1), x);
  }

  /** The recorded protection is the stop order exactly when no list is recorded. */
  lemma RecordsStopIff(row: Row)
    requires Truthy(row.stopId)
    ensures RecordedProtection(row) == Some(OrderRef(row.stopId.value)) <==> !Truthy(row.listId)
  {
  }

  // ---- sells ----

  /** What a newly written sell may offer. */
  ghost predicate SellFits(s: State, i: Intent) {
    && (i.op.ReplacePlan? || i.op.PartialProtection? || i.op.EmergencyExit? ==> WithinOwned(s, i))
    && (i.op.Protection? ==>
          && IsChild(i) && i.request.Place? && i.parent.value in s.intents
          && s.intents[i.parent.value].op.ReplacePlan? && s.intents[i.parent.value].request.Place?
          && 0.0 < i.request.quantity <= s.intents[i.parent.value].request.quantity && OnGrid(i.request.quantity, s.step))
  }

  lemma NewRowFits(s: State, a: Action, id: IntentId)
    requires ControlInv(s) && Enabled(s, a) && id in Next(s, a).intents && id !in s.intents
    ensures SellFits(s, Next(s, a).intents[id])
  {
    if OffLedger(a) {
      OffLedgerIsQuiet(s, a);
    } else if Settles(a).Some? {
      SettlesRestates(s, a);
    }
  }

  lemma NewRowFitsStep(s: State, n: State, id: IntentId)
    requires ControlInv(s) && Step(s, n) && id in n.intents && id !in s.intents
    ensures SellFits(s, n.intents[id])
  {
    var a :| Enabled(s, a) && n == Next(s, a);
    NewRowFits(s, a, id);
  }

  /** When a sell is written its quantity is at most what the durable row says
      the bot owns; a replacement child never sells more than its plan. */
  lemma SellsWithinOwned(r: seq<State>, k: nat, id: IntentId)
    requires IsRun(r) && 0 < k < |r| && id in r[k].intents && id !in r[k - 1].intents
    ensures SellFits(r[k - 1], r[k].intents[id])
  {
    RunControl(r, k);
    NewRowFitsStep(r[k - 1], r[k], id);
  }

  predicate Sells(op: Operation) {
    op.ReplacePlan? || op.Protection? || op.PartialProtection? || op.EmergencyExit?
  }

  /** Every plan and every sell in the ledger of a run is of one or more whole steps. */
  lemma {:induction false} SellsInSteps(r: seq<State>, n: nat, id: IntentId)
    requires IsRun(r) && n < |r| && id in r[n].intents && Sells(r[n].intents[id].op)
    ensures r[n].intents[id].request.Place? && 0.0 < r[n].intents[id].request.quantity
    ensures OnGrid(r[n].intents[id].request.quantity, r[n].step)
  {
    if n > 0 {
      GrowsAt(r, n);
      if id in r[n - 1].intents {
        SellsInSteps(r, n - 1, id);
      } else {
        SellsWithinOwned(r, n, id);
      }
    }
  }

  /** The cancel a replacement child is written on: confirmed, its order ended,
      and either the plan's own protection or the trade's newest cancel. */
  ghost predicate WrittenOn(s: State, i: Intent, c: IntentId) {
    && ConfirmedCancel(s, c, i.trade) && s.intents[c].request.Cancel? && Target(s.intents[c]) in s.done
    && i.parent.Some?
    && ((i.parent.value in s.covers && Target(s.intents[c]) == s.covers[i.parent.value]) || LatestCancel(s.intents, i.trade, c))
  }

  ghost predicate Founded(s: State, i: Intent) {
    exists c :: WrittenOn(s, i, c)
  }

  lemma ChildIsFounded(s: State, a: Action, id: IntentId)
    requires LedgerInv(s) && ControlInv(s) && Enabled(s, a) && id in Next(s, a).intents && id !in s.intents
    ensures IsChild(Next(s, a).intents[id]) ==> Founded(s, Next(s, a).intents[id])
  {
    if OffLedger(a) {
      OffLedgerIsQuiet(s, a);
    } else if Settles(a).Some? {
      SettlesRestates(s, a);
    } else if a.PrepareChild? {
      assert WrittenOn(s, Next(s, a).intents[id], a.cancel);
    }
  }

  lemma ChildIsFoundedStep(s: State, n: State, id: IntentId)
    requires LedgerInv(s) && ControlInv(s) && Step(s, n) && id in n.intents && id !in s.intents
    ensures IsChild(n.intents[id]) ==> Founded(s, n.intents[id])
  {
    var a :| Enabled(s, a) && n == Next(s, a);
    ChildIsFounded(s, a, id);
  }

  /** At the very step that writes a replacement child, the cancel it rests on is
      confirmed and its order has ended at the exchange. */
  lemma ChildWrittenOnProof(r: seq<State>, k: nat, id: IntentId)
    requires IsRun(r) && 0 < k < |r| && id in r[k].intents && id !in r[k - 1].intents && IsChild(r[k].intents[id])
    ensures Founded(r[k - 1], r[k].intents[id])
  {
    RunControl(r, k);
    ChildIsFoundedStep(r[k - 1], r[k], id);
  }

  // ---- resuming a plan ----

  function ChildOf(plan: Intent, request: Request): Intent {
    Intent(SubmitSeed(Protection, plan.trade, plan.endpoint, request.GetClient()), Protection, plan.trade,
           plan.endpoint, request, Some(plan.id), Prepared, 0)
  }

  /** While a plan is PREPARED the id of its child is free. */
  lemma ChildIsNew(s: State, plan: Intent, request: Request)
    requires LedgerInv(s) && PlanInv(s) && ClientInv(s)
    requires plan.op.ReplacePlan? && WellFormed(plan) && request.Place?
    requires plan.id in s.intents && s.intents[plan.id] == plan && plan.state.Prepared?
    requires request.client == plan.request.client || UnusedClient(s, request.client)
    ensures ChildOf(plan, request).id !in s.intents
  {
  }

  lemma CrashedPlanIsResumable(s: State, plan: Intent, request: Request, cancel: IntentId)
    requires Inv(s) && s.work == Some(plan.trade) && s.staged.None? && s.armed.None?
    requires plan.op.ReplacePlan? && plan.id in s.intents && s.intents[plan.id] == plan && plan.state.Prepared?
    requires request.Place? && plan.request.Place? && 0.0 < request.quantity <= plan.request.quantity
    requires OnGrid(request.quantity, s.step)
    requires request.client == plan.request.client || UnusedClient(s, request.client)
    requires LatestCancel(s.intents, plan.trade, cancel) && s.intents[cancel].state.Confirmed?
    ensures MayPrepareChild(s, ChildOf(plan, request), cancel)
  {
    assert WellFormed(plan) && WellFormed(s.intents[cancel]);
    ChildIsNew(s, plan, request);
  }

  /** `plan` is PREPARED and its trade is being worked on. */
  ghost predicate Held(s: State, plan: Intent) {
    && plan.op.ReplacePlan? && plan.state.Prepared? && plan.id in s.intents && s.intents[plan.id] == plan
    && s.work == Some(plan.trade) && s.staged.None? && s.armed.None?
  }

  lemma ChildStep(s: State, i: Intent, cancel: IntentId)
    requires MayPrepareChild(s, i, cancel)
    ensures Enabled(s, PrepareChild(i, cancel)) && Next(s, PrepareChild(i, cancel)) == AfterPrepare(s, i, i.parent)
  {
  }

  /** `plan` was written for the order `order`, which is open, over `cancel`. */
  ghost predicate PlannedOver(s: State, plan: Intent, order: Ref, cancel: IntentId) {
    && plan.op.ReplacePlan? && plan.id in s.intents && s.intents[plan.id] == plan && plan.state.Prepared?
    && plan.request.Place? && 0.0 < plan.request.quantity && OnGrid(plan.request.quantity, s.step)
    && plan.id in s.covers && s.covers[plan.id] == order && order !in s.done
    && LatestCancel(s.intents, plan.trade, cancel) && s.intents[cancel].state.Confirmed?
  }

  lemma WritePlan(s: State, plan: Intent, cancel: IntentId) returns (row: Intent, order: Ref)
    requires plan.op.ReplacePlan? && MayPrepare(s, plan)
    requires LatestCancel(s.intents, plan.trade, cancel) && s.intents[cancel].state.Confirmed?
    requires RecordedProtection(s.trades[plan.trade]).Some? && RecordedProtection(s.trades[plan.trade]).value !in s.done
    ensures row == plan.(state := Prepared, created := |s.intents|)
    ensures PlannedOver(Next(s, PrepareIntent(plan)), row, order, cancel)
  {
    row := plan.(state := Prepared, created := |s.intents|);
    order := RecordedProtection(s.trades[plan.trade]).value;
    var n := Next(s, PrepareIntent(plan));
    assert n.intents == s.intents[plan.id := row];
  }

  lemma CrashAndLock(r: seq<State>, row: Intent, order: Ref, cancel: IntentId) returns (q: seq<State>)
    requires IsRun(r) && PlannedOver(Last(r), row, order, cancel)
    ensures IsRun(q) && r <= q && PlannedOver(Last(q), row, order, cancel)
    ensures Last(q).work == Some(row.trade) && Last(q).staged.None? && Last(q).armed.None?
  {
    Extend(r, Crash);
    var q1 := r + [Next(Last(r), Crash)];
    assert Last(q1).intents[row.id] == row;
    Extend(q1, LockUnresolved(row.trade));
    q := q1 + [Next(Last(q1), LockUnresolved(row.trade))];
  }

  lemma ResumePlanned(r: seq<State>, row: Intent, order: Ref, cancel: IntentId) returns (q: seq<State>)
    requires IsRun(r) && PlannedOver(Last(r), row, order, cancel)
    requires Last(r).work == Some(row.trade) && Last(r).staged.None? && Last(r).armed.None?
    ensures IsRun(q) && r <= q
    ensures
      var n := Last(q);
      n.staged.Some? && n.staged.value in n.intents && n.intents[n.staged.value].parent == Some(row.id)
      && row.id in n.covers && n.covers[row.id] == order && order !in n.done
  {
    RunInv(r, |r| - 1);
    CrashedPlanIsResumable(Last(r), row, row.request, cancel);
    ChildStep(Last(r), ChildOf(row, row.request), cancel);
    Extend(r, PrepareChild(ChildOf(row, row.request), cancel));
    q := r + [Next(Last(r), PrepareChild(ChildOf(row, row.request), cancel))];
  }

  /** A second conversion that crashes right after its plan is written is resumed
      on the first conversion's cancel, with its own order still open. */
  lemma SecondConversionResumesOnOldCancel(r: seq<State>, plan: Intent, cancel: IntentId) returns (q: seq<State>)
    requires IsRun(r) && plan.op.ReplacePlan? && MayPrepare(Last(r), plan)
    requires LatestCancel(Last(r).intents, plan.trade, cancel) && Last(r).intents[cancel].state.Confirmed?
    requires RecordedProtection(Last(r).trades[plan.trade]).Some?
    requires RecordedProtection(Last(r).trades[plan.trade]).value !in Last(r).done
    ensures IsRun(q) && r <= q
    ensures
      var n := Last(q);
      n.staged.Some? && n.staged.value in n.intents && n.intents[n.staged.value].parent == Some(plan.id)
      && plan.id in n.covers && n.covers[plan.id] == RecordedProtection(Last(r).trades[plan.trade]).value
      && n.covers[plan.id] !in n.done
  {
    var row, order := WritePlan(Last(r), plan, cancel);
    Extend(r, PrepareIntent(plan));
    var locked := CrashAndLock(r + [Next(Last(r), PrepareIntent(plan))], row, order, cancel);
    q := ResumePlanned(locked, row, order, cancel);
  }
}
