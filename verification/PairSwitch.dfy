/**
 * `PairController`: the active pair and its projections are separate files,
 * overwritten one atomic write at a time.  The process may die between any two
 * writes; nothing is remembered but the files.
 */
module PairSwitch {
  import opened Basics

  type Pair = string

  /** The authoritative state; its hash is taken as injective, `stamp` being the
      time of building that tells two attempts apart. */
  datatype PairState = PairState(pair: Pair, generation: nat, stamp: int)

  datatype Stage =
    | Active | Pausing | Reconciling | WaitingManualSwap | ApplyingPair | VerifyingPair | PausedReady | Blocked

  datatype Switch = Switch(stage: Stage, activePair: Pair, activeGeneration: nat, target: Option<Pair>)

  /** The four files: what the bootstrap publishes, and the stage of a switch. */
  datatype Files = Files(state: Option<PairState>, pairlist: Option<PairState>, overlay: Option<Pair>, switch: Option<Switch>)

  const NO_FILES := Files(None, None, None, None)

  /** How a call ends: with a result, with a raised refusal, or with the process. */
  datatype Call<+T> = Ok(value: T) | Refused | Crashed {
    predicate IsFailure() { !Ok? }
    function PropagateFailure<U>(): Call<U>
      requires !Ok?
    {
      if Refused? then Call.Refused else Crashed
    }
    function Extract(): T
      requires Ok?
    {
      value
    }
  }

  datatype Check = Flat | NotFlat | Raises

  // ---- reading the files ----

  /** What the bootstrap demands of the files: both projections are the state's. */
  predicate Projected(f: Files) {
    f.state.Some? && f.pairlist == f.state && f.overlay == Some(f.state.value.pair)
  }

  /** `switch_status`; None is a raised PairStateError. */
  function Status(f: Files): Option<Switch> {
    if f.state.None? then None
    else if f.switch.None? then Some(Switch(Active, f.state.value.pair, f.state.value.generation, None))
    else if f.switch.value.activePair != f.state.value.pair
            && !f.switch.value.stage.VerifyingPair? && !f.switch.value.stage.PausedReady? && !f.switch.value.stage.Active?
    then None
    else f.switch
  }

  predicate InStage(f: Files, s: Stage) {
    Status(f).Some? && Status(f).value.stage == s
  }

  /** The stages in which another switch may be begun. */
  predicate MayBegin(f: Files) {
    InStage(f, Active) || InStage(f, PausedReady) || InStage(f, Blocked)
  }

  predicate ResumeReady(f: Files) {
    InStage(f, Active) || InStage(f, PausedReady)
  }

  predicate Unused(f: Files) {
    f.state.None? && f.pairlist.None? && f.overlay.None?
  }

  // ---- the writes each call makes ----

  datatype Write = StageFile(stage: Stage, target: Option<Pair>) | ListFile(next: PairState) | OverlayFile(pair: Pair)
                 | StateFile(next: PairState)

  function Put(f: Files, w: Write): Files {
    match w
    case StageFile(s, target) =>
      if f.state.None? then f
      else f.(switch := Some(Switch(s, f.state.value.pair, f.state.value.generation, target)))
    case ListFile(next) => f.(pairlist := Some(next))
    case OverlayFile(pair) => f.(overlay := Some(pair))
    case StateFile(next) => f.(state := Some(next))
  }

  function PutAll(f: Files, ws: seq<Write>): Files {
    if ws == [] then f else Put(PutAll(f, ws[..|ws| - 1]), ws[|ws| - 1])
  }

  /** `raises` numbers the write of a publication that fails with an exception. */
  datatype Op =
    | Bootstrap(initial: Pair, stamp: int, raises: nat)
    | Begin(requested: Pair, eligible: bool, check: Check)
    | Complete(check: Check, targetValid: bool, stamp: int, raises: nat)
    | Verify(proofOk: bool)
    | Resume

  /** `_publish`: projections first, the authoritative state last. */
  function Publication(next: PairState, raises: nat): seq<Write> {
    [ListFile(next), OverlayFile(next.pair), StateFile(next)][..if raises < 3 then raises else 3]
  }

  /** The state a completed switch publishes. */
  function Successor(f: Files, stamp: int): PairState
    requires InStage(f, WaitingManualSwap)
  {
    PairState(Status(f).value.target.GetOr(""), f.state.value.generation + 1, stamp)
  }

  /** What the call writes when the process lives to the end of it. */
  function Writes(f: Files, op: Op): seq<Write> {
    match op
    case Bootstrap(initial, stamp, raises) =>
      if Unused(f) then Publication(PairState(initial, 1, stamp), raises) else []
    case Begin(requested, eligible, check) =>
      if !MayBegin(f) then []
      else if requested == f.state.value.pair then [StageFile(Active, None)]
      else if !eligible then []
      else [StageFile(Pausing, Some(requested)), StageFile(Reconciling, Some(requested)),
            StageFile(if check.Flat? then WaitingManualSwap else Blocked, Some(requested))]
    case Complete(check, targetValid, stamp, raises) =>
      if !InStage(f, WaitingManualSwap) then []
      else
        var target := Status(f).value.target;
        if !check.Flat? || !targetValid then [StageFile(Reconciling, target), StageFile(Blocked, target)]
        else [StageFile(Reconciling, target), StageFile(ApplyingPair, target)]
             + Publication(Successor(f, stamp), raises)
             + [StageFile(if raises < 3 then Blocked else VerifyingPair, target)]
    case Verify(proofOk) =>
      if InStage(f, VerifyingPair) && proofOk && Status(f).value.target == Some(f.state.value.pair)
      then [StageFile(PausedReady, Status(f).value.target)] else []
    case Resume =>
      if InStage(f, PausedReady) then [StageFile(Active, None)] else []
  }

  /** The call raises, if the process lives to the end of it. */
  predicate Refuses(f: Files, op: Op) {
    match op
    case Bootstrap(_, _, raises) => if Unused(f) then raises < 3 else !Projected(f)
    case Begin(requested, eligible, check) =>
      !MayBegin(f) || (requested != f.state.value.pair && (!eligible || !check.Flat?))
    case Complete(check, targetValid, _, raises) =>
      !InStage(f, WaitingManualSwap) || !check.Flat? || !targetValid || raises < 3
    case Verify(proofOk) =>
      !InStage(f, VerifyingPair) || !proofOk || Status(f).value.target != Some(f.state.value.pair)
    case Resume => !ResumeReady(f)
  }

  /** One call by a process that lives to make `life` more writes. */
  datatype Turn = Turn(op: Op, life: nat)

  predicate Cut(f: Files, c: Turn) {
    c.life < |Writes(f, c.op)|
  }

  /** The writes made by a process that lives for `life` of them. */
  function Lived(ws: seq<Write>, life: nat): seq<Write> {
    if life < |ws| then ws[..life] else ws
  }

  function After(f: Files, c: Turn): Files {
    PutAll(f, Lived(Writes(f, c.op), c.life))
  }

  /** Calls one after another; a call cut short is followed by a restart, which
      changes no file. */
  function RunOf(f: Files, calls: seq<Turn>): Files {
    if calls == [] then f else After(RunOf(f, calls[..|calls| - 1]), calls[|calls| - 1])
  }

  // ---- what every write keeps ----

  /** Stages in which the active pair is not being replaced. */
  predicate Settling(s: Stage) {
    !s.ApplyingPair? && !s.VerifyingPair?
  }

  predicate FileInv(f: Files) {
    && (f.state.Some? ==> f.pairlist.Some? && f.overlay.Some?)
    && (f.switch.Some? ==>
          && f.state.Some?
          && (Settling(f.switch.value.stage) ==> f.switch.value.activePair == f.state.value.pair)
          && (f.switch.value.stage.WaitingManualSwap? || f.switch.value.stage.ApplyingPair? ==> f.switch.value.target.Some?)
          && (f.switch.value.stage.VerifyingPair? ==> f.switch.value.target == Some(f.state.value.pair) && Projected(f)))
  }

  lemma PutSnoc(f: Files, ws: seq<Write>, n: nat)
    requires n < |ws|
    ensures PutAll(f, ws[..n + 1]) == Put(PutAll(f, ws[..n]), ws[n])
  {
    assert ws[..n + 1][..n] == ws[..n];
  }

  /** How many writes the call makes before it ends or is cut short. */
  function Made(f: Files, c: Turn): nat {
    if Cut(f, c) then c.life else |Writes(f, c.op)|
  }

  lemma AfterMade(f: Files, c: Turn)
    ensures Made(f, c) <= |Writes(f, c.op)| && After(f, c) == PutAll(f, Writes(f, c.op)[..Made(f, c)])
  {
    assert Writes(f, c.op)[..|Writes(f, c.op)|] == Writes(f, c.op);
  }

  function Staged(f: Files, s: Stage, target: Option<Pair>): Files {
    Put(f, StageFile(s, target))
  }

  /** Another pair was chosen: how far the stages of the choice have come. */
  predicate Chosen(f: Files, g: Files, requested: Pair, check: Check) {
    || g == Staged(f, Pausing, Some(requested)) || g == Staged(f, Reconciling, Some(requested))
    || g == Staged(f, Blocked, Some(requested)) || (check.Flat? && g == Staged(f, WaitingManualSwap, Some(requested)))
  }

  lemma BeginShape(f: Files, c: Turn)
    requires FileInv(f) && c.op.Begin?
    ensures
      var g := After(f, c);
      || g == f
      || (MayBegin(f) && c.life >= 1 &&
          if c.op.requested == f.state.value.pair then g == Staged(f, Active, None)
          else c.op.eligible && Chosen(f, g, c.op.requested, c.op.check))
  {
    var ws := Writes(f, c.op);
    AfterMade(f, c);
    if |ws| >= 1 { PutSnoc(f, ws, 0); }
    if |ws| >= 2 { PutSnoc(f, ws, 1); PutSnoc(f, ws, 2); }
  }

  /** A publication of `next` that has not reached the state file. */
  predicate Halfway(f: Files, g: Files, next: PairState, target: Option<Pair>) {
    && g == f.(pairlist := g.pairlist, overlay := g.overlay, switch := g.switch)
    && (g.pairlist == f.pairlist || g.pairlist == Some(next)) && (g.overlay == f.overlay || g.overlay == Some(next.pair))
    && (g.switch == Staged(f, ApplyingPair, target).switch || g.switch == Staged(f, Blocked, target).switch)
  }

  /** `next` is published, and the stage file tells so or is one write behind. */
  predicate Published(f: Files, g: Files, next: PairState, target: Option<Pair>) {
    var p := Files(Some(next), Some(next), Some(next.pair), Staged(f, ApplyingPair, target).switch);
    g == p || g == Staged(p, VerifyingPair, target)
  }

  lemma CompleteShape(f: Files, c: Turn)
    requires FileInv(f) && c.op.Complete?
    ensures
      var g := After(f, c);
      || g == f
      || (InStage(f, WaitingManualSwap) &&
          var target := f.switch.value.target;
          || g == Staged(f, Reconciling, target) || g == Staged(f, Blocked, target)
          || (c.op.check.Flat? && c.op.targetValid &&
              (Halfway(f, g, Successor(f, c.op.stamp), target) || Published(f, g, Successor(f, c.op.stamp), target))))
  {
    var ws := Writes(f, c.op);
    AfterMade(f, c);
    if |ws| >= 2 { PutSnoc(f, ws, 0); PutSnoc(f, ws, 1); }
    if |ws| >= 3 { PutSnoc(f, ws, 2); }
    if |ws| >= 4 { PutSnoc(f, ws, 3); }
    if |ws| >= 5 { PutSnoc(f, ws, 4); }
    if |ws| >= 6 { PutSnoc(f, ws, 5); }
  }

  lemma BootstrapShape(f: Files, c: Turn)
    requires FileInv(f) && c.op.Bootstrap?
    ensures
      var g := After(f, c);
      || g == f
      || (Unused(f) &&
          var next := PairState(c.op.initial, 1, c.op.stamp);
          (g.state.None? && g.switch.None?) || g == Files(Some(next), Some(next), Some(next.pair), None))
  {
    var ws := Writes(f, c.op);
    AfterMade(f, c);
    if |ws| >= 1 { PutSnoc(f, ws, 0); }
    if |ws| >= 2 { PutSnoc(f, ws, 1); }
    if |ws| >= 3 { PutSnoc(f, ws, 2); }
  }

  lemma OneStageShape(f: Files, c: Turn)
    requires FileInv(f) && (c.op.Verify? || c.op.Resume?)
    ensures
      var g := After(f, c);
      || g == f
      || (c.op.Verify? && c.op.proofOk && InStage(f, VerifyingPair) && Projected(f)
          && g == Staged(f, PausedReady, f.switch.value.target))
      || (c.op.Resume? && InStage(f, PausedReady) && g == Staged(f, Active, None))
  {
    var ws := Writes(f, c.op);
    AfterMade(f, c);
    if |ws| >= 1 { PutSnoc(f, ws, 0); }
  }

  lemma CallKeeps(f: Files, c: Turn)
    requires FileInv(f)
    ensures FileInv(After(f, c))
  {
    match c.op
    case Bootstrap(_, _, _) => BootstrapShape(f, c);
    case Begin(_, _, _) => BeginShape(f, c);
    case Complete(_, _, _, _) => CompleteShape(f, c);
    case _ => OneStageShape(f, c);
  }

  lemma {:induction false} RunKeeps(f: Files, calls: seq<Turn>)
    requires FileInv(f)
    ensures FileInv(RunOf(f, calls))
  {
    if calls != [] {
      RunKeeps(f, calls[..|calls| - 1]);
      CallKeeps(RunOf(f, calls[..|calls| - 1]), calls[|calls| - 1]);
    }
  }

  // ---- a switch that died between its first and its last write ----

  /** The files of a first start are only partly there, the stage file does not
      fit the state, or a switch is in one of its passing stages. */
  predicate Dead(f: Files) {
    if f.state.None? then !Unused(f)
    else Status(f).None? || InStage(f, Pausing) || InStage(f, Reconciling) || InStage(f, ApplyingPair)
  }

  lemma {:induction false} DeadStays(f: Files, calls: seq<Turn>)
    requires Dead(f)
    ensures RunOf(f, calls) == f
  {
    if calls != [] {
      DeadStays(f, calls[..|calls| - 1]);
    }
  }

  /** A call that changes a file, where one exists. */
  function Waking(f: Files): Turn
    requires !Dead(f)
  {
    if f.state.None? then Turn(Bootstrap("", 0, 3), 3)
    else if MayBegin(f) then Turn(Begin(f.state.value.pair + "'", true, Flat), 1)
    else if InStage(f, WaitingManualSwap) then Turn(Complete(NotFlat, false, 0, 3), 1)
    else Turn(Verify(true), 1)
  }

  lemma WakingChanges(f: Files)
    requires FileInv(f) && !Dead(f)
    ensures After(f, Waking(f)) != f
  {
    var c := Waking(f);
    AfterMade(f, c);
    PutSnoc(f, Writes(f, c.op), 0);
    if f.state.None? {
      PutSnoc(f, Writes(f, c.op), 1);
      PutSnoc(f, Writes(f, c.op), 2);
    }
  }

  /** No sequence of calls and restarts ever changes a file again exactly when
      the files are dead: a check on the files alone. */
  lemma DeadIff(f: Files)
    requires FileInv(f)
    ensures Dead(f) <==> forall calls :: RunOf(f, calls) == f
  {
    if Dead(f) {
      forall calls
        ensures RunOf(f, calls) == f
      {
        DeadStays(f, calls);
      }
    } else {
      WakingChanges(f);
      var calls := [Waking(f)];
      assert calls[..0] == [];
      assert RunOf(f, calls) != f;
    }
  }

  lemma CutSwitchIsDead(f: Files, c: Turn)
    requires FileInv(f) && (c.op.Begin? || c.op.Complete?) && Cut(f, c) && c.life >= 1
    ensures Dead(After(f, c))
  {
    var ws := Writes(f, c.op);
    AfterMade(f, c);
    PutSnoc(f, ws, 0);
    if c.life >= 2 { PutSnoc(f, ws, 1); }
    if c.life >= 3 { PutSnoc(f, ws, 2); }
    if c.life >= 4 { PutSnoc(f, ws, 3); }
    if c.life >= 5 { PutSnoc(f, ws, 4); }
  }

  /** A process that dies between the first and the last write of a switch, so
      also while it publishes the new pair, leaves files that every staged call
      refuses, and that no sequence of calls and restarts changes. */
  lemma CutSwitchFailsClosed(f: Files, c: Turn, calls: seq<Turn>, op: Op)
    requires FileInv(f) && (c.op.Begin? || c.op.Complete?) && Cut(f, c) && c.life >= 1
    ensures RunOf(After(f, c), calls) == After(f, c)
    ensures !op.Bootstrap? ==> Refuses(RunOf(After(f, c), calls), op)
  {
    CutSwitchIsDead(f, c);
    DeadStays(After(f, c), calls);
  }

  // ---- resuming on torn files ----

  /** The still active pair is chosen to leave BLOCKED, while the projections are
      not that pair's. */
  predicate ChoseTorn(f: Files, c: Turn) {
    c.op.Begin? && InStage(f, Blocked) && c.op.requested == f.state.value.pair && c.life >= 1 && !Projected(f)
  }

  lemma TornStep(f: Files, c: Turn)
    requires FileInv(f) && ResumeReady(After(f, c))
    ensures ResumeReady(f) ==> (Projected(After(f, c)) <==> Projected(f))
    ensures !ResumeReady(f) ==> (!Projected(After(f, c)) <==> ChoseTorn(f, c))
  {
    match c.op
    case Bootstrap(_, _, _) => BootstrapShape(f, c);
    case Begin(_, _, _) => BeginShape(f, c);
    case Complete(_, _, _, _) => CompleteShape(f, c);
    case _ => OneStageShape(f, c);
  }

  /** The files after each call of a history that starts without files. */
  ghost predicate IsTrace(h: seq<Files>, calls: seq<Turn>) {
    && |h| == |calls| + 1 && h[0] == NO_FILES
    && forall i :: 0 <= i < |calls| ==> h[i + 1] == After(h[i], calls[i])
  }

  lemma {:induction false} TraceKeeps(h: seq<Files>, calls: seq<Turn>, n: nat)
    requires IsTrace(h, calls) && n < |h|
    ensures FileInv(h[n])
  {
    if n > 0 {
      TraceKeeps(h, calls, n - 1);
      assert h[n] == After(h[n - 1], calls[n - 1]);
      CallKeeps(h[n - 1], calls[n - 1]);
    }
  }

  /** What the last call before moment `n` did. */
  lemma LastCall(h: seq<Files>, calls: seq<Turn>, n: nat)
    requires IsTrace(h, calls) && 0 < n < |h|
    ensures FileInv(h[n - 1]) && h[n] == After(h[n - 1], calls[n - 1])
  {
    TraceKeeps(h, calls, n - 1);
    assert h[n - 1 + 1] == After(h[n - 1], calls[n - 1]);
  }

  /** Call `k` made the files resume-ready by such a choice, and they stayed so. */
  ghost predicate TornBy(h: seq<Files>, calls: seq<Turn>, n: nat, k: nat)
    requires n < |h| == |calls| + 1
  {
    k < n && ChoseTorn(h[k], calls[k]) && forall j :: k < j <= n ==> ResumeReady(h[j])
  }

  lemma TornByEarlier(h: seq<Files>, calls: seq<Turn>, n: nat, k: nat)
    requires |h| == |calls| + 1 && 0 < n < |h| && ResumeReady(h[n]) && ResumeReady(h[n - 1])
    ensures TornBy(h, calls, n, k) <==> TornBy(h, calls, n - 1, k)
  {
    if TornBy(h, calls, n - 1, k) {
      assert forall j :: k < j <= n - 1 ==> ResumeReady(h[j]);
    }
  }

  /** Files on which a resume is allowed have another pair's projections exactly
      when they became so by choosing the still active pair on torn files. */
  lemma {:induction false} ResumeTornIff(h: seq<Files>, calls: seq<Turn>, n: nat)
    requires IsTrace(h, calls) && n < |h| && ResumeReady(h[n])
    ensures !Projected(h[n]) <==> exists k :: TornBy(h, calls, n, k)
  {
    if n > 0 {
      LastCall(h, calls, n);
      TornStep(h[n - 1], calls[n - 1]);
      if ResumeReady(h[n - 1]) {
        var m := n - 1;
        ResumeTornIff(h, calls, m);
        if k: nat :| TornBy(h, calls, m, k) {
          TornByEarlier(h, calls, n, k);
        }
        if k: nat :| TornBy(h, calls, n, k) {
          TornByEarlier(h, calls, n, k);
        }
      } else if ChoseTorn(h[n - 1], calls[n - 1]) {
        assert TornBy(h, calls, n, n - 1);
      }
    }
  }

  // ---- resuming on proven states ----

  predicate Settled(f: Files) {
    f.state.Some? && (f.switch.None? || Settling(f.switch.value.stage))
  }

  /** The state is published by a bootstrap, or proven by Freqtrade's heartbeat. */
  predicate Establishes(f: Files, c: Turn) {
    || (c.op.Bootstrap? && f.state.None?)
    || (c.op.Verify? && c.op.proofOk && InStage(f, VerifyingPair) && Projected(f))
  }

  lemma SettledStep(f: Files, c: Turn)
    requires FileInv(f) && Settled(After(f, c))
    ensures Establishes(f, c) || (Settled(f) && After(f, c).state == f.state)
  {
    match c.op
    case Bootstrap(_, _, _) => BootstrapShape(f, c);
    case Begin(_, _, _) => BeginShape(f, c);
    case Complete(_, _, _, _) => CompleteShape(f, c);
    case _ => OneStageShape(f, c);
  }

  /** Some call established this very state. */
  ghost predicate Proven(h: seq<Files>, calls: seq<Turn>, state: PairState)
    requires |h| == |calls| + 1
  {
    exists k :: 0 <= k < |calls| && Establishes(h[k], calls[k]) && h[k + 1].state == Some(state)
  }

  /** Whenever a resume is allowed, and in every stage but the replacing ones, the
      state is one that was bootstrapped or proven. */
  lemma {:induction false} SettledIsProven(h: seq<Files>, calls: seq<Turn>, n: nat)
    requires IsTrace(h, calls) && n < |h| && Settled(h[n])
    ensures Proven(h, calls, h[n].state.value)
  {
    if n > 0 {
      LastCall(h, calls, n);
      SettledStep(h[n - 1], calls[n - 1]);
      if Establishes(h[n - 1], calls[n - 1]) {
        assert h[n - 1 + 1] == h[n];
      } else {
        SettledIsProven(h, calls, n - 1);
      }
    }
  }

  lemma ReadyIsSettled(f: Files)
    requires FileInv(f) && ResumeReady(f)
    ensures Settled(f)
  {
  }

  // ---- changing the pair ----

  predicate Waits(f: Files, target: Pair) {
    InStage(f, WaitingManualSwap) && Status(f).value.target == Some(target)
  }

  lemma WaitsStep(f: Files, c: Turn, target: Pair)
    requires FileInv(f) && Waits(After(f, c), target)
    ensures Waits(f, target) || c.op == Begin(target, true, Flat)
  {
    match c.op
    case Bootstrap(_, _, _) => BootstrapShape(f, c);
    case Begin(_, _, _) => BeginShape(f, c);
    case Complete(_, _, _, _) => CompleteShape(f, c);
    case _ => OneStageShape(f, c);
  }

  /** Call `k` chose the target on a passed flat check, and it has waited since. */
  ghost predicate ChosenBy(h: seq<Files>, calls: seq<Turn>, n: nat, k: nat, target: Pair)
    requires n < |h| == |calls| + 1
  {
    k < n && calls[k].op == Begin(target, true, Flat) && forall j :: k < j <= n ==> Waits(h[j], target)
  }

  ghost predicate WasChosen(h: seq<Files>, calls: seq<Turn>, n: nat, target: Pair)
    requires n < |h| == |calls| + 1
  {
    exists k :: ChosenBy(h, calls, n, k, target)
  }

  lemma {:induction false} WaitsSince(h: seq<Files>, calls: seq<Turn>, n: nat, target: Pair)
    requires IsTrace(h, calls) && n < |h| && Waits(h[n], target)
    ensures WasChosen(h, calls, n, target)
  {
    if n > 0 {
      LastCall(h, calls, n);
      WaitsStep(h[n - 1], calls[n - 1], target);
      if Waits(h[n - 1], target) {
        WaitsSince(h, calls, n - 1, target);
        var k :| ChosenBy(h, calls, n - 1, k, target);
        assert ChosenBy(h, calls, n, k, target);
      } else {
        assert ChosenBy(h, calls, n, n - 1, target);
      }
    }
  }

  lemma ChangeStep(f: Files, c: Turn)
    requires FileInv(f) && f.state.Some? && After(f, c).state != f.state
    ensures c.op.Complete? && c.op.check.Flat? && c.op.targetValid && InStage(f, WaitingManualSwap)
    ensures After(f, c).state == Some(Successor(f, c.op.stamp)) && Projected(After(f, c))
    ensures Waits(f, Successor(f, c.op.stamp).pair)
  {
    match c.op
    case Bootstrap(_, _, _) => BootstrapShape(f, c);
    case Begin(_, _, _) => BeginShape(f, c);
    case Complete(_, _, _, _) => CompleteShape(f, c);
    case _ => OneStageShape(f, c);
  }

  /** The active pair changes only to a target chosen on one passed flat check and
      completed on another, generation plus one, its projections written first. */
  lemma PairChangesAfterTwoChecks(h: seq<Files>, calls: seq<Turn>, n: nat)
    requires IsTrace(h, calls) && n < |calls| && h[n].state.Some? && h[n + 1].state != h[n].state
    ensures calls[n].op.Complete? && calls[n].op.check.Flat? && calls[n].op.targetValid
    ensures h[n + 1].state.Some? && Projected(h[n + 1])
    ensures h[n + 1].state.value.generation == h[n].state.value.generation + 1
    ensures WasChosen(h, calls, n, h[n + 1].state.value.pair)
  {
    LastCall(h, calls, n + 1);
    ChangeStep(h[n], calls[n]);
    WaitsSince(h, calls, n, h[n + 1].state.value.pair);
  }

  // ---- the controller ----

  lemma {:induction false} PutConcat(f: Files, a: seq<Write>, b: seq<Write>)
    ensures PutAll(f, a + b) == PutAll(PutAll(f, a), b)
  {
    if b == [] {
      assert a + b == a;
    } else {
      var n := |b| - 1;
      assert (a + b)[..|a + b| - 1] == a + b[..n];
      PutConcat(f, a, b[..n]);
    }
  }

  lemma LivedOn(f: Files, a: seq<Write>, b: seq<Write>, life: nat)
    ensures life < |a| ==> Lived(a + b, life) == Lived(a, life)
    ensures life >= |a| ==> PutAll(f, Lived(a + b, life)) == PutAll(PutAll(f, a), Lived(b, life - |a|))
    ensures life >= |a| ==> |Lived(b, life - |a|)| <= life - |a|
  {
    if life < |a| {
      assert (a + b)[..life] == a[..life];
    } else {
      assert Lived(a + b, life) == a + Lived(b, life - |a|);
      PutConcat(f, a, Lived(b, life - |a|));
    }
  }

  lemma PutOne(f: Files, w: Write)
    ensures PutAll(f, [w]) == Put(f, w)
  {
    assert [w][..0] == [];
  }

  lemma PutUpTo(f: Files, ws: seq<Write>)
    ensures PutAll(f, ws[..0]) == f
    ensures |ws| >= 1 ==> PutAll(f, ws[..1]) == Put(f, ws[0])
    ensures |ws| >= 2 ==> PutAll(f, ws[..2]) == Put(Put(f, ws[0]), ws[1])
    ensures |ws| >= 3 ==> PutAll(f, ws[..3]) == Put(Put(Put(f, ws[0]), ws[1]), ws[2])
    ensures ws[..|ws|] == ws
  {
    if |ws| >= 1 { PutSnoc(f, ws, 0); }
    if |ws| >= 2 { PutSnoc(f, ws, 1); }
    if |ws| >= 3 { PutSnoc(f, ws, 2); }
  }

  lemma PublishedWhole(f: Files, next: PairState)
    ensures PutAll(f, Publication(next, 3)) == f.(state := Some(next), pairlist := Some(next), overlay := Some(next.pair))
    ensures forall raises :: raises >= 3 ==> Publication(next, raises) == Publication(next, 3)
  {
    PutUpTo(f, Publication(next, 3));
  }

  /** What every call does: the files are those after its turn, it is cut short
      exactly when the process does not live to make its writes, and it raises
      exactly when the files and the arguments refuse it. */
  predicate Ends(f: Files, lives: nat, op: Op, g: Files, left: nat, crashed: bool, refused: bool) {
    var c := Turn(op, lives);
    && g == After(f, c) && (crashed <==> Cut(f, c))
    && (!crashed ==> (refused <==> Refuses(f, op)) && left == lives - |Writes(f, op)|)
  }

  class PairController {
    var state: Option<PairState>
    var pairlist: Option<PairState>
    var overlay: Option<Pair>
    var switch: Option<Switch>
    // writes the process still lives to make; the environment's choice
    var life: nat
    // every call so far, and the files around them
    ghost var calls: seq<Turn>
    ghost var trace: seq<Files>

    function Now(): Files
      reads this
    {
      Files(state, pairlist, overlay, switch)
    }

    /** The files are those a history of calls leaves: what holds of every history
        holds here. */
    ghost predicate Valid()
      reads this
    {
      IsTrace(trace, calls) && Now() == trace[|calls|]
    }

    constructor (life: nat)
      ensures Valid() && Now() == NO_FILES && this.life == life && calls == []
    {
      state, pairlist, overlay, switch, this.life := None, None, None, None, life;
      calls, trace := [], [NO_FILES];
    }

    /** The process starts again: the files are all it has. */
    method Restart(life: nat)
      requires Valid()
      modifies `life
      ensures Valid() && this.life == life
    {
      this.life := life;
    }

    ghost method Remember(f: Files, lives: nat, op: Op)
      requires IsTrace(trace, calls) && f == trace[|calls|] && Now() == After(f, Turn(op, lives))
      modifies `calls, `trace
      ensures Valid() && calls == old(calls) + [Turn(op, lives)]
    {
      calls, trace := calls + [Turn(op, lives)], trace + [Now()];
    }

    /** `_switch_state`: one write of the stage file. */
    method SwitchState(stage: Stage, target: Option<Pair>) returns (r: Call<()>)
      modifies `switch, `life
      ensures r == if state.None? then Call.Refused else if old(life) == 0 then Crashed else Ok(())
      ensures r.Ok? ==> Now() == Staged(old(Now()), stage, target) && life == old(life) - 1
      ensures !r.Ok? ==> Now() == old(Now()) && life == old(life)
    {
      if state.None? {
        return Call.Refused;
      }
      if life == 0 {
        return Crashed;
      }
      life := life - 1;
      switch := Some(Switch(stage, state.value.pair, state.value.generation, target));
      return Ok(());
    }

    /** One more write is due: it raises, the process dies first, or it is made. */
    method Due(raises: bool) returns (r: Call<()>)
      modifies `life
      ensures r == if raises then Call.Refused else if old(life) == 0 then Crashed else Ok(())
      ensures life == if r.Ok? then old(life) - 1 else old(life)
    {
      if raises {
        return Call.Refused;
      }
      if life == 0 {
        return Crashed;
      }
      life := life - 1;
      return Ok(());
    }

    /** `_publish`: projections first, the authoritative state last.  The write
        numbered `raises` fails with an exception, and has then written nothing. */
    method Publish(next: PairState, raises: nat) returns (r: Call<()>)
      modifies `pairlist, `overlay, `state, `life
      ensures
        var ws := Publication(next, raises);
        && Now() == PutAll(old(Now()), Lived(ws, old(life)))
        && r == (if old(life) < |ws| then Crashed else if raises < 3 then Call.Refused else Ok(()))
        && (!r.Crashed? ==> life == old(life) - |ws|)
      ensures r.Ok? ==> state == Some(next) && pairlist == Some(next) && overlay == Some(next.pair)
      ensures r.Refused? ==> state == old(state)
      ensures switch == old(switch)
    {
      ghost var ws := Publication(next, raises);
      ghost var f := Now();
      r := Due(raises == 0);
      if !r.Ok? {
        return;
      }
      pairlist := Some(next);
      PutSnoc(f, ws, 0);
      r := Due(raises == 1);
      if !r.Ok? {
        return;
      }
      overlay := Some(next.pair);
      PutSnoc(f, ws, 1);
      r := Due(raises == 2);
      if !r.Ok? {
        return;
      }
      state := Some(next);
      PutSnoc(f, ws, 2);
    }

    /** `bootstrap`: refuses files that are only partly there or do not agree. */
    method Bootstrap(initial: Pair, stamp: int, raises: nat) returns (r: Call<PairState>)
      requires Valid()
      modifies this
      ensures Valid() && calls == old(calls) + [Turn(Op.Bootstrap(initial, stamp, raises), old(life))]
      ensures Ends(old(Now()), old(life), Op.Bootstrap(initial, stamp, raises), Now(), life, r.Crashed?, r.Refused?)
      ensures r.Ok? ==> Projected(Now()) && state == Some(r.value)
      ensures !Unused(old(Now())) ==> Now() == old(Now()) && (r.Ok? <==> Projected(Now()))
      ensures Unused(old(Now())) && r.Ok? ==> r.value == PairState(initial, 1, stamp) && switch == old(switch)
    {
      ghost var f, lives, op := Now(), life, Op.Bootstrap(initial, stamp, raises);
      if state.None? && pairlist.None? && overlay.None? {
        var next := PairState(initial, 1, stamp);
        var published := Publish(next, raises);
        Remember(f, lives, op);
        var _ :- published;
        return Ok(next);
      }
      Remember(f, lives, op);
      if state.None? || pairlist.None? || overlay.None? || !Projected(Now()) {
        return Call.Refused;
      }
      return Ok(state.value);
    }

    /** `begin_switch`: never touches the active pair or its projections. */
    method BeginSwitch(requested: Pair, eligible: bool, check: Check) returns (r: Call<bool>)
      requires Valid()
      modifies `switch, `life, `calls, `trace
      ensures Valid() && calls == old(calls) + [Turn(Begin(requested, eligible, check), old(life))]
      ensures Ends(old(Now()), old(life), Begin(requested, eligible, check), Now(), life, r.Crashed?, r.Refused?)
      ensures r.Ok? && !r.value ==>
                state.Some? && requested == state.value.pair && ResumeReady(Now())
                && (Projected(Now()) <==> Projected(old(Now())))
      ensures r.Ok? && r.value ==>
                state.Some? && requested != state.value.pair && eligible && check.Flat? && Waits(Now(), requested)
    {
      ghost var f, lives := Now(), life;
      r := Choose(requested, eligible, check);
      Remember(f, lives, Begin(requested, eligible, check));
    }

    method Choose(requested: Pair, eligible: bool, check: Check) returns (r: Call<bool>)
      modifies `switch, `life
      ensures Ends(old(Now()), old(life), Begin(requested, eligible, check), Now(), life, r.Crashed?, r.Refused?)
      ensures r.Ok? && !r.value ==>
                state.Some? && requested == state.value.pair && ResumeReady(Now())
                && (Projected(Now()) <==> Projected(old(Now())))
      ensures r.Ok? && r.value ==>
                state.Some? && requested != state.value.pair && eligible && check.Flat? && Waits(Now(), requested)
    {
      ghost var f, ws := Now(), Writes(Now(), Begin(requested, eligible, check));
      if !MayBegin(Now()) {
        return Call.Refused;
      }
      PutUpTo(f, ws);
      if requested == state.value.pair {
        var _ :- SwitchState(Active, None);
        return Ok(false);
      }
      if !eligible {
        return Call.Refused;
      }
      var _ :- SwitchState(Pausing, Some(requested));
      var _ :- SwitchState(Reconciling, Some(requested));
      if !check.Flat? {
        var _ :- SwitchState(Blocked, Some(requested));
        return Call.Refused;
      }
      var _ :- SwitchState(WaitingManualSwap, Some(requested));
      return Ok(true);
    }

    /** The only way the active pair changes: a target that passed a flat check
        when it was chosen passes another, and the generation grows by one. */
    method CompleteSwitch(check: Check, targetValid: bool, stamp: int, raises: nat) returns (r: Call<PairState>)
      requires Valid()
      modifies this
      ensures Valid() && calls == old(calls) + [Turn(Complete(check, targetValid, stamp, raises), old(life))]
      ensures Ends(old(Now()), old(life), Complete(check, targetValid, stamp, raises), Now(), life, r.Crashed?, r.Refused?)
      ensures r.Ok? ==> state == Some(r.value) && Projected(Now()) && InStage(Now(), VerifyingPair)
      ensures state != old(state) ==>
                && old(state).Some? && check.Flat? && targetValid && InStage(old(Now()), WaitingManualSwap)
                && state == Some(Successor(old(Now()), stamp)) && Projected(Now())
      ensures r.Refused? ==> state == old(state)
    {
      ghost var f, lives, op := Now(), life, Complete(check, targetValid, stamp, raises);
      TraceKeeps(trace, calls, |calls|);
      r := Confirm(check, targetValid, stamp, raises);
      Remember(f, lives, op);
      CompleteShape(f, Turn(op, lives));
    }

    method Confirm(check: Check, targetValid: bool, stamp: int, raises: nat) returns (r: Call<PairState>)
      requires FileInv(Now())
      modifies `switch, `pairlist, `overlay, `state, `life
      ensures Ends(old(Now()), old(life), Complete(check, targetValid, stamp, raises), Now(), life, r.Crashed?, r.Refused?)
      ensures r.Ok? ==> state == Some(r.value) && Projected(Now()) && InStage(Now(), VerifyingPair)
      ensures r.Refused? ==> state == old(state)
    {
      ghost var f, ws, lives := Now(), Writes(Now(), Complete(check, targetValid, stamp, raises)), life;
      if !InStage(Now(), WaitingManualSwap) {
        return Call.Refused;
      }
      var target := switch.value.target;
      PutUpTo(f, ws);
      var _ :- SwitchState(Reconciling, target);
      if !check.Flat? || !targetValid {
        var _ :- SwitchState(Blocked, target);
        return Call.Refused;
      }
      var _ :- SwitchState(ApplyingPair, target);
      var next := PairState(target.value, state.value.generation + 1, stamp);
      ghost var rest := Publication(next, raises) + [StageFile(if raises < 3 then Blocked else VerifyingPair, target)];
      assert ws == ws[..2] + rest;
      LivedOn(f, ws[..2], rest, lives);
      r := ApplyTarget(next, raises);
    }

    /** The publication of the target, and the stage that tells how it ended. */
    method ApplyTarget(next: PairState, raises: nat) returns (r: Call<PairState>)
      requires state.Some?
      modifies `switch, `pairlist, `overlay, `state, `life
      ensures
        var ws := Publication(next, raises) + [StageFile(if raises < 3 then Blocked else VerifyingPair, Some(next.pair))];
        && Now() == PutAll(old(Now()), Lived(ws, old(life)))
        && r == (if old(life) < |ws| then Crashed else if raises < 3 then Call.Refused else Ok(next))
        && (!r.Crashed? ==> life == old(life) - |ws|)
      ensures r.Ok? ==> state == Some(next) && Projected(Now()) && InStage(Now(), VerifyingPair)
      ensures r.Refused? ==> state == old(state)
    {
      ghost var f, lives := Now(), life;
      ghost var last := StageFile(if raises < 3 then Blocked else VerifyingPair, Some(next.pair));
      LivedOn(f, Publication(next, raises), [last], lives);
      PutOne(PutAll(f, Publication(next, raises)), last);
      var published := Publish(next, raises);
      if published.Refused? {
        var _ :- SwitchState(Blocked, Some(next.pair));
        return Call.Refused;
      }
      var _ :- published;
      var _ :- SwitchState(VerifyingPair, Some(next.pair));
      return Ok(next);
    }

    /** `mark_pair_verified`. */
    method MarkPairVerified(proofOk: bool) returns (r: Call<()>)
      requires Valid()
      modifies `switch, `life, `calls, `trace
      ensures Valid() && calls == old(calls) + [Turn(Verify(proofOk), old(life))]
      ensures Ends(old(Now()), old(life), Verify(proofOk), Now(), life, r.Crashed?, r.Refused?)
      ensures r.Ok? ==>
                proofOk && InStage(Now(), PausedReady) && Projected(Now()) && Proven(trace, calls, state.value)
    {
      ghost var f, lives, op := Now(), life, Verify(proofOk);
      TraceKeeps(trace, calls, |calls|);
      PutUpTo(f, Writes(f, op));
      if !InStage(Now(), VerifyingPair) || !proofOk || switch.value.target != Some(state.value.pair) {
        r := Call.Refused;
      } else {
        r := SwitchState(PausedReady, switch.value.target);
      }
      Remember(f, lives, op);
      if r.Ok? {
        SettledIsProven(trace, calls, |calls|);
      }
    }

    /** When a resume is allowed the state was bootstrapped or proven, and the
        projections are another pair's exactly when the still active pair was
        chosen on torn files and the files stayed resume-ready since. */
    lemma ResumeIsProven()
      requires Valid() && ResumeReady(Now())
      ensures state.Some? && Proven(trace, calls, state.value)
      ensures !Projected(Now()) <==> exists k :: TornBy(trace, calls, |calls|, k)
    {
      TraceKeeps(trace, calls, |calls|);
      ReadyIsSettled(Now());
      SettledIsProven(trace, calls, |calls|);
      ResumeTornIff(trace, calls, |calls|);
    }

    /** `require_resume_ready`. */
    method RequireResumeReady() returns (r: Call<Stage>)
      requires Valid()
      ensures !r.Crashed? && (r.Ok? <==> ResumeReady(Now()))
      ensures r.Ok? ==> Proven(trace, calls, state.value) && InStage(Now(), r.value)
    {
      var status := Status(Now());
      if status.Some? && (status.value.stage.Active? || status.value.stage.PausedReady?) {
        ResumeIsProven();
        return Ok(status.value.stage);
      }
      return Call.Refused;
    }

    /** `mark_active_after_resume`. */
    method MarkActiveAfterResume() returns (r: Call<()>)
      requires Valid()
      modifies `switch, `life, `calls, `trace
      ensures Valid() && calls == old(calls) + [Turn(Resume, old(life))]
      ensures Ends(old(Now()), old(life), Resume, Now(), life, r.Crashed?, r.Refused?)
      ensures !ResumeReady(old(Now())) ==> r.Refused? && Now() == old(Now())
      ensures r.Ok? ==> InStage(Now(), Active) && Proven(trace, calls, state.value)
      ensures Projected(Now()) <==> Projected(old(Now()))
    {
      ghost var f, lives := Now(), life;
      PutUpTo(f, Writes(f, Resume));
      var ready := RequireResumeReady();
      if ready.Ok? && ready.value.PausedReady? {
        r := SwitchState(Active, None);
      } else {
        r := if ready.Ok? then Ok(()) else Call.Refused;
      }
      Remember(f, lives, Resume);
      if r.Ok? {
        ResumeIsProven();
      }
    }
  }

  lemma FailedPublication(f: Files, c: Turn)
    requires c.op.Complete? && c.op.check.Flat? && c.op.targetValid && c.op.raises == 1 && c.life >= 4
    requires InStage(f, WaitingManualSwap) && f.switch.Some?
    ensures
      var target := Status(f).value.target;
      After(f, c) == Staged(f.(pairlist := Some(Successor(f, c.op.stamp))), Blocked, target)
  {
    var ws := Writes(f, c.op);
    var next := Successor(f, c.op.stamp);
    assert |ws| == 4 && ws[2] == ListFile(next);
    PutUpTo(f, ws);
    PutSnoc(f, ws, 3);
  }

  /** After a publication that failed part-way, choosing the still active pair
      clears the BLOCKED stage: resuming is allowed, while the projections belong
      to the pair that was never activated and a bootstrap would refuse them. */
  method ResumeOnTornFiles(a: Pair, b: Pair) returns (c: PairController)
    requires a != b
    ensures c.Valid() && ResumeReady(c.Now()) && !Projected(c.Now())
    ensures c.state.Some? && c.state.value.pair == a && c.pairlist.Some? && c.pairlist.value.pair == b
  {
    c := new PairController(100);
    var booted := c.Bootstrap(a, 0, 3);
    var chosen := c.BeginSwitch(b, true, Flat);
    FailedPublication(c.Now(), Turn(Complete(Flat, true, 1, 1), c.life));
    var failed := c.CompleteSwitch(Flat, true, 1, 1);
    var again := c.BeginSwitch(a, true, Flat);
  }
}
