/** Cancellation of one deployment against its one build run.

    `Cancel` writes the flag and then reads the registry; the run writes the registry
    and then reads the flag. The run is a fixed program of atomic actions; any number
    of `Cancel` calls interleave with it, and every read of the flag may fail.
 */
module CancelHandshake {
  import opened Domain

  datatype Action =
    | Register        // put the execution in the registry
    | ReadFlag        // beginExecution's read: cancels the context when the flag is set
    | CheckContext    // first half of checkCancelled
    | CheckFlag       // second half of checkCancelled
    | Clone
    | WriteMetadata
    | TakeSlot
    | MarkBuilding
    | BuildImage
    | ReadEnv
    | TakeLock
    | ReadActive
    | StartContainer
    | SaveCandidate
    | AwaitReady
    | SwitchRoute
    | SyncRoutes
    | Promote
    | Retire

  const FIRST_READ := 1
  const FIRST_CHECK := 3
  const GIT_CHECK := 7
  const MARK := 9
  const SECOND_CHECK := 11
  const BUILD := 12
  const START := 22
  const LAST_CHECK := 28
  const END := 31

  /** The run, in program order. Only a build from a repository goes through 4 to 7. */
  function ActionAt(pc: nat): Action {
    match pc
    case 0 => Register
    case 1 => ReadFlag
    case 2 => CheckContext
    case 3 => CheckFlag
    case 4 => Clone
    case 5 => WriteMetadata
    case 6 => CheckContext
    case 7 => CheckFlag
    case 8 => TakeSlot
    case 9 => MarkBuilding
    case 10 => CheckContext
    case 11 => CheckFlag
    case 12 => BuildImage
    case 13 => CheckContext
    case 14 => CheckFlag
    case 15 => ReadEnv
    case 16 => CheckContext
    case 17 => CheckFlag
    case 18 => TakeLock
    case 19 => ReadActive
    case 20 => CheckContext
    case 21 => CheckFlag
    case 22 => StartContainer
    case 23 => SaveCandidate
    case 24 => AwaitReady
    case 25 => SwitchRoute
    case 26 => SyncRoutes
    case 27 => CheckContext
    case 28 => CheckFlag
    case 29 => Promote
    case _ => Retire
  }

  /** The call is given the run's context, so it fails once that is done. */
  predicate UsesContext(a: Action) {
    match a
    case Register => false
    case ReadFlag => false
    case CheckContext => false
    case CheckFlag => false
    case TakeSlot => false
    case TakeLock => false
    case Retire => false
    case _ => true
  }

  /** How a run ends that does not promote. Only a plain failure is written with the run's context. */
  datatype Outcome = AsCancelled | AsFailed | AsTimedOut

  /** `Exiting` is about to write its outcome, `Leaving` about to leave the registry. */
  datatype Stage = At(pc: nat) | Exiting(outcome: Outcome) | Leaving | Gone

  datatype CancelStage = Admitted | Requested | FoundRun | FoundNone | Finished

  /** `answers` records, per program point, whether the read of the flag there succeeded. */
  datatype State = State(
    git: bool,
    status: Status,
    flag: bool,
    registered: bool,
    contextDone: bool,
    stage: Stage,
    answers: map<nat, bool>,
    imageBuilds: nat,
    containers: nat,
    cancels: map<nat, CancelStage>)

  datatype Step =
    | RunStep(ok: bool, timeout: bool)    // `timeout`: an unsuccessful build ran out of time
    | WriteOutcome(ok: bool)
    | Deregister
    | ContextEnds
    | AdmitCancel(id: nat)
    | RequestCancel(id: nat, ok: bool)
    | LookUp(id: nat)
    | Act(id: nat, ok: bool)

  function Initial(git: bool): State {
    State(git, Pending, false, false, false, At(0), map[], 0, 0, map[])
  }

  /** A wait is given up only because the context is done; if it is, either may happen. */
  predicate Waits(a: Action) {
    a.TakeSlot? || a.TakeLock?
  }

  predicate Enabled(s: State, e: Step) {
    match e
    case RunStep(ok, _) =>
      s.stage.At? && s.stage.pc < END && (Waits(ActionAt(s.stage.pc)) && !ok ==> s.contextDone)
    case WriteOutcome(_) => s.stage.Exiting?
    case Deregister => s.stage.Leaving?
    case ContextEnds => true
    case AdmitCancel(id) => id !in s.cancels && Cancellable(s.status)
    case RequestCancel(id, _) => id in s.cancels && s.cancels[id].Admitted?
    case LookUp(id) => id in s.cancels && s.cancels[id].Requested?
    case Act(id, _) => id in s.cancels && (s.cancels[id].FoundRun? || s.cancels[id].FoundNone?)
  }

  function Next(git: bool, pc: nat): Stage {
    if pc == FIRST_CHECK && !git then At(GIT_CHECK + 1) else if pc + 1 == END then Leaving else At(pc + 1)
  }

  function Run(s: State, ok: bool, timeout: bool): State
    requires s.stage.At? && s.stage.pc < END
  {
    var a := ActionAt(s.stage.pc);
    Perform(s, a, ok && !(s.contextDone && UsesContext(a)), timeout)
  }

  /** How an unsuccessful call ends the run: as cancelled when it was waiting for a slot or the lock, or
      when the context turns out to be done; three calls are recorded as failed all the same. */
  function OutcomeOf(action: Action, contextDone: bool, timeout: bool): Outcome {
    match action
    case TakeSlot => AsCancelled
    case TakeLock => AsCancelled
    case BuildImage => if contextDone then AsCancelled else if timeout then AsTimedOut else AsFailed
    case ReadActive => AsFailed
    case SaveCandidate => AsFailed
    case SyncRoutes => AsFailed
    case _ => if contextDone then AsCancelled else AsFailed
  }

  function Perform(s: State, action: Action, ok: bool, timeout: bool): State
    requires s.stage.At? && s.stage.pc < END
  {
    var pc := s.stage.pc;
    var next := Next(s.git, pc);
    var over := Exiting(OutcomeOf(action, s.contextDone, timeout));
    var started := if s.contextDone then 0 else 1;
    match action
    case Register => s.(registered := true, stage := next)
    case ReadFlag =>
      s.(answers := s.answers[pc := ok], contextDone := s.contextDone || (ok && s.flag), stage := next)
    case CheckContext => s.(stage := if s.contextDone then Exiting(AsCancelled) else next)
    case CheckFlag => s.(answers := s.answers[pc := ok], stage := if ok && s.flag then Exiting(AsCancelled) else next)
    case MarkBuilding => if ok then s.(status := Building, stage := next) else s.(stage := Leaving)
    case BuildImage => s.(imageBuilds := s.imageBuilds + started, stage := if ok then next else over)
    case StartContainer => s.(containers := s.containers + started, stage := if ok then next else over)
    case Promote => if ok then s.(status := Running, stage := next) else s.(stage := over)
    case Retire => s.(stage := next)
    case _ => s.(stage := if ok then next else over)
  }

  /** The write of the outcome takes effect. */
  predicate Written(s: State, ok: bool)
    requires s.stage.Exiting?
  {
    ok && !(s.stage.outcome.AsFailed? && s.contextDone)
  }

  function Apply(s: State, e: Step): State
    requires Enabled(s, e)
  {
    match e
    case RunStep(ok, timeout) => Run(s, ok, timeout)
    case WriteOutcome(ok) =>
      if !Written(s, ok) then s.(stage := Leaving)
      else if !s.stage.outcome.AsCancelled? then s.(stage := Leaving, status := Failed)
      else if Cancellable(s.status) then s.(stage := Leaving, status := Cancelled, flag := true)
      else s.(stage := Leaving)
    case Deregister => s.(stage := Gone, registered := false, contextDone := true)
    case ContextEnds => s.(contextDone := true)
    case AdmitCancel(id) => s.(cancels := s.cancels[id := Admitted])
    case RequestCancel(id, ok) =>
      if ok && Cancellable(s.status)
      then s.(status := CancelRequested, flag := true, cancels := s.cancels[id := Requested])
      else s.(cancels := s.cancels[id := Finished])
    case LookUp(id) => s.(cancels := s.cancels[id := if s.registered then FoundRun else FoundNone])
    case Act(id, ok) =>
      if s.cancels[id].FoundRun?
      then s.(contextDone := true, cancels := s.cancels[id := Finished])
      else s.(status := if ok && Cancellable(s.status) then Cancelled else s.status,
              cancels := s.cancels[id := Finished])
  }

  predicate IsRun(s: State, log: seq<Step>)
    decreases |log|, 0
  {
    log != [] ==> IsRun(s, log[..|log|-1]) && Enabled(After(s, log[..|log|-1]), log[|log|-1])
  }

  function After(s: State, log: seq<Step>): State
    requires IsRun(s, log)
    decreases |log|, 1
  {
    if log == [] then s else Apply(After(s, log[..|log|-1]), log[|log|-1])
  }

  // ----- the invariant -----

  ghost predicate Asked(c: CancelStage) {
    c.Requested? || c.FoundRun? || c.FoundNone?
  }

  /** Registered exactly between the registry write and the registry delete; a cancel past its
      request has left the flag set; a row runs only once its run has promoted it. */
  ghost predicate Inv(s: State) {
    && (s.stage.At? ==> s.stage.pc < END && (FIRST_CHECK < s.stage.pc <= GIT_CHECK ==> s.git))
    && (s.registered <==> s.stage != At(0) && !s.stage.Gone?)
    && (forall id | id in s.cancels :: Asked(s.cancels[id]) ==> s.flag)
    && (s.status == Running ==> s.stage == At(END - 1) || s.stage.Leaving? || s.stage.Gone?)
    && (s.stage == At(END - 1) ==> s.status == Running)
    && (s.status == Cancelled || s.status == CancelRequested ==> s.flag)
    && Answered(s)
  }

  /** A program point behind the run has been answered. */
  ghost predicate Answered(s: State) {
    s.stage.At? ==>
      && (s.stage.pc > FIRST_READ ==> FIRST_READ in s.answers)
      && (s.stage.pc > FIRST_CHECK ==> FIRST_CHECK in s.answers)
      && (s.stage.pc > GIT_CHECK && s.git ==> GIT_CHECK in s.answers)
      && (s.stage.pc > SECOND_CHECK ==> SECOND_CHECK in s.answers)
      && (s.stage.pc > LAST_CHECK ==> LAST_CHECK in s.answers)
  }

  /** Where the actions that matter stand in the program. */
  lemma Layout(pc: nat)
    requires pc < END
    ensures ActionAt(pc).Register? <==> pc == 0
    ensures ActionAt(pc).ReadFlag? <==> pc == FIRST_READ
    ensures pc == FIRST_READ + 1 ==> ActionAt(pc).CheckContext?
    ensures pc == FIRST_CHECK || pc == GIT_CHECK || pc == SECOND_CHECK || pc == LAST_CHECK ==> ActionAt(pc).CheckFlag?
    ensures ActionAt(pc).CheckFlag? <==> pc in {3, 7, 11, 14, 17, 21, 28}
    ensures ActionAt(pc).CheckContext? <==> pc in {2, 6, 10, 13, 16, 20, 27}
    ensures ActionAt(pc).StartContainer? <==> pc == START
    ensures ActionAt(pc).MarkBuilding? <==> pc == MARK
    ensures ActionAt(pc).BuildImage? || ActionAt(pc).StartContainer? ==> pc > SECOND_CHECK
    ensures ActionAt(pc).BuildImage? <==> pc == BUILD
    ensures ActionAt(pc).Promote? <==> pc == END - 2
    ensures ActionAt(pc).Retire? <==> pc == END - 1
  {
  }

  /** An action that does nothing but go on or end the run. */
  predicate Plain(a: Action) {
    !a.Register? && !a.ReadFlag? && !a.CheckContext? && !a.CheckFlag? && !a.MarkBuilding? && !a.BuildImage? &&
    !a.StartContainer? && !a.Promote? && !a.Retire?
  }

  lemma PlainPerform(s: State, a: Action, ok: bool, timeout: bool)
    requires s.stage.At? && s.stage.pc < END && Plain(a)
    ensures Perform(s, a, ok, timeout) ==
            s.(stage := if ok then Next(s.git, s.stage.pc) else Exiting(OutcomeOf(a, s.contextDone, timeout)))
  {
  }

  lemma PerformShape(s: State, a: Action, ok: bool, timeout: bool)
    requires s.stage.At? && s.stage.pc < END
    ensures var t := Perform(s, a, ok, timeout);
            && t.git == s.git && t.flag == s.flag && t.cancels == s.cancels
            && t.registered == (s.registered || a.Register?)
            && t.contextDone == (s.contextDone || (a.ReadFlag? && ok && s.flag))
  {
    if Plain(a) { PlainPerform(s, a, ok, timeout); }
  }

  lemma PerformRow(s: State, a: Action, ok: bool, timeout: bool)
    requires s.stage.At? && s.stage.pc < END
    ensures Perform(s, a, ok, timeout).status ==
            if a.MarkBuilding? && ok then Building else if a.Promote? && ok then Running else s.status
    ensures Perform(s, a, ok, timeout).answers ==
            if a.ReadFlag? || a.CheckFlag? then s.answers[s.stage.pc := ok] else s.answers
  {
    if Plain(a) { PlainPerform(s, a, ok, timeout); }
  }

  lemma PerformWork(s: State, a: Action, ok: bool, timeout: bool)
    requires s.stage.At? && s.stage.pc < END
    ensures var t := Perform(s, a, ok, timeout);
            && t.imageBuilds == s.imageBuilds + (if a.BuildImage? && !s.contextDone then 1 else 0)
            && t.containers == s.containers + (if a.StartContainer? && !s.contextDone then 1 else 0)
  {
    if Plain(a) { PlainPerform(s, a, ok, timeout); }
  }

  lemma PerformStage(s: State, a: Action, ok: bool, timeout: bool)
    requires s.stage.At? && s.stage.pc < END
    ensures var t := Perform(s, a, ok, timeout); var next := Next(s.git, s.stage.pc);
            && (t.stage == next || t.stage.Exiting? || (a.MarkBuilding? && t.stage.Leaving?))
            && (a.Register? || a.ReadFlag? || a.Retire? ==> t.stage == next)
            && (a.CheckContext? ==> t.stage == if s.contextDone then Exiting(AsCancelled) else next)
            && (a.CheckFlag? ==> t.stage == if ok && s.flag then Exiting(AsCancelled) else next)
            && (a.MarkBuilding? ==> t.stage == if ok then next else Leaving)
            && (a.Promote? && ok ==> t.stage == next)
            && (ok && !a.CheckContext? && !a.CheckFlag? ==> t.stage == next)
  {
    if Plain(a) { PlainPerform(s, a, ok, timeout); }
  }

  lemma PerformExit(s: State, a: Action, ok: bool, timeout: bool)
    requires s.stage.At? && s.stage.pc < END
    ensures var t := Perform(s, a, ok, timeout);
            && (s.contextDone && t.stage.Exiting? ==> !t.stage.outcome.AsTimedOut?)
            && (a.TakeSlot? && t.stage.Exiting? ==> t.stage.outcome.AsCancelled?)
  {
  }

  /** The call at the run's program point succeeds. */
  predicate Succeeds(s: State, ok: bool)
    requires s.stage.At?
  {
    ok && !(s.contextDone && UsesContext(ActionAt(s.stage.pc)))
  }

  /** What an action of the run does to everything but the program point, by position. */
  lemma RunShape(s: State, ok: bool, timeout: bool)
    requires s.stage.At? && s.stage.pc < END
    ensures var t := Run(s, ok, timeout); var pc := s.stage.pc; var works := Succeeds(s, ok);
            && t.git == s.git && t.flag == s.flag && t.cancels == s.cancels
            && t.registered == (s.registered || pc == 0)
            && t.contextDone == (s.contextDone || (pc == FIRST_READ && ok && s.flag))
            && t.status == (if pc == MARK && works then Building
                            else if pc == END - 2 && works then Running else s.status)
            && (pc <= SECOND_CHECK || s.contextDone ==> SameWork(s, t))
            && (pc == BUILD && !s.contextDone ==> t.imageBuilds == s.imageBuilds + 1)
            && t.imageBuilds >= s.imageBuilds && t.containers >= s.containers
  {
    Layout(s.stage.pc);
    PerformShape(s, ActionAt(s.stage.pc), Succeeds(s, ok), timeout);
    PerformRow(s, ActionAt(s.stage.pc), Succeeds(s, ok), timeout);
    PerformWork(s, ActionAt(s.stage.pc), Succeeds(s, ok), timeout);
  }

  /** No image build and no container was started in between. */
  ghost predicate SameWork(s: State, t: State) {
    t.imageBuilds == s.imageBuilds && t.containers == s.containers
  }

  lemma RunStage(s: State, ok: bool, timeout: bool)
    requires s.stage.At? && s.stage.pc < END
    ensures var t := Run(s, ok, timeout); var pc := s.stage.pc; var next := Next(s.git, pc);
            && (t.stage == next || t.stage.Exiting? || (pc == MARK && t.stage.Leaving?))
            && (pc <= FIRST_READ || pc == END - 1 ==> t.stage == next)
            && (pc == FIRST_READ + 1 ==> t.stage == if s.contextDone then Exiting(AsCancelled) else next)
            && (pc == FIRST_CHECK ==> t.stage == if ok && s.flag then Exiting(AsCancelled) else next)
            && (pc == MARK ==> t.stage == if Succeeds(s, ok) then next else Leaving)
            && (pc == END - 2 && Succeeds(s, ok) ==> t.stage == next)
            && (pc == GIT_CHECK + 1 && t.stage.Exiting? ==> t.stage.outcome.AsCancelled?)
            && (s.contextDone && t.stage.Exiting? ==> !t.stage.outcome.AsTimedOut?)
  {
    Layout(s.stage.pc);
    PerformStage(s, ActionAt(s.stage.pc), Succeeds(s, ok), timeout);
    PerformExit(s, ActionAt(s.stage.pc), Succeeds(s, ok), timeout);
  }

  /** A check that reads the flag stops the run; one that does not is remembered as a failed read. */
  lemma RunAnswers(s: State, ok: bool, timeout: bool)
    requires s.stage.At? && s.stage.pc < END
    ensures var t := Run(s, ok, timeout); var pc := s.stage.pc;
            && (forall p | p in s.answers && p != pc :: p in t.answers && t.answers[p] == s.answers[p])
            && (pc == FIRST_READ ==> pc in t.answers && t.answers[pc] == ok)
            && (pc == FIRST_CHECK || pc == GIT_CHECK || pc == SECOND_CHECK || pc == LAST_CHECK ==>
                  && pc in t.answers && t.answers[pc] == ok
                  && t.stage == if ok && s.flag then Exiting(AsCancelled) else Next(s.git, pc))
  {
    Layout(s.stage.pc);
    PerformShape(s, ActionAt(s.stage.pc), Succeeds(s, ok), timeout);
    PerformRow(s, ActionAt(s.stage.pc), Succeeds(s, ok), timeout);
    PerformStage(s, ActionAt(s.stage.pc), Succeeds(s, ok), timeout);
  }

  lemma RunStepKeepsInv(s: State, ok: bool, timeout: bool)
    requires Inv(s) && s.stage.At? && s.stage.pc < END
    ensures Inv(Run(s, ok, timeout))
  {
    RunShape(s, ok, timeout);
    RunStage(s, ok, timeout);
    RunAnswers(s, ok, timeout);
  }

  lemma StepKeepsInv(s: State, e: Step)
    requires Inv(s) && Enabled(s, e)
    ensures Inv(Apply(s, e))
  {
    if e.RunStep? { RunStepKeepsInv(s, e.ok, e.timeout); }
  }

  lemma {:induction false} RunKeepsInv(s: State, log: seq<Step>)
    requires Inv(s) && IsRun(s, log)
    ensures Inv(After(s, log))
    decreases |log|
  {
    if log != [] {
      RunKeepsInv(s, log[..|log|-1]);
      StepKeepsInv(After(s, log[..|log|-1]), log[|log|-1]);
    }
  }

  lemma InitialInv(git: bool)
    ensures Inv(Initial(git))
  {
  }

  predicate ReadFailed(s: State, point: nat) {
    point in s.answers && !s.answers[point]
  }

  // ----- an empty look-up stops the run -----

  /** No execution is registered and the flag is up: what a cancel that finds none has seen.
      From here on the run only gets past a read of the flag when that read fails. */
  ghost predicate Doomed(s: State) {
    && s.flag
    && (s.stage.At? ==>
          && (s.stage.pc > FIRST_READ ==> ReadFailed(s, FIRST_READ) || s.contextDone)
          && (s.stage.pc > FIRST_READ + 1 ==> ReadFailed(s, FIRST_READ))
          && (s.stage.pc > FIRST_CHECK ==> ReadFailed(s, FIRST_CHECK))
          && (s.stage.pc > GIT_CHECK && s.git ==> ReadFailed(s, GIT_CHECK))
          && (s.stage.pc > SECOND_CHECK ==> ReadFailed(s, SECOND_CHECK)))
    && (s.stage.Exiting? && !s.stage.outcome.AsCancelled? ==> FirstReadsFailed(s))
  }

  ghost predicate FirstReadsFailed(s: State) {
    ReadFailed(s, FIRST_READ) && ReadFailed(s, FIRST_CHECK)
  }

  /** Every read that the run makes before it builds. */
  ghost predicate AllEarlyReadsFailed(s: State) {
    FirstReadsFailed(s) && (s.git ==> ReadFailed(s, GIT_CHECK)) && ReadFailed(s, SECOND_CHECK)
  }

  /** The run got past all these reads because none of them worked. */
  ghost predicate Escaped(s: State) {
    AllEarlyReadsFailed(s) && (s.stage.At? ==> s.stage.pc > SECOND_CHECK)
  }

  lemma RunStepStaysDoomed(s: State, ok: bool, timeout: bool)
    requires Inv(s) && Doomed(s) && s.stage.At? && s.stage.pc < END
    ensures var t := Run(s, ok, timeout);
            Doomed(t) && (SameWork(s, t) || Escaped(t)) && (Escaped(s) ==> Escaped(t))
  {
    RunShape(s, ok, timeout);
    RunStage(s, ok, timeout);
    RunAnswers(s, ok, timeout);
  }

  lemma StepStaysDoomed(s: State, e: Step)
    requires Inv(s) && Doomed(s) && Enabled(s, e)
    ensures var t := Apply(s, e);
            Doomed(t) && (SameWork(s, t) || Escaped(t)) && (Escaped(s) ==> Escaped(t))
  {
    if e.RunStep? { RunStepStaysDoomed(s, e.ok, e.timeout); }
  }

  lemma {:induction false} DoomedRun(s: State, log: seq<Step>)
    requires Inv(s) && Doomed(s) && IsRun(s, log)
    ensures Doomed(After(s, log))
    ensures SameWork(s, After(s, log)) || Escaped(After(s, log))
    decreases |log|
  {
    if log != [] {
      var front, e := log[..|log|-1], log[|log|-1];
      DoomedRun(s, front);
      RunKeepsInv(s, front);
      StepStaysDoomed(After(s, front), e);
    }
  }

  /** When `Cancel` finds no registered execution, the run starts no image build and no container
      afterwards, unless every one of its reads of the flag up to the build failed. */
  lemma EmptyLookUpStopsTheRun(git: bool, before: seq<Step>, id: nat, log: seq<Step>)
    requires IsRun(Initial(git), before) && Enabled(After(Initial(git), before), LookUp(id))
    requires !After(Initial(git), before).registered
    requires IsRun(Apply(After(Initial(git), before), LookUp(id)), log)
    ensures var s := After(Initial(git), before); var t := After(Apply(s, LookUp(id)), log);
            !AllEarlyReadsFailed(t) ==> SameWork(s, t)
  {
    InitialInv(git);
    RunKeepsInv(Initial(git), before);
    var s := After(Initial(git), before);
    StepKeepsInv(s, LookUp(id));
    DoomedRun(Apply(s, LookUp(id)), log);
  }

  lemma Extend(s: State, log: seq<Step>, e: Step)
    requires IsRun(s, log) && Enabled(After(s, log), e)
    ensures IsRun(s, log + [e]) && After(s, log + [e]) == Apply(After(s, log), e)
  {
  }

  lemma {:induction false} Prepend(s: State, e: Step, log: seq<Step>)
    requires Enabled(s, e) && IsRun(Apply(s, e), log)
    ensures IsRun(s, [e] + log) && After(s, [e] + log) == After(Apply(s, e), log)
    decreases |log|
  {
    if log == [] {
      Extend(s, [], e);
      assert [] + [e] == [e] + log;
    } else {
      var front, last := log[..|log|-1], log[|log|-1];
      Prepend(s, e, front);
      Extend(s, [e] + front, last);
      assert ([e] + front) + [last] == [e] + log;
    }
  }

  // ----- a run that reads nothing -----

  /** The step in which the run's next call succeeds, unless it reads the flag. */
  function BlindStep(s: State): Step
    requires s.stage.At? && s.stage.pc < END
  {
    RunStep(!ActionAt(s.stage.pc).ReadFlag? && !ActionAt(s.stage.pc).CheckFlag?, false)
  }

  lemma BlindStepPasses(s: State)
    requires s.stage.At? && s.stage.pc < END && !s.contextDone
    ensures var t := Apply(s, BlindStep(s)); var pc := s.stage.pc;
            && t.stage == Next(s.git, pc) && !t.contextDone && t.cancels == s.cancels && t.git == s.git
            && t.status == (if pc == MARK then Building else if pc == END - 2 then Running else s.status)
            && t.imageBuilds >= s.imageBuilds && t.containers >= s.containers
            && (pc == BUILD ==> t.imageBuilds == s.imageBuilds + 1)
  {
    Layout(s.stage.pc);
    PerformShape(s, ActionAt(s.stage.pc), BlindStep(s).ok, false);
    PerformRow(s, ActionAt(s.stage.pc), BlindStep(s).ok, false);
    PerformWork(s, ActionAt(s.stage.pc), BlindStep(s).ok, false);
    PerformStage(s, ActionAt(s.stage.pc), BlindStep(s).ok, false);
  }

  /** With every read failing and every other call succeeding a run whose context is live gets as far as it likes. */
  lemma {:induction false} BlindTo(s: State, goal: nat) returns (log: seq<Step>)
    requires s.stage.At? && s.stage.pc <= goal && GIT_CHECK < goal < END - 1 && !s.contextDone
    ensures IsRun(s, log)
    ensures var t := After(s, log);
            && t.stage == At(goal) && !t.contextDone && t.cancels == s.cancels && t.git == s.git
            && t.status == (if s.stage.pc <= MARK < goal then Building else s.status)
            && t.imageBuilds >= s.imageBuilds && t.containers >= s.containers
    decreases goal - s.stage.pc
  {
    log := [];
    if s.stage.pc < goal {
      BlindStepPasses(s);
      var rest := BlindTo(Apply(s, BlindStep(s)), goal);
      Prepend(s, BlindStep(s), rest);
      log := [BlindStep(s)] + rest;
    }
  }

  // ----- exactly when an empty look-up stops the run -----

  /** The run is over, or its context is done. */
  ghost predicate Halted(s: State) {
    s.stage.At? ==> s.contextDone && s.stage.pc < END
  }

  lemma StepStaysHalted(s: State, e: Step)
    requires Halted(s) && Enabled(s, e)
    ensures Halted(Apply(s, e)) && SameWork(s, Apply(s, e))
  {
    if e.RunStep? {
      RunShape(s, e.ok, e.timeout);
      RunStage(s, e.ok, e.timeout);
    }
  }

  lemma {:induction false} HaltedRun(s: State, log: seq<Step>)
    requires Halted(s) && IsRun(s, log)
    ensures Halted(After(s, log)) && SameWork(s, After(s, log))
    decreases |log|
  {
    if log != [] {
      var front, e := log[..|log|-1], log[|log|-1];
      HaltedRun(s, front);
      StepStaysHalted(After(s, front), e);
    }
  }

  lemma BuildsBlind(s: State) returns (log: seq<Step>)
    requires s.stage.At? && s.stage.pc <= BUILD && !s.contextDone
    ensures IsRun(s, log) && After(s, log).imageBuilds > s.imageBuilds && After(s, log).cancels == s.cancels
    ensures s.stage.pc <= MARK ==> After(s, log).status == Building
  {
    log := BlindTo(s, BUILD);
    var t := After(s, log);
    BlindStepPasses(t);
    Extend(s, log, BlindStep(t));
    log := log + [BlindStep(t)];
  }

  /** After an empty look-up some continuation builds an image or starts a container if and only if
      the run has yet to register and its context is live. */
  lemma EmptyLookUpIsExact(s: State, id: nat)
    requires Inv(s) && Enabled(s, LookUp(id)) && !s.registered
    ensures var t := Apply(s, LookUp(id));
            (exists log :: IsRun(t, log) && !SameWork(t, After(t, log))) <==> s.stage == At(0) && !s.contextDone
  {
    var t := Apply(s, LookUp(id));
    if s.stage == At(0) && !s.contextDone {
      var log := BuildsBlind(t);
      assert IsRun(t, log) && !SameWork(t, After(t, log));
    } else {
      forall log | IsRun(t, log) ensures SameWork(t, After(t, log)) { HaltedRun(t, log); }
    }
  }

  // ----- the last check decides -----

  /** The flag is up, and the last check either still lies ahead or failed to read it. */
  ghost predicate SeenInTime(s: State) {
    s.flag && s.status != Running && (s.stage.At? ==> s.stage.pc <= LAST_CHECK)
  }

  ghost predicate Missed(s: State) {
    ReadFailed(s, LAST_CHECK) && (s.stage.At? ==> s.stage.pc > LAST_CHECK)
  }

  lemma StepStaysSeen(s: State, e: Step)
    requires Inv(s) && (SeenInTime(s) || Missed(s)) && Enabled(s, e)
    ensures SeenInTime(Apply(s, e)) || Missed(Apply(s, e))
  {
    if e.RunStep? {
      RunShape(s, e.ok, e.timeout);
      RunStage(s, e.ok, e.timeout);
      RunAnswers(s, e.ok, e.timeout);
    }
  }

  /** A flag written before the last check is made keeps the row from ever being promoted by
      that run, unless the last check fails to read it. */
  lemma {:induction false} LastCheckDecides(s: State, log: seq<Step>)
    requires Inv(s) && SeenInTime(s) && IsRun(s, log)
    ensures After(s, log).status == Running ==> ReadFailed(After(s, log), LAST_CHECK)
    ensures SeenInTime(After(s, log)) || Missed(After(s, log))
    decreases |log|
  {
    if log != [] {
      LastCheckDecides(s, log[..|log|-1]);
      RunKeepsInv(s, log[..|log|-1]);
      StepStaysSeen(After(s, log[..|log|-1]), log[|log|-1]);
    }
  }

  lemma StepStaysBarred(s: State, e: Step)
    requires Halted(s) && s.status != Running && Enabled(s, e)
    ensures Apply(s, e).status != Running
  {
    if e.RunStep? {
      Layout(s.stage.pc);
      RunShape(s, e.ok, e.timeout);
    }
  }

  lemma {:induction false} BarredRun(s: State, log: seq<Step>)
    requires Halted(s) && s.status != Running && IsRun(s, log)
    ensures Halted(After(s, log)) && After(s, log).status != Running
    decreases |log|
  {
    if log != [] {
      var front, e := log[..|log|-1], log[|log|-1];
      BarredRun(s, front);
      StepStaysHalted(After(s, front), e);
      StepStaysBarred(After(s, front), e);
    }
  }

  lemma PromotesBlind(s: State) returns (log: seq<Step>)
    requires s.stage.At? && s.stage.pc <= END - 2 && !s.contextDone
    ensures IsRun(s, log) && After(s, log).status == Running
  {
    log := BlindTo(s, END - 2);
    var t := After(s, log);
    BlindStepPasses(t);
    Extend(s, log, BlindStep(t));
    log := log + [BlindStep(t)];
  }

  /** With the flag up in time the run can still end in running, which takes a failing read at the
      last check, if and only if it is under way and its context is live. */
  lemma LastCheckIsExact(s: State)
    requires Inv(s) && SeenInTime(s)
    ensures (exists log :: IsRun(s, log) && After(s, log).status == Running) <==> s.stage.At? && !s.contextDone
    ensures forall log | IsRun(s, log) && After(s, log).status == Running :: ReadFailed(After(s, log), LAST_CHECK)
  {
    if s.stage.At? && !s.contextDone {
      var log := PromotesBlind(s);
    } else {
      forall log | IsRun(s, log) ensures After(s, log).status != Running { BarredRun(s, log); }
    }
    forall log | IsRun(s, log) && After(s, log).status == Running ensures ReadFailed(After(s, log), LAST_CHECK) {
      LastCheckDecides(s, log);
    }
  }

  /** Past the last check a request is accepted and yet the row can be promoted, exactly if the context is live. */
  lemma LateRequestIsTooLate(s: State, id: nat)
    requires Inv(s) && s.stage == At(LAST_CHECK + 1) && Cancellable(s.status) && id !in s.cancels
    ensures var t := Apply(Apply(s, AdmitCancel(id)), RequestCancel(id, true));
            && t.flag && t.status == CancelRequested
            && ((exists log :: IsRun(t, log) && After(t, log).status == Running) <==> !s.contextDone)
  {
    var t := Apply(Apply(s, AdmitCancel(id)), RequestCancel(id, true));
    if !s.contextDone {
      var log := PromotesBlind(t);
    } else {
      forall log | IsRun(t, log) ensures After(t, log).status != Running { BarredRun(t, log); }
    }
  }

  // ----- terminal statuses -----

  lemma StepKeepsRunning(s: State, e: Step)
    requires Inv(s) && s.status == Running && Enabled(s, e)
    ensures Apply(s, e).status == Running
  {
    if e.RunStep? { RunShape(s, e.ok, e.timeout); }
  }

  /** A running row is never turned into anything else, by this run or by any cancel. */
  lemma {:induction false} RunningIsTerminal(s: State, log: seq<Step>)
    requires Inv(s) && s.status == Running && IsRun(s, log)
    ensures After(s, log).status == Running
    decreases |log|
  {
    if log != [] {
      var front, e := log[..|log|-1], log[|log|-1];
      RunningIsTerminal(s, front);
      RunKeepsInv(s, front);
      StepKeepsRunning(After(s, front), e);
    }
  }

  /** A cancel that found no execution, or a cancelled row, means the run is doomed. */
  ghost predicate CancelledInv(s: State) {
    && (forall id | id in s.cancels && s.cancels[id].FoundNone? :: Doomed(s))
    && (s.status == Cancelled ==> Doomed(s))
  }

  lemma StepKeepsCancelledInv(s: State, e: Step)
    requires Inv(s) && CancelledInv(s) && Enabled(s, e)
    ensures CancelledInv(Apply(s, e))
  {
    if Doomed(s) { StepStaysDoomed(s, e); }
    if e.RunStep? { RunShape(s, e.ok, e.timeout); }
  }

  lemma {:induction false} RunKeepsCancelledInv(git: bool, log: seq<Step>)
    requires IsRun(Initial(git), log)
    ensures Inv(After(Initial(git), log)) && CancelledInv(After(Initial(git), log))
    decreases |log|
  {
    InitialInv(git);
    if log != [] {
      RunKeepsCancelledInv(git, log[..|log|-1]);
      StepKeepsCancelledInv(After(Initial(git), log[..|log|-1]), log[|log|-1]);
      StepKeepsInv(After(Initial(git), log[..|log|-1]), log[|log|-1]);
    }
  }

  ghost predicate StaysCancelled(s: State) {
    (s.status == Cancelled && Doomed(s)) || (FirstReadsFailed(s) && (s.stage.At? ==> s.stage.pc > FIRST_CHECK))
  }

  lemma StepStaysCancelled(s: State, e: Step)
    requires Inv(s) && StaysCancelled(s) && Enabled(s, e)
    ensures StaysCancelled(Apply(s, e))
  {
    if Doomed(s) { StepStaysDoomed(s, e); }
    if e.RunStep? {
      RunShape(s, e.ok, e.timeout);
      RunStage(s, e.ok, e.timeout);
      RunAnswers(s, e.ok, e.timeout);
    }
  }

  /** Once a reachable row is cancelled it stays cancelled, although the run's own status writes
      are unguarded, unless both of the run's first reads of the flag failed. */
  lemma {:induction false} CancelledIsTerminal(git: bool, before: seq<Step>, log: seq<Step>)
    requires IsRun(Initial(git), before) && After(Initial(git), before).status == Cancelled
    requires IsRun(After(Initial(git), before), log)
    ensures var t := After(After(Initial(git), before), log);
            StaysCancelled(t) && (t.status == Cancelled || FirstReadsFailed(t))
    decreases |log|
  {
    RunKeepsCancelledInv(git, before);
    var s := After(Initial(git), before);
    if log != [] {
      CancelledIsTerminal(git, before, log[..|log|-1]);
      RunKeepsInv(s, log[..|log|-1]);
      StepStaysCancelled(After(s, log[..|log|-1]), log[|log|-1]);
    }
  }

  // ----- exactly when a cancelled row can be left -----

  /** The run can still write its row: it has a live context, or is about to record a build that ran out of time. */
  predicate CanBeLeft(s: State) {
    match s.stage
    case At(pc) => pc < END - 1 && !s.contextDone
    case Exiting(outcome) => outcome.AsTimedOut? || (outcome.AsFailed? && !s.contextDone)
    case _ => false
  }

  lemma StepStaysStuck(s: State, e: Step)
    requires s.status == Cancelled && !CanBeLeft(s) && Enabled(s, e)
    ensures Apply(s, e).status == Cancelled && !CanBeLeft(Apply(s, e))
  {
    if e.RunStep? {
      Layout(s.stage.pc);
      RunShape(s, e.ok, e.timeout);
      RunStage(s, e.ok, e.timeout);
    }
  }

  lemma {:induction false} StuckRun(s: State, log: seq<Step>)
    requires s.status == Cancelled && !CanBeLeft(s) && IsRun(s, log)
    ensures After(s, log).status == Cancelled && !CanBeLeft(After(s, log))
    decreases |log|
  {
    if log != [] {
      StuckRun(s, log[..|log|-1]);
      StepStaysStuck(After(s, log[..|log|-1]), log[|log|-1]);
    }
  }

  lemma LeavesCancelled(s: State) returns (log: seq<Step>)
    requires s.status == Cancelled && CanBeLeft(s)
    ensures IsRun(s, log) && After(s, log).status != Cancelled
  {
    if s.stage.Exiting? {
      Extend(s, [], WriteOutcome(true));
      log := [] + [WriteOutcome(true)];
    } else {
      log := PromotesBlind(s);
    }
  }

  /** A cancelled row can be left again if and only if its run is under way, or about to record a failure,
      with a live context, or is about to record that its build ran out of time. */
  lemma CancelledIsExact(s: State)
    requires s.status == Cancelled
    ensures (exists log :: IsRun(s, log) && After(s, log).status != Cancelled) <==> CanBeLeft(s)
  {
    if CanBeLeft(s) {
      var log := LeavesCancelled(s);
    } else {
      forall log | IsRun(s, log) ensures After(s, log).status == Cancelled { StuckRun(s, log); }
    }
  }

  /** `Cancel` has found no execution; its run has yet to register. */
  function Unseen(git: bool): State {
    Initial(git).(status := CancelRequested, flag := true, cancels := map[0 := FoundNone])
  }

  /** What can follow from there can follow from the start. */
  lemma FromUnseen(git: bool, rest: seq<Step>) returns (log: seq<Step>)
    requires IsRun(Unseen(git), rest)
    ensures IsRun(Initial(git), log) && After(Initial(git), log) == After(Unseen(git), rest)
  {
    var s0 := Initial(git);
    var s1 := s0.(cancels := map[0 := Admitted]);
    var s2 := s0.(status := CancelRequested, flag := true, cancels := map[0 := Requested]);
    assert Apply(s0, AdmitCancel(0)) == s1;
    assert Apply(s1, RequestCancel(0, true)) == s2;
    assert Apply(s2, LookUp(0)) == Unseen(git);
    Prepend(s2, LookUp(0), rest);
    Prepend(s1, RequestCancel(0, true), [LookUp(0)] + rest);
    Prepend(s0, AdmitCancel(0), [RequestCancel(0, true)] + ([LookUp(0)] + rest));
    log := [AdmitCancel(0)] + ([RequestCancel(0, true)] + ([LookUp(0)] + rest));
  }

  /** It does happen: `Cancel` marks the row cancelled before its run registers, and the run, whose
      reads of the flag all fail, turns the row back to building and builds the image. */
  lemma CancelledIsRevived(git: bool) returns (before: seq<Step>, log: seq<Step>)
    ensures IsRun(Initial(git), before) && After(Initial(git), before).status == Cancelled
    ensures IsRun(After(Initial(git), before), log)
    ensures var t := After(After(Initial(git), before), log); t.status == Building && t.imageBuilds > 0
  {
    Extend(Unseen(git), [], Act(0, true));
    before := FromUnseen(git, [] + [Act(0, true)]);
    log := BuildsBlind(Apply(Unseen(git), Act(0, true)));
  }

  /** The mark can also come late: the run gets to its promotion unseeing, the row is marked
      cancelled under it, and the unguarded promotion sets it running. */
  lemma CancelledIsPromoted(git: bool) returns (before: seq<Step>, e: Step)
    ensures IsRun(Initial(git), before) && After(Initial(git), before).status == Cancelled
    ensures Enabled(After(Initial(git), before), e) && Apply(After(Initial(git), before), e).status == Running
  {
    var blind := BlindTo(Unseen(git), END - 2);
    var s := After(Unseen(git), blind);
    Extend(Unseen(git), blind, Act(0, true));
    before := FromUnseen(git, blind + [Act(0, true)]);
    BlindStepPasses(Apply(s, Act(0, true)));
    e := BlindStep(Apply(s, Act(0, true)));
  }

  // ----- how a run ends -----

  /** The calls that end the run when they fail, apart from the two waits and the write of `building`. */
  predicate CanFail(a: Action) {
    || a.Clone? || a.WriteMetadata? || a.BuildImage? || a.ReadEnv? || a.ReadActive? || a.StartContainer?
    || a.SaveCandidate? || a.AwaitReady? || a.SwitchRoute? || a.SyncRoutes? || a.Promote?
  }

  /** A call that fails while the context is live is recorded as a failure. If the context ends before that is
      written the row stays as it is, unless the call was a build that ran out of time. */
  lemma FailureIsRecorded(s: State, timeout: bool)
    requires s.stage.At? && s.stage.pc < END && CanFail(ActionAt(s.stage.pc)) && !s.contextDone
    ensures Enabled(s, RunStep(false, timeout))
    ensures var t := Apply(s, RunStep(false, timeout)); var late := Apply(t, ContextEnds);
            && t.status == s.status && Enabled(t, WriteOutcome(true)) && Enabled(late, WriteOutcome(true))
            && Apply(t, WriteOutcome(true)).status == Failed
            && Apply(late, WriteOutcome(true)).status ==
               if ActionAt(s.stage.pc).BuildImage? && timeout then Failed else s.status
  {
    FailureExits(s, ActionAt(s.stage.pc), timeout);
  }

  lemma FailureExits(s: State, a: Action, timeout: bool)
    requires s.stage.At? && s.stage.pc < END && CanFail(a) && !s.contextDone
    ensures var t := Perform(s, a, false, timeout);
            && t.status == s.status && !t.contextDone
            && t.stage == Exiting(if a.BuildImage? && timeout then AsTimedOut else AsFailed)
  {
  }

  /** A call that is refused because the context is done is recorded as a cancellation, and so are a wait that
      is given up and a check that notices it. Three calls are recorded as failures, with the context that is
      done, and so not at all; the refused write of `building` is not recorded either. */
  lemma InterruptionIsRecorded(s: State, ok: bool, timeout: bool)
    requires s.stage.At? && s.stage.pc < END && s.contextDone
    ensures var a := ActionAt(s.stage.pc); var e := RunStep(ok, timeout);
            && Enabled(s, e)
            && (var t := Apply(s, e);
                && t.status == s.status
                && (a.MarkBuilding? ==> t.stage.Leaving?)
                && ((a.TakeSlot? || a.TakeLock?) && ok ==> t.stage.At? && t.stage.pc == s.stage.pc + 1)
                && (CanFail(a) || a.CheckContext? || ((a.TakeSlot? || a.TakeLock?) && !ok) ==>
                      && Enabled(t, WriteOutcome(true))
                      && Apply(t, WriteOutcome(true)).status ==
                         if !a.ReadActive? && !a.SaveCandidate? && !a.SyncRoutes? &&
                            (s.status == Pending || s.status == Building || s.status == CancelRequested)
                         then Cancelled else s.status))
  {
    RefusalExits(s, ActionAt(s.stage.pc), Succeeds(s, ok), timeout);
  }

  lemma RefusalExits(s: State, a: Action, ok: bool, timeout: bool)
    requires s.stage.At? && s.stage.pc < END && s.contextDone && (UsesContext(a) ==> !ok)
    ensures var t := Perform(s, a, ok, timeout);
            && t.status == s.status && t.contextDone
            && (CanFail(a) || a.CheckContext? || (Waits(a) && !ok) ==>
                  t.stage == Exiting(if a.ReadActive? || a.SaveCandidate? || a.SyncRoutes? then AsFailed
                                     else AsCancelled))
            && (a.MarkBuilding? ==> t.stage.Leaving?)
            && (Waits(a) && ok ==> t.stage == Next(s.git, s.stage.pc))
  {
  }

  /** A check that reads the flag up ends the run as cancelled; one that cannot read it, or reads it down, does not. */
  lemma FlagIsHonoured(s: State, ok: bool, timeout: bool)
    requires s.stage.At? && s.stage.pc < END && ActionAt(s.stage.pc).CheckFlag?
    ensures Enabled(s, RunStep(ok, timeout))
    ensures var t := Apply(s, RunStep(ok, timeout));
            if ok && s.flag
            then && Enabled(t, WriteOutcome(true))
                 && Apply(t, WriteOutcome(true)).status ==
                    if s.status == Pending || s.status == Building || s.status == CancelRequested
                    then Cancelled else s.status
            else t.stage.At? && t.stage.pc > s.stage.pc && t.status == s.status
  {
  }

  /** What one cancel does. It is let in while the row is open, asks, looks the run up, and then either ends its
      context or marks the row; a request that fails, or comes when the row is not open any more, changes nothing
      and ends it. */
  lemma CancelCourse(s: State, id: nat, ok: bool)
    ensures Enabled(s, AdmitCancel(id)) <==>
              id !in s.cancels && (s.status == Pending || s.status == Building || s.status == CancelRequested)
    ensures id in s.cancels && s.cancels[id].Admitted? ==>
              && Enabled(s, RequestCancel(id, ok))
              && Apply(s, RequestCancel(id, ok)) ==
                 if ok && (s.status == Pending || s.status == Building || s.status == CancelRequested)
                 then s.(status := CancelRequested, flag := true, cancels := s.cancels[id := Requested])
                 else s.(cancels := s.cancels[id := Finished])
    ensures id in s.cancels && s.cancels[id].Requested? ==>
              && Enabled(s, LookUp(id))
              && Apply(s, LookUp(id)) == s.(cancels := s.cancels[id := if s.registered then FoundRun else FoundNone])
    ensures id in s.cancels && s.cancels[id].FoundRun? ==>
              && Enabled(s, Act(id, ok))
              && Apply(s, Act(id, ok)) == s.(contextDone := true, cancels := s.cancels[id := Finished])
    ensures id in s.cancels && s.cancels[id].FoundNone? ==>
              && Enabled(s, Act(id, ok))
              && Apply(s, Act(id, ok)) ==
                 if ok && (s.status == Pending || s.status == Building || s.status == CancelRequested)
                 then s.(status := Cancelled, cancels := s.cancels[id := Finished])
                 else s.(cancels := s.cancels[id := Finished])
  {
  }

  /** Somebody has asked for the row to be cancelled, or ended the context. */
  predicate WasAsked(s: State, log: seq<Step>)
    requires IsRun(s, log)
  {
    log != [] &&
    (WasAsked(s, log[..|log|-1]) || log[|log|-1].ContextEnds? ||
     (log[|log|-1].RequestCancel? && log[|log|-1].ok && Cancellable(After(s, log[..|log|-1]).status)))
  }

  /** What nobody's request has caused: a flag, a done context of a run that is not over, or a cancelled end. */
  ghost predicate Innocent(s: State) {
    && !s.flag && (s.contextDone ==> s.stage.Gone?) && s.status != CancelRequested && s.status != Cancelled
    && (s.stage.Exiting? ==> !s.stage.outcome.AsCancelled?)
    && (forall id | id in s.cancels :: !Asked(s.cancels[id]))
  }

  lemma RunStepStaysInnocent(s: State, ok: bool, timeout: bool)
    requires Innocent(s) && Enabled(s, RunStep(ok, timeout))
    ensures Innocent(Run(s, ok, timeout))
  {
    Layout(s.stage.pc);
    RunShape(s, ok, timeout);
    PerformStage(s, ActionAt(s.stage.pc), Succeeds(s, ok), timeout);
    PerformOutcome(s, ActionAt(s.stage.pc), Succeeds(s, ok), timeout);
  }

  lemma PerformOutcome(s: State, a: Action, ok: bool, timeout: bool)
    requires s.stage.At? && s.stage.pc < END && !s.contextDone && !(a.CheckFlag? && s.flag) && !(Waits(a) && !ok)
    ensures var t := Perform(s, a, ok, timeout); t.stage.Exiting? ==> !t.stage.outcome.AsCancelled?
  {
  }

  lemma StepStaysInnocent(s: State, e: Step)
    requires Innocent(s) && Enabled(s, e)
    requires !e.ContextEnds? && !(e.RequestCancel? && e.ok && Cancellable(s.status))
    ensures Innocent(Apply(s, e))
  {
    if e.RunStep? { RunStepStaysInnocent(s, e.ok, e.timeout); }
  }

  /** Over all runs: a row is cancelled, or marked for it, only after an accepted request or an ended context. */
  lemma {:induction false} CancelledMeansAsked(git: bool, log: seq<Step>)
    requires IsRun(Initial(git), log)
    ensures var s := After(Initial(git), log);
            && (!WasAsked(Initial(git), log) ==> Innocent(s))
            && (s.status == Cancelled || s.status == CancelRequested || s.flag ==> WasAsked(Initial(git), log))
    decreases |log|
  {
    if log != [] {
      var front, e := log[..|log|-1], log[|log|-1];
      CancelledMeansAsked(git, front);
      if !WasAsked(Initial(git), log) { StepStaysInnocent(After(Initial(git), front), e); }
    }
  }

  /** Once the context is done no run turns its row to failed any more, unless its build had run out of time. */
  ghost predicate CannotFail(s: State) {
    s.contextDone && s.status != Failed && (s.stage.Exiting? ==> !s.stage.outcome.AsTimedOut?)
  }

  lemma StepCannotFail(s: State, e: Step)
    requires CannotFail(s) && Enabled(s, e)
    ensures CannotFail(Apply(s, e))
  {
    if e.RunStep? {
      RunShape(s, e.ok, e.timeout);
      RunStage(s, e.ok, e.timeout);
    }
  }

  /** So a build that is interrupted never ends up failed. */
  lemma {:induction false} InterruptedNeverFails(s: State, log: seq<Step>)
    requires CannotFail(s) && IsRun(s, log)
    ensures After(s, log).status != Failed && CannotFail(After(s, log))
    decreases |log|
  {
    if log != [] {
      InterruptedNeverFails(s, log[..|log|-1]);
      StepCannotFail(After(s, log[..|log|-1]), log[|log|-1]);
    }
  }

  // ----- what a run does on its way -----

  /** The next point at which the run reads the flag. */
  function NextCheck(pc: nat): nat {
    if pc <= 3 then 3 else if pc <= 7 then 7 else if pc <= 11 then 11 else if pc <= 14 then 14
    else if pc <= 17 then 17 else if pc <= 21 then 21 else if pc <= 28 then 28 else END
  }

  /** Every check of the log could read the flag. */
  predicate ChecksRead(s: State, log: seq<Step>)
    requires IsRun(s, log)
  {
    log != [] ==>
      && ChecksRead(s, log[..|log|-1])
      && (var m, e := After(s, log[..|log|-1]), log[|log|-1];
          e.RunStep? && ActionAt(m.stage.pc).CheckFlag? ==> e.ok)
  }

  lemma StepStopsAtCheck(s: State, e: Step, limit: nat)
    requires s.flag && Enabled(s, e) && (s.stage.At? ==> NextCheck(s.stage.pc) <= limit)
    requires e.RunStep? && ActionAt(s.stage.pc).CheckFlag? ==> e.ok
    ensures var t := Apply(s, e); t.flag && (t.stage.At? ==> NextCheck(t.stage.pc) <= limit)
  {
    if e.RunStep? {
      Layout(s.stage.pc);
      PerformShape(s, ActionAt(s.stage.pc), Succeeds(s, e.ok), e.timeout);
      PerformRow(s, ActionAt(s.stage.pc), Succeeds(s, e.ok), e.timeout);
      PerformStage(s, ActionAt(s.stage.pc), Succeeds(s, e.ok), e.timeout);
    }
  }

  /** With the flag up, and readable, a run gets no further than to its next check of it. */
  lemma {:induction false} StopsAtNextCheck(s: State, log: seq<Step>)
    requires Inv(s) && s.flag && s.stage.At? && IsRun(s, log) && ChecksRead(s, log)
    ensures var t := After(s, log); t.flag && (t.stage.At? ==> NextCheck(t.stage.pc) <= NextCheck(s.stage.pc))
    decreases |log|
  {
    if log != [] {
      StopsAtNextCheck(s, log[..|log|-1]);
      StepStopsAtCheck(After(s, log[..|log|-1]), log[|log|-1], NextCheck(s.stage.pc));
    }
  }

  /** The place of a call in a run. */
  function PlaceOf(a: Action): nat {
    match a
    case Register => 0
    case ReadFlag => 1
    case Clone => 2
    case WriteMetadata => 3
    case TakeSlot => 4
    case MarkBuilding => 5
    case BuildImage => 6
    case ReadEnv => 7
    case TakeLock => 8
    case ReadActive => 9
    case StartContainer => 10
    case SaveCandidate => 11
    case AwaitReady => 12
    case SwitchRoute => 13
    case SyncRoutes => 14
    case Promote => 15
    case Retire => 16
    case _ => 17
  }

  /** A run makes each of its calls once and in this order, with a whole check, of the context and then of the
      flag, before it asks for a slot, builds, reads the environment, asks for the lock, starts a container and
      promotes. */
  lemma CallsInOrder(i: nat, j: nat)
    requires i < j < END
    ensures PlaceOf(ActionAt(i)) < 17 && PlaceOf(ActionAt(j)) < 17 ==> PlaceOf(ActionAt(i)) < PlaceOf(ActionAt(j))
    ensures var a := ActionAt(j);
            a.TakeSlot? || a.BuildImage? || a.ReadEnv? || a.TakeLock? || a.StartContainer? || a.Promote? ==>
              ActionAt(j-1).CheckFlag? && ActionAt(j-2).CheckContext?
  {
  }

  ghost predicate WorkDone(s: State) {
    && s.imageBuilds <= 1 && s.containers <= s.imageBuilds
    && (s.stage.At? ==> s.imageBuilds == (if s.stage.pc <= BUILD then 0 else 1))
    && (s.stage.At? ==> s.containers == (if s.stage.pc <= START then 0 else 1))
    && (s.status == Running ==> s.containers == 1)
  }

  lemma RunStepKeepsWork(s: State, ok: bool, timeout: bool)
    requires WorkDone(s) && Enabled(s, RunStep(ok, timeout))
    ensures WorkDone(Run(s, ok, timeout))
  {
    Layout(s.stage.pc);
    PerformShape(s, ActionAt(s.stage.pc), Succeeds(s, ok), timeout);
    PerformRow(s, ActionAt(s.stage.pc), Succeeds(s, ok), timeout);
    PerformWork(s, ActionAt(s.stage.pc), Succeeds(s, ok), timeout);
    PerformStage(s, ActionAt(s.stage.pc), Succeeds(s, ok), timeout);
  }

  lemma OtherStepShape(s: State, e: Step)
    requires Enabled(s, e) && !e.RunStep?
    ensures var t := Apply(s, e);
            && SameWork(s, t) && (t.status == Running ==> s.status == Running) && (t.stage.At? ==> t.stage == s.stage)
  {
    match e
    case WriteOutcome(_) =>
    case RequestCancel(_, _) =>
    case Act(_, _) =>
    case _ =>
  }

  lemma StepKeepsWork(s: State, e: Step)
    requires WorkDone(s) && Enabled(s, e)
    ensures WorkDone(Apply(s, e))
  {
    if e.RunStep? { RunStepKeepsWork(s, e.ok, e.timeout); } else { OtherStepShape(s, e); }
  }

  /** Over all runs: at most one image is built and one container started for it, and a running row has both. */
  lemma {:induction false} WorkIsDoneOnce(git: bool, log: seq<Step>)
    requires IsRun(Initial(git), log)
    ensures WorkDone(After(Initial(git), log))
    decreases |log|
  {
    if log != [] {
      var front, e := log[..|log|-1], log[|log|-1];
      WorkIsDoneOnce(git, front);
      StepKeepsWork(After(Initial(git), front), e);
    }
  }

  // ----- does an accepted request settle the row? -----

  /** With this step the run is over and has left its row neither promoted nor failed nor cancelled: the
      write of `building` was refused, or that of the outcome, or either failed. */
  predicate LeavesOpen(s: State, e: Step)
    requires Enabled(s, e)
  {
    Cancellable(s.status) &&
    match e
    case RunStep(ok, _) => s.stage.pc == MARK && !(ok && !s.contextDone)
    case WriteOutcome(ok) => !Written(s, ok)
    case _ => false
  }

  /** A cancel that found no execution marks the row. */
  predicate Marks(s: State, e: Step)
    requires Enabled(s, e)
  {
    e.Act? && e.ok && s.cancels[e.id].FoundNone?
  }

  /** The run has left its row open, and no cancel has marked it since. */
  predicate LeftOpen(s: State, log: seq<Step>)
    requires IsRun(s, log)
  {
    log != [] &&
    var m, e := After(s, log[..|log|-1]), log[|log|-1];
    LeavesOpen(m, e) || (LeftOpen(s, log[..|log|-1]) && !Marks(m, e))
  }

  /** The row is open and its run is over. */
  predicate Open(s: State) {
    (s.stage.Leaving? || s.stage.Gone?) && Cancellable(s.status)
  }

  lemma RunStepOpens(s: State, ok: bool, timeout: bool)
    requires Inv(s) && Enabled(s, RunStep(ok, timeout))
    ensures Open(Run(s, ok, timeout)) <==> LeavesOpen(s, RunStep(ok, timeout))
  {
    RunShape(s, ok, timeout);
    RunStage(s, ok, timeout);
  }

  lemma StepOpens(s: State, e: Step)
    requires Inv(s) && Enabled(s, e)
    ensures Open(Apply(s, e)) <==> LeavesOpen(s, e) || (Open(s) && !Marks(s, e))
  {
    if e.RunStep? { RunStepOpens(s, e.ok, e.timeout); }
  }

  /** When the run is over its row is left open, so that a request accepted for it has not been settled, if and
      only if the run's last status write failed or was refused and no cancel has marked the row since. */
  lemma {:induction false} OpenRowIsExact(git: bool, log: seq<Step>)
    requires IsRun(Initial(git), log)
    ensures Open(After(Initial(git), log)) <==> LeftOpen(Initial(git), log)
    decreases |log|
  {
    if log != [] {
      var front := log[..|log|-1];
      OpenRowIsExact(git, front);
      InitialInv(git);
      RunKeepsInv(Initial(git), front);
      StepOpens(After(Initial(git), front), log[|log|-1]);
    }
  }

  /** Every call of the run and of `Cancel` works, as far as it is not refused. */
  predicate AllWork(log: seq<Step>) {
    forall i | 0 <= i < |log| :: Works(log[i])
  }

  predicate Works(e: Step) {
    match e
    case RunStep(ok, _) => ok
    case WriteOutcome(ok) => ok
    case RequestCancel(_, ok) => ok
    case Act(_, ok) => ok
    case _ => true
  }

  lemma Proceed(start: State, log: seq<Step>, s: State, e: Step, t: State) returns (more: seq<Step>)
    requires IsRun(start, log) && AllWork(log) && After(start, log) == s
    requires Enabled(s, e) && Works(e) && Apply(s, e) == t
    ensures IsRun(start, more) && AllWork(more) && After(start, more) == t
  {
    Extend(start, log, e);
    more := log + [e];
  }

  /** The run is about to write `building`. */
  function AtMark(): State {
    Registered(At(MARK)).(answers := map[FIRST_READ := true, FIRST_CHECK := true])
  }

  function Registered(stage: Stage): State {
    Initial(false).(registered := true, stage := stage)
  }

  lemma RunPassesRead() returns (log: seq<Step>)
    ensures IsRun(Initial(false), log) && AllWork(log)
    ensures After(Initial(false), log) == Registered(At(3)).(answers := map[FIRST_READ := true])
  {
    var s := Registered(At(2)).(answers := map[FIRST_READ := true]);
    log := Proceed(Initial(false), [], Initial(false), RunStep(true, false), Registered(At(1)));
    log := Proceed(Initial(false), log, Registered(At(1)), RunStep(true, false), s);
    log := Proceed(Initial(false), log, s, RunStep(true, false), s.(stage := At(3)));
  }

  lemma RunPassesCheck() returns (log: seq<Step>)
    ensures IsRun(Initial(false), log) && AllWork(log)
    ensures After(Initial(false), log) == AtMark().(stage := At(GIT_CHECK + 1))
  {
    log := RunPassesRead();
    var s := Registered(At(3)).(answers := map[FIRST_READ := true]);
    var t := AtMark().(stage := At(GIT_CHECK + 1));
    assert Run(s, true, false) == t;
    log := Proceed(Initial(false), log, s, RunStep(true, false), t);
  }

  lemma RunGetsToMark() returns (log: seq<Step>)
    ensures IsRun(Initial(false), log) && AllWork(log) && After(Initial(false), log) == AtMark()
  {
    log := RunPassesCheck();
    var t := AtMark().(stage := At(GIT_CHECK + 1));
    assert Run(t, true, false) == AtMark();
    log := Proceed(Initial(false), log, t, RunStep(true, false), AtMark());
  }

  /** Its context has been ended by a cancel that found it there. */
  function Signalled(): State {
    AtMark().(status := CancelRequested, flag := true, contextDone := true, cancels := map[0 := Finished])
  }

  /** A cancel has been accepted while the run is about to write `building`. */
  function AskedAtMark(): State {
    AtMark().(status := CancelRequested, flag := true, cancels := map[0 := Requested])
  }

  lemma CancelIsAccepted() returns (log: seq<Step>)
    ensures IsRun(Initial(false), log) && AllWork(log) && After(Initial(false), log) == AskedAtMark()
  {
    log := RunGetsToMark();
    var admitted := AtMark().(cancels := map[0 := Admitted]);
    log := Proceed(Initial(false), log, AtMark(), AdmitCancel(0), admitted);
    log := Proceed(Initial(false), log, admitted, RequestCancel(0, true), AskedAtMark());
  }

  lemma CancelSignals() returns (log: seq<Step>)
    ensures IsRun(Initial(false), log) && AllWork(log) && After(Initial(false), log) == Signalled()
  {
    log := CancelIsAccepted();
    var found := AskedAtMark().(cancels := map[0 := FoundRun]);
    log := Proceed(Initial(false), log, AskedAtMark(), LookUp(0), found);
    log := Proceed(Initial(false), log, found, Act(0, true), Signalled());
  }

  /** It does happen, and no call needs to fail for it: a cancel finds the run between its slot and its write of
      `building`, ends its context, the write is refused, and nobody marks the row any more. */
  lemma RequestIsNeverSettled() returns (log: seq<Step>)
    ensures IsRun(Initial(false), log) && AllWork(log)
    ensures var s := After(Initial(false), log);
            s.status == CancelRequested && s.stage.Gone? && s.cancels == map[0 := Finished]
  {
    log := CancelSignals();
    var left := Signalled().(stage := Leaving);
    log := Proceed(Initial(false), log, Signalled(), RunStep(true, false), left);
    log := Proceed(Initial(false), log, left, Deregister, left.(stage := Gone, registered := false));
  }

  /** Asking once more settles it: with the run gone a cancel finds none and marks the row itself. */
  lemma SecondRequestSettles(s: State, id: nat)
    requires Inv(s) && s.stage.Gone? && Open(s) && id !in s.cancels
    ensures var log := [AdmitCancel(id), RequestCancel(id, true), LookUp(id), Act(id, true)];
            IsRun(s, log) && After(s, log).status == Cancelled && !CanBeLeft(After(s, log))
  {
    var s1 := Apply(s, AdmitCancel(id));
    var s2 := Apply(s1, RequestCancel(id, true));
    var s3 := Apply(s2, LookUp(id));
    Prepend(s3, Act(id, true), []);
    Prepend(s2, LookUp(id), [Act(id, true)]);
    Prepend(s1, RequestCancel(id, true), [LookUp(id)] + [Act(id, true)]);
    Prepend(s, AdmitCancel(id), [RequestCancel(id, true)] + ([LookUp(id)] + [Act(id, true)]));
    assert [AdmitCancel(id), RequestCancel(id, true), LookUp(id), Act(id, true)] ==
           [AdmitCancel(id)] + ([RequestCancel(id, true)] + ([LookUp(id)] + [Act(id, true)]));
  }
}
