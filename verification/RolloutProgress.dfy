/** A rollout never hangs on to the lock by itself: whatever its calls answer it has a next one, and
    after a bounded number of them the lock is free.
 */
module RolloutProgress {
  import opened Domain
  import opened DeploymentTable
  import opened RolloutMachine
  import opened RolloutSafety
  import opened RolloutTheorems

  // ----- there is always a next call -----

  /** The call a rollout makes next, and what it answers. */
  function NextDeploy(op: Op, ok: bool, found: Option<DepId>, spare: Instance): DeployStep
    requires op.Deploy?
  {
    match op.phase
    case Locked => ReadActive(found)
    case Prepared => RunContainer(if ok then Some(spare) else None)
    case Started => SaveCandidate(ok)
    case Persisted => AwaitReady(ok)
    case Ready => SwitchRoute(ok)
    case Switched => PublishChecks(ok)
    case Committing => Promote(ok)
    case Compensating => Compensate(ok)
    case StoppingCandidate => StopCandidate(ok)
    case RemovingCandidate => RemoveCandidate(ok)
    case ClearingCandidate => ClearCandidate(ok)
    case Marking => MarkOutcome(if ok && op.kind.Build? then Fail else Keep)
    case Promoted => if op.prev.Some? then StopPrevious(ok) else Release
    case PreviousStopped => RemovePrevious(ok)
    case PreviousRemoved => RetirePrevious(ok)
    case Leaving => Release
  }

  function NextStop(stop: StopPhase, ok: bool, found: Option<DepId>): StopStep {
    match stop
    case StopLocked => Unroute(ok)
    case Unrouted => if !ok then StopGiveUp else if found.Some? then ChooseVictim(found.value) else NothingToStop
    case Chosen => StopVictim(ok)
    case VictimStopped => RemoveVictim(ok)
    case VictimRemoved => MarkStopped(ok)
    case _ => StopRelease
  }

  /** The row that GetActive answers with when the lock holder asks. */
  lemma Answer(w: World) returns (found: Option<DepId>)
    requires AtMostOneRunning(w.rows)
    ensures if found.Some? then IsActive(w.rows, found.value) else NoneRunning(w.rows)
  {
    found := None;
    if !NoneRunning(w.rows) {
      var d :| d in w.rows && IsRunning(w.rows, d);
      found := Some(d);
    }
  }

  lemma AnswerForStop(w: World) returns (found: Option<DepId>)
    requires Quiet(w)
    ensures if found.Some? then IsVictim(w.rows, found.value) else NoneRunning(w.rows)
  {
    found := Answer(w);
    if found.Some? { assert Stands(w, found.value); }
  }

  /** Whether or not it works, the lock holder's next call is one it can make. */
  lemma DeployMoves(w: World, o: OpId, ok: bool, spare: Instance) returns (step: DeployStep)
    requires Inv(w) && w.lock == Some(o) && w.ops[o].Deploy?
    requires spare.id !in w.born && FreshPort(w, spare.port)
    ensures Enabled(w, Rollout(o, step))
    ensures exists found :: step == NextDeploy(w.ops[o], ok, found, spare)
  {
    var found: Option<DepId> := None;
    if w.ops[o].phase.Locked? { found := Answer(w); }
    step := NextDeploy(w.ops[o], ok, found, spare);
  }

  lemma StopMoves(w: World, o: OpId, ok: bool) returns (step: StopStep)
    requires Inv(w) && w.lock == Some(o) && w.ops[o].Stop?
    ensures Enabled(w, Stopping(o, step))
    ensures exists found :: step == NextStop(w.ops[o].stop, ok, found)
  {
    var found: Option<DepId> := None;
    if w.ops[o].stop.Unrouted? { found := AnswerForStop(w); }
    step := NextStop(w.ops[o].stop, ok, found);
  }

  /** Nobody outside the lock is held up by it: any row can be cancelled at any time, any new build, rollback of
      what can be returned to, or stop can be asked for, and whoever queues can give up, or enter if the lock is
      free; a build can also record why it gave up. */
  lemma OutsidersMove(w: World, d: DepId, o: OpId, created: nat)
    ensures d in w.rows ==> Enabled(w, Outside(CancelRequest(d))) && Enabled(w, Outside(CancelMark(d)))
    ensures d !in w.rows && d !in w.runs ==> Enabled(w, Outside(CreateRow(d, created)))
    ensures o !in w.ops ==> Enabled(w, Outside(StartStop(o)))
    ensures o !in w.ops && d in w.rows && d !in w.runs ==> Enabled(w, Outside(StartBuild(o, d)))
    ensures o !in w.ops && d in w.rows && w.rows[d].status in {Superseded, RolledBack, Stopped} ==>
              Enabled(w, Outside(StartRollback(o, d)))
    ensures o in w.ops && (w.ops[o].Queued? || w.ops[o].QueuedStop?) ==>
              && Enabled(w, Outside(Abandon(o, Keep)))
              && (w.lock.None? ==> Enabled(w, Outside(Acquire(o))))
    ensures o in w.ops && w.ops[o].Queued? && w.ops[o].kind.Build? ==>
              && Enabled(w, Outside(WriteBuilding(o)))
              && Enabled(w, Outside(Abandon(o, Fail))) && Enabled(w, Outside(Abandon(o, Mark.Cancel)))
  {
  }

  // ----- and there are not many -----

  /** How many calls may still come. */
  function CallsLeft(op: Op): nat {
    match op
    case Deploy(_, _, phase, _, _, _, _) =>
      (match phase
       case Locked => 14
       case Prepared => 13
       case Started => 12
       case Persisted => 11
       case Ready => 10
       case Switched => 9
       case Committing => 8
       case Compensating => 7
       case StoppingCandidate => 6
       case RemovingCandidate => 5
       case ClearingCandidate => 4
       case Marking => 3
       case Promoted => 5
       case PreviousStopped => 4
       case PreviousRemoved => 3
       case Leaving => 1)
    case Stop(stop, _) =>
      (match stop
       case StopLocked => 6
       case Unrouted => 5
       case Chosen => 4
       case VictimStopped => 3
       case VictimRemoved => 2
       case _ => 1)
    case _ => 0
  }

  predicate IsBy(l: Label, o: OpId) {
    (l.Rollout? && l.op == o) || (l.Stopping? && l.op == o)
  }

  lemma WriteShortens(w: World, o: OpId, op: Op, s: DeployStep)
    requires op.Deploy? && DeployEnabled(w, op, s) && Writes(s)
    ensures CallsLeft(ApplyDeploy(w, o, op, s).ops[o]) < CallsLeft(op)
  {
  }

  lemma ForwardShortens(w: World, o: OpId, op: Op, s: DeployStep)
    requires op.Deploy? && DeployEnabled(w, op, s) && Forward(s) && !Writes(s)
    ensures CallsLeft(ApplyDeploy(w, o, op, s).ops[o]) < CallsLeft(op)
  {
  }

  lemma CleanUpShortens(w: World, o: OpId, op: Op, s: DeployStep)
    requires op.Deploy? && DeployEnabled(w, op, s)
    requires s.Compensate? || s.StopCandidate? || s.RemoveCandidate? || s.ClearCandidate? || s.MarkOutcome?
    ensures CallsLeft(ApplyDeploy(w, o, op, s).ops[o]) < CallsLeft(op)
  {
  }

  lemma RetireShortens(w: World, o: OpId, op: Op, s: DeployStep)
    requires op.Deploy? && DeployEnabled(w, op, s) && (s.StopPrevious? || s.RemovePrevious? || s.RetirePrevious?)
    ensures CallsLeft(ApplyDeploy(w, o, op, s).ops[o]) < CallsLeft(op)
  {
  }

  lemma DeployShortens(w: World, o: OpId, op: Op, s: DeployStep)
    requires op.Deploy? && DeployEnabled(w, op, s) && !s.Release?
    ensures CallsLeft(ApplyDeploy(w, o, op, s).ops[o]) < CallsLeft(op)
  {
    if Writes(s) { WriteShortens(w, o, op, s); }
    else if Forward(s) { ForwardShortens(w, o, op, s); }
    else if s.StopPrevious? || s.RemovePrevious? || s.RetirePrevious? { RetireShortens(w, o, op, s); }
    else { CleanUpShortens(w, o, op, s); }
  }

  lemma ChoiceShortens(w: World, o: OpId, op: Op, s: StopStep)
    requires op.Stop? && StopEnabled(w, op, s)
    requires s.Unroute? || s.ChooseVictim? || s.NothingToStop? || s.StopGiveUp?
    ensures CallsLeft(ApplyStop(w, o, op, s).ops[o]) < CallsLeft(op)
  {
  }

  lemma TakeDownShortens(w: World, o: OpId, op: Op, s: StopStep)
    requires op.Stop? && StopEnabled(w, op, s) && (s.StopVictim? || s.RemoveVictim? || s.MarkStopped?)
    ensures CallsLeft(ApplyStop(w, o, op, s).ops[o]) < CallsLeft(op)
  {
  }

  lemma StopShortens(w: World, o: OpId, op: Op, s: StopStep)
    requires op.Stop? && StopEnabled(w, op, s) && !s.StopRelease?
    ensures CallsLeft(ApplyStop(w, o, op, s).ops[o]) < CallsLeft(op)
  {
    if s.StopVictim? || s.RemoveVictim? || s.MarkStopped? { TakeDownShortens(w, o, op, s); }
    else { ChoiceShortens(w, o, op, s); }
  }

  /** One more step of anybody: the operation in the section has used one of its calls or none, or it is over. */
  lemma StepShortens(w: World, l: Label, o: OpId)
    requires Exclusive(w) && Enabled(w, l) && o in w.ops && InSection(w.ops[o])
    ensures var v := Apply(w, l);
            if !IsBy(l, o) then o in v.ops && v.ops[o] == w.ops[o]
            else if o in v.ops then InSection(v.ops[o]) && CallsLeft(v.ops[o]) < CallsLeft(w.ops[o])
            else v.lock.None?
  {
    match l {
      case Outside(e) =>
      case Rollout(p, s) =>
        DeployIsSectionStep(w, p, w.ops[p], s);
        if p == o && !s.Release? { DeployShortens(w, o, w.ops[o], s); }
      case Stopping(p, s) =>
        StopIsSectionStep(w, p, w.ops[p], s);
        if p == o && !s.StopRelease? { StopShortens(w, o, w.ops[o], s); }
    }
  }

  /** The calls of `o` in a log. */
  function CallsOf(log: seq<Label>, o: OpId): nat {
    if log == [] then 0 else CallsOf(log[..|log|-1], o) + if IsBy(log[|log|-1], o) then 1 else 0
  }

  /** The operation is in the section all along. */
  predicate Inside(w: World, log: seq<Label>, o: OpId)
    requires IsRun(w, log)
  {
    o in After(w, log).ops && (log != [] ==> Inside(w, log[..|log|-1], o))
  }

  /** Whoever entered the section leaves it: while inside it has made fewer calls than the fourteen of a rollout
      or the six of a stop, whatever they answered and whatever anybody else did in between. */
  lemma {:induction false} SectionIsBounded(w: World, log: seq<Label>, o: OpId)
    requires Exclusive(w) && IsRun(w, log) && o in w.ops && InSection(w.ops[o]) && Inside(w, log, o)
    ensures var v := After(w, log);
            InSection(v.ops[o]) && v.lock == Some(o) && CallsOf(log, o) + CallsLeft(v.ops[o]) <= CallsLeft(w.ops[o])
    ensures CallsOf(log, o) < if w.ops[o].Deploy? then 14 else 6
    decreases |log|
  {
    RunKeepsExclusive(w, log);
    if log != [] {
      var front, l := log[..|log|-1], log[|log|-1];
      SectionIsBounded(w, front, o);
      RunKeepsExclusive(w, front);
      StepShortens(After(w, front), l, o);
    }
  }
}
