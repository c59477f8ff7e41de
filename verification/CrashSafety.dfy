/** Which crashes recovery can repair: every one, over any run in which forgetting a
    candidate never failed; and crashes it cannot repair when one such write has failed.
 */
module CrashSafety {
  import opened Domain
  import opened DeploymentTable
  import opened RolloutMachine
  import opened RolloutSafety
  import opened RolloutTheorems
  import opened Recovery

  /** The only candidate on record is the one the lock holder is handling. */
  ghost predicate OnlyOwnCandidate(w: World) {
    AtMostOwn(w.rows, Holder(w))
  }

  ghost predicate OwnCandidate(holder: Option<Op>, d: DepId) {
    && holder.Some? && holder.value.Deploy? && holder.value.dep == d && holder.value.persisted
    && Open(holder.value.phase) && !holder.value.phase.Prepared? && !holder.value.phase.Started?
  }

  /** Every write that forgets a candidate takes effect. */
  predicate Forgets(l: Label) {
    match l
    case Rollout(_, ClearCandidate(ok)) => ok
    case _ => true
  }

  /** Only the operation's own candidate may be on record. */
  ghost predicate AtMostOwn(t: Table, holder: Option<Op>) {
    forall d | d in t && t[d].candidate.Some? :: OwnCandidate(holder, d)
  }

  lemma SaveKeepsOwnCandidate(w: World, o: OpId, op: Op, s: DeployStep)
    requires op.Deploy? && DeployEnabled(w, op, s) && s == SaveCandidate(true) && AtMostOwn(w.rows, Some(op))
    ensures AtMostOwn(ApplyDeploy(w, o, op, s).rows, Some(ApplyDeploy(w, o, op, s).ops[o]))
  {
  }

  lemma PromoteKeepsOwnCandidate(w: World, o: OpId, op: Op, s: DeployStep)
    requires op.Deploy? && DeployEnabled(w, op, s) && s == Promote(true) && AtMostOwn(w.rows, Some(op))
    ensures AtMostOwn(ApplyDeploy(w, o, op, s).rows, Some(ApplyDeploy(w, o, op, s).ops[o]))
  {
  }

  lemma ForwardKeepsOwnCandidate(w: World, o: OpId, op: Op, s: DeployStep)
    requires op.Deploy? && DeployEnabled(w, op, s) && Forward(s) && AtMostOwn(w.rows, Some(op))
    ensures AtMostOwn(ApplyDeploy(w, o, op, s).rows, Some(ApplyDeploy(w, o, op, s).ops[o]))
  {
    if s == SaveCandidate(true) { SaveKeepsOwnCandidate(w, o, op, s); }
    else if s == Promote(true) { PromoteKeepsOwnCandidate(w, o, op, s); }
    else { assert ApplyDeploy(w, o, op, s).rows == w.rows; }
  }

  lemma BackwardKeepsOwnCandidate(w: World, o: OpId, op: Op, s: DeployStep)
    requires op.Deploy? && DeployEnabled(w, op, s) && !Forward(s) && !s.Release? && Forgets(Rollout(o, s))
    requires AtMostOwn(w.rows, Some(op))
    ensures AtMostOwn(ApplyDeploy(w, o, op, s).rows, Some(ApplyDeploy(w, o, op, s).ops[o]))
  {
  }

  lemma EntryKeepsOwnCandidate(w: World, e: Entry)
    requires Inv(w) && OnlyOwnCandidate(w) && EntryEnabled(w, e)
    ensures OnlyOwnCandidate(ApplyEntry(w, e))
  {
  }

  lemma SectionKeepsOwnCandidate(w: World, v: World, o: OpId, release: bool)
    requires w.lock == Some(o) && SectionStep(w, v, o, release)
    requires AtMostOwn(v.rows, if release then None else Some(v.ops[o]))
    ensures OnlyOwnCandidate(v)
  {
  }

  lemma StopKeepsOwnCandidate(w: World, o: OpId, s: StopStep)
    requires w.lock == Some(o) && o in w.ops && w.ops[o].Stop? && StopEnabled(w, w.ops[o], s)
    requires OnlyOwnCandidate(w)
    ensures OnlyOwnCandidate(ApplyStop(w, o, w.ops[o], s))
  {
  }

  lemma StepKeepsOwnCandidate(w: World, l: Label)
    requires Inv(w) && OnlyOwnCandidate(w) && Enabled(w, l) && Forgets(l)
    ensures OnlyOwnCandidate(Apply(w, l))
  {
    match l {
      case Outside(e) => EntryKeepsOwnCandidate(w, e);
      case Rollout(o, s) =>
        assert w.lock == Some(o) && Holder(w) == Some(w.ops[o]);
        if Forward(s) { ForwardKeepsOwnCandidate(w, o, w.ops[o], s); }
        else if !s.Release? { BackwardKeepsOwnCandidate(w, o, w.ops[o], s); }
        DeployIsSectionStep(w, o, w.ops[o], s);
        SectionKeepsOwnCandidate(w, Apply(w, l), o, s.Release?);
      case Stopping(o, s) => StopKeepsOwnCandidate(w, o, s);
    }
  }

  /** Crash safety over whole runs: whatever moment the process dies, recovery can repair it. */
  lemma {:induction false} EveryCrashIsSafe(w: World, log: seq<Label>)
    requires Inv(w) && OnlyOwnCandidate(w) && IsRun(w, log) && BenignRun(log)
    requires forall i | 0 <= i < |log| :: Forgets(log[i])
    ensures OnlyOwnCandidate(After(w, log)) && SafeToRecover(After(w, log))
    decreases |log|
  {
    if log != [] {
      var front := log[..|log|-1];
      assert BenignRun(front);
      EveryCrashIsSafe(w, front);
      RunKeepsInv(w, front);
      StepKeepsOwnCandidate(After(w, front), log[|log|-1]);
    }
    var v := After(w, log);
    RunKeepsInv(w, log);
    if InWindow(v) {
      assert forall d | d in v.rows :: v.rows[d].candidate.None?;
    }
  }

  // ----- crashes that recovery cannot repair -----

  /** Release 1 is in service, release 2 is an older one, row 3 is about to be built. */
  function InService1(): World {
    World(
      map[1 := Row(Running, Some(Instance(1, 81)), None, false, 5),
          2 := Row(Superseded, Some(Instance(4, 84)), None, false, 3),
          3 := Row(Pending, None, None, false, 4)],
      map[1 := Container(81, true)],
      Some(81), None, map[], map[1 := 1, 4 := 2], map[1 := 9, 2 := 9])
  }

  const RELEASE1 := Some(Previous(1, Instance(1, 81)))

  const LOCKED3 := Deploy(Build, 3, Locked, None, Instance(0, 0), false, false)
  const PREPARED3 := Deploy(Build, 3, Prepared, RELEASE1, Instance(0, 0), false, false)
  const STARTED3 := Deploy(Build, 3, Started, RELEASE1, Instance(3, 83), false, false)
  const LOCKED2 := Deploy(Rollback, 2, Locked, None, Instance(0, 0), false, false)
  const PREPARED2 := Deploy(Rollback, 2, Prepared, RELEASE1, Instance(0, 0), false, false)

  function Held(w: World, o: OpId, op: Op): World {
    w.(lock := Some(o), ops := map[o := op])
  }

  /** Operation 7 builds row 3. */
  function Build3(phase: Phase): Op {
    Deploy(Build, 3, phase, RELEASE1, Instance(3, 83), true, false)
  }

  function Queued3(): World {
    var w := InService1();
    w.(runs := w.runs[3 := 7])
  }

  function Started3(): World {
    var w := Queued3();
    w.(ctrs := w.ctrs[3 := Container(83, true)], born := w.born[3 := 3])
  }

  function Saved3(): World {
    var w := Started3();
    w.(rows := w.rows[3 := Row(Pending, None, Some(Instance(3, 83)), false, 4)])
  }

  function Removed3(): World {
    Saved3().(ctrs := Halted(Saved3().ctrs, 3) - {3})
  }

  /** The build has failed and could not forget its candidate. */
  function Failed3(): World {
    var w := Removed3();
    w.(rows := w.rows[3 := Row(Failed, None, Some(Instance(3, 83)), false, 4)])
  }

  /** Operation 0 rolls back to row 2. */
  function Return2(phase: Phase, promoted: bool): Op {
    Deploy(Rollback, 2, phase, RELEASE1, Instance(2, 82), true, promoted)
  }

  function Saved2(): World {
    var w := Failed3();
    w.(rows := w.rows[2 := Row(Superseded, Some(Instance(4, 84)), Some(Instance(2, 82)), false, 3)],
       ctrs := w.ctrs[2 := Container(82, true)], born := w.born[2 := 2])
  }

  function Promoted2(): World {
    var w := Saved2();
    w.(rows := w.rows[2 := Row(Running, Some(Instance(2, 82)), None, false, 3)], route := Some(82))
  }

  /** The rollback has committed and is taking row 1's container away; row 1 is not retired yet, and row 3
      still names the candidate that its failed build could not forget. */
  function Retiring(phase: Phase, ctrs: map<ContainerId, Container>): World {
    World(
      map[1 := Row(Running, Some(Instance(1, 81)), None, false, 5),
          2 := Row(Running, Some(Instance(2, 82)), None, false, 3),
          3 := Row(Failed, None, Some(Instance(3, 83)), false, 4)],
      ctrs, Some(82), Some(0), map[0 := Return2(phase, true)],
      map[1 := 1, 2 := 2, 3 := 3, 4 := 2], map[1 := 9, 2 := 9, 3 := 7])
  }

  /** Row 1's container is stopped. */
  function HalfRetired(): World {
    Retiring(PreviousStopped, map[1 := Container(81, false), 2 := Container(82, true)])
  }

  /** One call later it is gone. */
  function Unlucky(): World {
    Retiring(PreviousRemoved, map[2 := Container(82, true)])
  }

  /** The failed build is followed by a StopApp, operation 5. */
  function StoppingApp(op: Op, ctrs: map<ContainerId, Container>, route: Option<nat>): World {
    World(
      map[1 := Row(Running, Some(Instance(1, 81)), None, false, 5),
          2 := Row(Superseded, Some(Instance(4, 84)), None, false, 3),
          3 := Row(Failed, None, Some(Instance(3, 83)), false, 4)],
      ctrs, route, Some(5), map[5 := op], map[1 := 1, 3 := 3, 4 := 2], map[1 := 9, 2 := 9, 3 := 7])
  }

  /** It has taken the route down and stopped row 1's container. */
  function HalfStopped(): World {
    StoppingApp(Stop(VictimStopped, Previous(1, Instance(1, 81))), map[1 := Container(81, false)], None)
  }

  /** The build of row 3 has switched the route to its candidate and not yet committed. */
  function Switched3(): World {
    World(
      map[1 := Row(Running, Some(Instance(1, 81)), None, false, 5),
          2 := Row(Superseded, Some(Instance(4, 84)), None, false, 3),
          3 := Row(Pending, None, Some(Instance(3, 83)), false, 4)],
      map[1 := Container(81, true), 3 := Container(83, true)],
      Some(83), Some(7), map[7 := Build3(Switched)],
      map[1 := 1, 3 := 3, 4 := 2], map[1 := 9, 2 := 9, 3 := 7])
  }

  lemma GoodStart()
    ensures Inv(InService1()) && Hot(InService1()) && OnlyOwnCandidate(InService1())
    ensures Reaches(InService1(), InService1())
  {
    var w := InService1();
    assert IsRunning(w.rows, 1) && Owns(w, 1, 81);
    assert IsRun(w, []) && BenignRun([]) && After(w, []) == w;
  }

  lemma BuildEnters()
    requires Reaches(InService1(), InService1())
    ensures Reaches(InService1(), Held(Queued3(), 7, LOCKED3))
  {
    var w, queued := InService1(), Queued3().(ops := map[7 := Queued(Build, 3)]);
    Onward(w, w, Outside(StartBuild(7, 3)), queued);
    Onward(w, queued, Outside(Acquire(7)), Held(Queued3(), 7, LOCKED3));
  }

  lemma BuildReads()
    requires Reaches(InService1(), Held(Queued3(), 7, LOCKED3))
    ensures Reaches(InService1(), Held(Queued3(), 7, PREPARED3))
  {
    var locked := Held(Queued3(), 7, LOCKED3);
    assert IsActive(locked.rows, 1);
    Onward(InService1(), locked, Rollout(7, ReadActive(Some(1))),
           Held(Queued3(), 7, PREPARED3));
  }

  lemma BuildStarts()
    requires Reaches(InService1(), Held(Queued3(), 7, PREPARED3))
    ensures Reaches(InService1(), Held(Started3(), 7, STARTED3))
  {
    Onward(InService1(), Held(Queued3(), 7, PREPARED3),
           Rollout(7, RunContainer(Some(Instance(3, 83)))),
           Held(Started3(), 7, STARTED3));
  }

  lemma BuildIsNotReady()
    requires Reaches(InService1(), Held(Started3(), 7, STARTED3))
    ensures Reaches(InService1(), Held(Saved3(), 7, Build3(Persisted)))
    ensures Reaches(InService1(), Held(Saved3(), 7, Build3(StoppingCandidate)))
  {
    var w := InService1();
    Onward(w, Held(Started3(), 7, STARTED3), Rollout(7, SaveCandidate(true)), Held(Saved3(), 7, Build3(Persisted)));
    Onward(w, Held(Saved3(), 7, Build3(Persisted)), Rollout(7, AwaitReady(false)),
           Held(Saved3(), 7, Build3(StoppingCandidate)));
  }

  lemma BuildIsTakenAway()
    requires Reaches(InService1(), Held(Saved3(), 7, Build3(StoppingCandidate)))
    ensures Reaches(InService1(), Held(Removed3(), 7, Build3(ClearingCandidate)))
  {
    var w := InService1();
    var halted := Held(Saved3().(ctrs := Halted(Saved3().ctrs, 3)), 7, Build3(RemovingCandidate));
    Onward(w, Held(Saved3(), 7, Build3(StoppingCandidate)), Rollout(7, StopCandidate(true)), halted);
    Onward(w, halted, Rollout(7, RemoveCandidate(true)), Held(Removed3(), 7, Build3(ClearingCandidate)));
  }

  /** The one write that fails. */
  lemma BuildIsNotForgotten()
    requires Reaches(InService1(), Held(Removed3(), 7, Build3(ClearingCandidate)))
    ensures Reaches(InService1(), Held(Failed3(), 7, Build3(Leaving)))
  {
    var w := InService1();
    Onward(w, Held(Removed3(), 7, Build3(ClearingCandidate)), Rollout(7, ClearCandidate(false)),
           Held(Removed3(), 7, Build3(Marking)));
    Onward(w, Held(Removed3(), 7, Build3(Marking)), Rollout(7, MarkOutcome(Fail)), Held(Failed3(), 7, Build3(Leaving)));
  }

  lemma RollbackIsAsked()
    requires Reaches(InService1(), Held(Failed3(), 7, Build3(Leaving)))
    ensures Reaches(InService1(), Failed3())
    ensures Reaches(InService1(), Failed3().(ops := map[0 := Queued(Rollback, 2)]))
  {
    var w := InService1();
    Onward(w, Held(Failed3(), 7, Build3(Leaving)), Rollout(7, Release), Failed3());
    Onward(w, Failed3(), Outside(StartRollback(0, 2)), Failed3().(ops := map[0 := Queued(Rollback, 2)]));
  }

  lemma RollbackEnters()
    requires Reaches(InService1(), Failed3().(ops := map[0 := Queued(Rollback, 2)]))
    ensures Reaches(InService1(), Held(Failed3(), 0, LOCKED2))
  {
    Onward(InService1(), Failed3().(ops := map[0 := Queued(Rollback, 2)]), Outside(Acquire(0)),
           Held(Failed3(), 0, LOCKED2));
  }

  lemma RollbackReads()
    requires Reaches(InService1(), Held(Failed3(), 0, LOCKED2))
    ensures Reaches(InService1(), Held(Failed3(), 0, PREPARED2))
  {
    var locked := Held(Failed3(), 0, LOCKED2);
    assert IsActive(locked.rows, 1);
    Onward(InService1(), locked, Rollout(0, ReadActive(Some(1))),
           Held(Failed3(), 0, PREPARED2));
  }

  function Started2(): World {
    Held(Saved2().(rows := Failed3().rows), 0, Deploy(Rollback, 2, Started, RELEASE1, Instance(2, 82), false, false))
  }

  lemma RollbackStarts()
    requires Reaches(InService1(), Held(Failed3(), 0, PREPARED2))
    ensures Reaches(InService1(), Started2())
  {
    Onward(InService1(), Held(Failed3(), 0, PREPARED2),
           Rollout(0, RunContainer(Some(Instance(2, 82)))), Started2());
  }

  lemma RollbackIsSaved()
    requires Reaches(InService1(), Started2())
    ensures Reaches(InService1(), Held(Saved2(), 0, Return2(Persisted, false)))
  {
    Onward(InService1(), Started2(), Rollout(0, SaveCandidate(true)), Held(Saved2(), 0, Return2(Persisted, false)));
  }

  lemma RollbackSwitches()
    requires Reaches(InService1(), Held(Saved2(), 0, Return2(Persisted, false)))
    ensures Reaches(InService1(), Held(Saved2().(route := Some(82)), 0, Return2(Switched, false)))
  {
    var w := InService1();
    Onward(w, Held(Saved2(), 0, Return2(Persisted, false)), Rollout(0, AwaitReady(true)),
           Held(Saved2(), 0, Return2(Ready, false)));
    Onward(w, Held(Saved2(), 0, Return2(Ready, false)), Rollout(0, SwitchRoute(true)),
           Held(Saved2().(route := Some(82)), 0, Return2(Switched, false)));
  }

  lemma RollbackCommits()
    requires Reaches(InService1(), Held(Saved2().(route := Some(82)), 0, Return2(Switched, false)))
    ensures Reaches(InService1(), Held(Promoted2(), 0, Return2(Phase.Promoted, true)))
  {
    var w, routed := InService1(), Saved2().(route := Some(82));
    Onward(w, Held(routed, 0, Return2(Switched, false)), Rollout(0, PublishChecks(true)),
           Held(routed, 0, Return2(Committing, false)));
    Onward(w, Held(routed, 0, Return2(Committing, false)), Rollout(0, Promote(true)),
           Held(Promoted2(), 0, Return2(Phase.Promoted, true)));
  }

  /** Both releases are up and the rollback has committed. */
  function JustPromoted(): World {
    Retiring(Phase.Promoted, map[1 := Container(81, true), 2 := Container(82, true)])
  }

  lemma PromotedRows()
    ensures Promoted2().rows == JustPromoted().rows && Promoted2().runs == JustPromoted().runs
  {
  }

  lemma PromotedContainers()
    ensures Promoted2().ctrs == JustPromoted().ctrs && Promoted2().born == JustPromoted().born
  {
  }

  lemma PromotedValues()
    ensures Held(Promoted2(), 0, Return2(Phase.Promoted, true)) == JustPromoted()
  {
    PromotedRows();
    PromotedContainers();
  }

  lemma ContainerIsStopped()
    ensures Halted(JustPromoted().ctrs, 1) == HalfRetired().ctrs
  {
  }

  lemma PreviousIsStopped()
    requires Reaches(InService1(), JustPromoted())
    ensures Reaches(InService1(), HalfRetired())
  {
    ContainerIsStopped();
    Onward(InService1(), JustPromoted(), Rollout(0, StopPrevious(true)), HalfRetired());
  }

  lemma ContainerIsRemoved()
    ensures HalfRetired().ctrs - {1} == Unlucky().ctrs
  {
  }

  lemma PreviousIsRemoved()
    requires Reaches(InService1(), HalfRetired())
    ensures Reaches(InService1(), Unlucky())
  {
    ContainerIsRemoved();
    Onward(InService1(), HalfRetired(), Rollout(0, RemovePrevious(true)), Unlucky());
  }

  lemma BuildFails()
    ensures Reaches(InService1(), Held(Saved3(), 7, Build3(Persisted)))
    ensures Reaches(InService1(), Held(Failed3(), 7, Build3(Leaving)))
  {
    GoodStart();
    BuildEnters();
    BuildReads();
    BuildStarts();
    BuildIsNotReady();
    BuildIsTakenAway();
    BuildIsNotForgotten();
  }

  /** Both worlds are reached from a good one by a build that fails its readiness check, and then one
      database write, followed by a rollback. */
  lemma UnluckyIsReached()
    ensures Inv(InService1()) && Hot(InService1()) && OnlyOwnCandidate(InService1())
    ensures Reaches(InService1(), HalfRetired()) && Reaches(InService1(), Unlucky())
  {
    GoodStart();
    BuildFails();
    RollbackIsAsked();
    RollbackEnters();
    RollbackReads();
    RollbackStarts();
    RollbackIsSaved();
    RollbackSwitches();
    RollbackCommits();
    PromotedValues();
    PreviousIsStopped();
    PreviousIsRemoved();
  }

  lemma ReachedInv(w: World)
    requires Reaches(InService1(), w)
    ensures Inv(w)
  {
    GoodStart();
    var log :| IsRun(InService1(), log) && BenignRun(log) && After(InService1(), log) == w;
    RunKeepsInv(InService1(), log);
  }

  lemma UnluckyIsInWindow(w: World)
    requires w == HalfRetired() || w == Unlucky()
    ensures RouteServed(w) && InWindow(w) && ReplacesNewer(w) && !NoOrphans(w.rows)
  {
    assert Serving(w, Instance(2, 82));
    assert Replacing(w, w.ops[0]);
    assert IsOrphan(w.rows, 3);
  }

  lemma UnluckyKeepsInv(w: World)
    requires w == HalfRetired() || w == Unlucky()
    ensures Inv(w)
  {
    UnluckyIsReached();
    ReachedInv(w);
  }

  /** The route comes back to the one row that GetActive can answer with. */
  lemma AnswerIsRouted(w: World, v: World, d: DepId, i: Instance)
    requires Interrupted(Crash(w), v) && RouteRestored(v)
    requires IsActive(w.rows, d) && w.rows[d].container == Some(i) && forall a | IsActive(w.rows, a) :: a == d
    ensures v.route == Some(i.port)
    ensures IsRunning(v.rows, d) && v.rows[d].container == Some(i) && SameContainer(w, v, v.rows[d])
  {
    SameReleasesSameAnswer(Crash(w), v);
    assert IsRunning(w.rows, d);
    var a :| AnsweredBy(v, a);
    assert IsActive(w.rows, a);
  }

  lemma NothingServes(w: World, v: World, port: nat)
    requires Interrupted(Crash(w), v) && v.route == Some(port)
    requires forall c | c in w.ctrs :: InService(w, c) && w.ctrs[c] != Container(port, true)
    ensures !RouteServed(v)
  {
    forall i | Serving(v, i) ensures i.port != port {
      assert InService(w, i.id) && IsRunning(w.rows, w.born[i.id]);
    }
  }

  lemma RetiringAnswers(phase: Phase, ctrs: map<ContainerId, Container>)
    ensures var t := Retiring(phase, ctrs).rows;
            && IsActive(t, 1) && t[1].container == Some(Instance(1, 81)) && (forall a | IsActive(t, a) :: a == 1)
            && (forall d | IsRunning(t, d) :: d == 1 || t[d].container == Some(Instance(2, 82)))
  {
    assert IsRunning(Retiring(phase, ctrs).rows, 1);
  }

  lemma RetiringServes(w: World)
    requires w == HalfRetired() || w == Unlucky()
    ensures forall c | c in w.ctrs :: InService(w, c) && w.ctrs[c] != Container(81, true)
  {
    assert IsRunning(w.rows, 1) && IsRunning(w.rows, 2);
  }

  /** A crash when row 1's container is gone: after however many start-ups, even one without a single error
      moves the served route to that container. */
  lemma StaleCandidateBreaksRecovery(v: World)
    requires Interrupted(Crash(Unlucky()), v) && RouteRestored(v)
    ensures v.route == Some(81) && !RouteSound(v) && !RouteServed(v)
  {
    var w := Unlucky();
    RetiringAnswers(PreviousRemoved, w.ctrs);
    AnswerIsRouted(w, v, 1, Instance(1, 81));
    RetiringServes(w);
    NothingServes(w, v, 81);
    forall d ensures !RouteTargets(v, d) {
      assert IsRunning(v.rows, d) ==> IsRunning(w.rows, d);
    }
  }

  /** A crash when it is only stopped: the served route is moved to a container that stands and does not serve. */
  lemma StoppedContainerIsRouted(v: World)
    requires Interrupted(Crash(HalfRetired()), v) && RouteRestored(v)
    ensures v.route == Some(81) && RouteSound(v) && !RouteServed(v)
  {
    var w := HalfRetired();
    RetiringAnswers(PreviousStopped, w.ctrs);
    AnswerIsRouted(w, v, 1, Instance(1, 81));
    RetiringServes(w);
    NothingServes(w, v, 81);
    assert RouteTargets(v, 1);
  }

  /** Outside the windows that happens as well: after a crash inside StopApp the old candidate makes recovery
      put the route back that StopApp had taken down. */
  lemma StoppedAppIsRouted(v: World)
    requires Interrupted(Crash(HalfStopped()), v) && RouteRestored(v)
    ensures v.route == Some(81) && RouteSound(v) && !RouteServed(v)
  {
    var w := HalfStopped();
    assert IsRunning(w.rows, 1) && IsActive(w.rows, 1);
    AnswerIsRouted(w, v, 1, Instance(1, 81));
    NothingServes(w, v, 81);
    assert RouteTargets(v, 1);
  }

  lemma ForgottenInterrupts(w: World, v: World, d: DepId)
    requires IsOrphan(w.rows, d) && forall e | IsOrphan(w.rows, e) :: e == d
    requires v == Crash(w).(rows := w.rows[d := w.rows[d].(candidate := None, status := Failed)], route := v.route)
    ensures Interrupted(Crash(w), v) && NoOrphans(v.rows)
  {
    forall e | e in v.rows ensures !IsOrphan(v.rows, e) { assert e != d ==> !IsOrphan(w.rows, e); }
  }

  /** A start-up like that does exist: it forgets the old candidate and does nothing else but move the route. */
  lemma UnluckyRestarts(w: World) returns (v: World)
    requires w == HalfRetired() || w == Unlucky()
    ensures CleanRestart(w, v, v)
  {
    RetiringAnswers(w.ops[0].phase, w.ctrs);
    assert IsOrphan(w.rows, 3);
    v := Crash(w).(rows := w.rows[3 := w.rows[3].(candidate := None, status := Failed)], route := Some(81));
    ForgottenInterrupts(w, v, 3);
    SameReleasesSameAnswer(Crash(w), v);
    assert AnsweredBy(v, 1);
    UnluckyReferences(w, v);
  }

  lemma UnluckyReferences(w: World, v: World)
    requires w == HalfRetired() || w == Unlucky()
    requires Interrupted(Crash(w), v)
    ensures forall c | c in w.ctrs :: Referenced(v.rows, c)
  {
    assert IsRunning(w.rows, 1) && IsRunning(w.rows, 2);
    assert Names(v.rows[1], 1) && Names(v.rows[2], 2);
    assert Referenced(v.rows, 1) && Referenced(v.rows, 2);
  }

  lemma FailedValues()
    ensures Failed3() == StoppingApp(QueuedStop, map[1 := Container(81, true)], Some(81)).(lock := None, ops := map[])
  {
    var v, w := Failed3(), StoppingApp(QueuedStop, map[1 := Container(81, true)], Some(81));
    assert v.rows == w.rows;
    assert v.ctrs == w.ctrs;
    assert v.born == w.born && v.runs == w.runs;
  }

  const ENTERED := Stop(StopLocked, Previous(0, Instance(0, 0)))

  lemma StopEnters()
    ensures Reaches(InService1(), StoppingApp(ENTERED, map[1 := Container(81, true)], Some(81)))
  {
    BuildFails();
    RollbackIsAsked();
    FailedValues();
    var queued := StoppingApp(QueuedStop, map[1 := Container(81, true)], Some(81)).(lock := None);
    Onward(InService1(), queued.(ops := map[]), Outside(StartStop(5)), queued);
    Onward(InService1(), queued, Outside(Acquire(5)), StoppingApp(ENTERED, map[1 := Container(81, true)], Some(81)));
  }

  function Unrouting(op: Op): World {
    StoppingApp(op, map[1 := Container(81, true)], None)
  }

  lemma StopUnroutes()
    requires Reaches(InService1(), StoppingApp(ENTERED, map[1 := Container(81, true)], Some(81)))
    ensures Reaches(InService1(), Unrouting(ENTERED.(stop := Unrouted)))
  {
    Onward(InService1(), StoppingApp(ENTERED, map[1 := Container(81, true)], Some(81)), Stopping(5, Unroute(true)),
           Unrouting(ENTERED.(stop := Unrouted)));
  }

  lemma StopChooses()
    requires Reaches(InService1(), Unrouting(ENTERED.(stop := Unrouted)))
    ensures Reaches(InService1(), Unrouting(Stop(Chosen, Previous(1, Instance(1, 81)))))
  {
    var w := Unrouting(ENTERED.(stop := Unrouted));
    assert IsVictim(w.rows, 1);
    Onward(InService1(), w, Stopping(5, ChooseVictim(1)), Unrouting(Stop(Chosen, Previous(1, Instance(1, 81)))));
  }

  lemma HalfStoppedIsReached()
    ensures Reaches(InService1(), HalfStopped()) && !InWindow(HalfStopped())
  {
    StopEnters();
    StopUnroutes();
    StopChooses();
    var w := Unrouting(Stop(Chosen, Previous(1, Instance(1, 81))));
    assert Halted(w.ctrs, 1) == HalfStopped().ctrs;
    Onward(InService1(), w, Stopping(5, StopVictim(true)), HalfStopped());
  }

  // ----- a route that is never restored -----

  /** What a start-up leaves of `Switched3` when its one route write fails: the container that the route goes
      to is removed and the candidate forgotten all the same. */
  function Unrestored3(): World {
    Crash(Switched3()).(rows := Switched3().rows[3 := Row(Failed, None, None, false, 4)],
                        ctrs := map[1 := Container(81, true)])
  }

  lemma Switched3IsReached()
    ensures Reaches(InService1(), Switched3()) && Inv(Switched3()) && SafeToRecover(Switched3())
  {
    BuildFails();
    BuildSwitches();
    SwitchedValues();
    ReachedInv(Switched3());
  }

  lemma BuildSwitches()
    requires Reaches(InService1(), Held(Saved3(), 7, Build3(Persisted)))
    ensures Reaches(InService1(), Held(Saved3().(route := Some(83)), 7, Build3(Switched)))
  {
    BuildIsReady();
    Onward(InService1(), Held(Saved3(), 7, Build3(Ready)), Rollout(7, SwitchRoute(true)),
           Held(Saved3().(route := Some(83)), 7, Build3(Switched)));
  }

  lemma BuildIsReady()
    requires Reaches(InService1(), Held(Saved3(), 7, Build3(Persisted)))
    ensures Reaches(InService1(), Held(Saved3(), 7, Build3(Ready)))
  {
    Onward(InService1(), Held(Saved3(), 7, Build3(Persisted)), Rollout(7, AwaitReady(true)),
           Held(Saved3(), 7, Build3(Ready)));
  }

  lemma SwitchedValues()
    ensures Held(Saved3().(route := Some(83)), 7, Build3(Switched)) == Switched3()
  {
    var v, w := Held(Saved3().(route := Some(83)), 7, Build3(Switched)), Switched3();
    assert v.rows == w.rows;
    assert v.ctrs == w.ctrs;
    assert v.born == w.born && v.runs == w.runs;
  }

  /** That is what one start-up can leave. */
  lemma FailedRestore()
    ensures Recovers(Crash(Switched3()), Unrestored3(), {3})
    ensures NoOrphans(Unrestored3().rows) && !RouteInHand(Switched3(), Unrestored3())
  {
    assert IsOrphan(Switched3().rows, 3);
    var u := Unrestored3();
    assert IsRunning(u.rows, 1);
    forall a ensures !AnsweredBy(u, a) { assert IsActive(u.rows, a) ==> a == 1; }
  }

  /** No later start-up finds an orphan, so none tries again, and the route stays on the removed candidate. */
  lemma FailedRestoreIsFinal(v: World)
    requires Interrupted(Unrestored3(), v) && v.route == Unrestored3().route
    ensures !RouteServed(v)
  {
    var u := Unrestored3();
    assert IsRunning(u.rows, 1) && u.born[1] == 1 && InService(u, 1);
    NothingServes(u, v, 83);
  }
}
