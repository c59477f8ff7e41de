/** Whole-run theorems about rollouts: one running release, no downtime, no leaked
    container, the stale rollback check, and exactly which calls all this rests on.
 */
module RolloutTheorems {
  import opened Domain
  import opened DeploymentTable
  import opened RolloutMachine
  import opened RolloutSafety

  // ----- one running release, and the route goes to it -----

  ghost predicate RouteTargets(w: World, d: DepId) {
    && IsRunning(w.rows, d) && w.rows[d].container.Some?
    && Present(w, w.rows[d].container.value)
    && w.route == Some(w.rows[d].container.value.port)
  }

  lemma OneRunningRelease(w: World, log: seq<Label>)
    requires Inv(w) && IsRun(w, log) && BenignRun(log)
    requires After(w, log).lock.None?
    ensures var v := After(w, log);
            && AtMostOneRunning(v.rows)
            && (forall d | IsRunning(v.rows, d) :: Stands(v, d))
            && (v.route.Some? ==> exists d :: RouteTargets(v, d))
  {
    RunKeepsInv(w, log);
    var v := After(w, log);
    if v.route.Some? {
      var d :| IsRunning(v.rows, d) && Owns(v, d, v.route.value);
      assert Stands(v, d) && RouteTargets(v, d);
    }
  }

  /** Rollback re-checks only that its target is not the active row, yet in every
      reachable world that re-check passes exactly when the whole pre-lock test still would. */
  lemma StaleRollbackCheckIsSafe(w: World, o: OpId, found: Option<DepId>)
    requires Inv(w) && o in w.ops && w.ops[o].Deploy? && w.ops[o].kind.Rollback?
    requires DeployEnabled(w, w.ops[o], ReadActive(found))
    ensures w.ops[o].dep in w.rows
    ensures ApplyDeploy(w, o, w.ops[o], ReadActive(found)).ops[o].phase.Prepared?
       <==> Rollbackable(w.rows[w.ops[o].dep].status)
  {
    var t := w.ops[o].dep;
    assert OwnRow(w, o, Rollback, t);
    if IsRunning(w.rows, t) {
      assert found.Some? && IsRunning(w.rows, found.value);
    }
  }

  // ----- zero downtime -----

  ghost predicate RouteServed(w: World) {
    exists i :: Serving(w, i) && w.route == Some(i.port)
  }

  ghost predicate ReleaseServes(w: World) {
    && w.route.Some?
    && forall d | IsRunning(w.rows, d) :: w.rows[d].container.Some? && Serving(w, w.rows[d].container.value)
  }

  /** The release in service is up, and the holder of the lock has not let go of it. */
  ghost predicate Hot(w: World) {
    w.route.Some? &&
    match w.lock
    case None => ReleaseServes(w)
    case Some(o) => o in w.ops && HotHolder(w, w.ops[o])
  }

  ghost predicate HotHolder(w: World, op: Op) {
    match op
    case Deploy(_, _, phase, prev, _, _, _) =>
      && (Settled(phase) ==> ReleaseServes(w))
      && (Open(phase) ==> prev.Some? && Serving(w, prev.value.inst))
    case Stop(stop, _) => (stop.StopLocked? || stop.StopLeaving?) && ReleaseServes(w)
    case _ => false
  }

  lemma HotIsServed(w: World)
    requires Inv(w) && Hot(w)
    ensures RouteServed(w)
  {
  }

  /** StopApp takes the route away on purpose. */
  predicate TakesRouteDown(l: Label) {
    match l
    case Stopping(_, Unroute(ok)) => ok
    case _ => false
  }

  lemma CalmKeepsServing(w: World, v: World)
    requires Calm(w.rows, v.rows) && SameBut(w, v)
    requires ReleaseServes(w)
    ensures ReleaseServes(v)
  {
  }

  lemma EntryKeepsHot(w: World, e: Entry)
    requires Inv(w) && Hot(w) && EntryEnabled(w, e)
    ensures Hot(ApplyEntry(w, e))
  {
    var v := ApplyEntry(w, e);
    EntryIsCalm(w, e);
    if ReleaseServes(w) { CalmKeepsServing(w, v); }
  }

  lemma PreviousServes(w: World, prev: Option<Previous>)
    requires OnlyPrevious(w, prev) && prev.Some? && Serving(w, prev.value.inst) && w.route.Some?
    ensures ReleaseServes(w)
  {
  }

  lemma ReadActiveKeepsHot(w: World, o: OpId, op: Op, found: Option<DepId>)
    requires op.Deploy? && DeployInv(w, o, op) && HotHolder(w, op) && w.route.Some?
    requires DeployEnabled(w, op, ReadActive(found))
    ensures HotHolder(w, ApplyDeploy(w, o, op, ReadActive(found)).ops[o])
  {
  }

  lemma RunContainerKeepsHot(w: World, o: OpId, op: Op, s: DeployStep)
    requires op.Deploy? && TableInv(w) && DeployInv(w, o, op) && HotHolder(w, op) && w.route.Some?
    requires DeployEnabled(w, op, s) && s.RunContainer?
    ensures HotHolder(ApplyDeploy(w, o, op, s), ApplyDeploy(w, o, op, s).ops[o])
  {
    assert RowInv(w, op.prev.value.dep);
  }

  /** Taking the candidate away leaves the previous release, another container, in service. */
  lemma CandidateGoesKeepsHot(w: World, o: OpId, op: Op, s: DeployStep)
    requires op.Deploy? && TableInv(w) && DeployInv(w, o, op) && HotHolder(w, op) && w.route.Some?
    requires DeployEnabled(w, op, s) && (s.StopCandidate? || s.RemoveCandidate?)
    ensures HotHolder(ApplyDeploy(w, o, op, s), ApplyDeploy(w, o, op, s).ops[o])
  {
    var v := ApplyDeploy(w, o, op, s);
    assert RowInv(w, op.prev.value.dep);
    assert Serving(v, op.prev.value.inst) && OnlyPrevious(v, op.prev);
    PreviousServes(v, op.prev);
  }

  /** The steps that move the phase or write the route. */
  lemma RouteStepKeepsHot(w: World, o: OpId, op: Op, s: DeployStep)
    requires op.Deploy? && DeployInv(w, o, op) && HotHolder(w, op) && w.route.Some?
    requires DeployEnabled(w, op, s) && Benign(Rollout(o, s))
    requires s.GiveUp? || s.AwaitReady? || s.SwitchRoute? || s.PublishChecks? || s.Compensate?
    ensures HotHolder(ApplyDeploy(w, o, op, s), ApplyDeploy(w, o, op, s).ops[o])
    ensures ApplyDeploy(w, o, op, s).route.Some?
  {
    if Open(op.phase) { PreviousServes(w, op.prev); }
  }

  /** The steps that write the operation's own row. */
  lemma RowStepKeepsHot(w: World, o: OpId, op: Op, s: DeployStep)
    requires op.Deploy? && DeployInv(w, o, op) && HotHolder(w, op) && w.route.Some?
    requires DeployEnabled(w, op, s) && (s.SaveCandidate? || s.ClearCandidate?)
    ensures HotHolder(ApplyDeploy(w, o, op, s), ApplyDeploy(w, o, op, s).ops[o])
  {
    var v := ApplyDeploy(w, o, op, s);
    PreviousServes(w, op.prev);
    assert forall d :: IsRunning(v.rows, d) <==> IsRunning(w.rows, d);
  }

  lemma PromoteKeepsHot(w: World, o: OpId, op: Op, ok: bool)
    requires op.Deploy? && DeployInv(w, o, op) && HotHolder(w, op) && DeployEnabled(w, op, Promote(ok))
    ensures HotHolder(ApplyDeploy(w, o, op, Promote(ok)), ApplyDeploy(w, o, op, Promote(ok)).ops[o])
  {
  }

  lemma CommittedStepKeepsHot(w: World, o: OpId, op: Op, s: DeployStep)
    requires op.Deploy? && DeployInv(w, o, op) && HotHolder(w, op) && DeployEnabled(w, op, s)
    requires s.StopPrevious? || s.RemovePrevious?
    ensures HotHolder(ApplyDeploy(w, o, op, s), ApplyDeploy(w, o, op, s).ops[o])
  {
  }

  lemma RetireKeepsHot(w: World, o: OpId, op: Op)
    requires op.Deploy? && DeployInv(w, o, op) && HotHolder(w, op) && DeployEnabled(w, op, RetirePrevious(true))
    ensures HotHolder(ApplyDeploy(w, o, op, RetirePrevious(true)), ApplyDeploy(w, o, op, RetirePrevious(true)).ops[o])
  {
    var v := ApplyDeploy(w, o, op, RetirePrevious(true));
    forall d | IsRunning(v.rows, d) ensures d == op.dep {
      assert IsRunning(w.rows, d);
    }
  }

  lemma MarkKeepsHot(w: World, o: OpId, op: Op, m: Mark)
    requires op.Deploy? && DeployInv(w, o, op) && HotHolder(w, op) && DeployEnabled(w, op, MarkOutcome(m))
    ensures HotHolder(ApplyDeploy(w, o, op, MarkOutcome(m)), ApplyDeploy(w, o, op, MarkOutcome(m)).ops[o])
  {
  }

  lemma ReleaseKeepsHot(w: World, o: OpId, op: Op)
    requires op.Deploy? && DeployInv(w, o, op) && HotHolder(w, op) && DeployEnabled(w, op, Release) && w.route.Some?
    ensures ReleaseServes(ApplyDeploy(w, o, op, Release))
  {
  }

  lemma UncommittedStepKeepsHot(w: World, o: OpId, op: Op, s: DeployStep)
    requires op.Deploy? && TableInv(w) && DeployInv(w, o, op) && HotHolder(w, op) && w.route.Some?
    requires DeployEnabled(w, op, s) && Benign(Rollout(o, s))
    requires !s.ReadActive? && !s.MarkOutcome? && !s.Release?
    requires !s.StopPrevious? && !s.RemovePrevious? && !s.RetirePrevious?
    ensures HotHolder(ApplyDeploy(w, o, op, s), ApplyDeploy(w, o, op, s).ops[o])
    ensures ApplyDeploy(w, o, op, s).route.Some?
  {
    if s.RunContainer? { RunContainerKeepsHot(w, o, op, s); }
    else if s.StopCandidate? || s.RemoveCandidate? { CandidateGoesKeepsHot(w, o, op, s); }
    else if s.SaveCandidate? || s.ClearCandidate? { RowStepKeepsHot(w, o, op, s); }
    else if s.Promote? { PromoteKeepsHot(w, o, op, s.ok); }
    else { RouteStepKeepsHot(w, o, op, s); }
  }

  lemma DeployKeepsHot(w: World, o: OpId, s: DeployStep)
    requires Inv(w) && Hot(w) && o in w.ops && w.ops[o].Deploy? && DeployEnabled(w, w.ops[o], s)
    requires Benign(Rollout(o, s))
    ensures Hot(ApplyDeploy(w, o, w.ops[o], s))
  {
    var op := w.ops[o];
    assert w.lock == Some(o);
    if s.ReadActive? { ReadActiveKeepsHot(w, o, op, s.found); }
    else if s.MarkOutcome? { MarkKeepsHot(w, o, op, s.mark); }
    else if s.Release? { ReleaseKeepsHot(w, o, op); }
    else if s.StopPrevious? || s.RemovePrevious? { CommittedStepKeepsHot(w, o, op, s); }
    else if s.RetirePrevious? { RetireKeepsHot(w, o, op); }
    else { UncommittedStepKeepsHot(w, o, op, s); }
  }

  lemma StepKeepsHot(w: World, l: Label)
    requires Inv(w) && Hot(w) && Enabled(w, l) && Benign(l) && !TakesRouteDown(l)
    ensures Hot(Apply(w, l))
  {
    match l {
      case Outside(e) => EntryKeepsHot(w, e);
      case Rollout(o, s) => DeployKeepsHot(w, o, s);
      case Stopping(o, s) =>
    }
  }

  /** Zero downtime over a whole run: once a release is in service, every later world
      of every interleaving of builds, rollbacks, cancellations and abandoned stops,
      with every pre-commit failure, routes to a serving container. */
  lemma {:induction false} ServedForever(w: World, log: seq<Label>)
    requires Inv(w) && Hot(w) && IsRun(w, log) && BenignRun(log)
    requires forall i | 0 <= i < |log| :: !TakesRouteDown(log[i])
    ensures Hot(After(w, log)) && RouteServed(After(w, log))
    decreases |log|
  {
    RunKeepsInv(w, log);
    if log != [] {
      var front, l := log[..|log|-1], log[|log|-1];
      assert BenignRun(front);
      ServedForever(w, front);
      RunKeepsInv(w, front);
      StepKeepsHot(After(w, front), l);
    }
    HotIsServed(After(w, log));
  }

  lemma PromotionMakesHot(w: World, o: OpId)
    requires Inv(w) && Enabled(w, Rollout(o, Promote(true)))
    ensures Inv(Apply(w, Rollout(o, Promote(true)))) && Hot(Apply(w, Rollout(o, Promote(true))))
  {
    StepKeepsInv(w, Rollout(o, Promote(true)));
  }

  /** Zero downtime from the first release on: after any promotion, and until StopApp takes the
      route down, every world of a run routes to a serving container. */
  lemma {:induction false} ServedSincePromotion(w: World, log: seq<Label>, k: nat)
    requires Inv(w) && IsRun(w, log) && BenignRun(log)
    requires k < |log| && log[k].Rollout? && log[k].step == Promote(true)
    requires forall i | k < i < |log| :: !TakesRouteDown(log[i])
    ensures Hot(After(w, log)) && RouteServed(After(w, log))
    decreases |log|
  {
    var front, l := log[..|log|-1], log[|log|-1];
    assert BenignRun(front);
    RunKeepsInv(w, front);
    if k == |log| - 1 {
      PromotionMakesHot(After(w, front), l.op);
    } else {
      ServedSincePromotion(w, front, k);
      StepKeepsHot(After(w, front), l);
    }
    RunKeepsInv(w, log);
    HotIsServed(After(w, log));
  }

  // ----- what happens in which order -----

  predicate ByOther(l: Label, me: OpId) {
    match l
    case Outside(e) =>
      e.CreateRow? || e.CancelRequest? || e.CancelMark? || e.op != me
    case Rollout(o, _) => o != me
    case Stopping(o, _) => o != me
  }

  /** No other operation can touch the containers or the route while `me` holds the lock. */
  lemma OthersKeepOut(w: World, l: Label, me: OpId)
    requires Exclusive(w) && Enabled(w, l) && ByOther(l, me) && me in w.ops
    ensures var v := Apply(w, l);
            && me in v.ops && v.ops[me] == w.ops[me]
            && (w.lock == Some(me) ==> v.lock == Some(me) && v.ctrs == w.ctrs && v.route == w.route)
  {
    match l {
      case Outside(e) =>
      case Rollout(o, s) => DeployIsSectionStep(w, o, w.ops[o], s);
      case Stopping(o, s) => StopIsSectionStep(w, o, w.ops[o], s);
    }
  }

  /** The call gives the route back, or makes the candidate the release. */
  predicate SettlesRoute(l: Label, o: OpId) {
    match l
    case Rollout(p, Compensate(_)) => p == o
    case Rollout(p, Promote(ok)) => p == o && ok
    case _ => false
  }

  /** Compensation precedes clean-up, whichever calls fail: from the route switch on, nobody touches
      a container or the route before the operation has compensated or committed. */
  lemma {:induction false} RouteIsSettledFirst(w: World, log: seq<Label>, o: OpId)
    requires Exclusive(w) && IsRun(w, log) && o in w.ops && w.ops[o].Deploy? && RouteOnCandidate(w.ops[o].phase)
    requires forall i | 0 <= i < |log| :: !SettlesRoute(log[i], o)
    ensures var v := After(w, log);
            && v.lock == Some(o) && v.ctrs == w.ctrs && v.route == w.route
            && o in v.ops && v.ops[o].Deploy? && RouteOnCandidate(v.ops[o].phase)
            && v.ops[o] == w.ops[o].(phase := v.ops[o].phase)
    decreases |log|
  {
    if log != [] {
      var front, l := log[..|log|-1], log[|log|-1];
      RouteIsSettledFirst(w, front, o);
      RunKeepsExclusive(w, front);
      assert !SettlesRoute(l, o);
      if ByOther(l, o) { OthersKeepOut(After(w, front), l, o); }
    }
  }

  // ----- containers are conserved -----

  ghost predicate InService(w: World, c: ContainerId) {
    && c in w.born && IsRunning(w.rows, w.born[c])
    && w.rows[w.born[c]].container.Some? && w.rows[w.born[c]].container.value.id == c
  }

  ghost predicate HeldBy(holder: Option<Op>, c: ContainerId) {
    holder.Some? && holder.value.Deploy? && CandidateKnown(holder.value.phase) && holder.value.cand.id == c
  }

  ghost predicate TakenAway(w: World, holder: Option<Op>) {
    holder.Some? ==>
      match holder.value
      case Deploy(_, _, phase, prev, _, _, _) =>
        phase.PreviousRemoved? && prev.Some? ==> prev.value.inst.id !in w.ctrs
      case Stop(stop, victim) => stop.VictimRemoved? ==> victim.inst.id !in w.ctrs
      case _ => true
  }

  function Holder(w: World): Option<Op> {
    if w.lock.Some? && w.lock.value in w.ops then Some(w.ops[w.lock.value]) else None
  }

  /** Every container belongs to a running row, or is the candidate the lock holder is handling. */
  ghost predicate AccountedWith(w: World, holder: Option<Op>) {
    && (forall c | c in w.ctrs :: InService(w, c) || HeldBy(holder, c))
    && TakenAway(w, holder)
  }

  ghost predicate Accounted(w: World) {
    AccountedWith(w, Holder(w))
  }

  /** Every removal of a candidate or of a replaced container takes effect. */
  predicate Tidy(l: Label) {
    match l
    case Rollout(_, RemoveCandidate(ok)) => ok
    case Rollout(_, RemovePrevious(ok)) => ok
    case _ => true
  }

  lemma EntryKeepsAccounted(w: World, e: Entry)
    requires Inv(w) && Accounted(w) && EntryEnabled(w, e)
    ensures Accounted(ApplyEntry(w, e))
  {
    EntryIsCalm(w, e);
  }

  lemma PromoteKeepsAccounted(w: World, o: OpId, op: Op)
    requires op.Deploy? && TableInv(w) && DeployInv(w, o, op) && AccountedWith(w, Some(op))
    requires DeployEnabled(w, op, Promote(true))
    ensures AccountedWith(ApplyDeploy(w, o, op, Promote(true)), Some(ApplyDeploy(w, o, op, Promote(true)).ops[o]))
  {
  }

  lemma MarkKeepsAccounted(w: World, o: OpId, op: Op, m: Mark)
    requires op.Deploy? && DeployInv(w, o, op) && AccountedWith(w, Some(op))
    requires DeployEnabled(w, op, MarkOutcome(m))
    ensures AccountedWith(ApplyDeploy(w, o, op, MarkOutcome(m)), Some(ApplyDeploy(w, o, op, MarkOutcome(m)).ops[o]))
  {
  }

  lemma CandidateWriteKeepsAccounted(w: World, o: OpId, op: Op, s: DeployStep)
    requires op.Deploy? && DeployInv(w, o, op) && AccountedWith(w, Some(op))
    requires DeployEnabled(w, op, s) && (s == SaveCandidate(true) || s.ClearCandidate?)
    ensures AccountedWith(ApplyDeploy(w, o, op, s), Some(ApplyDeploy(w, o, op, s).ops[o]))
  {
  }

  /** Nothing but the phase and the route has changed. */
  lemma PhaseKeepsAccounted(w: World, v: World, op: Op, op': Op)
    requires op.Deploy? && op'.Deploy? && AccountedWith(w, Some(op)) && v == w.(route := v.route, ops := v.ops)
    requires CandidateKnown(op.phase) ==> CandidateKnown(op'.phase) && op'.cand == op.cand
    requires !op'.phase.PreviousRemoved?
    ensures AccountedWith(v, Some(op'))
  {
    forall c | c in v.ctrs ensures InService(v, c) || HeldBy(Some(op'), c) {
      assert InService(w, c) || HeldBy(Some(op), c);
    }
  }

  lemma PhaseStepKeepsAccounted(w: World, o: OpId, op: Op, s: DeployStep)
    requires op.Deploy? && AccountedWith(w, Some(op)) && DeployEnabled(w, op, s)
    requires s.ReadActive? || s.GiveUp? || s == SaveCandidate(false) || s.AwaitReady? || s.SwitchRoute? ||
             s.PublishChecks? || s == Promote(false) || s.Compensate?
    ensures AccountedWith(ApplyDeploy(w, o, op, s), Some(ApplyDeploy(w, o, op, s).ops[o]))
  {
    var v := ApplyDeploy(w, o, op, s);
    PhaseKeepsAccounted(w, v, op, v.ops[o]);
  }

  lemma CandidateMovesKeepAccounted(w: World, o: OpId, op: Op, s: DeployStep)
    requires op.Deploy? && DeployInv(w, o, op) && AccountedWith(w, Some(op))
    requires DeployEnabled(w, op, s) && Tidy(Rollout(o, s))
    requires s.RunContainer? || s.StopCandidate? || s.RemoveCandidate?
    ensures AccountedWith(ApplyDeploy(w, o, op, s), Some(ApplyDeploy(w, o, op, s).ops[o]))
  {
    var v := ApplyDeploy(w, o, op, s);
    forall c | c in v.ctrs ensures InService(v, c) || HeldBy(Some(v.ops[o]), c) {
      assert c in w.ctrs ==> InService(w, c) || HeldBy(Some(op), c);
      if InService(w, c) { assert InService(v, c); }
    }
  }

  lemma PreviousMovesKeepAccounted(w: World, o: OpId, op: Op, s: DeployStep)
    requires op.Deploy? && AccountedWith(w, Some(op)) && DeployEnabled(w, op, s) && Tidy(Rollout(o, s))
    requires s.StopPrevious? || s.RemovePrevious?
    ensures AccountedWith(ApplyDeploy(w, o, op, s), Some(ApplyDeploy(w, o, op, s).ops[o]))
  {
    var v := ApplyDeploy(w, o, op, s);
    forall c | c in v.ctrs ensures InService(v, c) {
      assert InService(w, c) || HeldBy(Some(op), c);
    }
  }

  lemma RetireKeepsAccounted(w: World, o: OpId, op: Op)
    requires op.Deploy? && TableInv(w) && DeployInv(w, o, op) && AccountedWith(w, Some(op))
    requires DeployEnabled(w, op, RetirePrevious(true))
    ensures AccountedWith(ApplyDeploy(w, o, op, RetirePrevious(true)),
                          Some(ApplyDeploy(w, o, op, RetirePrevious(true)).ops[o]))
  {
  }

  lemma DeployKeepsAccounted(w: World, o: OpId, s: DeployStep)
    requires Inv(w) && Accounted(w) && o in w.ops && w.ops[o].Deploy? && DeployEnabled(w, w.ops[o], s)
    requires Benign(Rollout(o, s)) && Tidy(Rollout(o, s))
    ensures Accounted(ApplyDeploy(w, o, w.ops[o], s))
  {
    var op := w.ops[o];
    assert w.lock == Some(o) && Holder(w) == Some(op);
    if s.RetirePrevious? { RetireKeepsAccounted(w, o, op); }
    else if s == Promote(true) { PromoteKeepsAccounted(w, o, op); }
    else if s.MarkOutcome? { MarkKeepsAccounted(w, o, op, s.mark); }
    else if s.RunContainer? || s.StopCandidate? || s.RemoveCandidate? { CandidateMovesKeepAccounted(w, o, op, s); }
    else if s.StopPrevious? || s.RemovePrevious? { PreviousMovesKeepAccounted(w, o, op, s); }
    else if s.Release? {
      var v := ApplyDeploy(w, o, op, s);
      forall c | c in v.ctrs ensures InService(v, c) { assert InService(w, c); }
    } else if s == SaveCandidate(true) || s.ClearCandidate? { CandidateWriteKeepsAccounted(w, o, op, s); }
    else { PhaseStepKeepsAccounted(w, o, op, s); }
  }

  lemma StopKeepsAccounted(w: World, o: OpId, s: StopStep)
    requires Inv(w) && Accounted(w) && o in w.ops && w.ops[o].Stop? && StopEnabled(w, w.ops[o], s)
    requires Benign(Stopping(o, s))
    ensures Accounted(ApplyStop(w, o, w.ops[o], s))
  {
  }

  /** With every removal taking effect nothing leaks: whenever the lock is free, the
      managed containers are exactly those of the running rows. */
  lemma {:induction false} NothingLeaks(w: World, log: seq<Label>)
    requires Inv(w) && Accounted(w) && IsRun(w, log) && BenignRun(log)
    requires forall i | 0 <= i < |log| :: Tidy(log[i])
    ensures Accounted(After(w, log))
    ensures After(w, log).lock.None? ==>
              forall c :: c in After(w, log).ctrs <==> InService(After(w, log), c)
    decreases |log|
  {
    RunKeepsInv(w, log);
    if log != [] {
      var front, l := log[..|log|-1], log[|log|-1];
      assert BenignRun(front);
      NothingLeaks(w, front);
      RunKeepsInv(w, front);
      match l {
        case Outside(e) => EntryKeepsAccounted(After(w, front), e);
        case Rollout(o, s) => DeployKeepsAccounted(After(w, front), o, s);
        case Stopping(o, s) => StopKeepsAccounted(After(w, front), o, s);
      }
    }
    var v := After(w, log);
    if v.lock.None? {
      forall c | InService(v, c) ensures c in v.ctrs { assert Stands(v, v.born[c]); }
    }
  }

  // ----- what the protocol rests on -----

  /** No two serving containers publish the same port. */
  ghost predicate PortsApart(w: World) {
    forall c, e | c in w.ctrs && e in w.ctrs && w.ctrs[c].serving && w.ctrs[e].serving && c != e ::
      w.ctrs[c].port != w.ctrs[e].port
  }

  /** Containers lose service or go away, or one more comes up on a free port. */
  ghost predicate PortsOnlyFreed(w: World, v: World) {
    forall c | c in v.ctrs && v.ctrs[c].serving ::
      c in w.ctrs && w.ctrs[c].serving && v.ctrs[c].port == w.ctrs[c].port
  }

  lemma FreedPortsStayApart(w: World, v: World)
    requires PortsApart(w) && PortsOnlyFreed(w, v)
    ensures PortsApart(v)
  {
  }

  lemma ForwardKeepsContainers(w: World, o: OpId, op: Op, s: DeployStep)
    requires op.Deploy? && DeployEnabled(w, op, s) && Forward(s) && !s.RunContainer?
    ensures ApplyDeploy(w, o, op, s).ctrs == w.ctrs
  {
  }

  lemma BackwardFreesPorts(w: World, o: OpId, op: Op, s: DeployStep)
    requires op.Deploy? && DeployEnabled(w, op, s) && !Forward(s)
    ensures PortsOnlyFreed(w, ApplyDeploy(w, o, op, s))
  {
  }

  lemma DeployFreesPorts(w: World, o: OpId, op: Op, s: DeployStep)
    requires op.Deploy? && DeployEnabled(w, op, s) && !s.RunContainer?
    ensures PortsOnlyFreed(w, ApplyDeploy(w, o, op, s))
  {
    if Forward(s) { ForwardKeepsContainers(w, o, op, s); } else { BackwardFreesPorts(w, o, op, s); }
  }

  lemma RunContainerKeepsPortsApart(w: World, o: OpId, op: Op, s: DeployStep)
    requires PortsApart(w) && op.Deploy? && DeployEnabled(w, op, s) && s.RunContainer?
    ensures PortsApart(ApplyDeploy(w, o, op, s))
  {
  }

  lemma StopFreesPorts(w: World, o: OpId, op: Op, s: StopStep)
    requires op.Stop? && StopEnabled(w, op, s)
    ensures PortsOnlyFreed(w, ApplyStop(w, o, op, s))
  {
  }

  lemma StepKeepsPortsApart(w: World, l: Label)
    requires PortsApart(w) && Enabled(w, l)
    ensures PortsApart(Apply(w, l))
  {
    match l {
      case Outside(e) =>
      case Rollout(o, s) =>
        if s.RunContainer? {
          RunContainerKeepsPortsApart(w, o, w.ops[o], s);
        } else {
          DeployFreesPorts(w, o, w.ops[o], s);
          FreedPortsStayApart(w, Apply(w, l));
        }
      case Stopping(o, s) =>
        StopFreesPorts(w, o, w.ops[o], s);
        FreedPortsStayApart(w, Apply(w, l));
    }
  }

  /** As every container is started on a free port, no two that serve ever share one. */
  lemma {:induction false} RunKeepsPortsApart(w: World, log: seq<Label>)
    requires PortsApart(w) && IsRun(w, log)
    ensures PortsApart(After(w, log))
    decreases |log|
  {
    if log != [] {
      RunKeepsPortsApart(w, log[..|log|-1]);
      StepKeepsPortsApart(After(w, log[..|log|-1]), log[|log|-1]);
    }
  }

  /** Giving the route back before the candidate is stopped keeps it served exactly
      when that one ignored call takes effect. */
  lemma CompensationIsNeeded(w: World, o: OpId, ok: bool)
    requires Inv(w) && Hot(w) && PortsApart(w) && o in w.ops && w.ops[o].Deploy? && w.ops[o].phase.Compensating?
    ensures var v := ApplyDeploy(w, o, w.ops[o], Compensate(ok));
            RouteServed(ApplyDeploy(v, o, v.ops[o], StopCandidate(true))) <==> ok
  {
  }

  /** After a promotion the application has one running row exactly when there was no
      other release to retire, or the ignored status write on it takes effect. */
  lemma RetirementIsNeeded(w: World, o: OpId, ok: bool)
    requires Inv(w) && o in w.ops && w.ops[o].Deploy? && w.ops[o].phase.PreviousRemoved?
    ensures AtMostOneRunning(ApplyDeploy(w, o, w.ops[o], RetirePrevious(ok)).rows) <==> ok
  {
    var op := w.ops[o];
    var v := ApplyDeploy(w, o, op, RetirePrevious(ok));
    if !ok {
      assert IsRunning(v.rows, op.dep) && IsRunning(v.rows, op.prev.value.dep);
    } else {
      forall d | IsRunning(v.rows, d) ensures d == op.dep {
        assert IsRunning(w.rows, d);
      }
    }
  }

  /** After StopApp removed a container, the rows still name only existing containers
      exactly when its status write takes effect, or the row was not running anyway. */
  lemma StopMarkIsNeeded(w: World, o: OpId, ok: bool)
    requires Inv(w) && o in w.ops && w.ops[o].Stop? && w.ops[o].stop.VictimRemoved?
    requires w.ops[o].victim.inst.id !in w.ctrs
    ensures var v := ApplyStop(w, o, w.ops[o], MarkStopped(ok));
            (forall d | IsRunning(v.rows, d) :: Stands(v, d)) <==> ok || !IsRunning(w.rows, w.ops[o].victim.dep)
  {
    var op := w.ops[o];
    var v := ApplyStop(w, o, op, MarkStopped(ok));
    forall d ensures IsRunning(v.rows, d) <==> !ok && d == op.victim.dep && IsRunning(w.rows, d) {
      assert IsRunning(v.rows, d) ==> IsRunning(w.rows, d);
    }
    assert !Stands(v, op.victim.dep);
  }
}
