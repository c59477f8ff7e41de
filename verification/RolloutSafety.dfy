/** The inductive invariant of the rollout protocol and what follows from it
    for every interleaving of builds, rollbacks, stops and cancellations.
 */
module RolloutSafety {
  import opened Domain
  import opened DeploymentTable
  import opened RolloutMachine

  /** A row's containers were started for that row, so no two rows share one;
      a row no build has started for has never been released. */
  ghost predicate RowInv(w: World, d: DepId)
    requires d in w.rows
  {
    var r := w.rows[d];
    && (r.container.Some? ==> r.container.value.id in w.born && w.born[r.container.value.id] == d)
    && (r.candidate.Some? ==> r.candidate.value.id in w.born && w.born[r.candidate.value.id] == d)
    && (r.candidate.Some? ==> r.container.Some? ==> r.candidate.value.id != r.container.value.id)
    && (r.status == Running ==> r.container.Some? && r.candidate.None?)
    && (d !in w.runs ==> !Released(r.status) && r.container.None?)
  }

  ghost predicate TableInv(w: World) {
    && (forall d | d in w.rows :: RowInv(w, d))
    && (forall c | c in w.ctrs :: c in w.born)
  }

  /** A build's own row is unreleased until it promotes it; a rollback's target stays released. */
  ghost predicate OwnRow(w: World, o: OpId, kind: Kind, dep: DepId) {
    && dep in w.rows
    && (kind.Build? ==> dep in w.runs && w.runs[dep] == o)
    && (kind.Build? ==> !Released(w.rows[dep].status) && w.rows[dep].container.None?)
    && (kind.Rollback? ==> Released(w.rows[dep].status))
  }

  /** An operation is inside the rollout section exactly when it holds the lock. */
  ghost predicate Exclusive(w: World) {
    && (w.lock.Some? ==> w.lock.value in w.ops)
    && (forall o | o in w.ops :: InSection(w.ops[o]) <==> w.lock == Some(o))
  }

  ghost predicate OpsInv(w: World) {
    && Exclusive(w)
    && (forall o | o in w.ops && w.ops[o].Queued? :: OwnRow(w, o, w.ops[o].kind, w.ops[o].dep))
  }

  /** Every running row's container exists, and a present route targets one of them. */
  ghost predicate Quiet(w: World) {
    && AtMostOneRunning(w.rows)
    && (forall d | IsRunning(w.rows, d) :: Stands(w, d))
    && (w.route.Some? ==> exists d :: IsRunning(w.rows, d) && Owns(w, d, w.route.value))
  }

  ghost predicate Stands(w: World, d: DepId) {
    d in w.rows && w.rows[d].container.Some? && Present(w, w.rows[d].container.value)
  }

  ghost predicate Owns(w: World, d: DepId, port: nat) {
    d in w.rows && w.rows[d].container.Some? && w.rows[d].container.value.port == port
  }

  /** The running rows are exactly the previous release (or there is none), and its container exists. */
  ghost predicate OnlyPrevious(w: World, prev: Option<Previous>) {
    && (forall d | d in w.rows :: IsRunning(w.rows, d) <==> prev.Some? && prev.value.dep == d)
    && (prev.Some? ==> PreviousStands(w, prev.value))
  }

  ghost predicate PreviousStands(w: World, p: Previous) {
    && IsRunning(w.rows, p.dep)
    && w.rows[p.dep].container == Some(p.inst)
    && Present(w, p.inst)
  }

  ghost predicate RouteAtPrevious(w: World, prev: Option<Previous>) {
    w.route.Some? ==> prev.Some? && w.route.value == prev.value.inst.port
  }

  /** The candidate was started for this operation's row and is not its recorded release. */
  ghost predicate CandidateOwned(w: World, op: Op)
    requires op.Deploy? && op.dep in w.rows
  {
    && op.cand.id in w.born && w.born[op.cand.id] == op.dep
    && (w.rows[op.dep].container.Some? ==> w.rows[op.dep].container.value.id != op.cand.id)
  }

  ghost predicate BeforePromotion(w: World, o: OpId, op: Op)
    requires op.Deploy?
  {
    && OwnRow(w, o, op.kind, op.dep)
    && !op.promoted
    && OnlyPrevious(w, op.prev)
    && !IsRunning(w.rows, op.dep)
  }

  ghost predicate AfterPromotion(w: World, op: Op)
    requires op.Deploy?
  {
    && op.promoted
    && IsRunning(w.rows, op.dep)
    && w.rows[op.dep].container == Some(op.cand)
    && Serving(w, op.cand)
    && w.route == Some(op.cand.port)
    && (forall d | IsRunning(w.rows, d) :: d == op.dep || (op.prev.Some? && op.prev.value.dep == d))
    && (op.prev.Some? ==>
          && op.prev.value.dep != op.dep
          && IsRunning(w.rows, op.prev.value.dep)
          && w.rows[op.prev.value.dep].container == Some(op.prev.value.inst))
  }

  /** What has become of the release this one replaced. */
  ghost predicate Replaced(t: Table, kind: Kind, prev: Option<Previous>) {
    prev.Some? ==>
      prev.value.dep in t && t[prev.value.dep].status == match kind case Build => Superseded case Rollback => RolledBack
  }

  // ----- phases -----

  /** Knows the previous release and has neither committed nor given up the candidate's row. */
  predicate Open(p: Phase) {
    p.Prepared? || p.ClearingCandidate? || CandidateKnown(p)
  }

  predicate CandidateKnown(p: Phase) {
    CandidateUp(p) || p.StoppingCandidate? || p.RemovingCandidate?
  }

  predicate CandidateUp(p: Phase) {
    p.Started? || CandidateRecorded(p)
  }

  predicate CandidateRecorded(p: Phase) {
    p.Persisted? || p.Ready? || RouteOnCandidate(p)
  }

  predicate RouteOnCandidate(p: Phase) {
    p.Switched? || p.Committing? || p.Compensating?
  }

  predicate Committed(p: Phase) {
    p.Promoted? || p.PreviousStopped? || p.PreviousRemoved?
  }

  predicate Settled(p: Phase) {
    p.Locked? || p.Marking? || p.Leaving?
  }

  ghost predicate CandidateInv(w: World, op: Op)
    requires op.Deploy? && op.dep in w.rows
  {
    var c := w.rows[op.dep].candidate;
    && (CandidateKnown(op.phase) ==> CandidateOwned(w, op))
    && (CandidateUp(op.phase) ==> Serving(w, op.cand))
    && (op.phase.Started? ==> c.Some? ==> c.value.id != op.cand.id)
    && (CandidateRecorded(op.phase) ==> c == Some(op.cand))
  }

  ghost predicate DeployInv(w: World, o: OpId, op: Op)
    requires op.Deploy?
  {
    && op.dep in w.rows
    && CandidateInv(w, op)
    && (Open(op.phase) ==>
          && BeforePromotion(w, o, op)
          && (if RouteOnCandidate(op.phase) then w.route == Some(op.cand.port) else RouteAtPrevious(w, op.prev)))
    && (Settled(op.phase) ==> Quiet(w) && (!op.promoted && op.prev.Some? ==> PreviousStands(w, op.prev.value)))
    && (op.phase.Locked? || op.phase.Marking? ==> OwnRow(w, o, op.kind, op.dep) && !op.promoted)
    && (Committed(op.phase) ==> AfterPromotion(w, op) && (op.phase.Promoted? || op.prev.Some?))
    && (op.phase.Promoted? && op.prev.Some? ==> Present(w, op.prev.value.inst))
    && (op.phase.Leaving? ==>
          if op.promoted
          then && IsRunning(w.rows, op.dep) && w.rows[op.dep].container == Some(op.cand)
               && w.route == Some(op.cand.port) && Replaced(w.rows, op.kind, op.prev)
          else OwnRow(w, o, op.kind, op.dep))
  }

  ghost predicate OnlyVictim(w: World, v: Previous) {
    && v.dep in w.rows
    && w.rows[v.dep].container == Some(v.inst)
    && (forall d | IsRunning(w.rows, d) :: d == v.dep)
  }

  ghost predicate HolderInv(w: World, o: OpId, op: Op) {
    match op
    case Deploy(_, _, _, _, _, _, _) => DeployInv(w, o, op)
    case Stop(stop, v) =>
      (match stop
       case StopLocked => Quiet(w)
       case Unrouted => Quiet(w) && w.route.None?
       case Chosen => Quiet(w) && w.route.None? && OnlyVictim(w, v)
       case VictimStopped => Quiet(w) && w.route.None? && OnlyVictim(w, v)
       case VictimRemoved => w.route.None? && OnlyVictim(w, v)
       case StopDone => Quiet(w) && w.route.None? && NoneRunning(w.rows)
       case StopLeaving => Quiet(w))
    case _ => false
  }

  ghost predicate Inv(w: World) {
    && TableInv(w)
    && OpsInv(w)
    && match w.lock
       case None => Quiet(w)
       case Some(o) => HolderInv(w, o, w.ops[o])
  }

  // ----- steps outside the lock -----

  /** A change of rows that no lock holder can notice: released rows, containers and
      candidates stay, other rows stay unreleased. */
  ghost predicate Calm(t: Table, u: Table) {
    && (forall d | d in t :: d in u && u[d].container == t[d].container && u[d].candidate == t[d].candidate &&
                             (u[d].status == t[d].status || (!Released(t[d].status) && !Released(u[d].status))))
    && (forall d | d in u && d !in t :: u[d].container.None? && u[d].candidate.None? && !Released(u[d].status))
  }

  ghost predicate SameBut(w: World, v: World) {
    && v.ctrs == w.ctrs && v.route == w.route && v.born == w.born
    && (forall d | d in w.runs :: d in v.runs && v.runs[d] == w.runs[d])
  }

  lemma CalmKeepsQuiet(w: World, v: World)
    requires Calm(w.rows, v.rows) && SameBut(w, v)
    requires Quiet(w)
    ensures Quiet(v)
  {
    assert forall d :: IsRunning(v.rows, d) <==> IsRunning(w.rows, d);
    if w.route.Some? {
      var d :| IsRunning(w.rows, d) && Owns(w, d, w.route.value);
      assert IsRunning(v.rows, d) && Owns(v, d, v.route.value);
    }
  }

  lemma CalmKeepsTable(w: World, v: World)
    requires TableInv(w)
    requires Calm(w.rows, v.rows) && SameBut(w, v)
    ensures TableInv(v)
  {
  }

  lemma CalmKeepsOwnRow(w: World, v: World, o: OpId, kind: Kind, dep: DepId)
    requires Calm(w.rows, v.rows) && SameBut(w, v)
    requires OwnRow(w, o, kind, dep)
    ensures OwnRow(v, o, kind, dep)
    ensures IsRunning(v.rows, dep) <==> IsRunning(w.rows, dep)
  {
  }

  lemma CalmKeepsOnlyPrevious(w: World, v: World, prev: Option<Previous>)
    requires Calm(w.rows, v.rows) && SameBut(w, v)
    requires OnlyPrevious(w, prev)
    ensures OnlyPrevious(v, prev)
  {
  }

  lemma CalmKeepsDeploy(w: World, v: World, o: OpId, op: Op)
    requires Calm(w.rows, v.rows) && SameBut(w, v)
    requires op.Deploy? && DeployInv(w, o, op)
    ensures DeployInv(v, o, op)
  {
    if OwnRow(w, o, op.kind, op.dep) { CalmKeepsOwnRow(w, v, o, op.kind, op.dep); }
    if OnlyPrevious(w, op.prev) { CalmKeepsOnlyPrevious(w, v, op.prev); }
    if Quiet(w) { CalmKeepsQuiet(w, v); }
    if AfterPromotion(w, op) {
      assert forall d :: IsRunning(v.rows, d) <==> IsRunning(w.rows, d);
      assert AfterPromotion(v, op);
    }
  }

  lemma CalmKeepsHolder(w: World, v: World, o: OpId, op: Op)
    requires Calm(w.rows, v.rows) && SameBut(w, v)
    requires HolderInv(w, o, op)
    ensures HolderInv(v, o, op)
  {
    if op.Deploy? {
      CalmKeepsDeploy(w, v, o, op);
    } else {
      if Quiet(w) { CalmKeepsQuiet(w, v); }
      assert forall d :: IsRunning(v.rows, d) <==> IsRunning(w.rows, d);
    }
  }

  /** A status write on an unreleased row, with or without the cancellation guard, is calm. */
  lemma StatusWritesAreCalm(t: Table, d: DepId, s: Status)
    requires d in t ==> !Released(t[d].status)
    requires !Released(s)
    ensures Calm(t, WithStatus(t, d, s))
  {
  }

  lemma CancelWritesAreCalm(t: Table, d: DepId)
    ensures Calm(t, WithCancelRequested(t, d)) && Calm(t, WithCancelled(t, d))
  {
  }

  lemma EntryIsCalm(w: World, e: Entry)
    requires Inv(w) && EntryEnabled(w, e)
    ensures Calm(w.rows, ApplyEntry(w, e).rows) && SameBut(w, ApplyEntry(w, e))
  {
    match e {
      case WriteBuilding(o) =>
        assert OwnRow(w, o, w.ops[o].kind, w.ops[o].dep);
        StatusWritesAreCalm(w.rows, w.ops[o].dep, Building);
      case Abandon(o, m) =>
        if !m.Keep? {
          assert OwnRow(w, o, w.ops[o].kind, w.ops[o].dep);
          StatusWritesAreCalm(w.rows, w.ops[o].dep, Failed);
          CancelWritesAreCalm(w.rows, w.ops[o].dep);
        }
      case CancelRequest(d) => CancelWritesAreCalm(w.rows, d);
      case CancelMark(d) => CancelWritesAreCalm(w.rows, d);
      case _ =>
    }
  }

  lemma EntryKeepsOps(w: World, e: Entry)
    requires Inv(w) && EntryEnabled(w, e)
    ensures OpsInv(ApplyEntry(w, e))
  {
    var v := ApplyEntry(w, e);
    EntryIsCalm(w, e);
    forall q | q in v.ops && v.ops[q].Queued?
      ensures OwnRow(v, q, v.ops[q].kind, v.ops[q].dep)
    {
      if q in w.ops && w.ops[q] == v.ops[q] {
        CalmKeepsOwnRow(w, v, q, v.ops[q].kind, v.ops[q].dep);
      } else {
        assert RowInv(w, v.ops[q].dep);
      }
    }
  }

  lemma EntryKeepsInv(w: World, e: Entry)
    requires Inv(w) && EntryEnabled(w, e)
    ensures Inv(ApplyEntry(w, e))
  {
    var v := ApplyEntry(w, e);
    EntryIsCalm(w, e);
    EntryKeepsOps(w, e);
    CalmKeepsTable(w, v);
    if w.lock.Some? {
      CalmKeepsHolder(w, v, w.lock.value, w.ops[w.lock.value]);
      assert v.ops[w.lock.value] == w.ops[w.lock.value];
    } else {
      CalmKeepsQuiet(w, v);
      if e.Acquire? && w.ops[e.op].Queued? {
        CalmKeepsOwnRow(w, v, e.op, w.ops[e.op].kind, w.ops[e.op].dep);
      }
    }
  }

  // ----- steps of the lock holder -----

  /** What a step of the lock holder must establish: it may rewrite rows, containers
      and route, but not the rows the queued operations rely on. */
  ghost predicate QueuedKept(w: World, v: World) {
    forall q | q in w.ops && w.ops[q].Queued? :: OwnRow(v, q, w.ops[q].kind, w.ops[q].dep)
  }

  lemma HolderStep(w: World, v: World, o: OpId, op: Op)
    requires OpsInv(w) && w.lock == Some(o) && InSection(op)
    requires v.ops == w.ops && v.lock == w.lock
    requires TableInv(v) && QueuedKept(w, v) && HolderInv(v, o, op)
    ensures Inv(Put(v, o, op))
  {
  }

  lemma RowsKept(w: World, v: World)
    requires TableInv(w) && OpsInv(w)
    requires v.rows == w.rows && v.runs == w.runs
    requires forall c | c in w.born :: c in v.born && v.born[c] == w.born[c]
    requires forall c | c in v.ctrs :: c in v.born
    ensures TableInv(v) && QueuedKept(w, v)
  {
  }

  lemma ReleaseKeepsInv(w: World, o: OpId)
    requires TableInv(w) && OpsInv(w) && w.lock == Some(o) && Quiet(w)
    ensures Inv(w.(lock := None, ops := w.ops - {o}))
  {
  }

  lemma OnlyPreviousIsQuiet(w: World, prev: Option<Previous>)
    requires OnlyPrevious(w, prev) && RouteAtPrevious(w, prev)
    ensures Quiet(w)
  {
  }

  lemma ReadActiveKeepsInv(w: World, o: OpId, s: DeployStep)
    requires Inv(w) && o in w.ops && w.ops[o].Deploy? && DeployEnabled(w, w.ops[o], s) && s.ReadActive?
    ensures Inv(ApplyDeploy(w, o, w.ops[o], s))
  {
    var op := w.ops[o];
    var v := ApplyDeploy(w, o, op, s);
    RowsKept(w, w);
    var op' := v.ops[o];
    if op'.phase.Prepared? {
      assert s.found.Some? ==> RowInv(w, s.found.value) && Stands(w, s.found.value);
      assert OnlyPrevious(w, op'.prev);
      if w.route.Some? {
        var d :| IsRunning(w.rows, d) && Owns(w, d, w.route.value);
      }
    }
    HolderStep(w, w, o, op');
  }

  lemma RunContainerKeepsInv(w: World, o: OpId, i: Instance)
    requires Inv(w) && o in w.ops && w.ops[o].Deploy? && DeployEnabled(w, w.ops[o], RunContainer(Some(i)))
    ensures Inv(ApplyDeploy(w, o, w.ops[o], RunContainer(Some(i))))
  {
    var op := w.ops[o];
    var v := w.(ctrs := w.ctrs[i.id := Container(i.port, true)], born := w.born[i.id := op.dep]);
    RowsKept(w, v);
    assert RowInv(w, op.dep);
    assert op.prev.Some? ==> RowInv(w, op.prev.value.dep);
    assert BeforePromotion(v, o, op);
    HolderStep(w, v, o, op.(phase := Started, cand := i));
  }

  lemma RunContainerFailureKeepsInv(w: World, o: OpId)
    requires Inv(w) && o in w.ops && w.ops[o].Deploy? && DeployEnabled(w, w.ops[o], RunContainer(None))
    ensures Inv(ApplyDeploy(w, o, w.ops[o], RunContainer(None)))
  {
    var op := w.ops[o];
    OnlyPreviousIsQuiet(w, op.prev);
    RowsKept(w, w);
    HolderStep(w, w, o, op.(phase := Marking));
  }

  lemma GiveUpKeepsInv(w: World, o: OpId)
    requires Inv(w) && o in w.ops && w.ops[o].Deploy? && DeployEnabled(w, w.ops[o], GiveUp)
    ensures Inv(ApplyDeploy(w, o, w.ops[o], GiveUp))
  {
  }

  lemma PhaseMove(w: World, o: OpId, op: Op)
    requires Inv(w) && o in w.ops && w.ops[o].Deploy?
    requires op.Deploy? && op == w.ops[o].(phase := op.phase) && DeployInv(w, o, op)
    ensures Inv(Put(w, o, op))
  {
  }

  lemma CheckKeepsInv(w: World, o: OpId, s: DeployStep)
    requires Inv(w) && o in w.ops && w.ops[o].Deploy? && DeployEnabled(w, w.ops[o], s)
    requires s.AwaitReady? || s.PublishChecks?
    ensures Inv(ApplyDeploy(w, o, w.ops[o], s))
  {
    var u := ApplyDeploy(w, o, w.ops[o], s);
    PhaseMove(w, o, u.ops[o]);
  }

  lemma FailedWriteKeepsInv(w: World, o: OpId, s: DeployStep)
    requires Inv(w) && o in w.ops && w.ops[o].Deploy? && DeployEnabled(w, w.ops[o], s)
    requires s == SwitchRoute(false) || s == SaveCandidate(false) || s == Promote(false)
    ensures Inv(ApplyDeploy(w, o, w.ops[o], s))
  {
    var op := w.ops[o];
    PhaseMove(w, o, op.(phase := if s.Promote? then Compensating else StoppingCandidate));
  }

  /** The two route writes: to the candidate, and back to the previous release. */
  lemma RouteWriteKeepsInv(w: World, o: OpId, s: DeployStep)
    requires Inv(w) && o in w.ops && w.ops[o].Deploy? && DeployEnabled(w, w.ops[o], s)
    requires s == SwitchRoute(true) || s == Compensate(true)
    ensures Inv(ApplyDeploy(w, o, w.ops[o], s))
  {
    var op := w.ops[o];
    var u := ApplyDeploy(w, o, op, s);
    var v := w.(route := u.route);
    RowsKept(w, v);
    assert BeforePromotion(v, o, op);
    HolderStep(w, v, o, u.ops[o]);
  }

  /** The candidate's row is the only row whose candidate column names it. */
  lemma SaveCandidateKeepsInv(w: World, o: OpId, s: DeployStep)
    requires Inv(w) && o in w.ops && w.ops[o].Deploy? && DeployEnabled(w, w.ops[o], s)
    requires s == SaveCandidate(true)
    ensures Inv(ApplyDeploy(w, o, w.ops[o], s))
  {
    var op := w.ops[o];
    var u := ApplyDeploy(w, o, op, s);
    var v := w.(rows := u.rows);
    CandidateWrite(w, v, o, op, Some(op.cand));
    assert DeployInv(v, o, u.ops[o]);
    HolderStep(w, v, o, u.ops[o]);
  }

  lemma CandidateWrite(w: World, v: World, o: OpId, op: Op, c: Option<Instance>)
    requires TableInv(w) && OpsInv(w) && w.lock == Some(o)
    requires op.Deploy? && BeforePromotion(w, o, op)
    requires v == w.(rows := WithCandidate(w.rows, op.dep, c))
    requires c.Some? ==> CandidateOwned(w, op) && c.value == op.cand
    ensures TableInv(v) && QueuedKept(w, v) && BeforePromotion(v, o, op)
    ensures RouteAtPrevious(w, op.prev) ==> Quiet(v)
  {
    assert forall d :: IsRunning(v.rows, d) <==> IsRunning(w.rows, d);
    forall d | d in v.rows ensures RowInv(v, d) { assert RowInv(w, d); }
    forall q | q in w.ops && w.ops[q].Queued?
      ensures OwnRow(v, q, w.ops[q].kind, w.ops[q].dep)
    {
      assert OwnRow(w, q, w.ops[q].kind, w.ops[q].dep);
    }
    assert OnlyPrevious(v, op.prev);
    if RouteAtPrevious(w, op.prev) { OnlyPreviousIsQuiet(v, op.prev); }
  }

  /** Stopping or removing the candidate cannot hit the previous release. */
  lemma CandidateTakenAway(w: World, o: OpId, ctrs: map<ContainerId, Container>, p: Phase)
    requires Inv(w) && o in w.ops && w.ops[o].Deploy?
    requires w.ops[o].phase.StoppingCandidate? || w.ops[o].phase.RemovingCandidate?
    requires p.RemovingCandidate? || p.ClearingCandidate? || p.Marking?
    requires ctrs.Keys <= w.ctrs.Keys
    requires forall c | c in w.ctrs && c != w.ops[o].cand.id :: c in ctrs && ctrs[c] == w.ctrs[c]
    ensures Inv(Put(w.(ctrs := ctrs), o, w.ops[o].(phase := p)))
  {
    var op := w.ops[o];
    var v := w.(ctrs := ctrs);
    RowsKept(w, v);
    assert op.prev.Some? ==> RowInv(w, op.prev.value.dep);
    assert OnlyPrevious(v, op.prev);
    OnlyPreviousIsQuiet(v, op.prev);
    HolderStep(w, v, o, op.(phase := p));
  }

  lemma CleanupKeepsInv(w: World, o: OpId, s: DeployStep)
    requires Inv(w) && o in w.ops && w.ops[o].Deploy? && DeployEnabled(w, w.ops[o], s)
    requires s.StopCandidate? || s.RemoveCandidate?
    ensures Inv(ApplyDeploy(w, o, w.ops[o], s))
  {
    var u := ApplyDeploy(w, o, w.ops[o], s);
    CandidateTakenAway(w, o, u.ctrs, u.ops[o].phase);
  }

  lemma ClearCandidateKeepsInv(w: World, o: OpId, s: DeployStep)
    requires Inv(w) && o in w.ops && w.ops[o].Deploy? && DeployEnabled(w, w.ops[o], s) && s.ClearCandidate?
    ensures Inv(ApplyDeploy(w, o, w.ops[o], s))
  {
    var op := w.ops[o];
    var u := ApplyDeploy(w, o, op, s);
    var v := w.(rows := u.rows);
    if s.ok {
      CandidateWrite(w, v, o, op, None);
    } else {
      RowsKept(w, v);
      OnlyPreviousIsQuiet(v, op.prev);
    }
    HolderStep(w, v, o, u.ops[o]);
  }

  lemma MarksAreCalm(t: Table, d: DepId, m: Mark, kind: Kind)
    requires m.Keep? || kind.Build?
    requires d in t && (kind.Build? ==> !Released(t[d].status))
    ensures Calm(t, Marked(t, d, m))
  {
  }

  lemma CalmKeepsRest(w: World, v: World)
    requires TableInv(w) && OpsInv(w) && Quiet(w)
    requires Calm(w.rows, v.rows) && SameBut(w, v) && v.ops == w.ops
    ensures TableInv(v) && QueuedKept(w, v) && Quiet(v)
  {
    CalmKeepsTable(w, v);
    CalmKeepsQuiet(w, v);
    forall q | q in w.ops && w.ops[q].Queued?
      ensures OwnRow(v, q, w.ops[q].kind, w.ops[q].dep)
    {
      CalmKeepsOwnRow(w, v, q, w.ops[q].kind, w.ops[q].dep);
    }
  }

  lemma CalmKeepsUncommitted(w: World, v: World, o: OpId, op: Op)
    requires op.Deploy? && op.phase.Marking? && DeployInv(w, o, op) && Quiet(v)
    requires Calm(w.rows, v.rows) && SameBut(w, v)
    ensures DeployInv(v, o, op.(phase := Leaving))
  {
    CalmKeepsOwnRow(w, v, o, op.kind, op.dep);
  }

  lemma MarkOutcomeKeepsInv(w: World, o: OpId, s: DeployStep)
    requires Inv(w) && o in w.ops && w.ops[o].Deploy? && DeployEnabled(w, w.ops[o], s)
    requires s.MarkOutcome?
    ensures Inv(ApplyDeploy(w, o, w.ops[o], s))
  {
    var op := w.ops[o];
    var v := w.(rows := Marked(w.rows, op.dep, s.mark));
    MarksAreCalm(w.rows, op.dep, s.mark, op.kind);
    CalmKeepsRest(w, v);
    CalmKeepsUncommitted(w, v, o, op);
    HolderStep(w, v, o, op.(phase := Leaving));
  }

  /** The commit point: the row starts running while the previous one still does. */
  lemma PromoteKeepsInv(w: World, o: OpId, s: DeployStep)
    requires Inv(w) && o in w.ops && w.ops[o].Deploy? && DeployEnabled(w, w.ops[o], s)
    requires s == Promote(true)
    ensures Inv(ApplyDeploy(w, o, w.ops[o], s))
  {
  }

  /** Taking the previous container away cannot hit the promoted one. */
  lemma PreviousGoesKeepsCommitted(w: World, v: World, o: OpId, op: Op, phase: Phase)
    requires op.Deploy? && DeployInv(w, o, op) && AfterPromotion(w, op) && op.prev.Some?
    requires v == w.(ctrs := v.ctrs) && op.cand.id != op.prev.value.inst.id
    requires forall c | c in w.ctrs && c != op.prev.value.inst.id :: c in v.ctrs && v.ctrs[c] == w.ctrs[c]
    requires phase.PreviousStopped? || phase.PreviousRemoved?
    ensures DeployInv(v, o, op.(phase := phase))
  {
  }

  lemma StopPreviousKeepsInv(w: World, o: OpId, s: DeployStep)
    requires Inv(w) && o in w.ops && w.ops[o].Deploy? && DeployEnabled(w, w.ops[o], s)
    requires s.StopPrevious? || s.RemovePrevious?
    ensures Inv(ApplyDeploy(w, o, w.ops[o], s))
  {
    var op := w.ops[o];
    var u := ApplyDeploy(w, o, op, s);
    var v := w.(ctrs := u.ctrs);
    RowsKept(w, v);
    assert RowInv(w, op.dep) && RowInv(w, op.prev.value.dep);
    PreviousGoesKeepsCommitted(w, v, o, op, u.ops[o].phase);
    HolderStep(w, v, o, u.ops[o]);
  }

  lemma RetirePreviousKeepsInv(w: World, o: OpId, s: DeployStep)
    requires Inv(w) && o in w.ops && w.ops[o].Deploy? && DeployEnabled(w, w.ops[o], s)
    requires s == RetirePrevious(true)
    ensures Inv(ApplyDeploy(w, o, w.ops[o], s))
  {
    var op := w.ops[o];
    var u := ApplyDeploy(w, o, op, s);
    var v := w.(rows := u.rows);
    forall d ensures IsRunning(v.rows, d) <==> d == op.dep {
      assert IsRunning(v.rows, d) ==> IsRunning(w.rows, d) && d != op.prev.value.dep;
    }
    forall d | d in v.rows ensures RowInv(v, d) { assert RowInv(w, d); }
    forall q | q in w.ops && w.ops[q].Queued?
      ensures OwnRow(v, q, w.ops[q].kind, w.ops[q].dep)
    {
      assert OwnRow(w, q, w.ops[q].kind, w.ops[q].dep);
    }
    assert IsRunning(v.rows, op.dep) && Owns(v, op.dep, op.cand.port) && Stands(v, op.dep);
    assert Quiet(v);
    HolderStep(w, v, o, u.ops[o]);
  }

  lemma DeployReleaseKeepsInv(w: World, o: OpId)
    requires Inv(w) && o in w.ops && w.ops[o].Deploy? && DeployEnabled(w, w.ops[o], Release)
    ensures Inv(ApplyDeploy(w, o, w.ops[o], Release))
  {
  }

  /** The steps up to the commit point. */
  predicate Forward(s: DeployStep) {
    s.ReadActive? || s.GiveUp? || s.RunContainer? || s.SaveCandidate? || s.AwaitReady? || s.SwitchRoute? ||
    s.PublishChecks? || s.Promote?
  }

  /** The steps up to the commit point that leave their mark on more than the phase. */
  predicate Writes(s: DeployStep) {
    s == SaveCandidate(true) || s == SwitchRoute(true) || s == Promote(true) || (s.RunContainer? && s.result.Some?)
  }

  lemma WriteKeepsInv(w: World, o: OpId, s: DeployStep)
    requires Inv(w) && o in w.ops && w.ops[o].Deploy? && DeployEnabled(w, w.ops[o], s) && Writes(s)
    ensures Inv(ApplyDeploy(w, o, w.ops[o], s))
  {
    if s.SaveCandidate? { SaveCandidateKeepsInv(w, o, s); }
    else if s.SwitchRoute? { RouteWriteKeepsInv(w, o, s); }
    else if s.Promote? { PromoteKeepsInv(w, o, s); }
    else { RunContainerKeepsInv(w, o, s.result.value); }
  }

  lemma ForwardKeepsInv(w: World, o: OpId, s: DeployStep)
    requires Inv(w) && o in w.ops && w.ops[o].Deploy? && DeployEnabled(w, w.ops[o], s) && Forward(s)
    ensures Inv(ApplyDeploy(w, o, w.ops[o], s))
  {
    if Writes(s) { WriteKeepsInv(w, o, s); }
    else if s.ReadActive? { ReadActiveKeepsInv(w, o, s); }
    else if s.GiveUp? { GiveUpKeepsInv(w, o); }
    else if s.RunContainer? { RunContainerFailureKeepsInv(w, o); }
    else if s.AwaitReady? || s.PublishChecks? { CheckKeepsInv(w, o, s); }
    else { FailedWriteKeepsInv(w, o, s); }
  }

  lemma DeployKeepsInv(w: World, o: OpId, s: DeployStep)
    requires Inv(w) && o in w.ops && w.ops[o].Deploy? && DeployEnabled(w, w.ops[o], s)
    requires Benign(Rollout(o, s))
    ensures Inv(ApplyDeploy(w, o, w.ops[o], s))
  {
    if Forward(s) {
      ForwardKeepsInv(w, o, s);
    } else {
      match s {
        case Compensate(_) => RouteWriteKeepsInv(w, o, s);
        case StopCandidate(_) => CleanupKeepsInv(w, o, s);
        case RemoveCandidate(_) => CleanupKeepsInv(w, o, s);
        case ClearCandidate(_) => ClearCandidateKeepsInv(w, o, s);
        case MarkOutcome(_) => MarkOutcomeKeepsInv(w, o, s);
        case StopPrevious(_) => StopPreviousKeepsInv(w, o, s);
        case RemovePrevious(_) => StopPreviousKeepsInv(w, o, s);
        case RetirePrevious(_) => RetirePreviousKeepsInv(w, o, s);
        case Release => DeployReleaseKeepsInv(w, o);
      }
    }
  }

  // ----- StopApp -----

  lemma ChooseVictimKeepsInv(w: World, o: OpId, s: StopStep)
    requires Inv(w) && o in w.ops && w.ops[o].Stop? && StopEnabled(w, w.ops[o], s) && s.ChooseVictim?
    ensures Inv(ApplyStop(w, o, w.ops[o], s))
  {
  }

  lemma StopWriteKeepsInv(w: World, o: OpId, s: StopStep)
    requires Inv(w) && o in w.ops && w.ops[o].Stop? && StopEnabled(w, w.ops[o], s)
    requires s.Unroute? || s.NothingToStop? || s.StopGiveUp? || s.StopVictim? || s.RemoveVictim?
    ensures Inv(ApplyStop(w, o, w.ops[o], s))
  {
    var u := ApplyStop(w, o, w.ops[o], s);
    var v := u.(ops := w.ops);
    RowsKept(w, v);
    if s.Unroute? || s.StopVictim? || s.StopGiveUp? || s.NothingToStop? || !s.ok { assert Quiet(v); }
    assert HolderInv(v, o, u.ops[o]);
    HolderStep(w, v, o, u.ops[o]);
  }

  lemma MarkStoppedKeepsInv(w: World, o: OpId, s: StopStep)
    requires Inv(w) && o in w.ops && w.ops[o].Stop? && StopEnabled(w, w.ops[o], s)
    requires s == MarkStopped(true)
    ensures Inv(ApplyStop(w, o, w.ops[o], s))
  {
    var op := w.ops[o];
    var u := ApplyStop(w, o, op, s);
    var v := u.(ops := w.ops);
    forall d ensures !IsRunning(v.rows, d) {
      assert IsRunning(w.rows, d) ==> d == op.victim.dep;
    }
    forall d | d in v.rows ensures RowInv(v, d) { assert RowInv(w, d); }
    forall q | q in w.ops && w.ops[q].Queued?
      ensures OwnRow(v, q, w.ops[q].kind, w.ops[q].dep)
    {
      assert OwnRow(w, q, w.ops[q].kind, w.ops[q].dep);
    }
    HolderStep(w, v, o, u.ops[o]);
  }

  lemma StopKeepsInv(w: World, o: OpId, s: StopStep)
    requires Inv(w) && o in w.ops && w.ops[o].Stop? && StopEnabled(w, w.ops[o], s)
    requires Benign(Stopping(o, s))
    ensures Inv(ApplyStop(w, o, w.ops[o], s))
  {
    match s {
      case ChooseVictim(_) => ChooseVictimKeepsInv(w, o, s);
      case MarkStopped(_) => MarkStoppedKeepsInv(w, o, s);
      case StopRelease => ReleaseKeepsInv(w, o);
      case _ => StopWriteKeepsInv(w, o, s);
    }
  }

  // ----- every run -----

  /** A step inside the section rewrites its own operation only, until it releases the lock. */
  ghost predicate SectionStep(w: World, v: World, o: OpId, release: bool) {
    if release
    then v.lock.None? && v.ops == w.ops - {o}
    else v.lock == w.lock && o in v.ops && InSection(v.ops[o]) && v.ops == w.ops[o := v.ops[o]]
  }

  lemma WriteIsSectionStep(w: World, o: OpId, op: Op, s: DeployStep)
    requires op.Deploy? && DeployEnabled(w, op, s) && Writes(s)
    ensures SectionStep(w, ApplyDeploy(w, o, op, s), o, false)
  {
    var v := ApplyDeploy(w, o, op, s);
    assert v.ops == w.ops[o := v.ops[o]];
  }

  lemma ForwardIsSectionStep(w: World, o: OpId, op: Op, s: DeployStep)
    requires op.Deploy? && DeployEnabled(w, op, s) && Forward(s) && !Writes(s)
    ensures SectionStep(w, ApplyDeploy(w, o, op, s), o, false)
  {
    var v := ApplyDeploy(w, o, op, s);
    assert v.ops == w.ops[o := v.ops[o]];
  }

  lemma BackwardIsSectionStep(w: World, o: OpId, op: Op, s: DeployStep)
    requires op.Deploy? && DeployEnabled(w, op, s) && !Forward(s)
    ensures SectionStep(w, ApplyDeploy(w, o, op, s), o, s.Release?)
  {
  }

  lemma DeployIsSectionStep(w: World, o: OpId, op: Op, s: DeployStep)
    requires op.Deploy? && DeployEnabled(w, op, s)
    ensures SectionStep(w, ApplyDeploy(w, o, op, s), o, s.Release?)
  {
    if Writes(s) { WriteIsSectionStep(w, o, op, s); }
    else if Forward(s) { ForwardIsSectionStep(w, o, op, s); }
    else { BackwardIsSectionStep(w, o, op, s); }
  }

  lemma StopIsSectionStep(w: World, o: OpId, op: Op, s: StopStep)
    requires op.Stop? && StopEnabled(w, op, s)
    ensures SectionStep(w, ApplyStop(w, o, op, s), o, s.StopRelease?)
  {
  }

  lemma SectionStepKeepsExclusive(w: World, v: World, o: OpId, release: bool)
    requires Exclusive(w) && o in w.ops && InSection(w.ops[o]) && SectionStep(w, v, o, release)
    ensures Exclusive(v)
  {
  }

  lemma EntryKeepsExclusive(w: World, e: Entry)
    requires Exclusive(w) && EntryEnabled(w, e)
    ensures Exclusive(ApplyEntry(w, e))
  {
  }

  lemma StepKeepsExclusive(w: World, l: Label)
    requires Exclusive(w) && Enabled(w, l)
    ensures Exclusive(Apply(w, l))
  {
    match l {
      case Outside(e) => EntryKeepsExclusive(w, e);
      case Rollout(o, s) =>
        DeployIsSectionStep(w, o, w.ops[o], s);
        SectionStepKeepsExclusive(w, ApplyDeploy(w, o, w.ops[o], s), o, s.Release?);
      case Stopping(o, s) =>
        StopIsSectionStep(w, o, w.ops[o], s);
        SectionStepKeepsExclusive(w, ApplyStop(w, o, w.ops[o], s), o, s.StopRelease?);
    }
  }

  /** Mutual exclusion holds on every run, whichever calls fail. */
  lemma {:induction false} RunKeepsExclusive(w: World, log: seq<Label>)
    requires Exclusive(w) && IsRun(w, log)
    ensures Exclusive(After(w, log))
    decreases |log|
  {
    if log != [] {
      RunKeepsExclusive(w, log[..|log|-1]);
      StepKeepsExclusive(After(w, log[..|log|-1]), log[|log|-1]);
    }
  }

  lemma StepKeepsInv(w: World, l: Label)
    requires Inv(w) && Enabled(w, l) && Benign(l)
    ensures Inv(Apply(w, l))
  {
    match l {
      case Outside(e) => EntryKeepsInv(w, e);
      case Rollout(o, s) => DeployKeepsInv(w, o, s);
      case Stopping(o, s) => StopKeepsInv(w, o, s);
    }
  }

  lemma {:induction false} RunKeepsInv(w: World, log: seq<Label>)
    requires Inv(w) && IsRun(w, log) && BenignRun(log)
    ensures Inv(After(w, log))
    decreases |log|
  {
    if log != [] {
      var front, l := log[..|log|-1], log[|log|-1];
      assert BenignRun(front);
      RunKeepsInv(w, front);
      StepKeepsInv(After(w, front), l);
    }
  }
}
