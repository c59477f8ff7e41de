/** What the status of a row tells about its past: which calls write which status on which row,
    over all runs, and that nothing else does.
 */
module RowHistory {
  import opened Domain
  import opened DeploymentTable
  import opened RolloutMachine
  import opened RolloutSafety
  import opened RolloutTheorems

  // ----- the three classes of statuses -----

  /** A row can be cancelled until it has been promoted, has failed or has been cancelled; what was promoted
      can be returned to unless it runs. */
  lemma StatusClasses(s: Status)
    ensures Released(s) <==> s == Running || s == Superseded || s == RolledBack || s == Stopped
    ensures Cancellable(s) <==> !Released(s) && s != Failed && s != Cancelled
    ensures Rollbackable(s) <==> Released(s) && s != Running
  {
  }

  // ----- the columns each statement writes -----

  /** Every statement but those of the argument columns leaves the row as it is, and every other row. */
  lemma StatementColumns(t: Table, id: DepId, s: Status, c: Option<Instance>, i: Instance)
    ensures forall e | e != id ::
              && Unchanged(t, WithStatus(t, id, s), e) && Unchanged(t, WithCandidate(t, id, c), e)
              && Unchanged(t, WithCancelRequested(t, id), e) && Unchanged(t, WithCancelled(t, id), e)
              && Unchanged(t, WithPromotion(t, id, i), e)
    ensures id !in t ==> WithStatus(t, id, s) == WithCancelRequested(t, id) == WithCancelled(t, id) == t
    ensures id !in t ==> WithCandidate(t, id, c) == WithPromotion(t, id, i) == t
    ensures id in t ==>
      var r := t[id];
      && WithStatus(t, id, s)[id] == Row(s, r.container, r.candidate, r.cancelRequested, r.created)
      && WithCandidate(t, id, c)[id] == Row(r.status, r.container, c, r.cancelRequested, r.created)
      && WithPromotion(t, id, i)[id] == Row(Running, Some(i), None, r.cancelRequested, r.created)
      && WithCancelRequested(t, id)[id] == (if r.status in {Pending, Building, CancelRequested}
                                            then Row(CancelRequested, r.container, r.candidate, true, r.created) else r)
      && WithCancelled(t, id)[id] == (if r.status in {Pending, Building, CancelRequested}
                                      then Row(Cancelled, r.container, r.candidate, true, r.created) else r)
  {
  }

  predicate Unchanged(t: Table, u: Table, e: DepId) {
    (e in t <==> e in u) && (e in t ==> u[e] == t[e])
  }

  // ----- who writes which status -----

  /** The call writes status `s` on row `d`. */
  ghost predicate Says(w: World, l: Label, d: DepId, s: Status) {
    match l
    case Outside(e) => EntrySays(w, e, d, s)
    case Rollout(o, step) => o in w.ops && w.ops[o].Deploy? && DeploySays(w, w.ops[o], step, d, s)
    case Stopping(o, step) =>
      o in w.ops && w.ops[o].Stop? && d in w.rows &&
      step == MarkStopped(true) && d == w.ops[o].victim.dep && s == Stopped
  }

  ghost predicate EntrySays(w: World, e: Entry, d: DepId, s: Status) {
    match e
    case CreateRow(f, _) => f == d && s == Pending
    case CancelRequest(f) => f == d && d in w.rows && Unsettled(w.rows[d].status) && s == CancelRequested
    case CancelMark(f) => f == d && d in w.rows && Unsettled(w.rows[d].status) && s == Cancelled
    case WriteBuilding(o) => o in w.ops && w.ops[o].Queued? && w.ops[o].dep == d && d in w.rows && s == Building
    case Abandon(o, m) => o in w.ops && w.ops[o].Queued? && w.ops[o].dep == d && MarkSays(w, m, d, s)
    case _ => false
  }

  predicate Unsettled(s: Status) {
    s == Pending || s == Building || s == CancelRequested
  }

  ghost predicate MarkSays(w: World, m: Mark, d: DepId, s: Status) {
    d in w.rows && ((m.Fail? && s == Failed) || (m.Cancel? && Unsettled(w.rows[d].status) && s == Cancelled))
  }

  /** A build supersedes the release it replaces, a rollback rolls it back. */
  ghost predicate DeploySays(w: World, op: Op, step: DeployStep, d: DepId, s: Status)
    requires op.Deploy?
  {
    match step
    case Promote(ok) => ok && op.dep == d && d in w.rows && s == Running
    case MarkOutcome(m) => op.dep == d && MarkSays(w, m, d, s)
    case RetirePrevious(ok) =>
      ok && op.prev.Some? && op.prev.value.dep == d && d in w.rows &&
      ((op.kind.Build? && s == Superseded) || (op.kind.Rollback? && s == RolledBack))
    case _ => false
  }

  /** After the call the row has the status it was given, or the one it had. */
  ghost predicate Obeys(w: World, l: Label, d: DepId, v: World) {
    && (forall s | Says(w, l, d, s) :: d in v.rows && v.rows[d].status == s)
    && ((forall s :: !Says(w, l, d, s)) ==>
          && (d in v.rows <==> d in w.rows)
          && (d in w.rows ==> v.rows[d].status == w.rows[d].status))
  }

  lemma EntryObeys(w: World, e: Entry, d: DepId)
    requires EntryEnabled(w, e)
    ensures Obeys(w, Outside(e), d, ApplyEntry(w, e))
  {
    var v := ApplyEntry(w, e);
    assert forall s :: Says(w, Outside(e), d, s) <==> EntrySays(w, e, d, s);
    assert forall s | EntrySays(w, e, d, s) :: d in v.rows && v.rows[d].status == s;
    if !(d in v.rows <==> d in w.rows) || (d in w.rows && v.rows[d].status != w.rows[d].status) {
      assert EntrySays(w, e, d, v.rows[d].status);
    }
  }

  /** The steps of a rollout that write a row. */
  predicate WritesRow(step: DeployStep) {
    step.SaveCandidate? || step.ClearCandidate? || step.Promote? || step.MarkOutcome? || step.RetirePrevious?
  }

  lemma OtherStepsKeepRows(w: World, o: OpId, op: Op, step: DeployStep)
    requires op.Deploy? && DeployEnabled(w, op, step) && !WritesRow(step)
    ensures ApplyDeploy(w, o, op, step).rows == w.rows
  {
  }

  lemma WritingStepObeys(w: World, o: OpId, op: Op, step: DeployStep, d: DepId)
    requires op.Deploy? && DeployEnabled(w, op, step) && WritesRow(step)
    ensures var v := ApplyDeploy(w, o, op, step);
            && (forall s | DeploySays(w, op, step, d, s) :: d in v.rows && v.rows[d].status == s)
            && (d in v.rows <==> d in w.rows)
            && (d in w.rows && v.rows[d].status != w.rows[d].status ==> DeploySays(w, op, step, d, v.rows[d].status))
  {
  }

  lemma DeployObeys(w: World, o: OpId, op: Op, step: DeployStep, d: DepId)
    requires o in w.ops && w.ops[o] == op && op.Deploy? && DeployEnabled(w, op, step)
    ensures Obeys(w, Rollout(o, step), d, ApplyDeploy(w, o, op, step))
  {
    assert forall s :: Says(w, Rollout(o, step), d, s) <==> DeploySays(w, op, step, d, s);
    if WritesRow(step) {
      WritingStepObeys(w, o, op, step, d);
    } else {
      OtherStepsKeepRows(w, o, op, step);
    }
  }

  lemma StopObeys(w: World, o: OpId, op: Op, step: StopStep, d: DepId)
    requires o in w.ops && w.ops[o] == op && op.Stop? && StopEnabled(w, op, step)
    ensures Obeys(w, Stopping(o, step), d, ApplyStop(w, o, op, step))
  {
    var v := ApplyStop(w, o, op, step);
    if d in w.rows && v.rows[d].status != w.rows[d].status {
      assert Says(w, Stopping(o, step), d, v.rows[d].status);
    }
  }

  lemma StepObeys(w: World, l: Label, d: DepId)
    requires Enabled(w, l)
    ensures Obeys(w, l, d, Apply(w, l))
  {
    match l {
      case Outside(e) => EntryObeys(w, e, d);
      case Rollout(o, step) => DeployObeys(w, o, w.ops[o], step, d);
      case Stopping(o, step) => StopObeys(w, o, w.ops[o], step, d);
    }
  }

  /** `s` is the last status that the run wrote on the row. */
  ghost predicate SaidLast(w: World, log: seq<Label>, d: DepId, s: Status)
    requires IsRun(w, log)
  {
    log != [] &&
    var v, l := After(w, log[..|log|-1]), log[|log|-1];
    Says(v, l, d, s) || (SaidLast(w, log[..|log|-1], d, s) && forall t :: !Says(v, l, d, t))
  }

  /** Over all runs, whichever calls fail: the status of a row is the last one that was written on it. */
  lemma {:induction false} StatusTellsHistory(w: World, log: seq<Label>, d: DepId)
    requires IsRun(w, log)
    ensures var v := After(w, log);
            && (forall s | SaidLast(w, log, d, s) :: d in v.rows && v.rows[d].status == s)
            && ((forall s :: !SaidLast(w, log, d, s)) ==>
                  (d in v.rows <==> d in w.rows) && (d in w.rows ==> v.rows[d].status == w.rows[d].status))
    decreases |log|
  {
    if log != [] {
      var front, l := log[..|log|-1], log[|log|-1];
      StatusTellsHistory(w, front, d);
      StepObeys(After(w, front), l, d);
      if forall s :: !SaidLast(w, log, d, s) {
        forall s ensures !Says(After(w, front), l, d, s) { assert !SaidLast(w, log, d, s); }
        forall s ensures !SaidLast(w, front, d, s) { assert !SaidLast(w, log, d, s); }
      }
    }
  }

  /** When a release is superseded or rolled back, its successor runs already and has the route. */
  lemma SuccessorRuns(w: World, l: Label, d: DepId, s: Status)
    requires Inv(w) && Enabled(w, l) && Says(w, l, d, s) && (s == Superseded || s == RolledBack)
    ensures exists e :: e != d && RouteTargets(w, e) && RouteServed(w)
  {
    var op := w.ops[l.op];
    assert AfterPromotion(w, op);
    assert op.dep != d && RouteTargets(w, op.dep);
    assert Serving(w, op.cand) && w.route == Some(op.cand.port);
  }

  /** A new deployment waits, names no container and has not been asked to be cancelled. */
  lemma NewRow(w: World, d: DepId, created: nat)
    requires d !in w.rows && d !in w.runs
    ensures var v := Apply(w, Outside(CreateRow(d, created)));
            v.rows[d] == Row(Pending, None, None, false, created) && forall e | e in w.rows :: v.rows[e] == w.rows[e]
  {
  }

  // ----- the flag -----

  ghost predicate FlagFollows(w: World, l: Label, d: DepId, v: World) {
    d in w.rows && d in v.rows ==>
      (v.rows[d].cancelRequested <==>
         w.rows[d].cancelRequested || Says(w, l, d, CancelRequested) || Says(w, l, d, Cancelled))
  }

  lemma EntryFlag(w: World, e: Entry, d: DepId)
    requires EntryEnabled(w, e)
    ensures FlagFollows(w, Outside(e), d, ApplyEntry(w, e))
  {
  }

  lemma DeployFlag(w: World, o: OpId, op: Op, step: DeployStep, d: DepId)
    requires o in w.ops && w.ops[o] == op && op.Deploy? && DeployEnabled(w, op, step)
    ensures FlagFollows(w, Rollout(o, step), d, ApplyDeploy(w, o, op, step))
  {
    assert forall s :: Says(w, Rollout(o, step), d, s) <==> DeploySays(w, op, step, d, s);
  }

  /** The cancellation flag goes up with the two cancellation statuses, and never comes down. */
  lemma StepKeepsFlag(w: World, l: Label, d: DepId)
    requires Enabled(w, l)
    ensures FlagFollows(w, l, d, Apply(w, l))
  {
    match l {
      case Outside(e) => EntryFlag(w, e, d);
      case Rollout(o, step) => DeployFlag(w, o, w.ops[o], step, d);
      case Stopping(o, step) =>
    }
  }
}
