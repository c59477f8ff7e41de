/** The rollout protocol of one application as a transition system.

    A world is the deployment table, the managed containers, the default route,
    the rollout lock and the operations in flight. A label is one atomic effect
    of one operation (or of a caller outside the lock), together with whether
    the external call took effect. Runs interleave any number of operations.
 */
module RolloutMachine {
  import opened Domain
  import opened DeploymentTable

  datatype Container = Container(port: nat, serving: bool)

  datatype Kind = Build | Rollback

  /** The snapshot of the active row a rollout takes after it has the lock. */
  datatype Previous = Previous(dep: DepId, inst: Instance)

  datatype Phase =
    | Locked            // holds the lock, has not read the active row
    | Prepared          // knows the previous release
    | Started           // candidate container is up, not yet recorded
    | Persisted         // candidate recorded in its row
    | Ready             // candidate accepts connections
    | Switched          // default route points at the candidate
    | Committing        // the last cancellation check has passed
    | Compensating      // must give the route back
    | StoppingCandidate
    | RemovingCandidate
    | ClearingCandidate
    | Marking           // about to write the outcome into its own row
    | Promoted          // committed: the row is running
    | PreviousStopped
    | PreviousRemoved
    | Leaving           // only the lock release is left

  datatype StopPhase = StopLocked | Unrouted | Chosen | VictimStopped | VictimRemoved | StopDone | StopLeaving

  /** One call in flight. `cand` is a placeholder until the candidate is started. */
  datatype Op =
    | Queued(kind: Kind, dep: DepId)
    | QueuedStop
    | Deploy(kind: Kind, dep: DepId, phase: Phase, prev: Option<Previous>, cand: Instance,
             persisted: bool, promoted: bool)
    | Stop(stop: StopPhase, victim: Previous)

  /** `born` remembers which row every container was started for (its label);
      `runs` remembers which operation builds a row, once it has been started. */
  datatype World = World(
    rows: Table,
    ctrs: map<ContainerId, Container>,
    route: Option<nat>,
    lock: Option<OpId>,
    ops: map<OpId, Op>,
    born: map<ContainerId, DepId>,
    runs: map<DepId, OpId>)

  datatype Mark = Keep | Fail | Cancel

  /** What happens outside the rollout lock. */
  datatype Entry =
    | CreateRow(dep: DepId, created: nat)
    | CancelRequest(dep: DepId)
    | CancelMark(dep: DepId)
    | StartBuild(op: OpId, dep: DepId)
    | StartRollback(op: OpId, dep: DepId)
    | StartStop(op: OpId)
    | WriteBuilding(op: OpId)
    | Abandon(op: OpId, mark: Mark)
    | Acquire(op: OpId)

  /** The steps of a build or rollback that holds the lock; `ok` says whether the call succeeded. */
  datatype DeployStep =
    | ReadActive(found: Option<DepId>)
    | GiveUp
    | RunContainer(result: Option<Instance>)
    | SaveCandidate(ok: bool)
    | AwaitReady(ok: bool)
    | SwitchRoute(ok: bool)
    | PublishChecks(ok: bool)
    | Promote(ok: bool)
    | Compensate(ok: bool)
    | StopCandidate(ok: bool)
    | RemoveCandidate(ok: bool)
    | ClearCandidate(ok: bool)
    | MarkOutcome(mark: Mark)
    | StopPrevious(ok: bool)
    | RemovePrevious(ok: bool)
    | RetirePrevious(ok: bool)
    | Release

  /** The steps of StopApp under the lock. */
  datatype StopStep =
    | Unroute(ok: bool)
    | ChooseVictim(found: DepId)
    | NothingToStop
    | StopGiveUp            // a failing read or custom route
    | StopVictim(ok: bool)
    | RemoveVictim(ok: bool)
    | MarkStopped(ok: bool)
    | StopRelease

  datatype Label =
    | Outside(entry: Entry)
    | Rollout(op: OpId, step: DeployStep)
    | Stopping(op: OpId, stop: StopStep)

  predicate InSection(op: Op) {
    op.Deploy? || op.Stop?
  }

  predicate Present(w: World, i: Instance) {
    i.id in w.ctrs && w.ctrs[i.id].port == i.port
  }

  predicate Serving(w: World, i: Instance) {
    Present(w, i) && w.ctrs[i.id].serving
  }

  predicate FreshPort(w: World, port: nat) {
    forall c | c in w.ctrs :: w.ctrs[c].serving ==> w.ctrs[c].port != port
  }

  /** The row whose container StopApp removes: the active one, or else the newest
      row if it has failed and still names a container. */
  predicate IsVictim(t: Table, d: DepId) {
    d in t && t[d].container.Some? &&
    (IsActive(t, d) || (NoneRunning(t) && IsNewest(t, d) && t[d].status == Failed))
  }

  predicate EntryEnabled(w: World, e: Entry) {
    match e
    case CreateRow(d, _) => d !in w.rows && d !in w.runs
    case CancelRequest(d) => d in w.rows
    case CancelMark(d) => d in w.rows
    case StartBuild(o, d) => o !in w.ops && d in w.rows && d !in w.runs
    case StartRollback(o, d) => o !in w.ops && d in w.rows && Rollbackable(w.rows[d].status)
    case StartStop(o) => o !in w.ops
    case WriteBuilding(o) => o in w.ops && w.ops[o].Queued? && w.ops[o].kind.Build?
    case Abandon(o, m) =>
      o in w.ops && (m.Keep? || (w.ops[o].Queued? && w.ops[o].kind.Build?)) && !InSection(w.ops[o])
    case Acquire(o) => o in w.ops && !InSection(w.ops[o]) && w.lock.None?
  }

  predicate DeployEnabled(w: World, op: Op, s: DeployStep)
    requires op.Deploy?
  {
    match s
    case ReadActive(found) =>
      op.phase.Locked? && if found.Some? then IsActive(w.rows, found.value) else NoneRunning(w.rows)
    case GiveUp => op.phase.Locked? || op.phase.Prepared?
    case RunContainer(result) =>
      op.phase.Prepared? && (result.Some? ==> result.value.id !in w.born && FreshPort(w, result.value.port))
    case SaveCandidate(_) => op.phase.Started?
    case AwaitReady(_) => op.phase.Persisted?
    case SwitchRoute(_) => op.phase.Ready?
    case PublishChecks(_) => op.phase.Switched?
    case Promote(_) => op.phase.Committing?
    case Compensate(_) => op.phase.Compensating?
    case StopCandidate(_) => op.phase.StoppingCandidate?
    case RemoveCandidate(_) => op.phase.RemovingCandidate?
    case ClearCandidate(_) => op.phase.ClearingCandidate?
    case MarkOutcome(m) => op.phase.Marking? && (m.Keep? || op.kind.Build?)
    case StopPrevious(_) => op.phase.Promoted? && op.prev.Some?
    case RemovePrevious(_) => op.phase.PreviousStopped? && op.prev.Some?
    case RetirePrevious(_) => op.phase.PreviousRemoved? && op.prev.Some?
    case Release => op.phase.Leaving? || (op.phase.Promoted? && op.prev.None?)
  }

  predicate StopEnabled(w: World, op: Op, s: StopStep)
    requires op.Stop?
  {
    match s
    case Unroute(_) => op.stop.StopLocked?
    case ChooseVictim(found) => op.stop.Unrouted? && IsVictim(w.rows, found)
    case NothingToStop => op.stop.Unrouted? && NoneRunning(w.rows)
    case StopGiveUp => op.stop.Unrouted?
    case StopVictim(_) => op.stop.Chosen?
    case RemoveVictim(_) => op.stop.VictimStopped?
    case MarkStopped(_) => op.stop.VictimRemoved?
    case StopRelease => op.stop.StopDone? || op.stop.StopLeaving?
  }

  predicate Enabled(w: World, l: Label) {
    match l
    case Outside(e) => EntryEnabled(w, e)
    case Rollout(o, s) => o in w.ops && w.ops[o].Deploy? && DeployEnabled(w, w.ops[o], s)
    case Stopping(o, s) => o in w.ops && w.ops[o].Stop? && StopEnabled(w, w.ops[o], s)
  }

  function Marked(t: Table, d: DepId, m: Mark): Table {
    match m
    case Keep => t
    case Fail => WithStatus(t, d, Failed)
    case Cancel => WithCancelled(t, d)
  }

  function Halted(ctrs: map<ContainerId, Container>, c: ContainerId): map<ContainerId, Container> {
    if c in ctrs then ctrs[c := ctrs[c].(serving := false)] else ctrs
  }

  function SnapshotOf(t: Table, found: Option<DepId>): Option<Previous>
    requires found.Some? ==> found.value in t
  {
    if found.Some? && t[found.value].container.Some?
    then Some(Previous(found.value, t[found.value].container.value))
    else None
  }

  function Entered(op: Op): Op
    requires !InSection(op)
  {
    match op
    case Queued(k, d) => Deploy(k, d, Locked, None, Instance(0, 0), false, false)
    case QueuedStop => Stop(StopLocked, Previous(0, Instance(0, 0)))
  }

  function ApplyEntry(w: World, e: Entry): World
    requires EntryEnabled(w, e)
  {
    match e
    case CreateRow(d, created) => w.(rows := w.rows[d := Row(Pending, None, None, false, created)])
    case CancelRequest(d) => w.(rows := WithCancelRequested(w.rows, d))
    case CancelMark(d) => w.(rows := WithCancelled(w.rows, d))
    case StartBuild(o, d) => w.(ops := w.ops[o := Queued(Build, d)], runs := w.runs[d := o])
    case StartRollback(o, d) => w.(ops := w.ops[o := Queued(Rollback, d)])
    case StartStop(o) => w.(ops := w.ops[o := QueuedStop])
    case WriteBuilding(o) => w.(rows := WithStatus(w.rows, w.ops[o].dep, Building))
    case Abandon(o, m) =>
      w.(rows := if m.Keep? then w.rows else Marked(w.rows, w.ops[o].dep, m), ops := w.ops - {o})
    case Acquire(o) => w.(lock := Some(o), ops := w.ops[o := Entered(w.ops[o])])
  }

  /** The state a deploy step changes: the world, with its own operation's record replaced. */
  function Put(w: World, o: OpId, op: Op): World {
    w.(ops := w.ops[o := op])
  }

  function ApplyDeploy(w: World, o: OpId, op: Op, s: DeployStep): World
    requires op.Deploy? && DeployEnabled(w, op, s)
  {
    match s
    case ReadActive(found) =>
      if op.kind.Rollback? && found == Some(op.dep)
      then Put(w, o, op.(phase := Leaving))
      else Put(w, o, op.(phase := Prepared, prev := SnapshotOf(w.rows, found)))
    case GiveUp => Put(w, o, op.(phase := Marking))
    case RunContainer(result) =>
      if result.None?
      then Put(w, o, op.(phase := Marking))
      else Put(w.(ctrs := w.ctrs[result.value.id := Container(result.value.port, true)],
                  born := w.born[result.value.id := op.dep]),
               o, op.(phase := Started, cand := result.value))
    case SaveCandidate(ok) =>
      if ok
      then Put(w.(rows := WithCandidate(w.rows, op.dep, Some(op.cand))), o, op.(phase := Persisted, persisted := true))
      else Put(w, o, op.(phase := StoppingCandidate))
    case AwaitReady(ok) => Put(w, o, op.(phase := if ok then Ready else StoppingCandidate))
    case SwitchRoute(ok) =>
      if ok
      then Put(w.(route := Some(op.cand.port)), o, op.(phase := Switched))
      else Put(w, o, op.(phase := StoppingCandidate))
    case PublishChecks(ok) => Put(w, o, op.(phase := if ok then Committing else Compensating))
    case Promote(ok) =>
      if ok
      then Put(w.(rows := WithPromotion(w.rows, op.dep, op.cand)), o, op.(phase := Promoted, promoted := true))
      else Put(w, o, op.(phase := Compensating))
    case Compensate(ok) =>
      Put(if ok then w.(route := if op.prev.Some? then Some(op.prev.value.inst.port) else None) else w,
          o, op.(phase := StoppingCandidate))
    case StopCandidate(ok) =>
      Put(if ok then w.(ctrs := Halted(w.ctrs, op.cand.id)) else w, o, op.(phase := RemovingCandidate))
    case RemoveCandidate(ok) =>
      Put(if ok then w.(ctrs := w.ctrs - {op.cand.id}) else w,
          o, op.(phase := if op.persisted then ClearingCandidate else Marking))
    case ClearCandidate(ok) =>
      Put(if ok then w.(rows := WithCandidate(w.rows, op.dep, None)) else w, o, op.(phase := Marking))
    case MarkOutcome(m) => Put(w.(rows := Marked(w.rows, op.dep, m)), o, op.(phase := Leaving))
    case StopPrevious(ok) =>
      Put(if ok then w.(ctrs := Halted(w.ctrs, op.prev.value.inst.id)) else w, o, op.(phase := PreviousStopped))
    case RemovePrevious(ok) =>
      Put(if ok then w.(ctrs := w.ctrs - {op.prev.value.inst.id}) else w, o, op.(phase := PreviousRemoved))
    case RetirePrevious(ok) =>
      Put(if ok
          then w.(rows := WithStatus(w.rows, op.prev.value.dep, if op.kind.Build? then Superseded else RolledBack))
          else w,
          o, op.(phase := Leaving))
    case Release => w.(lock := None, ops := w.ops - {o})
  }

  function ApplyStop(w: World, o: OpId, op: Op, s: StopStep): World
    requires op.Stop? && StopEnabled(w, op, s)
  {
    match s
    case Unroute(ok) =>
      if ok then Put(w.(route := None), o, op.(stop := Unrouted)) else Put(w, o, op.(stop := StopLeaving))
    case ChooseVictim(found) => Put(w, o, Stop(Chosen, Previous(found, w.rows[found].container.value)))
    case NothingToStop => Put(w, o, op.(stop := StopDone))
    case StopGiveUp => Put(w, o, op.(stop := StopLeaving))
    case StopVictim(ok) =>
      Put(if ok then w.(ctrs := Halted(w.ctrs, op.victim.inst.id)) else w, o, op.(stop := VictimStopped))
    case RemoveVictim(ok) =>
      if ok
      then Put(w.(ctrs := w.ctrs - {op.victim.inst.id}), o, op.(stop := VictimRemoved))
      else Put(w, o, op.(stop := StopLeaving))
    case MarkStopped(ok) =>
      if ok
      then Put(w.(rows := WithStatus(w.rows, op.victim.dep, Stopped)), o, op.(stop := StopDone))
      else Put(w, o, op.(stop := StopLeaving))
    case StopRelease => w.(lock := None, ops := w.ops - {o})
  }

  /** The effect of one enabled label. */
  function Apply(w: World, l: Label): World
    requires Enabled(w, l)
  {
    match l
    case Outside(e) => ApplyEntry(w, e)
    case Rollout(o, s) => ApplyDeploy(w, o, w.ops[o], s)
    case Stopping(o, s) => ApplyStop(w, o, w.ops[o], s)
  }

  // ----- runs -----

  predicate IsRun(w: World, log: seq<Label>)
    decreases |log|, 0
  {
    log != [] ==> IsRun(w, log[..|log|-1]) && Enabled(After(w, log[..|log|-1]), log[|log|-1])
  }

  function After(w: World, log: seq<Label>): World
    requires IsRun(w, log)
    decreases |log|, 1
  {
    if log == [] then w else Apply(After(w, log[..|log|-1]), log[|log|-1])
  }

  lemma Extend(w: World, log: seq<Label>, l: Label)
    requires IsRun(w, log) && Enabled(After(w, log), l)
    ensures IsRun(w, log + [l]) && After(w, log + [l]) == Apply(After(w, log), l)
  {
  }

  lemma {:induction false} PrefixIsRun(w: World, log: seq<Label>, k: nat)
    requires IsRun(w, log) && k <= |log|
    ensures IsRun(w, log[..k])
    decreases |log|
  {
    if k < |log| {
      PrefixIsRun(w, log[..|log|-1], k);
      assert log[..|log|-1][..k] == log[..k];
    } else {
      assert log[..k] == log;
    }
  }

  /** The calls the protocol relies on: the compensating route write, and the
      status writes on a row whose container has just been taken away. */
  predicate Benign(l: Label) {
    match l
    case Rollout(_, Compensate(ok)) => ok
    case Rollout(_, RetirePrevious(ok)) => ok
    case Stopping(_, MarkStopped(ok)) => ok
    case _ => true
  }

  predicate BenignRun(log: seq<Label>) {
    forall i | 0 <= i < |log| :: Benign(log[i])
  }

  /** Some run in which the calls the protocol relies on succeed leads from `w` to `v`. */
  ghost predicate Reaches(w: World, v: World) {
    exists log :: IsRun(w, log) && BenignRun(log) && After(w, log) == v
  }

  lemma Onward(w: World, v: World, l: Label, u: World)
    requires Reaches(w, v) && Enabled(v, l) && Benign(l) && Apply(v, l) == u
    ensures Reaches(w, u)
  {
    var log :| IsRun(w, log) && BenignRun(log) && After(w, log) == v;
    Extend(w, log, l);
    assert BenignRun(log + [l]);
  }
}
