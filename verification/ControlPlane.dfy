/** The rollout operations as the service runs them: straight-line code over the
    deployment store, Docker, the router and the lock, every call of which may fail,
    with any number of other operations taking any steps in between.

    The ghost log ties each method to the transition system: after every call the
    fields are what the logged run leads to.
 */
module ControlPlane {
  import opened Domain
  import opened DeploymentTable
  import opened RolloutMachine
  import opened RolloutSafety
  import opened RolloutTheorems

  /** `Refused` never got the lock; `AlreadyActive` is a rollback to the release in service. */
  datatype Result = Published | Failure | Aborted | Refused | AlreadyActive

  /** What a rollout is about: whose build or return it is, and what it replaces. */
  datatype Aim = Aim(kind: Kind, dep: DepId, prev: Option<Previous>)

  function AimOf(op: Op): Aim
    requires op.Deploy?
  {
    Aim(op.kind, op.dep, op.prev)
  }

  lemma AloneIsQuiet(w: World, op: Op)
    requires op.Deploy? && AfterPromotion(w, op) && op.prev.None?
    ensures Quiet(w)
  {
    assert Owns(w, op.dep, op.cand.port) && Stands(w, op.dep);
  }

  lemma SameRest(w: World, v: World)
    requires v == w.(lock := v.lock, ops := v.ops)
    ensures Quiet(v) <==> Quiet(w)
  {
  }

  /** The last that is heard of `me` is that it left without the lock, having recorded `mark` or nothing. */
  ghost predicate LeftUnlocked(log: seq<Label>, me: OpId, mark: Mark, records: bool) {
    log != [] && (log[|log|-1] == Outside(Abandon(me, mark)) ||
                  (!records && log[|log|-1] == Outside(Abandon(me, Keep))))
  }

  lemma FreshNumber(taken: set<nat>) returns (n: nat)
    ensures n !in taken
  {
    n := 0;
    if taken != {} {
      n := Above(taken);
    }
  }

  lemma {:induction false} Above(taken: set<nat>) returns (n: nat)
    ensures forall m | m in taken :: m < n
    decreases |taken|
  {
    n := 0;
    if taken != {} {
      var m :| m in taken;
      var k := Above(taken - {m});
      n := if k > m then k else m + 1;
      assert forall x | x in taken :: x == m || x in taken - {m};
    }
  }

  /** What an operation that holds the lock can rely on while others run. */
  twostate predicate Undisturbed(c: Service, me: OpId)
    reads c, c.db
  {
    && me in old(c.ops) && me in c.ops && c.ops[me] == old(c.ops[me])
    && old(c.log) <= c.log
    && (old(c.lock) == Some(me) ==> c.lock == Some(me) && c.ctrs == old(c.ctrs) && c.route == old(c.route))
  }

  class Service {
    const db: DeploymentStore
    var ctrs: map<ContainerId, Container>
    var route: Option<nat>
    var lock: Option<OpId>
    var ops: map<OpId, Op>
    var born: map<ContainerId, DepId>
    var runs: map<DepId, OpId>
    ghost const start: World
    ghost var log: seq<Label>
    const smooth: bool         // no call fails, and no context ends
    const records: bool        // no write of an outcome fails

    constructor (w: World, smooth: bool, records: bool)
      requires Inv(w)
      ensures View() == w && start == w && log == [] && Valid() && fresh(db)
      ensures this.smooth == smooth && this.records == records
    {
      this.smooth, this.records := smooth, records;
      db := new DeploymentStore(w.rows);
      ctrs, route, lock, ops, born, runs := w.ctrs, w.route, w.lock, w.ops, w.born, w.runs;
      start, log := w, [];
    }

    function View(): World
      reads this, db
    {
      World(db.rows, ctrs, route, lock, ops, born, runs)
    }

    ghost predicate Valid()
      reads this, db
    {
      Inv(start) && IsRun(start, log) && After(start, log) == View()
    }

    /** The state satisfies the protocol's invariant unless a call it rests on has failed. */
    lemma Safe()
      requires Valid()
      ensures Exclusive(View())
      ensures BenignRun(log) ==> Inv(View())
    {
      RunKeepsExclusive(start, log);
      if BenignRun(log) { RunKeepsInv(start, log); }
    }

    /** Zero downtime, call by call: after each of the logged calls, on whichever exit path it was
        made, the route goes to a serving container. */
    lemma NeverUnserved(k: nat)
      requires Valid() && Hot(start) && BenignRun(log) && k <= |log|
      requires forall i | 0 <= i < |log| :: !TakesRouteDown(log[i])
      ensures IsRun(start, log[..k]) && RouteServed(After(start, log[..k]))
    {
      PrefixIsRun(start, log, k);
      ServedForever(start, log[..k]);
    }

    predicate Holds(me: OpId, phase: Phase)
      reads this
    {
      me in ops && ops[me].Deploy? && ops[me].phase == phase
    }

    // ----- other operations -----

    method Fire(l: Label)
      requires Valid() && Enabled(View(), l)
      modifies this, db
      ensures Valid() && View() == Apply(old(View()), l) && log == old(log) + [l]
    {
      var w := Apply(View(), l);
      db.rows := w.rows;
      ctrs, route, lock, ops, born, runs := w.ctrs, w.route, w.lock, w.ops, w.born, w.runs;
      Extend(start, log, l);
      log := log + [l];
    }

    /** Any number of steps of anyone else. */
    method Others(me: OpId)
      requires Valid() && me in ops
      modifies this, db
      ensures Valid() && Undisturbed(this, me)
    {
      var n: nat := *;
      while n > 0
        invariant Valid() && Undisturbed(this, me)
      {
        var l: Label := *;
        if Enabled(View(), l) && ByOther(l, me) {
          Safe();
          OthersKeepOut(View(), l, me);
          Fire(l);
        }
        n := n - 1;
      }
    }

    // ----- the calls of one operation -----

    /** GetActive failed for another reason than "not found". */
    method FailRead(me: OpId)
      requires Valid() && Holds(me, Locked)
      modifies this`ops, this`log
      ensures Valid() && log == old(log) + [Rollout(me, GiveUp)]
      ensures me in ops && ops[me] == old(ops[me]).(phase := Marking)
    {
      ops := ops[me := ops[me].(phase := Marking)];
      Extend(start, log, Rollout(me, GiveUp));
      log := log + [Rollout(me, GiveUp)];
    }

    /** GetActive under the lock; a rollback stops here when its target is the active row. */
    method ReadActive(me: OpId) returns (prev: Option<Previous>, ghost found: Option<DepId>)
      requires Valid() && Holds(me, Locked)
      modifies this`ops, this`log
      ensures Valid() && log == old(log) + [Rollout(me, DeployStep.ReadActive(found))]
      ensures if found.Some? then IsActive(db.rows, found.value) else NoneRunning(db.rows)
      ensures prev == if found.Some? && db.rows[found.value].container.Some?
                      then Some(Previous(found.value, db.rows[found.value].container.value)) else None
      ensures me in ops && ops[me] == if old(ops[me]).kind.Rollback? && found == Some(old(ops[me]).dep)
                                      then old(ops[me]).(phase := Leaving)
                                      else old(ops[me]).(phase := Prepared, prev := prev)
    {
      var active := db.GetActive();
      found := active;
      prev := SnapshotOf(db.rows, active);
      if ops[me].kind.Rollback? && active == Some(ops[me].dep) {
        ops := ops[me := ops[me].(phase := Leaving)];
      } else {
        ops := ops[me := ops[me].(phase := Prepared, prev := prev)];
      }
      Extend(start, log, Rollout(me, DeployStep.ReadActive(found)));
      log := log + [Rollout(me, DeployStep.ReadActive(found))];
    }

    /** A cancellation seen before the candidate is started. */
    method StopBeforeStart(me: OpId)
      requires Valid() && Holds(me, Prepared)
      modifies this`ops, this`log
      ensures Valid() && log == old(log) + [Rollout(me, GiveUp)]
      ensures me in ops && ops[me] == old(ops[me]).(phase := Marking)
    {
      ops := ops[me := ops[me].(phase := Marking)];
      Extend(start, log, Rollout(me, GiveUp));
      log := log + [Rollout(me, GiveUp)];
    }

    method RunContainer(me: OpId) returns (result: Option<Instance>)
      requires Valid() && Holds(me, Prepared)
      modifies this`ctrs, this`born, this`ops, this`log
      ensures Valid() && log == old(log) + [Rollout(me, DeployStep.RunContainer(result))]
      ensures me in ops && ops[me] == if result.Some?
                                      then old(ops[me]).(phase := Started, cand := result.value)
                                      else old(ops[me]).(phase := Marking)
      ensures smooth ==> result.Some?
      ensures born == if result.Some? then old(born)[result.value.id := old(ops[me]).dep] else old(born)
      ensures ctrs == if result.Some?
                      then old(ctrs)[result.value.id := Container(result.value.port, true)] else old(ctrs)
    {
      var created: Instance := *;
      var ok: bool := *;
      if smooth && (created.id in born || !FreshPort(View(), created.port)) {
        created := FreeInstance();
      }
      if (ok || smooth) && created.id !in born && FreshPort(View(), created.port) {
        BringUp(me, created);
        result := Some(created);
      } else {
        ops := ops[me := ops[me].(phase := Marking)];
        result := None;
        Extend(start, log, Rollout(me, DeployStep.RunContainer(None)));
        log := log + [Rollout(me, DeployStep.RunContainer(None))];
      }
    }

    /** Docker picks an id and the host a port that nobody has. */
    method FreeInstance() returns (created: Instance)
      ensures created.id !in born && FreshPort(View(), created.port)
    {
      ghost var id := FreshNumber(born.Keys);
      ghost var port := FreshNumber(set c | c in ctrs :: ctrs[c].port);
      assert Instance(id, port).id !in born && FreshPort(View(), Instance(id, port).port);
      created :| created.id !in born && FreshPort(View(), created.port);
    }

    method BringUp(me: OpId, created: Instance)
      requires Valid() && Holds(me, Prepared) && created.id !in born && FreshPort(View(), created.port)
      modifies this`ctrs, this`born, this`ops, this`log
      ensures Valid() && log == old(log) + [Rollout(me, DeployStep.RunContainer(Some(created)))]
      ensures me in ops && ops[me] == old(ops[me]).(phase := Started, cand := created)
      ensures born == old(born)[created.id := old(ops[me]).dep]
      ensures ctrs == old(ctrs)[created.id := Container(created.port, true)]
    {
      ctrs := ctrs[created.id := Container(created.port, true)];
      born := born[created.id := ops[me].dep];
      ops := ops[me := ops[me].(phase := Started, cand := created)];
      Extend(start, log, Rollout(me, DeployStep.RunContainer(Some(created))));
      log := log + [Rollout(me, DeployStep.RunContainer(Some(created)))];
    }

    method SaveCandidate(me: OpId) returns (ok: bool)
      requires Valid() && Holds(me, Started)
      modifies this`ops, this`log, db
      ensures Valid() && log == old(log) + [Rollout(me, DeployStep.SaveCandidate(ok))]
      ensures me in ops && ops[me] == if ok then old(ops[me]).(phase := Persisted, persisted := true)
                                      else old(ops[me]).(phase := StoppingCandidate)
      ensures smooth ==> ok
      ensures db.rows == if ok then WithCandidate(old(db.rows), ops[me].dep, Some(ops[me].cand)) else old(db.rows)
    {
      ok := *;
      ok := ok || smooth;
      if ok {
        db.UpdateCandidate(ops[me].dep, ops[me].cand);
        ops := ops[me := ops[me].(phase := Persisted, persisted := true)];
      } else {
        ops := ops[me := ops[me].(phase := StoppingCandidate)];
      }
      Extend(start, log, Rollout(me, DeployStep.SaveCandidate(ok)));
      log := log + [Rollout(me, DeployStep.SaveCandidate(ok))];
    }

    /** Readiness of the candidate, then the context check after it. */
    method AwaitReady(me: OpId) returns (ok: bool)
      requires Valid() && Holds(me, Persisted)
      modifies this`ops, this`log
      ensures Valid() && log == old(log) + [Rollout(me, DeployStep.AwaitReady(ok))]
      ensures me in ops && ops[me] == old(ops[me]).(phase := if ok then Ready else StoppingCandidate)
      ensures smooth ==> ok
    {
      ok := *;
      ok := ok || smooth;
      ops := ops[me := ops[me].(phase := if ok then Ready else StoppingCandidate)];
      Extend(start, log, Rollout(me, DeployStep.AwaitReady(ok)));
      log := log + [Rollout(me, DeployStep.AwaitReady(ok))];
    }

    method SwitchRoute(me: OpId) returns (ok: bool)
      requires Valid() && Holds(me, Ready)
      modifies this`route, this`ops, this`log
      ensures Valid() && log == old(log) + [Rollout(me, DeployStep.SwitchRoute(ok))]
      ensures me in ops && ops[me] == old(ops[me]).(phase := if ok then Switched else StoppingCandidate)
      ensures smooth ==> ok
      ensures route == if ok then Some(old(ops[me]).cand.port) else old(route)
    {
      ok := *;
      ok := ok || smooth;
      if ok {
        route := Some(ops[me].cand.port);
      }
      ops := ops[me := ops[me].(phase := if ok then Switched else StoppingCandidate)];
      Extend(start, log, Rollout(me, DeployStep.SwitchRoute(ok)));
      log := log + [Rollout(me, DeployStep.SwitchRoute(ok))];
    }

    /** Custom-domain routes, then the last cancellation check. */
    method PublishChecks(me: OpId) returns (ok: bool)
      requires Valid() && Holds(me, Switched)
      modifies this`ops, this`log
      ensures Valid() && log == old(log) + [Rollout(me, DeployStep.PublishChecks(ok))]
      ensures me in ops && ops[me] == old(ops[me]).(phase := if ok then Committing else Compensating)
      ensures smooth ==> ok
    {
      ok := *;
      ok := ok || smooth;
      ops := ops[me := ops[me].(phase := if ok then Committing else Compensating)];
      Extend(start, log, Rollout(me, DeployStep.PublishChecks(ok)));
      log := log + [Rollout(me, DeployStep.PublishChecks(ok))];
    }

    method PromoteCandidate(me: OpId) returns (ok: bool)
      requires Valid() && Holds(me, Committing)
      modifies this`ops, this`log, db
      ensures Valid() && log == old(log) + [Rollout(me, DeployStep.Promote(ok))]
      ensures me in ops && ops[me] == if ok then old(ops[me]).(phase := Promoted, promoted := true)
                                      else old(ops[me]).(phase := Compensating)
      ensures db.rows == if ok then WithPromotion(old(db.rows), old(ops[me]).dep, old(ops[me]).cand) else old(db.rows)
      ensures smooth ==> ok
    {
      ok := *;
      ok := ok || smooth;
      if ok {
        db.PromoteCandidate(ops[me].dep, ops[me].cand);
        ops := ops[me := ops[me].(phase := Promoted, promoted := true)];
      } else {
        ops := ops[me := ops[me].(phase := Compensating)];
      }
      Extend(start, log, Rollout(me, DeployStep.Promote(ok)));
      log := log + [Rollout(me, DeployStep.Promote(ok))];
    }

    /** The compensating route write, whose error is ignored. */
    method RestoreRoute(me: OpId) returns (ok: bool)
      requires Valid() && Holds(me, Compensating)
      modifies this`route, this`ops, this`log
      ensures Valid() && log == old(log) + [Rollout(me, DeployStep.Compensate(ok))]
      ensures me in ops && ops[me] == old(ops[me]).(phase := StoppingCandidate)
      ensures smooth ==> ok
      ensures route == if !ok then old(route)
                       else if ops[me].prev.Some? then Some(ops[me].prev.value.inst.port) else None
    {
      ok := *;
      ok := ok || smooth;
      if ok {
        route := if ops[me].prev.Some? then Some(ops[me].prev.value.inst.port) else None;
      }
      ops := ops[me := ops[me].(phase := StoppingCandidate)];
      Extend(start, log, Rollout(me, DeployStep.Compensate(ok)));
      log := log + [Rollout(me, DeployStep.Compensate(ok))];
    }

    method StopCandidate(me: OpId) returns (ok: bool)
      requires Valid() && Holds(me, StoppingCandidate)
      modifies this`ctrs, this`ops, this`log
      ensures Valid() && log == old(log) + [Rollout(me, DeployStep.StopCandidate(ok))]
      ensures me in ops && ops[me] == old(ops[me]).(phase := RemovingCandidate)
      ensures smooth ==> ok
      ensures ctrs == if ok then Halted(old(ctrs), old(ops[me]).cand.id) else old(ctrs)
    {
      ok := *;
      ok := ok || smooth;
      if ok {
        ctrs := Halted(ctrs, ops[me].cand.id);
      }
      ops := ops[me := ops[me].(phase := RemovingCandidate)];
      Extend(start, log, Rollout(me, DeployStep.StopCandidate(ok)));
      log := log + [Rollout(me, DeployStep.StopCandidate(ok))];
    }

    method RemoveCandidate(me: OpId) returns (ok: bool)
      requires Valid() && Holds(me, RemovingCandidate)
      modifies this`ctrs, this`ops, this`log
      ensures Valid() && log == old(log) + [Rollout(me, DeployStep.RemoveCandidate(ok))]
      ensures me in ops
      ensures ops[me] == old(ops[me]).(phase := if old(ops[me]).persisted then ClearingCandidate else Marking)
      ensures smooth ==> ok
      ensures ctrs == if ok then old(ctrs) - {old(ops[me]).cand.id} else old(ctrs)
    {
      ok := *;
      ok := ok || smooth;
      if ok {
        ctrs := ctrs - {ops[me].cand.id};
      }
      ops := ops[me := ops[me].(phase := if ops[me].persisted then ClearingCandidate else Marking)];
      Extend(start, log, Rollout(me, DeployStep.RemoveCandidate(ok)));
      log := log + [Rollout(me, DeployStep.RemoveCandidate(ok))];
    }

    method ClearCandidate(me: OpId) returns (ok: bool)
      requires Valid() && Holds(me, ClearingCandidate)
      modifies this`ops, this`log, db
      ensures Valid() && log == old(log) + [Rollout(me, DeployStep.ClearCandidate(ok))]
      ensures me in ops && ops[me] == old(ops[me]).(phase := Marking)
      ensures db.rows == if ok then WithCandidate(old(db.rows), old(ops[me]).dep, None) else old(db.rows)
      ensures smooth ==> ok
    {
      ok := *;
      ok := ok || smooth;
      if ok {
        db.ClearCandidate(ops[me].dep);
      }
      ops := ops[me := ops[me].(phase := Marking)];
      Extend(start, log, Rollout(me, DeployStep.ClearCandidate(ok)));
      log := log + [Rollout(me, DeployStep.ClearCandidate(ok))];
    }

    /** markFailed, finishCancelled, or for a rollback nothing; the write itself may fail. */
    method MarkOutcome(me: OpId, wanted: Mark)
      requires Valid() && Holds(me, Marking) && (wanted.Keep? || ops[me].kind.Build?)
      modifies this`ops, this`log, db
      ensures Valid()
      ensures log == old(log) + [Rollout(me, DeployStep.MarkOutcome(wanted))] ||
              log == old(log) + [Rollout(me, DeployStep.MarkOutcome(Keep))]
      ensures me in ops && ops[me] == old(ops[me]).(phase := Leaving)
      ensures db.rows == old(db.rows) ||
              (wanted.Fail? && db.rows == WithStatus(old(db.rows), old(ops[me]).dep, Failed)) ||
              (wanted.Cancel? && db.rows == WithCancelled(old(db.rows), old(ops[me]).dep))
      ensures records ==> log == old(log) + [Rollout(me, DeployStep.MarkOutcome(wanted))]
    {
      var ok: bool := *;
      var mark := if ok || records then wanted else Keep;
      if mark.Fail? {
        db.UpdateStatus(ops[me].dep, Status.Failed);
      } else if mark.Cancel? {
        db.MarkCancelled(ops[me].dep);
      }
      ops := ops[me := ops[me].(phase := Leaving)];
      Extend(start, log, Rollout(me, DeployStep.MarkOutcome(mark)));
      log := log + [Rollout(me, DeployStep.MarkOutcome(mark))];
    }

    method StopPrevious(me: OpId) returns (ok: bool)
      requires Valid() && Holds(me, Promoted) && ops[me].prev.Some?
      modifies this`ctrs, this`ops, this`log
      ensures Valid() && log == old(log) + [Rollout(me, DeployStep.StopPrevious(ok))]
      ensures me in ops && ops[me] == old(ops[me]).(phase := PreviousStopped)
      ensures ctrs == if ok then Halted(old(ctrs), old(ops[me]).prev.value.inst.id) else old(ctrs)
      ensures smooth ==> ok
    {
      ok := *;
      ok := ok || smooth;
      if ok {
        ctrs := Halted(ctrs, ops[me].prev.value.inst.id);
      }
      ops := ops[me := ops[me].(phase := PreviousStopped)];
      Extend(start, log, Rollout(me, DeployStep.StopPrevious(ok)));
      log := log + [Rollout(me, DeployStep.StopPrevious(ok))];
    }

    method RemovePrevious(me: OpId) returns (ok: bool)
      requires Valid() && Holds(me, PreviousStopped) && ops[me].prev.Some?
      modifies this`ctrs, this`ops, this`log
      ensures Valid() && log == old(log) + [Rollout(me, DeployStep.RemovePrevious(ok))]
      ensures me in ops && ops[me] == old(ops[me]).(phase := PreviousRemoved)
      ensures smooth ==> ok
      ensures ctrs == if ok then old(ctrs) - {old(ops[me]).prev.value.inst.id} else old(ctrs)
    {
      ok := *;
      ok := ok || smooth;
      if ok {
        ctrs := ctrs - {ops[me].prev.value.inst.id};
      }
      ops := ops[me := ops[me].(phase := PreviousRemoved)];
      Extend(start, log, Rollout(me, DeployStep.RemovePrevious(ok)));
      log := log + [Rollout(me, DeployStep.RemovePrevious(ok))];
    }

    method RetirePrevious(me: OpId) returns (ok: bool)
      requires Valid() && Holds(me, PreviousRemoved) && ops[me].prev.Some?
      modifies this`ops, this`log, db
      ensures Valid() && log == old(log) + [Rollout(me, DeployStep.RetirePrevious(ok))]
      ensures me in ops && ops[me] == old(ops[me]).(phase := Leaving)
      ensures db.rows == if !ok then old(db.rows)
                         else if old(ops[me]).kind.Build?
                         then WithStatus(old(db.rows), old(ops[me]).prev.value.dep, Superseded)
                         else WithStatus(old(db.rows), old(ops[me]).prev.value.dep, RolledBack)
      ensures smooth ==> ok
    {
      ok := *;
      ok := ok || smooth;
      if ok {
        db.UpdateStatus(ops[me].prev.value.dep, if ops[me].kind.Build? then Superseded else RolledBack);
      }
      ops := ops[me := ops[me].(phase := Leaving)];
      Extend(start, log, Rollout(me, DeployStep.RetirePrevious(ok)));
      log := log + [Rollout(me, DeployStep.RetirePrevious(ok))];
    }

    method ReleaseLock(me: OpId)
      requires Valid() && (Holds(me, Leaving) || (Holds(me, Promoted) && ops[me].prev.None?))
      modifies this`lock, this`ops, this`log
      ensures Valid() && log == old(log) + [Rollout(me, DeployStep.Release)]
      ensures me !in ops && lock.None?
    {
      lock := None;
      ops := ops - {me};
      Extend(start, log, Rollout(me, DeployStep.Release));
      log := log + [Rollout(me, DeployStep.Release)];
    }

    /** One attempt at the lock; the context may end first. */
    method AcquireRollout(me: OpId) returns (ok: bool)
      requires Valid() && me in ops && !InSection(ops[me])
      modifies this`lock, this`ops, this`log
      ensures Valid() && me in ops
      ensures ok ==> log == old(log) + [Outside(Acquire(me))] && lock == Some(me) && ops[me] == Entered(old(ops[me]))
      ensures !ok ==> unchanged(this)
      ensures smooth ==> (ok <==> old(lock).None?)
    {
      var contextDone: bool := *;
      ok := lock.None? && (!contextDone || smooth);
      if ok {
        lock := Some(me);
        ops := ops[me := Entered(ops[me])];
        Extend(start, log, Outside(Acquire(me)));
        log := log + [Outside(Acquire(me))];
      }
    }

    /** Leaves without the lock; a build first records why. */
    method Leave(me: OpId, wanted: Mark)
      requires Valid() && me in ops && !InSection(ops[me])
      requires wanted.Keep? || (ops[me].Queued? && ops[me].kind.Build?)
      modifies this`ops, this`log, db
      ensures Valid() && me !in ops
      ensures log == old(log) + [Outside(Abandon(me, wanted))] || log == old(log) + [Outside(Abandon(me, Keep))]
      ensures records ==> log == old(log) + [Outside(Abandon(me, wanted))]
      ensures db.rows == old(db.rows) ||
              (wanted.Fail? && db.rows == WithStatus(old(db.rows), old(ops[me]).dep, Failed)) ||
              (wanted.Cancel? && db.rows == WithCancelled(old(db.rows), old(ops[me]).dep))
    {
      var ok: bool := *;
      var mark := if ok || records then wanted else Keep;
      if mark.Fail? {
        db.UpdateStatus(ops[me].dep, Status.Failed);
      } else if mark.Cancel? {
        db.MarkCancelled(ops[me].dep);
      }
      ops := ops - {me};
      Extend(start, log, Outside(Abandon(me, mark)));
      log := log + [Outside(Abandon(me, mark))];
    }

    // ----- the operations -----

    /** cleanupCandidate: stop, remove, and forget the candidate. */
    method CleanUp(me: OpId) returns (removed: bool)
      requires Valid() && Holds(me, StoppingCandidate) && lock == Some(me)
      modifies this, db
      ensures Valid() && lock == Some(me) && old(log) <= log
      ensures me in ops && ops[me] == old(ops[me]).(phase := Marking)
      ensures ctrs.Keys == if removed then old(ctrs).Keys - {old(ops[me]).cand.id} else old(ctrs).Keys
      ensures smooth ==> removed
    {
      removed := DropCandidate(me);
      if ops[me].persisted {
        var _ := ClearCandidate(me);
        Others(me);
      }
    }

    method DropCandidate(me: OpId) returns (removed: bool)
      requires Valid() && Holds(me, StoppingCandidate) && lock == Some(me)
      modifies this, db
      ensures Valid() && lock == Some(me) && old(log) <= log
      ensures me in ops
      ensures ops[me] == old(ops[me]).(phase := if old(ops[me]).persisted then ClearingCandidate else Marking)
      ensures ctrs.Keys == if removed then old(ctrs).Keys - {old(ops[me]).cand.id} else old(ctrs).Keys
      ensures smooth ==> removed
    {
      var _ := StopCandidate(me);
      Others(me);
      removed := RemoveCandidate(me);
      Others(me);
    }

    /** Since log entry `from` the operation has recorded `mark` on its own row, or tried to. */
    ghost predicate Recorded(from: nat, me: OpId, mark: Mark)
      reads this
    {
      exists k :: from <= k < |log| &&
        (log[k] == Rollout(me, DeployStep.MarkOutcome(mark)) ||
         (!records && log[k] == Rollout(me, DeployStep.MarkOutcome(Keep))))
    }

    /** A build that failed is marked failed, one that was cut short is marked cancelled, and the target of a
        rollback keeps its status. */
    ghost predicate RecordedAs(from: nat, me: OpId, kind: Kind, result: Result)
      reads this
    {
      match kind
      case Rollback => Recorded(from, me, Keep)
      case Build => Recorded(from, me, if result.Failure? then Fail else Cancel)
    }

    /** Records the outcome of a rollout that did not commit, and frees the lock. */
    method Conclude(me: OpId, wanted: Mark)
      requires Valid() && Holds(me, Marking) && lock == Some(me) && !ops[me].promoted
      requires wanted.Keep? || ops[me].kind.Build?
      modifies this, db
      ensures Valid() && me !in ops && old(log) <= log && lock.None? && unchanged(`ctrs)
      ensures BenignRun(log) ==> Kept(AimOf(old(ops[me])))
      ensures Recorded(|old(log)|, me, wanted)
    {
      ghost var n := |log|;
      MarkOutcome(me, wanted);
      assert log[n].Rollout? && log[n].op == me;
      Others(me);
      StandDown(me);
    }

    /** What the holder of the lock knows about a rollout that has not committed. */
    lemma IsKept(me: OpId)
      requires Valid() && Holds(me, Leaving) && lock == Some(me)
      ensures BenignRun(log) ==> Quiet(View())
      ensures BenignRun(log) && !ops[me].promoted ==> Kept(AimOf(ops[me]))
    {
      Safe();
      assert BenignRun(log) ==> DeployInv(View(), me, ops[me]);
    }

    /** Leaves the section without having committed. */
    method StandDown(me: OpId)
      requires Valid() && Holds(me, Leaving) && lock == Some(me)
      modifies this`lock, this`ops, this`log
      ensures Valid() && me !in ops && old(log) <= log && lock.None?
      ensures BenignRun(log) ==> Quiet(View())
      ensures BenignRun(log) && !old(ops[me]).promoted ==> Kept(AimOf(old(ops[me])))
    {
      IsKept(me);
      ghost var before := View();
      ReleaseLock(me);
      SameRest(before, View());
    }

    /** The row is not running, and the previous release stands where it stood. */
    ghost predicate Kept(aim: Aim)
      reads this, db
    {
      && aim.dep in db.rows
      && (aim.kind.Build? ==> !Released(db.rows[aim.dep].status))
      && (aim.prev.Some? ==> PreviousStands(View(), aim.prev.value))
      && Quiet(View())
    }

    /** Takes the replaced release away after the commit. */
    method Retire(me: OpId) returns (removed: bool)
      requires Valid() && Holds(me, Promoted) && lock == Some(me) && ops[me].prev.Some?
      modifies this, db
      ensures Valid() && lock == Some(me) && old(log) <= log
      ensures me in ops && ops[me] == old(ops[me]).(phase := Leaving)
      ensures ctrs.Keys == if removed then old(ctrs).Keys - {old(ops[me]).prev.value.inst.id} else old(ctrs).Keys
      ensures smooth ==> removed
    {
      removed := DropPrevious(me);
      var _ := RetirePrevious(me);
      Others(me);
    }

    method DropPrevious(me: OpId) returns (removed: bool)
      requires Valid() && Holds(me, Promoted) && lock == Some(me) && ops[me].prev.Some?
      modifies this, db
      ensures Valid() && lock == Some(me) && old(log) <= log
      ensures me in ops && ops[me] == old(ops[me]).(phase := PreviousRemoved)
      ensures ctrs.Keys == if removed then old(ctrs).Keys - {old(ops[me]).prev.value.inst.id} else old(ctrs).Keys
      ensures smooth ==> removed
    {
      var _ := StopPrevious(me);
      Others(me);
      removed := RemovePrevious(me);
      Others(me);
    }

    method Finish(me: OpId) returns (removed: bool)
      requires Valid() && Holds(me, Promoted) && lock == Some(me) && ops[me].promoted
      modifies this, db
      ensures Valid() && me !in ops && old(log) <= log && lock.None?
      ensures BenignRun(log) ==> Live(AimOf(old(ops[me])), old(ops[me]).cand)
      ensures ctrs.Keys == if removed && old(ops[me]).prev.Some?
                           then old(ctrs).Keys - {old(ops[me]).prev.value.inst.id} else old(ctrs).Keys
      ensures smooth ==> removed
    {
      removed := true;
      if ops[me].prev.Some? {
        removed := Retire(me);
      }
      LeaveLive(me);
    }

    /** What the holder of the lock knows about a rollout that has committed. */
    lemma IsLive(me: OpId)
      requires Valid() && (Holds(me, Leaving) || (Holds(me, Promoted) && ops[me].prev.None?))
      requires lock == Some(me) && ops[me].promoted
      ensures BenignRun(log) ==> Live(AimOf(ops[me]), ops[me].cand)
    {
      Safe();
      if BenignRun(log) {
        assert DeployInv(View(), me, ops[me]);
        if Holds(me, Promoted) { AloneIsQuiet(View(), ops[me]); }
      }
    }

    method LeaveLive(me: OpId)
      requires Valid() && (Holds(me, Leaving) || (Holds(me, Promoted) && ops[me].prev.None?))
      requires lock == Some(me) && ops[me].promoted
      modifies this`lock, this`ops, this`log
      ensures Valid() && me !in ops && old(log) <= log && lock.None?
      ensures BenignRun(log) ==> Live(AimOf(old(ops[me])), old(ops[me]).cand)
    {
      IsLive(me);
      ghost var before := View();
      ReleaseLock(me);
      SameRest(before, View());
    }

    /** The row runs the candidate, alone, the route targets it, and the release it replaced is superseded by
        a build and rolled back by a rollback. */
    ghost predicate Live(aim: Aim, cand: Instance)
      reads this, db
    {
      && RouteTargets(View(), aim.dep) && db.rows[aim.dep].container == Some(cand) && Quiet(View())
      && (aim.prev.Some? ==>
            && aim.prev.value.dep in db.rows
            && db.rows[aim.prev.value.dep].status == if aim.kind.Build? then Superseded else RolledBack)
    }

    /** What a rollout leaves behind once it knows the previous release: published, the row
        runs the candidate and the route targets it; otherwise the previous release stands.
        With the removals taking effect the candidate exists exactly if it was published,
        and the previous container exactly if it was not. */
    ghost predicate Settles(aim: Aim, result: Result, cand: Option<Instance>, tidy: bool)
      reads this, db
    {
      && (result.Published? ==> cand.Some? && Live(aim, cand.value))
      && (!result.Published? ==> Kept(aim))
      && (tidy && cand.Some? ==> (cand.value.id in ctrs <==> result.Published?))
      && (tidy && aim.prev.Some? ==> (aim.prev.value.inst.id in ctrs <==> !result.Published?))
    }

    /** The containers a rollout leaves, exactly: a candidate was added, and if the removal worked either the
        candidate or, when that was published, the container it replaced has gone again. */
    ghost predicate Leaves(before: set<ContainerId>, prev: Option<Previous>, result: Result, cand: Option<Instance>,
                           tidy: bool)
      reads this
    {
      if cand.None? then ctrs.Keys == before && !result.Published?
      else if !tidy then ctrs.Keys == before + {cand.value.id}
      else if !result.Published? then ctrs.Keys == (before + {cand.value.id}) - {cand.value.id}
      else if prev.Some? then ctrs.Keys == (before + {cand.value.id}) - {prev.value.inst.id}
      else ctrs.Keys == before + {cand.value.id}
    }

    /** The mark a deploy that does not commit leaves on its own row: a build is
        cancelled or failed, a rollback's target keeps its status. */
    method ChooseMark(me: OpId) returns (mark: Mark, result: Result)
      requires me in ops && ops[me].Deploy?
      ensures mark == match ops[me].kind
                      case Rollback => Keep
                      case Build => (if result.Failure? then Fail else Cancel)
      ensures result.Failure? || result.Aborted?
    {
      var contextDone: bool := *;
      result := if contextDone then Aborted else Failure;
      mark := if ops[me].kind.Rollback? then Keep else if contextDone then Cancel else Fail;
    }

    /** checkCancelled writes the row before the caller compensates. */
    method MarkCancelledEarly(me: OpId)
      requires Valid() && me in ops && ops[me].Deploy? && ops[me].dep in db.rows
      modifies this`log, db
      ensures Valid() && old(log) <= log
      ensures records ==> log == old(log) + [Outside(CancelMark(ops[me].dep))]
      ensures db.rows == old(db.rows) || db.rows == WithCancelled(old(db.rows), ops[me].dep)
    {
      var ok: bool := *;
      if ok || records {
        db.MarkCancelled(ops[me].dep);
        Extend(start, log, Outside(CancelMark(ops[me].dep)));
        log := log + [Outside(CancelMark(ops[me].dep))];
      }
    }

    /** How a rollout ends that does not publish: the previous release is kept, the candidate gone if its removal
        worked, and the outcome recorded. */
    ghost predicate Undone(aim: Aim, cand: ContainerId, me: OpId, from: nat, before: set<ContainerId>,
                           result: Result, removed: bool)
      reads this, db
    {
      && me !in ops && lock.None? && (result.Failure? || result.Aborted?)
      && (BenignRun(log) ==> Kept(aim))
      && ctrs.Keys == (if removed then before - {cand} else before)
      && RecordedAs(from, me, aim.kind, result)
    }

    /** How one ends that has its candidate up: published, with the replaced container gone if its removal
        worked, or undone, which takes a failing call. */
    ghost predicate Ended(aim: Aim, cand: Instance, me: OpId, from: nat, before: set<ContainerId>,
                          result: Result, tidy: bool)
      reads this, db
    {
      if !result.Published? then !smooth && Undone(aim, cand.id, me, from, before, result, tidy)
      else
        && me !in ops && lock.None?
        && (BenignRun(log) ==> Live(aim, cand))
        && ctrs.Keys == (if tidy && aim.prev.Some? then before - {aim.prev.value.inst.id} else before)
        && (smooth ==> tidy)
    }

    lemma EndedSince(aim: Aim, cand: Instance, me: OpId, late: nat, from: nat, before: set<ContainerId>,
                     result: Result, tidy: bool)
      requires from <= late
      ensures Undone(aim, cand.id, me, late, before, result, tidy) ==>
                Undone(aim, cand.id, me, from, before, result, tidy)
      ensures Ended(aim, cand, me, late, before, result, tidy) ==> Ended(aim, cand, me, from, before, result, tidy)
    {
    }

    /** Every failure after the route switch: the route goes back, then the candidate is taken away. */
    method Withdraw(me: OpId) returns (result: Result, removed: bool)
      requires Valid() && Holds(me, Compensating) && lock == Some(me) && !ops[me].promoted
      modifies this, db
      ensures Valid() && old(log) <= log
      ensures Undone(AimOf(old(ops[me])), old(ops[me]).cand.id, me, |old(log)|, old(ctrs).Keys, result, removed)
    {
      ghost var op, n := ops[me], |log|;
      var _ := RestoreRoute(me);
      Others(me);
      ghost var late := |log|;
      result, removed := Discard(me);
      EndedSince(AimOf(op), op.cand, me, late, n, old(ctrs).Keys, result, removed);
    }

    method Discard(me: OpId) returns (result: Result, removed: bool)
      requires Valid() && Holds(me, StoppingCandidate) && lock == Some(me) && !ops[me].promoted
      modifies this, db
      ensures Valid() && old(log) <= log
      ensures Undone(AimOf(old(ops[me])), old(ops[me]).cand.id, me, |old(log)|, old(ctrs).Keys, result, removed)
    {
      removed := CleanUp(me);
      var mark;
      mark, result := ChooseMark(me);
      Conclude(me, mark);
    }

    /** The part RunBuild and Rollback share once the candidate container is up. */
    method Publish(me: OpId) returns (result: Result, tidy: bool)
      requires Valid() && Holds(me, Started) && lock == Some(me) && !ops[me].promoted
      modifies this, db
      ensures Valid() && old(log) <= log
      ensures Ended(AimOf(old(ops[me])), old(ops[me]).cand, me, |old(log)|, old(ctrs).Keys, result, tidy)
    {
      ghost var op, n := ops[me], |log|;
      var ok := MakeReady(me);
      ghost var late := |log|;
      if ok {
        result, tidy := Switch(me);
      } else {
        result, tidy := Discard(me);
      }
      EndedSince(AimOf(op), op.cand, me, late, n, old(ctrs).Keys, result, tidy);
    }

    method MakeReady(me: OpId) returns (ok: bool)
      requires Valid() && Holds(me, Started) && lock == Some(me) && !ops[me].promoted
      modifies this, db
      ensures Valid() && lock == Some(me) && old(log) <= log && ctrs == old(ctrs) && (smooth ==> ok)
      ensures Holds(me, if ok then Ready else StoppingCandidate) && !ops[me].promoted
      ensures AimOf(ops[me]) == AimOf(old(ops[me])) && ops[me].cand == old(ops[me]).cand
    {
      ok := SaveCandidate(me);
      Others(me);
      if ok {
        ok := AwaitReady(me);
        Others(me);
      }
    }

    method Switch(me: OpId) returns (result: Result, tidy: bool)
      requires Valid() && Holds(me, Ready) && lock == Some(me) && !ops[me].promoted
      modifies this, db
      ensures Valid() && old(log) <= log
      ensures Ended(AimOf(old(ops[me])), old(ops[me]).cand, me, |old(log)|, old(ctrs).Keys, result, tidy)
    {
      ghost var op, n := ops[me], |log|;
      var ok := SwitchRoute(me);
      Others(me);
      ghost var late := |log|;
      if ok {
        result, tidy := Commit(me);
      } else {
        result, tidy := Discard(me);
      }
      EndedSince(AimOf(op), op.cand, me, late, n, old(ctrs).Keys, result, tidy);
    }

    /** The last checks and the promotion, the commit point. */
    method Commit(me: OpId) returns (result: Result, tidy: bool)
      requires Valid() && Holds(me, Switched) && lock == Some(me) && !ops[me].promoted
      modifies this, db
      ensures Valid() && old(log) <= log
      ensures Ended(AimOf(old(ops[me])), old(ops[me]).cand, me, |old(log)|, old(ctrs).Keys, result, tidy)
    {
      ghost var op, n := ops[me], |log|;
      var ok := ChecksAndPromotion(me);
      ghost var late := |log|;
      if ok {
        result := Published;
        tidy := Finish(me);
      } else {
        result, tidy := Withdraw(me);
      }
      EndedSince(AimOf(op), op.cand, me, late, n, old(ctrs).Keys, result, tidy);
    }

    method ChecksAndPromotion(me: OpId) returns (ok: bool)
      requires Valid() && Holds(me, Switched) && lock == Some(me) && !ops[me].promoted
      modifies this, db
      ensures Valid() && lock == Some(me) && old(log) <= log && ctrs == old(ctrs) && (smooth ==> ok)
      ensures Holds(me, if ok then Promoted else Compensating) && ops[me].promoted == ok
      ensures AimOf(ops[me]) == AimOf(old(ops[me])) && ops[me].cand == old(ops[me]).cand
    {
      var cancelled;
      ok, cancelled := LastChecks(me);
      if ok {
        ok := PromoteCandidate(me);
        Others(me);
      }
    }

    /** Custom routes and the last check. A build that finds itself cancelled records that at once. */
    method LastChecks(me: OpId) returns (ok: bool, cancelled: bool)
      requires Valid() && Holds(me, Switched) && lock == Some(me)
      modifies this, db
      ensures Valid() && lock == Some(me) && old(log) <= log
      ensures ctrs == old(ctrs) && (smooth ==> ok)
      ensures me in ops && ops[me] == old(ops[me]).(phase := if ok then Committing else Compensating)
      ensures cancelled ==> !ok && ops[me].kind.Build?
      ensures cancelled && records ==>
                exists k :: |old(log)| < k < |log| && log[k] == Outside(CancelMark(ops[me].dep))
    {
      ok := PublishChecks(me);
      Others(me);
      cancelled := *;
      cancelled := cancelled && !ok && ops[me].kind.Build? && ops[me].dep in db.rows;
      ghost var n := |log|;
      if cancelled {
        MarkCancelledEarly(me);
        assert records ==> log[n] == Outside(CancelMark(ops[me].dep));
      }
      Others(me);
    }

    /** How a section ends in which `prev` was the previous release: as `Settles` says if the calls the protocol
        rests on worked, with exactly the containers `Leaves` says, and published unless something failed. */
    ghost predicate SectionEnded(aim: Aim, me: OpId, from: nat, before: set<ContainerId>,
                                 result: Result, cand: Option<Instance>, tidy: bool)
      reads this, db
    {
      && me !in ops && lock.None? && (result.Published? || result.Failure? || result.Aborted?)
      && (BenignRun(log) ==> Settles(aim, result, cand, tidy))
      && Leaves(before, aim.prev, result, cand, tidy)
      && (!result.Published? ==> RecordedAs(from, me, aim.kind, result))
      && (smooth ==> result.Published? && tidy)
    }

    /** Starts the candidate for a deploy that knows the previous release, and publishes it. */
    method StartCandidate(me: OpId) returns (result: Result, cand: Option<Instance>, tidy: bool)
      requires Valid() && Holds(me, Prepared) && lock == Some(me) && !ops[me].promoted
      modifies this, db
      ensures Valid() && old(log) <= log
      ensures SectionEnded(AimOf(old(ops[me])), me, |old(log)|, old(ctrs).Keys, result, cand, tidy)
    {
      ghost var op, n, before := ops[me], |log|, ctrs.Keys;
      cand := RunContainer(me);
      Others(me);
      ghost var late := |log|;
      if cand.Some? {
        assert ctrs.Keys == before + {cand.value.id};
        result, tidy := Publish(me);
        PublishedSettles(AimOf(op), cand.value, me, late, n, before, result, tidy);
      } else {
        result := NotStarted(me);
        tidy := true;
      }
    }

    method NotStarted(me: OpId) returns (result: Result)
      requires Valid() && Holds(me, Marking) && lock == Some(me) && !ops[me].promoted
      modifies this, db
      ensures Valid() && old(log) <= log && me !in ops && lock.None? && ctrs == old(ctrs)
      ensures result.Failure? || result.Aborted?
      ensures BenignRun(log) ==> Kept(AimOf(old(ops[me])))
      ensures RecordedAs(|old(log)|, me, old(ops[me]).kind, result)
    {
      var mark;
      mark, result := ChooseMark(me);
      Conclude(me, mark);
    }

    lemma PublishedSettles(aim: Aim, cand: Instance, me: OpId, late: nat, from: nat, before: set<ContainerId>,
                           result: Result, tidy: bool)
      requires from <= late && Ended(aim, cand, me, late, before + {cand.id}, result, tidy)
      ensures SectionEnded(aim, me, from, before, result, Some(cand), tidy)
    {
      EndedSince(aim, cand, me, late, from, before + {cand.id}, result, tidy);
    }


    lemma NothingStarted(aim: Aim, me: OpId, from: nat, result: Result)
      requires me !in ops && lock.None? && !smooth && (result.Failure? || result.Aborted?)
      requires BenignRun(log) ==> Kept(aim)
      requires RecordedAs(from, me, aim.kind, result)
      ensures SectionEnded(aim, me, from, ctrs.Keys, result, None, true)
    {
    }

    /** RunBuild with the lock held: read the active row, check for cancellation, publish. */
    method BuildSection(me: OpId)
      returns (result: Result, prev: Option<Previous>, cand: Option<Instance>, tidy: bool)
      requires Valid() && Holds(me, Locked) && lock == Some(me) && ops[me].kind.Build? && !ops[me].promoted
      requires ops[me].prev.None?
      modifies this, db
      ensures Valid() && old(log) <= log
      ensures SectionEnded(Aim(Build, old(ops[me]).dep, prev), me, |old(log)|, old(ctrs).Keys, result, cand, tidy)
    {
      ghost var dep, n, before := ops[me].dep, |log|, ctrs.Keys;
      var readFailed: bool := *;
      if readFailed && !smooth {
        GiveUpReading(me, Fail);
        return Failure, None, None, true;
      }
      ghost var found;
      prev, found := ReadActive(me);
      Others(me);
      ghost var late := |log|;
      result, cand, tidy := BuildReplacing(me);
      SectionEndedSince(Aim(Build, dep, prev), me, late, n, before, result, cand, tidy);
    }

    /** The same, knowing the previous release. */
    method BuildReplacing(me: OpId) returns (result: Result, cand: Option<Instance>, tidy: bool)
      requires Valid() && Holds(me, Prepared) && lock == Some(me) && ops[me].kind.Build? && !ops[me].promoted
      modifies this, db
      ensures Valid() && old(log) <= log
      ensures SectionEnded(AimOf(old(ops[me])), me, |old(log)|, old(ctrs).Keys, result, cand, tidy)
    {
      ghost var aim, n := AimOf(ops[me]), |log|;
      var cancelled: bool := *;
      if cancelled && !smooth {
        StopAsCancelled(me);
        NothingStarted(aim, me, n, Aborted);
        cand, tidy, result := None, true, Aborted;
      } else {
        result, cand, tidy := StartCandidate(me);
      }
    }

    method StopAsCancelled(me: OpId)
      requires Valid() && Holds(me, Prepared) && lock == Some(me) && ops[me].kind.Build? && !ops[me].promoted
      modifies this, db
      ensures Valid() && me !in ops && old(log) <= log && lock.None? && ctrs == old(ctrs)
      ensures BenignRun(log) ==> Kept(AimOf(old(ops[me])))
      ensures Recorded(|old(log)|, me, Cancel)
    {
      StopBeforeStart(me);
      Others(me);
      Conclude(me, Cancel);
    }

    /** The active row could not be read. */
    method GiveUpReading(me: OpId, wanted: Mark)
      requires Valid() && Holds(me, Locked) && lock == Some(me) && !ops[me].promoted && !smooth
      requires wanted == if ops[me].kind.Build? then Fail else Keep
      modifies this, db
      ensures Valid() && old(log) <= log
      ensures SectionEnded(AimOf(old(ops[me])), me, |old(log)|, old(ctrs).Keys, Failure, None, true)
    {
      ghost var aim, n := AimOf(ops[me]), |log|;
      FailRead(me);
      Others(me);
      Conclude(me, wanted);
      NothingStarted(aim, me, n, Failure);
    }

    lemma SectionEndedSince(aim: Aim, me: OpId, late: nat, from: nat, before: set<ContainerId>,
                            result: Result, cand: Option<Instance>, tidy: bool)
      requires from <= late
      ensures SectionEnded(aim, me, late, before, result, cand, tidy) ==>
                SectionEnded(aim, me, from, before, result, cand, tidy)
    {
    }

    /** `before` are the containers there were when the operation took the lock. */
    ghost predicate TookLock(me: OpId, from: nat, before: set<ContainerId>)
      reads this
    {
      exists k :: from <= k < |log| && log[k] == Outside(Acquire(me)) && IsRun(start, log[..k]) &&
                  After(start, log[..k]).ctrs.Keys == before
    }

    lemma LockTaken(me: OpId, from: nat, early: seq<Label>, w: World)
      requires from <= |early| && early + [Outside(Acquire(me))] <= log
      requires IsRun(start, early) && After(start, early) == w
      ensures TookLock(me, from, w.ctrs.Keys)
    {
      assert log[..|early|] == early;
    }

    /** RunBuild from the rollout lock on. */
    method RolloutBuild(me: OpId)
      returns (result: Result, prev: Option<Previous>, cand: Option<Instance>, tidy: bool,
               ghost before: set<ContainerId>)
      requires Valid() && me in ops && ops[me].Queued? && ops[me].kind.Build?
      modifies this, db
      ensures Valid() && me !in ops && old(log) <= log
      ensures if result.Refused? then LeftUnlocked(log, me, Cancel, records)
              else && TookLock(me, |old(log)|, before)
                   && SectionEnded(Aim(Build, old(ops[me]).dep, prev), me, |old(log)|, before, result, cand, tidy)
    {
      ghost var dep, n := ops[me].dep, |log|;
      Others(me);
      ghost var early, w := log, View();
      var acquired := AcquireRollout(me);
      before := ctrs.Keys;
      if acquired {
        Others(me);
        ghost var late := |log|;
        result, prev, cand, tidy := BuildSection(me);
        LockTaken(me, n, early, w);
        SectionEndedSince(Aim(Build, dep, prev), me, late, n, before, result, cand, tidy);
      } else {
        Leave(me, Cancel);
        result, prev, cand, tidy := Refused, None, None, true;
      }
    }

    /** A rollback's target has become active, and is left alone. */
    ghost predicate FoundActive(me: OpId, dep: DepId)
      reads this, db
    {
      me !in ops && lock.None? && (BenignRun(log) ==> IsRunning(db.rows, dep) && Quiet(View()))
    }

    /** Rollback with the lock held; a target that has become active meanwhile is left alone. */
    method RollbackSection(me: OpId)
      returns (result: Result, prev: Option<Previous>, cand: Option<Instance>, tidy: bool)
      requires Valid() && Holds(me, Locked) && lock == Some(me) && ops[me].kind.Rollback? && !ops[me].promoted
      requires ops[me].prev.None?
      modifies this, db
      ensures Valid() && old(log) <= log && !result.Refused?
      ensures if result.AlreadyActive? then FoundActive(me, old(ops[me]).dep) && ctrs == old(ctrs)
              else SectionEnded(Aim(Kind.Rollback, old(ops[me]).dep, prev), me, |old(log)|, old(ctrs).Keys,
                                result, cand, tidy)
    {
      var readFailed: bool := *;
      if readFailed && !smooth {
        GiveUpReading(me, Keep);
        result, prev, cand, tidy := Failure, None, None, true;
      } else {
        result, prev, cand, tidy := ReadAndReturn(me);
      }
    }

    method ReadAndReturn(me: OpId)
      returns (result: Result, prev: Option<Previous>, cand: Option<Instance>, tidy: bool)
      requires Valid() && Holds(me, Locked) && lock == Some(me) && ops[me].kind.Rollback? && !ops[me].promoted
      requires ops[me].prev.None?
      modifies this, db
      ensures Valid() && old(log) <= log && !result.Refused?
      ensures if result.AlreadyActive? then FoundActive(me, old(ops[me]).dep) && ctrs == old(ctrs)
              else SectionEnded(Aim(Kind.Rollback, old(ops[me]).dep, prev), me, |old(log)|, old(ctrs).Keys,
                                result, cand, tidy)
    {
      ghost var dep, n, before := ops[me].dep, |log|, ctrs.Keys;
      ghost var found;
      prev, found := ReadActive(me);
      ghost var late := |log|;
      result, cand, tidy := ReturnReplacing(me);
      SectionEndedSince(Aim(Kind.Rollback, dep, prev), me, late, n, before, result, cand, tidy);
    }

    /** The same, once the active row has been read. */
    method ReturnReplacing(me: OpId) returns (result: Result, cand: Option<Instance>, tidy: bool)
      requires Valid() && (Holds(me, Prepared) || Holds(me, Leaving)) && lock == Some(me) && !ops[me].promoted
      requires ops[me].kind.Rollback? && (Holds(me, Leaving) ==> IsRunning(db.rows, ops[me].dep))
      modifies this, db
      ensures Valid() && old(log) <= log && (result.AlreadyActive? <==> old(Holds(me, Leaving)))
      ensures if result.AlreadyActive? then FoundActive(me, old(ops[me]).dep) && ctrs == old(ctrs)
              else SectionEnded(AimOf(old(ops[me])), me, |old(log)|, old(ctrs).Keys, result, cand, tidy)
    {
      if ops[me].phase.Leaving? {
        StandDown(me);
        return AlreadyActive, None, true;
      }
      ghost var aim, n, before := AimOf(ops[me]), |log|, ctrs.Keys;
      Others(me);
      ghost var late := |log|;
      result, cand, tidy := StartCandidate(me);
      SectionEndedSince(aim, me, late, n, before, result, cand, tidy);
    }


    method Rollback(me: OpId)
      returns (result: Result, prev: Option<Previous>, cand: Option<Instance>, tidy: bool,
               ghost before: set<ContainerId>)
      requires Valid() && me in ops && ops[me].Queued? && ops[me].kind.Rollback?
      modifies this, db
      ensures Valid() && me !in ops && old(log) <= log
      ensures !result.Refused? ==> TookLock(me, |old(log)|, before)
      ensures if result.Refused? then LeftUnlocked(log, me, Keep, records)
              else if result.AlreadyActive? then FoundActive(me, old(ops[me]).dep) && ctrs.Keys == before
              else SectionEnded(Aim(Kind.Rollback, old(ops[me]).dep, prev), me, |old(log)|, before, result, cand, tidy)
    {
      ghost var dep, n := ops[me].dep, |log|;
      Others(me);
      ghost var early, w := log, View();
      var acquired := AcquireRollout(me);
      before := ctrs.Keys;
      if acquired {
        Others(me);
        ghost var late := |log|;
        result, prev, cand, tidy := RollbackSection(me);
        LockTaken(me, n, early, w);
        SectionEndedSince(Aim(Kind.Rollback, dep, prev), me, late, n, before, result, cand, tidy);
      } else {
        Leave(me, Keep);
        result, prev, cand, tidy := Refused, None, None, true;
      }
    }

    // ----- StopApp -----

    predicate HoldsStop(me: OpId, stop: StopPhase)
      reads this
    {
      me in ops && ops[me].Stop? && ops[me].stop == stop
    }

    method RemoveRoute(me: OpId) returns (ok: bool)
      requires Valid() && HoldsStop(me, StopLocked)
      modifies this`route, this`ops, this`log
      ensures Valid() && log == old(log) + [Stopping(me, Unroute(ok))]
      ensures me in ops && ops[me] == old(ops[me]).(stop := if ok then Unrouted else StopLeaving)
      ensures smooth ==> ok
      ensures route == if ok then None else old(route)
    {
      ok := *;
      ok := ok || smooth;
      if ok {
        route := None;
      }
      ops := ops[me := ops[me].(stop := if ok then Unrouted else StopLeaving)];
      Extend(start, log, Stopping(me, Unroute(ok)));
      log := log + [Stopping(me, Unroute(ok))];
    }

    method Choose(me: OpId, d: DepId)
      requires Valid() && HoldsStop(me, Unrouted) && IsVictim(db.rows, d)
      modifies this`ops, this`log
      ensures Valid() && log == old(log) + [Stopping(me, ChooseVictim(d))]
      ensures me in ops && ops[me] == Stop(Chosen, Previous(d, db.rows[d].container.value))
    {
      ops := ops[me := Stop(Chosen, Previous(d, db.rows[d].container.value))];
      Extend(start, log, Stopping(me, ChooseVictim(d)));
      log := log + [Stopping(me, ChooseVictim(d))];
    }

    /** Nothing runs, or a read or a custom route has failed. */
    method SkipVictim(me: OpId, done: bool)
      requires Valid() && HoldsStop(me, Unrouted) && (done ==> NoneRunning(db.rows))
      modifies this`ops, this`log
      ensures Valid() && log == old(log) + [Stopping(me, if done then NothingToStop else StopGiveUp)]
      ensures me in ops && ops[me] == old(ops[me]).(stop := if done then StopDone else StopLeaving)
    {
      ops := ops[me := ops[me].(stop := if done then StopDone else StopLeaving)];
      Extend(start, log, Stopping(me, if done then NothingToStop else StopGiveUp));
      log := log + [Stopping(me, if done then NothingToStop else StopGiveUp)];
    }

    /** The row to take down: a newest running one, or, when none runs, a newest one of all that failed. */
    ghost predicate ToTakeDown(t: Table, v: Previous) {
      && v.dep in t && t[v.dep].container == Some(v.inst)
      && (if t[v.dep].status == Running
          then forall e | e in t && t[e].status == Running :: t[e].created <= t[v.dep].created
          else t[v.dep].status == Failed &&
               forall e | e in t :: t[e].status != Running && t[e].created <= t[v.dep].created)
    }

    /** No row runs, and a newest one has not failed or has no container. */
    ghost predicate NothingToTakeDown(t: Table) {
      && (forall e | e in t :: t[e].status != Running)
      && (t != map[] ==> exists n :: n in t && (t[n].status != Failed || t[n].container.None?) &&
                                     forall e | e in t :: t[e].created <= t[n].created)
    }

    /** The active row, or else the newest one if it failed. */
    method PickVictim() returns (active: Option<DepId>, found: Option<DepId>)
      ensures if active.Some? then IsActive(db.rows, active.value) else NoneRunning(db.rows)
      ensures found.Some? ==> found.value in db.rows
      ensures found.Some? && db.rows[found.value].container.Some? ==>
                && IsVictim(db.rows, found.value)
                && ToTakeDown(db.rows, Previous(found.value, db.rows[found.value].container.value))
      ensures active.Some? ==> found == active
      ensures active.None? && (found.Some? ==> db.rows[found.value].container.None?) ==> NothingToTakeDown(db.rows)
    {
      active := db.GetActive();
      var newest := db.Newest();
      found := if active.None? && newest.Some? && db.rows[newest.value].status == Failed then newest else active;
      if active.None? && newest.Some? && (found.Some? ==> db.rows[found.value].container.None?) {
        assert IsNewest(db.rows, newest.value);
      }
    }

    lemma ActiveHasContainer(d: DepId)
      requires Valid() && BenignRun(log) && IsActive(db.rows, d)
      ensures db.rows[d].container.Some?
    {
      Safe();
      assert RowInv(View(), d);
    }

    /** What it names is the container to remove; any failing read or custom route ends the call.
        (A running row always names a container.) */
    method FindVictim(me: OpId) returns (ok: bool)
      requires Valid() && HoldsStop(me, Unrouted)
      modifies this`ops, this`log
      ensures Valid() && old(log) <= log
      ensures if ok then HoldsStop(me, Chosen) || HoldsStop(me, StopDone) else HoldsStop(me, StopLeaving)
      ensures HoldsStop(me, Chosen) ==> ToTakeDown(db.rows, ops[me].victim)
      ensures HoldsStop(me, StopDone) ==> NothingToTakeDown(db.rows)
      ensures smooth && BenignRun(log) ==> ok
    {
      var active, found := PickVictim();
      ok := *;
      ok := ok || smooth;
      if BenignRun(log) && active.Some? { ActiveHasContainer(active.value); }
      if ok && found.Some? && db.rows[found.value].container.Some? {
        Choose(me, found.value);
      } else {
        ok := ok && active.None?;
        SkipVictim(me, ok);
      }
    }

    method StopVictim(me: OpId) returns (ok: bool)
      requires Valid() && HoldsStop(me, Chosen)
      modifies this`ctrs, this`ops, this`log
      ensures Valid() && log == old(log) + [Stopping(me, StopStep.StopVictim(ok))]
      ensures me in ops && ops[me] == old(ops[me]).(stop := VictimStopped)
      ensures ctrs == if ok then Halted(old(ctrs), old(ops[me]).victim.inst.id) else old(ctrs)
      ensures smooth ==> ok
    {
      ok := *;
      ok := ok || smooth;
      if ok {
        ctrs := Halted(ctrs, ops[me].victim.inst.id);
      }
      ops := ops[me := ops[me].(stop := VictimStopped)];
      Extend(start, log, Stopping(me, StopStep.StopVictim(ok)));
      log := log + [Stopping(me, StopStep.StopVictim(ok))];
    }

    method RemoveVictim(me: OpId) returns (ok: bool)
      requires Valid() && HoldsStop(me, VictimStopped)
      modifies this`ctrs, this`ops, this`log
      ensures Valid() && log == old(log) + [Stopping(me, StopStep.RemoveVictim(ok))]
      ensures me in ops && ops[me] == old(ops[me]).(stop := if ok then VictimRemoved else StopLeaving)
      ensures ctrs == if ok then old(ctrs) - {old(ops[me]).victim.inst.id} else old(ctrs)
      ensures smooth ==> ok
    {
      ok := *;
      ok := ok || smooth;
      if ok {
        ctrs := ctrs - {ops[me].victim.inst.id};
      }
      ops := ops[me := ops[me].(stop := if ok then VictimRemoved else StopLeaving)];
      Extend(start, log, Stopping(me, StopStep.RemoveVictim(ok)));
      log := log + [Stopping(me, StopStep.RemoveVictim(ok))];
    }

    method MarkStopped(me: OpId) returns (ok: bool)
      requires Valid() && HoldsStop(me, VictimRemoved)
      modifies this`ops, this`log, db
      ensures Valid() && log == old(log) + [Stopping(me, StopStep.MarkStopped(ok))]
      ensures me in ops && ops[me] == old(ops[me]).(stop := if ok then StopDone else StopLeaving)
      ensures db.rows == if ok then WithStatus(old(db.rows), old(ops[me]).victim.dep, Stopped) else old(db.rows)
      ensures smooth ==> ok
    {
      ok := *;
      ok := ok || smooth;
      if ok {
        db.UpdateStatus(ops[me].victim.dep, Stopped);
      }
      ops := ops[me := ops[me].(stop := if ok then StopDone else StopLeaving)];
      Extend(start, log, Stopping(me, StopStep.MarkStopped(ok)));
      log := log + [Stopping(me, StopStep.MarkStopped(ok))];
    }

    method ReleaseStop(me: OpId)
      requires Valid() && (HoldsStop(me, StopDone) || HoldsStop(me, StopLeaving))
      modifies this`lock, this`ops, this`log
      ensures Valid() && log == old(log) + [Stopping(me, StopRelease)]
      ensures me !in ops && lock.None? && View() == old(View()).(lock := None, ops := ops)
    {
      lock := None;
      ops := ops - {me};
      Extend(start, log, Stopping(me, StopRelease));
      log := log + [Stopping(me, StopRelease)];
    }

    /** Stop the container, remove it, mark the row; a failing stop alone is ignored. */
    method TakeDown(me: OpId) returns (ok: bool)
      requires Valid() && HoldsStop(me, Chosen) && lock == Some(me)
      modifies this, db
      ensures Valid() && old(log) <= log && lock == Some(me)
      ensures HoldsStop(me, if ok then StopDone else StopLeaving)
      ensures ok ==> ctrs.Keys == old(ctrs).Keys - {old(ops[me]).victim.inst.id}
      ensures smooth ==> ok
      ensures ok && old(ops[me]).victim.dep in db.rows ==> db.rows[old(ops[me]).victim.dep].status == Stopped
    {
      var _ := StopVictim(me);
      Others(me);
      ok := RemoveVictim(me);
      Others(me);
      if ok {
        ok := MarkStopped(me);
      }
    }

    /** Take the route down first, then the container, then mark the row. */
    method StopUnderLock(me: OpId) returns (ok: bool)
      requires Valid() && HoldsStop(me, StopLocked) && lock == Some(me)
      modifies this, db
      ensures Valid() && old(log) <= log && lock == Some(me)
      ensures HoldsStop(me, if ok then StopDone else StopLeaving)
      ensures smooth && BenignRun(log) ==> ok
    {
      ok := RemoveRoute(me);
      Others(me);
      if ok {
        ok := ClearOut(me);
      }
    }

    method ClearOut(me: OpId) returns (ok: bool)
      requires Valid() && HoldsStop(me, Unrouted) && lock == Some(me)
      modifies this, db
      ensures Valid() && old(log) <= log && lock == Some(me)
      ensures HoldsStop(me, if ok then StopDone else StopLeaving)
      ensures smooth && BenignRun(log) ==> ok
    {
      ok := FindVictim(me);
      Others(me);
      if HoldsStop(me, Chosen) {
        ok := TakeDown(me);
        Others(me);
      }
    }

    /** What the holder of the lock knows about a stop that is over. */
    lemma StopIsOver(me: OpId)
      requires Valid() && (HoldsStop(me, StopDone) || HoldsStop(me, StopLeaving)) && lock == Some(me)
      ensures BenignRun(log) ==> Quiet(View())
      ensures BenignRun(log) && HoldsStop(me, StopDone) ==> route.None? && NoneRunning(db.rows)
    {
      Safe();
      assert BenignRun(log) ==> HolderInv(View(), me, ops[me]);
    }

    method EndStop(me: OpId)
      requires Valid() && (HoldsStop(me, StopDone) || HoldsStop(me, StopLeaving)) && lock == Some(me)
      modifies this`lock, this`ops, this`log
      ensures Valid() && me !in ops && old(log) <= log && lock.None?
      ensures BenignRun(log) ==> Quiet(View())
      ensures BenignRun(log) && old(HoldsStop(me, StopDone)) ==> route.None? && NoneRunning(db.rows)
    {
      StopIsOver(me);
      ghost var before := View();
      ReleaseStop(me);
      SameRest(before, View());
    }

    /** A successful StopApp leaves no route and no running row. */
    method StopApp(me: OpId) returns (acquired: bool, ok: bool)
      requires Valid() && me in ops && ops[me].QueuedStop?
      modifies this, db
      ensures Valid() && me !in ops && old(log) <= log
      ensures BenignRun(log) && acquired ==> lock.None? && Quiet(View())
      ensures BenignRun(log) && acquired && ok ==> route.None? && NoneRunning(db.rows)
      ensures smooth && BenignRun(log) && acquired ==> ok
    {
      Others(me);
      acquired := AcquireRollout(me);
      if acquired {
        Others(me);
        ok := StopUnderLock(me);
        EndStop(me);
      } else {
        ok := false;
        Leave(me, Keep);
      }
    }
  }
}
