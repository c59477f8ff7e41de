/** What the service does after a restart: RecoverCandidates, then the
    reconciliation of managed containers. All that survives a crash is the table,
    the containers and the route; the lock and the operations are gone.
 */
module Recovery {
  import opened Domain
  import opened Sequences
  import opened DeploymentTable
  import opened RolloutMachine
  import opened RolloutSafety
  import opened RolloutTheorems

  /** The container and route state at one moment of the recovery. */
  datatype Moment = Moment(ctrs: map<ContainerId, Container>, route: Option<nat>)

  ghost predicate ServedAt(m: Moment) {
    exists i: Instance :: m.route == Some(i.port) && i.id in m.ctrs && m.ctrs[i.id] == Container(i.port, true)
  }

  ghost predicate AllServed(ms: seq<Moment>) {
    forall k | 0 <= k < |ms| :: ServedAt(ms[k])
  }

  /** A present route goes to the standing container of a running row, which need not be serving. */
  ghost predicate RouteSound(w: World) {
    w.route.Some? ==> exists d :: RouteTargets(w, d)
  }

  ghost predicate NoOrphans(t: Table) {
    forall d | d in t :: !IsOrphan(t, d)
  }

  /** What a crash at any moment of any run leaves: a sound route, or one to a recorded candidate. */
  ghost predicate Recoverable(w: World) {
    && TableInv(w)
    && (RouteSound(w) || exists d :: IsOrphan(w.rows, d) && w.route == Some(w.rows[d].candidate.value.port))
  }

  ghost predicate ActiveServes(w: World) {
    forall d | IsActive(w.rows, d) :: w.rows[d].container.Some? && Serving(w, w.rows[d].container.value)
  }

  /** The process dies: operations and lock are gone. */
  function Crash(w: World): World {
    w.(lock := None, ops := map[])
  }

  lemma CrashIsRecoverable(w: World)
    requires Inv(w)
    ensures Recoverable(Crash(w))
  {
    var v := Crash(w);
    forall d | d in v.rows ensures RowInv(v, d) { assert RowInv(w, d); }
    if w.lock.Some? && w.ops[w.lock.value].Deploy? {
      var op := w.ops[w.lock.value];
      if RouteOnCandidate(op.phase) {
        assert IsOrphan(v.rows, op.dep);
      } else if Committed(op.phase) {
        assert RouteTargets(v, op.dep);
      } else if Open(op.phase) {
        assert w.route.Some? ==> RouteTargets(v, op.prev.value.dep);
      } else {
        QuietIsSound(w);
      }
    } else if Quiet(w) {
      QuietIsSound(w);
    }
  }

  lemma QuietIsSound(w: World)
    requires Quiet(w)
    ensures RouteSound(Crash(w))
  {
    if w.route.Some? {
      var d :| IsRunning(w.rows, d) && Owns(w, d, w.route.value);
      assert Stands(w, d) && RouteTargets(Crash(w), d);
    }
  }

  class Host {
    const db: DeploymentStore
    var ctrs: map<ContainerId, Container>
    var route: Option<nat>
    ghost const born: map<ContainerId, DepId>
    ghost const runs: map<DepId, OpId>
    ghost var moments: seq<Moment>
    const reliable: bool       // no call fails

    constructor (w: World, reliable: bool)
      ensures View() == Crash(w) && moments == [Moment(w.ctrs, w.route)] && fresh(db)
      ensures this.reliable == reliable
    {
      this.reliable := reliable;
      db := new DeploymentStore(w.rows);
      ctrs, route, born, runs := w.ctrs, w.route, w.born, w.runs;
      moments := [Moment(w.ctrs, w.route)];
    }

    ghost function View(): World
      reads this, db
    {
      World(db.rows, ctrs, route, None, map[], born, runs)
    }

    method SwitchRoute(port: nat) returns (ok: bool)
      modifies this
      ensures ctrs == old(ctrs) && route == if ok then Some(port) else old(route)
      ensures moments == old(moments) + [Moment(ctrs, route)] && (reliable ==> ok)
    {
      ok := *;
      ok := ok || reliable;
      if ok {
        route := Some(port);
      }
      moments := moments + [Moment(ctrs, route)];
    }

    method RemoveRoute() returns (ok: bool)
      modifies this
      ensures ctrs == old(ctrs) && route == if ok then None else old(route)
      ensures moments == old(moments) + [Moment(ctrs, route)] && (reliable ==> ok)
    {
      ok := *;
      ok := ok || reliable;
      if ok {
        route := None;
      }
      moments := moments + [Moment(ctrs, route)];
    }

    method StopContainer(id: ContainerId) returns (ok: bool)
      modifies this
      ensures route == old(route) && ctrs == if ok then Halted(old(ctrs), id) else old(ctrs)
      ensures moments == old(moments) + [Moment(ctrs, route)] && (reliable ==> ok)
    {
      ok := *;
      ok := ok || reliable;
      if ok {
        ctrs := Halted(ctrs, id);
      }
      moments := moments + [Moment(ctrs, route)];
    }

    method RemoveContainer(id: ContainerId) returns (ok: bool)
      modifies this
      ensures route == old(route) && ctrs == if ok then old(ctrs) - {id} else old(ctrs)
      ensures moments == old(moments) + [Moment(ctrs, route)] && (reliable ==> ok)
    {
      ok := *;
      ok := ok || reliable;
      if ok {
        ctrs := ctrs - {id};
      }
      moments := moments + [Moment(ctrs, route)];
    }

    /** Points the route back at the row GetActive answers with, or takes it down when there is none.
        A failing read of the active row takes it down as well. */
    method RestoreRoute() returns (clean: bool, ghost readFailed: bool, ghost written: bool)
      modifies this
      ensures ctrs == old(ctrs) && moments == old(moments) + [Moment(ctrs, route)]
      ensures if !written then route == old(route) else if readFailed then route.None? else RouteRestored(View())
      ensures clean == (written && !readFailed) && (reliable ==> clean)
    {
      var active := db.GetActive();
      var failed: bool := *;
      failed := failed && !reliable;
      if !failed && active.Some? && db.rows[active.value].container.Some? {
        clean := SwitchRoute(db.rows[active.value].container.value.port);
        assert clean ==> AnsweredBy(View(), active.value);
        written := clean;
      } else {
        clean := RemoveRoute();
        written := clean;
        clean := clean && !failed;
        assert clean && active.Some? ==> AnsweredBy(View(), active.value);
      }
      readFailed := failed;
    }

    /** cleanupCandidate: stop, then remove whether or not that worked. */
    method CleanUp(id: ContainerId) returns (removed: bool, ghost stopped: bool)
      modifies this
      ensures route == old(route) && AgreeBut(old(ctrs), ctrs, id)
      ensures ctrs.Keys == if removed then old(ctrs).Keys - {id} else old(ctrs).Keys
      ensures moments == old(moments) +
                [Moment(if stopped then Halted(old(ctrs), id) else old(ctrs), route), Moment(ctrs, route)]
      ensures reliable ==> removed && stopped
    {
      var ok := StopContainer(id);
      stopped := ok;
      removed := RemoveContainer(id);
    }

    /** Forgets the candidate and marks the row failed; both errors are ignored. */
    method Settle(d: DepId) returns (clean: bool)
      requires IsOrphan(db.rows, d)
      modifies db
      ensures RowSettled(old(db.rows), db.rows, d)
      ensures clean ==> db.rows[d].candidate.None? && db.rows[d].status == Failed
      ensures reliable ==> clean
    {
      var cleared: bool := *;
      cleared := cleared || reliable;
      if cleared {
        db.ClearCandidate(d);
      }
      var marked: bool := *;
      marked := marked || reliable;
      if marked {
        db.UpdateStatus(d, Failed);
      }
      clean := cleared && marked;
    }

    /** One orphan: the route first, then its container, then its row. */
    method RecoverCandidate(d: DepId) returns (clean: bool)
      requires IsOrphan(db.rows, d)
      modifies this, db
      ensures RowSettled(old(db.rows), db.rows, d)
      ensures AgreeBut(old(ctrs), ctrs, old(db.rows)[d].candidate.value.id)
      ensures clean ==> RouteRestored(View()) && old(db.rows)[d].candidate.value.id !in ctrs
      ensures clean ==> db.rows[d].candidate.None? && db.rows[d].status == Failed
      ensures reliable ==> clean
      ensures TableInv(old(View())) && clean && Served(old(View())) && AllServed(old(moments)) ==> AllServed(moments)
    {
      var c := db.rows[d].candidate.value;
      var restored := RestoreIfKnown();
      ghost var middle := View();
      var removed := CleanUpCandidate(d, c.id, restored);
      var settled := Settle(d);
      clean := settled && restored && removed;
      if restored {
        SettledKeepsRestored(middle, View(), d);
      }
    }

    /** The application is read first; without it the route is left alone. */
    method RestoreIfKnown() returns (clean: bool)
      modifies this
      ensures ctrs == old(ctrs) && old(moments) <= moments && (reliable ==> clean)
      ensures clean ==> RouteRestored(View()) && moments == old(moments) + [Moment(ctrs, route)]
    {
      var appKnown: bool := *;
      clean := false;
      if appKnown || reliable {
        ghost var readFailed, written;
        clean, readFailed, written := RestoreRoute();
      }
    }

    method CleanUpCandidate(d: DepId, id: ContainerId, ghost restored: bool) returns (removed: bool)
      requires IsOrphan(db.rows, d) && db.rows[d].candidate.value.id == id
      requires restored ==> RouteRestored(View()) && moments != [] && moments[|moments|-1] == Moment(ctrs, route)
      modifies this
      ensures route == old(route) && AgreeBut(old(ctrs), ctrs, id) && (removed ==> id !in ctrs)
      ensures old(moments) <= moments && (reliable ==> removed)
      ensures restored && TableInv(old(View())) && Served(old(View())) &&
                AllServed(old(moments)[..|old(moments)|-1]) ==>
              AllServed(moments)
    {
      ghost var w, sofar, stopped := View(), moments, false;
      removed, stopped := CleanUp(id);
      if restored && TableInv(w) && Served(w) {
        CandidateGoneKeepsServed(w, d, moments, |sofar|);
      }
    }

    method RecoverNext(d: DepId, ghost w: World, ghost done: set<DepId>, ghost clean: bool, ghost before: seq<Moment>)
      returns (ok: bool)
      requires TableInv(w) && Handled(w, View(), done, clean, before, moments)
      requires d !in done && IsOrphan(w.rows, d)
      modifies this, db
      ensures Handled(w, View(), done + {d}, clean && ok, before, moments) && (reliable ==> ok)
    {
      ghost var u, sofar := View(), moments;
      RecoversInterrupts(w, u, done);
      InterruptedKeeps(w, u);
      ok := RecoverCandidate(d);
      HandledOneMore(w, u, View(), done, d, clean, ok, before, sofar, moments);
    }

    /** The loop over the listing. */
    method RecoverEach(items: seq<DepId>) returns (clean: bool, ghost done: set<DepId>)
      requires TableInv(View()) && Distinct(items) && forall d | d in items :: IsOrphan(db.rows, d)
      modifies this, db
      ensures forall d :: d in done <==> d in items
      ensures Handled(old(View()), View(), done, clean, old(moments), moments) && (reliable ==> clean)
      ensures items == [] ==> View() == old(View()) && moments == old(moments)
    {
      ghost var w := View();
      done, clean := {}, true;
      var k := 0;
      while k < |items|
        invariant 0 <= k <= |items|
        invariant forall d :: d in done <==> d in items[..k]
        invariant Handled(w, View(), done, clean, old(moments), moments) && (reliable ==> clean)
        invariant k == 0 ==> View() == w && moments == old(moments)
      {
        var d := items[k];
        assert d !in items[..k];
        var ok := RecoverNext(d, w, done, clean, old(moments));
        clean := clean && ok;
        done := done + {d};
        k := k + 1;
      }
      assert items[..k] == items;
    }

    /** After a clean pass no candidate is left in any row or running, and the route is
        untouched if there was none, and otherwise goes to the active row or nowhere. */
    method RecoverListed() returns (clean: bool)
      requires TableInv(View())
      modifies this, db
      ensures exists done :: Recovers(old(View()), View(), done)
      ensures clean ==> NoOrphans(db.rows) && OrphansSettled(old(View()), View())
      ensures reliable ==> clean
      ensures clean ==> if NoOrphans(old(db.rows)) then route == old(route) else RouteRestored(View())
      ensures clean && Served(old(View())) && AllServed(old(moments)) ==> AllServed(moments)
      ensures NoOrphans(old(db.rows)) ==> View() == old(View()) && moments == old(moments)
    {
      ghost var w := View();
      var items := db.ListCandidates();
      ghost var done;
      clean, done := RecoverEach(items);
      assert items != [] ==> IsOrphan(w.rows, items[0]);
      if clean { AllHandled(w, View(), done); }
    }

    /** RecoverCandidates: nothing happens when the listing fails. */
    method RecoverCandidates() returns (clean: bool)
      requires TableInv(View())
      modifies this, db
      ensures exists done :: Recovers(old(View()), View(), done)
      ensures clean ==> NoOrphans(db.rows) && OrphansSettled(old(View()), View())
      ensures reliable ==> clean
      ensures clean ==> if NoOrphans(old(db.rows)) then route == old(route) else RouteRestored(View())
      ensures clean && Served(old(View())) && AllServed(old(moments)) ==> AllServed(moments)
      ensures NoOrphans(old(db.rows)) ==> View() == old(View()) && moments == old(moments)
    {
      var listed: bool := *;
      if listed || reliable {
        clean := RecoverListed();
      } else {
        clean := false;
        assert Recovers(old(View()), View(), {});
      }
    }

    // ----- reconciliation -----

    /** referencedContainerIDs: the containers and candidates the given rows name. */
    method ReferencedIds(items: seq<DepId>) returns (ids: set<ContainerId>)
      requires forall d | d in items :: d in db.rows
      ensures forall c :: c in ids <==> exists d :: d in items && Names(db.rows[d], c)
    {
      ids := {};
      var k := 0;
      while k < |items|
        invariant 0 <= k <= |items|
        invariant forall c :: c in ids <==> exists d :: d in items[..k] && Names(db.rows[d], c)
      {
        var r := db.rows[items[k]];
        if r.container.Some? {
          ids := ids + {r.container.value.id};
        }
        if r.candidate.Some? {
          ids := ids + {r.candidate.value.id};
        }
        assert items[..k+1] == items[..k] + [items[k]];
        k := k + 1;
      }
      assert items[..k] == items;
    }

    /** Since moment `from` only containers that are gone now have been taken away. */
    ghost predicate OnlyShrank(from: nat)
      reads this
    {
      forall k | from <= k < |moments| :: moments[k].route == route && Above(moments[k].ctrs, ctrs)
    }

    method RemoveUnreferenced(id: ContainerId, ghost from: nat) returns (ok: bool)
      requires from <= |moments| && OnlyShrank(from)
      modifies this
      ensures reliable ==> ok
      ensures route == old(route) && ctrs == if ok then old(ctrs) - {id} else old(ctrs)
      ensures old(moments) <= moments && OnlyShrank(from)
    {
      ok := RemoveContainer(id);
    }

    /** reconcileManagedContainerIDs over any listing of distinct ids, some of which may be
        empty: exactly the listed, unreferenced containers whose removal works are gone. */
    method ReconcileIds(items: seq<Option<ContainerId>>, referenced: set<ContainerId>)
      returns (removed: nat, failed: set<ContainerId>)
      requires forall i, j | 0 <= i < j < |items| && items[i].Some? :: items[i] != items[j]
      modifies this
      ensures route == old(route) && ctrs.Keys <= old(ctrs).Keys
      ensures forall c | c in ctrs :: ctrs[c] == old(ctrs)[c]
      ensures forall c | c in old(ctrs) ::
                c in ctrs <==> c !in ListedIds(items) || c in referenced || c in failed
      ensures failed <= ListedIds(items) - referenced
      ensures removed == |ListedIds(items) - referenced - failed| && (reliable ==> failed == {})
      ensures old(moments) <= moments && OnlyShrank(|old(moments)|)
    {
      ghost var gone;
      removed, failed, gone := Sweep(items, referenced);
      assert gone == ListedIds(items) - referenced - failed;
    }

    method Sweep(items: seq<Option<ContainerId>>, referenced: set<ContainerId>)
      returns (removed: nat, failed: set<ContainerId>, ghost gone: set<ContainerId>)
      requires forall i, j | 0 <= i < j < |items| && items[i].Some? :: items[i] != items[j]
      modifies this
      ensures route == old(route) && ctrs == old(ctrs) - gone
      ensures forall c :: c in gone <==> Some(c) in items && c !in referenced && c !in failed
      ensures forall c | c in failed :: Some(c) in items && c !in referenced
      ensures removed == |gone| && (reliable ==> failed == {})
      ensures old(moments) <= moments && OnlyShrank(|old(moments)|)
    {
      removed, failed, gone := 0, {}, {};
      var k := 0;
      while k < |items|
        invariant 0 <= k <= |items|
        invariant route == old(route)
        invariant ctrs == old(ctrs) - gone
        invariant forall c :: c in gone <==> Some(c) in items[..k] && c !in referenced && c !in failed
        invariant forall c | c in failed :: Some(c) in items[..k] && c !in referenced
        invariant removed == |gone| && (reliable ==> failed == {})
        invariant old(moments) <= moments && OnlyShrank(|old(moments)|)
      {
        assert items[..k+1] == items[..k] + [items[k]];
        if items[k].Some? && items[k].value !in referenced {
          assert items[k] !in items[..k];
          var ok := RemoveUnreferenced(items[k].value, |old(moments)|);
          if ok {
            removed := removed + 1;
            gone := gone + {items[k].value};
          } else {
            failed := failed + {items[k].value};
          }
        }
        k := k + 1;
      }
      assert items[..k] == items;
    }

    /** Docker's listing of the managed containers, each once. */
    method ListManaged() returns (items: seq<Option<ContainerId>>)
      ensures ListedIds(items) == ctrs.Keys
      ensures forall i, j | 0 <= i < j < |items| && items[i].Some? :: items[i] != items[j]
    {
      items := [];
      var todo := ctrs.Keys;
      while todo != {}
        invariant todo <= ctrs.Keys
        invariant forall c :: Some(c) in items <==> c in ctrs && c !in todo
        invariant forall x | x in items :: x.Some?
        invariant forall i, j | 0 <= i < j < |items| && items[i].Some? :: items[i] != items[j]
        decreases todo
      {
        var c :| c in todo;
        todo := todo - {c};
        items := items + [Some(c)];
      }
      assert forall c :: c in ctrs ==> Some(c) in items;
    }

    /** ReconcileManagedContainers: nothing happens when a read fails; otherwise no container that a running
        row or one with a candidate names goes, without errors every other one does, and those are counted. */
    method Reconcile() returns (removed: nat, clean: bool)
      modifies this
      ensures route == old(route) && ctrs.Keys <= old(ctrs).Keys
      ensures forall c | c in ctrs :: ctrs[c] == old(ctrs)[c]
      ensures forall d | d in db.rows && (db.rows[d].status == Running || db.rows[d].candidate.Some?) ::
                && (db.rows[d].container.Some? && db.rows[d].container.value.id in old(ctrs) ==>
                      db.rows[d].container.value.id in ctrs)
                && (db.rows[d].candidate.Some? && db.rows[d].candidate.value.id in old(ctrs) ==>
                      db.rows[d].candidate.value.id in ctrs)
      ensures forall c | c in old(ctrs) && Referenced(db.rows, c) :: c in ctrs
      ensures clean ==> forall c | c in ctrs :: Referenced(db.rows, c)
      ensures removed == |old(ctrs).Keys - ctrs.Keys| && (reliable ==> clean)
      ensures old(moments) <= moments
      ensures forall k | |old(moments)| <= k < |moments| ::
                moments[k].route == old(route) && Above(moments[k].ctrs, ctrs)
    {
      var readsFailed: bool := *;
      if readsFailed && !reliable {
        assert ctrs.Keys - ctrs.Keys == {};
        return 0, false;
      }
      var referenced := ReferencedNow();
      removed, clean := RemoveOthers(referenced);
      NamedIsReferenced(db.rows);
    }

    method RemoveOthers(referenced: set<ContainerId>) returns (removed: nat, clean: bool)
      modifies this
      ensures route == old(route) && ctrs.Keys <= old(ctrs).Keys
      ensures forall c | c in ctrs :: ctrs[c] == old(ctrs)[c]
      ensures forall c | c in old(ctrs) && c in referenced :: c in ctrs
      ensures clean ==> forall c | c in ctrs :: c in referenced
      ensures removed == |old(ctrs).Keys - ctrs.Keys| && (reliable ==> clean)
      ensures old(moments) <= moments && OnlyShrank(|old(moments)|)
    {
      var items := ListManaged();
      var failed;
      removed, failed := ReconcileIds(items, referenced);
      assert old(ctrs).Keys - ctrs.Keys == ListedIds(items) - referenced - failed;
      clean := failed == {};
    }

    method ReferencedNow() returns (referenced: set<ContainerId>)
      ensures forall c :: c in referenced <==> Referenced(db.rows, c)
    {
      var running := db.ListRunning();
      var candidates := db.ListCandidates();
      referenced := ReferencedIds(running + candidates);
      forall c ensures c in referenced <==> Referenced(db.rows, c) {
        if Referenced(db.rows, c) {
          var d :| d in db.rows && (IsRunning(db.rows, d) || IsOrphan(db.rows, d)) && Names(db.rows[d], c);
          assert d in running + candidates;
        }
      }
    }
  }

  lemma NamedIsReferenced(t: Table)
    ensures forall d | d in t && (t[d].status == Running || t[d].candidate.Some?) ::
              && (t[d].container.Some? ==> Referenced(t, t[d].container.value.id))
              && (t[d].candidate.Some? ==> Referenced(t, t[d].candidate.value.id))
  {
    forall d | d in t && (t[d].status == Running || t[d].candidate.Some?)
      ensures t[d].container.Some? ==> Referenced(t, t[d].container.value.id)
      ensures t[d].candidate.Some? ==> Referenced(t, t[d].candidate.value.id)
    {
      assert IsRunning(t, d) || IsOrphan(t, d);
      assert t[d].container.Some? ==> Names(t[d], t[d].container.value.id);
      assert t[d].candidate.Some? ==> Names(t[d], t[d].candidate.value.id);
    }
  }

  predicate Names(r: Row, c: ContainerId) {
    (r.container.Some? && r.container.value.id == c) || (r.candidate.Some? && r.candidate.value.id == c)
  }

  ghost predicate Referenced(t: Table, c: ContainerId) {
    exists d :: d in t && (IsRunning(t, d) || IsOrphan(t, d)) && Names(t[d], c)
  }

  /** The non-empty ids of a listing. */
  ghost function ListedIds(items: seq<Option<ContainerId>>): set<ContainerId> {
    set x | x in items && x.Some? :: x.value
  }

  /** `a` still has everything `b` has. */
  ghost predicate Above(a: map<ContainerId, Container>, b: map<ContainerId, Container>) {
    forall c | c in b :: c in a && a[c] == b[c]
  }

  ghost predicate Touched(r: Row, s: Row) {
    && s.container == r.container && s.created == r.created
    && (s.candidate.None? || s.candidate == r.candidate)
    && (s.status == r.status || s.status == Failed)
  }

  /** `c` is the candidate of one of the rows already handled. */
  ghost predicate HandledCandidate(w: World, done: set<DepId>, c: ContainerId) {
    c in w.born && w.born[c] in done && IsOrphan(w.rows, w.born[c]) && w.rows[w.born[c]].candidate.value.id == c
  }

  /** Between `w` and `v` only the orphans in `done` were handled. */
  ghost predicate Recovers(w: World, v: World, done: set<DepId>) {
    && v.born == w.born && v.runs == w.runs && v.lock == w.lock && v.ops == w.ops
    && v.rows.Keys == w.rows.Keys
    && (forall d | d in w.rows && d !in done :: v.rows[d] == w.rows[d])
    && (forall d | d in done :: IsOrphan(w.rows, d) && Touched(w.rows[d], v.rows[d]))
    && v.ctrs.Keys <= w.ctrs.Keys
    && (forall c | c in w.ctrs :: HandledCandidate(w, done, c) || (c in v.ctrs && v.ctrs[c] == w.ctrs[c]))
  }

  /** The running rows are the same, and so are their containers. */
  ghost predicate SameReleases(w: World, v: World) {
    && (forall d :: IsRunning(v.rows, d) <==> IsRunning(w.rows, d))
    && (forall d | IsRunning(w.rows, d) :: v.rows[d] == w.rows[d] && SameContainer(w, v, w.rows[d]))
  }

  predicate SameContainer(w: World, v: World, r: Row) {
    r.container.Some? ==>
      var c := r.container.value.id;
      (c in v.ctrs <==> c in w.ctrs) && (c in w.ctrs ==> v.ctrs[c] == w.ctrs[c])
  }

  /** What any number of start-ups, each cut off anywhere, can have made of `w`: some orphans have been
      handled, in whole or in part, and no container of a running row has been touched. */
  ghost predicate Interrupted(w: World, v: World) {
    && v.born == w.born && v.runs == w.runs && v.lock == w.lock && v.ops == w.ops
    && v.rows.Keys == w.rows.Keys && v.ctrs.Keys <= w.ctrs.Keys
    && (forall d | d in w.rows :: v.rows[d] == w.rows[d] || (IsOrphan(w.rows, d) && Touched(w.rows[d], v.rows[d])))
    && SameReleases(w, v)
  }

  lemma RecoversInterrupts(w: World, v: World, done: set<DepId>)
    requires TableInv(w) && Recovers(w, v, done)
    ensures Interrupted(w, v)
  {
    forall d ensures IsRunning(v.rows, d) <==> IsRunning(w.rows, d) {
      if d in done { assert Touched(w.rows[d], v.rows[d]); }
    }
    forall d | IsRunning(w.rows, d) ensures v.rows[d] == w.rows[d] && SameContainer(w, v, w.rows[d]) {
      assert d !in done && RowInv(w, d);
    }
  }

  lemma InterruptedKeeps(w: World, v: World)
    requires TableInv(w) && Interrupted(w, v)
    ensures TableInv(v)
    ensures forall d :: IsActive(v.rows, d) <==> IsActive(w.rows, d)
    ensures forall d :: IsOrphan(v.rows, d) ==> IsOrphan(w.rows, d)
    ensures Served(w) ==> Served(v)
  {
    forall d | d in v.rows ensures RowInv(v, d) { assert RowInv(w, d); }
    SameReleasesSameAnswer(w, v);
    if Served(w) {
      forall d | IsActive(v.rows, d) ensures v.rows[d].container.Some? && Serving(v, v.rows[d].container.value) {
        assert IsRunning(w.rows, d);
      }
    }
  }

  lemma SameReleasesSameAnswer(w: World, v: World)
    requires SameReleases(w, v)
    ensures forall d :: IsActive(v.rows, d) <==> IsActive(w.rows, d)
    ensures NoneRunning(v.rows) <==> NoneRunning(w.rows)
  {
    forall d ensures IsActive(v.rows, d) <==> IsActive(w.rows, d) {
      forall e ensures IsRunning(v.rows, e) ==> v.rows[e] == w.rows[e] {
        assert IsRunning(v.rows, e) ==> IsRunning(w.rows, e);
      }
    }
  }

  /** One start-up after another. */
  lemma InterruptedTwice(w: World, u: World, v: World)
    requires Interrupted(w, u) && Interrupted(u, v)
    ensures Interrupted(w, v)
  {
    forall d | d in w.rows
      ensures v.rows[d] == w.rows[d] || (IsOrphan(w.rows, d) && Touched(w.rows[d], v.rows[d]))
    {
      assert u.rows[d] == w.rows[d] || (IsOrphan(w.rows, d) && Touched(w.rows[d], u.rows[d]));
    }
    forall d | IsRunning(w.rows, d) ensures v.rows[d] == w.rows[d] && SameContainer(w, v, w.rows[d]) {
      assert IsRunning(u.rows, d);
    }
  }

  /** So does a reconciliation that was cut off. */
  lemma ReconciledInterrupts(u: World, v: World)
    requires v == u.(ctrs := v.ctrs) && v.ctrs.Keys <= u.ctrs.Keys
    requires forall c | c in v.ctrs :: v.ctrs[c] == u.ctrs[c]
    requires forall c | c in u.ctrs && Referenced(u.rows, c) :: c in v.ctrs
    ensures Interrupted(u, v)
  {
    forall d | IsRunning(u.rows, d) ensures SameContainer(u, v, u.rows[d]) {
      assert u.rows[d].container.Some? ==> Names(u.rows[d], u.rows[d].container.value.id);
    }
  }

  ghost predicate Cleaned(w: World, v: World, done: set<DepId>)
    requires Recovers(w, v, done)
  {
    forall d | d in done ::
      v.rows[d].candidate.None? && v.rows[d].status == Failed && w.rows[d].candidate.value.id !in v.ctrs
  }

  /** Every row that was an orphan is failed, has no candidate, and its container is gone. */
  ghost predicate OrphansSettled(w: World, v: World) {
    forall d | IsOrphan(w.rows, d) ::
      d in v.rows && v.rows[d].status == Failed && v.rows[d].candidate.None? && w.rows[d].candidate.value.id !in v.ctrs
  }

  lemma CleanedOneMore(w: World, u: World, v: World, done: set<DepId>, d: DepId)
    requires Recovers(w, u, done) && Cleaned(w, u, done) && d !in done && IsOrphan(u.rows, d)
    requires Recovers(w, v, done + {d}) && RowSettled(u.rows, v.rows, d)
    requires v.ctrs.Keys <= u.ctrs.Keys
    requires v.rows[d].candidate.None? && v.rows[d].status == Failed && w.rows[d].candidate.value.id !in v.ctrs
    ensures Cleaned(w, v, done + {d})
  {
  }

  /** The state of the pass over the orphans after those in `done`. */
  ghost predicate Handled(w: World, v: World, done: set<DepId>, clean: bool,
                          before: seq<Moment>, moments: seq<Moment>)
  {
    && Recovers(w, v, done)
    && (clean ==>
          && Cleaned(w, v, done)
          && (if done == {} then v.route == w.route else RouteRestored(v))
          && (Served(w) && AllServed(before) ==> AllServed(moments)))
  }

  lemma HandledOneMore(w: World, u: World, v: World, done: set<DepId>, d: DepId, wasClean: bool, ok: bool,
                       before: seq<Moment>, sofar: seq<Moment>, moments: seq<Moment>)
    requires TableInv(w) && Handled(w, u, done, wasClean, before, sofar) && d !in done && IsOrphan(w.rows, d)
    requires v.born == u.born && v.runs == u.runs && v.lock == u.lock && v.ops == u.ops
    requires IsOrphan(u.rows, d) && RowSettled(u.rows, v.rows, d)
    requires AgreeBut(u.ctrs, v.ctrs, w.rows[d].candidate.value.id)
    requires ok ==> RouteRestored(v) && w.rows[d].candidate.value.id !in v.ctrs
    requires ok ==> v.rows[d].candidate.None? && v.rows[d].status == Failed
    requires ok && Served(u) && AllServed(sofar) ==> AllServed(moments)
    ensures Handled(w, v, done + {d}, wasClean && ok, before, moments)
  {
    RecoversInterrupts(w, u, done);
    InterruptedKeeps(w, u);
    RecoversOneMore(w, u, v, done, d);
    if wasClean && ok { CleanedOneMore(w, u, v, done, d); }
  }

  lemma AllHandled(w: World, v: World, done: set<DepId>)
    requires Recovers(w, v, done) && Cleaned(w, v, done)
    requires forall d :: IsOrphan(w.rows, d) <==> d in done
    ensures NoOrphans(v.rows) && OrphansSettled(w, v)
  {
  }

  lemma RecoversOneMore(w: World, u: World, v: World, done: set<DepId>, d: DepId)
    requires TableInv(w) && Recovers(w, u, done) && d !in done && IsOrphan(w.rows, d)
    requires v.born == u.born && v.runs == u.runs && v.lock == u.lock && v.ops == u.ops
    requires IsOrphan(u.rows, d) && RowSettled(u.rows, v.rows, d)
    requires AgreeBut(u.ctrs, v.ctrs, w.rows[d].candidate.value.id)
    ensures Recovers(w, v, done + {d})
  {
  }

  ghost predicate AgreeBut(a: map<ContainerId, Container>, b: map<ContainerId, Container>, id: ContainerId) {
    && b.Keys <= a.Keys
    && (forall c | c in a && c != id :: c in b && b[c] == a[c])
  }

  /** Recovery may rewrite the orphan's status and candidate, and no other row. */
  ghost predicate RowSettled(t: Table, u: Table, d: DepId)
    requires IsOrphan(t, d)
  {
    && u.Keys == t.Keys
    && (forall e | e in t && e != d :: u[e] == t[e])
    && u[d].container == t[d].container && u[d].created == t[d].created
    && (u[d].candidate.None? || u[d].candidate == t[d].candidate)
    && (u[d].status == t[d].status || u[d].status == Failed)
  }

  ghost predicate AnsweredBy(w: World, d: DepId) {
    IsActive(w.rows, d) &&
    w.route == if w.rows[d].container.Some? then Some(w.rows[d].container.value.port) else None
  }

  /** The route is what the recovery writes: the active row's port, or nothing. */
  ghost predicate RouteRestored(w: World) {
    (NoneRunning(w.rows) && w.route.None?) || exists d :: AnsweredBy(w, d)
  }

  /** Some row is running, and whichever GetActive answers with serves. */
  ghost predicate Served(w: World) {
    !NoneRunning(w.rows) && ActiveServes(w)
  }

  /** An orphan's candidate is nobody's recorded container, so taking it away hurts no release. */
  lemma CandidateGoneKeepsServed(w: World, d: DepId, moments: seq<Moment>, from: nat)
    requires TableInv(w) && RouteRestored(w) && Served(w) && IsOrphan(w.rows, d)
    requires forall k | from <= k < |moments| ::
               moments[k].route == w.route && AgreeBut(w.ctrs, moments[k].ctrs, w.rows[d].candidate.value.id)
    ensures ServedAt(Moment(w.ctrs, w.route))
    ensures forall k | from <= k < |moments| :: ServedAt(moments[k])
  {
  }

  lemma SettledKeepsActive(t: Table, u: Table, d: DepId)
    requires IsOrphan(t, d) && RowSettled(t, u, d)
    ensures forall e :: IsRunning(u, e) <==> IsRunning(t, e)
    ensures forall e :: IsActive(u, e) <==> IsActive(t, e)
    ensures NoneRunning(u) <==> NoneRunning(t)
  {
  }

  lemma SettledKeepsRestored(w: World, v: World, d: DepId)
    requires IsOrphan(w.rows, d) && RowSettled(w.rows, v.rows, d) && v.route == w.route
    requires RouteRestored(w)
    ensures RouteRestored(v)
  {
    SettledKeepsActive(w.rows, v.rows, d);
    if !NoneRunning(w.rows) {
      var e :| AnsweredBy(w, e);
      assert AnsweredBy(v, e);
    }
  }

  // ----- crash safety -----

  /** The only moments after which two rows run, or a running row has lost its container:
      between a commit and the retirement of the replaced release, and between StopApp's
      removal and its status write. */
  ghost predicate InWindow(w: World) {
    w.lock.Some? && w.lock.value in w.ops &&
    match w.ops[w.lock.value]
    case Deploy(_, _, phase, prev, _, _, _) => Committed(phase) && prev.Some?
    case Stop(stop, victim) =>
      stop.VictimRemoved? && IsRunning(w.rows, victim.dep) && !Stands(w, victim.dep)
    case _ => false
  }

  ghost predicate Consistent(w: World) {
    AtMostOneRunning(w.rows) && forall d | IsRunning(w.rows, d) :: Stands(w, d)
  }

  lemma WindowIsExact(w: World)
    requires Inv(w)
    ensures Consistent(w) <==> !InWindow(w)
  {
  }

  // ----- the restored route -----

  /** Some running row still has its container, on that port. */
  ghost predicate PortStands(w: World, port: nat) {
    exists e :: IsRunning(w.rows, e) && Stands(w, e) && w.rows[e].container.value.port == port
  }

  /** Some running row's container is up and publishes that port. */
  ghost predicate PortServes(w: World, port: nat) {
    exists e :: IsRunning(w.rows, e) && ServesOn(w, w.rows[e], port)
  }

  predicate ServesOn(w: World, r: Row, port: nat) {
    r.container.Some? && r.container.value.id in w.ctrs && w.ctrs[r.container.value.id] == Container(port, true)
  }

  /** What a restart achieves when none of its calls fails. */
  ghost predicate Restarted(w: World, v: World) {
    && NoOrphans(v.rows)
    && (forall c | c in v.ctrs :: InService(v, c))
    && SameReleases(w, v)
  }

  /** The row whose port the recovery wrote decides. The route is served if and only if some running row's
      container was up on that port when the process died, and goes to a standing container if and only if
      one stood there. */
  ghost predicate AnswerDecides(w: World, v: World, d: DepId) {
    && IsActive(w.rows, d) && w.rows[d].container.Some?
    && v.route == Some(w.rows[d].container.value.port)
    && (RouteServed(v) <==> PortServes(w, w.rows[d].container.value.port))
    && (RouteSound(v) <==> PortStands(w, w.rows[d].container.value.port))
  }

  lemma RecoveredRouteServed(w: World, v: World, d: DepId)
    requires TableInv(w) && Restarted(w, v) && AnsweredBy(v, d)
    ensures AnswerDecides(w, v, d)
  {
    SameReleasesSameAnswer(w, v);
    assert IsRunning(w.rows, d) && RowInv(w, d);
    var port := w.rows[d].container.value.port;
    RestoredServes(w, v, port);
    RestoredStands(w, v, port);
  }

  lemma RestoredServes(w: World, v: World, port: nat)
    requires Restarted(w, v) && v.route == Some(port)
    ensures RouteServed(v) <==> PortServes(w, port)
  {
    if RouteServed(v) {
      var i :| Serving(v, i) && v.route == Some(i.port);
      assert InService(v, i.id) && IsRunning(w.rows, v.born[i.id]);
    }
    if PortServes(w, port) {
      var e :| IsRunning(w.rows, e) && ServesOn(w, w.rows[e], port);
      assert Serving(v, Instance(w.rows[e].container.value.id, port));
    }
  }

  lemma RestoredStands(w: World, v: World, port: nat)
    requires SameReleases(w, v) && v.route == Some(port)
    ensures RouteSound(v) <==> PortStands(w, port)
  {
    if RouteSound(v) {
      var e :| RouteTargets(v, e);
      assert IsRunning(w.rows, e) && Stands(w, e);
    }
    if PortStands(w, port) {
      var e :| IsRunning(w.rows, e) && Stands(w, e) && w.rows[e].container.value.port == port;
      assert RouteTargets(v, e);
    }
  }

  /** With an orphan to recover, and a running row, the condition is on the state of the crash. */
  ghost predicate RouteDecided(w: World, v: World) {
    if NoneRunning(w.rows) then v.route.None? else exists d :: AnswerDecides(w, v, d)
  }

  // ----- the last committed release -----

  /** The rollout that has committed and not yet finished with the release it replaces. */
  ghost predicate Replacing(w: World, op: Op) {
    Holder(w) == Some(op) && op.Deploy? && Committed(op.phase) && op.prev.Some?
  }

  /** The running row that was promoted last. */
  ghost predicate LastCommitted(w: World, d: DepId) {
    IsRunning(w.rows, d) && forall op | Replacing(w, op) :: d == op.dep
  }

  /** The row just promoted was created no later than the one it replaces. */
  ghost predicate ReplacesNewer(w: World) {
    exists op :: Replacing(w, op) && op.dep in w.rows && op.prev.value.dep in w.rows &&
                 w.rows[op.dep].created <= w.rows[op.prev.value.dep].created
  }

  /** GetActive can answer with nothing but the last committed release if and only if the crash did not fall
      between a commit and the retirement of a row that is at least as new as the one promoted. */
  lemma CommittedIsAnswered(w: World, d: DepId)
    requires Inv(w) && LastCommitted(w, d)
    ensures (forall a :: IsActive(w.rows, a) ==> a == d) <==> !ReplacesNewer(w)
  {
    var holder := Holder(w);
    if holder.Some? && Replacing(w, holder.value) {
      var op := holder.value;
      assert AfterPromotion(w, op) && d == op.dep;
      if w.rows[op.dep].created <= w.rows[op.prev.value.dep].created {
        assert IsActive(w.rows, op.prev.value.dep) && ReplacesNewer(w);
      } else {
        forall a | IsActive(w.rows, a) ensures a == d { assert IsRunning(w.rows, d); }
      }
    } else {
      OneRunsOtherwise(w);
    }
  }

  lemma OneRunsOtherwise(w: World)
    requires Inv(w) && forall op :: !Replacing(w, op)
    ensures AtMostOneRunning(w.rows)
  {
    if w.lock.Some? && w.ops[w.lock.value].Deploy? && Committed(w.ops[w.lock.value].phase) {
      assert !Replacing(w, w.ops[w.lock.value]);
    }
  }

  /** Then the route goes back to that release, and if it was just promoted it is served. */
  lemma CommittedIsRestored(w: World, v: World, d: DepId)
    requires Inv(w) && Restarted(w, v) && RouteRestored(v) && LastCommitted(w, d) && !ReplacesNewer(w)
    ensures AnsweredBy(v, d)
    ensures (exists op :: Replacing(w, op)) ==> RouteServed(v)
  {
    SameReleasesSameAnswer(w, v);
    CommittedIsAnswered(w, d);
    assert IsRunning(v.rows, d);
    var a :| AnsweredBy(v, a);
    assert IsActive(w.rows, a);
    if op :| Replacing(w, op) {
      assert AfterPromotion(w, op) && ServesOn(w, w.rows[d], op.cand.port);
      RestoredServes(w, v, op.cand.port);
    }
  }

  // ----- start-up -----

  /** A hot world has a running row that serves; unless the route is on a recorded candidate, it is the route's. */
  lemma ServingRelease(w: World) returns (d: DepId)
    requires Inv(w) && Hot(w)
    ensures IsRunning(w.rows, d) && w.rows[d].container.Some? && Serving(w, w.rows[d].container.value)
    ensures NoOrphans(w.rows) ==> RouteTargets(w, d)
  {
    if w.lock.None? || w.ops[w.lock.value].Stop? || Settled(w.ops[w.lock.value].phase) {
      d :| IsRunning(w.rows, d) && Owns(w, d, w.route.value);
    } else {
      var op := w.ops[w.lock.value];
      d := if Committed(op.phase) then op.dep else op.prev.value.dep;
      assert RouteOnCandidate(op.phase) ==> IsOrphan(w.rows, op.dep);
    }
  }

  /** A start-up none of whose calls failed, and which found `u` after the candidates: whatever had been
      done before it, no candidate and no unreferenced container is left. */
  ghost predicate StartedUp(w: World, u: World, v: World) {
    && Interrupted(Crash(w), u) && NoOrphans(u.rows)
    && v == u.(ctrs := v.ctrs) && v.ctrs.Keys <= u.ctrs.Keys
    && (forall c | c in v.ctrs :: v.ctrs[c] == u.ctrs[c] && Referenced(v.rows, c))
    && (forall c | c in u.ctrs && Referenced(v.rows, c) :: c in v.ctrs)
  }

  /** The route is where the crash left it if there was no orphan, and where the recovery puts it if there was. */
  ghost predicate RouteSettled(w: World, u: World) {
    if NoOrphans(w.rows) then u.route == w.route else RouteRestored(u)
  }

  ghost predicate CleanRestart(w: World, u: World, v: World) {
    StartedUp(w, u, v) && RouteSettled(w, u)
  }

  lemma StartedUpIsRestarted(w: World, u: World, v: World)
    requires TableInv(Crash(w)) && StartedUp(w, u, v)
    ensures TableInv(v) && Restarted(w, v)
  {
    StartedUpInterrupts(w, u, v);
    InterruptedKeeps(Crash(w), v);
    ReferencedIsInService(v);
  }

  lemma StartedUpInterrupts(w: World, u: World, v: World)
    requires StartedUp(w, u, v)
    ensures Interrupted(Crash(w), v)
  {
    ReconciledInterrupts(u, v);
    InterruptedTwice(Crash(w), u, v);
  }

  lemma ReferencedIsInService(v: World)
    requires TableInv(v) && NoOrphans(v.rows)
    ensures forall c | Referenced(v.rows, c) :: InService(v, c)
  {
    forall c | Referenced(v.rows, c) ensures InService(v, c) {
      var d :| d in v.rows && (IsRunning(v.rows, d) || IsOrphan(v.rows, d)) && Names(v.rows[d], c);
      assert RowInv(v, d);
    }
  }

  lemma RestartedRoute(w: World, v: World)
    requires Restarted(w, v)
    requires if NoOrphans(w.rows) then RouteSound(Crash(w)) && v.route == w.route else RouteRestored(v) && Consistent(w)
    ensures RouteSound(v)
  {
    if v.route.Some? {
      if NoOrphans(w.rows) {
        var d :| RouteTargets(Crash(w), d);
        assert Stands(w, d) && RouteTargets(v, d);
      } else {
        var d :| AnsweredBy(v, d);
        assert IsRunning(w.rows, d) && Stands(w, d) && RouteTargets(v, d);
      }
    }
  }

  lemma RestartedInv(w: World, v: World)
    requires Inv(w) && TableInv(v) && Restarted(w, v) && v.lock.None? && v.ops == map[]
    requires !InWindow(w) ==> RouteSound(v)
    ensures Inv(v) <==> !InWindow(w)
  {
    WindowIsExact(w);
    if !InWindow(w) && v.route.Some? {
      var d :| RouteTargets(v, d);
      assert IsRunning(v.rows, d) && Owns(v, d, v.route.value);
    }
    if Inv(v) {
      forall d | IsRunning(w.rows, d) ensures Stands(w, d) { assert IsRunning(v.rows, d) && Stands(v, d); }
      assert AtMostOneRunning(v.rows);
      forall d, e | IsRunning(w.rows, d) && IsRunning(w.rows, e) ensures d == e {
        assert IsRunning(v.rows, d) && IsRunning(v.rows, e);
      }
    }
  }

  lemma HotStart(w: World)
    requires Inv(w) && Hot(w)
    ensures ServedAt(Moment(w.ctrs, w.route))
    ensures !InWindow(w) ==> Served(Crash(w))
  {
  }

  /** The release in service stays up through the restart, and the route stays on it. */
  lemma RestartServes(w: World, v: World, d: DepId, sofar: seq<Moment>, moments: seq<Moment>)
    requires IsRunning(w.rows, d) && w.rows[d].container.Some? && Serving(v, w.rows[d].container.value)
    requires v.route == Some(w.rows[d].container.value.port)
    requires sofar <= moments && AllServed(sofar)
    requires forall k | |sofar| <= k < |moments| :: moments[k].route == v.route && Above(moments[k].ctrs, v.ctrs)
    ensures AllServed(moments)
  {
  }

  lemma RestoredOnRelease(w: World, v: World, d: DepId)
    requires Restarted(w, v) && RouteRestored(v) && Consistent(w)
    requires IsRunning(w.rows, d) && w.rows[d].container.Some?
    ensures v.route == Some(w.rows[d].container.value.port)
  {
    assert IsRunning(v.rows, d);
  }

  /** Outside the two windows, or with no candidate left behind. */
  ghost predicate SafeToRecover(w: World) {
    NoOrphans(w.rows) || !InWindow(w)
  }

  lemma RestoredFrame(u: World, v: World)
    requires RouteRestored(u) && v.rows == u.rows && v.route == u.route
    ensures RouteRestored(v)
  {
    if !NoneRunning(u.rows) {
      var d :| AnsweredBy(u, d);
      assert AnsweredBy(v, d);
    }
  }

  lemma CleanRestartRoute(w: World, v: World)
    requires Inv(w) && Restarted(w, v) && RouteSettled(w, v)
    ensures SafeToRecover(w) ==> RouteSound(v)
  {
    CrashIsRecoverable(w);
    WindowIsExact(w);
    if SafeToRecover(w) { RestartedRoute(w, v); }
  }

  lemma CleanRestartDecides(w: World, v: World)
    requires Inv(w) && Restarted(w, v) && RouteRestored(v)
    ensures RouteDecided(w, v)
  {
    SameReleasesSameAnswer(w, v);
    if !NoneRunning(w.rows) {
      var d :| AnsweredBy(v, d);
      RecoveredRouteServed(w, v, d);
    }
  }

  lemma CleanRestartIsSafe(w: World, u: World, v: World)
    requires Inv(w) && CleanRestart(w, u, v)
    ensures Restarted(w, v) && RouteSettled(w, v)
    ensures Inv(v) <==> !InWindow(w)
    ensures SafeToRecover(w) ==> RouteSound(v)
  {
    CrashIsRecoverable(w);
    StartedUpIsRestarted(w, u, v);
    if RouteRestored(u) { RestoredFrame(u, v); }
    CleanRestartRoute(w, v);
    RestartedInv(w, v);
  }

  /** The row that serves through the restart. */
  lemma CarriesOver(w: World, v: World) returns (d: DepId)
    requires Inv(w) && Hot(w) && SafeToRecover(w) && Restarted(w, v) && RouteSettled(w, v)
    ensures IsRunning(w.rows, d) && w.rows[d].container.Some? && Serving(v, w.rows[d].container.value)
    ensures v.route == Some(w.rows[d].container.value.port)
  {
    d := ServingRelease(w);
    if !NoOrphans(w.rows) {
      WindowIsExact(w);
      RestoredOnRelease(w, v, d);
    }
  }

  /** What a start-up without a failing call promises about the route. */
  ghost predicate RouteGuarantee(w: World, v: World) {
    && (Inv(v) <==> !InWindow(w))
    && (SafeToRecover(w) ==> RouteSound(v))
    && (!NoOrphans(w.rows) ==>
          && RouteDecided(w, v)
          && forall d | LastCommitted(w, d) && !ReplacesNewer(w) :: AnsweredBy(v, d))
  }

  lemma CleanRestartGuarantee(w: World, u: World, v: World)
    requires Inv(w) && CleanRestart(w, u, v)
    ensures RouteGuarantee(w, v)
  {
    CleanRestartIsSafe(w, u, v);
    if !NoOrphans(w.rows) {
      CleanRestartDecides(w, v);
      forall d | LastCommitted(w, d) && !ReplacesNewer(w) ensures AnsweredBy(v, d) { CommittedIsRestored(w, v, d); }
    }
  }

  /** Some orphan is left for this start-up to find, or the route has been settled. */
  ghost predicate RouteInHand(w: World, u: World) {
    !NoOrphans(u.rows) || RouteSettled(w, u)
  }

  /** The first start-up finds the crash itself. */
  lemma FirstStart(w: World)
    ensures Interrupted(Crash(w), Crash(w)) && RouteInHand(w, Crash(w))
  {
  }

  /** As long as none of its calls has failed the route stays in hand, wherever it is cut off. */
  lemma CleanSoFarIsInHand(w: World, v: World, done: set<DepId>, before: seq<Moment>, moments: seq<Moment>)
    requires TableInv(w) && Handled(w, v, done, true, before, moments)
    ensures Interrupted(w, v) && RouteInHand(w, v)
  {
    RecoversInterrupts(w, v, done);
    if NoOrphans(v.rows) && done == {} {
      forall d | d in w.rows ensures !IsOrphan(w.rows, d) { assert !IsOrphan(v.rows, d); }
    }
    if done != {} {
      var d :| d in done;
      assert IsOrphan(w.rows, d);
    }
  }

  lemma StillSettled(w: World, before: World, u: World)
    requires Interrupted(Crash(w), before) && RouteInHand(w, before)
    requires if NoOrphans(before.rows) then u == before else RouteRestored(u)
    ensures RouteSettled(w, u)
  {
    if NoOrphans(w.rows) {
      forall d | d in before.rows ensures !IsOrphan(before.rows, d) { assert !IsOrphan(w.rows, d); }
    }
  }

  method RecoverBefore(host: Host, ghost w: World, ghost before: World) returns (clean: bool)
    requires host.View() == before && TableInv(Crash(w)) && Interrupted(Crash(w), before)
    requires host.moments == [Moment(before.ctrs, before.route)]
    modifies host, host.db
    ensures Interrupted(Crash(w), host.View())
    ensures clean ==> NoOrphans(host.db.rows) && OrphansSettled(before, host.View())
    ensures host.reliable ==> clean
    ensures clean ==> if NoOrphans(before.rows) then host.View() == before else RouteRestored(host.View())
    ensures clean && Served(Crash(w)) && AllServed(old(host.moments)) ==> AllServed(host.moments)
    ensures NoOrphans(before.rows) ==> host.moments == old(host.moments)
  {
    InterruptedKeeps(Crash(w), before);
    clean := host.RecoverCandidates();
    ghost var done :| Recovers(before, host.View(), done);
    RecoversInterrupts(before, host.View(), done);
    InterruptedTwice(Crash(w), before, host.View());
  }

  /** The order main runs them in: candidates first, so that none is left to be spared. */
  method StartUp(host: Host, ghost w: World, ghost before: World)
    returns (clean: bool, ghost u: World, ghost sofar: seq<Moment>)
    requires host.View() == before && TableInv(Crash(w)) && Interrupted(Crash(w), before)
    requires host.moments == [Moment(before.ctrs, before.route)]
    modifies host, host.db
    ensures clean ==> StartedUp(w, u, host.View()) && OrphansSettled(before, host.View())
    ensures clean ==> if NoOrphans(before.rows) then u == before else RouteRestored(u)
    ensures host.reliable ==> clean
    ensures Interrupted(Crash(w), host.View())
    ensures sofar <= host.moments
    ensures clean && Served(Crash(w)) && AllServed(old(host.moments)) ==> AllServed(sofar)
    ensures NoOrphans(before.rows) ==> sofar == old(host.moments)
    ensures forall k | |sofar| <= k < |host.moments| ::
              host.moments[k].route == host.route && Above(host.moments[k].ctrs, host.ctrs)
  {
    clean := RecoverBefore(host, w, before);
    u := host.View();
    sofar := host.moments;
    var _, reconciled := host.Reconcile();
    clean := clean && reconciled;
    ReconciledInterrupts(u, host.View());
    InterruptedTwice(Crash(w), u, host.View());
  }

  /** Before the start-up a release is up, and recovery can keep it up. */
  ghost predicate UpBefore(w: World, before: World) {
    Hot(w) && SafeToRecover(w) && ServedAt(Moment(before.ctrs, before.route))
  }

  lemma ServedAtFirst(w: World, before: World, sofar: seq<Moment>)
    requires Inv(w) && Interrupted(Crash(w), before) && UpBefore(w, before)
    requires Served(Crash(w)) && AllServed([Moment(before.ctrs, before.route)]) ==> AllServed(sofar)
    requires NoOrphans(before.rows) ==> sofar == [Moment(before.ctrs, before.route)]
    ensures AllServed(sofar)
  {
    HotStart(w);
    if NoOrphans(w.rows) {
      forall d | d in before.rows ensures !IsOrphan(before.rows, d) { assert !IsOrphan(w.rows, d); }
    }
  }

  lemma ServedThroughout(w: World, u: World, v: World, sofar: seq<Moment>, moments: seq<Moment>)
    requires Inv(w) && Hot(w) && SafeToRecover(w) && CleanRestart(w, u, v)
    requires sofar <= moments && AllServed(sofar)
    requires forall k | |sofar| <= k < |moments| :: moments[k].route == v.route && Above(moments[k].ctrs, v.ctrs)
    ensures AllServed(moments)
  {
    CleanRestartIsSafe(w, u, v);
    var d := CarriesOver(w, v);
    RestartServes(w, v, d, sofar, moments);
  }

  /** Crash at any moment of any run, then any number of start-ups cut off anywhere, which left `before`, then
      one that is clean, as it is when all its calls work: no candidate and no unreferenced container is left, and
      the rows that named one are failed. If an orphan was left for it,
      or the route had been settled, then the protocol's invariant is back exactly when the crash missed the two
      windows; outside them (or with no candidate to recover) the route goes to a standing container and, if a
      release was in service, was served at every moment; and with a candidate to recover the answered row decides.
      If not, the route stays where it was. After the crash alone the route is in hand (`FirstStart`). */
  method Restart(w: World, before: World, reliable: bool) returns (host: Host, clean: bool)
    requires Inv(w) && Interrupted(Crash(w), before)
    ensures Interrupted(Crash(w), host.View())
    ensures reliable ==> clean
    ensures clean ==> Restarted(w, host.View()) && OrphansSettled(before, host.View())
    ensures clean && RouteInHand(w, before) ==> RouteGuarantee(w, host.View())
    ensures clean && !RouteInHand(w, before) ==> host.View().route == before.route
    ensures clean && RouteInHand(w, before) && UpBefore(w, before) ==> AllServed(host.moments)
  {
    host := new Host(before, reliable);
    ghost var u, sofar;
    CrashIsRecoverable(w);
    clean, u, sofar := StartUp(host, w, before);
    if clean {
      StartedUpIsRestarted(w, u, host.View());
      if RouteInHand(w, before) {
        StillSettled(w, before, u);
        CleanRestartGuarantee(w, u, host.View());
        if UpBefore(w, before) {
          ServedAtFirst(w, before, sofar);
          ServedThroughout(w, u, host.View(), sofar, host.moments);
        }
      }
    }
  }
}
