/** Custom domains follow the active container one route at a time, and may stop half-way.

    The router's atomic switch of one route and each status write may fail without effect; the
    table and the routes are those of one app, the routes of other apps being untouched.
 */
module CustomDomains {
  import opened Sequences

  datatype Status = Pending | Verified | Active | Error

  datatype Record = Record(verified: bool, status: Status)

  datatype World = World(records: map<nat, Record>, routes: map<nat, nat>)

  predicate Eligible(r: Record) {
    r.verified && r.status != Pending
  }

  /** `order` lists the app's domains by creation time. */
  ghost predicate Listed(w: World, order: seq<nat>) {
    Distinct(order) && forall id :: id in order <==> id in w.records
  }

  // ----- one domain -----

  function Routed(w: World, id: nat, port: nat): World {
    w.(routes := w.routes[id := port])
  }

  function Unrouted(w: World, id: nat): World {
    w.(routes := w.routes - {id})
  }

  function Marked(w: World, id: nat, status: Status): World
    requires id in w.records
  {
    w.(records := w.records[id := w.records[id].(status := status)])
  }

  // ----- the loops, as functions of where they stop -----

  /** How a pass over the domains ends. `noted`: the error status was written. */
  datatype End =
    | Complete
    | NoList
    | RouteFailed(at: nat, noted: bool)
    | WriteFailed(at: nat)

  function SyncOne(w: World, id: nat, port: nat): World
    requires id in w.records
  {
    if Eligible(w.records[id]) then Marked(Routed(w, id, port), id, Active) else w
  }

  function SyncFirst(w: World, order: seq<nat>, port: nat, n: nat): (t: World)
    requires n <= |order| && forall id | id in order :: id in w.records
    ensures t.records.Keys == w.records.Keys
  {
    if n == 0 then w else SyncOne(SyncFirst(w, order, port, n - 1), order[n-1], port)
  }

  predicate Fits(end: End, w: World, order: seq<nat>) {
    match end
    case Complete => true
    case NoList => true
    case RouteFailed(at, _) => at < |order| && order[at] in w.records && Eligible(w.records[order[at]])
    case WriteFailed(at) => at < |order| && order[at] in w.records && Eligible(w.records[order[at]])
  }

  function Synced(w: World, order: seq<nat>, port: nat, end: End): World
    requires Fits(end, w, order) && forall id | id in order :: id in w.records
  {
    match end
    case Complete => SyncFirst(w, order, port, |order|)
    case NoList => w
    case RouteFailed(at, noted) =>
      var t := SyncFirst(w, order, port, at);
      if noted then Marked(t, order[at], Error) else t
    case WriteFailed(at) => Routed(SyncFirst(w, order, port, at), order[at], port)
  }

  function RemoveOne(w: World, id: nat): World
    requires id in w.records
  {
    if w.records[id].verified then Marked(Unrouted(w, id), id, Verified) else w
  }

  function RemoveFirst(w: World, order: seq<nat>, n: nat): (t: World)
    requires n <= |order| && forall id | id in order :: id in w.records
    ensures t.records.Keys == w.records.Keys
  {
    if n == 0 then w else RemoveOne(RemoveFirst(w, order, n - 1), order[n-1])
  }

  predicate FitsRemoval(end: End, w: World, order: seq<nat>) {
    match end
    case Complete => true
    case NoList => true
    case RouteFailed(at, noted) => !noted && at < |order| && order[at] in w.records && w.records[order[at]].verified
    case WriteFailed(at) => at < |order| && order[at] in w.records && w.records[order[at]].verified
  }

  function Removed(w: World, order: seq<nat>, end: End): World
    requires FitsRemoval(end, w, order) && forall id | id in order :: id in w.records
  {
    match end
    case Complete => RemoveFirst(w, order, |order|)
    case NoList => w
    case RouteFailed(at, _) => RemoveFirst(w, order, at)
    case WriteFailed(at) => Unrouted(RemoveFirst(w, order, at), order[at])
  }

  // ----- the service -----

  class CustomDomainService {
    const order: seq<nat>
    var records: map<nat, Record>
    var routes: map<nat, nat>
    const reliable: bool       // no call fails

    ghost predicate Valid()
      reads this
    {
      Listed(World(records, routes), order)
    }

    constructor (order: seq<nat>, records: map<nat, Record>, routes: map<nat, nat>, reliable: bool)
      requires Listed(World(records, routes), order)
      ensures Valid() && this.order == order && this.records == records && this.routes == routes
      ensures this.reliable == reliable
    {
      this.order, this.records, this.routes, this.reliable := order, records, routes, reliable;
    }

    method ListByApp() returns (items: seq<(nat, Record)>, ok: bool)
      requires Valid()
      ensures reliable ==> ok
      ensures ok ==> |items| == |order| && forall i | 0 <= i < |order| :: items[i] == (order[i], records[order[i]])
    {
      ok := *;
      ok := ok || reliable;
      items := seq(|order|,
                   i requires 0 <= i < |order| && order[i] in records reads this => (order[i], records[order[i]]));
    }

    method SwitchCustomRoute(id: nat, port: nat) returns (ok: bool)
      modifies this`routes
      ensures routes == if ok then old(routes)[id := port] else old(routes)
      ensures reliable ==> ok
    {
      ok := *;
      ok := ok || reliable;
      if ok {
        routes := routes[id := port];
      }
    }

    method RemoveCustomRoute(id: nat) returns (ok: bool)
      modifies this`routes
      ensures routes == if ok then old(routes) - {id} else old(routes)
      ensures reliable ==> ok
    {
      ok := *;
      ok := ok || reliable;
      if ok {
        routes := routes - {id};
      }
    }

    method UpdateVerification(id: nat, status: Status, verified: bool) returns (ok: bool)
      modifies this`records
      ensures reliable ==> ok
      ensures records == if ok && id in old(records) then old(records)[id := Record(verified, status)] else old(records)
    {
      ok := *;
      ok := ok || reliable;
      if ok && id in records {
        records := records[id := Record(verified, status)];
      }
    }

    method SyncRoutes(port: nat) returns (ok: bool, ghost end: End)
      requires Valid()
      modifies this
      ensures Valid() && Fits(end, old(World(records, routes)), order)
      ensures World(records, routes) == Synced(old(World(records, routes)), order, port, end)
      ensures ok == end.Complete? && (reliable ==> ok)
    {
      ghost var w := World(records, routes);
      var items, listed := ListByApp();
      if !listed {
        return false, NoList;
      }
      for i := 0 to |items|
        invariant World(records, routes) == SyncFirst(w, order, port, i)
      {
        SyncAt(w, order, port, i, order[i]);
        var (id, item) := items[i];
        assert id == order[i] && item == w.records[id] && records[id] == item;
        if !item.verified || item.status == Pending {
          continue;
        }
        var switched := SwitchCustomRoute(id, port);
        if !switched {
          var noted := UpdateVerification(id, Error, item.verified);
          return false, RouteFailed(i, noted);
        }
        var written := UpdateVerification(id, Active, item.verified);
        if !written {
          return false, WriteFailed(i);
        }
      }
      return true, Complete;
    }

    method RemoveRoutes() returns (ok: bool, ghost end: End)
      requires Valid()
      modifies this
      ensures Valid() && FitsRemoval(end, old(World(records, routes)), order)
      ensures World(records, routes) == Removed(old(World(records, routes)), order, end)
      ensures ok == end.Complete? && (reliable ==> ok)
    {
      ghost var w := World(records, routes);
      var items, listed := ListByApp();
      if !listed {
        return false, NoList;
      }
      for i := 0 to |items|
        invariant World(records, routes) == RemoveFirst(w, order, i)
      {
        RemoveAt(w, order, i, order[i]);
        var (id, item) := items[i];
        assert id == order[i] && item == w.records[id] && records[id] == item;
        if !item.verified {
          continue;
        }
        var removed := RemoveCustomRoute(id);
        if !removed {
          return false, RouteFailed(i, false);
        }
        var written := UpdateVerification(id, Verified, item.verified);
        if !written {
          return false, WriteFailed(i);
        }
      }
      return true, Complete;
    }
  }

  // ----- domain by domain -----

  ghost predicate SameAt(w: World, t: World, id: nat) {
    && (id in w.records <==> id in t.records) && (id in w.records ==> t.records[id] == w.records[id])
    && (id in w.routes <==> id in t.routes) && (id in w.routes ==> t.routes[id] == w.routes[id])
  }

  ghost predicate ServedAt(t: World, id: nat, port: nat) {
    id in t.records && t.records[id] == Record(true, Active) && id in t.routes && t.routes[id] == port
  }

  /** After the first n domains: an eligible one among them is served, any other as before. */
  lemma {:induction false} SyncAt(w: World, order: seq<nat>, port: nat, n: nat, id: nat)
    requires Listed(w, order) && n <= |order|
    ensures var t := SyncFirst(w, order, port, n);
            if id in order[..n] && Eligible(w.records[id]) then ServedAt(t, id, port) else SameAt(w, t, id)
  {
    if n > 0 {
      SyncAt(w, order, port, n - 1, id);
      assert order[..n] == order[..n-1] + [order[n-1]];
      assert order[n-1] !in order[..n-1];
    }
  }

  ghost predicate UnroutedAt(t: World, id: nat) {
    id in t.records && t.records[id] == Record(true, Verified) && id !in t.routes
  }

  lemma {:induction false} RemoveAt(w: World, order: seq<nat>, n: nat, id: nat)
    requires Listed(w, order) && n <= |order|
    ensures var t := RemoveFirst(w, order, n);
            if id in order[..n] && w.records[id].verified then UnroutedAt(t, id) else SameAt(w, t, id)
  {
    if n > 0 {
      RemoveAt(w, order, n - 1, id);
      assert order[..n] == order[..n-1] + [order[n-1]];
      assert order[n-1] !in order[..n-1];
    }
  }

  function Stop(end: End, order: seq<nat>): nat {
    if end.Complete? then |order| else if end.NoList? then 0 else end.at
  }

  /** The eligible domains whose route the pass switched before it ended. */
  ghost predicate Reached(w: World, order: seq<nat>, end: End, id: nat) {
    && id in w.records && Eligible(w.records[id])
    && match end
       case Complete => id in order
       case NoList => false
       case RouteFailed(at, _) => at <= |order| && id in order[..at]
       case WriteFailed(at) => at < |order| && id in order[..at+1]
  }

  ghost predicate SameRoute(w: World, t: World, id: nat) {
    (id in w.routes <==> id in t.routes) && (id in w.routes ==> t.routes[id] == w.routes[id])
  }

  /** A pass switches the routes it reached and no other. */
  lemma SyncedRoute(w: World, order: seq<nat>, port: nat, end: End, id: nat)
    requires Listed(w, order) && Fits(end, w, order)
    ensures var t := Synced(w, order, port, end);
            if Reached(w, order, end, id) then id in t.routes && t.routes[id] == port else SameRoute(w, t, id)
  {
    SyncAt(w, order, port, Stop(end, order), id);
    if end.Complete? { assert order[..|order|] == order; }
    if end.WriteFailed? { assert order[..end.at+1] == order[..end.at] + [order[end.at]]; }
  }

  /** A pass that fails anywhere leaves the same domains eligible, and touches only those. */
  lemma SyncedRecord(w: World, order: seq<nat>, port: nat, end: End, id: nat)
    requires Listed(w, order) && Fits(end, w, order)
    ensures var t := Synced(w, order, port, end);
            && Listed(t, order)
            && (id in w.records && Eligible(w.records[id]) ==> Eligible(t.records[id]))
            && (id in w.records && !Eligible(w.records[id]) ==> t.records[id] == w.records[id])
  {
    SyncAt(w, order, port, Stop(end, order), id);
    if end.RouteFailed? || end.WriteFailed? { assert order[end.at] in w.records; }
  }

  ghost predicate HasRoute(t: World, id: nat, port: nat) {
    id in t.routes && t.routes[id] == port
  }

  /** Domain by domain, what a pass that ends anywhere has done. A domain that is unverified or pending is
      never touched, and neither is one behind the end. One before the end is active on the port. The one at
      the end records the error on its old route if the route failed and that could be written, and is on the
      port with its old record if the record could not be written. */
  lemma SyncedStatus(w: World, order: seq<nat>, port: nat, end: End, k: nat)
    requires Listed(w, order) && Fits(end, w, order) && k < |order|
    ensures var id, t := order[k], Synced(w, order, port, end);
            var r := w.records[id];
            && id in t.records
            && (!r.verified || r.status == Pending || end.NoList? ==> SameAt(w, t, id))
            && (r.verified && r.status != Pending && !end.NoList? ==>
                  match end
                  case Complete => t.records[id] == Record(true, Active) && HasRoute(t, id, port)
                  case RouteFailed(at, noted) =>
                    if k < at then t.records[id] == Record(true, Active) && HasRoute(t, id, port)
                    else if k == at && noted then t.records[id] == Record(true, Error) && SameRoute(w, t, id)
                    else SameAt(w, t, id)
                  case WriteFailed(at) =>
                    if k < at then t.records[id] == Record(true, Active) && HasRoute(t, id, port)
                    else if k == at then t.records[id] == r && HasRoute(t, id, port)
                    else SameAt(w, t, id))
            && (t.records[id].status == Active && r.status != Active ==> HasRoute(t, id, port))
  {
    var n := Stop(end, order);
    SyncAt(w, order, port, n, order[k]);
    assert order[k] in order[..n] <==> k < n;
    if end.RouteFailed? || end.WriteFailed? { SyncAt(w, order, port, n, order[end.at]); }
  }

  /** The same for a pass that takes the routes away; it may also touch pending domains. */
  lemma RemovedStatus(w: World, order: seq<nat>, end: End, k: nat)
    requires Listed(w, order) && FitsRemoval(end, w, order) && k < |order|
    ensures var id, t := order[k], Removed(w, order, end);
            var r := w.records[id];
            && id in t.records
            && (!r.verified || end.NoList? ==> SameAt(w, t, id))
            && (r.verified && !end.NoList? ==>
                  match end
                  case Complete => t.records[id] == Record(true, Verified) && id !in t.routes
                  case RouteFailed(at, _) =>
                    if k < at then t.records[id] == Record(true, Verified) && id !in t.routes else SameAt(w, t, id)
                  case WriteFailed(at) =>
                    if k < at then t.records[id] == Record(true, Verified) && id !in t.routes
                    else if k == at then t.records[id] == r && id !in t.routes
                    else SameAt(w, t, id))
  {
    var n := Stop(end, order);
    RemoveAt(w, order, n, order[k]);
    assert order[k] in order[..n] <==> k < n;
    if end.RouteFailed? || end.WriteFailed? { RemoveAt(w, order, n, order[end.at]); }
  }

  // ----- compensation -----

  /** However the switch to the new port ended, a successful switch back leaves every eligible
      domain on the previous port and every other one as it was before either. */
  lemma CompensationRestores(w: World, order: seq<nat>, port: nat, previous: nat, end: End, id: nat)
    requires Listed(w, order) && Fits(end, w, order)
    ensures Listed(Synced(w, order, port, end), order)
    ensures var t := Synced(Synced(w, order, port, end), order, previous, Complete);
            if id in w.records && Eligible(w.records[id]) then ServedAt(t, id, previous) else SameAt(w, t, id)
  {
    SyncedRecord(w, order, port, end, id);
    SyncedRoute(w, order, port, end, id);
    var m := Synced(w, order, port, end);
    SyncAt(m, order, previous, |order|, id);
    assert order[..|order|] == order;
  }

  // ----- a first deployment that fails -----

  ghost predicate NobodyOn(routes: map<nat, nat>, port: nat) {
    forall id | id in routes :: routes[id] != port
  }

  /** With no previous container a build only removes the default route. The custom routes left on
      the removed candidate's port are exactly the ones the pass had reached; so none is left if
      and only if it had reached none. */
  lemma DanglingAfterFirstBuild(w: World, order: seq<nat>, port: nat, end: End)
    requires Listed(w, order) && Fits(end, w, order) && NobodyOn(w.routes, port)
    ensures var t := Synced(w, order, port, end);
            && (forall id :: (id in t.routes && t.routes[id] == port) <==> Reached(w, order, end, id))
            && (NobodyOn(t.routes, port) <==> forall id :: !Reached(w, order, end, id))
  {
    var t := Synced(w, order, port, end);
    forall id ensures (id in t.routes && t.routes[id] == port) <==> Reached(w, order, end, id) {
      SyncedRoute(w, order, port, end, id);
    }
  }

  /** A rollback also removes the custom routes: when that succeeds no verified domain keeps a
      route and nothing points at the candidate's port, however the pass had ended. */
  lemma NothingDanglesAfterRollback(w: World, order: seq<nat>, port: nat, end: End)
    requires Listed(w, order) && Fits(end, w, order) && NobodyOn(w.routes, port)
    ensures Listed(Synced(w, order, port, end), order)
    ensures var t := Removed(Synced(w, order, port, end), order, Complete);
            NobodyOn(t.routes, port) && forall id | id in w.records && w.records[id].verified :: id !in t.routes
  {
    var m := Synced(w, order, port, end);
    SyncedRecord(w, order, port, end, 0);
    var t := Removed(m, order, Complete);
    forall id
      ensures id in t.routes ==> t.routes[id] != port
      ensures id in w.records && w.records[id].verified ==> id !in t.routes
    {
      SyncedRecord(w, order, port, end, id);
      SyncedRoute(w, order, port, end, id);
      RemoveAt(m, order, |order|, id);
      assert order[..|order|] == order;
    }
  }
}
