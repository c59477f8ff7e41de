/** The deployment table: one function per SQL statement on the value of the
    table, and a class whose methods are the statements themselves.
 */
module DeploymentTable {
  import opened Domain
  import opened Sequences

  // `UPDATE ... WHERE id = $1` has no effect when no row matches.

  function WithStatus(t: Table, id: DepId, s: Status): Table {
    if id in t then t[id := t[id].(status := s)] else t
  }

  function WithCancelRequested(t: Table, id: DepId): Table {
    if id in t && Cancellable(t[id].status)
    then t[id := t[id].(status := CancelRequested, cancelRequested := true)]
    else t
  }

  function WithCancelled(t: Table, id: DepId): Table {
    if id in t && Cancellable(t[id].status)
    then t[id := t[id].(status := Cancelled, cancelRequested := true)]
    else t
  }

  function WithCandidate(t: Table, id: DepId, c: Option<Instance>): Table {
    if id in t then t[id := t[id].(candidate := c)] else t
  }

  function WithPromotion(t: Table, id: DepId, c: Instance): Table {
    if id in t then t[id := t[id].(status := Running, container := Some(c), candidate := None)] else t
  }

  predicate IsRunning(t: Table, id: DepId) {
    id in t && t[id].status == Running
  }

  /** `id` may be returned by `ORDER BY created_at DESC LIMIT 1` over the running rows. */
  predicate IsActive(t: Table, id: DepId) {
    IsRunning(t, id) && forall e | e in t && IsRunning(t, e) :: t[e].created <= t[id].created
  }

  predicate NoneRunning(t: Table) {
    forall e | e in t :: !IsRunning(t, e)
  }

  /** `d` may come first in `ListByApp`, which orders by created_at DESC. */
  predicate IsNewest(t: Table, d: DepId) {
    d in t && forall e | e in t :: t[e].created <= t[d].created
  }

  /** The rows `ListDeploymentCandidates` returns. */
  predicate IsOrphan(t: Table, id: DepId) {
    id in t && t[id].candidate.Some? && t[id].status != Running
  }

  /** `ORDER BY created_at ASC`. */
  ghost predicate ByAge(t: Table, items: seq<DepId>) {
    && (forall d | d in items :: d in t)
    && (forall i, j | 0 <= i < j < |items| :: t[items[i]].created <= t[items[j]].created)
  }

  ghost predicate AtMostOneRunning(t: Table) {
    forall d, e | IsRunning(t, d) && IsRunning(t, e) :: d == e
  }

  class DeploymentStore {
    var rows: Table

    constructor (initial: Table)
      ensures rows == initial
    {
      rows := initial;
    }

    method UpdateStatus(id: DepId, s: Status)
      modifies this
      ensures rows == WithStatus(old(rows), id, s)
    {
      if id in rows {
        rows := rows[id := rows[id].(status := s)];
      }
    }

    /** An empty RETURNING clause is the store's "not cancellable" error. */
    method RequestCancel(id: DepId) returns (row: Option<Row>)
      modifies this
      ensures rows == WithCancelRequested(old(rows), id)
      ensures row.Some? <==> id in old(rows) && Cancellable(old(rows)[id].status)
      ensures row.Some? ==> row.value == rows[id] && rows[id].cancelRequested
    {
      if id in rows && Cancellable(rows[id].status) {
        rows := rows[id := rows[id].(status := CancelRequested, cancelRequested := true)];
        return Some(rows[id]);
      }
      return None;
    }

    method MarkCancelled(id: DepId)
      modifies this
      ensures rows == WithCancelled(old(rows), id)
    {
      if id in rows && Cancellable(rows[id].status) {
        rows := rows[id := rows[id].(status := Cancelled, cancelRequested := true)];
      }
    }

    method UpdateCandidate(id: DepId, c: Instance)
      modifies this
      ensures rows == WithCandidate(old(rows), id, Some(c))
    {
      if id in rows {
        rows := rows[id := rows[id].(candidate := Some(c))];
      }
    }

    method ClearCandidate(id: DepId)
      modifies this
      ensures rows == WithCandidate(old(rows), id, None)
    {
      if id in rows {
        rows := rows[id := rows[id].(candidate := None)];
      }
    }

    method PromoteCandidate(id: DepId, c: Instance)
      modifies this
      ensures rows == WithPromotion(old(rows), id, c)
    {
      if id in rows {
        rows := rows[id := rows[id].(status := Running, container := Some(c), candidate := None)];
      }
    }

    /** The latest running row, or none: the answer is exact in both cases. */
    method GetActive() returns (found: Option<DepId>)
      ensures found.Some? ==> IsActive(rows, found.value)
      ensures found.None? <==> NoneRunning(rows)
    {
      found := None;
      var todo := rows.Keys;
      while todo != {}
        invariant todo <= rows.Keys
        invariant found.Some? ==> IsRunning(rows, found.value)
        invariant forall e | e in rows && e !in todo && IsRunning(rows, e) ::
                    found.Some? && rows[e].created <= rows[found.value].created
        decreases todo
      {
        var e :| e in todo;
        todo := todo - {e};
        if rows[e].status == Running && (found.None? || rows[found.value].created < rows[e].created) {
          found := Some(e);
        }
      }
    }

    /** Every running row once; the statement gives no order. */
    method ListRunning() returns (items: seq<DepId>)
      ensures forall d :: d in items <==> IsRunning(rows, d)
      ensures Distinct(items)
    {
      items := [];
      var todo := rows.Keys;
      while todo != {}
        invariant todo <= rows.Keys
        invariant forall d :: d in items <==> IsRunning(rows, d) && d !in todo
        invariant Distinct(items)
        decreases todo
      {
        var e :| e in todo;
        todo := todo - {e};
        if rows[e].status == Running {
          items := items + [e];
        }
      }
    }

    method Oldest(ids: set<DepId>) returns (oldest: DepId)
      requires ids != {} && ids <= rows.Keys
      ensures oldest in ids && forall d | d in ids :: rows[oldest].created <= rows[d].created
    {
      oldest :| oldest in ids;
      var todo := ids;
      while todo != {}
        invariant todo <= ids && oldest in ids
        invariant forall d | d in ids && d !in todo :: rows[oldest].created <= rows[d].created
        decreases todo
      {
        var e :| e in todo;
        todo := todo - {e};
        if rows[e].created < rows[oldest].created {
          oldest := e;
        }
      }
    }

    /** Every row with a candidate that does not run, once, by ascending creation time. */
    method ListCandidates() returns (items: seq<DepId>)
      ensures forall d :: d in items <==> IsOrphan(rows, d)
      ensures Distinct(items) && ByAge(rows, items)
      ensures forall i, j | 0 <= i < j < |items| :: items[i] in rows && items[j] in rows &&
                rows[items[i]].created <= rows[items[j]].created
    {
      items := [];
      var todo := rows.Keys;
      while todo != {}
        invariant todo <= rows.Keys
        invariant forall d :: d in items <==> IsOrphan(rows, d) && d !in todo
        invariant Distinct(items) && ByAge(rows, items)
        invariant forall d, e | d in items && e in todo :: rows[d].created <= rows[e].created
        decreases todo
      {
        var e := Oldest(todo);
        todo := todo - {e};
        if rows[e].candidate.Some? && rows[e].status != Running {
          items := items + [e];
        }
      }
    }

    /** The first row of `ListByApp`. */
    method Newest() returns (found: Option<DepId>)
      ensures found.Some? ==> IsNewest(rows, found.value)
      ensures found.None? <==> rows == map[]
    {
      found := None;
      var todo := rows.Keys;
      while todo != {}
        invariant todo <= rows.Keys
        invariant found.Some? ==> found.value in rows
        invariant forall e | e in rows && e !in todo ::
                    found.Some? && rows[e].created <= rows[found.value].created
        decreases todo
      {
        var e :| e in todo;
        todo := todo - {e};
        if found.None? || rows[found.value].created < rows[e].created {
          found := Some(e);
        }
      }
    }
  }
}
