/** The values every other module talks about: deployment rows, the container
    and port recorded in them, and the deployment table itself.

    A nullable column is an `Option`; the id/port column pairs of a row are
    always written together, so each pair is one optional `Instance`.
 */
module Domain {

  datatype Option<+T> = None | Some(value: T)

  type DepId = nat
  type OpId = nat
  type ContainerId = nat

  datatype Status =
    | Pending
    | Building
    | CancelRequested
    | Cancelled
    | Running
    | Failed
    | Superseded
    | RolledBack
    | Stopped

  /** A started container: Docker's id and the host port it publishes. */
  datatype Instance = Instance(id: ContainerId, port: nat)

  datatype Row = Row(
    status: Status,
    container: Option<Instance>,
    candidate: Option<Instance>,
    cancelRequested: bool,
    created: nat)

  type Table = map<DepId, Row>

  /** The statuses in which both cancellation statements still take effect. */
  predicate Cancellable(s: Status) {
    s.Pending? || s.Building? || s.CancelRequested?
  }

  /** The statuses a row can have once its own build has promoted it. */
  predicate Released(s: Status) {
    s.Running? || s.Superseded? || s.RolledBack? || s.Stopped?
  }

  /** The statuses `Rollback` accepts for its target. */
  predicate Rollbackable(s: Status) {
    s.Superseded? || s.RolledBack? || s.Stopped?
  }
}
