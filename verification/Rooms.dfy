/**
 The data model shared by the room reconciler: one room's database row, the objects Puna keeps for
 it in the cluster, and the steps the planner may choose.

 Times are whole seconds. Spec hashes, uids, ports and addresses are opaque values that are only
 ever compared.
 */
module Rooms {

  datatype Option<+T> = None | Some(value: T)

  type Time = int
  type RoomId = nat
  type Uid = nat
  type Hash = int
  type Port = nat
  type Ip = int

  /** The observed half of a room: written by the orchestrator alone. */
  datatype RoomState =
    | Provisioning
    | Idle
    | Starting
    | Running
    | Degraded
    | Stopping
    | Failed
    | Deleting
    | IntegrityFault

  /** The desired half: what somebody asked for. */
  datatype Desired = WantRunning | WantStopped | WantClosed | WantDeleted {
    predicate IsAtRest() {
      WantStopped? || WantClosed?
    }
  }

  /** A Deployment as the reconciler reads it. */
  datatype Deployment = Deployment(uid: Uid, specHash: Option<Hash>, readyReplicas: nat, deleting: bool)

  /** What the load balancer has said about a Service's address. */
  datatype Address =
    | Unanswered
    | Refused(portCollision: bool)
    | Assigned(ip: Ip)

  datatype Service = Service(owner: Uid, basePort: Port, address: Address)

  /** A Secret; without an owner nothing ever collects it. */
  datatype Secret = Secret(owner: Option<Uid>)

  datatype IdleReason = DeploymentGone | StopComplete

  /** One thing to do to one room. */
  datatype Step =
    | Provision
    | Start
    | Recreate
    | MarkRunning
    | NotReady
    | MarkDegraded
    | MarkIdle(reason: IdleReason)
    | Stop
    | Retry
    | Delete
    | FailStart
    | Reap
  {
    /** Whether the step hands the room to a later pass. */
    predicate LeavesWorkPending() {
      match this
      case Provision | Start | Recreate | Retry | Stop | Delete => true
      case Reap => true
      case MarkIdle(_) => true
      case MarkRunning | MarkDegraded | NotReady | FailStart => false
    }

    /** Steps whose meaning depends on how often they are taken. */
    predicate IsPaced() {
      Recreate? || NotReady? || Reap?
    }
  }

  datatype TickKind = Reconcile | Converge

  /** What the planner is shown of one room. */
  datatype RoomView = RoomView(
    id: RoomId,
    state: RoomState,
    desired: Desired,
    specHash: Option<Hash>,
    desiredSpecHash: Option<Hash>,
    stateChangedAt: Time,
    retryAfter: Option<Time>,
    notReadySweeps: nat,
    redeployRequestedAt: Option<Time>,
    idleSince: Option<Time>,
    pinned: bool)
}
