/**
 One room's lifecycle as a protocol with crashes.

 A state is the world (the room's row, its objects in the cluster, its port reservation, the clock)
 together with the call the orchestrator is about to make. Every SQL statement and every cluster call
 is one transition; between any two of them the environment may act and the process may die.
 A run is any sequence of labels at all: a label that does not apply leaves the state alone.

 The trail records what happened, for properties that speak about a whole run.
 */
module Protocol {
  import opened Rooms
  import opened Planner
  import opened Backoff

  /** The deployment's constants: the advertised address, the reaper's timeout, the room id's last byte. */
  datatype Site = Site(lbIp: Ip, idleTimeout: int, lastByte: nat)

  datatype Row = Row(
    state: RoomState,
    desired: Desired,
    specHash: Option<Hash>,
    deploymentUid: Option<Uid>,
    advertised: Option<Port>,
    startedAt: Option<Time>,
    stateChangedAt: Time,
    failureCount: nat,
    retryAfter: Option<Time>,
    notReadySweeps: nat,
    redeployRequestedAt: Option<Time>,
    provisionedAt: Option<Time>,
    pinned: bool,
    probedAt: Option<Time>,
    probeIsHttps: bool,
    lastCheckAt: Option<Time>)

  datatype Cluster = Cluster(
    deployment: Option<Deployment>,
    service: Option<Service>,
    secret: Option<Secret>,
    nextUid: Uid)

  datatype Event =
    | Recorded(uid: Uid)
    | Exposed(owner: Uid)
    | Quarantined(at: Time)
    | Misallocated(at: Time)
    | FailedOnce
    | Scheduled(at: Time, failures: int, retryAt: Time)
    | Interrupted
    | Cleared
    | WentUp(at: Time)
    | CountedNotReady(pass: nat, kind: TickKind)
    | WasDegraded(pass: nat)
    | Reaped(plannedAt: Time)
    | RedeployAsked
    | Redeployed

  datatype World = World(
    row: Option<Row>,
    cluster: Cluster,
    reserved: Option<Port>,
    now: Time,
    pass: nat,
    trail: seq<Event>)

  /** What a start is about to apply. */
  datatype Draft = Draft(port: Port, hash: Hash)

  datatype Verdict = WrongAddress | PortTaken | Unsatisfiable

  /** The call the orchestrator makes next; `Resting` between steps. */
  datatype Call =
    | Resting
    | ProvisionClaim
    | Allocate
    | Render(port: Port)
    | ApplySecret(draft: Draft)
    | LookDeployment(draft: Draft)
    | Replace(draft: Draft)
    | CreateDeployment(draft: Draft)
    | RereadDeployment(draft: Draft)
    | Record(draft: Draft, uid: Uid)
    | OwnSecret(draft: Draft, uid: Uid)
    | LookService(draft: Draft, uid: Uid)
    | Expose(draft: Draft, uid: Uid)
    | ReadService(draft: Draft, uid: Uid)
    | Withdraw(draft: Draft, verdict: Verdict)
    | QuarantinePair(draft: Draft, verdict: Verdict)
    | Advertise(draft: Draft, uid: Uid)
    | Forget(thenConsume: Option<bool>)
    | ConsumeRequest(redeployed: bool)
    | FailDelete
    | FailRecord
    | FailSchedule(failures: int)
    | RecreateDelete(asked: bool)
    | RaiseRunning
    | CountNotReady(pass: nat, kind: TickKind)
    | Degrade(pass: nat)
    | StopDelete
    | StopMark
    | RetryMark
    | ReapMark(plannedAt: Time)
    | TeardownDeployment
    | TeardownSecret
    | LookBeforeTrash
    | MarkDeleting
    | DropRow

  datatype State = State(world: World, call: Call)

  datatype Rendering = Rendered(hash: Hash) | NothingToRender | Unrenderable

  /** What the calls whose outcome is not decided by the world answer. */
  datatype Answers = Answers(freshPort: Option<Port>, rendering: Rendering, deleteLost: bool)

  // ---------------------------------------------------------------- statements on the row

  /** When the room was last played, or nothing when that cannot be answered. */
  function IdleSince(row: Row, now: Time): Option<Time> {
    if row.probedAt.None? || now - row.probedAt.value > 300 || !row.probeIsHttps then None
    else if row.lastCheckAt.None? then row.startedAt
    else if row.startedAt.None? || row.startedAt.value <= row.lastCheckAt.value then row.lastCheckAt
    else row.startedAt
  }

  function View(row: Row, now: Time, wanted: Option<Hash>): RoomView {
    RoomView(0, row.state, row.desired, row.specHash, wanted, row.stateChangedAt, row.retryAfter,
             row.notReadySweeps, row.redeployRequestedAt, IdleSince(row, now), row.pinned)
  }

  /** `clear_deployment`: back to idle, forgetting the Deployment the room used to have. */
  function ClearedRow(row: Row, now: Time): Row {
    row.(state := Idle, stateChangedAt := now, deploymentUid := None, specHash := None,
         advertised := None, notReadySweeps := 0, startedAt := None)
  }

  function RunningRow(row: Row, now: Time): Row {
    row.(state := Running, stateChangedAt := now,
         startedAt := if row.startedAt.Some? then row.startedAt else Some(now),
         notReadySweeps := 0, failureCount := 0, retryAfter := None)
  }

  function FailedRow(row: Row, now: Time): Row {
    row.(state := Failed, stateChangedAt := now, failureCount := row.failureCount + 1, advertised := None)
  }

  /** A statement on the room's row; it touches nothing when the row is gone. */
  function Update(w: World, f: Row -> Row): World {
    if w.row.Some? then w.(row := Some(f(w.row.value))) else w
  }

  function Log(w: World, e: Event): World {
    w.(trail := w.trail + [e])
  }

  // ---------------------------------------------------------------- calls on the cluster

  /** A delete is accepted at once; the object stays, marked, until it has drained. */
  function AcceptDelete(w: World): World {
    if w.cluster.deployment.None? then w
    else w.(cluster := w.cluster.(deployment := Some(w.cluster.deployment.value.(deleting := true))))
  }

  function WithSecret(w: World, owner: Option<Uid>): World {
    w.(cluster := w.cluster.(secret := Some(Secret(owner))))
  }

  /** A drained Deployment goes, and everything its uid owns goes with it. */
  function Collect(c: Cluster): Cluster
    requires c.deployment.Some?
  {
    var uid := c.deployment.value.uid;
    c.(deployment := None,
       service := if c.service.Some? && c.service.value.owner == uid then None else c.service,
       secret := if c.secret.Some? && c.secret.value.owner == Some(uid) then None else c.secret)
  }

  // ---------------------------------------------------------------- what each call does

  /** The call a planned step begins with. */
  function FirstCall(step: Step, row: Row, w: World, kind: TickKind): Call {
    match step
    case Provision => ProvisionClaim
    case Start => Allocate
    case Recreate => RecreateDelete(row.redeployRequestedAt.Some?)
    case MarkRunning => RaiseRunning
    case NotReady => CountNotReady(w.pass, kind)
    case MarkDegraded => Degrade(w.pass)
    case MarkIdle(_) => Forget(None)
    case Stop => StopDelete
    case Retry => RetryMark
    case Delete => TeardownDeployment
    case FailStart => FailDelete
    case Reap => ReapMark(w.now)
  }

  /** Where a start goes once it has read its Service's address. */
  function AfterAddress(site: Site, d: Draft, uid: Uid, address: Address): Call {
    match address
    case Unanswered => Resting
    case Refused(collision) => Withdraw(d, if collision then PortTaken else Unsatisfiable)
    case Assigned(ip) => if ip == site.lbIp then Advertise(d, uid) else Withdraw(d, WrongAddress)
  }

  /** The calls of `ensure_room_running` and of the start around it. */
  function DoStart(site: Site, w: World, call: Call, a: Answers): State {
    match call
    case Allocate =>
      if w.reserved.Some? then State(w, Render(w.reserved.value))
      else if a.freshPort.Some? then State(w.(reserved := a.freshPort), Render(a.freshPort.value))
      else State(w, FailDelete)
    case Render(p) =>
      (match a.rendering
       case Rendered(hash) => State(w, ApplySecret(Draft(p, hash)))
       case NothingToRender => State(w, Resting)
       case Unrenderable => State(w, FailDelete))
    case ApplySecret(d) => State(WithSecret(w, None), LookDeployment(d))
    case LookDeployment(d) =>
      if w.cluster.deployment.None? then State(w, CreateDeployment(d))
      else
        var existing := w.cluster.deployment.value;
        if existing.deleting then State(w, Resting)
        else if existing.specHash == Some(d.hash) then State(w, Record(d, existing.uid))
        else State(w, Replace(d))
    case Replace(d) => State(AcceptDelete(w), Forget(None))
    case CreateDeployment(d) =>
      if w.cluster.deployment.Some? then State(w, RereadDeployment(d))
      else
        var uid := w.cluster.nextUid;
        State(w.(cluster := w.cluster.(deployment := Some(Deployment(uid, Some(d.hash), 0, false)),
                                       nextUid := uid + 1)),
              Record(d, uid))
    case RereadDeployment(d) =>
      if w.cluster.deployment.Some? then State(w, Record(d, w.cluster.deployment.value.uid)) else State(w, Resting)
    case Record(d, uid) =>
      State(Log(Update(w, (r: Row) => r.(deploymentUid := Some(uid), specHash := Some(d.hash))), Recorded(uid)),
            OwnSecret(d, uid))
    case OwnSecret(d, uid) => State(WithSecret(w, Some(uid)), LookService(d, uid))
    case LookService(d, uid) =>
      if w.cluster.service.None? then State(w, Expose(d, uid))
      else State(w, AfterAddress(site, d, uid, w.cluster.service.value.address))
    case Expose(d, uid) =>
      State(Log(w.(cluster := w.cluster.(service := Some(Service(uid, d.port, Unanswered)))), Exposed(uid)),
            ReadService(d, uid))
    case ReadService(d, uid) =>
      if w.cluster.service.None? then State(w, Resting)
      else State(w, AfterAddress(site, d, uid, w.cluster.service.value.address))
    case Withdraw(d, verdict) =>
      State(AcceptDelete(w), if verdict == Unsatisfiable then FailDelete else QuarantinePair(d, verdict))
    case QuarantinePair(d, verdict) =>
      if verdict == PortTaken then State(Log(w.(reserved := None), Quarantined(w.now)), FailDelete)
      else State(Log(w.(reserved := None), Misallocated(w.now)), Forget(None))
    case Advertise(d, uid) =>
      State(Update(w, (r: Row) => r.(state := Starting, stateChangedAt := w.now, advertised := Some(d.port))),
            ConsumeRequest(false))
    case _ => State(w, call)
  }

  /** The calls of every other step. */
  function DoOther(site: Site, w: World, call: Call, a: Answers): State {
    match call
    case ProvisionClaim =>
      State(Update(w, (r: Row) =>
        if r.state != Provisioning then r
        else r.(provisionedAt := if r.provisionedAt.Some? then r.provisionedAt else Some(w.now),
                state := Idle, stateChangedAt := w.now)), Resting)
    case Forget(next) =>
      State(Log(Update(w, (r: Row) => ClearedRow(r, w.now)), Cleared),
            if next.Some? then ConsumeRequest(next.value) else Resting)
    case ConsumeRequest(redeployed) =>
      var w' := Update(w, (r: Row) => r.(redeployRequestedAt := None));
      State(if redeployed then Log(w', Redeployed) else w', Resting)
    case FailDelete => State(if a.deleteLost then w else AcceptDelete(w), FailRecord)
    case FailRecord =>
      State(Log(Update(w, (r: Row) => FailedRow(r, w.now)), FailedOnce),
            FailSchedule(if w.row.Some? then w.row.value.failureCount + 1 else 1))
    case FailSchedule(failures) =>
      var retryAt := w.now + RetryDelay(failures, site.lastByte);
      State(Log(Update(w, (r: Row) => r.(retryAfter := Some(retryAt))), Scheduled(w.now, failures, retryAt)), Resting)
    case RecreateDelete(asked) => State(AcceptDelete(w), Forget(Some(asked)))
    case RaiseRunning => State(Log(Update(w, (r: Row) => RunningRow(r, w.now)), WentUp(w.now)), Resting)
    case CountNotReady(pass, kind) =>
      State(Log(Update(w, (r: Row) => r.(notReadySweeps := r.notReadySweeps + 1)), CountedNotReady(pass, kind)),
            Resting)
    case Degrade(pass) =>
      State(Log(Update(w, (r: Row) => r.(state := Degraded, stateChangedAt := w.now,
                                         notReadySweeps := r.notReadySweeps + 1)), WasDegraded(pass)), Resting)
    case StopDelete => State(AcceptDelete(w), StopMark)
    case StopMark => State(Update(w, (r: Row) => r.(state := Stopping, stateChangedAt := w.now)), Resting)
    case RetryMark =>
      State(Update(w, (r: Row) => if r.state != Failed then r
                                  else r.(state := Idle, stateChangedAt := w.now, retryAfter := None)), Resting)
    case ReapMark(plannedAt) =>
      if w.row.Some? && w.row.value.desired == WantRunning then
        State(Log(Update(w, (r: Row) => r.(desired := WantStopped)), Reaped(plannedAt)), Resting)
      else State(w, Resting)
    case TeardownDeployment => State(AcceptDelete(w), TeardownSecret)
    case TeardownSecret => State(w.(cluster := w.cluster.(secret := None)), LookBeforeTrash)
    case LookBeforeTrash => State(w, if w.cluster.deployment.Some? then MarkDeleting else DropRow)
    case MarkDeleting =>
      State(Update(w, (r: Row) => if r.state == Deleting then r
                                  else r.(state := Deleting, stateChangedAt := w.now)), Resting)
    case DropRow => State(w.(row := None, reserved := None), Resting)
    case _ => State(w, call)
  }

  predicate IsStartCall(call: Call) {
    || call.Allocate? || call.Render? || call.ApplySecret? || call.LookDeployment? || call.Replace?
    || call.CreateDeployment? || call.RereadDeployment? || call.Record? || call.OwnSecret?
    || call.LookService? || call.Expose? || call.ReadService? || call.Withdraw? || call.QuarantinePair?
    || call.Advertise?
  }

  /**
   The calls of a start that an error turns into a failed room: a fatal one of the cluster's, or any of the
   database's while the pair is allocated.
   */
  predicate MayFailFatally(call: Call) {
    || call.Allocate?
    || call.ApplySecret? || call.LookDeployment? || call.Replace? || call.CreateDeployment?
    || call.RereadDeployment? || call.OwnSecret? || call.LookService? || call.Expose?
    || call.ReadService? || call.Withdraw?
  }

  function Perform(site: Site, s: State, a: Answers): State {
    if IsStartCall(s.call) then DoStart(site, s.world, s.call, a) else DoOther(site, s.world, s.call, a)
  }

  // ---------------------------------------------------------------- transitions

  datatype Label =
    | Plan(kind: TickKind, seen: Option<Deployment>, wanted: Option<Hash>)
    | Do(answers: Answers)
    | FatalError
    | Interrupt
    | Tick(seconds: nat)
    | Drain
    | Answer(address: Address)
    | Ready(replicas: nat)
    | HandDelete
    | Ask(desired: Desired)
    | AskRedeploy
    | Pin(pinned: bool)
    | Probe(https: bool, lastCheckAt: Option<Time>)
    | Reclaim
    | DetectFault

  /**
   The planner looks at the row as it is and at a Deployment that may be any reading of the
   cluster, however stale. A spec hash is rendered for it only against a reserved pair.
   */
  function PlanNext(site: Site, s: State, kind: TickKind, seen: Option<Deployment>, wanted: Option<Hash>): State {
    if s.call != Resting || s.world.row.None? || (wanted.Some? && s.world.reserved.None?) then s
    else
      var w := s.world.(pass := s.world.pass + 1);
      var row := w.row.value;
      var step := StepFor(View(row, w.now, wanted), seen, w.now, site.idleTimeout);
      if step.None? || (kind == Converge && step.value.IsPaced()) then State(w, Resting)
      else State(w, FirstCall(step.value, row, w, kind))
  }

  /** What happens outside the orchestrator. */
  function Environment(s: State, l: Label): World {
    var w := s.world;
    match l
    case Tick(seconds) => w.(now := w.now + seconds)
    case Drain =>
      if w.cluster.deployment.Some? && w.cluster.deployment.value.deleting then w.(cluster := Collect(w.cluster)) else w
    case Answer(address) =>
      if w.cluster.service.Some? && w.cluster.service.value.address.Unanswered? then
        w.(cluster := w.cluster.(service := Some(w.cluster.service.value.(address := address))))
      else w
    case Ready(replicas) =>
      if w.cluster.deployment.Some? then
        w.(cluster := w.cluster.(deployment := Some(w.cluster.deployment.value.(readyReplicas := replicas))))
      else w
    case HandDelete =>
      if s.call == Resting && w.cluster.deployment.Some? then w.(cluster := Collect(w.cluster)) else w
    case Ask(desired) => Update(w, (r: Row) => r.(desired := desired))
    case AskRedeploy =>
      if w.row.Some? && w.row.value.redeployRequestedAt.None?
      then Log(Update(w, (r: Row) => r.(redeployRequestedAt := Some(w.now))), RedeployAsked) else w
    case Pin(pinned) => Update(w, (r: Row) => r.(pinned := pinned))
    case Probe(https, lastCheckAt) =>
      Update(w, (r: Row) => r.(probedAt := Some(w.now), probeIsHttps := https, lastCheckAt := lastCheckAt))
    case Reclaim =>
      if && s.call == Resting && w.row.Some? && !w.row.value.state.Starting? && !w.row.value.state.Running?
         && !w.row.value.state.Degraded?
      then w.(reserved := None) else w
    case DetectFault =>
      if && s.call == Resting && w.row.Some? && w.row.value.provisionedAt.Some?
         && !w.row.value.state.Deleting? && !w.row.value.state.IntegrityFault? && w.row.value.desired != WantDeleted
      then Update(w, (r: Row) => r.(state := IntegrityFault, stateChangedAt := w.now)) else w
    case _ => w
  }

  function Next(site: Site, s: State, l: Label): State {
    match l
    case Plan(kind, seen, wanted) => PlanNext(site, s, kind, seen, wanted)
    case Do(a) => Perform(site, s, a)
    case FatalError => if MayFailFatally(s.call) then State(s.world, FailDelete) else s
    case Interrupt => if s.call == Resting then s else State(Log(s.world, Interrupted), Resting)
    case _ => State(Environment(s, l), s.call)
  }

  // ---------------------------------------------------------------- runs

  /** A room as the web tier creates it: a row, and nothing anywhere else. */
  predicate IsNewRoom(s: State) {
    && s.call == Resting
    && s.world.cluster == Cluster(None, None, None, 0)
    && s.world.reserved == None && s.world.pass == 0 && s.world.trail == []
    && s.world.row.Some?
    && var r := s.world.row.value;
       && r.state == Provisioning && r.specHash == None && r.deploymentUid == None && r.advertised == None
       && r.startedAt == None && r.failureCount == 0 && r.retryAfter == None && r.notReadySweeps == 0
       && r.redeployRequestedAt == None && r.provisionedAt == None
  }

  function Run(site: Site, s: State, labels: seq<Label>): State
    decreases |labels|
  {
    if labels == [] then s else Run(site, Next(site, s, labels[0]), labels[1..])
  }
}
