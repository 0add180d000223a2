/**
 The steps as they are written: each a method that makes its calls on the cluster and its statements
 on the row one after another, returning as soon as it has found something that ends it.

 `path` records the world after each call. Every step is proved to leave exactly the path, and the
 end, of the protocol's transitions run from that step's first call, and so only worlds in which
 ownership, recording order and the row laws hold, wherever it is interrupted.
 */
module Orchestrator {
  import opened Rooms
  import opened Planner
  import opened Backoff
  import opened Protocol
  import opened Ownership
  import opened RowLaws
  import opened Courses
  import opened Convergence

  /** What a start found. */
  datatype Started =
    | Converged(uid: Uid)
    | Recreating
    | AwaitingAddress
    | AddressRefused(portCollision: bool)
    | AwaitingTeardown
    | AddressMismatch
    | Vanished

  /** The call a start makes next, given what it found. */
  function Continuation(d: Draft, r: Started): Call {
    match r
    case Converged(uid) => Advertise(d, uid)
    case Recreating => Forget(None)
    case AwaitingAddress | AwaitingTeardown | Vanished => Resting
    case AddressRefused(collision) => if collision then QuarantinePair(d, PortTaken) else FailDelete
    case AddressMismatch => QuarantinePair(d, WrongAddress)
  }

  class Steps {
    const site: Site
    var row: Option<Row>
    var cluster: Cluster
    var reserved: Option<Port>
    var now: Time
    ghost var pass: nat
    ghost var trail: seq<Event>
    ghost var path: seq<World>

    constructor (site: Site, w: World)
      ensures this.site == site && Now() == w && path == []
    {
      this.site := site;
      row, cluster, reserved, now := w.row, w.cluster, w.reserved, w.now;
      pass, trail, path := w.pass, w.trail, [];
    }

    ghost function Now(): World
      reads this
    {
      World(row, cluster, reserved, now, pass, trail)
    }

    /** The step about to make its first call. */
    ghost function Begun(step: Step, kind: TickKind): State
      requires row.Some?
      reads this
    {
      State(Now(), FirstCall(step, row.value, Now(), kind))
    }

    /** The course of a step about to make this call. */
    ghost function Ahead(call: Call, a: Answers): Course
      reads this
    {
      CourseOf(site, path, State(Now(), call), a)
    }

    // -------------------------------------------------------------- single calls

    /** One call has been made: the world it left is behind the step. */
    ghost method Note()
      modifies this`path
      ensures path == old(path) + [Now()]
    {
      path := path + [Now()];
    }

    method DeleteDeployment(ghost call: Call, ghost a: Answers, ghost next: Call)
      requires call != Resting && Perform(site, State(Now(), call), a) == State(AcceptDelete(Now()), next)
      modifies this`cluster, this`path
      ensures Now() == old(AcceptDelete(Now())) && Ahead(next, a) == old(Ahead(call, a))
    {
      ghost var before := Now();
      if cluster.deployment.Some? {
        cluster := cluster.(deployment := Some(cluster.deployment.value.(deleting := true)));
      }
      Note();
      StaysOnCourse(site, old(path), State(before, call), State(Now(), next), a);
    }

    method ApplySecret(owner: Option<Uid>, ghost call: Call, ghost a: Answers, ghost next: Call)
      requires call != Resting && Perform(site, State(Now(), call), a) == State(WithSecret(Now(), owner), next)
      modifies this`cluster, this`path
      ensures Now() == old(WithSecret(Now(), owner)) && Ahead(next, a) == old(Ahead(call, a))
    {
      ghost var before := Now();
      cluster := cluster.(secret := Some(Secret(owner)));
      Note();
      StaysOnCourse(site, old(path), State(before, call), State(Now(), next), a);
    }

    /** A read: nothing changes but how far the step has got. */
    ghost method Look(call: Call, a: Answers, next: Call)
      requires call != Resting && Perform(site, State(Now(), call), a) == State(Now(), next)
      modifies this`path
      ensures Now() == old(Now()) && Ahead(next, a) == old(Ahead(call, a))
    {
      var before := Now();
      Note();
      StaysOnCourse(site, old(path), State(before, call), State(Now(), next), a);
    }

    /** A statement on the room's row; it touches nothing when the row is gone. */
    method UpdateRow(f: Row -> Row, ghost event: Option<Event>, ghost call: Call, ghost a: Answers, ghost next: Call)
      requires call != Resting
      requires Perform(site, State(Now(), call), a)
               == State(if event.Some? then Log(Update(Now(), f), event.value) else Update(Now(), f), next)
      modifies this`row, this`trail, this`path
      ensures Now() == old(if event.Some? then Log(Update(Now(), f), event.value) else Update(Now(), f))
      ensures row.Some? == old(row).Some?
      ensures Ahead(next, a) == old(Ahead(call, a))
    {
      ghost var before := Now();
      if row.Some? { row := Some(f(row.value)); }
      trail := if event.Some? then trail + [event.value] else trail;
      Note();
      StaysOnCourse(site, old(path), State(before, call), State(Now(), next), a);
    }

    /** Unbinding the pair, so no allocation picks it again while it is quarantined. */
    method Quarantine(ghost event: Event, ghost call: Call, ghost a: Answers, ghost next: Call)
      requires call != Resting
               && Perform(site, State(Now(), call), a) == State(Log(Now().(reserved := None), event), next)
      modifies this`reserved, this`trail, this`path
      ensures Now() == old(Log(Now().(reserved := None), event)) && Ahead(next, a) == old(Ahead(call, a))
    {
      ghost var before := Now();
      reserved := None;
      trail := trail + [event];
      Note();
      StaysOnCourse(site, old(path), State(before, call), State(Now(), next), a);
    }

    // -------------------------------------------------------------- starting a room's objects

    /** The Deployment a start owns things by: the one there, if it matches, or a new one. */
    method FindOrCreate(d: Draft, ghost a: Answers) returns (found: Option<Uid>, ended: Started)
      modifies this
      ensures Ahead(if found.Some? then Record(d, found.value) else Continuation(d, ended),
                a) == old(Ahead(LookDeployment(d), a))
      ensures row == old(row) && now == old(now) && trail == old(trail)
    {
      ended := AwaitingTeardown;
      if cluster.deployment.Some? {
        var existing := cluster.deployment.value;
        if existing.deleting {
          Look(LookDeployment(d), a, Resting);
          return None, AwaitingTeardown;
        } else if existing.specHash == Some(d.hash) {
          Look(LookDeployment(d), a, Record(d, existing.uid));
          return Some(existing.uid), ended;
        }
        Look(LookDeployment(d), a, Replace(d));
        DeleteDeployment(Replace(d), a, Forget(None));
        return None, Recreating;
      }
      Look(LookDeployment(d), a, CreateDeployment(d));
      found := Create(d, a);
      if found.None? { ended := Vanished; }
    }

    /** A Deployment with a uid no other has had, or whatever took its name meanwhile. */
    method Create(d: Draft, ghost a: Answers) returns (uid: Option<Uid>)
      modifies this`cluster, this`path
      ensures Ahead(if uid.Some? then Record(d, uid.value) else Continuation(d, Vanished),
                a) == old(Ahead(CreateDeployment(d), a))
    {
      if cluster.deployment.Some? {
        Look(CreateDeployment(d), a, RereadDeployment(d));
        uid := Reread(d, a);
      } else {
        ghost var before := Now();
        uid := Some(cluster.nextUid);
        var created := Deployment(uid.value, Some(d.hash), 0, false);
        cluster := cluster.(deployment := Some(created), nextUid := uid.value + 1);
        Note();
        StaysOnCourse(site, old(path), State(before, CreateDeployment(d)), State(Now(), Record(d, uid.value)), a);
      }
    }

    /** The conflict arm: the object is there, or has gone again. */
    method Reread(d: Draft, ghost a: Answers) returns (uid: Option<Uid>)
      modifies this`path
      ensures Ahead(if uid.Some? then Record(d, uid.value) else Continuation(d, Vanished),
                a) == old(Ahead(RereadDeployment(d), a))
    {
      uid := if cluster.deployment.Some? then Some(cluster.deployment.value.uid) else None;
      Look(RereadDeployment(d), a, if uid.Some? then Record(d, uid.value) else Resting);
    }

    /** A Deployment whose address will not do goes before its pair is given up. */
    method WithdrawDeployment(d: Draft, ghost verdict: Verdict, ghost a: Answers)
      modifies this
      ensures Ahead(if verdict == Unsatisfiable then FailDelete else QuarantinePair(d, verdict),
                a) == old(Ahead(Withdraw(d, verdict), a))
    {
      DeleteDeployment(Withdraw(d, verdict), a,
                       if verdict == Unsatisfiable then FailDelete else QuarantinePair(d, verdict));
    }

    /** What the Service's address says, and the Deployment withdrawn if it is not the configured one. */
    method JudgeAddress(d: Draft, uid: Uid, address: Address, ghost a: Answers) returns (r: Started)
      modifies this
      ensures Ahead(Continuation(d, r), a) == old(Ahead(AfterAddress(site, d, uid, address), a))
    {
      match address
      case Unanswered => r := AwaitingAddress;
      case Refused(collision) =>
        ghost var verdict := if collision then PortTaken else Unsatisfiable;
        WithdrawDeployment(d, verdict, a);
        r := AddressRefused(collision);
      case Assigned(ip) =>
        if ip == site.lbIp { return Converged(uid); }
        WithdrawDeployment(d, WrongAddress, a);
        r := AddressMismatch;
    }

    /** `ensure_room_running`. */
    method EnsureRoomRunning(d: Draft, ghost a: Answers) returns (r: Started)
      modifies this
      ensures Ahead(Continuation(d, r), a) == old(Ahead(Call.ApplySecret(d), a))
    {
      ApplySecret(None, Call.ApplySecret(d), a, LookDeployment(d));
      var found, ended := FindOrCreate(d, a);
      if found.None? { return ended; }
      var uid := found.value;
      UpdateRow((r: Row) => r.(deploymentUid := Some(uid), specHash := Some(d.hash)), Some(Recorded(uid)),
                Record(d, uid), a, OwnSecret(d, uid));
      r := EnsureService(d, uid, a);
    }

    /** The Secret given its owner and the Service its own, once the row says which Deployment that is. */
    method EnsureService(d: Draft, uid: Uid, ghost a: Answers) returns (r: Started)
      modifies this
      ensures Ahead(Continuation(d, r), a) == old(Ahead(OwnSecret(d, uid), a))
    {
      ApplySecret(Some(uid), OwnSecret(d, uid), a, LookService(d, uid));
      var address: Address;
      if cluster.service.Some? {
        address := cluster.service.value.address;
        Look(LookService(d, uid), a, AfterAddress(site, d, uid, address));
      } else {
        Look(LookService(d, uid), a, Expose(d, uid));
        ExposeService(d, uid, a);
        address := cluster.service.value.address;
        Look(ReadService(d, uid), a, AfterAddress(site, d, uid, address));
      }
      r := JudgeAddress(d, uid, address, a);
    }

    method ExposeService(d: Draft, uid: Uid, ghost a: Answers)
      modifies this
      ensures cluster == old(cluster).(service := Some(Service(uid, d.port, Unanswered)))
      ensures Ahead(ReadService(d, uid), a) == old(Ahead(Expose(d, uid), a))
    {
      ghost var before := Now();
      cluster := cluster.(service := Some(Service(uid, d.port, Unanswered)));
      trail := trail + [Exposed(uid)];
      Note();
      StaysOnCourse(site, old(path), State(before, Expose(d, uid)), State(Now(), ReadService(d, uid)), a);
    }

    // -------------------------------------------------------------- the steps

    /** `clear_deployment`. */
    method ClearDeployment(ghost thenConsume: Option<bool>, ghost a: Answers)
      modifies this
      ensures Ahead(if thenConsume.Some? then ConsumeRequest(thenConsume.value) else Resting,
                a) == old(Ahead(Forget(thenConsume), a))
      ensures row.Some? == old(row).Some?
    {
      var at := now;
      UpdateRow((r: Row) => ClearedRow(r, at), Some(Cleared), Forget(thenConsume), a,
                if thenConsume.Some? then ConsumeRequest(thenConsume.value) else Resting);
    }

    method ClearRedeployRequest(ghost redeployed: bool, ghost a: Answers)
      modifies this
      ensures Ahead(Resting, a) == old(Ahead(ConsumeRequest(redeployed), a))
    {
      UpdateRow((r: Row) => r.(redeployRequestedAt := None), if redeployed then Some(Redeployed) else None,
                ConsumeRequest(redeployed), a, Resting);
    }

    /** The failure itself: the count the backoff is computed from is the count that was stored. */
    method RecordFailure(ghost a: Answers) returns (failures: int)
      modifies this
      ensures now == old(now) && Ahead(FailSchedule(failures), a) == old(Ahead(FailRecord, a))
    {
      var at := now;
      failures := if row.Some? then row.value.failureCount + 1 else 1;
      UpdateRow((r: Row) => FailedRow(r, at), Some(FailedOnce), FailRecord, a, FailSchedule(failures));
    }

    method ScheduleRetry(failures: int, ghost a: Answers)
      modifies this
      ensures Ahead(Resting, a) == old(Ahead(FailSchedule(failures), a))
    {
      var at := now;
      var retryAt := at + RetryDelay(failures, site.lastByte);
      UpdateRow((r: Row) => r.(retryAfter := Some(retryAt)), Some(Scheduled(at, failures, retryAt)),
                FailSchedule(failures), a, Resting);
    }

    /** `fail_with`: the Deployment goes first, then the failure is recorded, then when to try again. */
    method FailWith(deleteLost: bool, ghost a: Answers)
      requires a.deleteLost == deleteLost
      modifies this
      ensures Ahead(Resting, a) == old(Ahead(FailDelete, a))
    {
      if deleteLost {
        Look(FailDelete, a, FailRecord);
      } else {
        DeleteDeployment(FailDelete, a, FailRecord);
      }
      var failures := RecordFailure(a);
      ScheduleRetry(failures, a);
    }

    /** A pair for the room: its own, or a fresh one bound to it now. */
    method ReservePair(freshPort: Option<Port>, ghost a: Answers) returns (port: Option<Port>)
      requires a.freshPort == freshPort
      modifies this
      ensures Ahead(if port.Some? then Render(port.value) else FailDelete, a) == old(Ahead(Allocate, a))
    {
      ghost var before := Now();
      if reserved.None? { reserved := freshPort; }
      Note();
      StaysOnCourse(site, old(path), State(before, Allocate),
                    State(Now(), if reserved.Some? then Render(reserved.value) else FailDelete), a);
      return reserved;
    }

    /** `start`. */
    method Start(a: Answers)
      modifies this
      ensures Ahead(Resting, a) == old(Ahead(Allocate, a))
    {
      var port := ReservePair(a.freshPort, a);
      if port.None? {
        FailWith(a.deleteLost, a);
        return;
      }
      match a.rendering
      case NothingToRender =>
        Look(Render(port.value), a, Resting);
      case Unrenderable =>
        Look(Render(port.value), a, FailDelete);
        FailWith(a.deleteLost, a);
      case Rendered(hash) =>
        var d := Draft(port.value, hash);
        Look(Render(port.value), a, Call.ApplySecret(d));
        var started := EnsureRoomRunning(d, a);
        Conclude(d, started, a);
    }

    /** The room advertised as starting, and a request to redeploy it, which this start has met, consumed. */
    method AdvertiseRoom(d: Draft, ghost uid: Uid, ghost a: Answers)
      modifies this
      ensures Ahead(Resting, a) == old(Ahead(Advertise(d, uid), a))
    {
      var at := now;
      UpdateRow((r: Row) => r.(state := Starting, stateChangedAt := at, advertised := Some(d.port)), None,
                Advertise(d, uid), a, ConsumeRequest(false));
      ClearRedeployRequest(false, a);
    }

    /** What `start` does with what it found. */
    method Conclude(d: Draft, started: Started, a: Answers)
      modifies this
      ensures Ahead(Resting, a) == old(Ahead(Continuation(d, started), a))
    {
      var at := now;
      match started
      case Converged(uid) =>
        AdvertiseRoom(d, uid, a);
      case Recreating => ClearDeployment(None, a);
      case AwaitingAddress =>
      case AwaitingTeardown =>
      case Vanished =>
      case AddressMismatch =>
        Quarantine(Misallocated(at), QuarantinePair(d, WrongAddress), a, Forget(None));
        ClearDeployment(None, a);
      case AddressRefused(collision) =>
        if collision {
          Quarantine(Quarantined(at), QuarantinePair(d, PortTaken), a, FailDelete);
        }
        FailWith(a.deleteLost, a);
    }

    /** `recreate`: the Deployment goes, the row forgets it, and the request is consumed in the same pass. */
    method Recreate(ghost a: Answers)
      requires row.Some?
      modifies this
      ensures Ahead(Resting, a) == old(Ahead(RecreateDelete(row.value.redeployRequestedAt.Some?), a))
    {
      ghost var asked := row.value.redeployRequestedAt.Some?;
      DeleteDeployment(RecreateDelete(asked), a, Forget(Some(asked)));
      ClearDeployment(Some(asked), a);
      ClearRedeployRequest(asked, a);
    }

    method MarkRunning(ghost a: Answers)
      modifies this
      ensures Ahead(Resting, a) == old(Ahead(RaiseRunning, a))
    {
      var at := now;
      UpdateRow((r: Row) => RunningRow(r, at), Some(WentUp(at)), RaiseRunning, a, Resting);
    }

    /** `bump_not_ready`. */
    method BumpNotReady(degraded: bool, ghost pass: nat, ghost kind: TickKind, ghost a: Answers)
      modifies this
      ensures Ahead(Resting, a) == old(Ahead(if degraded then Degrade(pass) else CountNotReady(pass, kind), a))
    {
      var at := now;
      if degraded {
        UpdateRow((r: Row) => r.(state := Degraded, stateChangedAt := at, notReadySweeps := r.notReadySweeps + 1),
                  Some(WasDegraded(pass)), Degrade(pass), a, Resting);
      } else {
        UpdateRow((r: Row) => r.(notReadySweeps := r.notReadySweeps + 1), Some(CountedNotReady(pass, kind)),
                  CountNotReady(pass, kind), a, Resting);
      }
    }

    method Stop(ghost a: Answers)
      modifies this
      ensures Ahead(Resting, a) == old(Ahead(StopDelete, a))
    {
      DeleteDeployment(StopDelete, a, StopMark);
      var at := now;
      UpdateRow((r: Row) => r.(state := Stopping, stateChangedAt := at), None, StopMark, a, Resting);
    }

    method Retry(ghost a: Answers)
      modifies this
      ensures Ahead(Resting, a) == old(Ahead(RetryMark, a))
    {
      var at := now;
      UpdateRow((r: Row) =>
                  if r.state != Failed then r else r.(state := Idle, stateChangedAt := at, retryAfter := None),
                None, RetryMark, a, Resting);
    }

    /** `reap`: a request and nothing else, and only while the room is still wanted running. */
    method Reap(ghost plannedAt: Time, ghost a: Answers)
      modifies this
      ensures Ahead(Resting, a) == old(Ahead(ReapMark(plannedAt), a))
    {
      if row.Some? && row.value.desired == WantRunning {
        UpdateRow((r: Row) => r.(desired := WantStopped), Some(Reaped(plannedAt)), ReapMark(plannedAt), a, Resting);
      } else {
        Look(ReapMark(plannedAt), a, Resting);
      }
    }

    /** `teardown_room`: the Deployment, then the Secret by name, which an unfinished start may have left unowned. */
    method TeardownRoom(ghost a: Answers)
      modifies this`cluster, this`path
      ensures Ahead(LookBeforeTrash, a) == old(Ahead(TeardownDeployment, a))
    {
      DeleteDeployment(TeardownDeployment, a, TeardownSecret);
      ghost var before, behind := Now(), path;
      cluster := cluster.(secret := None);
      Note();
      StaysOnCourse(site, behind, State(before, TeardownSecret), State(Now(), LookBeforeTrash), a);
    }

    /** `delete`: the room's objects first; its directory and row only once the Deployment is really gone. */
    method Delete(ghost a: Answers)
      modifies this
      ensures Ahead(Resting, a) == old(Ahead(TeardownDeployment, a))
      ensures row.None? && old(row).Some? ==> cluster.deployment.None?
    {
      TeardownRoom(a);
      if cluster.deployment.Some? {
        Look(LookBeforeTrash, a, MarkDeleting);
        var at := now;
        UpdateRow((r: Row) => if r.state == Deleting then r else r.(state := Deleting, stateChangedAt := at), None,
                  MarkDeleting, a, Resting);
        return;
      }
      Look(LookBeforeTrash, a, DropRow);
      ghost var before, behind := Now(), path;
      row, reserved := None, None;
      Note();
      StaysOnCourse(site, behind, State(before, DropRow), State(Now(), Resting), a);
    }

    /** The claim on the row once the room's directory is there: it moves only a room still being provisioned. */
    method Provision(ghost a: Answers)
      modifies this
      ensures Ahead(Resting, a) == old(Ahead(ProvisionClaim, a))
    {
      var at := now;
      UpdateRow((r: Row) =>
                  if r.state != Provisioning then r
                  else r.(provisionedAt := if r.provisionedAt.Some? then r.provisionedAt else Some(at),
                          state := Idle, stateChangedAt := at),
                None, ProvisionClaim, a, Resting);
    }

    /** A planned step carried out by its own method. */
    method Dispatch(step: Step, ghost kind: TickKind, a: Answers)
      requires row.Some?
      modifies this
      ensures Ahead(Resting, a) == old(Ahead(FirstCall(step, row.value, Now(), kind), a))
    {
      match step
      case Provision => Provision(a);
      case Start => Start(a);
      case Recreate => Recreate(a);
      case MarkRunning => MarkRunning(a);
      case NotReady => BumpNotReady(false, pass, kind, a);
      case MarkDegraded => BumpNotReady(true, pass, kind, a);
      case MarkIdle(_) => ClearDeployment(None, a);
      case Stop => Stop(a);
      case Retry => Retry(a);
      case Delete => Delete(a);
      case FailStart => FailWith(a.deleteLost, a);
      case Reap => Reap(now, a);
    }

    /**
     One planned step, from its first call to its last. It goes through exactly the protocol's worlds, and from a
     state the protocol's invariants hold of, they hold of every world it leaves behind.
     */
    method Execute(step: Step, ghost kind: TickKind, a: Answers)
      requires row.Some?
      modifies this
      ensures path == old(path) + old(PathOf(site, Begun(step, kind), a))
      ensures State(Now(), Resting) == old(Finish(site, Begun(step, kind), a))
      ensures old(Owned(site, Begun(step, kind)) && Lawful(site, Begun(step, kind))) ==>
                && Owned(site, State(Now(), Resting)) && Lawful(site, State(Now(), Resting))
                && forall i :: |old(path)| <= i < |path| ==> IsSoundWorld(site, path[i])
    {
      ghost var before, s := path, Begun(step, kind);
      Dispatch(step, kind, a);
      assert CourseOf(site, path, State(Now(), Resting), a) == CourseOf(site, before, s, a);
      assert path + [] == path;
      if Owned(site, s) && Lawful(site, s) {
        StepsEndSoundly(site, s, a);
        forall i | |before| <= i < |path| ensures IsSoundWorld(site, path[i]) {
          EveryCrashPointIsSound(site, s, a, i - |before|);
        }
      }
    }
  }
}
