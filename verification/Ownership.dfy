/**
 What every run keeps about a room's objects in the cluster: who owns what, and what a converged
 start has in hand.
 */
module Ownership {
  import opened Rooms
  import opened Planner
  import opened Protocol

  ghost predicate HasDeployment(w: World, d: Draft, uid: Uid) {
    && w.cluster.deployment.Some?
    && w.cluster.deployment.value.uid == uid
    && w.cluster.deployment.value.specHash == Some(d.hash)
    && !w.cluster.deployment.value.deleting
  }

  ghost predicate IsRecorded(w: World, d: Draft, uid: Uid) {
    && Recorded(uid) in w.trail
    && (w.row.Some? ==> w.row.value.deploymentUid == Some(uid) && w.row.value.specHash == Some(d.hash))
  }

  ghost predicate OwnsSecret(w: World, uid: Uid) {
    w.cluster.secret == Some(Secret(Some(uid)))
  }

  /** Row, Deployment, Secret and Service agree on one uid that is not going away. */
  ghost predicate Agreed(w: World, d: Draft, uid: Uid) {
    && HasDeployment(w, d, uid) && IsRecorded(w, d, uid) && OwnsSecret(w, uid)
    && w.cluster.service.Some? && w.cluster.service.value.owner == uid
  }

  /** What the call about to be made may rely on. */
  ghost predicate CallFits(site: Site, w: World, call: Call) {
    match call
    case CreateDeployment(d) => w.cluster.deployment.None?
    case RereadDeployment(d) => false
    case Record(d, uid) => HasDeployment(w, d, uid)
    case OwnSecret(d, uid) => HasDeployment(w, d, uid) && IsRecorded(w, d, uid)
    case LookService(d, uid) => HasDeployment(w, d, uid) && IsRecorded(w, d, uid) && OwnsSecret(w, uid)
    case Expose(d, uid) => HasDeployment(w, d, uid) && IsRecorded(w, d, uid) && OwnsSecret(w, uid)
    case ReadService(d, uid) => Agreed(w, d, uid)
    case Advertise(d, uid) => Agreed(w, d, uid) && w.cluster.service.value.address == Assigned(site.lbIp)
    case LookBeforeTrash =>
      w.cluster.secret.None? && (w.cluster.deployment.Some? ==> w.cluster.deployment.value.deleting)
    case TeardownSecret => w.cluster.deployment.Some? ==> w.cluster.deployment.value.deleting
    case DropRow => w.cluster == Cluster(None, None, None, w.cluster.nextUid)
    case MarkDeleting => w.cluster.secret.None? && (w.cluster.deployment.Some? ==> w.cluster.deployment.value.deleting)
    case StopMark => w.cluster.deployment.Some? ==> w.cluster.deployment.value.deleting
    case _ => true
  }

  /** A Service never outlives, or precedes, the recorded Deployment that owns it. */
  ghost predicate ServiceIsOwned(w: World) {
    w.cluster.service.Some? ==>
      && w.cluster.deployment.Some?
      && w.cluster.deployment.value.uid == w.cluster.service.value.owner
      && Recorded(w.cluster.service.value.owner) in w.trail
  }

  ghost predicate UidsAreFresh(w: World) {
    w.cluster.deployment.Some? ==> w.cluster.deployment.value.uid < w.cluster.nextUid
  }

  /** Every Service ever created was owned by a uid recorded earlier. */
  ghost predicate RecordedFirst(trail: seq<Event>) {
    forall j :: 0 <= j < |trail| && trail[j].Exposed? ==> Recorded(trail[j].owner) in trail[..j]
  }

  ghost predicate Owned(site: Site, s: State) {
    && ServiceIsOwned(s.world) && UidsAreFresh(s.world) && RecordedFirst(s.world.trail)
    && CallFits(site, s.world, s.call)
  }

  lemma {:induction false} LogKeepsOrder(trail: seq<Event>, e: Event)
    requires RecordedFirst(trail) && (e.Exposed? ==> Recorded(e.owner) in trail)
    ensures RecordedFirst(trail + [e])
  {
    var longer := trail + [e];
    forall j | 0 <= j < |longer| && longer[j].Exposed?
      ensures Recorded(longer[j].owner) in longer[..j]
    {
      if j < |trail| {
        assert longer[..j] == trail[..j];
      } else {
        assert longer[..j] == trail;
      }
    }
  }

  lemma {:induction false} StartKeepsOwned(site: Site, s: State, a: Answers)
    requires Owned(site, s) && IsStartCall(s.call)
    ensures Owned(site, DoStart(site, s.world, s.call, a))
  {
    match s.call
    case Record(d, uid) => LogKeepsOrder(s.world.trail, Recorded(uid));
    case Expose(d, uid) => LogKeepsOrder(s.world.trail, Exposed(uid));
    case QuarantinePair(d, verdict) =>
      LogKeepsOrder(s.world.trail, Quarantined(s.world.now));
      LogKeepsOrder(s.world.trail, Misallocated(s.world.now));
    case _ =>
  }

  /** A statement on the row, possibly noted in the trail, cannot disturb who owns what. */
  lemma {:induction false} RowUpdatesKeepOwned(w: World, w': World)
    requires ServiceIsOwned(w) && UidsAreFresh(w) && RecordedFirst(w.trail)
    requires w'.cluster == w.cluster
    requires w'.trail == w.trail || exists e: Event :: !e.Exposed? && w'.trail == w.trail + [e]
    ensures ServiceIsOwned(w') && UidsAreFresh(w') && RecordedFirst(w'.trail)
  {
    if w'.trail != w.trail {
      var e: Event :| !e.Exposed? && w'.trail == w.trail + [e];
      LogKeepsOrder(w.trail, e);
    }
  }

  lemma {:induction false} OtherKeepsOwned(site: Site, s: State, a: Answers)
    requires Owned(site, s) && !IsStartCall(s.call)
    ensures Owned(site, DoOther(site, s.world, s.call, a))
  {
    var w, w' := s.world, DoOther(site, s.world, s.call, a).world;
    match s.call
    case FailDelete | RecreateDelete(_) | StopDelete | TeardownDeployment | TeardownSecret =>
    case _ => RowUpdatesKeepOwned(w, w');
  }

  lemma {:induction false} EnvironmentKeepsOwned(site: Site, s: State, l: Label)
    requires Owned(site, s)
    ensures Owned(site, State(Environment(s, l), s.call))
  {
    LogKeepsOrder(s.world.trail, RedeployAsked);
  }

  lemma {:induction false} NextKeepsOwned(site: Site, s: State, l: Label)
    requires Owned(site, s)
    ensures Owned(site, Next(site, s, l))
  {
    match l
    case Plan(kind, seen, wanted) =>
    case Do(a) =>
      if IsStartCall(s.call) { StartKeepsOwned(site, s, a); } else { OtherKeepsOwned(site, s, a); }
    case FatalError =>
    case Interrupt => LogKeepsOrder(s.world.trail, Interrupted);
    case _ => EnvironmentKeepsOwned(site, s, l);
  }

  lemma {:induction false} RunsKeepOwned(site: Site, s: State, labels: seq<Label>)
    requires Owned(site, s)
    ensures Owned(site, Run(site, s, labels))
    decreases |labels|
  {
    if labels != [] {
      NextKeepsOwned(site, s, labels[0]);
      RunsKeepOwned(site, Next(site, s, labels[0]), labels[1..]);
    }
  }

  // ---------------------------------------------------------------- over whole runs

  /**
   In every run a Service is owned by the Deployment that exists, whose uid was recorded before the Service was
   created.
   */
  lemma {:induction false} EveryServiceIsOwned(site: Site, s: State, labels: seq<Label>)
    requires IsNewRoom(s)
    ensures var w := Run(site, s, labels).world;
            && ServiceIsOwned(w)
            && RecordedFirst(w.trail)
  {
    RunsKeepOwned(site, s, labels);
  }

  /**
   Whenever a start is about to advertise the room, its row, Deployment, Secret and Service agree on
   one uid that is not being deleted, carry the rendered hash, and answer on the configured address.
   */
  lemma {:induction false} ConvergedMeansAgreement(site: Site, s: State, labels: seq<Label>)
    requires IsNewRoom(s)
    ensures var t := Run(site, s, labels);
            t.call.Advertise? ==>
              && Agreed(t.world, t.call.draft, t.call.uid)
              && t.world.cluster.service.value.address == Assigned(site.lbIp)
  {
    RunsKeepOwned(site, s, labels);
  }

  /** Teardown's two deletes and the drain that follows leave nothing behind, from wherever a run got to. */
  lemma {:induction false} TeardownLeavesNothing(site: Site, s: State, labels: seq<Label>, a: Answers)
    requires IsNewRoom(s) && Run(site, s, labels).call.TeardownDeployment?
    ensures var t := Run(site, s, labels);
            var u := Perform(site, Perform(site, t, a), a);
            Environment(u, Drain).cluster == Cluster(None, None, None, t.world.cluster.nextUid)
  {
    RunsKeepOwned(site, s, labels);
  }

  /** The directory is only moved, and the row only dropped, once no object of the room is left. */
  lemma {:induction false} DroppedOnlyWhenEmpty(site: Site, s: State, labels: seq<Label>)
    requires IsNewRoom(s) && Run(site, s, labels).call.DropRow?
    ensures var c := Run(site, s, labels).world.cluster; c.deployment.None? && c.service.None? && c.secret.None?
  {
    RunsKeepOwned(site, s, labels);
  }

  /** With one orchestrator acting and authoritative reads, creating a Deployment never conflicts. */
  lemma {:induction false} ConflictNeedsASecondActor(site: Site, s: State, labels: seq<Label>)
    requires IsNewRoom(s)
    ensures !Run(site, s, labels).call.RereadDeployment?
  {
    RunsKeepOwned(site, s, labels);
  }
}
