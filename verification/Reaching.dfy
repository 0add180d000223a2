/**
 Building runs: what a run can reach from a state, and the stretches of a start that runs are made of.
 */
module Reaching {
  import opened Rooms
  import opened Planner
  import opened Protocol

  ghost predicate HasNoDeletion(labels: seq<Label>) {
    forall i :: 0 <= i < |labels| ==> labels[i] != Ask(WantDeleted)
  }

  /** Some run without a request for deletion leads from one state to the other. */
  ghost predicate Reaches(site: Site, s: State, t: State) {
    exists labels: seq<Label> :: HasNoDeletion(labels) && Run(site, s, labels) == t
  }

  lemma {:induction false} RunAppend(site: Site, s: State, labels: seq<Label>, l: Label)
    ensures Run(site, s, labels + [l]) == Next(site, Run(site, s, labels), l)
    decreases |labels|
  {
    if labels == [] {
      assert Run(site, s, labels + [l]) == Run(site, Next(site, s, l), (labels + [l])[1..]);
    } else {
      assert (labels + [l])[1..] == labels[1..] + [l];
      RunAppend(site, Next(site, s, labels[0]), labels[1..], l);
    }
  }

  lemma {:induction false} ReachesNext(site: Site, s: State, t: State, l: Label) returns (u: State)
    requires Reaches(site, s, t) && l != Ask(WantDeleted)
    ensures u == Next(site, t, l) && Reaches(site, s, u)
  {
    u := Next(site, t, l);
    var labels :| HasNoDeletion(labels) && Run(site, s, labels) == t;
    RunAppend(site, s, labels, l);
    assert HasNoDeletion(labels + [l]);
  }

  /** A new room, provisioned and wanted running, with nothing in the cluster. */
  ghost predicate IsReady(s: State) {
    && s.call == Resting && s.world.row.Some? && s.world.row.value.state.Idle?
    && s.world.row.value.desired == WantRunning && s.world.row.value.retryAfter.None?
        && s.world.row.value.specHash.None?
    && s.world.cluster == Cluster(None, None, None, 0) && s.world.reserved.None?
  }

  lemma {:induction false} ReachesItself(site: Site, s: State)
    ensures Reaches(site, s, s)
  {
    assert Run(site, s, []) == s && HasNoDeletion([]);
  }

  lemma {:induction false} NewRoomsGetReady(site: Site, s: State, a: Answers) returns (t: State)
    requires IsNewRoom(s)
    ensures Reaches(site, s, t) && IsReady(t)
  {
    ReachesItself(site, s);
    t := ReachesNext(site, s, s, Ask(WantRunning));
    t := ReachesNext(site, s, t, Plan(Reconcile, None, None));
    assert t.call == ProvisionClaim;
    t := ReachesNext(site, s, t, Do(a));
  }

  /** An idle room wanted running whose Deployment, if it has one, is not going away. */
  ghost predicate MayStart(s: State) {
    && s.call == Resting
    && s.world.row.Some? && s.world.row.value.state.Idle? && s.world.row.value.desired == WantRunning
    && (s.world.cluster.deployment.Some? ==> !s.world.cluster.deployment.value.deleting)
  }

  /** Planned to start, on the pair it holds or else a fresh one. */
  lemma {:induction false} StartRenders(site: Site, s: State, t: State, port: Port, a: Answers) returns (u: State)
    requires Reaches(site, s, t) && MayStart(t)
    requires if t.world.reserved.Some? then t.world.reserved.value == port else a.freshPort == Some(port)
    ensures Reaches(site, s, u) && u == State(t.world.(pass := t.world.pass + 1, reserved := Some(port)), Render(port))
  {
    u := ReachesNext(site, s, t, Plan(Reconcile, t.world.cluster.deployment, None));
    assert u.call == Allocate;
    u := ReachesNext(site, s, u, Do(a));
  }

  /** As far as the live read of the Deployment. */
  lemma {:induction false} StartLooks(site: Site, s: State, t: State, d: Draft, a: Answers) returns (u: State)
    requires Reaches(site, s, t) && t.call == Render(d.port) && a.rendering == Rendered(d.hash)
    ensures Reaches(site, s, u) && u == State(WithSecret(t.world, None), LookDeployment(d))
  {
    u := ReachesNext(site, s, t, Do(a));
    assert u.call == ApplySecret(d);
    u := ReachesNext(site, s, u, Do(a));
  }

  /** A first start finds no Deployment and creates one. */
  lemma {:induction false} StartCreates(site: Site, s: State, t: State, d: Draft, a: Answers) returns (u: State)
    requires Reaches(site, s, t) && t.call == LookDeployment(d)
    requires t.world.cluster.deployment.None? && t.world.cluster.service.None? && t.world.cluster.nextUid == 0
    ensures Reaches(site, s, u) && u.call == Record(d, 0) && u.world.row == t.world.row
    ensures u.world.cluster.service.None? && u.world.reserved == t.world.reserved
    ensures u.world.cluster.deployment == Some(Deployment(0, Some(d.hash), 0, false))
  {
    u := ReachesNext(site, s, t, Do(a));
    assert u.call == CreateDeployment(d);
    u := ReachesNext(site, s, u, Do(a));
  }

  /** The uid and the hash recorded, and the Secret owned. */
  lemma {:induction false} StartRecords(site: Site, s: State, t: State, d: Draft, uid: Uid,
        a: Answers) returns (u: State)
    requires Reaches(site, s, t) && t.call == Record(d, uid) && t.world.row.Some?
    ensures Reaches(site, s, u) && u.call == LookService(d, uid)
    ensures u.world.row == Some(t.world.row.value.(deploymentUid := Some(uid), specHash := Some(d.hash)))
    ensures u.world.cluster.service == t.world.cluster.service
            && u.world.cluster.deployment == t.world.cluster.deployment
    ensures u.world.reserved == t.world.reserved
  {
    u := ReachesNext(site, s, t, Do(a));
    assert u.call == OwnSecret(d, uid);
    u := ReachesNext(site, s, u, Do(a));
  }

  lemma {:induction false} StartExposes(site: Site, s: State, t: State, d: Draft, uid: Uid,
        a: Answers) returns (u: State)
    requires Reaches(site, s, t) && t.call == LookService(d, uid) && t.world.cluster.service.None?
    ensures Reaches(site, s, u) && u.call == ReadService(d, uid) && u.world.row == t.world.row
    ensures u.world.cluster.service == Some(Service(uid, d.port, Unanswered))
    ensures u.world.cluster.deployment == t.world.cluster.deployment && u.world.reserved == t.world.reserved
  {
    u := ReachesNext(site, s, t, Do(a));
    assert u.call == Expose(d, uid);
    u := ReachesNext(site, s, u, Do(a));
  }
}
