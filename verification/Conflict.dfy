/**
 What a start does once creating its Deployment has conflicted: it adopts whatever it re-reads. Exactly when that
 ends with a room advertised on the wrong object, and a run of two orchestrators that gets there.
 */
module Conflict {
  import opened Rooms
  import opened Planner
  import opened Protocol
  import opened Reaching
  import C = Convergence

  /** Advertised as starting on a Deployment that is going away or carries another hash than the one rendered. */
  predicate IsMisled(w: World, d: Draft) {
    && w.row.Some? && w.row.value.state == Starting && w.row.value.advertised == Some(d.port)
    && w.cluster.deployment.Some?
    && (w.cluster.deployment.value.deleting || w.cluster.deployment.value.specHash != Some(d.hash))
  }

  predicate AnswersOn(w: World, ip: Ip) {
    w.cluster.service.Some? && w.cluster.service.value.address == Assigned(ip)
  }

  /** The re-read object's uid recorded, whatever the object. */
  lemma {:induction false} RereadIsRecorded(site: Site, w: World, d: Draft, a: Answers) returns (v: World)
    requires w.row.Some? && w.cluster.deployment.Some?
    ensures C.Finish(site, State(w, RereadDeployment(d)), a)
            == C.Finish(site, State(v, LookService(d, w.cluster.deployment.value.uid)), a)
    ensures v.row.Some? && v.row.value.state == w.row.value.state && v.row.value.desired == w.row.value.desired
    ensures v.cluster.deployment == w.cluster.deployment
    ensures v.cluster.service == w.cluster.service
  {
    var uid := w.cluster.deployment.value.uid;
    assert Perform(site, State(w, RereadDeployment(d)), a) == State(w, Record(d, uid));
    v := C.StartRecords(site, w, d, uid, a);
  }

  lemma {:induction false} RecordedFailuresFail(site: Site, w: World, a: Answers)
    requires w.row.Some?
    ensures var t := C.Finish(site, State(w, FailRecord), a).world; t.row.Some? && t.row.value.state == Failed
  {
    var s1 := Perform(site, State(w, FailRecord), a);
    assert s1.call.FailSchedule? && s1.world.row.Some? && s1.world.row.value.state == Failed;
    C.FinishOne(site, s1, a);
  }

  /** A failure ends in the failed state, whether or not its delete is lost. */
  lemma {:induction false} FailuresFail(site: Site, w: World, a: Answers)
    requires w.row.Some?
    ensures var t := C.Finish(site, State(w, FailDelete), a).world; t.row.Some? && t.row.value.state == Failed
  {
    var s1 := Perform(site, State(w, FailDelete), a);
    assert s1.call == FailRecord && s1.world.row == w.row;
    RecordedFailuresFail(site, s1.world, a);
  }

  lemma {:induction false} RefusalsFail(site: Site, w: World, d: Draft, uid: Uid, a: Answers)
    requires w.row.Some? && w.cluster.service.Some? && w.cluster.service.value.address.Refused?
    ensures var t := C.Finish(site, State(w, LookService(d, uid)), a).world; t.row.Some? && t.row.value.state == Failed
  {
    var s1 := Perform(site, State(w, LookService(d, uid)), a);
    var s2 := Perform(site, s1, a);
    assert s1.call.Withdraw?;
    assert C.Finish(site, State(w, LookService(d, uid)), a) == C.Finish(site, s1, a) == C.Finish(site, s2, a);
    if s2.call.QuarantinePair? {
      var s3 := Perform(site, s2, a);
      assert s3.call == FailDelete && C.Finish(site, s2, a) == C.Finish(site, s3, a);
      FailuresFail(site, s3.world, a);
    } else {
      FailuresFail(site, s2.world, a);
    }
  }

  /** From its Service on, a start comes to advertise exactly when the address is the configured one. */
  lemma {:induction false} AdvertisesIffAnswers(site: Site, w: World, d: Draft, uid: Uid, a: Answers)
    requires w.row.Some? && w.row.value.state == Idle
    ensures var t := C.Finish(site, State(w, LookService(d, uid)), a).world;
            && t.row.Some? && (t.row.value.state == Starting <==> AnswersOn(w, site.lbIp))
            && (AnswersOn(w, site.lbIp) ==> t.cluster == w.cluster && t.row.value.advertised == Some(d.port)
                                            && t.row.value.desired == w.row.value.desired)
  {
    if w.cluster.service.None? {
      C.StartExposes(site, w, d, uid, a);
    } else if AnswersOn(w, site.lbIp) {
      C.StartAdvertises(site, w, d, uid, a);
    } else if w.cluster.service.value.address.Refused? {
      RefusalsFail(site, w, d, uid, a);
    } else if w.cluster.service.value.address.Assigned? {
      C.StartWithdraws(site, w, d, uid, a);
    } else {
      assert C.Finish(site, State(w, LookService(d, uid)), a) == State(w, Resting);
    }
  }

  /**
   After a conflict the start runs to its end on whatever object it re-read: it leaves the room advertised on a
   Deployment that is going away or off the rendered hash if and only if the object re-read was, and its
   Service answers on the configured address. Nothing on the way looks at the object again.
   */
  lemma {:induction false} AdoptionMisleadsIff(site: Site, w: World, d: Draft, a: Answers)
    requires w.row.Some? && w.row.value.state == Idle && w.cluster.deployment.Some?
    ensures var existing := w.cluster.deployment.value;
            IsMisled(C.Finish(site, State(w, RereadDeployment(d)), a).world, d)
            <==> (existing.deleting || existing.specHash != Some(d.hash)) && AnswersOn(w, site.lbIp)
  {
    var v := RereadIsRecorded(site, w, d, a);
    AdvertisesIffAnswers(site, v, d, w.cluster.deployment.value.uid, a);
  }

  // ---------------------------------------------------------------- two orchestrators on one room

  /** One world and two orchestrators, each with the call it is about to make. */
  datatype Duo = Duo(world: World, first: Call, second: Call)

  datatype Actor = First | Second

  datatype Move = Move(who: Actor, act: Label)

  function SeenBy(p: Duo, who: Actor): State {
    State(p.world, if who.First? then p.first else p.second)
  }

  function LeftBy(p: Duo, who: Actor, s: State): Duo {
    if who.First? then Duo(s.world, s.call, p.second) else Duo(s.world, p.first, s.call)
  }

  function MoveOn(site: Site, p: Duo, m: Move): Duo {
    LeftBy(p, m.who, Next(site, SeenBy(p, m.who), m.act))
  }

  function RunDuo(site: Site, p: Duo, moves: seq<Move>): Duo
    decreases |moves|
  {
    if moves == [] then p else RunDuo(site, MoveOn(site, p, moves[0]), moves[1..])
  }

  lemma {:induction false} RunDuoConcat(site: Site, p: Duo, first: seq<Move>, second: seq<Move>)
    ensures RunDuo(site, p, first + second) == RunDuo(site, RunDuo(site, p, first), second)
    decreases |first|
  {
    if first == [] {
      assert first + second == second;
    } else {
      assert (first + second)[1..] == first[1..] + second;
      RunDuoConcat(site, MoveOn(site, p, first[0]), first[1..], second);
    }
  }

  /** A run of one of them, with the other standing still. */
  lemma {:induction false} RunOfOne(site: Site, p: Duo, who: Actor, labels: seq<Label>) returns (moves: seq<Move>)
    ensures RunDuo(site, p, moves) == LeftBy(p, who, Run(site, SeenBy(p, who), labels))
    decreases |labels|
  {
    if labels == [] {
      moves := [];
    } else {
      var next := MoveOn(site, p, Move(who, labels[0]));
      var rest := RunOfOne(site, next, who, labels[1..]);
      moves := [Move(who, labels[0])] + rest;
      assert moves[1..] == rest;
    }
  }

  ghost predicate DuoReaches(site: Site, p: Duo, q: Duo) {
    exists moves: seq<Move> :: RunDuo(site, p, moves) == q
  }

  /** One of the two goes on by itself. */
  lemma {:induction false} OneGoesOn(site: Site, start: Duo, p: Duo, who: Actor, t: State) returns (q: Duo)
    requires DuoReaches(site, start, p) && Reaches(site, SeenBy(p, who), t)
    ensures q == LeftBy(p, who, t) && DuoReaches(site, start, q)
  {
    q := LeftBy(p, who, t);
    var before :| RunDuo(site, start, before) == p;
    var labels :| HasNoDeletion(labels) && Run(site, SeenBy(p, who), labels) == t;
    var moves := RunOfOne(site, p, who, labels);
    RunDuoConcat(site, start, before, moves);
  }

  /** The first is about to create a Deployment it has seen is not there. */
  ghost predicate IsAboutToCreate(p: Duo, d: Draft) {
    && p.first == CreateDeployment(d) && p.second == Resting
    && p.world.row.Some? && p.world.row.value.state.Idle? && p.world.row.value.desired == WantRunning
    && p.world.cluster.deployment.None? && p.world.cluster.service.None? && p.world.reserved == Some(d.port)
  }

  lemma {:induction false} NewRoomIsAboutToCreate(site: Site, s: State, d: Draft, a: Answers) returns (t: State)
    requires IsNewRoom(s) && a.freshPort == Some(d.port) && a.rendering == Rendered(d.hash)
    ensures Reaches(site, s, t) && IsAboutToCreate(Duo(t.world, t.call, Resting), d)
  {
    t := NewRoomsGetReady(site, s, a);
    t := StartRenders(site, s, t, d.port, a);
    t := StartLooks(site, s, t, d, a);
    t := ReachesNext(site, s, t, Do(a));
  }

  lemma {:induction false} FirstIsAboutToCreate(site: Site, s: State, d: Draft, a: Answers) returns (p: Duo)
    requires IsNewRoom(s) && a.freshPort == Some(d.port) && a.rendering == Rendered(d.hash)
    ensures DuoReaches(site, Duo(s.world, Resting, Resting), p) && IsAboutToCreate(p, d)
  {
    var start := Duo(s.world, Resting, Resting);
    assert RunDuo(site, start, []) == start;
    var t := NewRoomIsAboutToCreate(site, s, d, a);
    p := OneGoesOn(site, start, start, First, t);
  }

  /** The second has started the room and its Service has its address; then its spec comes to render differently. */
  ghost predicate IsStarted(s: State, ip: Ip, d: Draft) {
    && s.call == Resting && s.world.row.Some? && s.world.row.value.state.Idle?
        && s.world.row.value.desired == WantRunning
    && s.world.cluster.deployment.Some? && !s.world.cluster.deployment.value.deleting
    && s.world.cluster.deployment.value.specHash == Some(d.hash)
    && AnswersOn(s.world, ip) && s.world.reserved == Some(d.port)
  }

  lemma {:induction false} SecondCreates(site: Site, s: State, d: Draft, a: Answers) returns (t: State, uid: Uid)
    requires s.call == Resting && s.world.row.Some? && s.world.row.value.state.Idle?
             && s.world.row.value.desired == WantRunning
    requires s.world.cluster.deployment.None? && s.world.cluster.service.None? && s.world.reserved == Some(d.port)
    requires a.rendering == Rendered(d.hash)
    ensures Reaches(site, s, t) && t.call == Record(d, uid) && t.world.row == s.world.row
            && t.world.reserved == Some(d.port)
    ensures t.world.cluster.deployment == Some(Deployment(uid, Some(d.hash), 0, false)) && t.world.cluster.service.None?
  {
    ReachesItself(site, s);
    t := StartRenders(site, s, s, d.port, a);
    t := StartLooks(site, s, t, d, a);
    t := ReachesNext(site, s, t, Do(a));
    assert t.call == CreateDeployment(d);
    uid := t.world.cluster.nextUid;
    t := ReachesNext(site, s, t, Do(a));
  }

  lemma {:induction false} SecondStarts(site: Site, s: State, d: Draft, a: Answers) returns (t: State)
    requires s.call == Resting && s.world.row.Some? && s.world.row.value.state.Idle?
             && s.world.row.value.desired == WantRunning
    requires s.world.cluster.deployment.None? && s.world.cluster.service.None? && s.world.reserved == Some(d.port)
    requires a.rendering == Rendered(d.hash)
    ensures Reaches(site, s, t) && IsStarted(t, site.lbIp, d)
  {
    var uid;
    t, uid := SecondCreates(site, s, d, a);
    t := StartRecords(site, s, t, d, uid, a);
    t := StartExposes(site, s, t, d, uid, a);
    t := ReachesNext(site, s, t, Do(a));
    assert t.call == Resting;
    t := ReachesNext(site, s, t, Answer(Assigned(site.lbIp)));
  }

  /** A start whose spec renders differently deletes the Deployment it finds. */
  lemma {:induction false} SecondReplaces(site: Site, s: State, t: State, d: Draft, other: Draft,
        a: Answers) returns (u: State)
    requires Reaches(site, s, t) && IsStarted(t, site.lbIp, d)
    requires other.port == d.port && other.hash != d.hash && a.rendering == Rendered(other.hash)
    ensures Reaches(site, s, u) && u.call == Resting && AnswersOn(u.world, site.lbIp)
    ensures u.world.row.Some? && u.world.row.value.state.Idle? && u.world.row.value.desired == WantRunning
    ensures u.world.cluster.deployment.Some? && u.world.cluster.deployment.value.deleting
  {
    u := StartRenders(site, s, t, d.port, a);
    u := StartLooks(site, s, u, other, a);
    u := ReachesNext(site, s, u, Do(a));
    assert u.call == Replace(other);
    u := ReachesNext(site, s, u, Do(a));
    assert u.call == Forget(None);
    u := ReachesNext(site, s, u, Do(a));
  }

  lemma {:induction false} FinishIsReached(site: Site, s: State, a: Answers) returns (t: State)
    ensures t == C.Finish(site, s, a) && t.call == Resting && Reaches(site, s, t)
  {
    t := C.Finish(site, s, a);
    C.FinishIsARun(site, s, a, C.Remaining(s.call));
    DoesNotDelete(Do(a), C.Remaining(s.call));
  }

  /** The first meets the conflict and runs to its end. */
  lemma {:induction false} FirstAdopts(site: Site, w: World, d: Draft, a: Answers) returns (t: State)
    requires w.row.Some? && w.row.value.state == Idle && w.row.value.desired == WantRunning
    requires w.cluster.deployment.Some? && w.cluster.deployment.value.deleting && AnswersOn(w, site.lbIp)
    ensures Reaches(site, State(w, CreateDeployment(d)), t) && t.call == Resting
    ensures IsMisled(t.world, d) && t.world.cluster.deployment.value.deleting
            && t.world.row.value.desired == WantRunning
  {
    var s := State(w, CreateDeployment(d));
    t := FinishIsReached(site, s, a);
    assert Perform(site, s, a) == State(w, RereadDeployment(d));
    AdoptionMisleadsIff(site, w, d, a);
    var v := RereadIsRecorded(site, w, d, a);
    AdvertisesIffAnswers(site, v, d, w.cluster.deployment.value.uid, a);
  }

  lemma {:induction false} DoesNotDelete(l: Label, n: nat)
    requires l.Do?
    ensures HasNoDeletion(C.Repeat(l, n))
  {
    if n > 0 { DoesNotDelete(l, n - 1); }
  }

  /**
   Two orchestrators on a room that is wanted running throughout: the first sees no Deployment; the second creates
   one, exposes it and, its spec having changed, deletes it again; the first's create conflicts. The room ends
   advertised on a Deployment that is going away.
   */
  lemma {:induction false} ConflictCanAdoptTheDying(site: Site, s: State, d: Draft) returns (q: Duo)
    requires IsNewRoom(s)
    ensures DuoReaches(site, Duo(s.world, Resting, Resting), q) && q.first == Resting && q.second == Resting
    ensures IsMisled(q.world, d) && q.world.cluster.deployment.value.deleting
            && q.world.row.value.desired == WantRunning
  {
    var start := Duo(s.world, Resting, Resting);
    var a := Answers(Some(d.port), Rendered(d.hash), false);
    var p := FirstIsAboutToCreate(site, s, d, a);
    var t := SecondStarts(site, SeenBy(p, Second), d, a);
    var other := Draft(d.port, d.hash + 1);
    t := SecondReplaces(site, SeenBy(p, Second), t, d, other, a.(rendering := Rendered(other.hash)));
    var r := OneGoesOn(site, start, p, Second, t);
    var u := FirstAdopts(site, r.world, d, a);
    q := OneGoesOn(site, start, r, First, u);
  }
}
