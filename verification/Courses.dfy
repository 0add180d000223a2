/**
 A step as a course: the worlds it passes through, call by call, and where it ends. Every world on a
 course is one a run of the protocol reaches, so what runs keep holds wherever a step is cut short.
 */
module Courses {
  import opened Rooms
  import opened Protocol
  import opened Ownership
  import opened RowLaws
  import opened Convergence
  import opened Backoff

  /** The worlds a step passes through, call by call, if nothing interrupts it. */
  ghost function PathOf(site: Site, s: State, a: Answers): seq<World>
    decreases Remaining(s.call)
  {
    if s.call == Resting then []
    else
      var t := Perform(site, s, a);
      [t.world] + PathOf(site, t, a)
  }

  /** A step under way: the worlds behind it and those still to come, and where it will end. */
  datatype Course = Course(worlds: seq<World>, end: State)

  ghost function CourseOf(site: Site, path: seq<World>, s: State, a: Answers): Course {
    Course(path + PathOf(site, s, a), Finish(site, s, a))
  }

  /** Making the call that comes next keeps a step on its course. */
  lemma {:induction false} StaysOnCourse(site: Site, path: seq<World>, s: State, t: State, a: Answers)
    requires s.call != Resting && Perform(site, s, a) == t
    ensures CourseOf(site, path + [t.world], t, a) == CourseOf(site, path, s, a)
  {
    assert path + [t.world] + PathOf(site, t, a) == path + ([t.world] + PathOf(site, t, a));
  }

  lemma {:induction false} PathsAreRuns(site: Site, s: State, a: Answers, i: nat)
    requires i < |PathOf(site, s, a)|
    ensures PathOf(site, s, a)[i] == Run(site, s, Repeat(Do(a), i + 1)).world
    decreases i
  {
    var t := Perform(site, s, a);
    assert Repeat(Do(a), i + 1)[1..] == Repeat(Do(a), i);
    if i > 0 {
      PathsAreRuns(site, t, a, i - 1);
    }
  }

  /** What the protocol's invariants say of a world, whatever call is next. */
  ghost predicate IsSoundWorld(site: Site, w: World) {
    && ServiceIsOwned(w) && RecordedFirst(w.trail)
    && AdvertisesTruly(site, w) && (w.row.Some? ==> RowFits(w.row.value))
  }

  /** Wherever along a step the process dies, the world it leaves is one the protocol's invariants hold of. */
  lemma {:induction false} EveryCrashPointIsSound(site: Site, s: State, a: Answers, i: nat)
    requires Owned(site, s) && Lawful(site, s) && i < |PathOf(site, s, a)|
    ensures IsSoundWorld(site, PathOf(site, s, a)[i])
  {
    PathsAreRuns(site, s, a, i);
    RunsKeepOwned(site, s, Repeat(Do(a), i + 1));
    RunsKeepLawful(site, s, Repeat(Do(a), i + 1));
  }

  lemma {:induction false} StepsEndSoundly(site: Site, s: State, a: Answers)
    requires Owned(site, s) && Lawful(site, s)
    ensures Owned(site, Finish(site, s, a)) && Lawful(site, Finish(site, s, a)) && Finish(site, s, a).call == Resting
  {
    FinishIsARun(site, s, a, Remaining(s.call));
    RunsKeepOwned(site, s, Repeat(Do(a), Remaining(s.call)));
    RunsKeepLawful(site, s, Repeat(Do(a), Remaining(s.call)));
  }

  /** A fatal cluster error met after `n` calls turns the step into a failure, whose own worlds are sound as well. */
  lemma {:induction false} EveryFatalExitIsSound(site: Site, s: State, a: Answers, n: nat, i: nat)
    requires Owned(site, s) && Lawful(site, s)
    requires var t := Run(site, s, Repeat(Do(a), n));
             MayFailFatally(t.call) && i < |PathOf(site, State(t.world, FailDelete), a)|
    ensures var t := Run(site, s, Repeat(Do(a), n));
            IsSoundWorld(site, PathOf(site, State(t.world, FailDelete), a)[i])
  {
    var t := Run(site, s, Repeat(Do(a), n));
    RunsKeepOwned(site, s, Repeat(Do(a), n));
    RunsKeepLawful(site, s, Repeat(Do(a), n));
    NextKeepsOwned(site, t, FatalError);
    NextKeepsLawful(site, t, FatalError);
    EveryCrashPointIsSound(site, State(t.world, FailDelete), a, i);
  }

  /** A failure carried out: one more is on the row, with the time its count gives. */
  ghost predicate IsFailedOnce(site: Site, w: World, t: World) {
    && w.row.Some? && t.row.Some?
    && var r, r' := w.row.value, t.row.value;
       && r'.state == Failed && r'.stateChangedAt == w.now && r'.failureCount == r.failureCount + 1
       && r'.retryAfter == Some(w.now + RetryDelay(r.failureCount + 1, site.lastByte))
       && r'.advertised.None? && r'.specHash == r.specHash && r'.deploymentUid == r.deploymentUid
       && t.reserved == w.reserved
  }

  lemma {:induction false} FailuresAreCarriedOut(site: Site, w: World, a: Answers)
    requires w.row.Some?
    ensures IsFailedOnce(site, w, Finish(site, State(w, FailDelete), a).world)
  {
    var s1 := Perform(site, State(w, FailDelete), a);
    var s2 := Perform(site, s1, a);
    assert s1.call == FailRecord && s1.world.row == w.row && s1.world.now == w.now && s1.world.reserved == w.reserved;
    assert s2.call == FailSchedule(w.row.value.failureCount + 1);
    assert Finish(site, State(w, FailDelete), a) == Finish(site, s1, a) == Finish(site, s2, a);
    FinishOne(site, s2, a);
  }

  /**
   Which calls of a start a fatal error ends, and how: all but the rendering, the two statements on the row and the
   quarantine; and then the room is failed once more, with a time to retry at.
   */
  lemma {:induction false} FatalErrorsFail(site: Site, s: State, a: Answers)
    requires s.world.row.Some? && IsStartCall(s.call)
    ensures if s.call.Render? || s.call.Record? || s.call.QuarantinePair? || s.call.Advertise?
            then Next(site, s, FatalError) == s
            else IsFailedOnce(site, s.world, Finish(site, Next(site, s, FatalError), a).world)
  {
    FailuresAreCarriedOut(site, s.world, a);
  }
}
