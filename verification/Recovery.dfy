/**
 Whole runs of rounds: from anything a crash can leave to a running room, which then stays up until it
 has been idle for so long that it is reaped.
 */
module Recovery {
  import opened Rooms
  import opened Planner
  import opened Protocol
  import opened Ownership
  import opened RowLaws
  import opened Convergence

  // ---------------------------------------------------------------- whole runs

  function Rounds(site: Site, spec: Port -> Hash, c: Chase, script: nat -> Turn, n: nat): Chase {
    if n == 0 then c else Round(site, spec, Rounds(site, spec, c, script, n - 1), script(n - 1))
  }

  predicate Takes(script: nat -> Turn, i: nat) {
    script(i).elapsed > 0
  }

  /** Every round takes some time. */
  ghost predicate KeepsMoving(script: nat -> Turn) {
    forall i: nat :: Takes(script, i)
  }

  predicate IsSweep(script: nat -> Turn, i: nat) {
    script(i).kind == Reconcile
  }

  /** A full pass at or after `i`. */
  ghost predicate SweepsFrom(script: nat -> Turn, i: nat) {
    exists j: nat :: j >= i && IsSweep(script, j)
  }

  /** Full passes keep coming, however many convergence passes fall between them. */
  ghost predicate KeepsSweeping(script: nat -> Turn) {
    forall i: nat :: SweepsFrom(script, i)
  }

  /** Every round takes time, and full passes keep coming. */
  ghost predicate IsEndless(script: nat -> Turn) {
    KeepsMoving(script) && KeepsSweeping(script)
  }

  /** Round `m` finds the room idle for so long that it is due to be reaped. */
  ghost predicate ReapFallsDue(site: Site, spec: Port -> Hash, c: Chase, script: nat -> Turn, m: nat) {
    ReapDue(site, Found(site, Rounds(site, spec, c, script, m), script(m)))
  }

  /** None of the first `m` rounds finds a reap due. */
  ghost predicate Unreaped(site: Site, spec: Port -> Hash, c: Chase, script: nat -> Turn, m: nat) {
    forall k: nat :: k < m ==> !ReapFallsDue(site, spec, c, script, k)
  }

  /** A chase the theorem still speaks of. */
  ghost predicate IsOnTrack(site: Site, spec: Port -> Hash, c: Chase) {
    Recoverable(site, spec, c.world) && Punctual(c)
  }

  /** Nothing is left to do for the room. */
  ghost predicate Rests(site: Site, spec: Port -> Hash, c: Chase) {
    IsOnTrack(site, spec, c) && Stage(site, spec, c.world) == 0
  }

  /** How far from up the room is after `k` rounds, and how long it still waits there. */
  function StageAfter(site: Site, spec: Port -> Hash, c: Chase, script: nat -> Turn, k: nat): nat {
    Stage(site, spec, Rounds(site, spec, c, script, k).world)
  }

  function LeftAfter(site: Site, spec: Port -> Hash, c: Chase, script: nat -> Turn, k: nat): nat {
    Left(site, spec, Rounds(site, spec, c, script, k))
  }

  /** Up stays up, and otherwise closer unless a convergence pass leaves it as far. */
  predicate IsCloser(stage: nat, left: nat, stage': nat, left': nat, swept: bool) {
    if stage == 0 then stage' == 0
    else stage' < stage || (stage' == stage && (left' < left || (!swept && left' == left)))
  }

  lemma {:induction false} RoundIsCloser(site: Site, spec: Port -> Hash, c: Chase, script: nat -> Turn, k: nat)
    requires IsOnTrack(site, spec, Rounds(site, spec, c, script, k)) && KeepsMoving(script)
    requires !ReapFallsDue(site, spec, c, script, k)
    ensures IsOnTrack(site, spec, Rounds(site, spec, c, script, k + 1))
    ensures IsCloser(StageAfter(site, spec, c, script, k), LeftAfter(site, spec, c, script, k),
                     StageAfter(site, spec, c, script, k + 1), LeftAfter(site, spec, c, script, k + 1),
                     IsSweep(script, k))
  {
    assert Takes(script, k);
    RoundLowers(site, spec, Rounds(site, spec, c, script, k), script(k));
  }

  /** The full pass being waited for, or the next one if this is it. */
  lemma {:induction false} NextSweep(script: nat -> Turn, k: nat, full: nat) returns (later: nat)
    requires KeepsSweeping(script) && full >= k && IsSweep(script, full)
    ensures later >= k + 1 && IsSweep(script, later) && (full > k ==> later == full)
  {
    if full > k {
      later := full;
    } else {
      assert SweepsFrom(script, k + 1);
      later :| later >= k + 1 && IsSweep(script, later);
    }
  }

  /** Step `j` keeps what holds and lowers the rank, if nothing stops it. */
  ghost predicate StepsDown(holds: nat -> bool, stage: nat -> nat, left: nat -> nat, stopped: nat -> bool,
        script: nat -> Turn, j: nat) {
    holds(j) && !stopped(j) ==>
      holds(j + 1) && IsCloser(stage(j), left(j), stage(j + 1), left(j + 1), IsSweep(script, j))
  }

  /** A rank that every step lowers, but for those between sweeps, comes to its end unless something stops it first. */
  lemma {:induction false} Descends(holds: nat -> bool, stage: nat -> nat, left: nat -> nat, stopped: nat -> bool,
        script: nat -> Turn, k: nat, full: nat)
    returns (n: nat)
    requires forall j: nat :: StepsDown(holds, stage, left, stopped, script, j)
    requires holds(k) && (forall j: nat :: j < k ==> !stopped(j))
    requires KeepsSweeping(script) && full >= k && IsSweep(script, full)
    ensures holds(n) && (forall j: nat :: j < n ==> !stopped(j)) && (stopped(n) || stage(n) == 0)
    decreases stage(k), left(k), full - k
  {
    n := k;
    if stage(k) != 0 && !stopped(k) {
      assert StepsDown(holds, stage, left, stopped, script, k);
      var later := NextSweep(script, k, full);
      n := Descends(holds, stage, left, stopped, script, k + 1, later);
    }
  }

  /** The rounds of a chase are such steps. */
  lemma {:induction false} RoundsStepDown(site: Site, spec: Port -> Hash, c: Chase, script: nat -> Turn)
    returns (holds: nat -> bool, stage: nat -> nat, left: nat -> nat, stopped: nat -> bool)
    requires IsOnTrack(site, spec, c) && KeepsMoving(script)
    ensures holds(0) && forall j: nat :: StepsDown(holds, stage, left, stopped, script, j)
    ensures forall j: nat :: stopped(j) <==> ReapFallsDue(site, spec, c, script, j)
    ensures forall j: nat :: holds(j) && stage(j) == 0 ==> Rests(site, spec, Rounds(site, spec, c, script, j))
  {
    holds := (k: nat) => IsOnTrack(site, spec, Rounds(site, spec, c, script, k));
    stage := (k: nat) => StageAfter(site, spec, c, script, k);
    left := (k: nat) => LeftAfter(site, spec, c, script, k);
    stopped := (k: nat) => ReapFallsDue(site, spec, c, script, k);
    forall j: nat ensures StepsDown(holds, stage, left, stopped, script, j) {
      if holds(j) && !stopped(j) { RoundIsCloser(site, spec, c, script, j); }
    }
  }

  /** A round `n` that is the first to find a reap due, or after which nothing is left to do. */
  lemma {:induction false} ComesToRest(site: Site, spec: Port -> Hash, c: Chase, script: nat -> Turn, full: nat)
    returns (n: nat)
    requires IsOnTrack(site, spec, c) && IsEndless(script) && IsSweep(script, full)
    ensures Unreaped(site, spec, c, script, n)
    ensures ReapFallsDue(site, spec, c, script, n) || Rests(site, spec, Rounds(site, spec, c, script, n))
  {
    var holds, stage, left, stopped := RoundsStepDown(site, spec, c, script);
    n := Descends(holds, stage, left, stopped, script, 0, full);
    forall j: nat | j < n ensures !ReapFallsDue(site, spec, c, script, j) {
      assert !stopped(j);
    }
  }

  lemma {:induction false} StillRests(site: Site, spec: Port -> Hash, c: Chase, script: nat -> Turn, k: nat)
    requires Rests(site, spec, Rounds(site, spec, c, script, k)) && KeepsMoving(script)
    requires !ReapFallsDue(site, spec, c, script, k)
    ensures Rests(site, spec, Rounds(site, spec, c, script, k + 1))
  {
    RoundIsCloser(site, spec, c, script, k);
  }

  /** What every step keeps until something stops it holds at `m` if it held at `n` and nothing has by then. */
  lemma {:induction false} Persists(holds: nat -> bool, stopped: nat -> bool, n: nat, m: nat)
    requires n <= m && holds(n)
    requires forall k: nat :: k < m ==> !stopped(k)
    requires forall k: nat :: holds(k) && !stopped(k) ==> holds(k + 1)
    ensures holds(m)
    decreases m - n
  {
    if n < m {
      assert !stopped(n) && holds(n + 1);
      Persists(holds, stopped, n + 1, m);
    }
  }

  /** Up after round `n`, a room is up after a later round `m` if no round before it finds a reap due. */
  lemma {:induction false} StaysUp(site: Site, spec: Port -> Hash, c: Chase, script: nat -> Turn, n: nat, m: nat)
    requires Rests(site, spec, Rounds(site, spec, c, script, n)) && KeepsMoving(script)
    requires n <= m && Unreaped(site, spec, c, script, m)
    ensures Rests(site, spec, Rounds(site, spec, c, script, m))
  {
    var holds := (k: nat) => Rests(site, spec, Rounds(site, spec, c, script, k));
    var stopped := (k: nat) => ReapFallsDue(site, spec, c, script, k);
    forall k: nat | holds(k) && !stopped(k) ensures holds(k + 1) {
      StillRests(site, spec, c, script, k);
    }
    Persists(holds, stopped, n, m);
  }

  lemma {:induction false} RestingIsUp(site: Site, spec: Port -> Hash, c: Chase)
    requires Rests(site, spec, c)
    ensures IsUp(c.world)
  {
  }

  /** Up after `m` rounds, unless one of them found a reap due. */
  ghost predicate UpAt(site: Site, spec: Port -> Hash, c: Chase, script: nat -> Turn, m: nat) {
    Unreaped(site, spec, c, script, m) ==> IsUp(Rounds(site, spec, c, script, m).world)
  }

  /** Up after `n` rounds and after any larger number of them, until one finds a reap due. */
  ghost predicate UpAfter(site: Site, spec: Port -> Hash, c: Chase, script: nat -> Turn, n: nat) {
    forall m: nat :: m >= n ==> UpAt(site, spec, c, script, m)
  }

  /** Up after `n` rounds, and from then on until a reap falls due; or round `n` is the first to find one due. */
  ghost predicate Arrives(site: Site, spec: Port -> Hash, c: Chase, script: nat -> Turn, n: nat) {
    && Unreaped(site, spec, c, script, n)
    && (ReapFallsDue(site, spec, c, script, n)
        || (IsUp(Rounds(site, spec, c, script, n).world) && UpAfter(site, spec, c, script, n)))
  }

  /**
   Wherever a crash left it, a room wanted running comes up after some number of rounds, whatever the
   kinds of pass, the times between them and the waits the environment chooses; or, before that, a round
   finds it running and due to be reaped. Nothing is asked of the reaper's timeout or of a pin.
   */
  lemma {:induction false} ComesUp(site: Site, spec: Port -> Hash, c: Chase, script: nat -> Turn) returns (n: nat)
    requires Recoverable(site, spec, c.world) && Punctual(c)
    requires IsEndless(script)
    ensures Arrives(site, spec, c, script, n)
  {
    assert SweepsFrom(script, 0);
    var full: nat :| IsSweep(script, full);
    n := ComesToRest(site, spec, c, script, full);
    if !ReapFallsDue(site, spec, c, script, n) {
      UpFrom(site, spec, c, script, n);
    }
  }

  lemma {:induction false} UpFrom(site: Site, spec: Port -> Hash, c: Chase, script: nat -> Turn, n: nat)
    requires Rests(site, spec, Rounds(site, spec, c, script, n)) && KeepsMoving(script)
    ensures IsUp(Rounds(site, spec, c, script, n).world) && UpAfter(site, spec, c, script, n)
  {
    RestingIsUp(site, spec, Rounds(site, spec, c, script, n));
    forall m: nat | m >= n ensures UpAt(site, spec, c, script, m) {
      if Unreaped(site, spec, c, script, m) {
        StaysUp(site, spec, c, script, n, m);
        RestingIsUp(site, spec, Rounds(site, spec, c, script, m));
      }
    }
  }

  /** No round ever finds a reap due. */
  ghost predicate NeverReaped(site: Site, spec: Port -> Hash, c: Chase, script: nat -> Turn) {
    forall m: nat :: !ReapFallsDue(site, spec, c, script, m)
  }

  /** A room that no round finds due to be reaped comes up, and is up after every later round. */
  lemma {:induction false} StaysUpUnreaped(site: Site, spec: Port -> Hash, c: Chase,
        script: nat -> Turn) returns (n: nat)
    requires Recoverable(site, spec, c.world) && Punctual(c)
    requires IsEndless(script) && NeverReaped(site, spec, c, script)
    ensures forall m: nat :: m >= n ==> IsUp(Rounds(site, spec, c, script, m).world)
  {
    n := ComesUp(site, spec, c, script);
    forall m: nat | m >= n ensures IsUp(Rounds(site, spec, c, script, m).world) {
      assert UpAt(site, spec, c, script, m);
    }
  }

  /** A full pass that finds a reap due asks the room to stop; a convergence pass leaves it as it is. */
  lemma {:induction false} DueIsReaped(site: Site, spec: Port -> Hash, w: World, kind: TickKind, a: Answers)
    requires ReapDue(site, w)
    ensures var w' := Decide(site, spec, w, kind, a);
            && w'.cluster == w.cluster && w'.row.Some?
            && w'.row.value == if kind == Reconcile then w.row.value.(desired := WantStopped) else w.row.value
    ensures w.row.value.state == Running && w.cluster.deployment.Some? && !w.row.value.pinned && site.idleTimeout > 0
  {
    var step := StepFor(View(w.row.value, w.now, Wanted(spec, w, kind)), w.cluster.deployment, w.now, site.idleTimeout);
    assert step == Some(Reap);
    if kind == Reconcile {
      FinishOne(site, State(w, ReapMark(w.now)), a);
    }
  }

  /** A failed room that nothing will retry, as long as its spec renders the same. */
  predicate IsGivenUp(spec: Port -> Hash, w: World) {
    && w.row.Some? && w.row.value.state == Failed && w.row.value.desired == WantRunning
    && !WillRetry(spec, w.row.value, w.reserved)
  }

  lemma {:induction false} FoundIsGivenUp(site: Site, spec: Port -> Hash, c: Chase, t: Turn)
    requires IsGivenUp(spec, c.world)
    ensures IsGivenUp(spec, Found(site, c, t))
  {
    var w, u := c.world.(now := c.world.now + t.elapsed), Later(site, c, t.elapsed);
    assert u.row == w.row && u.reserved == w.reserved;
  }

  lemma {:induction false} PassesGiveUp(site: Site, spec: Port -> Hash, w: World, kind: TickKind, a: Answers)
    requires IsGivenUp(spec, w)
    ensures IsGivenUp(spec, Pass(site, spec, w, kind, a))
  {
    var u := Begun(w);
    var room := View(u.row.value, u.now, Wanted(spec, u, kind));
    assert StepFor(room, u.cluster.deployment, u.now, site.idleTimeout) == None;
    assert Pass(site, spec, w, kind, a) == u;
  }

  lemma {:induction false} RoundsGiveUp(site: Site, spec: Port -> Hash, c: Chase, t: Turn)
    requires IsGivenUp(spec, c.world)
    ensures IsGivenUp(spec, Round(site, spec, c, t).world)
  {
    FoundIsGivenUp(site, spec, c, t);
    var w := Found(site, c, t);
    PassesGiveUp(site, spec, w, t.kind, Replies(spec, w, t));
  }

  /** So what is asked of a failed room is exactly what it needs: without it no number of rounds moves it. */
  lemma {:induction false} GivenUpStaysFailed(site: Site, spec: Port -> Hash, c: Chase, script: nat -> Turn, n: nat)
    requires IsGivenUp(spec, c.world)
    ensures IsGivenUp(spec, Rounds(site, spec, c, script, n).world)
  {
    var holds := (k: nat) => IsGivenUp(spec, Rounds(site, spec, c, script, k).world);
    forall k: nat | holds(k) ensures holds(k + 1) {
      RoundsGiveUp(site, spec, Rounds(site, spec, c, script, k), script(k));
    }
    Persists(holds, (k: nat) => false, 0, n);
  }

  // ---------------------------------------------------------------- what a crash can leave

  /** The states a room can come up from, said of its row and its pair alone. */
  predicate HasAWayForward(spec: Port -> Hash, r: Row, reserved: Option<Port>) {
    && r.desired == WantRunning && !r.state.Deleting? && !r.state.IntegrityFault?
    && (r.state.Failed? ==> WillRetry(spec, r, reserved))
  }

  /** Where a run cut short by the process dying leaves the room. */
  function CutShort(site: Site, s: State, labels: seq<Label>): World {
    Next(site, Run(site, s, labels), Interrupt).world
  }

  /** Whatever a run did and wherever a crash then cut it short, such a row is one the room comes up from. */
  lemma {:induction false} CrashesLeaveRecoverable(site: Site, spec: Port -> Hash, s: State, labels: seq<Label>)
    requires IsNewRoom(s)
    ensures var w := CutShort(site, s, labels);
            w.row.Some? && HasAWayForward(spec, w.row.value, w.reserved) ==> Recoverable(site, spec, w)
  {
    RunsKeepOwned(site, s, labels);
    RunsKeepLawful(site, s, labels);
    RunsKeepStopsDrain(site, s, labels);
  }

  /** From a new room, through any run and any crash, to a running room or one due to be reaped. */
  lemma {:induction false} RoomsRecover(site: Site, spec: Port -> Hash, s: State, labels: seq<Label>, c: Chase,
        script: nat -> Turn)
    returns (n: nat)
    requires IsNewRoom(s) && c.world == CutShort(site, s, labels)
    requires c.world.row.Some? && HasAWayForward(spec, c.world.row.value, c.world.reserved) && Punctual(c)
    requires IsEndless(script)
    ensures Arrives(site, spec, c, script, n)
  {
    CrashesLeaveRecoverable(site, spec, s, labels);
    n := ComesUp(site, spec, c, script);
  }
}
