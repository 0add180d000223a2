/**
 The pace of the loop: full passes on an interval, short convergence passes in between, and wakes
 whenever somebody writes something.

 Times are milliseconds. What the world decides is a script: how long each pass takes, whether it
 succeeds and wants another look, when a wake arrives while the loop sleeps, and whether the wake or the
 deadline is taken when both are ready at once.
 */
module Cadence {
  import opened Rooms
  import opened Planner
  import opened PlannerProperties

  const NOTIFY_DEBOUNCE: nat := 200

  /**
   One turn of the loop as the world decides it: the lock's health when the turn starts and while it
   sleeps, the pass's length and report, how long after the pass a wake arrives, if one does, and whether
   the wake goes first if the deadline is there at the same instant.
   */
  datatype Turn = Turn(held: bool, takes: nat, wants: Option<bool>, woken: Option<nat>, wakeFirst: bool, lost: bool)

  datatype Pass = Pass(kind: TickKind, at: int, takes: nat)

  function Later(a: int, b: int): int {
    if a < b then b else a
  }

  function Earlier(a: int, b: int): int {
    if a < b then a else b
  }

  function LongestPass(script: seq<Turn>): nat {
    if script == [] then 0 else Later(script[0].takes, LongestPass(script[1..]))
  }

  /** The starts of the full passes, in order. */
  function FullStarts(passes: seq<Pass>): (starts: seq<int>)
  {
    if passes == [] then []
    else
      var last := passes[|passes| - 1];
      FullStarts(passes[..|passes| - 1]) + if last.kind == Reconcile then [last.at] else []
  }

  ghost predicate IsPacedAt(starts: seq<int>, i: nat, least: int, most: int)
    requires i + 1 < |starts|
  {
    least <= starts[i + 1] - starts[i] <= most
  }

  /** Consecutive full passes start no closer than `least` and no further apart than `most`. */
  ghost predicate Paced(starts: seq<int>, least: int, most: int) {
    forall i: nat :: i + 1 < |starts| ==> IsPacedAt(starts, i, least, most)
  }

  lemma {:induction false} LongestIsLongest(script: seq<Turn>, i: nat)
    requires i < |script|
    ensures script[i].takes <= LongestPass(script)
  {
    if i > 0 { LongestIsLongest(script[1..], i - 1); }
  }

  lemma {:induction false} OneMorePass(passes: seq<Pass>, pass: Pass)
    ensures FullStarts(passes + [pass])
            == if pass.kind == Reconcile then FullStarts(passes) + [pass.at] else FullStarts(passes)
  {
    assert (passes + [pass])[..|passes|] == passes;
  }

  lemma {:induction false} OneMoreStart(starts: seq<int>, at: int, least: int, most: int)
    requires Paced(starts, least, most)
    requires starts != [] ==> least <= at - starts[|starts| - 1] <= most
    ensures Paced(starts + [at], least, most)
  {
    var longer := starts + [at];
    forall i: nat | i + 1 < |longer| ensures IsPacedAt(longer, i, least, most) {
      assert i + 1 < |starts| ==> IsPacedAt(starts, i, least, most);
    }
  }

  /** When the next pass is due, a pass having ended at `end`; it may be overdue already. */
  function Due(t: Turn, end: int, nextFull: int, convergeInterval: nat): int {
    Later(end, if t.wants == Some(true) then Earlier(nextFull, end + convergeInterval) else nextFull)
  }

  /** Whether a wake is taken: one that comes before the deadline is, one that comes with it may be. */
  predicate IsWoken(t: Turn, end: int, due: int) {
    t.woken.Some? && (end + t.woken.value < due || (end + t.woken.value == due && t.wakeFirst))
  }

  /** When the loop wakes, having made a pass of this turn that ended at `end`. */
  function Wake(t: Turn, end: int, nextFull: int, convergeInterval: nat): int {
    var due := Due(t, end, nextFull, convergeInterval);
    if IsWoken(t, end, due) then end + t.woken.value + NOTIFY_DEBOUNCE else due
  }

  predicate IsPrompt(pass: Pass, next: Pass, t: Turn, convergeInterval: nat) {
    && pass.takes == t.takes
    && pass.at + pass.takes <= next.at
    && (t.wants == Some(true) ==> next.at <= pass.at + pass.takes + convergeInterval + NOTIFY_DEBOUNCE)
    && (t.wants != Some(true) && t.woken.None? ==> next.kind == Reconcile)
  }

  ghost predicate IsPromptAt(passes: seq<Pass>, script: seq<Turn>, i: nat, convergeInterval: nat)
    requires i + 1 < |passes| <= |script|
  {
    IsPrompt(passes[i], passes[i + 1], script[i], convergeInterval)
  }

  /**
   When each pass but the first comes: at once if it was due, after the convergence interval if the
   one before it wanted another look, and otherwise not before the next full pass unless woken.
   */
  ghost predicate Prompt(passes: seq<Pass>, script: seq<Turn>, convergeInterval: nat) {
    && |passes| <= |script|
    && forall i: nat :: i + 1 < |passes| ==> IsPromptAt(passes, script, i, convergeInterval)
  }

  /** Between turns: full passes paced so far, and the clock not past where the next one must start. */
  ghost predicate OnTime(starts: seq<int>, now: int, lastReconcile: int, start: int, interval: nat, most: int) {
    && Paced(starts, interval, most)
    && (if starts == [] then now == start && lastReconcile == start - interval
        else starts[|starts| - 1] == lastReconcile && now <= lastReconcile + most)
  }

  /** Between turns: every pass so far was prompt, and the clock is where the last one's wake put it. */
  ghost predicate Awake(passes: seq<Pass>, now: int, lastReconcile: int, script: seq<Turn>, interval: nat,
        convergeInterval: nat) {
    && Prompt(passes, script, convergeInterval)
    && (passes != [] ==>
          var last := |passes| - 1;
          && passes[last].takes == script[last].takes
          && now == Wake(script[last], passes[last].at + passes[last].takes, lastReconcile + interval,
                convergeInterval))
  }

  lemma {:induction false} TurnIsOnTime(starts: seq<int>, now: int, lastReconcile: int, start: int, interval: nat,
        convergeInterval: nat,
                                        most: int, t: Turn, starts': seq<int>, last: int)
    requires OnTime(starts, now, lastReconcile, start, interval, most) && most >= interval + t.takes + NOTIFY_DEBOUNCE
    requires starts' == if now >= lastReconcile + interval then starts + [now] else starts
    requires last == if now >= lastReconcile + interval then now else lastReconcile
    ensures OnTime(starts', Wake(t, now + t.takes, last + interval, convergeInterval), last, start, interval, most)
  {
    if now >= lastReconcile + interval { OneMoreStart(starts, now, interval, most); }
  }

  /** The pass a turn makes, and the stamp it leaves. */
  function PassOf(t: Turn, now: int, lastReconcile: int, interval: nat): Pass {
    Pass(if now >= lastReconcile + interval then Reconcile else Converge, now, t.takes)
  }

  function StampOf(now: int, lastReconcile: int, interval: nat): int {
    if now >= lastReconcile + interval then now else lastReconcile
  }

  /** The pass a wake leads to comes when the one before it asked for it. */
  lemma {:induction false} WakeIsPrompt(t: Turn, pass: Pass, lastReconcile: int, interval: nat, convergeInterval: nat,
        next: Turn)
    requires pass.takes == t.takes
    ensures var at := Wake(t, pass.at + pass.takes, lastReconcile + interval, convergeInterval);
            IsPrompt(pass, PassOf(next, at, lastReconcile, interval), t, convergeInterval)
  {
  }

  lemma {:induction false} TurnIsPrompt(passes: seq<Pass>, now: int, lastReconcile: int, script: seq<Turn>,
        interval: nat, convergeInterval: nat)
    requires Awake(passes, now, lastReconcile, script, interval, convergeInterval) && |passes| < |script|
    ensures var t, last := script[|passes|], StampOf(now, lastReconcile, interval);
            Awake(passes + [PassOf(t, now, lastReconcile, interval)],
                  Wake(t, now + t.takes, last + interval, convergeInterval), last, script, interval, convergeInterval)
  {
    var t := script[|passes|];
    var longer := passes + [PassOf(t, now, lastReconcile, interval)];
    forall i: nat | i + 1 < |longer| ensures IsPromptAt(longer, script, i, convergeInterval) {
      if i + 1 < |passes| {
        assert IsPromptAt(passes, script, i, convergeInterval);
      } else {
        WakeIsPrompt(script[i], passes[i], lastReconcile, interval, convergeInterval, t);
      }
    }
  }

  /** The run opens with a full pass, and its last pass is not long after the last full one. */
  ghost predicate Anchored(passes: seq<Pass>, start: int, most: int) {
    var starts := FullStarts(passes);
    passes != [] ==>
      && starts != [] && starts[0] == passes[0].at == start
      && passes[|passes| - 1].at <= starts[|starts| - 1] + most
  }

  /**
   Exactly when the pass after pass `i` comes, and of which kind. A pass ends; the next is due when the full
   interval since the last full pass is over, or a convergence interval later if this one wanted another look and that
   is sooner, and never before the end. A wake that comes sooner is followed by a pass one debounce later, and one
   that comes at that very instant may be; otherwise the next pass is there at the deadline.
   */
  ghost predicate IsOnCue(passes: seq<Pass>, script: seq<Turn>, i: nat, interval: nat, convergeInterval: nat)
    requires i + 1 < |passes| <= |script|
  {
    var starts, t, next := FullStarts(passes[..i + 1]), script[i], passes[i + 1];
    && starts != [] && passes[i].takes == t.takes
    && var end, full := passes[i].at + t.takes, starts[|starts| - 1] + interval;
       var asked := if t.wants == Some(true) && end + convergeInterval < full then end + convergeInterval else full;
       var deadline := if asked < end then end else asked;
       && (t.woken.None? ==> next.at == deadline)
       && (t.woken.Some? && end + t.woken.value > deadline ==> next.at == deadline)
       && (t.woken.Some? && end + t.woken.value < deadline ==> next.at == end + t.woken.value + 200)
       && (t.woken.Some? && end + t.woken.value == deadline ==>
             next.at == if t.wakeFirst then end + t.woken.value + 200 else deadline)
       && (next.kind == Reconcile <==> next.at >= full)
  }

  ghost predicate OnCue(passes: seq<Pass>, script: seq<Turn>, interval: nat, convergeInterval: nat) {
    && |passes| <= |script|
    && forall i: nat :: i + 1 < |passes| ==> IsOnCue(passes, script, i, interval, convergeInterval)
  }

  /** The pass a wake leads to comes on cue. */
  lemma {:induction false} WakeIsOnCue(passes: seq<Pass>, next: Pass, script: seq<Turn>, lastReconcile: int,
        interval: nat, convergeInterval: nat, t: Turn)
    requires 0 < |passes| < |script| && FullStarts(passes) != []
    requires FullStarts(passes)[|FullStarts(passes)| - 1] == lastReconcile
    requires var last := |passes| - 1;
             && passes[last].takes == script[last].takes
             && next == PassOf(t, Wake(script[last], passes[last].at + passes[last].takes, lastReconcile + interval,
                                       convergeInterval), lastReconcile, interval)
    ensures IsOnCue(passes + [next], script, |passes| - 1, interval, convergeInterval)
  {
    assert (passes + [next])[..|passes|] == passes;
  }

  lemma {:induction false} EarlierCuesStand(passes: seq<Pass>, next: Pass, script: seq<Turn>, i: nat, interval: nat,
        convergeInterval: nat)
    requires i + 1 < |passes| < |script| && IsOnCue(passes, script, i, interval, convergeInterval)
    ensures IsOnCue(passes + [next], script, i, interval, convergeInterval)
  {
    assert (passes + [next])[..i + 1] == passes[..i + 1];
  }

  /** What the passes made by the loop keep, whenever it stops. */
  ghost predicate WellPaced(passes: seq<Pass>, script: seq<Turn>, start: int, interval: nat, convergeInterval: nat,
        most: int) {
    && Prompt(passes, script, convergeInterval)
    && Paced(FullStarts(passes), interval, most)
    && Anchored(passes, start, most)
  }

  /** The pace a run over this script keeps, its longest pass included. */
  ghost predicate KeepsPace(passes: seq<Pass>, script: seq<Turn>, start: int, interval: nat, convergeInterval: nat) {
    WellPaced(passes, script, start, interval, convergeInterval, interval + LongestPass(script) + NOTIFY_DEBOUNCE)
  }

  /** What holds between turns. */
  ghost predicate Between(passes: seq<Pass>, now: int, lastReconcile: int, script: seq<Turn>, start: int, interval: nat,
                          convergeInterval: nat, most: int) {
    && Anchored(passes, start, most)
    && OnTime(FullStarts(passes), now, lastReconcile, start, interval, most)
    && Awake(passes, now, lastReconcile, script, interval, convergeInterval)
    && OnCue(passes, script, interval, convergeInterval)
  }

  lemma {:induction false} TurnIsAnchored(passes: seq<Pass>, pass: Pass, now: int, lastReconcile: int, start: int,
        interval: nat, most: int)
    requires Anchored(passes, start, most)
    requires OnTime(FullStarts(passes), now, lastReconcile, start, interval, most) && most >= 0
    requires pass.at == now && pass.kind == if now >= lastReconcile + interval then Reconcile else Converge
    requires passes == [] ==> FullStarts(passes) == []
    ensures Anchored(passes + [pass], start, most)
  {
    OneMorePass(passes, pass);
  }

  lemma {:induction false} TurnIsOnCue(passes: seq<Pass>, now: int, lastReconcile: int, script: seq<Turn>, start: int,
        interval: nat, convergeInterval: nat, most: int)
    requires Between(passes, now, lastReconcile, script, start, interval, convergeInterval, most)
    requires |passes| < |script|
    ensures OnCue(passes + [PassOf(script[|passes|], now, lastReconcile, interval)], script, interval,
                  convergeInterval)
  {
    var next := PassOf(script[|passes|], now, lastReconcile, interval);
    var longer := passes + [next];
    forall i: nat | i + 1 < |longer| ensures IsOnCue(longer, script, i, interval, convergeInterval) {
      if i + 1 < |passes| {
        EarlierCuesStand(passes, next, script, i, interval, convergeInterval);
      } else {
        WakeIsOnCue(passes, next, script, lastReconcile, interval, convergeInterval, script[|passes|]);
      }
    }
  }

  lemma {:induction false} TurnKeepsOnTime(passes: seq<Pass>, t: Turn, now: int, lastReconcile: int, start: int,
        interval: nat,
                                           convergeInterval: nat, most: int)
    requires OnTime(FullStarts(passes), now, lastReconcile, start, interval, most)
             && most >= interval + t.takes + NOTIFY_DEBOUNCE
    ensures var last := StampOf(now, lastReconcile, interval);
            OnTime(FullStarts(passes + [PassOf(t, now, lastReconcile, interval)]),
                   Wake(t, now + t.takes, last + interval, convergeInterval), last, start, interval, most)
  {
    var pass := PassOf(t, now, lastReconcile, interval);
    OneMorePass(passes, pass);
    TurnIsOnTime(FullStarts(passes), now, lastReconcile, start, interval, convergeInterval, most, t,
                 FullStarts(passes + [pass]), StampOf(now, lastReconcile, interval));
  }

  lemma {:induction false} TurnKeepsBetween(passes: seq<Pass>, now: int, lastReconcile: int, script: seq<Turn>,
        start: int, interval: nat, convergeInterval: nat, most: int)
    requires Between(passes, now, lastReconcile, script, start, interval, convergeInterval, most)
    requires |passes| < |script| && most >= interval + script[|passes|].takes + NOTIFY_DEBOUNCE
    ensures var t, last := script[|passes|], StampOf(now, lastReconcile, interval);
            Between(passes + [PassOf(t, now, lastReconcile, interval)],
                    Wake(t, now + t.takes, last + interval, convergeInterval), last,
                    script, start, interval, convergeInterval, most)
  {
    var t := script[|passes|];
    TurnKeepsOnTime(passes, t, now, lastReconcile, start, interval, convergeInterval, most);
    TurnIsPrompt(passes, now, lastReconcile, script, interval, convergeInterval);
    TurnIsAnchored(passes, PassOf(t, now, lastReconcile, interval), now, lastReconcile, start, interval, most);
    TurnIsOnCue(passes, now, lastReconcile, script, start, interval, convergeInterval, most);
  }

  lemma {:induction false} StartsBetween(now: int, script: seq<Turn>, interval: nat, convergeInterval: nat, most: int)
    requires most >= 0
    ensures Between([], now, now - interval, script, now, interval, convergeInterval, most)
  {
  }

  /** Whatever holds between turns, one turn after another, as a property of the passes and the two instants. */
  lemma {:induction false} TurnByTurn(script: seq<Turn>, start: int, interval: nat, convergeInterval: nat)
    returns (holds: (seq<Pass>, int, int) -> bool)
    ensures holds([], start, start - interval)
    ensures forall passes, now, last :: holds(passes, now, last) && |passes| < |script| ==>
              var t, stamp := script[|passes|], StampOf(now, last, interval);
              holds(passes + [PassOf(t, now, last, interval)],
                    Wake(t, now + t.takes, stamp + interval, convergeInterval), stamp)
    ensures forall passes, now, last :: holds(passes, now, last) ==>
              KeepsPace(passes, script, start, interval, convergeInterval)
              && OnCue(passes, script, interval, convergeInterval)
  {
    var most := interval + LongestPass(script) + NOTIFY_DEBOUNCE;
    holds := (passes: seq<Pass>, now: int, last: int) =>
      Between(passes, now, last, script, start, interval, convergeInterval, most);
    StartsBetween(start, script, interval, convergeInterval, most);
    forall passes, now, last | holds(passes, now, last) && |passes| < |script|
      ensures var t, stamp := script[|passes|], StampOf(now, last, interval);
              holds(passes + [PassOf(t, now, last, interval)],
                    Wake(t, now + t.takes, stamp + interval, convergeInterval), stamp)
    {
      LongestIsLongest(script, |passes|);
      TurnKeepsBetween(passes, now, last, script, start, interval, convergeInterval, most);
    }
  }

  /** How many passes are made before the lock is found gone when a turn starts, or is lost while one sleeps. */
  function TurnsMade(script: seq<Turn>, from: nat := 0): nat
    requires from <= |script|
    decreases |script| - from
  {
    if from == |script| || !script[from].held then 0
    else if script[from].lost then 1
    else 1 + TurnsMade(script, from + 1)
  }

  /** The loop run by one leader over a script of what happens to it. */
  method ReconcileUntilLost(start: int, interval: nat, convergeInterval: nat,
        script: seq<Turn>) returns (passes: seq<Pass>)
    ensures KeepsPace(passes, script, start, interval, convergeInterval)
    ensures OnCue(passes, script, interval, convergeInterval)
    ensures |passes| == TurnsMade(script)
  {
    passes := [];
    var now := start;
    var lastReconcile := now - interval;
    ghost var holds := TurnByTurn(script, start, interval, convergeInterval);
    for turn := 0 to |script|
      invariant |passes| == turn
      invariant turn + TurnsMade(script, turn) == TurnsMade(script)
      invariant holds(passes, now, lastReconcile)
    {
      var t := script[turn];
      var due := lastReconcile + interval;
      var kind := if now >= due then Reconcile else Converge;
      if !t.held { return; }

      ghost var stamp := StampOf(now, lastReconcile, interval);
      ghost var wake := Wake(t, now + t.takes, stamp + interval, convergeInterval);
      assert holds(passes + [PassOf(t, now, lastReconcile, interval)], wake, stamp);
      passes := passes + [Pass(kind, now, t.takes)];
      var end := now + t.takes;
      if kind == Reconcile { lastReconcile := now; }
      now := SleepUntilNext(t, end, lastReconcile + interval, convergeInterval);
      assert now == wake && lastReconcile == stamp;
      if t.lost { return; }
    }
  }

  /** The wait between two passes: until the next one is due, or a wake and its debounce. */
  method SleepUntilNext(t: Turn, end: int, nextFull: int, convergeInterval: nat) returns (now: int)
    ensures now == Wake(t, end, nextFull, convergeInterval)
  {
    var converging := t.wants == Some(true);
    var next := if converging then Earlier(nextFull, end + convergeInterval) else nextFull;
    var slept := Later(end, next);
    if t.woken.Some? && (end + t.woken.value < slept || (end + t.woken.value == slept && t.wakeFirst)) {
      now := end + t.woken.value + NOTIFY_DEBOUNCE;
    } else {
      now := slept;
    }
  }

  // ---------------------------------------------------------------- what the pace bounds

  lemma {:induction false} SpacedApart(starts: seq<int>, least: int, most: int)
    requires starts != [] && Paced(starts, least, most) && least >= 0
    ensures starts[|starts| - 1] - starts[0] >= (|starts| - 1) * least
  {
    if |starts| > 1 {
      var front := starts[..|starts| - 1];
      forall i: nat | i + 1 < |front| ensures IsPacedAt(front, i, least, most) {
        assert IsPacedAt(starts, i, least, most);
      }
      SpacedApart(front, least, most);
      assert IsPacedAt(starts, |front| - 1, least, most);
      assert (|starts| - 1) * least == (|front| - 1) * least + least;
    }
  }

  lemma {:induction false} Multiples(a: nat, d: nat, w: nat)
    requires d > 0 && a * d <= w
    ensures a <= w / d
  {
    assert w < (w / d + 1) * d;
    if a >= w / d + 1 { MoreMultiples(w / d + 1, a, d); }
  }

  lemma {:induction false} MoreMultiples(a: int, b: int, d: nat)
    requires a <= b
    ensures a * d <= b * d
  {
  }

  /** Full passes whose starts all lie in a window of length `window` are at most window / interval + 1. */
  lemma {:induction false} FullPassesPerWindow(starts: seq<int>, interval: int, most: int, window: nat)
    requires interval > 0 && Paced(starts, interval, most)
    requires starts != [] ==> starts[|starts| - 1] - starts[0] <= window
    ensures |starts| <= window / interval + 1
  {
    if starts != [] {
      SpacedApart(starts, interval, most);
      Multiples(|starts| - 1, interval, window);
    }
  }

  lemma {:induction false} FullStartsConcat(a: seq<Pass>, b: seq<Pass>)
    ensures FullStarts(a + b) == FullStarts(a) + FullStarts(b)
  {
    if b == [] {
      assert a + b == a;
    } else {
      var front := b[..|b| - 1];
      FullStartsConcat(a, front);
      assert (a + b)[..|a + b| - 1] == a + front;
    }
  }

  lemma {:induction false} FullStartsSplit(passes: seq<Pass>, k: nat)
    requires k <= |passes|
    ensures FullStarts(passes) == FullStarts(passes[..k]) + FullStarts(passes[k..])
  {
    FullStartsConcat(passes[..k], passes[k..]);
    assert passes[..k] + passes[k..] == passes;
  }

  lemma {:induction false} FullStartsOfStretch(passes: seq<Pass>, from: nat, to: nat)
    requires from <= to <= |passes|
    ensures FullStarts(passes) == FullStarts(passes[..from]) + FullStarts(passes[from..to]) + FullStarts(passes[to..])
  {
    FullStartsSplit(passes, to);
    FullStartsSplit(passes[..to], from);
    assert passes[..to][..from] == passes[..from];
    assert passes[..to][from..] == passes[from..to];
  }

  /** Any stretch of a paced run is paced. */
  lemma {:induction false} StretchesArePaced(passes: seq<Pass>, from: nat, to: nat, least: int, most: int)
    requires from <= to <= |passes| && Paced(FullStarts(passes), least, most)
    ensures Paced(FullStarts(passes[from..to]), least, most)
  {
    FullStartsOfStretch(passes, from, to);
    MiddleIsPaced(FullStarts(passes[..from]), FullStarts(passes[from..to]), FullStarts(passes[to..]), least, most);
  }

  lemma {:induction false} MiddleIsPaced(a: seq<int>, b: seq<int>, c: seq<int>, least: int, most: int)
    requires Paced(a + b + c, least, most)
    ensures Paced(b, least, most)
  {
    var all := a + b + c;
    forall i: nat | i + 1 < |b| ensures IsPacedAt(b, i, least, most) {
      assert IsPacedAt(all, |a| + i, least, most);
      assert all[|a| + i] == b[i] && all[|a| + i + 1] == b[i + 1];
    }
  }

  /** What one pass saw. */
  datatype Sight = Sight(rooms: seq<RoomView>, cluster: Snapshot, now: Time)

  ghost function TakenBy(seen: Sight, kind: TickKind, maxRecreates: nat, idleTimeout: int, step: Step): nat {
    CountOf(Selection(Candidates(seen.rooms, seen.cluster, seen.now, idleTimeout, kind), maxRecreates), step)
  }

  /** How many of one paced step a series of passes takes, each over whatever it sees. */
  ghost function Taken(passes: seq<Pass>, sights: seq<Sight>, maxRecreates: nat, idleTimeout: int, step: Step): nat
    requires |sights| == |passes|
  {
    if passes == [] then 0
    else
      var last := |passes| - 1;
      Taken(passes[..last], sights[..last], maxRecreates, idleTimeout, step)
      + TakenBy(sights[last], passes[last].kind, maxRecreates, idleTimeout, step)
  }

  lemma {:induction false} NoneToServe(planned: seq<Candidate>, step: Step, from: nat)
    requires from <= |planned| && forall i: nat :: i < |planned| ==> planned[i].step != step
    ensures IndicesOf(planned, step, from) == []
    decreases |planned| - from
  {
    if from < |planned| { NoneToServe(planned, step, from + 1); }
  }

  lemma {:induction false} PassIsCapped(seen: Sight, kind: TickKind, maxRecreates: nat, idleTimeout: int, step: Step)
    requires step == Recreate || step == Reap
    requires DistinctIds(seen.rooms)
    ensures TakenBy(seen, kind, maxRecreates, idleTimeout, step) <= if kind == Reconcile then CapOf(maxRecreates,
              step) else 0
  {
    var planned := Candidates(seen.rooms, seen.cluster, seen.now, idleTimeout, kind);
    CandidatesAreDistinct(seen.rooms, seen.cluster, seen.now, idleTimeout, kind);
    CapsAreExact(planned, maxRecreates, step);
    if kind == Converge {
      forall i: nat | i < |planned| ensures planned[i].step != step {
        assert planned[i] in planned;
      }
      NoneToServe(planned, step, 0);
    }
  }

  ghost predicate SeesRooms(sights: seq<Sight>) {
    forall i :: 0 <= i < |sights| ==> DistinctIds(sights[i].rooms)
  }

  lemma {:induction false} AddUp(sum: nat, more: nat, cap: nat, n: nat, full: bool)
    requires sum <= cap * n && more <= if full then cap else 0
    ensures sum + more <= cap * (n + if full then 1 else 0)
  {
    assert cap * (n + 1) == cap * n + cap;
  }

  lemma {:induction false} TakenPerFullPass(passes: seq<Pass>, sights: seq<Sight>, maxRecreates: nat, idleTimeout: int,
                                            step: Step, cap: nat)
    requires |sights| == |passes| && (step == Recreate || step == Reap) && cap == CapOf(maxRecreates, step)
    requires SeesRooms(sights)
    ensures Taken(passes, sights, maxRecreates, idleTimeout, step) <= cap * |FullStarts(passes)|
  {
    if passes != [] {
      var last := |passes| - 1;
      var full := passes[last].kind == Reconcile;
      TakenPerFullPass(passes[..last], sights[..last], maxRecreates, idleTimeout, step, cap);
      PassIsCapped(sights[last], passes[last].kind, maxRecreates, idleTimeout, step);
      AddUp(Taken(passes[..last], sights[..last], maxRecreates, idleTimeout, step),
            TakenBy(sights[last], passes[last].kind, maxRecreates, idleTimeout, step),
            cap, |FullStarts(passes[..last])|, full);
      assert |FullStarts(passes)| == |FullStarts(passes[..last])| + if full then 1 else 0;
    }
  }

  lemma {:induction false} Scaled(cap: nat, n: nat, m: nat)
    requires n <= m
    ensures cap * n <= cap * m
  {
    MoreMultiples(n, m, cap);
  }

  /**
   However often the loop is woken and whatever its passes see, the paced steps it takes in any
   stretch of its run are bounded by the stretch's length alone.
   */
  lemma {:induction false} PacedStepsPerWindow(passes: seq<Pass>, from: nat, to: nat, sights: seq<Sight>,
        maxRecreates: nat, idleTimeout: int,
                            step: Step, interval: int, most: int, window: nat, cap: nat)
    requires from <= to <= |passes| && |sights| == to - from && SeesRooms(sights)
    requires interval > 0 && Paced(FullStarts(passes), interval, most)
    requires var starts := FullStarts(passes[from..to]); starts != [] ==> starts[|starts| - 1] - starts[0] <= window
    requires (step == Recreate && cap == maxRecreates) || (step == Reap && cap == 1)
    ensures Taken(passes[from..to], sights, maxRecreates, idleTimeout, step) <= cap * (window / interval + 1)
  {
    var stretch, bound := passes[from..to], window / interval + 1;
    StretchesArePaced(passes, from, to, interval, most);
    FullPassesPerWindow(FullStarts(stretch), interval, most, window);
    TakenPerFullPass(stretch, sights, maxRecreates, idleTimeout, step, cap);
    Scaled(cap, |FullStarts(stretch)|, bound);
  }
}
