/**
 Why a load run ends: the release cascade over a dealt seed, with clients that drop, reconnect, lose
 what they had in flight and are restarted from nothing.

 The room is modelled as documented: it replays a slot's history at connect, and a slot's declared
 goal releases whatever is left in that slot's world.
 */
module Cascade {
  import opened Rooms
  import opened Deal

  datatype Seed = Seed(spec: Spec, hands: seq<Hand>)

  ghost predicate IsDealt(seed: Seed) {
    && seed.spec.IsPlayable()
    && |seed.hands| == seed.spec.players
    && (forall p :: 0 <= p < seed.spec.players ==> |seed.hands[p]| == seed.spec.locations)
    && (forall p :: 0 <= p < seed.spec.players ==> HasOneGoal(seed.spec, seed.hands, p))
  }

  /** Every deal is one a run can be played over. */
  lemma {:induction false} DealsAreDealt(spec: Spec, d: Draws, hands: seq<Hand>)
    requires spec.IsPlayable() && |hands| == spec.players
    requires forall p :: 0 <= p < |hands| ==> |hands[p]| == spec.locations
    requires multiset(Joined(hands)) == multiset(Pool(spec, d.contents, spec.players))
    ensures IsDealt(Seed(spec, hands))
  {
    forall p | 0 <= p < spec.players ensures HasOneGoal(spec, hands, p) {
      DealsHaveOneGoalEach(spec, d, hands, p);
    }
  }

  /** What the room holds: the locations of each world nobody has checked, and who has declared a goal. */
  datatype Room = Room(missing: seq<set<nat>>, declared: set<nat>)

  /** One slot's client: its connection, what it believes, and what it has sent that the room has not read. */
  datatype Client = Client(up: bool, goaled: bool, remaining: set<nat>, checks: set<nat>, status: bool)

  datatype World = World(room: Room, clients: seq<Client>)

  ghost predicate IsWorldOf(seed: Seed, w: World) {
    |w.room.missing| == seed.spec.players && |w.clients| == seed.spec.players
  }

  /** Some location holding this player's Goal. */
  ghost predicate IsAt(seed: Seed, player: nat, q: nat, i: nat)
    requires seed.spec.IsPlayable()
  {
    q < |seed.hands| && i < |seed.hands[q]| && IsGoalOf(seed.spec, seed.hands[q][i], player)
  }

  /** The player's Goal is in its history: somebody checked or released a location holding it. */
  ghost predicate Holds(seed: Seed, w: World, player: nat)
    requires seed.spec.IsPlayable() && IsWorldOf(seed, w)
  {
    exists q: nat, i: nat :: IsAt(seed, player, q, i) && q < |w.room.missing| && i !in w.room.missing[q]
  }

  // ---------------------------------------------------------------- what can happen

  datatype Label =
    | Connect(player: nat, sent: bool)
    | Hear(player: nat, sent: bool)
    | Send(player: nat, keep: set<nat>, sent: bool)
    | Process(player: nat)
    | Drop(player: nat)
    | Restart(player: nat)

  /** A connection gone, and with it whatever the room had not read. */
  function Dropped(c: Client): Client {
    c.(up := false, remaining := {}, checks := {}, status := false)
  }

  /** A slot that knows it is finished stops checking and says so; if that fails, the connection ends. */
  function Declaring(c: Client, sent: bool): Client {
    if sent then c.(up := true, goaled := true, remaining := {}, status := true)
    else Dropped(c).(goaled := true)
  }

  /**
   Connecting: the room says what is missing and replays the history, and a slot with nothing left,
   or with its Goal already there, or that knew already, declares at once.
   */
  function Connected(c: Client, missing: set<nat>, holds: bool, sent: bool): Client {
    if c.goaled || missing == {} || holds then Declaring(c, sent) else c.(up := true, remaining := missing)
  }

  /** The next checks: anything but what is kept back, and never nothing. */
  function Batch(remaining: set<nat>, keep: set<nat>): set<nat> {
    if remaining - keep == {} then remaining else remaining - keep
  }

  function Sending(c: Client, keep: set<nat>, sent: bool): Client {
    if !c.up || c.goaled || c.remaining == {} then c
    else
      var batch := Batch(c.remaining, keep);
      if sent then c.(remaining := c.remaining - batch, checks := c.checks + batch) else Dropped(c)
  }

  /** The room reads what a slot has sent: checks empty its locations one by one, a declared goal all of them. */
  function Read(room: Room, player: nat, c: Client): Room
    requires player < |room.missing|
  {
    if c.status then Room(room.missing[player := {}], room.declared + {player})
    else room.(missing := room.missing[player := room.missing[player] - c.checks])
  }

  ghost function Next(seed: Seed, w: World, l: Label): (w': World)
    requires seed.spec.IsPlayable() && IsWorldOf(seed, w)
    ensures IsWorldOf(seed, w')
  {
    var p := l.player;
    if p >= seed.spec.players then w
    else
      var c := w.clients[p];
      match l
      case Connect(_, sent) =>
        if c.up then w else w.(clients := w.clients[p := Connected(c, w.room.missing[p], Holds(seed, w, p), sent)])
      case Hear(_, sent) =>
        if c.up && !c.goaled && Holds(seed, w, p) then w.(clients := w.clients[p := Declaring(c, sent)]) else w
      case Send(_, keep, sent) => w.(clients := w.clients[p := Sending(c, keep, sent)])
      case Process(_) =>
        if c.up then World(Read(w.room, p, c), w.clients[p := c.(checks := {}, status := false)]) else w
      case Drop(_) => w.(clients := w.clients[p := Dropped(c)])
      case Restart(_) => w.(clients := w.clients[p := Dropped(c).(goaled := false)])
  }

  // ---------------------------------------------------------------- what every run keeps

  /**
   A connected slot that is not finished has exactly what is missing to send or in flight; one that is has said
   so.
   */
  ghost predicate ClientFits(w: World, p: nat)
    requires p < |w.clients| && p < |w.room.missing|
  {
    var c := w.clients[p];
    && (c.up && !c.goaled ==> w.room.missing[p] == c.remaining + c.checks && c.remaining !! c.checks)
    && (c.status ==> c.goaled)
    && (c.up && c.goaled ==> c.status || p in w.room.declared)
    && (p in w.room.declared ==> w.room.missing[p] == {})
    && (!c.up ==> !c.status && c.checks == {})
  }

  ghost predicate Sound(seed: Seed, w: World) {
    && seed.spec.IsPlayable() && IsWorldOf(seed, w)
    && forall p :: 0 <= p < seed.spec.players ==> ClientFits(w, p)
  }

  /** A room just opened on the seed, with nobody connected. */
  ghost predicate IsFresh(seed: Seed, w: World) {
    && IsWorldOf(seed, w) && w.room.declared == {}
    && forall p :: 0 <= p < seed.spec.players ==> w.clients[p] == Client(false, false, {}, {}, false)
  }

  lemma {:induction false} NextKeepsSound(seed: Seed, w: World, l: Label)
    requires Sound(seed, w)
    ensures Sound(seed, Next(seed, w, l))
  {
    var w' := Next(seed, w, l);
    forall p | 0 <= p < seed.spec.players
      ensures ClientFits(w', p)
    {
      assert ClientFits(w, p);
    }
  }

  /**
   Exactly which slots declare with the first they say: those that knew already, those with nothing left to check, and
   those whose Goal is in the history they are replayed.
   */
  lemma {:induction false} DeclaresAtOnceIff(seed: Seed, w: World, p: nat)
    requires Sound(seed, w) && p < seed.spec.players && !w.clients[p].up && p !in w.room.declared
    ensures p in Next(seed, Next(seed, w, Connect(p, true)), Process(p)).room.declared
            <==> w.clients[p].goaled || w.room.missing[p] == {} || Holds(seed, w, p)
  {
    var w1 := Next(seed, w, Connect(p, true));
    assert w1.clients[p].status == w.clients[p].status || w1.clients[p].status;
    assert ClientFits(w, p);
  }

  // ---------------------------------------------------------------- the measure

  function Total(missing: seq<set<nat>>): nat {
    if missing == [] then 0 else Total(missing[..|missing| - 1]) + |missing[|missing| - 1]|
  }

  function Everyone(players: nat): (all: set<nat>)
    ensures forall p: nat :: p in all <==> p < players
  {
    if players == 0 then {} else Everyone(players - 1) + {players - 1}
  }

  function Undeclared(seed: Seed, w: World): nat {
    |Everyone(seed.spec.players) - w.room.declared|
  }

  lemma {:induction false} SmallerSet(a: set<nat>, b: set<nat>)
    requires a <= b
    ensures |a| <= |b| && (a != b ==> |a| < |b|)
  {
    if a != {} {
      var x :| x in a;
      SmallerSet(a - {x}, b - {x});
    }
  }

  lemma {:induction false} TotalWithOneSmaller(missing: seq<set<nat>>, p: nat, s: set<nat>)
    requires p < |missing| && s <= missing[p]
    ensures Total(missing[p := s]) <= Total(missing)
    ensures s != missing[p] ==> Total(missing[p := s]) < Total(missing)
  {
    var last := |missing| - 1;
    SmallerSet(s, missing[p]);
    if p == last {
      assert missing[p := s][..last] == missing[..last];
    } else {
      TotalWithOneSmaller(missing[..last], p, s);
      assert missing[p := s][..last] == missing[..last][p := s];
    }
  }

  /** Lower: fewer unchecked locations, or as many and fewer undeclared goals. */
  ghost predicate IsLower(seed: Seed, w': World, w: World) {
    || Total(w'.room.missing) < Total(w.room.missing)
    || (Total(w'.room.missing) == Total(w.room.missing) && Undeclared(seed, w') < Undeclared(seed, w))
  }

  ghost predicate IsNoHigher(seed: Seed, w': World, w: World) {
    Total(w'.room.missing) <= Total(w.room.missing) && w.room.declared <= w'.room.declared
  }

  lemma {:induction false} NothingRaises(seed: Seed, w: World, l: Label)
    requires Sound(seed, w)
    ensures IsNoHigher(seed, Next(seed, w, l), w)
    ensures forall p: nat :: p < seed.spec.players ==> Next(seed, w, l).room.missing[p] <= w.room.missing[p]
  {
    if l.Process? && l.player < seed.spec.players {
      var p := l.player;
      TotalWithOneSmaller(w.room.missing, p, {});
      TotalWithOneSmaller(w.room.missing, p, w.room.missing[p] - w.clients[p].checks);
    }
  }

  lemma {:induction false} NoHigherIsNotMore(seed: Seed, w: World, w': World)
    requires IsNoHigher(seed, w', w)
    ensures Undeclared(seed, w') <= Undeclared(seed, w)
  {
    SmallerSet(Everyone(seed.spec.players) - w'.room.declared, Everyone(seed.spec.players) - w.room.declared);
  }

  // ---------------------------------------------------------------- somebody can always move

  /** A dealt Goal is somewhere. */
  lemma {:induction false} FoundUpTo(seed: Seed, hand: Hand, n: nat, player: nat) returns (i: nat)
    requires seed.spec.IsPlayable() && n <= |hand| && GoalsUpTo(seed.spec, hand, n, player) > 0
    ensures i < n && IsGoalOf(seed.spec, hand[i], player)
  {
    if IsGoalOf(seed.spec, hand[n - 1], player) { i := n - 1; } else { i := FoundUpTo(seed, hand, n - 1, player); }
  }

  lemma {:induction false} FoundIn(seed: Seed, hands: seq<Hand>, player: nat) returns (q: nat, i: nat)
    requires seed.spec.IsPlayable() && GoalsIn(seed.spec, Joined(hands), player) > 0
    ensures q < |hands| && i < |hands[q]| && IsGoalOf(seed.spec, hands[q][i], player)
  {
    var last := |hands| - 1;
    GoalsConcat(seed.spec, Joined(hands[..last]), hands[last], player);
    if GoalsIn(seed.spec, hands[last], player) > 0 {
      q := last;
      i := FoundUpTo(seed, hands[last], |hands[last]|, player);
    } else {
      q, i := FoundIn(seed, hands[..last], player);
    }
  }

  /** A slot that can check a location or declare a goal. */
  ghost predicate CanMove(seed: Seed, w: World, q: nat)
    requires seed.spec.IsPlayable() && IsWorldOf(seed, w)
  {
    q < seed.spec.players && q !in w.room.declared && (w.room.missing[q] != {} || Holds(seed, w, q))
  }

  /** Every player holds its Goal and has said so. */
  ghost predicate IsDone(seed: Seed, w: World)
    requires seed.spec.IsPlayable() && IsWorldOf(seed, w)
  {
    forall p: nat :: p < seed.spec.players ==> Holds(seed, w, p) && p in w.room.declared
  }

  /** While a player lacks its Goal, the slot whose world holds it has not goaled and still has a location to check. */
  lemma {:induction false} LackedGoalsAreReachable(seed: Seed, w: World, player: nat) returns (q: nat)
    requires IsDealt(seed) && Sound(seed, w) && player < seed.spec.players && !Holds(seed, w, player)
    ensures CanMove(seed, w, q) && w.room.missing[q] != {}
  {
    var i;
    assert HasOneGoal(seed.spec, seed.hands, player);
    q, i := FoundIn(seed, seed.hands, player);
    assert IsAt(seed, player, q, i);
    assert ClientFits(w, q);
  }

  lemma {:induction false} SomebodyCanMove(seed: Seed, w: World) returns (q: nat)
    requires IsDealt(seed) && Sound(seed, w) && !IsDone(seed, w)
    ensures CanMove(seed, w, q)
  {
    var p: nat :| p < seed.spec.players && !(Holds(seed, w, p) && p in w.room.declared);
    if Holds(seed, w, p) { q := p; } else { q := LackedGoalsAreReachable(seed, w, p); }
  }

  // ---------------------------------------------------------------- whole runs

  /** The world after `n` labels of an endless script. */
  ghost function At(seed: Seed, w: World, script: nat -> Label, n: nat): (w': World)
    requires seed.spec.IsPlayable() && IsWorldOf(seed, w)
    ensures IsWorldOf(seed, w')
  {
    if n == 0 then w else Next(seed, At(seed, w, script, n - 1), script(n - 1))
  }

  lemma {:induction false} RunsKeepSound(seed: Seed, w: World, script: nat -> Label, n: nat)
    requires Sound(seed, w)
    ensures Sound(seed, At(seed, w, script, n))
  {
    if n > 0 {
      RunsKeepSound(seed, w, script, n - 1);
      NextKeepsSound(seed, At(seed, w, script, n - 1), script(n - 1));
    }
  }

  /** Between two moments nothing is unchecked and no goal is taken back. */
  ghost predicate IsLater(seed: Seed, w: World, w': World)
    requires IsWorldOf(seed, w) && IsWorldOf(seed, w')
  {
    && IsNoHigher(seed, w', w)
    && forall p: nat :: p < seed.spec.players ==> w'.room.missing[p] <= w.room.missing[p]
  }

  lemma {:induction false} RunsOnlyProgress(seed: Seed, w: World, script: nat -> Label, m: nat, n: nat)
    requires Sound(seed, w) && m <= n
    ensures IsLater(seed, At(seed, w, script, m), At(seed, w, script, n))
    decreases n - m
  {
    if m < n {
      RunsOnlyProgress(seed, w, script, m, n - 1);
      RunsKeepSound(seed, w, script, n - 1);
      NothingRaises(seed, At(seed, w, script, n - 1), script(n - 1));
    }
  }

  /** A slot's history only grows. */
  lemma {:induction false} HistoryStays(seed: Seed, w: World, w': World, player: nat)
    requires seed.spec.IsPlayable() && IsWorldOf(seed, w) && IsWorldOf(seed, w') && IsLater(seed, w, w')
    ensures Holds(seed, w, player) ==> Holds(seed, w', player)
  {
    if Holds(seed, w, player) {
      var q: nat, i: nat :| IsAt(seed, player, q, i) && q < |w.room.missing| && i !in w.room.missing[q];
      assert w'.room.missing[q] <= w.room.missing[q];
      assert i !in w'.room.missing[q];
    }
  }

  /** Done once, done for good. */
  lemma {:induction false} DoneIsStable(seed: Seed, w: World, script: nat -> Label, m: nat, n: nat)
    requires Sound(seed, w) && m <= n && IsDone(seed, At(seed, w, script, m))
    ensures IsDone(seed, At(seed, w, script, n))
  {
    var before, after := At(seed, w, script, m), At(seed, w, script, n);
    RunsOnlyProgress(seed, w, script, m, n);
    forall p: nat | p < seed.spec.players
      ensures Holds(seed, after, p) && p in after.room.declared
    {
      HistoryStays(seed, before, after, p);
    }
  }

  lemma {:induction false} TotalsApart(before: seq<set<nat>>, after: seq<set<nat>>, q: nat)
    requires |before| == |after| && q < |before|
    requires forall p :: 0 <= p < |before| ==> after[p] <= before[p]
    requires after[q] != before[q]
    ensures Total(after) < Total(before)
  {
    var last := |before| - 1;
    SmallerSet(after[last], before[last]);
    if q == last {
      TotalsOrdered(before[..last], after[..last]);
    } else {
      TotalsApart(before[..last], after[..last], q);
    }
  }

  lemma {:induction false} TotalsOrdered(before: seq<set<nat>>, after: seq<set<nat>>)
    requires |before| == |after|
    requires forall p :: 0 <= p < |before| ==> after[p] <= before[p]
    ensures Total(after) <= Total(before)
  {
    if before != [] {
      var last := |before| - 1;
      SmallerSet(after[last], before[last]);
      TotalsOrdered(before[..last], after[..last]);
    }
  }

  // ---------------------------------------------------------------- one visit

  /** Nothing of the slot's own is dropped, restarted or fails to go out; any other slot may do anything. */
  predicate Spares(l: Label, q: nat) {
    l.player != q ||
    match l
    case Connect(_, sent) => sent
    case Hear(_, sent) => sent
    case Send(_, _, sent) => sent
    case Process(_) => true
    case Drop(_) => false
    case Restart(_) => false
  }

  ghost predicate IsSpared(script: nat -> Label, from: nat, to: nat, q: nat) {
    forall k: nat :: from <= k < to ==> Spares(script(k), q)
  }

  /**
   A connection of slot `q`, made at `a`, that lasts until the slot has heard what the room has for it (at `b`),
   sent (at `c`) and been read (at `d`). Every other slot may act in between, and so may this one.
   */
  ghost predicate IsVisit(script: nat -> Label, a: nat, b: nat, c: nat, d: nat, q: nat) {
    && a < b < c < d && IsSpared(script, a, d + 1, q)
    && script(a) == Connect(q, true) && script(b) == Hear(q, true)
    && script(c).Send? && script(c).player == q && script(d) == Process(q)
  }

  /** A visit whose hearing, sending and reading lie at or after `i`; the connection may be older. */
  ghost predicate VisitsFrom(script: nat -> Label, i: nat, q: nat) {
    exists a: nat, b: nat, c: nat, d: nat :: b >= i && IsVisit(script, a, b, c, d, q)
  }

  /** However often it is dropped or restarted in between, every slot is visited again and again. */
  ghost predicate IsFair(seed: Seed, script: nat -> Label) {
    forall q: nat, i: nat :: q < seed.spec.players ==> VisitsFrom(script, i, q)
  }

  /** Since `w0` the slot has had a location checked or a goal declared. */
  ghost predicate Moved(w0: World, w: World, q: nat)
    requires q < |w0.room.missing| && q < |w.room.missing|
  {
    q in w.room.declared || w.room.missing[q] != w0.room.missing[q]
  }

  /** How far a visit has come: the slot is connected, knows whether it is finished, has something in flight. */
  datatype Phase = IsConnected | HasHeard | HasSent

  ghost predicate InPhase(w: World, q: nat, phase: Phase)
    requires q < |w.clients| && q < |w.room.missing|
  {
    var c := w.clients[q];
    match phase
    case IsConnected => c.up
    case HasHeard => c.up && (c.goaled || w.room.missing[q] != {})
    case HasSent => c.up && (c.status || c.checks != {})
  }

  ghost predicate HasCome(w0: World, w: World, q: nat, phase: Phase)
    requires q < |w0.room.missing| && q < |w.clients| && q < |w.room.missing|
  {
    Moved(w0, w, q) || InPhase(w, q, phase)
  }

  /** What another slot does leaves this one's client, its locations and its goal alone. */
  lemma {:induction false} OthersLeaveAlone(seed: Seed, w: World, l: Label, q: nat)
    requires Sound(seed, w) && q < seed.spec.players && l.player != q
    ensures var w' := Next(seed, w, l);
            && w'.clients[q] == w.clients[q] && w'.room.missing[q] == w.room.missing[q]
            && (q in w'.room.declared <==> q in w.room.declared)
  {
  }

  /** Nothing that spares the slot takes it back; being read with something in flight moves it. */
  lemma {:induction false} SparedKeepsPhase(seed: Seed, w0: World, w: World, l: Label, q: nat, phase: Phase)
    requires Sound(seed, w) && q < seed.spec.players && |w0.room.missing| == seed.spec.players
    requires Spares(l, q) && IsLater(seed, w, Next(seed, w, l))
    requires w.room.missing[q] <= w0.room.missing[q] && HasCome(w0, w, q, phase)
    ensures HasCome(w0, Next(seed, w, l), q, phase)
    ensures l == Process(q) && phase == HasSent ==> Moved(w0, Next(seed, w, l), q)
  {
    assert ClientFits(w, q);
    if l.player != q {
      OthersLeaveAlone(seed, w, l, q);
    } else if l.Process? && !Moved(w0, w, q) {
      ReadingMoves(seed, w, q);
    }
  }

  lemma {:induction false} ReadingMoves(seed: Seed, w: World, q: nat)
    requires Sound(seed, w) && q < seed.spec.players && w.clients[q].up && q !in w.room.declared
    ensures var w' := Next(seed, w, Process(q));
            && w'.clients[q].up && w'.clients[q].goaled == w.clients[q].goaled
            && (w.clients[q].status || w.clients[q].checks != {} ==>
                  q in w'.room.declared || w'.room.missing[q] != w.room.missing[q])
  {
    assert ClientFits(w, q);
  }

  /**
   A connected slot that can move and hears what the room has knows it is finished, or has something left to
   check.
   */
  lemma {:induction false} Hears(seed: Seed, w: World, q: nat)
    requires Sound(seed, w) && CanMove(seed, w, q) && w.clients[q].up
    ensures HasCome(w, Next(seed, w, Hear(q, true)), q, HasHeard)
  {
  }

  /** Then it sends: its goal is in flight, or a location still missing is. */
  lemma {:induction false} Sends(seed: Seed, w0: World, w: World, l: Label, q: nat)
    requires Sound(seed, w) && q < seed.spec.players && |w0.room.missing| == seed.spec.players
    requires l.Send? && l.player == q && l.sent && HasCome(w0, w, q, HasHeard)
    ensures HasCome(w0, Next(seed, w, l), q, HasSent)
  {
    assert ClientFits(w, q);
  }

  /** A phase reached lasts for as long as the slot is spared. */
  lemma {:induction false} PhaseLasts(seed: Seed, start: World, script: nat -> Label, b: nat, m: nat, n: nat,
        q: nat, phase: Phase)
    requires Sound(seed, start) && q < seed.spec.players && b <= m <= n && IsSpared(script, m, n, q)
    requires HasCome(At(seed, start, script, b), At(seed, start, script, m), q, phase)
    ensures HasCome(At(seed, start, script, b), At(seed, start, script, n), q, phase)
    decreases n - m
  {
    if m < n {
      PhaseLasts(seed, start, script, b, m, n - 1, q, phase);
      OneLabelMore(seed, start, script, b, n - 1, q, phase);
    }
  }

  lemma {:induction false} OneLabelMore(seed: Seed, start: World, script: nat -> Label, b: nat, k: nat, q: nat,
        phase: Phase)
    requires Sound(seed, start) && q < seed.spec.players && b <= k && Spares(script(k), q)
    requires HasCome(At(seed, start, script, b), At(seed, start, script, k), q, phase)
    ensures HasCome(At(seed, start, script, b), At(seed, start, script, k + 1), q, phase)
    ensures script(k) == Process(q) && phase == HasSent
            ==> Moved(At(seed, start, script, b), At(seed, start, script, k + 1), q)
  {
    RunsKeepSound(seed, start, script, k);
    RunsOnlyProgress(seed, start, script, b, k);
    NothingRaises(seed, At(seed, start, script, k), script(k));
    SparedKeepsPhase(seed, At(seed, start, script, b), At(seed, start, script, k), script(k), q, phase);
  }

  /** A connection lasts for as long as the slot is spared. */
  lemma {:induction false} StaysConnected(seed: Seed, start: World, script: nat -> Label, m: nat, n: nat, q: nat)
    requires Sound(seed, start) && q < seed.spec.players && m <= n && IsSpared(script, m, n, q)
    requires At(seed, start, script, m).clients[q].up
    ensures At(seed, start, script, n).clients[q].up
    decreases n - m
  {
    if m < n {
      StaysConnected(seed, start, script, m, n - 1, q);
      assert Spares(script(n - 1), q);
    }
  }

  /** A visited slot that can move has moved, or heard and then kept what it heard until it sends. */
  lemma {:induction false} VisitIsHeard(seed: Seed, start: World, script: nat -> Label, a: nat, b: nat, c: nat,
        d: nat, q: nat)
    requires Sound(seed, start) && IsVisit(script, a, b, c, d, q)
    requires CanMove(seed, At(seed, start, script, b), q)
    ensures HasCome(At(seed, start, script, b), At(seed, start, script, c), q, HasHeard)
  {
    RunsKeepSound(seed, start, script, b);
    assert At(seed, start, script, a + 1).clients[q].up;
    StaysConnected(seed, start, script, a + 1, b, q);
    Hears(seed, At(seed, start, script, b), q);
    PhaseLasts(seed, start, script, b, b + 1, c, q, HasHeard);
  }

  /** And then it has moved, or has something in flight until it is read. */
  lemma {:induction false} VisitIsSent(seed: Seed, start: World, script: nat -> Label, a: nat, b: nat, c: nat,
        d: nat, q: nat)
    requires Sound(seed, start) && IsVisit(script, a, b, c, d, q) && q < seed.spec.players
    requires HasCome(At(seed, start, script, b), At(seed, start, script, c), q, HasHeard)
    ensures HasCome(At(seed, start, script, b), At(seed, start, script, d), q, HasSent)
  {
    RunsKeepSound(seed, start, script, c);
    assert Spares(script(c), q);
    Sends(seed, At(seed, start, script, b), At(seed, start, script, c), script(c), q);
    PhaseLasts(seed, start, script, b, c + 1, d, q, HasSent);
  }

  /** A visit to a slot that can move when it hears what the room has for it lowers the measure. */
  lemma {:induction false} VisitLowers(seed: Seed, start: World, script: nat -> Label, a: nat, b: nat, c: nat,
        d: nat, q: nat)
    requires Sound(seed, start) && IsVisit(script, a, b, c, d, q)
    requires CanMove(seed, At(seed, start, script, b), q)
    ensures IsLower(seed, At(seed, start, script, d + 1), At(seed, start, script, b))
  {
    VisitIsHeard(seed, start, script, a, b, c, d, q);
    VisitIsSent(seed, start, script, a, b, c, d, q);
    OneLabelMore(seed, start, script, b, d, q, HasSent);
    RunsOnlyProgress(seed, start, script, b, d + 1);
    MovedIsLower(seed, At(seed, start, script, b), At(seed, start, script, d + 1), q);
  }

  lemma {:induction false} MovedIsLower(seed: Seed, w0: World, w: World, q: nat)
    requires IsWorldOf(seed, w0) && IsWorldOf(seed, w) && IsLater(seed, w0, w)
    requires q < seed.spec.players && q !in w0.room.declared && Moved(w0, w, q)
    ensures IsLower(seed, w, w0)
  {
    NoHigherIsNotMore(seed, w0, w);
    if q in w.room.declared {
      var before, after := Everyone(seed.spec.players) - w0.room.declared,
            Everyone(seed.spec.players) - w.room.declared;
      assert q in before && q !in after;
      SmallerSet(after, before);
    } else {
      TotalsApart(w0.room.missing, w.room.missing, q);
    }
  }

  /** A slot that could move and no longer can has moved in the meantime. */
  lemma {:induction false} MovedAlready(seed: Seed, w: World, w': World, q: nat)
    requires Sound(seed, w) && Sound(seed, w') && IsLater(seed, w, w')
    requires CanMove(seed, w, q) && !CanMove(seed, w', q)
    ensures IsLower(seed, w', w)
  {
    HistoryStays(seed, w, w', q);
    MovedIsLower(seed, w, w', q);
  }

  lemma {:induction false} LowerThenNoHigher(seed: Seed, a: World, b: World, c: World)
    requires (IsLower(seed, b, a) && IsNoHigher(seed, c, b)) || (IsNoHigher(seed, b, a) && IsLower(seed, c, b))
    ensures IsLower(seed, c, a)
  {
    if IsNoHigher(seed, c, b) { NoHigherIsNotMore(seed, b, c); }
    if IsNoHigher(seed, b, a) { NoHigherIsNotMore(seed, a, b); }
  }

  /** A visit that comes later, too, lowers the measure from when the slot could move. */
  lemma {:induction false} LaterVisitLowers(seed: Seed, w: World, script: nat -> Label, m: nat, a: nat, b: nat, c: nat,
        d: nat, q: nat)
    requires Sound(seed, w) && m <= b && IsVisit(script, a, b, c, d, q) && CanMove(seed, At(seed, w, script, m), q)
    ensures IsLower(seed, At(seed, w, script, d + 1), At(seed, w, script, m))
  {
    RunsKeepSound(seed, w, script, m);
    RunsKeepSound(seed, w, script, b);
    RunsOnlyProgress(seed, w, script, m, b);
    RunsOnlyProgress(seed, w, script, b, d + 1);
    if CanMove(seed, At(seed, w, script, b), q) {
      VisitLowers(seed, w, script, a, b, c, d, q);
    } else {
      MovedAlready(seed, At(seed, w, script, m), At(seed, w, script, b), q);
    }
    LowerThenNoHigher(seed, At(seed, w, script, m), At(seed, w, script, b), At(seed, w, script, d + 1));
  }

  /** From a moment when somebody can move, a fair run gets strictly closer. */
  lemma {:induction false} FairRunsGetCloser(seed: Seed, w: World, script: nat -> Label, m: nat,
        q: nat) returns (n: nat)
    requires Sound(seed, w) && IsFair(seed, script) && CanMove(seed, At(seed, w, script, m), q)
    ensures n > m && IsLower(seed, At(seed, w, script, n), At(seed, w, script, m))
  {
    assert VisitsFrom(script, m, q);
    var a: nat, b: nat, c: nat, d: nat :| b >= m && IsVisit(script, a, b, c, d, q);
    LaterVisitLowers(seed, w, script, m, a, b, c, d, q);
    n := d + 1;
  }

  lemma {:induction false} EndsAfter(seed: Seed, w: World, script: nat -> Label, m: nat, total: nat,
        undeclared: nat) returns (n: nat)
    requires IsDealt(seed) && Sound(seed, w) && IsFair(seed, script)
    requires total == Total(At(seed, w, script, m).room.missing)
             && undeclared == Undeclared(seed, At(seed, w, script, m))
    ensures IsDone(seed, At(seed, w, script, n))
    decreases total, undeclared
  {
    if IsDone(seed, At(seed, w, script, m)) {
      n := m;
    } else {
      RunsKeepSound(seed, w, script, m);
      var q := SomebodyCanMove(seed, At(seed, w, script, m));
      var k := FairRunsGetCloser(seed, w, script, m, q);
      var next := At(seed, w, script, k);
      n := EndsAfter(seed, w, script, k, Total(next.room.missing), Undeclared(seed, next));
    }
  }

  /**
   Every fair run over a dealt seed, whatever is dropped, lost in flight or restarted on the way, ends
   with every player holding its Goal and every goal declared, and stays there.
   */
  lemma {:induction false} EveryFairRunEnds(seed: Seed, w: World, script: nat -> Label) returns (n: nat)
    requires IsDealt(seed) && IsFresh(seed, w) && IsFair(seed, script)
    ensures forall m: nat :: m >= n ==> IsDone(seed, At(seed, w, script, m))
  {
    assert Sound(seed, w) by {
      forall p | 0 <= p < seed.spec.players ensures ClientFits(w, p) {}
    }
    var first := At(seed, w, script, 0);
    n := EndsAfter(seed, w, script, 0, Total(first.room.missing), Undeclared(seed, first));
    forall m: nat | m >= n ensures IsDone(seed, At(seed, w, script, m)) {
      DoneIsStable(seed, w, script, n, m);
    }
  }

  // ---------------------------------------------------------------- a fair run in which everybody acts at once

  /** What a slot does on each of its turns. */
  function TurnOf(q: nat, turn: nat): Label {
    if turn % 4 == 0 then Connect(q, true)
    else if turn % 4 == 1 then Hear(q, true)
    else if turn % 4 == 2 then Send(q, {}, true)
    else Process(q)
  }

  datatype Position = Position(slot: nat, turn: nat)

  /** Whose turn the `i`th label is, and how many it has had. */
  function PositionAt(players: nat, i: nat): Position {
    if i == 0 then Position(0, 0)
    else
      var before := PositionAt(players, i - 1);
      if before.slot + 1 < players then Position(before.slot + 1, before.turn) else Position(0, before.turn + 1)
  }

  /** The slots take turns label by label: between two labels of one slot every other acts once. */
  function TakingTurns(players: nat): nat -> Label {
    (i: nat) => TurnOf(PositionAt(players, i).slot, PositionAt(players, i).turn)
  }

  /** Where the slot's turn stands in the script. */
  function PlaceOf(players: nat, q: nat, turn: nat): (i: nat)
    ensures i >= q
  {
    if turn == 0 then q else PlaceOf(players, q, turn - 1) + players
  }

  /** Within one turn of everybody the slots follow one another. */
  lemma {:induction false} SlotsFollow(players: nat, i: nat, turn: nat, q: nat)
    requires PositionAt(players, i) == Position(0, turn) && q < players
    ensures PositionAt(players, i + q) == Position(q, turn)
  {
    if q > 0 { SlotsFollow(players, i, turn, q - 1); }
  }

  lemma {:induction false} PlaceIsPosition(players: nat, q: nat, turn: nat)
    requires q < players
    ensures PositionAt(players, PlaceOf(players, q, turn)) == Position(q, turn)
    ensures PlaceOf(players, q, turn) == PlaceOf(players, 0, turn) + q && PlaceOf(players, q, turn) >= turn
    decreases turn, q
  {
    if q > 0 {
      PlaceIsPosition(players, 0, turn);
      SlotsFollow(players, PlaceOf(players, 0, turn), turn, q);
      PlacesAreApart(players, q, turn);
    } else if turn > 0 {
      PlaceIsPosition(players, players - 1, turn - 1);
      PlacesAreApart(players, players - 1, turn - 1);
    }
  }

  lemma {:induction false} PlacesAreApart(players: nat, q: nat, turn: nat)
    ensures PlaceOf(players, q, turn) == PlaceOf(players, 0, turn) + q
  {
    if turn > 0 { PlacesAreApart(players, q, turn - 1); }
  }

  ghost predicate IsTurnOf(script: nat -> Label, players: nat, q: nat, turn: nat) {
    script(PlaceOf(players, q, turn)) == TurnOf(q, turn) && PlaceOf(players, q, turn) >= turn
  }

  /** Four successive turns of a slot, the first at or after `i`, are a visit. */
  lemma {:induction false} TurnsVisit(script: nat -> Label, players: nat, q: nat, i: nat)
    requires players > 0
    requires forall turn: nat :: IsTurnOf(script, players, q, turn)
    requires forall k: nat :: Spares(script(k), q)
    ensures VisitsFrom(script, i, q)
  {
    var t := 4 * i;
    var a, b, c, d := PlaceOf(players, q, t), PlaceOf(players, q, t + 1), PlaceOf(players, q, t + 2),
          PlaceOf(players, q, t + 3);
    assert IsTurnOf(script, players, q, t) && IsTurnOf(script, players, q, t + 1);
    assert IsTurnOf(script, players, q, t + 2) && IsTurnOf(script, players, q, t + 3);
    assert IsVisit(script, a, b, c, d, q);
  }

  /** Any number of slots taking turns for ever is a fair run, though no slot ever acts twice in a row. */
  lemma {:induction false} TakingTurnsIsFair(seed: Seed)
    requires seed.spec.players > 0
    ensures IsFair(seed, TakingTurns(seed.spec.players))
  {
    var n, script := seed.spec.players, TakingTurns(seed.spec.players);
    forall q: nat, i: nat | q < n ensures VisitsFrom(script, i, q) {
      forall turn: nat ensures IsTurnOf(script, n, q, turn) {
        PlaceIsPosition(n, q, turn);
      }
      TurnsVisit(script, n, q, i);
    }
  }
}
