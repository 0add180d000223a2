/**
 The synthetic multiworld: every slot's contribution pooled, shuffled in place and dealt one item a
 location, and the check every deal passes.

 Randomness is a parameter: which ordinary item each draw picks, which are marked progression, and
 which index each step of the shuffle swaps with.
 */
module Deal {
  import opened Rooms

  const ID_BASE: int := 9_100_000_000_000
  const GAME_STRIDE: int := 1_000_000
  const LOCATION_OFFSET: int := 500_000
  const FLAG_PROGRESSION: int := 1
  const MAX_SLOTS: int := 0xffff_ffff

  /** What to build, and which game each slot plays: in a build, the games in turn. */
  datatype Spec = Spec(players: nat, spectators: nat, locations: nat, games: nat, gameOf: nat -> nat) {
    /** What a build refuses to start without. */
    predicate IsPlayable() {
      players > 0 && locations > 0 && games > 0
    }
  }

  /** One game's tables, by id alone. */
  datatype Game = Game(items: seq<int>, goalId: int, locations: seq<int>)

  datatype Placed = Placed(item: int, receiver: nat, flags: int)

  type Hand = seq<Placed>

  function Consecutive(first: int, n: nat): (ids: seq<int>)
    ensures |ids| == n && forall i :: 0 <= i < n ==> ids[i] == first + i
  {
    seq(n, i => first + i)
  }

  /**
   The tables of game number `index`: items from the block's start, the Goal after them, locations from its
   middle.
   */
  function GameAt(spec: Spec, index: nat): (g: Game)
    requires spec.locations > 0
  {
    var base := ID_BASE + index * GAME_STRIDE;
    Game(Consecutive(base, spec.locations - 1), base + spec.locations - 1,
         Consecutive(base + LOCATION_OFFSET, spec.locations))
  }

  function GamesOf(spec: Spec): (games: seq<Game>)
    requires spec.locations > 0
    ensures |games| == spec.games
    ensures forall g :: 0 <= g < |games| ==> games[g] == GameAt(spec, g) && games[g].goalId !in games[g].items
  {
    seq(spec.games, i requires 0 <= i => GameAt(spec, i))
  }

  /** The ids one game uses for its items and its Goal, and for its locations. */
  ghost predicate UsesForItems(spec: Spec, index: nat, id: int)
    requires spec.locations > 0
  {
    id in GameAt(spec, index).items || id == GameAt(spec, index).goalId
  }

  ghost predicate UsesForLocations(spec: Spec, index: nat, id: int)
    requires spec.locations > 0
  {
    id in GameAt(spec, index).locations
  }

  /** No id is both an item's and a location's, in one game or across two. */
  ghost predicate IdsAreDisjoint(spec: Spec)
    requires spec.locations > 0
  {
    forall g: nat, h: nat, id: int :: g < spec.games && h < spec.games ==>
      !(UsesForItems(spec, g, id) && UsesForLocations(spec, h, id))
  }

  lemma {:induction false} ItemsRange(spec: Spec, index: nat, id: int)
    requires spec.locations > 0
    ensures UsesForItems(spec, index, id) <==>
              ID_BASE + index * GAME_STRIDE <= id < ID_BASE + index * GAME_STRIDE + spec.locations
    ensures UsesForLocations(spec, index, id) <==>
              ID_BASE + index * GAME_STRIDE + LOCATION_OFFSET <= id
              < ID_BASE + index * GAME_STRIDE + LOCATION_OFFSET + spec.locations
  {
    var base := ID_BASE + index * GAME_STRIDE;
    var game := GameAt(spec, index);
    if base <= id < base + spec.locations - 1 {
      assert game.items[id - base] == id;
    }
    if base + LOCATION_OFFSET <= id < base + LOCATION_OFFSET + spec.locations {
      assert game.locations[id - base - LOCATION_OFFSET] == id;
    }
  }

  /** Item and location ids keep apart exactly as long as a slot has no more locations than the offset between them. */
  lemma {:induction false} IdsAreDisjointIff(spec: Spec)
    requires spec.IsPlayable()
    ensures IdsAreDisjoint(spec) <==> spec.locations <= 500_000
  {
    if spec.locations <= LOCATION_OFFSET {
      forall g: nat, h: nat, id: int | g < spec.games && h < spec.games
        ensures !(UsesForItems(spec, g, id) && UsesForLocations(spec, h, id))
      {
        ItemsRange(spec, g, id);
        ItemsRange(spec, h, id);
      }
    } else {
      ItemsRange(spec, 0, ID_BASE + LOCATION_OFFSET);
      assert UsesForItems(spec, 0, ID_BASE + LOCATION_OFFSET) && UsesForLocations(spec, 0, ID_BASE + LOCATION_OFFSET);
    }
  }

  function GoalOf(spec: Spec, player: nat): int
    requires spec.IsPlayable()
  {
    GameAt(spec, spec.gameOf(player)).goalId
  }

  // ---------------------------------------------------------------- counting Goals

  /** Somebody's own Goal. */
  predicate IsGoalOf(spec: Spec, p: Placed, player: nat)
    requires spec.IsPlayable()
  {
    p.receiver == player + 1 && p.item == GoalOf(spec, player)
  }

  function GoalsUpTo(spec: Spec, hand: Hand, n: nat, player: nat): nat
    requires spec.IsPlayable() && n <= |hand|
  {
    if n == 0 then 0 else GoalsUpTo(spec, hand, n - 1, player) + if IsGoalOf(spec, hand[n - 1], player) then 1 else 0
  }

  /** How many of a player's own Goals a hand holds. */
  function GoalsIn(spec: Spec, hand: Hand, player: nat): nat
    requires spec.IsPlayable()
  {
    GoalsUpTo(spec, hand, |hand|, player)
  }

  lemma {:induction false} GoalsOfPrefix(spec: Spec, a: Hand, b: Hand, n: nat, player: nat)
    requires spec.IsPlayable() && n <= |a| && n <= |b|
    requires forall i :: 0 <= i < n ==> a[i] == b[i]
    ensures GoalsUpTo(spec, a, n, player) == GoalsUpTo(spec, b, n, player)
  {
    if n > 0 { GoalsOfPrefix(spec, a, b, n - 1, player); }
  }

  lemma {:induction false} GoalsPast(spec: Spec, a: Hand, b: Hand, n: nat, player: nat)
    requires spec.IsPlayable() && n <= |b|
    ensures GoalsUpTo(spec, a + b, |a| + n, player) == GoalsIn(spec, a, player) + GoalsUpTo(spec, b, n, player)
  {
    if n == 0 {
      GoalsOfPrefix(spec, a + b, a, |a|, player);
    } else {
      GoalsPast(spec, a, b, n - 1, player);
    }
  }

  lemma {:induction false} GoalsConcat(spec: Spec, a: Hand, b: Hand, player: nat)
    requires spec.IsPlayable()
    ensures GoalsIn(spec, a + b, player) == GoalsIn(spec, a, player) + GoalsIn(spec, b, player)
  {
    GoalsPast(spec, a, b, |b|, player);
  }

  lemma {:induction false} GoalsInOne(spec: Spec, p: Placed, player: nat)
    requires spec.IsPlayable()
    ensures GoalsIn(spec, [p], player) == if IsGoalOf(spec, p, player) then 1 else 0
  {
    assert GoalsUpTo(spec, [p], 0, player) == 0;
  }

  lemma {:induction false} GoalsWithout(spec: Spec, hand: Hand, i: nat, player: nat)
    requires spec.IsPlayable() && i < |hand|
    ensures GoalsIn(spec, hand, player)
            == GoalsIn(spec, hand[..i] + hand[i + 1..], player) + if IsGoalOf(spec, hand[i], player) then 1 else 0
  {
    assert hand == hand[..i] + ([hand[i]] + hand[i + 1..]);
    GoalsConcat(spec, hand[..i], [hand[i]] + hand[i + 1..], player);
    GoalsConcat(spec, [hand[i]], hand[i + 1..], player);
    GoalsConcat(spec, hand[..i], hand[i + 1..], player);
    GoalsInOne(spec, hand[i], player);
  }

  /** Shuffling cannot change how many Goals there are. */
  lemma {:induction false} GoalsArePermuted(spec: Spec, a: Hand, b: Hand, player: nat)
    requires spec.IsPlayable() && multiset(a) == multiset(b)
    ensures GoalsIn(spec, a, player) == GoalsIn(spec, b, player)
    decreases |a|
  {
    if a == [] {
      assert |multiset(b)| == 0;
    } else {
      var last, front := a[|a| - 1], a[..|a| - 1];
      assert a == front + [last];
      assert last in multiset(b);
      var i :| 0 <= i < |b| && b[i] == last;
      var rest := b[..i] + b[i + 1..];
      assert b == b[..i] + [last] + b[i + 1..];
      assert multiset(rest) == multiset(b) - multiset{last};
      assert multiset(front) == multiset(a) - multiset{last};
      GoalsArePermuted(spec, front, rest, player);
      GoalsWithout(spec, b, i, player);
      GoalsConcat(spec, front, [last], player);
      GoalsInOne(spec, last, player);
    }
  }

  // ---------------------------------------------------------------- the pool

  /** A random index below `n`. */
  function Pick(draw: nat, n: nat): (i: nat)
    requires n > 0
    ensures i < n
  {
    if draw < n then draw else 0
  }

  /** What the random source decides of a contribution: the ordinary items drawn, and the progression marks. */
  datatype Contents = Contents(item: (nat, nat) -> nat, marked: (nat, nat) -> bool)

  /** And of the whole deal: the shuffle's swaps as well. */
  datatype Draws = Draws(contents: Contents, swap: nat -> nat)

  function Ordinary(spec: Spec, d: Contents, player: nat, n: nat): (hand: Hand)
    requires spec.IsPlayable() && n <= spec.locations - 1
    ensures |hand| == n
    ensures forall i :: 0 <= i < n ==>
              hand[i].receiver == player + 1 && hand[i].item in GameAt(spec, spec.gameOf(player)).items
  {
    if n == 0 then []
    else
      var items := GameAt(spec, spec.gameOf(player)).items;
      Ordinary(spec, d, player, n - 1)
      + [Placed(items[Pick(d.item(player, n - 1), |items|)], player + 1,
                if d.marked(player, n - 1) then FLAG_PROGRESSION else 0)]
  }

  /** One slot's contribution: as many items as it has locations, the last its Goal. */
  function Contribution(spec: Spec, d: Contents, player: nat): (hand: Hand)
    requires spec.IsPlayable()
    ensures |hand| == spec.locations
  {
    Ordinary(spec, d, player, spec.locations - 1) + [Placed(GoalOf(spec, player), player + 1, FLAG_PROGRESSION)]
  }

  function Pool(spec: Spec, d: Contents, players: nat): Hand
    requires spec.IsPlayable()
  {
    if players == 0 then [] else Pool(spec, d, players - 1) + Contribution(spec, d, players - 1)
  }

  lemma {:induction false} OrdinaryHasNoGoal(spec: Spec, d: Contents, player: nat, n: nat, of: nat)
    requires spec.IsPlayable() && n <= spec.locations - 1
    ensures GoalsUpTo(spec, Ordinary(spec, d, player, spec.locations - 1), n, of) == 0
  {
    if n > 0 { OrdinaryHasNoGoal(spec, d, player, n - 1, of); }
  }

  lemma {:induction false} ContributionHasOneGoal(spec: Spec, d: Contents, player: nat, of: nat)
    requires spec.IsPlayable()
    ensures GoalsIn(spec, Contribution(spec, d, player), of) == if of == player then 1 else 0
  {
    var goal := Placed(GoalOf(spec, player), player + 1, FLAG_PROGRESSION);
    OrdinaryHasNoGoal(spec, d, player, spec.locations - 1, of);
    GoalsConcat(spec, Ordinary(spec, d, player, spec.locations - 1), [goal], of);
    GoalsInOne(spec, goal, of);
  }

  /** The Goals of each contribution, added up. */
  function GoalsContributed(spec: Spec, d: Contents, players: nat, of: nat): nat
    requires spec.IsPlayable()
  {
    if players == 0 then 0
    else GoalsContributed(spec, d, players - 1, of) + GoalsIn(spec, Contribution(spec, d, players - 1), of)
  }

  lemma {:induction false} PoolAddsUp(spec: Spec, d: Contents, players: nat, of: nat)
    requires spec.IsPlayable()
    ensures GoalsIn(spec, Pool(spec, d, players), of) == GoalsContributed(spec, d, players, of)
  {
    if players > 0 {
      PoolAddsUp(spec, d, players - 1, of);
      GoalsConcat(spec, Pool(spec, d, players - 1), Contribution(spec, d, players - 1), of);
    }
  }

  lemma {:induction false} OneGoalContributed(spec: Spec, d: Contents, players: nat, of: nat)
    requires spec.IsPlayable()
    ensures GoalsContributed(spec, d, players, of) == if of < players then 1 else 0
  {
    if players > 0 {
      OneGoalContributed(spec, d, players - 1, of);
      ContributionHasOneGoal(spec, d, players - 1, of);
    }
  }

  /** Repeated addition, kept apart from multiplication. */
  lemma {:induction false} Times(a: nat, n: nat)
    ensures (a + 1) * n == a * n + n
  {
  }

  lemma {:induction false} MoreSlots(a: nat, b: nat, n: nat)
    requires a < b
    ensures (a + 1) * n == a * n + n && (a + 1) * n <= b * n
  {
    assert b * n == (a + 1) * n + (b - a - 1) * n;
  }

  lemma {:induction false} PoolSize(spec: Spec, d: Contents, players: nat)
    requires spec.IsPlayable()
    ensures |Pool(spec, d, players)| == players * spec.locations
  {
    if players > 0 {
      PoolSize(spec, d, players - 1);
      Times(players - 1, spec.locations);
    }
  }

  lemma {:induction false} OrdinaryHolds(spec: Spec, d: Contents, player: nat, n: nat, k: nat)
    requires spec.IsPlayable() && k < n <= spec.locations - 1
    ensures var items := GameAt(spec, spec.gameOf(player)).items;
            Ordinary(spec, d, player, n)[k]
            == Placed(items[Pick(d.item(player, k), |items|)], player + 1,
                      if d.marked(player, k) then FLAG_PROGRESSION else 0)
  {
    if k < n - 1 { OrdinaryHolds(spec, d, player, n - 1, k); }
  }

  /** A player's item number `n`, by its ids alone: the one drawn for it, marked as drawn, and last of all its Goal. */
  ghost predicate IsContributed(spec: Spec, d: Contents, player: nat, n: nat, placed: Placed) {
    var first := 9_100_000_000_000 + spec.gameOf(player) * 1_000_000;
    && placed.receiver == player + 1
    && (n == spec.locations - 1 ==> placed.item == first + n && placed.flags == 1)
    && (n < spec.locations - 1 && d.item(player, n) < spec.locations - 1 ==>
          placed.item == first + d.item(player, n) && placed.flags == if d.marked(player, n) then 1 else 0)
  }

  lemma {:induction false} ContributionHolds(spec: Spec, d: Contents, player: nat, n: nat)
    requires spec.IsPlayable() && n < spec.locations
    ensures IsContributed(spec, d, player, n, Contribution(spec, d, player)[n])
  {
    if n < spec.locations - 1 { OrdinaryHolds(spec, d, player, spec.locations - 1, n); }
  }

  lemma {:induction false} PoolJoins(spec: Spec, d: Contents, players: nat, player: nat, at: nat, n: nat)
    requires spec.IsPlayable() && player < players && n < spec.locations && at == player * spec.locations + n
    ensures at < |Pool(spec, d, players)| && Pool(spec, d, players)[at] == Contribution(spec, d, player)[n]
    decreases players
  {
    PoolSize(spec, d, players - 1);
    if player < players - 1 { PoolJoins(spec, d, players - 1, player, at, n); }
  }

  /** What stands where in the pool: for each player in turn what it contributes, number by number. */
  lemma {:induction false} PoolHolds(spec: Spec, d: Contents, player: nat, n: nat, at: nat)
    requires spec.IsPlayable() && player < spec.players && n < spec.locations && at == player * spec.locations + n
    ensures at < |Pool(spec, d, spec.players)|
    ensures IsContributed(spec, d, player, n, Pool(spec, d, spec.players)[at])
  {
    PoolJoins(spec, d, spec.players, player, at, n);
    ContributionHolds(spec, d, player, n);
  }

  // ---------------------------------------------------------------- dealing

  /** All the hands of a deal end to end. */
  function Joined(hands: seq<Hand>): (all: Hand) {
    if hands == [] then [] else Joined(hands[..|hands| - 1]) + hands[|hands| - 1]
  }

  /** The pool without the one at `j`, whose gap the one that stood last fills. */
  function Without<T>(pool: seq<T>, j: nat): (rest: seq<T>)
    requires j < |pool|
    ensures |rest| == |pool| - 1
  {
    pool[j := pool[|pool| - 1]][..|pool| - 1]
  }

  /**
   The order the draws settle on, from the last place down: it takes one drawn from all there are, the one that stood
   last fills the gap, and the rest is settled likewise.
   */
  function Drawn<T>(pool: seq<T>, swap: nat -> nat): (order: seq<T>)
    ensures |order| == |pool|
    decreases |pool|
  {
    if |pool| <= 1 then pool
    else
      var j := Pick(swap(|pool| - 1), |pool|);
      Drawn(Without(pool, j), swap) + [pool[j]]
  }

  lemma {:induction false} RestIsPermuted<T>(pool: seq<T>, j: nat)
    requires j < |pool|
    ensures multiset(Without(pool, j)) == multiset(pool) - multiset{pool[j]}
  {
    var last := |pool| - 1;
    var filled := pool[j := pool[last]];
    assert filled == Without(pool, j) + [pool[last]];
    assert multiset(filled) == multiset(pool) - multiset{pool[j]} + multiset{pool[last]};
    assert multiset(Without(pool, j)) == multiset(filled) - multiset{pool[last]};
  }

  lemma {:induction false} DrawnIsPermuted<T>(pool: seq<T>, swap: nat -> nat)
    ensures multiset(Drawn(pool, swap)) == multiset(pool)
    decreases |pool|
  {
    if |pool| > 1 {
      var j := Pick(swap(|pool| - 1), |pool|);
      RestIsPermuted(pool, j);
      DrawnIsPermuted(Without(pool, j), swap);
    }
  }

  /** Draws that agree below the length of the pool settle on one order. */
  lemma {:induction false} DrawnReadsBelow<T>(pool: seq<T>, a: nat -> nat, b: nat -> nat)
    requires forall i: nat :: i < |pool| ==> a(i) == b(i)
    ensures Drawn(pool, a) == Drawn(pool, b)
    decreases |pool|
  {
    if |pool| > 1 {
      DrawnReadsBelow(Without(pool, Pick(a(|pool| - 1), |pool|)), a, b);
    }
  }

  /** Wherever the wanted last one stands, the rest of the order is a permutation of the rest of the pool. */
  lemma {:induction false} LastIsInPool<T>(pool: seq<T>, order: seq<T>) returns (j: nat)
    requires order != [] && multiset(order) == multiset(pool)
    ensures j < |pool| && pool[j] == order[|order| - 1] && |order| == |pool|
    ensures multiset(order[..|order| - 1]) == multiset(Without(pool, j))
  {
    var wanted := order[|order| - 1];
    assert order == order[..|order| - 1] + [wanted];
    assert wanted in multiset(pool);
    j :| j < |pool| && pool[j] == wanted;
    RestIsPermuted(pool, j);
    assert |multiset(pool)| == |pool| && |multiset(order)| == |order|;
  }

  /** Every order can be drawn: whatever permutation of the pool one likes, some draws settle on it. */
  lemma {:induction false} EveryOrderIsDrawn<T>(pool: seq<T>, order: seq<T>) returns (swap: nat -> nat)
    requires multiset(order) == multiset(pool)
    ensures Drawn(pool, swap) == order
    decreases |order|
  {
    if order == [] {
      assert |multiset(pool)| == 0;
      swap := (i: nat) => 0;
    } else {
      var j := LastIsInPool(pool, order);
      var last := |order| - 1;
      var rest := EveryOrderIsDrawn(Without(pool, j), order[..last]);
      swap := (i: nat) => if i == last then j else rest(i);
      DrawnReadsBelow(Without(pool, j), swap, rest);
      assert order == order[..last] + [order[last]];
      assert |pool| == 1 ==> pool == order;
    }
  }

  ghost predicate AllDiffer<T(!new)>(pool: seq<T>) {
    forall i, k :: 0 <= i < k < |pool| ==> pool[i] != pool[k]
  }

  /** Two draws pick alike at every place of a pool of `n`. */
  ghost predicate PickAlike(a: nat -> nat, b: nat -> nat, n: nat) {
    forall i: nat :: 0 < i < n ==> Pick(a(i), i + 1) == Pick(b(i), i + 1)
  }

  lemma {:induction false} RestDiffers<T(!new)>(pool: seq<T>, j: nat)
    requires AllDiffer(pool) && j < |pool|
    ensures AllDiffer(Without(pool, j))
  {
  }

  lemma {:induction false} OneFewerAlike(a: nat -> nat, b: nat -> nat, n: nat)
    requires n > 1
    ensures PickAlike(a, b, n) <==> PickAlike(a, b, n - 1) && Pick(a(n - 1), n) == Pick(b(n - 1), n)
  {
  }

  /** The draws decide the order: of items that all differ, two draws leave the same order only if they pick alike. */
  lemma {:induction false} DrawsDecide<T(!new)>(pool: seq<T>, a: nat -> nat, b: nat -> nat)
    requires AllDiffer(pool)
    ensures Drawn(pool, a) == Drawn(pool, b) <==> PickAlike(a, b, |pool|)
    decreases |pool|
  {
    if |pool| > 1 {
      var last := |pool| - 1;
      var j, k := Pick(a(last), |pool|), Pick(b(last), |pool|);
      OneFewerAlike(a, b, |pool|);
      assert Drawn(pool, a)[last] == pool[j] && Drawn(pool, b)[last] == pool[k];
      if j == k {
        RestDiffers(pool, j);
        var rest := Without(pool, j);
        DrawsDecide(rest, a, b);
        assert Drawn(pool, a)[..last] == Drawn(rest, a) && Drawn(pool, b)[..last] == Drawn(rest, b);
      } else {
        assert if j < k then pool[j] != pool[k] else pool[k] != pool[j];
      }
    }
  }

  lemma {:induction false} OneSwap<T>(before: seq<T>, after: seq<T>, i: nat, swap: nat -> nat)
    requires 0 < i < |before| == |after|
    requires var j := Pick(swap(i), i + 1); after == before[i := before[j]][j := before[i]]
    ensures Drawn(before[..i + 1], swap) + before[i + 1..] == Drawn(after[..i], swap) + after[i..]
  {
    var j := Pick(swap(i), i + 1);
    var front := before[..i + 1];
    assert after[..i] == Without(front, j);
    assert after[i..] == [front[j]] + before[i + 1..];
  }

  /** Each slot in turn swaps with one drawn from those not yet settled. */
  method Shuffle(pool: array<Placed>, swap: nat -> nat)
    modifies pool
    ensures pool[..] == Drawn(old(pool[..]), swap)
    ensures multiset(pool[..]) == multiset(old(pool[..]))
  {
    var i := pool.Length;
    assert pool[..i] == pool[..];
    while i > 1
      invariant 0 <= i <= pool.Length
      invariant Drawn(pool[..i], swap) + pool[i..] == Drawn(old(pool[..]), swap)
    {
      i := i - 1;
      var j := Pick(swap(i), i + 1);
      ghost var before := pool[..];
      pool[i], pool[j] := pool[j], pool[i];
      OneSwap(before, pool[..], i, swap);
    }
    assert pool[..] == pool[..i] + pool[i..];
    DrawnIsPermuted(old(pool[..]), swap);
  }

  /** A shuffled pool, a slot's worth at a time. */
  method HandOut(pool: array<Placed>, players: nat, locations: nat) returns (hands: seq<Hand>)
    requires pool.Length == players * locations
    ensures |hands| == players
    ensures forall p :: 0 <= p < |hands| ==> |hands[p]| == locations
    ensures Joined(hands) == pool[..]
  {
    hands := [];
    var dealt := 0;
    for player := 0 to players
      invariant |hands| == player && dealt == player * locations <= pool.Length
      invariant forall p :: 0 <= p < player ==> |hands[p]| == locations
      invariant Joined(hands) == pool[..dealt]
    {
      MoreSlots(player, players, locations);
      var hand := pool[dealt..dealt + locations];
      assert pool[..dealt + locations] == pool[..dealt] + hand;
      assert (hands + [hand])[..player] == hands;
      hands := hands + [hand];
      dealt := dealt + locations;
    }
    assert pool[..dealt] == pool[..];
  }

  /** One hand a player, one item a location. */
  predicate AreFull(spec: Spec, hands: seq<Hand>) {
    |hands| == spec.players && forall p :: 0 <= p < |hands| ==> |hands[p]| == spec.locations
  }

  /** The hands these draws come to: end to end, the pool in the order they settle on. */
  ghost predicate IsDealt(spec: Spec, d: Draws, hands: seq<Hand>)
    requires spec.IsPlayable()
  {
    AreFull(spec, hands) && Joined(hands) == Drawn(Pool(spec, d.contents, spec.players), d.swap)
  }

  /** The whole deal: contributions pooled, shuffled, and handed out a slot's worth at a time. */
  method DealHands(spec: Spec, d: Draws) returns (hands: seq<Hand>)
    requires spec.IsPlayable()
    ensures IsDealt(spec, d, hands)
    ensures multiset(Joined(hands)) == multiset(Pool(spec, d.contents, spec.players))
  {
    var contributed: Hand := [];
    for player := 0 to spec.players
      invariant contributed == Pool(spec, d.contents, player)
    {
      contributed := contributed + Contribution(spec, d.contents, player);
    }
    PoolSize(spec, d.contents, spec.players);
    var pool := new Placed[|contributed|](i requires 0 <= i < |contributed| => contributed[i]);
    assert pool[..] == contributed;
    Shuffle(pool, d.swap);
    hands := HandOut(pool, spec.players, spec.locations);
  }

  /** Full hands are told apart by what they hold end to end. */
  lemma {:induction false} JoinedTellsApart(a: seq<Hand>, b: seq<Hand>)
    requires |a| == |b| && (forall p :: 0 <= p < |a| ==> |a[p]| == |b[p]|) && Joined(a) == Joined(b)
    ensures a == b
    decreases |a|
  {
    if a != [] {
      var last := |a| - 1;
      assert Joined(a) == Joined(a[..last]) + a[last] && Joined(b) == Joined(b[..last]) + b[last];
      assert |Joined(a[..last])| == |Joined(b[..last])|;
      assert Joined(a)[..|Joined(a[..last])|] == Joined(a[..last]);
      assert Joined(b)[..|Joined(b[..last])|] == Joined(b[..last]);
      assert Joined(a)[|Joined(a[..last])|..] == a[last] && Joined(b)[|Joined(b[..last])|..] == b[last];
      JoinedTellsApart(a[..last], b[..last]);
      assert a == a[..last] + [a[last]] && b == b[..last] + [b[last]];
    }
  }

  /** Every arrangement of the pool into full hands is dealt, and by some draws it is the only one. */
  lemma {:induction false} EveryArrangementIsDealt(spec: Spec, d: Draws, hands: seq<Hand>) returns (swap: nat -> nat)
    requires spec.IsPlayable()
    requires AreFull(spec, hands) && multiset(Joined(hands)) == multiset(Pool(spec, d.contents, spec.players))
    ensures forall dealt :: IsDealt(spec, d.(swap := swap), dealt) <==> dealt == hands
  {
    swap := EveryOrderIsDrawn(Pool(spec, d.contents, spec.players), Joined(hands));
    assert IsDealt(spec, d.(swap := swap), hands);
    forall dealt | IsDealt(spec, d.(swap := swap), dealt) ensures dealt == hands {
      JoinedTellsApart(dealt, hands);
    }
  }

  /** However the pool was drawn and shuffled, each player has exactly one Goal addressed to it, somewhere. */
  lemma {:induction false} DealsHaveOneGoalEach(spec: Spec, d: Draws, hands: seq<Hand>, player: nat)
    requires spec.IsPlayable() && multiset(Joined(hands)) == multiset(Pool(spec, d.contents, spec.players))
    ensures GoalsIn(spec, Joined(hands), player) == if player < spec.players then 1 else 0
  {
    GoalsArePermuted(spec, Joined(hands), Pool(spec, d.contents, spec.players), player);
    PoolAddsUp(spec, d.contents, spec.players, player);
    OneGoalContributed(spec, d.contents, spec.players, player);
  }

  // ---------------------------------------------------------------- the check

  datatype Verdict = Accepted | WrongCount(slot: nat) | WrongGoals(slot: nat) | TooManySlots

  /** Every item is addressed to one of the players. */
  ghost predicate IsAddressed(spec: Spec, hand: Hand) {
    forall i :: 0 <= i < |hand| ==> 1 <= hand[i].receiver <= spec.players
  }

  /** How a hand's Goals tally for each owner. */
  ghost predicate IsTally(spec: Spec, goals: seq<nat>, seen: Hand)
    requires spec.IsPlayable()
  {
    |goals| == spec.players && forall p :: 0 <= p < spec.players ==> goals[p] == GoalsIn(spec, seen, p)
  }

  lemma {:induction false} TallyOne(spec: Spec, goals: seq<nat>, seen: Hand, item: Placed)
    requires spec.IsPlayable() && IsTally(spec, goals, seen) && 1 <= item.receiver <= spec.players
    ensures var owner := item.receiver - 1;
            IsTally(spec, if item.item == GoalOf(spec, owner) then goals[owner := goals[owner] + 1] else goals,
                    seen + [item])
  {
    forall p: nat | p < spec.players
      ensures GoalsIn(spec, seen + [item], p) == GoalsIn(spec, seen, p) + if IsGoalOf(spec, item, p) then 1 else 0
    {
      GoalsConcat(spec, seen, [item], p);
      GoalsInOne(spec, item, p);
    }
  }

  /** The tally of one hand on top of those before it. */
  method TallyHand(spec: Spec, goals: seq<nat>, hand: Hand, ghost seen: Hand) returns (tallied: seq<nat>)
    requires spec.IsPlayable() && IsTally(spec, goals, seen) && IsAddressed(spec, hand)
    ensures IsTally(spec, tallied, seen + hand)
  {
    tallied := goals;
    assert seen + hand[..0] == seen;
    for i := 0 to |hand|
      invariant IsTally(spec, tallied, seen + hand[..i])
    {
      var owner := hand[i].receiver - 1;
      TallyOne(spec, tallied, seen + hand[..i], hand[i]);
      if hand[i].item == GoalOf(spec, owner) {
        tallied := tallied[owner := tallied[owner] + 1];
      }
      assert seen + hand[..i + 1] == seen + hand[..i] + [hand[i]];
    }
    assert hand[..|hand|] == hand;
  }

  /** Exactly one of the player's own Goals is somewhere in the deal. */
  predicate HasOneGoal(spec: Spec, hands: seq<Hand>, player: nat)
    requires spec.IsPlayable()
  {
    GoalsIn(spec, Joined(hands), player) == 1
  }

  /** `check_invariants`: the first thing wrong with a deal, if anything is. */
  method CheckInvariants(spec: Spec, hands: seq<Hand>) returns (v: Verdict)
    requires spec.IsPlayable()
    requires forall h :: 0 <= h < |hands| ==> IsAddressed(spec, hands[h])
    ensures v.Accepted? <==>
              && (forall h :: 0 <= h < |hands| ==> |hands[h]| == spec.locations)
              && (forall p :: 0 <= p < spec.players ==> HasOneGoal(spec, hands, p))
              && spec.players + spec.spectators <= MAX_SLOTS
    ensures v.WrongCount? ==> 1 <= v.slot <= |hands| && |hands[v.slot - 1]| != spec.locations
    ensures v.WrongGoals? ==> 1 <= v.slot <= spec.players && !HasOneGoal(spec, hands, v.slot - 1)
  {
    for h := 0 to |hands|
      invariant forall k :: 0 <= k < h ==> |hands[k]| == spec.locations
    {
      if |hands[h]| != spec.locations { return WrongCount(h + 1); }
    }
    var goals: seq<nat> := seq(spec.players, _ => 0);
    for h := 0 to |hands|
      invariant IsTally(spec, goals, Joined(hands[..h]))
    {
      assert hands[..h + 1][..h] == hands[..h];
      goals := TallyHand(spec, goals, hands[h], Joined(hands[..h]));
    }
    assert hands[..|hands|] == hands;
    for p := 0 to spec.players
      invariant forall k :: 0 <= k < p ==> HasOneGoal(spec, hands, k)
    {
      if goals[p] != 1 {
        assert !HasOneGoal(spec, hands, p);
        return WrongGoals(p + 1);
      }
    }
    if spec.players + spec.spectators > MAX_SLOTS { return TooManySlots; }
    return Accepted;
  }

  lemma {:induction false} PoolIsAddressed(spec: Spec, d: Draws, players: nat)
    requires spec.IsPlayable() && players <= spec.players
    ensures IsAddressed(spec, Pool(spec, d.contents, players))
  {
    if players > 0 { PoolIsAddressed(spec, d, players - 1); }
  }

  lemma {:induction false} HandsAreAddressed(spec: Spec, hands: seq<Hand>, h: nat)
    requires h < |hands| && IsAddressed(spec, Joined(hands))
    ensures IsAddressed(spec, hands[h])
  {
    var last := |hands| - 1;
    var front := Joined(hands[..last]);
    assert Joined(hands) == front + hands[last];
    if h == last {
      forall i | 0 <= i < |hands[last]| ensures 1 <= hands[last][i].receiver <= spec.players {
        assert Joined(hands)[|front| + i] == hands[last][i];
      }
    } else {
      forall i | 0 <= i < |front| ensures 1 <= front[i].receiver <= spec.players {
        assert Joined(hands)[i] == front[i];
      }
      HandsAreAddressed(spec, hands[..last], h);
    }
  }

  lemma {:induction false} PermutedIsAddressed(spec: Spec, a: Hand, b: Hand)
    requires multiset(a) == multiset(b) && IsAddressed(spec, b)
    ensures IsAddressed(spec, a)
  {
    forall i | 0 <= i < |a|
      ensures 1 <= a[i].receiver <= spec.players
    {
      assert a[i] in multiset(b);
    }
  }

  /** A build's deal and its check: the check accepts every deal, unless the slots do not fit a slot number. */
  method Build(spec: Spec, d: Draws) returns (hands: seq<Hand>, v: Verdict)
    requires spec.IsPlayable()
    ensures IsDealt(spec, d, hands)
    ensures multiset(Joined(hands)) == multiset(Pool(spec, d.contents, spec.players))
    ensures v == if spec.players + spec.spectators < 0x1_0000_0000 then Accepted else TooManySlots
  {
    hands := DealHands(spec, d);
    PoolIsAddressed(spec, d, spec.players);
    PermutedIsAddressed(spec, Joined(hands), Pool(spec, d.contents, spec.players));
    forall h | 0 <= h < |hands| ensures IsAddressed(spec, hands[h]) {
      HandsAreAddressed(spec, hands, h);
    }
    forall p | 0 <= p < spec.players ensures HasOneGoal(spec, hands, p) {
      DealsHaveOneGoalEach(spec, d, hands, p);
    }
    v := CheckInvariants(spec, hands);
  }
}
