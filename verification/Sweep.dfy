/** Collecting Deployments whose room does not exist: two consecutive sightings and two minutes of age. */
module Sweep {
  import opened Rooms

  const ORPHAN_MIN_AGE: int := 120

  type Name = string

  /** A managed Deployment as a snapshot lists it. */
  datatype Seen = Seen(name: Name, room: Option<RoomId>, createdAt: Time)

  /** What one collection looks at. */
  datatype Sight = Sight(now: Time, deployments: seq<Seen>, known: set<RoomId>)

  predicate IsOrphan(d: Seen, known: set<RoomId>) {
    d.room.None? || d.room.value !in known
  }

  predicate IsOldEnough(d: Seen, now: Time) {
    now - d.createdAt >= ORPHAN_MIN_AGE
  }

  /** The name is that of an orphan in this sight. */
  ghost predicate IsOrphaned(s: Sight, name: Name) {
    exists d :: d in s.deployments && d.name == name && IsOrphan(d, s.known)
  }

  function OrphanNames(deployments: seq<Seen>, known: set<RoomId>): (names: set<Name>)
    ensures forall name :: name in names <==> exists d :: d in deployments && d.name == name && IsOrphan(d, known)
  {
    if deployments == [] then {}
    else
      var d := deployments[|deployments| - 1];
      OrphanNames(deployments[..|deployments| - 1], known) + if IsOrphan(d, known) then {d.name} else {}
  }

  function Count(deployments: seq<Seen>, known: set<RoomId>): nat {
    if deployments == [] then 0
    else Count(deployments[..|deployments| - 1], known)
         + if IsOrphan(deployments[|deployments| - 1], known) then 1 else 0
  }

  /** The Deployments one collection asks the cluster to delete, in order. */
  function Condemned(deployments: seq<Seen>, known: set<RoomId>, previously: set<Name>,
        now: Time): (condemned: seq<Name>)
    ensures forall name :: name in condemned <==>
              && name in previously
              && exists d :: d in deployments && d.name == name && IsOrphan(d, known) && IsOldEnough(d, now)
  {
    if deployments == [] then []
    else
      var d := deployments[|deployments| - 1];
      Condemned(deployments[..|deployments| - 1], known, previously, now)
      + if IsOrphan(d, known) && d.name in previously && IsOldEnough(d, now) then [d.name] else []
  }

  function Successes(names: seq<Name>, succeeds: Name -> bool): nat {
    if names == [] then 0
    else Successes(names[..|names| - 1], succeeds) + if succeeds(names[|names| - 1]) then 1 else 0
  }

  /** One more Deployment, as the loop meets it. */
  lemma {:induction false} OneMoreDeployment(deployments: seq<Seen>, i: nat, known: set<RoomId>,
        previously: set<Name>, now: Time)
    requires i < |deployments|
    ensures var d, orphan := deployments[i], IsOrphan(deployments[i], known);
            && OrphanNames(deployments[..i + 1], known) == OrphanNames(deployments[..i],
                  known) + (if orphan then {d.name} else {})
            && Count(deployments[..i + 1], known) == Count(deployments[..i], known) + (if orphan then 1 else 0)
            && Condemned(deployments[..i + 1], known, previously, now)
               == Condemned(deployments[..i], known, previously, now)
                  + (if orphan && d.name in previously && IsOldEnough(d, now) then [d.name] else [])
  {
    assert deployments[..i + 1][..i] == deployments[..i];
  }

  lemma {:induction false} OneMoreName(names: seq<Name>, name: Name, succeeds: Name -> bool)
    ensures Successes(names + [name], succeeds) == Successes(names, succeeds) + if succeeds(name) then 1 else 0
  {
    assert (names + [name])[..|names|] == names;
  }

  class Sweeper {
    var seenOrphans: set<Name>

    constructor ()
      ensures seenOrphans == {}
    {
      seenOrphans := {};
    }

    /**
     `collect_orphans`: what it deleted, what it left for a second sighting, and the deletes it asked
     for. A delete that fails is not counted, and is asked for again next time.
     */
    method CollectOrphans(s: Sight, succeeds: Name -> bool) returns (deleted: nat, pending: nat, asked: seq<Name>)
      modifies this
      ensures asked == Condemned(s.deployments, s.known, old(seenOrphans), s.now)
      ensures seenOrphans == OrphanNames(s.deployments, s.known)
      ensures deleted == Successes(asked, succeeds)
      ensures pending + |asked| == Count(s.deployments, s.known)
    {
      deleted, pending, asked := 0, 0, [];
      var stillOrphaned: set<Name> := {};
      for i := 0 to |s.deployments|
        invariant seenOrphans == old(seenOrphans)
        invariant stillOrphaned == OrphanNames(s.deployments[..i], s.known)
        invariant asked == Condemned(s.deployments[..i], s.known, seenOrphans, s.now)
        invariant deleted == Successes(asked, succeeds)
        invariant pending + |asked| == Count(s.deployments[..i], s.known)
      {
        var d := s.deployments[i];
        OneMoreDeployment(s.deployments, i, s.known, seenOrphans, s.now);
        if IsOrphan(d, s.known) {
          stillOrphaned := stillOrphaned + {d.name};
          if d.name !in seenOrphans || !IsOldEnough(d, s.now) {
            pending := pending + 1;
          } else {
            OneMoreName(asked, d.name, succeeds);
            asked := asked + [d.name];
            if succeeds(d.name) { deleted := deleted + 1; }
          }
        }
      }
      assert s.deployments[..|s.deployments|] == s.deployments;
      seenOrphans := stillOrphaned;
    }
  }

  // ---------------------------------------------------------------- over a series of collections

  /** What the sweeper remembers before collection `i` of a series. */
  function Remembered(sights: seq<Sight>, i: nat): set<Name>
    requires i <= |sights|
  {
    if i == 0 then {} else OrphanNames(sights[i - 1].deployments, sights[i - 1].known)
  }

  /** An orphan by this name that has been there long enough. */
  ghost predicate IsRipe(s: Sight, name: Name) {
    exists d :: d in s.deployments && d.name == name && IsOrphan(d, s.known) && s.now - d.createdAt >= 120
  }

  /**
   A Deployment is condemned exactly when this collection and the one before it both saw it orphaned, and it is
   old enough.
   */
  lemma {:induction false} TwoSightings(sights: seq<Sight>, i: nat, name: Name)
    requires i < |sights|
    ensures name in Condemned(sights[i].deployments, sights[i].known, Remembered(sights, i), sights[i].now)
            <==> i > 0 && IsOrphaned(sights[i - 1], name) && IsRipe(sights[i], name)
  {
    if i > 0 {
      assert name in Remembered(sights, i) <==> IsOrphaned(sights[i - 1], name);
    }
  }

  /** Collection `i` of a series asked for exactly the Deployments with two sightings behind them. */
  ghost predicate AskedRightly(sights: seq<Sight>, i: nat, names: seq<Name>)
    requires i < |sights|
  {
    forall name :: name in names <==> i > 0 && IsOrphaned(sights[i - 1], name) && IsRipe(sights[i], name)
  }

  lemma {:induction false} CondemnedRightly(sights: seq<Sight>, i: nat)
    requires i < |sights|
    ensures AskedRightly(sights, i, Condemned(sights[i].deployments, sights[i].known, Remembered(sights, i),
              sights[i].now))
  {
    var names := Condemned(sights[i].deployments, sights[i].known, Remembered(sights, i), sights[i].now);
    forall name ensures name in names <==> i > 0 && IsOrphaned(sights[i - 1], name) && IsRipe(sights[i], name) {
      TwoSightings(sights, i, name);
    }
  }

  /** A series of collections by one sweeper, and what each asked for. */
  method CollectAll(sights: seq<Sight>, succeeds: (nat, Name) -> bool) returns (asked: seq<seq<Name>>)
    ensures |asked| == |sights|
    ensures forall i :: 0 <= i < |sights| ==> AskedRightly(sights, i, asked[i])
  {
    var sweeper := new Sweeper();
    asked := [];
    for i := 0 to |sights|
      invariant |asked| == i && sweeper.seenOrphans == Remembered(sights, i)
      invariant forall j :: 0 <= j < i ==> AskedRightly(sights, j, asked[j])
    {
      var _, _, names := sweeper.CollectOrphans(sights[i], name => succeeds(i, name));
      CondemnedRightly(sights, i);
      asked := asked + [names];
    }
  }
}
