/**
 One room's state directory: provisioning attempts that may stall, fail or die between any two
 filesystem calls, the sweep of abandoned attempts, and the deletion that moves the directory to the
 trash before the row goes.

 An attempt reads the room's row first, then takes the room's lock, works on the volume and claims the
 row in one transaction; the deletion moves the directory and drops the row in another under the same
 lock. The lock is the database session's: it goes when the session does, and a process whose session
 is gone may still be at work on the volume, so attempts can overlap.

 A crash is a process's, not the machine's: what a call has done stays done.
 */
module Storage {
  import opened Rooms

  const TEMP_DIR_MAX_AGE: int := 3600

  type Nonce = nat
  type Content = seq<nat>

  /** A directory, by the seed file in it: none yet, or as much of one as has been copied. */
  datatype Dir = Dir(seed: Option<Content>)

  /** A `.tmp-` directory and when it was last modified. */
  datatype Temp = Temp(dir: Dir, modified: Time)

  datatype Disk = Disk(room: Option<Dir>, temps: map<Nonce, Temp>, trash: seq<Dir>)

  /** Where one provisioning attempt has got to. */
  datatype Stage =
    | TakeLock
    | LookTarget
    | LookSeed
    | ClearTemp
    | MakeTemp
    | CopySeed
    | SyncTemp
    | RenameTemp
    | ClaimRow
    | CleanUp
    | Finished(created: bool)
    | Failed

  /** A provisioning attempt: how far it is, when its temporary directory was made, and whether it lost a race. */
  datatype Attempt = Attempt(stage: Stage, since: Time, lost: bool)

  /** The part of a room's row that says whether it has a directory. */
  datatype Claim = Claim(provisioning: bool, provisioned: bool)

  datatype Deleter = NotDeleting | ToLock | ToTrash | ToDrop

  datatype Lock = Free | HeldBy(nonce: Nonce) | HeldByDeleter

  /**
   `cut` are the attempts whose database session is gone, `deleterCut` says so of the deleter, and
   `late` that an attempt has taken the lock of a room whose row was gone.
   */
  datatype World = World(
    disk: Disk,
    generation: bool,
    row: Option<Claim>,
    attempts: map<Nonce, Attempt>,
    deleter: Deleter,
    deletionAsked: bool,
    wasVisible: bool,
    now: Time,
    lock: Lock,
    cut: set<Nonce>,
    deleterCut: bool,
    late: bool)

  /** How a call turns out: it works, it fails, or, for a copy, it fails after some bytes. */
  datatype Outcome = Works | Fails(copied: nat)

  /** A prefix of a seed, as a copy cut short leaves it. */
  function Copied(seed: Content, n: nat): Content {
    if n <= |seed| then seed[..n] else seed
  }

  // ---------------------------------------------------------------- one call of one attempt

  /** What a call of an attempt does to the disk. */
  function CallOnDisk(seed: Content, d: Disk, nonce: Nonce, stage: Stage, o: Outcome, now: Time): Disk {
    match stage
    case ClearTemp => if o.Works? then d.(temps := d.temps - {nonce}) else d
    case MakeTemp => if o.Works? && nonce !in d.temps then d.(temps := d.temps[nonce := Temp(Dir(None), now)]) else d
    case CopySeed =>
      if nonce !in d.temps then d
      else d.(temps := d.temps[nonce := Temp(Dir(Some(if o.Works? then seed else Copied(seed, o.copied))), now)])
    case RenameTemp =>
      if o.Works? && nonce in d.temps && (d.room.None? || d.room.value.seed.None?)
      then d.(room := Some(d.temps[nonce].dir), temps := d.temps - {nonce}) else d
    case CleanUp => if o.Works? then d.(temps := d.temps - {nonce}) else d
    case _ => d
  }

  /** Where an attempt goes next, having found the disk as it was before the call. */
  function CallOnAttempt(w: World, nonce: Nonce, a: Attempt, o: Outcome): Attempt {
    match a.stage
    case TakeLock => a.(stage := if o.Works? && w.lock.Free? && nonce !in w.cut then LookTarget else Stage.Failed)
    case LookTarget => a.(stage := if w.disk.room.Some? then ClaimRow else LookSeed, lost := w.disk.room.Some?)
    case LookSeed => a.(stage := if w.generation then ClearTemp else Stage.Failed)
    case ClearTemp => a.(stage := MakeTemp)
    case MakeTemp =>
      if o.Works? && nonce !in w.disk.temps then a.(stage := CopySeed, since := w.now) else a.(stage := Stage.Failed)
    case CopySeed => a.(stage := if o.Works? && w.generation && nonce in w.disk.temps then SyncTemp else CleanUp)
    case SyncTemp =>
      a.(stage := if o.Works? && nonce in w.disk.temps && w.disk.temps[nonce].dir.seed.Some? then RenameTemp
                  else CleanUp)
    case RenameTemp =>
      if o.Fails? || nonce !in w.disk.temps then a.(stage := CleanUp)
      else if w.disk.room.Some? && w.disk.room.value.seed.Some? then a.(stage := CleanUp, lost := true)
      else a.(stage := ClaimRow)
    case CleanUp => a.(stage := if a.lost then ClaimRow else Stage.Failed)
    case ClaimRow => a.(stage := if o.Works? && nonce !in w.cut then Finished(!a.lost) else Stage.Failed)
    case _ => a
  }

  /** The claim on the row: a conditional statement, so only a room still waiting to be provisioned moves. */
  function ClaimedRow(row: Option<Claim>): Option<Claim> {
    if row.Some? && row.value.provisioning then Some(Claim(false, true)) else row
  }

  /** The lock, once the attempt has got this far: taken at the start, let go at the end. */
  function LockAfter(w: World, nonce: Nonce, before: Stage, after: Stage): Lock {
    if before.TakeLock? && after.LookTarget? then HeldBy(nonce)
    else if (after.Finished? || after.Failed?) && w.lock == HeldBy(nonce) then Free
    else w.lock
  }

  function Call(seed: Content, w: World, nonce: Nonce, o: Outcome): World {
    if nonce !in w.attempts then w
    else
      var a := w.attempts[nonce];
      var disk := CallOnDisk(seed, w.disk, nonce, a.stage, if a.stage.CopySeed?
          && !w.generation then Fails(0) else o, w.now);
      var a' := CallOnAttempt(w, nonce, a, o);
      w.(disk := disk,
         attempts := w.attempts[nonce := a'],
         row := if a'.stage.Finished? && !a.stage.Finished? then ClaimedRow(w.row) else w.row,
         wasVisible := w.wasVisible || disk.room.Some?,
         lock := LockAfter(w, nonce, a.stage, a'.stage),
         late := w.late || (a.stage.TakeLock? && a'.stage.LookTarget? && w.row.None?))
  }

  // ---------------------------------------------------------------- everything that can happen

  datatype Label =
    | Begin(nonce: Nonce)
    | Proceed(nonce: Nonce, outcome: Outcome)
    | Crash(nonce: Nonce)
    | CutSession(nonce: Nonce)
    | SweepSeed(nonce: Nonce)
    | SweepDir(nonce: Nonce)
    | AskDelete
    | Teardown
    | LockForDeletion
    | MoveToTrash
    | DropRow
    | CrashDeleter
    | CutDeleter
    | LoseGeneration
    | Tick(seconds: nat)

  predicate IsExpired(w: World, nonce: Nonce) {
    nonce in w.disk.temps && w.now - w.disk.temps[nonce].modified >= TEMP_DIR_MAX_AGE
  }

  /** An attempt that has a temporary directory of its own and may still rename it. */
  predicate IsBuilding(a: Attempt) {
    a.stage.CopySeed? || a.stage.SyncTemp? || a.stage.RenameTemp?
  }

  function Next(seed: Content, w: World, l: Label): World {
    match l
    case Begin(nonce) =>
      if nonce in w.attempts || nonce in w.disk.temps || w.row.None? then w
      else w.(attempts := w.attempts[nonce := Attempt(TakeLock, w.now, false)])
    case Proceed(nonce, o) => Call(seed, w, nonce, o)
    case Crash(nonce) =>
      if nonce in w.attempts
      then w.(attempts := w.attempts[nonce := w.attempts[nonce].(stage := Stage.Failed)],
              lock := if w.lock == HeldBy(nonce) then Free else w.lock)
      else w
    case CutSession(nonce) => w.(cut := w.cut + {nonce}, lock := if w.lock == HeldBy(nonce) then Free else w.lock)
    case SweepSeed(nonce) =>
      if IsExpired(w, nonce)
      then w.(disk := w.disk.(temps := w.disk.temps[nonce := w.disk.temps[nonce].(dir := Dir(None))])) else w
    case SweepDir(nonce) =>
      if IsExpired(w, nonce) && w.disk.temps[nonce].dir.seed.None?
      then w.(disk := w.disk.(temps := w.disk.temps - {nonce})) else w
    case AskDelete => w.(deletionAsked := true)
    case Teardown =>
      if w.deletionAsked && w.row.Some? && w.deleter == NotDeleting
      then w.(deleter := ToLock, deleterCut := false) else w
    case LockForDeletion =>
      if w.deleter != ToLock then w
      else if w.lock.Free? && !w.deleterCut then w.(deleter := ToTrash, lock := HeldByDeleter)
      else w.(deleter := NotDeleting)
    case MoveToTrash =>
      if w.deleter != ToTrash then w
      else if w.disk.room.None? then w.(deleter := ToDrop)
      else w.(deleter := ToDrop, disk := w.disk.(room := None, trash := w.disk.trash + [w.disk.room.value]))
    case DropRow =>
      if w.deleter != ToDrop then w
      else if w.deleterCut then w.(deleter := NotDeleting)
      else w.(deleter := NotDeleting, row := None, lock := if w.lock.HeldByDeleter? then Free else w.lock)
    case CrashDeleter => w.(deleter := NotDeleting, lock := if w.lock.HeldByDeleter? then Free else w.lock)
    case CutDeleter => w.(deleterCut := true, lock := if w.lock.HeldByDeleter? then Free else w.lock)
    case LoseGeneration => w.(generation := false)
    case Tick(seconds) => w.(now := w.now + seconds)
  }

  function Run(seed: Content, w: World, labels: seq<Label>): World
    decreases |labels|
  {
    if labels == [] then w else Run(seed, Next(seed, w, labels[0]), labels[1..])
  }

  /** A room as its row is created: nothing on disk, nobody at work. */
  predicate IsNew(w: World) {
    && w.disk == Disk(None, map[], []) && w.row == Some(Claim(true, false)) && w.attempts == map[]
    && w.deleter == NotDeleting && !w.deletionAsked && !w.wasVisible
    && w.lock == Free && w.cut == {} && !w.deleterCut && !w.late
  }

  /** Every attempt still building has done so for less than the sweep's age, an hour. */
  ghost predicate IsPrompt(w: World) {
    forall nonce :: nonce in w.attempts && IsBuilding(w.attempts[nonce]) ==>
      w.now - w.attempts[nonce].since < 3600
  }

  /** A run in which no attempt outlives the sweep's age. */
  ghost predicate StaysPrompt(seed: Content, w: World, labels: seq<Label>)
    decreases |labels|
  {
    IsPrompt(w) && (labels != [] ==> StaysPrompt(seed, Next(seed, w, labels[0]), labels[1..]))
  }

  /** An attempt past its copy whose directory is an hour old: the sweep of abandoned ones would take it. */
  ghost predicate Exposed(w: World, nonce: Nonce) {
    && nonce in w.attempts && (w.attempts[nonce].stage.SyncTemp? || w.attempts[nonce].stage.RenameTemp?)
    && nonce in w.disk.temps && w.now - w.disk.temps[nonce].modified >= 3600
  }

  ghost predicate IsUnexposed(w: World) {
    forall nonce :: !Exposed(w, nonce)
  }

  /** A run in which no attempt is ever exposed. */
  ghost predicate StaysUnexposed(seed: Content, w: World, labels: seq<Label>)
    decreases |labels|
  {
    IsUnexposed(w) && (labels != [] ==> StaysUnexposed(seed, Next(seed, w, labels[0]), labels[1..]))
  }

  // ---------------------------------------------------------------- what every run keeps while nothing is exposed

  /** A visible directory, and everything in the trash, holds the complete seed. */
  ghost predicate IsComplete(seed: Content, d: Disk) {
    && (d.room.Some? ==> d.room.value.seed == Some(seed))
    && forall i :: 0 <= i < |d.trash| ==> d.trash[i].seed == Some(seed)
  }

  /** A row that claims a directory has one, until somebody asks for its deletion. */
  predicate ClaimsTruly(w: World) {
    w.row.Some? && w.row.value.provisioned && !w.deletionAsked ==> w.disk.room.Some?
  }

  /** A directory that was ever visible is still in place or in the trash. */
  predicate IsKept(w: World) {
    w.wasVisible ==> w.disk.room.Some? || w.disk.trash != []
  }

  /** What an attempt in flight knows. */
  ghost predicate AttemptFits(seed: Content, w: World, nonce: Nonce)
    requires nonce in w.attempts
  {
    var a := w.attempts[nonce];
    && (IsBuilding(a) && nonce in w.disk.temps ==> w.disk.temps[nonce].modified >= a.since)
    && (a.stage.SyncTemp? || a.stage.RenameTemp? ==>
          nonce in w.disk.temps && w.disk.temps[nonce].dir.seed == Some(seed))
    && (a.stage.ClaimRow? || a.lost ==> w.wasVisible)
    && a.since <= w.now
  }

  ghost predicate Sound(seed: Content, w: World) {
    && IsComplete(seed, w.disk)
    && ClaimsTruly(w)
    && IsKept(w)
    && (w.disk.room.Some? ==> w.wasVisible)
    && (w.row.Some? && w.row.value.provisioned ==> w.wasVisible)
    && (!w.deletionAsked ==> w.disk.trash == [] && w.deleter == NotDeleting)
    && (forall nonce :: nonce in w.attempts ==> AttemptFits(seed, w, nonce))
  }

  /** An attempt's own call leaves it knowing what its next stage relies on. */
  lemma {:induction false} CallKeepsItsAttempt(seed: Content, w: World, nonce: Nonce, o: Outcome)
    requires Sound(seed, w) && nonce in w.attempts
    ensures AttemptFits(seed, Call(seed, w, nonce, o), nonce)
  {
    assert AttemptFits(seed, w, nonce);
  }

  lemma {:induction false} CallKeepsSound(seed: Content, w: World, nonce: Nonce, o: Outcome)
    requires Sound(seed, w) && nonce in w.attempts
    ensures Sound(seed, Call(seed, w, nonce, o))
  {
    var w' := Call(seed, w, nonce, o);
    assert AttemptFits(seed, w, nonce);
    CallKeepsItsAttempt(seed, w, nonce, o);
    forall n | n in w'.attempts && n != nonce
      ensures AttemptFits(seed, w', n)
    {
      assert AttemptFits(seed, w, n);
      assert n in w.disk.temps ==> n in w'.disk.temps && w'.disk.temps[n] == w.disk.temps[n];
    }
  }

  /** The sweep leaves alone what an unexposed attempt relies on. */
  lemma {:induction false} SweepKeepsAttempt(seed: Content, w: World, l: Label, n: Nonce)
    requires n in w.attempts && AttemptFits(seed, w, n) && !Exposed(w, n) && (l.SweepSeed? || l.SweepDir?)
    ensures n in Next(seed, w, l).attempts && AttemptFits(seed, Next(seed, w, l), n)
  {
  }

  lemma {:induction false} SweepKeepsSound(seed: Content, w: World, l: Label)
    requires Sound(seed, w) && IsUnexposed(w) && (l.SweepSeed? || l.SweepDir?)
    ensures Sound(seed, Next(seed, w, l))
  {
    var w' := Next(seed, w, l);
    assert w'.attempts == w.attempts && w'.row == w.row && w'.disk.room == w.disk.room && w'.disk.trash == w.disk.trash;
    forall n | n in w'.attempts
      ensures AttemptFits(seed, w', n)
    {
      SweepKeepsAttempt(seed, w, l, n);
    }
  }

  lemma {:induction false} DeletionKeepsSound(seed: Content, w: World, l: Label)
    requires Sound(seed, w) && (l.AskDelete? || l.MoveToTrash? || l.DropRow?)
    ensures Sound(seed, Next(seed, w, l))
  {
    var w' := Next(seed, w, l);
    forall n | n in w'.attempts ensures AttemptFits(seed, w', n) {
      assert AttemptFits(seed, w, n);
    }
  }

  /** What the lock, the sessions, the clock and the coming and going of attempts leave alone. */
  ghost predicate StandsAside(w: World, w': World) {
    && w'.disk == w.disk && w'.row == w.row && w'.wasVisible == w.wasVisible && w'.now >= w.now
    && w'.deletionAsked == w.deletionAsked
    && (w'.deleter == NotDeleting || w.deleter != NotDeleting || w.deletionAsked)
    && forall n :: n in w'.attempts ==>
         if n in w.attempts
         then w'.attempts[n] == w.attempts[n] || w'.attempts[n] == w.attempts[n].(stage := Stage.Failed)
         else w'.attempts[n] == Attempt(TakeLock, w.now, false)
  }

  predicate IsStanding(l: Label) {
    || l.Begin? || l.Crash? || l.CutSession? || l.Teardown? || l.LockForDeletion? || l.CrashDeleter? || l.CutDeleter?
    || l.LoseGeneration? || l.Tick?
  }

  lemma {:induction false} AttemptsStandAside(seed: Content, w: World, l: Label)
    requires l.Begin? || l.Crash?
    ensures StandsAside(w, Next(seed, w, l))
  {
  }

  lemma {:induction false} DeletersStandAside(seed: Content, w: World, l: Label)
    requires l.Teardown? || l.LockForDeletion? || l.CrashDeleter? || l.CutDeleter?
    ensures StandsAside(w, Next(seed, w, l))
  {
    assert Next(seed, w, l).attempts == w.attempts;
  }

  lemma {:induction false} StandingLabelsStandAside(seed: Content, w: World, l: Label)
    requires IsStanding(l)
    ensures StandsAside(w, Next(seed, w, l))
  {
    if l.Begin? || l.Crash? {
      AttemptsStandAside(seed, w, l);
    } else if l.Teardown? || l.LockForDeletion? || l.CrashDeleter? || l.CutDeleter? {
      DeletersStandAside(seed, w, l);
    } else {
      assert Next(seed, w, l).attempts == w.attempts;
    }
  }

  /** The lock and the sessions decide who may work, not what is on the disk. */
  lemma {:induction false} StandingKeepsSound(seed: Content, w: World, w': World)
    requires Sound(seed, w) && StandsAside(w, w')
    ensures Sound(seed, w')
  {
    forall n | n in w'.attempts ensures AttemptFits(seed, w', n) {
      assert n in w.attempts ==> AttemptFits(seed, w, n);
    }
  }

  lemma {:induction false} NextKeepsSound(seed: Content, w: World, l: Label)
    requires Sound(seed, w) && IsUnexposed(w)
    ensures Sound(seed, Next(seed, w, l))
  {
    if l.Proceed? {
      if l.nonce in w.attempts { CallKeepsSound(seed, w, l.nonce, l.outcome); }
    } else if l.SweepSeed? || l.SweepDir? {
      SweepKeepsSound(seed, w, l);
    } else if IsStanding(l) {
      StandingLabelsStandAside(seed, w, l);
      StandingKeepsSound(seed, w, Next(seed, w, l));
    } else {
      DeletionKeepsSound(seed, w, l);
    }
  }

  lemma {:induction false} RunsKeepSound(seed: Content, w: World, labels: seq<Label>)
    requires Sound(seed, w) && StaysUnexposed(seed, w, labels)
    ensures Sound(seed, Run(seed, w, labels))
    decreases |labels|
  {
    if labels != [] {
      NextKeepsSound(seed, w, labels[0]);
      RunsKeepSound(seed, Next(seed, w, labels[0]), labels[1..]);
    }
  }

  /** What is promised of a room's directory. */
  ghost predicate IsSafe(seed: Content, w: World) {
    && (w.disk.room.Some? ==> w.disk.room.value.seed == Some(seed))
    && (w.row.Some? && w.row.value.provisioned && !w.deletionAsked ==> w.disk.room.Some?)
    && (w.wasVisible ==> w.disk.room.Some? || (w.disk.trash != [] && w.disk.trash[0].seed == Some(seed)))
  }

  /**
   From a new room through any interleaving of attempts, crashes, sweeps and deletion in which no attempt past its
   copy has a directory old enough to be swept: a visible directory holds the complete seed, a row that claims
   one has it until deletion is asked for, and one that was ever visible is in place or in the trash.
   */
  lemma {:induction false} DirectoriesAreSafe(seed: Content, w: World, labels: seq<Label>)
    requires IsNew(w) && StaysUnexposed(seed, w, labels)
    ensures IsSafe(seed, Run(seed, w, labels))
  {
    RunsKeepSound(seed, w, labels);
  }

  /** A prompt attempt's directory is younger than the attempt, and so too young to be swept. */
  lemma {:induction false} PromptIsUnexposed(seed: Content, w: World)
    requires Sound(seed, w) && IsPrompt(w)
    ensures IsUnexposed(w)
  {
    forall n ensures !Exposed(w, n) {
      assert n in w.attempts ==> AttemptFits(seed, w, n);
    }
  }

  lemma {:induction false} PromptRunsStayUnexposed(seed: Content, w: World, labels: seq<Label>)
    requires Sound(seed, w) && StaysPrompt(seed, w, labels)
    ensures StaysUnexposed(seed, w, labels)
    decreases |labels|
  {
    PromptIsUnexposed(seed, w);
    if labels != [] {
      NextKeepsSound(seed, w, labels[0]);
      PromptRunsStayUnexposed(seed, Next(seed, w, labels[0]), labels[1..]);
    }
  }

  /** So the laws hold of every run whose attempts are each faster than the sweep's age. */
  lemma {:induction false} PromptDirectoriesAreSafe(seed: Content, w: World, labels: seq<Label>)
    requires IsNew(w) && StaysPrompt(seed, w, labels)
    ensures IsSafe(seed, Run(seed, w, labels))
  {
    PromptRunsStayUnexposed(seed, w, labels);
    DirectoriesAreSafe(seed, w, labels);
  }

  lemma {:induction false} RunConcat(seed: Content, w: World, first: seq<Label>, second: seq<Label>)
    ensures Run(seed, w, first + second) == Run(seed, Run(seed, w, first), second)
    decreases |first|
  {
    if first == [] {
      assert first + second == second;
    } else {
      assert (first + second)[1..] == first[1..] + second;
      RunConcat(seed, Next(seed, w, first[0]), first[1..], second);
    }
  }

  lemma {:induction false} RunStep(seed: Content, w: World, l: Label, rest: seq<Label>)
    ensures Run(seed, w, [l] + rest) == Run(seed, Next(seed, w, l), rest)
  {
    assert ([l] + rest)[1..] == rest;
  }

  // ---------------------------------------------------------------- an attempt that is let finish

  /** One attempt's next `n` calls, each of which works. */
  function Proceeds(nonce: Nonce, n: nat): seq<Label> {
    if n == 0 then [] else [Proceed(nonce, Works)] + Proceeds(nonce, n - 1)
  }

  ghost predicate TakesOneCall(seed: Content, nonce: Nonce, ends: (World, nat) -> World, w: World, n: nat) {
    ends(w, n) == if n == 0 then w else ends(Call(seed, w, nonce, Works), n - 1)
  }

  /** `ends` says where an attempt's next calls lead, if each of them works. */
  ghost predicate TakesCalls(seed: Content, nonce: Nonce, ends: (World, nat) -> World) {
    forall w: World, n: nat :: TakesOneCall(seed, nonce, ends, w, n)
  }

  lemma {:induction false} CallsLead(seed: Content, nonce: Nonce, w: World, calls: nat)
    returns (ends: (World, nat) -> World)
    ensures TakesCalls(seed, nonce, ends) && ends(w, calls) == Run(seed, w, Proceeds(nonce, calls))
  {
    ends := (v: World, k: nat) => Run(seed, v, Proceeds(nonce, k));
    forall v: World, n: nat ensures TakesOneCall(seed, nonce, ends, v, n) {
      if n > 0 { RunStep(seed, v, Proceed(nonce, Works), Proceeds(nonce, n - 1)); }
    }
  }

  /** The world with the attempt here, the disk so, and the lock its own. */
  function Working(w: World, nonce: Nonce, d: Disk, stage: Stage, lost: bool): World {
    w.(disk := d, lock := HeldBy(nonce), attempts := w.attempts[nonce := Attempt(stage, w.now, lost)])
  }

  /** A call that leaves the attempt there and the disk so. */
  lemma {:induction false} OneCallWorks(seed: Content, w: World, nonce: Nonce, ends: (World, nat) -> World, d: Disk,
        stage: Stage, d': Disk, stage': Stage, n: nat)
    requires TakesCalls(seed, nonce, ends)
    requires nonce !in w.cut && w.generation && n > 0 && d.room == None && d'.room == None && stage != TakeLock
    requires CallOnDisk(seed, d, nonce, stage, Works, w.now) == d'
    requires CallOnAttempt(Working(w, nonce, d, stage, false), nonce, Attempt(stage, w.now, false), Works)
             == Attempt(stage', w.now, false)
    requires !stage'.Finished? && !stage'.Failed? && !stage.Finished?
    ensures ends(Working(w, nonce, d, stage, false), n) == ends(Working(w, nonce, d', stage', false), n - 1)
  {
    var u := Working(w, nonce, d, stage, false);
    assert TakesOneCall(seed, nonce, ends, u, n);
    assert Call(seed, u, nonce, Works) == Working(w, nonce, d', stage', false);
  }

  /** A place and a name that are free, and a session to work in. */
  ghost predicate IsClear(w: World, nonce: Nonce) {
    nonce !in w.disk.temps && nonce !in w.cut && w.disk.room.None? && w.generation
  }

  /** From its first look, with no directory there, to making its own. */
  lemma {:induction false} LooksUndisturbed(seed: Content, w: World, nonce: Nonce, ends: (World, nat) -> World, n: nat)
    requires TakesCalls(seed, nonce, ends) && IsClear(w, nonce) && n >= 3
    ensures ends(Working(w, nonce, w.disk, LookTarget, false), n)
            == ends(Working(w, nonce, w.disk, MakeTemp, false), n - 3)
  {
    assert w.disk.temps - {nonce} == w.disk.temps;
    OneCallWorks(seed, w, nonce, ends, w.disk, LookTarget, w.disk, LookSeed, n);
    OneCallWorks(seed, w, nonce, ends, w.disk, LookSeed, w.disk, ClearTemp, n - 1);
    OneCallWorks(seed, w, nonce, ends, w.disk, ClearTemp, w.disk, MakeTemp, n - 2);
  }

  /** From a free name to a whole directory. */
  lemma {:induction false} BuildsUndisturbed(seed: Content, w: World, nonce: Nonce, ends: (World, nat) -> World,
        n: nat, full: Disk)
    requires TakesCalls(seed, nonce, ends) && IsClear(w, nonce) && n >= 3
    requires full == w.disk.(temps := w.disk.temps[nonce := Temp(Dir(Some(seed)), w.now)])
    ensures ends(Working(w, nonce, w.disk, MakeTemp, false), n)
            == ends(Working(w, nonce, full, RenameTemp, false), n - 3)
  {
    var made := w.disk.(temps := w.disk.temps[nonce := Temp(Dir(None), w.now)]);
    assert made.temps[nonce := Temp(Dir(Some(seed)), w.now)] == full.temps;
    OneCallWorks(seed, w, nonce, ends, w.disk, MakeTemp, made, CopySeed, n);
    OneCallWorks(seed, w, nonce, ends, made, CopySeed, full, SyncTemp, n - 1);
    OneCallWorks(seed, w, nonce, ends, full, SyncTemp, full, RenameTemp, n - 2);
  }

  /** What a room looks like once an attempt has finished. */
  ghost predicate IsProvisionedBy(seed: Content, w: World, nonce: Nonce, created: bool, t: World) {
    && t.disk.room == Some(Dir(Some(seed))) && t.disk.temps == w.disk.temps && t.disk.trash == w.disk.trash
    && w.row.Some? && t.row == Some(if w.row.value.provisioning then Claim(false, true) else w.row.value)
    && t.lock == Free && nonce in t.attempts && t.attempts[nonce].stage == Finished(created)
  }

  /** Renamed into place, and the row claimed. */
  lemma {:induction false} RenamesUndisturbed(seed: Content, w: World, nonce: Nonce, ends: (World, nat) -> World,
        full: Disk)
    requires TakesCalls(seed, nonce, ends) && IsClear(w, nonce) && w.row.Some?
    requires full == w.disk.(temps := w.disk.temps[nonce := Temp(Dir(Some(seed)), w.now)])
    ensures IsProvisionedBy(seed, w, nonce, true, ends(Working(w, nonce, full, RenameTemp, false), 2))
  {
    var u := Working(w, nonce, full, RenameTemp, false);
    var u1 := Call(seed, u, nonce, Works);
    var u2 := Call(seed, u1, nonce, Works);
    assert full.temps - {nonce} == w.disk.temps;
    assert u1.attempts[nonce] == Attempt(ClaimRow, w.now, false) && u1.disk.temps == w.disk.temps;
    assert TakesOneCall(seed, nonce, ends, u, 2) && TakesOneCall(seed, nonce, ends, u1, 1)
           && TakesOneCall(seed, nonce, ends, u2, 0);
  }

  /** With nothing left to do it stays finished, whatever it is told to proceed with. */
  lemma {:induction false} StaysFinished(seed: Content, w: World, nonce: Nonce, ends: (World, nat) -> World, n: nat)
    requires TakesCalls(seed, nonce, ends)
    requires nonce in w.attempts && w.attempts[nonce].stage.Finished? && w.lock == Free
    ensures var t := ends(w, n);
            t.disk == w.disk && t.row == w.row && t.lock == w.lock && t.attempts == w.attempts
    decreases n
  {
    assert TakesOneCall(seed, nonce, ends, w, n);
    if n > 0 {
      assert Call(seed, w, nonce, Works).attempts == w.attempts;
      StaysFinished(seed, Call(seed, w, nonce, Works), nonce, ends, n - 1);
    }
  }

  /** A directory already there is claimed as it is. */
  lemma {:induction false} ClaimsUndisturbed(seed: Content, w: World, nonce: Nonce, ends: (World, nat) -> World)
    requires TakesCalls(seed, nonce, ends)
    requires nonce !in w.cut && w.disk.room == Some(Dir(Some(seed))) && w.row.Some?
    ensures IsProvisionedBy(seed, w, nonce, false, ends(Working(w, nonce, w.disk, LookTarget, false), 8))
  {
    var u := Working(w, nonce, w.disk, LookTarget, false);
    var u1 := Call(seed, u, nonce, Works);
    assert u1.attempts[nonce] == Attempt(ClaimRow, w.now, true) && u1.lock == HeldBy(nonce);
    assert TakesOneCall(seed, nonce, ends, u, 8) && TakesOneCall(seed, nonce, ends, u1, 7);
    StaysFinished(seed, Call(seed, u1, nonce, Works), nonce, ends, 6);
  }

  /** The lock taken, an attempt has the room to itself. */
  lemma {:induction false} WorksUndisturbed(seed: Content, w: World, nonce: Nonce, ends: (World, nat) -> World)
    requires TakesCalls(seed, nonce, ends) && Sound(seed, w) && w.row.Some? && w.generation
    requires nonce !in w.disk.temps && nonce !in w.cut
    ensures IsProvisionedBy(seed, w, nonce, w.disk.room.None?, ends(Working(w, nonce, w.disk, LookTarget, false), 8))
  {
    if w.disk.room.None? {
      var full := w.disk.(temps := w.disk.temps[nonce := Temp(Dir(Some(seed)), w.now)]);
      LooksUndisturbed(seed, w, nonce, ends, 8);
      BuildsUndisturbed(seed, w, nonce, ends, 5, full);
      RenamesUndisturbed(seed, w, nonce, ends, full);
    } else {
      ClaimsUndisturbed(seed, w, nonce, ends);
    }
  }

  /**
   Whatever earlier attempts have left, and wherever they died: with the lock free, an attempt that is let finish
   provisions the room. The directory is there with its seed, the row claims it, the lock is free again and no other
   directory has been touched.
   */
  lemma {:induction false} UndisturbedAttemptsProvision(seed: Content, w: World, nonce: Nonce)
    requires Sound(seed, w) && w.row.Some? && w.lock.Free? && w.generation
    requires nonce !in w.attempts && nonce !in w.disk.temps && nonce !in w.cut
    ensures IsProvisionedBy(seed, w, nonce, w.disk.room.None?, Run(seed, w, [Begin(nonce)] + Proceeds(nonce, 9)))
  {
    var begun := w.(attempts := w.attempts[nonce := Attempt(TakeLock, w.now, false)]);
    assert Next(seed, w, Begin(nonce)) == begun;
    RunStep(seed, w, Begin(nonce), Proceeds(nonce, 9));
    var ends := CallsLead(seed, nonce, begun, 9);
    TakesTheLock(seed, w, nonce, begun, ends);
    WorksUndisturbed(seed, w, nonce, ends);
  }

  lemma {:induction false} TakesTheLock(seed: Content, w: World, nonce: Nonce, begun: World,
        ends: (World, nat) -> World)
    requires TakesCalls(seed, nonce, ends) && Sound(seed, w) && w.row.Some? && w.lock.Free? && nonce !in w.cut
    requires begun == w.(attempts := w.attempts[nonce := Attempt(TakeLock, w.now, false)])
    ensures ends(begun, 9) == ends(Working(w, nonce, w.disk, LookTarget, false), 8)
  {
    assert TakesOneCall(seed, nonce, ends, begun, 9);
    var locked := Call(seed, begun, nonce, Works);
    assert locked.attempts == Working(w, nonce, w.disk, LookTarget, false).attempts;
  }

  const GO: Label := Proceed(0, Works)

  /** A first attempt with its seed copied and synced, about to be renamed into place. */
  function ReadyToRename(seed: Content, w: World): World {
    w.(disk := Disk(None, map[0 := Temp(Dir(Some(seed)), w.now)], []), lock := HeldBy(0),
       attempts := map[0 := Attempt(RenameTemp, w.now, false)])
  }

  lemma {:induction false} FirstAttemptBegins(seed: Content, w: World, rest: seq<Label>)
    requires IsNew(w) && w.generation
    ensures Run(seed, w, [Begin(0)] + ([GO] + rest))
            == Run(seed, w.(lock := HeldBy(0), attempts := map[0 := Attempt(LookTarget, w.now, false)]), rest)
  {
    var w1 := Next(seed, w, Begin(0));
    assert w1 == w.(attempts := map[0 := Attempt(TakeLock, w.now, false)]);
    var w2 := Next(seed, w1, GO);
    assert w2 == w.(lock := HeldBy(0), attempts := map[0 := Attempt(LookTarget, w.now, false)]);
    RunStep(seed, w1, GO, rest);
    RunStep(seed, w, Begin(0), [GO] + rest);
  }

  lemma {:induction false} FirstAttemptBuilds(seed: Content, w: World, rest: seq<Label>)
    requires IsNew(w) && w.generation
    ensures Run(seed, w.(lock := HeldBy(0), attempts := map[0 := Attempt(LookTarget, w.now, false)]),
                [GO] + ([GO] + ([GO] + ([GO] + ([GO] + ([GO] + rest))))))
            == Run(seed, ReadyToRename(seed, w), rest)
  {
    var at := (d: Disk, stage: Stage) => w.(disk := d, lock := HeldBy(0), attempts := map[0 := Attempt(stage,
          w.now, false)]);
    var empty := Disk(None, map[], []);
    var made := Disk(None, map[0 := Temp(Dir(None), w.now)], []);
    var full := Disk(None, map[0 := Temp(Dir(Some(seed)), w.now)], []);
    assert Next(seed, at(empty, LookTarget), GO) == at(empty, LookSeed);
    assert Next(seed, at(empty, LookSeed), GO) == at(empty, ClearTemp);
    assert Next(seed, at(empty, ClearTemp), GO) == at(empty, MakeTemp);
    assert Next(seed, at(empty, MakeTemp), GO) == at(made, CopySeed);
    assert Next(seed, at(made, CopySeed), GO) == at(full, SyncTemp);
    assert Next(seed, at(full, SyncTemp), GO) == at(full, RenameTemp);
    RunStep(seed, at(full, SyncTemp), GO, rest);
    RunStep(seed, at(made, CopySeed), GO, [GO] + rest);
    RunStep(seed, at(empty, MakeTemp), GO, [GO] + ([GO] + rest));
    RunStep(seed, at(empty, ClearTemp), GO, [GO] + ([GO] + ([GO] + rest)));
    RunStep(seed, at(empty, LookSeed), GO, [GO] + ([GO] + ([GO] + ([GO] + rest))));
    RunStep(seed, at(empty, LookTarget), GO, [GO] + ([GO] + ([GO] + ([GO] + ([GO] + rest)))));
  }

  /** Stalled for the sweep's age before its rename, the attempt is hollowed out and renamed all the same. */
  lemma {:induction false} StalledAttemptIsHollow(seed: Content, w: World)
    requires IsNew(w)
    ensures Run(seed, ReadyToRename(seed, w),
              [Tick(3600)] + ([SweepSeed(0)] + ([GO] + []))).disk.room == Some(Dir(None))
  {
    var w0 := ReadyToRename(seed, w);
    var w1 := Next(seed, w0, Tick(3600));
    var w2 := Next(seed, w1, SweepSeed(0));
    var w3 := Next(seed, w2, GO);
    assert w1 == w0.(now := w.now + 3600);
    assert w2.disk.temps[0].dir == Dir(None);
    assert w3.disk.room == Some(Dir(None));
    RunStep(seed, w2, GO, []);
    RunStep(seed, w1, SweepSeed(0), [GO] + []);
    RunStep(seed, w0, Tick(3600), [SweepSeed(0)] + ([GO] + []));
  }

  /**
   A run from a new room in which an attempt outlives the sweep's age, loses its seed between its last sync and its
   rename, and shows a directory with nothing in it.
   */
  lemma {:induction false} SlowAttemptsCanShowAHollowDirectory(seed: Content, w: World)
    requires IsNew(w) && w.generation
    ensures exists labels: seq<Label> :: Run(seed, w, labels).disk.room == Some(Dir(None))
  {
    var tail := [Tick(3600)] + ([SweepSeed(0)] + ([GO] + []));
    var building := [GO] + ([GO] + ([GO] + ([GO] + ([GO] + ([GO] + tail)))));
    FirstAttemptBegins(seed, w, building);
    FirstAttemptBuilds(seed, w, tail);
    StalledAttemptIsHollow(seed, w);
    var labels := [Begin(0)] + ([GO] + building);
    assert Run(seed, w, labels).disk.room == Some(Dir(None));
  }
}
