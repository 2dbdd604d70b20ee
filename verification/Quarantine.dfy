/** Deleting one exact file generation through a private quarantine, resumable by its token. */
module Quarantine {
  import opened Outcomes

  datatype FileIdentity = FileIdentity(device: nat, inode: nat, size: nat, mtime: nat, ctime: nat)

  /** What a directory entry refers to. */
  datatype File = File(id: nat, identity: FileIdentity, regular: bool)

  /** A private delete directory: no other process can change it. */
  datatype Directory = Directory(candidate: Option<File>, tombstone: bool)

  datatype Refusal = CandidateUnavailable | Unsafe | RecoveryRequired

  type Deleting<+T> = Outcome<T, Refusal>

  datatype Fault = Works | Fails | Dies

  /** Before each system call another process may have changed the leaf name, and time has passed. */
  datatype Tick = Tick(leaf: Option<Option<File>>, now: nat, fault: Fault)

  const Calm: Tick := Tick(None, 0, Works)
  const Failing: Tick := Tick(None, 0, Fails)

  /** A first run whose sync after the move fails, and whose restore then cannot drop the quarantine link. */
  const HalfRestored: seq<Tick> := [Calm, Calm, Calm, Calm, Calm, Calm, Calm, Calm, Failing, Calm, Failing]

  /** What is left of a script after so many calls. */
  function Rest(script: seq<Tick>, n: nat): seq<Tick> { if n <= |script| then script[n..] else [] }

  /** What a call says that works, fails for this reason, or is not survived. */
  function Said(f: Fault, failure: Refusal): Deleting<()> {
    match f case Works => Done(()) case Fails => Blocked(failure) case Dies => Crashed
  }

  /** What became of a file that was moved off the leaf name. */
  datatype Fate = Held | Relinked | Destroyed

  datatype Sweep = Sweep(file: File, fate: Fate)

  /** Who changed the leaf name: another process, or a rename or a link of these runs, with the sweep it is about. */
  datatype Mover = Others | Rename(sweep: nat) | Link(sweep: nat)

  /** One change of what stands at the leaf name. */
  datatype LeafChange = LeafChange(mover: Mover, before: Option<File>, after: Option<File>)

  /** The same file, whose ctime may have advanced. */
  predicate SameFile(a: File, b: File) {
    && a.id == b.id && a.regular == b.regular
    && a.identity.device == b.identity.device && a.identity.inode == b.identity.inode
    && a.identity.size == b.identity.size && a.identity.mtime == b.identity.mtime
    && a.identity.ctime <= b.identity.ctime
  }

  /** What stood at the leaf name before the change at this position. */
  function LeafBefore(origin: Option<File>, chronicle: seq<LeafChange>, k: nat): Option<File>
    requires k <= |chronicle|
  {
    if k == 0 then origin else chronicle[k - 1].after
  }

  /** A rename takes away what stood there, and records it; a link fills a free name with a file that was swept. */
  predicate Recorded(c: LeafChange, swept: seq<Sweep>) {
    match c.mover
    case Others => true
    case Rename(i) =>
      i < |swept| && c.before.Some? && c.after.None? && SameFile(c.before.value, swept[i].file)
    case Link(i) =>
      i < |swept| && c.before.None? && c.after == Some(swept[i].file) && swept[i].fate == Relinked
  }

  /** The changes follow one another from the first file at the leaf name to the present one. */
  ghost predicate Told(origin: Option<File>, leaf: Option<File>, chronicle: seq<LeafChange>, swept: seq<Sweep>) {
    && (forall k :: 0 <= k < |chronicle| ==> chronicle[k].before == LeafBefore(origin, chronicle, k))
    && (forall k :: 0 <= k < |chronicle| ==> Recorded(chronicle[k], swept))
    && leaf == LeafBefore(origin, chronicle, |chronicle|)
    && (forall i :: 0 <= i < |swept| ==> exists k :: 0 <= k < |chronicle| && chronicle[k].mover == Rename(i))
  }

  /** How many of the changes were not made by others. */
  function OwnChanges(chronicle: seq<LeafChange>): nat {
    if chronicle == [] then 0
    else OwnChanges(chronicle[..|chronicle| - 1]) + if chronicle[|chronicle| - 1].mover.Others? then 0 else 1
  }

  /** One more change, with the sweeps as they are after it. */
  lemma {:induction false} ToldMore(origin: Option<File>, chronicle: seq<LeafChange>, swept: seq<Sweep>,
      c: LeafChange, now: seq<Sweep>)
    requires Told(origin, c.before, chronicle, swept) && Recorded(c, now)
    requires |swept| <= |now| <= |swept| + 1 && (|now| > |swept| ==> c.mover == Rename(|swept|))
    requires SweepsKept(swept, now)
    ensures Told(origin, c.after, chronicle + [c], now)
    ensures OwnChanges(chronicle + [c]) == OwnChanges(chronicle) + if c.mover.Others? then 0 else 1
  {
    var all := chronicle + [c];
    assert all[..|chronicle|] == chronicle;
    forall k | 0 <= k < |all|
      ensures all[k].before == LeafBefore(origin, all, k) && Recorded(all[k], now)
    {
      if k < |chronicle| {
        assert all[k] == chronicle[k] && Recorded(chronicle[k], swept);
        assert LeafBefore(origin, all, k) == LeafBefore(origin, chronicle, k);
      }
    }
    forall i | 0 <= i < |now| ensures exists k :: 0 <= k < |all| && all[k].mover == Rename(i) {
      if i < |swept| {
        var k :| 0 <= k < |chronicle| && chronicle[k].mover == Rename(i);
        assert all[k].mover == Rename(i);
      } else {
        assert all[|chronicle|].mover == Rename(i);
      }
    }
  }

  /** Sweeps stay the files they are, and what was relinked stays relinked. */
  predicate SweepsKept(swept: seq<Sweep>, now: seq<Sweep>) {
    |swept| <= |now| && forall i :: 0 <= i < |swept| ==>
      now[i].file == swept[i].file && (swept[i].fate == Relinked ==> now[i].fate == Relinked)
  }

  lemma {:induction false} ToldStill(origin: Option<File>, leaf: Option<File>, chronicle: seq<LeafChange>,
      swept: seq<Sweep>, now: seq<Sweep>)
    requires Told(origin, leaf, chronicle, swept) && SweepsKept(swept, now) && |now| == |swept|
    ensures Told(origin, leaf, chronicle, now)
  {
    forall k | 0 <= k < |chronicle| ensures Recorded(chronicle[k], now) {
      assert Recorded(chronicle[k], swept);
    }
  }

  /**
   A file that stood at the leaf name at some time still stands there, or the next change took it away: another
   process did, or a rename that is on record. No link of these runs ever replaces it.
   */
  lemma {:induction false} NothingIsOverwritten(origin: Option<File>, leaf: Option<File>, chronicle: seq<LeafChange>,
      swept: seq<Sweep>, k: nat)
    requires Told(origin, leaf, chronicle, swept)
    requires k <= |chronicle| && LeafBefore(origin, chronicle, k).Some?
    ensures var f := LeafBefore(origin, chronicle, k).value;
            if k == |chronicle| then leaf == Some(f)
            else chronicle[k].before == Some(f)
                 && (|| chronicle[k].mover.Others?
                     || (exists i :: 0 <= i < |swept| && SameFile(f, swept[i].file)))
  {
    if k < |chronicle| {
      assert Recorded(chronicle[k], swept);
    }
  }

  predicate SizeFits(expectedSize: Option<nat>, f: File) {
    expectedSize.Some? ==> f.identity.size == expectedSize.value
  }

  /** The exact generation, as it is before it is moved. */
  predicate IsExact(expected: FileIdentity, expectedSize: Option<nat>, f: File) {
    f.regular && f.identity == expected && SizeFits(expectedSize, f)
  }

  /** The same generation after a move, which may only have advanced its ctime. */
  predicate Matches(expected: FileIdentity, expectedSize: Option<nat>, f: File) {
    && f.regular
    && f.identity.device == expected.device
    && f.identity.inode == expected.inode
    && f.identity.size == expected.size
    && f.identity.mtime == expected.mtime
    && f.identity.ctime >= expected.ctime
    && SizeFits(expectedSize, f)
  }

  /** A rename advances the ctime. */
  function Moved(f: File, now: nat): File {
    if f.identity.ctime < now then f.(identity := f.identity.(ctime := now)) else f
  }

  class SecureDelete {
    const expected: FileIdentity
    const expectedSize: Option<nat>
    /** No call fails; others may interfere and processes may die. */
    const steady: bool
    /** Besides, no other process touches the leaf; processes may still die. */
    const quiet: bool
    /** The file at the leaf name when the first run began. */
    ghost const origin: Option<File>

    var leaf: Option<File>
    var active: Option<Directory>
    var completed: Option<Directory>
    var now: nat
    var script: seq<Tick>
    /** Every file this token's runs ever moved off the leaf name. */
    var swept: seq<Sweep>
    /** Every change of what stands at the leaf name, by whomever. */
    var chronicle: seq<LeafChange>
    /** How often these runs changed the leaf name themselves. */
    var leafSteps: nat

    function Last(): Sweep
      requires swept != []
      reads this
    {
      swept[|swept| - 1]
    }

    predicate IsWanted(f: File)
    {
      Matches(expected, expectedSize, f)
    }

    predicate ExactAtLeaf()
      reads this
    {
      leaf.Some? && IsExact(expected, expectedSize, leaf.value)
    }

    function Candidate(): Option<File>
      reads this
    {
      if active.Some? then active.value.candidate else None
    }

    predicate Tombstoned()
      reads this
    {
      active.Some? && active.value.tombstone
    }

    /** Every swept file was destroyed as the wanted one, relinked, or is held in quarantine. */
    ghost predicate Accounted()
      reads this
    {
      && (forall k :: 0 <= k < |swept| && swept[k].fate == Destroyed ==> IsWanted(swept[k].file))
      && (forall k :: 0 <= k < |swept| - 1 ==> swept[k].fate != Held)
      && (swept != [] && Last().fate == Held ==> Candidate() == Some(Last().file))
      && (Candidate().Some? ==> swept != [] && Candidate() == Some(Last().file) && Last().fate != Destroyed)
    }

    /** A tombstone or a completed directory stands for a candidate that was found to be the wanted one. */
    ghost predicate Marked()
      reads this
    {
      && (Tombstoned() || completed.Some? ==> swept != [] && IsWanted(Last().file))
      && (completed.Some? ==> completed.value.candidate.None? && active.None?)
    }

    /** Left to itself, the deletion is somewhere on its straight path. */
    ghost predicate Straight()
      reads this
    {
      && origin.Some?
      && IsExact(expected, expectedSize, origin.value)
      && (if swept == [] then leaf == origin && completed.None? && Candidate().None? && !Tombstoned()
          else |swept| == 1 && leaf.None? && Last().fate != Relinked
               && Last().file.id == origin.value.id && IsWanted(Last().file))
    }

    /** Where no call fails, a file that was relinked is not the wanted one, and a mark stands for a file destroyed. */
    ghost predicate Sure()
      reads this
    {
      && (Candidate().Some? && swept != [] && Last().fate == Relinked ==> !IsWanted(Last().file))
      && ((Tombstoned() && Candidate().None?) || completed.Some? ==> swept != [] && Last().fate == Destroyed)
    }

    /** The leaf name's history is on record, with this many changes of our own. */
    ghost predicate Chronicled()
      reads this`leaf, this`chronicle, this`swept, this`leafSteps
    {
      Told(origin, leaf, chronicle, swept) && OwnChanges(chronicle) == leafSteps
    }

    ghost predicate Valid()
      reads this
    {
      && Accounted()
      && Chronicled()
      && Marked()
      && (steady ==> Sure())
      && (quiet ==> steady && Straight())
    }

    /** The quarantine still stands for a file that was put back under the leaf name. */
    predicate Leftover()
      reads this
    {
      Engaged() && swept != [] && Last().fate == Relinked
    }

    /** The deletion has gone past the leaf: what is there now is somebody else's. */
    predicate Engaged()
      reads this
    {
      completed.Some? || Candidate().Some? || Tombstoned()
    }

    /** The generation is gone: moved away, and unlinked as the wanted file. */
    ghost predicate Gone()
      reads this
    {
      origin.Some? && leaf.None? && Candidate().None? && swept != [] && Last().fate == Destroyed
        && Last().file.id == origin.value.id
    }

    constructor (expected: FileIdentity, expectedSize: Option<nat>, steady: bool, quiet: bool, leaf: Option<File>,
      now: nat)
      requires quiet ==> steady && leaf.Some? && IsExact(expected, expectedSize, leaf.value)
      ensures Valid() && swept == [] && chronicle == [] && active.None? && completed.None?
      ensures this.expected == expected && this.expectedSize == expectedSize && this.leaf == leaf && this.now == now
      ensures this.steady == steady && this.quiet == quiet
    {
      this.expected, this.expectedSize, this.origin := expected, expectedSize, leaf;
      this.steady, this.quiet := steady, quiet;
      this.leaf, active, completed, this.now, script, swept, leafSteps := leaf, None, None, now, [], [], 0;
      chronicle := [];
    }

    // ------------------------------------------------------------ system calls

    /** How the call at this position will fare. */
    function Fate(k: nat): Fault
      reads this`script
    {
      if k >= |script| || (steady && script[k].fault == Fails) then Works else script[k].fault
    }

    /** How a row of calls ends that stops at the first one that does not work. */
    function FirstFault(n: nat): Fault
      reads this`script
    {
      if n > 0 && Fate(0) != Works then Fate(0)
      else if n > 1 && Fate(1) != Works then Fate(1)
      else if n > 2 && Fate(2) != Works then Fate(2)
      else Works
    }

    /** What will stand at the leaf name at the next call. */
    function LeafSoon(): Option<File>
      reads this
    {
      if script != [] && script[0].leaf.Some? && !quiet then script[0].leaf.value else leaf
    }

    /** Another process may act first; then the call works, fails, or the process dies in front of it. */
    method Reach() returns (f: Fault)
      requires Valid()
      modifies this`leaf, this`chronicle, this`now, this`script
      ensures Valid() && old(now) <= now
      ensures (quiet ==> leaf == old(leaf)) && (steady ==> f != Fails)
      ensures leaf == old(LeafSoon())
      ensures old(script) == [] ==> script == [] && f == Works && leaf == old(leaf) && chronicle == old(chronicle)
      ensures old(script) != [] ==> script == old(script)[1..]
      ensures old(script) != [] && old(script)[0].leaf.None? ==> leaf == old(leaf)
      ensures old(script) != [] && !steady ==> f == old(script)[0].fault
      ensures old(script) != [] && old(script)[0] == Calm ==> f == Works
      ensures f == old(Fate(0)) && script == Rest(old(script), 1)
      ensures now == if old(script != [] && script[0].now > now) then old(script)[0].now else old(now)
    {
      hide Chronicled;
      if script == [] { return Works; }
      var t := script[0];
      script := script[1..];
      if t.leaf.Some? && !quiet { OthersAct(t.leaf.value); }
      if t.now > now { now := t.now; }
      f := if steady && t.fault == Fails then Works else t.fault;
    }

    /** Another process changes what stands at the leaf name. */
    method OthersAct(file: Option<File>)
      requires Valid() && !quiet
      modifies this`leaf, this`chronicle
      ensures Valid() && leaf == file && chronicle == old(chronicle) + [LeafChange(Others, old(leaf), file)]
    {
      hide Told, OwnChanges;
      var c := LeafChange(Others, leaf, file);
      ToldMore(origin, chronicle, swept, c, swept);
      leaf, chronicle := file, chronicle + [c];
    }

    /** The next calls work undisturbed. */
    predicate Goes(n: nat)
      reads this
    {
      n <= |script| && forall k :: 0 <= k < n ==> script[k] == Calm
    }

    /** A call that changes nothing, or whose change does not matter here: stat, open, fsync. */
    method Look(failure: Refusal) returns (o: Deleting<()>)
      requires Valid()
      modifies this`leaf, this`chronicle, this`now, this`script
      ensures Valid()
      ensures (quiet ==> leaf == old(leaf)) && (steady ==> !o.Blocked?)
      ensures o.Blocked? ==> o.reason == failure
      ensures leaf == old(LeafSoon())
      ensures old(script) == [] ==> script == [] && o.Done? && leaf == old(leaf) && chronicle == old(chronicle)
      ensures old(script) != [] && old(script)[0] == Calm ==> script == old(script)[1..] && o.Done? && leaf == old(leaf)
      ensures old(script) != [] && old(script)[0] == Failing && !steady ==>
                script == old(script)[1..] && o.Blocked? && leaf == old(leaf)
      ensures o == Said(old(Fate(0)), failure) && script == Rest(old(script), 1)
    {
      hide Told, OwnChanges, Chronicled;
      var f := Reach();
      o := match f case Works => Done(()) case Fails => Blocked(failure) case Dies => Crashed;
    }

    /** mkdir of the active directory, unless it is there, and its opening. */
    method OpenActive() returns (o: Deleting<()>)
      requires Valid() && completed.None?
      modifies this`leaf, this`chronicle, this`now, this`script, this`active
      ensures Valid()
      ensures o.Done? ==> active == (if old(active).None? then Some(Directory(None, false)) else old(active))
      ensures !o.Done? ==> active == old(active) || active == Some(Directory(None, false))
      ensures Candidate() == old(Candidate()) && Tombstoned() == old(Tombstoned())
      ensures (quiet ==> leaf == old(leaf)) && (steady ==> !o.Blocked?)
      ensures o.Blocked? ==> o.reason == Unsafe
      ensures old(script) == [] ==> script == [] && o.Done? && leaf == old(leaf)
      ensures old(active.None? && Goes(3)) ==> o.Done? && script == old(script)[3..] && leaf == old(leaf)
    {
      hide Told, OwnChanges, Chronicled;
      var _ :- Look(Unsafe);
      if active.None? {
        active := Some(Directory(None, false));
        var _ :- Look(Unsafe);
      }
      o := Look(Unsafe);
    }

    /** stat of the leaf name: only the exact generation will do. */
    method ValidateLeaf() returns (o: Deleting<()>)
      requires Valid()
      modifies this`leaf, this`chronicle, this`now, this`script
      ensures Valid()
      ensures quiet ==> leaf == old(leaf) && (o.Blocked? ==> leaf.None?)
      ensures o.Blocked? && o.reason == CandidateUnavailable ==> leaf.None?
      ensures o.Blocked? && leaf.None? && quiet ==> o.reason == CandidateUnavailable
      ensures o.Done? ==>
                leaf.Some? && leaf.value.regular && leaf.value.identity == expected
                && (expectedSize.Some? ==> leaf.value.identity.size == expectedSize.value)
      ensures o.Done? ==> ExactAtLeaf()
      ensures old(script) == [] ==> script == [] && leaf == old(leaf)
      ensures old(script) == [] ==>
                o == if leaf.None? then Blocked(CandidateUnavailable)
                     else if ExactAtLeaf() then Done(()) else Blocked(Unsafe)
      ensures old(Goes(1) && ExactAtLeaf()) ==>
                o.Done? && script == old(script)[1..] && leaf == old(leaf)
    {
      hide Told, OwnChanges, Chronicled;
      var _ :- Look(Unsafe);
      if leaf.None? { return Blocked(CandidateUnavailable); }
      if !IsExact(expected, expectedSize, leaf.value) { return Blocked(Unsafe); }
      o := Done(());
    }

    /** rename of whatever is at the leaf name by now into the quarantine. */
    method MoveLeaf() returns (o: Deleting<()>)
      requires Valid() && active.Some? && !Engaged()
      requires quiet ==> leaf.Some?
      modifies this`leaf, this`chronicle, this`now, this`script, this`active, this`swept, this`leafSteps
      ensures Valid() && completed == old(completed)
      ensures o.Done? ==> Candidate().Some? && !Tombstoned() && swept == old(swept) + [Sweep(Candidate().value, Held)]
      ensures !o.Done? ==> active == old(active) && swept == old(swept)
      ensures quiet ==> !o.Blocked?
      ensures old(script) == [] ==> script == [] && !o.Crashed?
      ensures active.Some?
      ensures old(script == [] && ExactAtLeaf()) ==> o.Done? && leaf.None? && IsWanted(Candidate().value)
      ensures old(Goes(1) && leaf.Some?) ==> o.Done? && script == old(script)[1..] && leaf.None?
      ensures old(Goes(1) && ExactAtLeaf()) ==> o.Done? && IsWanted(Candidate().value)
    {
      hide Told, OwnChanges, Chronicled;
      var _ :- Look(Unsafe);
      if leaf.None? { return Blocked(CandidateUnavailable); }
      var f := Moved(leaf.value, now);
      SweepLeaf(f);
      o := Done(());
    }

    /** What stood at the leaf name is the candidate now, and on record. */
    method SweepLeaf(f: File)
      requires Valid() && active.Some? && !Engaged() && leaf.Some? && SameFile(leaf.value, f)
      modifies this`leaf, this`chronicle, this`active, this`swept, this`leafSteps
      ensures Valid() && leaf.None? && active == Some(Directory(Some(f), false))
      ensures swept == old(swept) + [Sweep(f, Held)] && leafSteps == old(leafSteps) + 1
      ensures chronicle == old(chronicle) + [LeafChange(Rename(|old(swept)|), old(leaf), None)]
    {
      hide Told, OwnChanges, SameFile;
      var c := LeafChange(Rename(|swept|), leaf, None);
      ToldMore(origin, chronicle, swept, c, swept + [Sweep(f, Held)]);
      assert Straight() || !quiet;
      SameFileWanted(leaf.value, f);
      leaf, chronicle, active := None, chronicle + [c], Some(Directory(Some(f), false));
      swept, leafSteps := swept + [Sweep(f, Held)], leafSteps + 1;
    }

    lemma SameFileWanted(a: File, b: File)
      requires SameFile(a, b)
      ensures IsExact(expected, expectedSize, a) ==> IsWanted(b) && b.id == a.id
    {
    }

    /** Put the candidate back under the leaf name, unless that is taken; it stays in quarantine until it is back. */
    method Restore() returns (o: Deleting<()>)
      requires Valid() && !quiet && Candidate().Some? && !Tombstoned() && Last().fate == Held
      requires steady ==> !IsWanted(Candidate().value)
      modifies this`leaf, this`chronicle, this`now, this`script, this`active, this`swept, this`leafSteps
      ensures Valid() && |swept| == |old(swept)|
      ensures o.Done? ==> Last().fate == Relinked && Candidate().None?
      ensures o.Blocked? && o.reason == Unsafe ==> Candidate().Some? && Candidate() == old(Candidate())
      ensures old(LeafSoon()).Some? ==>
                !o.Done? && leaf == old(LeafSoon()) && Untouched(old(active), old(swept), old(leafSteps))
      ensures old(LeafSoon()).Some? && o.Blocked? ==> o.reason == Unsafe
      ensures Last().fate != Relinked ==> Untouched(old(active), old(swept), old(leafSteps))
      ensures old(script) == [] ==> script == [] && !o.Crashed?
      ensures old(script == [] && leaf.None?) ==> o.Done? && leaf == old(Candidate())
      ensures !steady && old(leaf.None? && script == [Calm, Failing]) ==>
                o.Blocked? && Candidate() == old(Candidate()) == leaf && Last().fate == Relinked && !Tombstoned()
      ensures old(Fate(0)) != Works ==>
                o == Said(old(Fate(0)), Unsafe) && Untouched(old(active), old(swept), old(leafSteps))
    {
      hide Told, OwnChanges, Chronicled;
      var file := Candidate().value;
      var _ :- Look(Unsafe);
      if leaf.Some? { return Blocked(Unsafe); }
      LinkBack(file);
      var _ :- Look(Unsafe);
      active := Some(Directory(None, false));
      o := SyncBoth(RecoveryRequired);
    }

    /** The directory and the files swept are as they were, and the leaf name was left alone. */
    predicate Untouched(active: Option<Directory>, swept: seq<Sweep>, leafSteps: nat)
      reads this
    {
      this.active == active && this.swept == swept && this.leafSteps == leafSteps
    }

    /** link of the candidate to the free leaf name. */
    method LinkBack(file: File)
      requires Valid() && !quiet && Candidate() == Some(file) && !Tombstoned() && leaf.None?
      requires swept != [] && Last().fate == Held && (steady ==> !IsWanted(file))
      modifies this`leaf, this`chronicle, this`swept, this`leafSteps
      ensures Valid() && leaf == Some(file) && leafSteps == old(leafSteps) + 1
      ensures swept == old(swept)[|old(swept)| - 1 := Sweep(file, Relinked)]
    {
      hide Told, OwnChanges;
      var n := |swept| - 1;
      var c := LeafChange(Link(n), None, Some(file));
      ToldMore(origin, chronicle, swept, c, swept[n := Sweep(file, Relinked)]);
      leaf, chronicle, leafSteps := Some(file), chronicle + [c], leafSteps + 1;
      swept := swept[n := Sweep(file, Relinked)];
    }

    method SyncBoth(failure: Refusal) returns (o: Deleting<()>)
      requires Valid()
      modifies this`leaf, this`chronicle, this`now, this`script
      ensures Valid()
      ensures (quiet ==> leaf == old(leaf)) && (steady ==> !o.Blocked?)
      ensures o.Blocked? ==> o.reason == failure
      ensures old(script) == [] ==> script == [] && o.Done? && leaf == old(leaf)
      ensures old(script) != [] && old(script)[0] == Failing && !steady ==>
                script == old(script)[1..] && o.Blocked? && leaf == old(leaf)
      ensures o == Said(old(FirstFault(2)), failure) && (o.Done? ==> script == Rest(old(script), 2))
    {
      hide Told, OwnChanges, Chronicled;
      var _ :- Look(failure);
      o := Look(failure);
    }

    // ------------------------------------------------------------ the operation

    /** The candidate in quarantine must be the wanted generation. */
    method ValidateQuarantined() returns (o: Deleting<()>)
      requires Valid() && Candidate().Some?
      modifies this`leaf, this`chronicle, this`now, this`script
      ensures Valid()
      ensures o.Done? ==> IsWanted(Candidate().value)
      ensures quiet ==> leaf == old(leaf) && !o.Blocked?
      ensures steady && o.Blocked? ==> !IsWanted(Candidate().value)
      ensures o.Blocked? ==> o.reason == Unsafe
      ensures old(script) == [] ==> script == [] && !o.Crashed? && leaf == old(leaf)
      ensures old(script) == [] && o.Blocked? ==> !IsWanted(Candidate().value)
      ensures o == if old(Fate(0)) == Works && !IsWanted(Candidate().value) then Blocked(Unsafe)
                   else Said(old(Fate(0)), Unsafe)
    {
      hide Told, OwnChanges, Chronicled;
      var _ :- Look(Unsafe);
      if !IsWanted(Candidate().value) { return Blocked(Unsafe); }
      o := Done(());
    }

    /** Give a candidate that may not be deleted back; what cannot be given back stays, and says so. */
    method GiveBack() returns (o: Deleting<()>)
      requires Valid() && !quiet && Candidate().Some? && !Tombstoned() && Last().fate == Held
      requires steady ==> !IsWanted(Candidate().value)
      modifies this`leaf, this`chronicle, this`now, this`script, this`active, this`swept, this`leafSteps
      ensures Valid() && |swept| == |old(swept)| && !o.Done?
      ensures o.Blocked? && o.reason == Unsafe ==> Last().fate == Relinked && Candidate().None?
      ensures o.Blocked? ==> o.reason != CandidateUnavailable
      ensures old(LeafSoon()).Some? ==>
                (o.Crashed? || o == Blocked(RecoveryRequired)) && leaf == old(LeafSoon())
                && Untouched(old(active), old(swept), old(leafSteps))
      ensures old(script == [] && leaf.None?) ==> o == Blocked(Unsafe) && leaf == old(Candidate())
      ensures !steady && old(leaf.None? && script == [Calm, Failing]) ==>
                o == Blocked(RecoveryRequired) && Candidate() == old(Candidate()) == leaf && Last().fate == Relinked
                && !Tombstoned()
      ensures old(Fate(0)) == Dies ==> o.Crashed?
    {
      hide Told, OwnChanges, Chronicled;
      var restored := Restore();
      if restored.Crashed? { return Crashed; }
      o := Blocked(if restored.Done? then Unsafe else RecoveryRequired);
    }

    /** The wanted file is back under the leaf name, and the quarantine still has its link to it. */
    predicate RestoredButHeld()
      reads this
    {
      && Candidate().Some? && IsWanted(Candidate().value) && !Tombstoned() && completed.None?
      && leaf == Candidate()
      && swept != [] && Last().fate == Relinked
    }

    /** Move the exact generation off the leaf name, and look again at what was really moved. */
    method TakeFromLeaf() returns (o: Deleting<()>)
      requires Valid() && active.Some? && !Engaged()
      modifies this`leaf, this`chronicle, this`now, this`script, this`active, this`swept, this`leafSteps
      ensures Valid() && completed.None? && |old(swept)| <= |swept| <= |old(swept)| + 1
      ensures o.Done? ==> Candidate().Some? && IsWanted(Candidate().value) && Last().fate == Held
      ensures quiet && o.Blocked? ==> o.reason == CandidateUnavailable && Gone()
      ensures quiet && old(script) == [] ==> script == [] && !o.Crashed?
      ensures old(script == [] && ExactAtLeaf()) ==> o.Done? && leaf.None? && script == []
      ensures old(script == [] && !ExactAtLeaf()) ==>
                && o == Blocked(if old(leaf).None? then CandidateUnavailable else Unsafe)
                && leaf == old(leaf) && Untouched(old(active), old(swept), old(leafSteps))
      ensures !steady && old(ExactAtLeaf() && script == HalfRestored[6..]) ==>
                o == Blocked(RecoveryRequired) && RestoredButHeld()
    {
      hide Told, OwnChanges, Chronicled;
      var valid := ValidateLeaf();
      if !valid.Done? { return valid; }
      var moved := MoveLeaf();
      if !moved.Done? { return moved; }
      var synced := SyncBoth(Unsafe);
      if synced.Crashed? { return Crashed; }
      if synced.Done? {
        var again := ValidateQuarantined();
        if !again.Blocked? { return again; }
      }
      o := GiveBack();
    }

    /** Leave a durable tombstone beside the candidate before it is unlinked. */
    method EnsureTombstone() returns (o: Deleting<()>)
      requires Valid() && Candidate().Some? && IsWanted(Candidate().value)
      modifies this`leaf, this`chronicle, this`now, this`script, this`active
      ensures Valid() && Candidate() == old(Candidate())
      ensures o.Done? ==> Tombstoned()
      ensures (quiet ==> leaf == old(leaf)) && (steady ==> !o.Blocked?)
      ensures o.Blocked? ==> o.reason == RecoveryRequired
      ensures old(script) == [] ==> script == [] && o.Done? && leaf == old(leaf)
      ensures o == Said(old(FirstFault(3)), RecoveryRequired) && (o.Done? ==> script == Rest(old(script), 3))
      ensures old(Fate(0)) != Works ==> active == old(active)
    {
      hide Told, OwnChanges, Chronicled;
      var _ :- Look(RecoveryRequired);
      active := Some(active.value.(tombstone := true));
      o := SyncBoth(RecoveryRequired);
    }

    /** Unlink the candidate; unless it was relinked before, that destroys it. */
    method UnlinkCandidate() returns (o: Deleting<()>)
      requires Valid() && Candidate().Some? && IsWanted(Candidate().value) && Tombstoned()
      modifies this`leaf, this`chronicle, this`now, this`script, this`active, this`swept
      ensures Valid() && |swept| == |old(swept)| && swept != []
      ensures o.Done? ==> Candidate().None? && Tombstoned()
      ensures o.Done? ==> Last().fate == if old(Last().fate) == Relinked then Relinked else Destroyed
      ensures (quiet ==> leaf == old(leaf)) && (steady ==> !o.Blocked?)
      ensures o.Blocked? ==> o.reason == RecoveryRequired
      ensures old(script) == [] ==> script == [] && o.Done? && leaf == old(leaf)
      ensures o == Said(old(FirstFault(2)), RecoveryRequired) && (o.Done? ==> script == Rest(old(script), 2))
      ensures old(Fate(0)) != Works ==> active == old(active) && swept == old(swept)
    {
      hide Told, OwnChanges, Chronicled;
      var _ :- Look(RecoveryRequired);
      DropCandidate();
      o := Look(RecoveryRequired);
    }

    /** The candidate's last link goes, and with it the file, unless it was relinked before. */
    method DropCandidate()
      requires Valid() && Candidate().Some? && IsWanted(Candidate().value) && Tombstoned()
      modifies this`active, this`swept
      ensures Valid() && |swept| == |old(swept)| && swept != [] && active == Some(Directory(None, true))
      ensures old(swept != [])
                && Last() == Sweep(old(Last().file), if old(Last().fate) == Relinked then Relinked else Destroyed)
    {
      hide Told, OwnChanges;
      if Last().fate == Held {
        ToldStill(origin, leaf, chronicle, swept, swept[|swept| - 1 := Sweep(Last().file, Destroyed)]);
        swept := swept[|swept| - 1 := Sweep(Last().file, Destroyed)];
      }
      active := Some(Directory(None, true));
    }

    /** Retire the quarantine directory. Its failures are harmless: the candidate is gone already. */
    method CompleteDelete() returns (o: Deleting<()>)
      requires Valid() && Tombstoned() && Candidate().None?
      modifies this`leaf, this`chronicle, this`now, this`script, this`active, this`completed
      ensures Valid() && Candidate().None?
      ensures (quiet ==> leaf == old(leaf)) && (steady ==> !o.Blocked?)
      ensures o.Blocked? ==> o.reason == Unsafe
      ensures old(script) == [] ==> script == [] && o.Done? && leaf == old(leaf)
      ensures old(script) == [] ==> active.None? && completed.None?
      ensures old(Fate(0)) != Works ==> o == Said(old(Fate(0)), Unsafe)
      ensures old(FirstFault(2)) != Works ==> active == old(active) && completed == old(completed)
      ensures old(FirstFault(2)) == Works ==> active.None?
      ensures old(Fate(0)) == Works && old(Fate(1)) == Fails ==> o.Done?
      ensures old(FirstFault(2)) == Dies || (old(FirstFault(2)) == Works && old(Fate(2)) == Dies) ==> o.Crashed?
    {
      hide Told, OwnChanges, Chronicled;
      var _ :- Look(Unsafe);
      if completed.Some? { return Done(()); }
      var renamed := Look(Unsafe);
      if renamed.Blocked? { return Done(()); }
      if renamed.Crashed? { return Crashed; }
      active, completed := None, active;
      var synced := Look(Unsafe);
      if synced.Crashed? { return Crashed; }
      o := RetireCompleted();
    }

    /** Drop the tombstone and the completed directory, as far as that works. */
    method RetireCompleted() returns (o: Deleting<()>)
      requires Valid() && completed.Some?
      modifies this`leaf, this`chronicle, this`now, this`script, this`completed
      ensures Valid()
      ensures (quiet ==> leaf == old(leaf)) && (steady ==> !o.Blocked?)
      ensures o.Blocked? ==> o.reason == Unsafe
      ensures old(script) == [] ==> script == [] && o.Done? && leaf == old(leaf)
      ensures old(script) == [] ==> completed.None?
      ensures old(Fate(0)) != Works ==> o == Said(old(Fate(0)), Unsafe) && completed == old(completed)
      ensures old(FirstFault(2)) == Dies ==> o.Crashed?
      ensures old(completed.value.tombstone && Fate(0) == Works && Fate(1) != Dies && Fate(2) == Dies) ==> o.Crashed?
      ensures o.Done? && old(Fate(1)) != Works ==> completed.Some?
    {
      hide Told, OwnChanges, Chronicled;
      var _ :- Look(Unsafe);
      if completed.value.tombstone {
        var unlinked := Look(Unsafe);
        if unlinked.Crashed? { return Crashed; }
        if unlinked.Done? { completed := Some(Directory(None, false)); }
      }
      var removed := Look(Unsafe);
      if removed.Crashed? { return Crashed; }
      if removed.Done? && !completed.value.tombstone { completed := None; }
      o := Done(());
    }

    /** An earlier run completed the deletion: confirm that, and clean up. */
    method RecoverCompleted() returns (o: Deleting<FileIdentity>)
      requires Valid() && completed.Some?
      modifies this`leaf, this`chronicle, this`now, this`script, this`completed
      ensures Valid()
      ensures (quiet ==> leaf == old(leaf)) && (steady ==> !o.Blocked?)
      ensures o.Done? ==> swept != [] && IsWanted(Last().file) && (steady ==> Last().fate == Destroyed)
      ensures old(script) == [] ==> script == [] && o.Done? && leaf == old(leaf)
      ensures old(script) == [] ==> completed.None?
      ensures old(Fate(0)) == Fails ==> o == Blocked(Unsafe)
      ensures old(Fate(0)) == Works && old(Fate(1)) == Fails ==> o == Blocked(RecoveryRequired)
      ensures old(FirstFault(2)) == Dies ==> o.Crashed?
    {
      hide Told, OwnChanges, Chronicled;
      FateFacts();
      var _ :- Look(Unsafe);
      if completed.value.candidate.Some? { return Blocked(Unsafe); }
      var _ :- Look(RecoveryRequired);
      var _ :- RetireCompleted();
      o := Done(expected);
    }

    /** The candidate is in quarantine and wanted: entomb it, unlink it, and retire the quarantine. */
    method DestroyCandidate() returns (o: Deleting<FileIdentity>)
      requires Valid() && Candidate().Some? && IsWanted(Candidate().value)
      modifies this`leaf, this`chronicle, this`now, this`script, this`active, this`completed, this`swept
      ensures Valid() && |swept| == |old(swept)|
      ensures o.Done? ==> o.value == expected && swept != [] && IsWanted(Last().file) && Candidate().None?
      ensures o.Done? ==> Last().fate == if old(Last().fate) == Relinked then Relinked else Destroyed
      ensures (quiet ==> leaf == old(leaf)) && (steady ==> !o.Blocked?)
      ensures old(script) == [] ==> script == [] && o.Done? && leaf == old(leaf)
      ensures old(script) == [] ==> active.None? && completed.None?
    {
      hide Valid;
      var _ :- EnsureTombstone();
      var _ :- UnlinkCandidate();
      WantedLast();
      var _ :- CompleteDelete();
      o := Done(expected);
    }

    lemma StoryIsTold()
      requires Valid()
      ensures Told(origin, leaf, chronicle, swept) && OwnChanges(chronicle) == leafSteps
    {
    }

    lemma WantedLast()
      requires Valid() && (Tombstoned() || completed.Some?)
      ensures swept != [] && IsWanted(Last().file)
    {
    }

    /** What the quarantine tells about the last file swept. */
    lemma FateFacts()
      requires Valid()
      ensures swept != [] && Candidate().None? ==> Last().fate != Held
      ensures Candidate().Some? ==> swept != [] && Last().file == Candidate().value && Last().fate != Destroyed
      ensures Tombstoned() || completed.Some? ==> swept != [] && IsWanted(Last().file)
      ensures steady && Candidate().Some? && IsWanted(Candidate().value) ==> Last().fate == Held
      ensures steady && ((Tombstoned() && Candidate().None?) || completed.Some?) ==> Last().fate == Destroyed
    {
    }

    lemma GoneWhenQuiet()
      requires Valid() && quiet && swept != [] && Candidate().None?
      ensures Gone()
    {
    }

    /**
     Delete the expected generation beneath the leaf name, or resume its deletion. Whatever others do to the leaf,
     only that generation is destroyed; a resumed deletion leaves the leaf alone.
     */
    method SecureUnlink() returns (o: Deleting<FileIdentity>)
      requires Valid()
      modifies this`leaf, this`chronicle, this`now, this`script, this`active, this`completed, this`swept, this`leafSteps
      ensures Valid() && |old(swept)| <= |swept| <= |old(swept)| + 1
      ensures o.Done? ==> o.value == expected && swept != [] && IsWanted(Last().file) && Candidate().None?
      ensures o.Done? ==> Last().fate == if old(Leftover()) then Relinked else Destroyed
      ensures steady && o.Done? ==> Last().fate == Destroyed
      ensures old(Engaged()) ==> leafSteps == old(leafSteps) && |swept| == |old(swept)|
      ensures quiet && old(script) == [] ==> (o.Done? || o == Blocked(CandidateUnavailable)) && Gone()
      ensures old(script == [] && completed.None? && Candidate().Some? && IsWanted(Candidate().value)) ==>
                o.Done? && leaf == old(leaf)
      ensures old(script == [] && ExactAtLeaf() && !Engaged()) ==> o.Done? && leaf.None?
      ensures old(script == [] && !ExactAtLeaf() && !Engaged()) ==>
                && o == Blocked(if old(leaf).None? then CandidateUnavailable else Unsafe)
                && leaf == old(leaf) && swept == old(swept) && leafSteps == old(leafSteps)
      ensures old(script == [] && completed.None? && Candidate().Some? && !IsWanted(Candidate().value)) ==>
                && o == Blocked(Unsafe) && Candidate() == old(Candidate())
                && leaf == old(leaf) && swept == old(swept) && leafSteps == old(leafSteps)
      ensures old(script == [] && Candidate().None? && Engaged()) ==> o.Done? && leaf == old(leaf)
      ensures old(script) == [] && o.Done? ==> active.None? && completed.None?
      ensures !steady && old(active.None? && completed.None? && ExactAtLeaf() && script == HalfRestored) ==>
                o == Blocked(RecoveryRequired) && RestoredButHeld()
    {
      hide Accounted, Marked, Chronicled, Straight;
      var _ :- Look(Unsafe);
      if completed.Some? {
        CompletedHasNoCandidate();
        FateFacts();
        if quiet { WantedLast(); GoneWhenQuiet(); }
        var recovered :- RecoverCompleted();
        return Done(expected);
      }
      var _ :- OpenActive();
      o := WorkInActive();
    }

    /** Go on from what the active directory holds: a tombstone alone, a candidate, or nothing yet. */
    method WorkInActive() returns (o: Deleting<FileIdentity>)
      requires Valid() && active.Some? && completed.None?
      modifies this`leaf, this`chronicle, this`now, this`script, this`active, this`completed, this`swept, this`leafSteps
      ensures Valid() && |old(swept)| <= |swept| <= |old(swept)| + 1
      ensures o.Done? ==> o.value == expected && swept != [] && IsWanted(Last().file) && Candidate().None?
      ensures o.Done? ==> Last().fate == if old(Leftover()) then Relinked else Destroyed
      ensures steady && o.Done? ==> Last().fate == Destroyed
      ensures old(Engaged()) ==> leafSteps == old(leafSteps) && |swept| == |old(swept)|
      ensures quiet && old(script) == [] ==> (o.Done? || o == Blocked(CandidateUnavailable)) && Gone()
      ensures old(script == [] && completed.None? && Candidate().Some? && IsWanted(Candidate().value)) ==>
                o.Done? && leaf == old(leaf)
      ensures old(script == [] && ExactAtLeaf() && !Engaged()) ==> o.Done? && leaf.None?
      ensures old(script == [] && !ExactAtLeaf() && !Engaged()) ==>
                && o == Blocked(if old(leaf).None? then CandidateUnavailable else Unsafe)
                && leaf == old(leaf) && swept == old(swept) && leafSteps == old(leafSteps)
      ensures old(script == [] && completed.None? && Candidate().Some? && !IsWanted(Candidate().value)) ==>
                && o == Blocked(Unsafe) && Candidate() == old(Candidate())
                && leaf == old(leaf) && swept == old(swept) && leafSteps == old(leafSteps)
      ensures old(script == [] && Candidate().None? && Engaged()) ==> o.Done? && leaf == old(leaf)
      ensures old(script) == [] && o.Done? ==> active.None? && completed.None?
      ensures !steady && old(!Engaged() && ExactAtLeaf() && script == HalfRestored[4..]) ==>
                o == Blocked(RecoveryRequired) && RestoredButHeld()
    {
      hide Valid, IsWanted, Gone, Fate, FirstFault, Said, LeafSoon;
      var _ :- Look(Unsafe);
      var _ :- Look(Unsafe);
      FateFacts();
      if Tombstoned() && Candidate().None? {
        o := FinishTombstoned();
        return;
      }
      if Candidate().Some? {
        var _ :- ValidateQuarantined();
      } else {
        var _ :- TakeFromLeaf();
      }
      o := DestroyCandidate();
      if quiet && o.Done? { GoneWhenQuiet(); }
    }

    /** A tombstone without a candidate: the deletion happened, and only has to be made durable and retired. */
    method FinishTombstoned() returns (o: Deleting<FileIdentity>)
      requires Valid() && Tombstoned() && Candidate().None?
      modifies this`leaf, this`chronicle, this`now, this`script, this`active, this`completed
      ensures Valid()
      ensures o.Done? ==> o.value == expected && swept != [] && IsWanted(Last().file) && Candidate().None?
      ensures quiet && old(script) == [] ==> o.Done? && Gone()
      ensures old(script) == [] ==> o.Done? && leaf == old(leaf) && active.None? && completed.None?
      ensures old(Fate(0)) == Fails ==> o == Blocked(RecoveryRequired)
      ensures old(Fate(0)) == Dies ==> o.Crashed?
    {
      hide Accounted, Marked, Chronicled, Straight;
      WantedLast();
      if quiet { GoneWhenQuiet(); }
      var _ :- Look(RecoveryRequired);
      var _ :- CompleteDelete();
      o := Done(expected);
    }

    lemma CompletedHasNoCandidate()
      requires Valid() && completed.Some?
      ensures active.None? && Candidate().None?
    {
    }

    /** Only the expected generation is destroyed, field by field. */
    lemma {:induction false} DestroyedIsExpected(k: nat)
      requires Valid() && k < |swept| && swept[k].fate == Destroyed
      ensures var f := swept[k].file;
              && f.regular
              && f.identity.device == expected.device && f.identity.inode == expected.inode
              && f.identity.size == expected.size && f.identity.mtime == expected.mtime
              && f.identity.ctime >= expected.ctime
              && (expectedSize.Some? ==> f.identity.size == expectedSize.value)
    {
      assert IsWanted(swept[k].file);
    }

    /** What stood at the leaf name is there still, or went by another process or by a rename on record. */
    lemma {:induction false} LeafFilesAreKept(k: nat)
      requires Valid() && k <= |chronicle| && LeafBefore(origin, chronicle, k).Some?
      ensures var f := LeafBefore(origin, chronicle, k).value;
              || (k == |chronicle| && leaf == Some(f))
              || (k < |chronicle| && chronicle[k].mover.Others?)
              || (exists i :: 0 <= i < |swept| && SameFile(f, swept[i].file))
    {
      NothingIsOverwritten(origin, leaf, chronicle, swept, k);
    }

    /** What one run says of itself is true. */
    ghost predicate Honest(r: Report)
    {
      && (r.outcome.Done? ==> r.outcome.value == expected && r.last.Some? && IsWanted(r.last.value.file))
      && (r.outcome.Done? ==> r.last.value.fate == if r.leftover then Relinked else Destroyed)
      && (steady && r.outcome.Done? ==> r.last.value.fate == Destroyed)
      && (r.engaged ==> r.leafSteps == 0)
    }

    /** Any number of runs under one token, each interfered with and cut off as its script says. */
    method Runs(scripts: seq<seq<Tick>>) returns (reports: seq<Report>)
      requires Valid()
      modifies this
      ensures Valid() && |reports| == |scripts| && forall k :: 0 <= k < |reports| ==> Honest(reports[k])
      ensures quiet && scripts != [] && scripts[|scripts| - 1] == [] ==> Gone()
      ensures Told(origin, leaf, chronicle, swept) && OwnChanges(chronicle) == leafSteps
    {
      hide Accounted, Marked, Chronicled, Straight, Sure, IsWanted;
      reports := [];
      for k := 0 to |scripts|
        invariant Valid() && |reports| == k && forall j :: 0 <= j < k ==> Honest(reports[j])
        invariant quiet && k > 0 && scripts[k - 1] == [] ==> Gone()
      {
        var before, engaged, leftover := leafSteps, Engaged(), Leftover();
        Schedule(scripts[k]);
        var o := SecureUnlink();
        var last := if swept == [] then None else Some(Last());
        reports := reports + [Report(o, engaged, leftover, last, leafSteps - before)];
      }
      StoryIsTold();
    }

    /** What is to happen during the next run. */
    method Schedule(ticks: seq<Tick>)
      requires Valid()
      modifies this`script
      ensures Valid() && script == ticks
    {
      script := ticks;
    }
  }

  /** One run: how it ended, what it found, the last file swept by then, and how often it changed the leaf name. */
  datatype Report = Report(
    outcome: Deleting<FileIdentity>, engaged: bool, leftover: bool, last: Option<Sweep>, leafSteps: int)

  /**
   Success with the file still there: a first run whose restore fails halfway, and a second one in which everything
   works. Only failing calls lead there.
   */
  method RestoredFileReportedDeleted(file: File, now: nat)
    returns (d: SecureDelete, first: Deleting<FileIdentity>, second: Deleting<FileIdentity>)
    requires file.regular
    ensures first == Blocked(RecoveryRequired) && second == Done(file.identity)
    ensures d.leaf.Some? && d.IsWanted(d.leaf.value) && d.expected == file.identity
  {
    hide SecureDelete.Valid, SecureDelete.IsWanted;
    d := new SecureDelete(file.identity, None, false, false, Some(file), now);
    d.Schedule(HalfRestored);
    first := d.SecureUnlink();
    d.Schedule([]);
    second := d.SecureUnlink();
  }
}
