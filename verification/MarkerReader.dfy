/** The cached reader of the marker registry, against a registry that others replace while it is read. */
module MarkerReader {
  import opened Outcomes
  import opened DeletionAuthority

  type Document = map<Path, Marker>

  /** Versions of the registry file are numbered as they appear; none ever comes back. */
  type Version = nat

  /** What one stat of the registry path says. */
  datatype Signature = MissingFile | PresentFile(version: Version) | StatError(code: nat)

  /** Before each system call the registry may have been replaced or removed; the call itself may fail. */
  datatype Moment = Moment(replaced: bool, removed: bool, statError: Option<nat>, readError: bool)

  datatype Loading = Loaded(version: Version, document: Document) | Absent | Unreadable

  datatype CheckStatus = Matched | Stale | Unmarked | UnavailableNow

  /** What a document says about a candidate generation. */
  function Answer(document: Document, path: Path, candidate: Option<FileIdentity>): CheckStatus {
    if path !in document || candidate.None? then Unmarked
    else if document[path].identity == candidate.value then Matched
    else Stale
  }

  /** Matched for exactly the marked generation, stale for exactly the others of a marked path. */
  lemma AnswerSays(document: Document, path: Path, candidate: Option<FileIdentity>)
    ensures var status := Answer(document, path, candidate);
            && (status == Matched <==> path in document && candidate == Some(document[path].identity))
            && (status == Stale <==>
                path in document && candidate.Some? && candidate != Some(document[path].identity))
            && (status == Unmarked <==> path !in document || candidate.None?)
  {
  }

  predicate Calm(m: Moment) {
    !m.replaced && !m.removed && m.statError.None? && !m.readError
  }

  /** Nobody touches the registry at these moments. */
  predicate LeftAlone(ms: seq<Moment>) {
    forall k :: 0 <= k < |ms| ==> !ms[k].replaced && !ms[k].removed
  }

  predicate NeverRemoved(ms: seq<Moment>) {
    forall k :: 0 <= k < |ms| ==> !ms[k].removed
  }

  /** The registry is replaced or removed before the call at this position of the script. */
  predicate Touched(ms: seq<Moment>, k: nat) { k < |ms| && (ms[k].replaced || ms[k].removed) }

  /** The call at this position of the script fails. */
  predicate Faulty(ms: seq<Moment>, k: nat) { k < |ms| && (ms[k].statError.Some? || ms[k].readError) }

  predicate StatFails(ms: seq<Moment>, k: nat) { k < |ms| && ms[k].statError.Some? }

  predicate TouchedWithin(ms: seq<Moment>, from: nat, to: nat) {
    exists k :: from <= k < to && Touched(ms, k)
  }

  predicate FaultyWithin(ms: seq<Moment>, from: nat, to: nat) {
    exists k :: from <= k < to && Faulty(ms, k)
  }

  /** Nothing happens to the registry, and nothing fails, over these calls. */
  predicate Quiet(ms: seq<Moment>, n: nat) {
    forall k :: 0 <= k < n && k < |ms| ==> Calm(ms[k])
  }

  /** What is left of the script after so many calls. */
  function Drop(ms: seq<Moment>, n: nat): seq<Moment> {
    if n <= |ms| then ms[n..] else []
  }

  lemma DropTwice(ms: seq<Moment>, a: nat, b: nat)
    ensures Drop(Drop(ms, a), b) == Drop(ms, a + b)
    ensures Touched(Drop(ms, a), b) <==> Touched(ms, a + b)
    ensures Faulty(Drop(ms, a), b) <==> Faulty(ms, a + b)
  {
  }

  lemma Shifted(ms: seq<Moment>, n: nat, from: nat, to: nat)
    ensures TouchedWithin(Drop(ms, n), from, to) <==> TouchedWithin(ms, n + from, n + to)
    ensures FaultyWithin(Drop(ms, n), from, to) <==> FaultyWithin(ms, n + from, n + to)
  {
    if k :| from <= k < to && Touched(Drop(ms, n), k) { DropTwice(ms, n, k); }
    if k :| n + from <= k < n + to && Touched(ms, k) { DropTwice(ms, n, k - n); }
    if k :| from <= k < to && Faulty(Drop(ms, n), k) { DropTwice(ms, n, k); }
    if k :| n + from <= k < n + to && Faulty(ms, k) { DropTwice(ms, n, k - n); }
  }

  /** The first three calls of a script, and the script after each of them. */
  lemma Positions(ms: seq<Moment>)
    ensures Drop(Drop(ms, 1), 1) == Drop(ms, 2) && Drop(Drop(ms, 2), 1) == Drop(ms, 3)
    ensures Touched(Drop(ms, 1), 0) <==> Touched(ms, 1)
    ensures Touched(Drop(ms, 2), 0) <==> Touched(ms, 2)
    ensures TouchedWithin(ms, 0, 3) <==> Touched(ms, 0) || Touched(ms, 1) || Touched(ms, 2)
    ensures FaultyWithin(ms, 0, 3) <==> Faulty(ms, 0) || Faulty(ms, 1) || Faulty(ms, 2)
  {
    DropTwice(ms, 1, 1);
    DropTwice(ms, 2, 1);
    DropTwice(ms, 1, 0);
    DropTwice(ms, 2, 0);
  }

  lemma FourthCall(ms: seq<Moment>)
    ensures Drop(Drop(ms, 3), 1) == Drop(ms, 4)
    ensures Touched(Drop(ms, 3), 0) <==> Touched(ms, 3)
    ensures Faulty(Drop(ms, 3), 0) <==> Faulty(ms, 3)
    ensures TouchedWithin(ms, 0, 4) <==> TouchedWithin(ms, 0, 3) || Touched(ms, 3)
  {
    DropTwice(ms, 3, 1);
    DropTwice(ms, 3, 0);
  }

  /** The calls of the two attempts of a refresh, counted from its first stat. */
  lemma CallPositions(ms: seq<Moment>)
    ensures Drop(Drop(ms, 1), 4) == Drop(ms, 5) && Drop(Drop(ms, 5), 4) == Drop(ms, 9)
    ensures Touched(Drop(ms, 1), 1) <==> Touched(ms, 2)
    ensures Touched(Drop(ms, 5), 1) <==> Touched(ms, 6)
    ensures TouchedWithin(Drop(ms, 1), 0, 4) <==> TouchedWithin(ms, 1, 5)
    ensures TouchedWithin(Drop(ms, 5), 0, 4) <==> TouchedWithin(ms, 5, 9)
    ensures Faulty(ms, 0) || Faulty(Drop(ms, 1), 3) || Faulty(Drop(ms, 5), 3) ==> FaultyWithin(ms, 0, 9)
    ensures FaultyWithin(Drop(ms, 1), 0, 3) || FaultyWithin(Drop(ms, 5), 0, 3) ==> FaultyWithin(ms, 0, 9)
  {
    DropTwice(ms, 1, 4);
    DropTwice(ms, 5, 4);
    DropTwice(ms, 1, 1);
    DropTwice(ms, 5, 1);
    DropTwice(ms, 1, 3);
    DropTwice(ms, 5, 3);
    Shifted(ms, 1, 0, 4);
    Shifted(ms, 5, 0, 4);
    Shifted(ms, 1, 0, 3);
    Shifted(ms, 5, 0, 3);
  }

  lemma QuietFacts(ms: seq<Moment>)
    ensures Quiet(ms, 5) ==> Quiet(Drop(ms, 1), 4) && !Touched(ms, 0) && !Faulty(ms, 0)
  {
  }

  /**
   What can keep a refresh from an answer: a call that fails, a registry that is replaced just while it is opened,
   or one that changes during both attempts.
   */
  predicate Disturbed(ms: seq<Moment>) {
    || FaultyWithin(ms, 0, 9)
    || Touched(ms, 2) || Touched(ms, 6)
    || (TouchedWithin(ms, 1, 5) && TouchedWithin(ms, 5, 9))
  }

  function SignatureOf(disk: Option<Version>): Signature {
    if disk.Some? then PresentFile(disk.value) else MissingFile
  }

  /** A registry at one moment of a call, with the moments seen so far and those to come. */
  datatype View = View(disk: Option<Version>, nextVersion: Version, moments: set<Option<Version>>,
    script: seq<Moment>) {
    predicate Valid() {
      disk in moments && (disk.Some? ==> disk.value < nextVersion)
    }
  }

  /**
   The registry only moves on: a version that was replaced or removed does not come back, only new versions are seen
   on the way, nothing is missing that nobody removes, and nothing changes that nobody touches.
   */
  ghost predicate Progress(a: View, b: View) {
    && b.Valid()
    && a.nextVersion <= b.nextVersion
    && (a.nextVersion == b.nextVersion ==> a.disk == b.disk)
    && (a.nextVersion < b.nextVersion && b.disk.Some? ==> a.nextVersion <= b.disk.value)
    && a.moments <= b.moments
    && (forall v :: v in b.moments ==> v in a.moments || v.None? || v.value >= a.nextVersion)
    && (NeverRemoved(a.script) ==> NeverRemoved(b.script) && (None in b.moments ==> None in a.moments))
    && (LeftAlone(a.script) ==> LeftAlone(b.script) && a.disk == b.disk && a.moments == b.moments)
  }

  lemma ProgressTransitive(a: View, b: View, c: View)
    requires Progress(a, b) && Progress(b, c)
    ensures Progress(a, c)
  {
  }

  /** What a whole call sees. */
  lemma CallProgress(a: View, b: View)
    requires Progress(a, b) && a.Valid() && a.moments == {a.disk}
    ensures LeftAlone(a.script) ==> b.disk == a.disk && b.moments == {b.disk}
    ensures forall v :: v in b.moments ==> v == a.disk || v.None? || v.value >= a.nextVersion
    ensures a.disk.Some? && NeverRemoved(a.script) ==> None !in b.moments
  {
  }

  lemma ProgressFacts(a: View, b: View)
    requires Progress(a, b)
    ensures b.Valid() && a.moments <= b.moments && a.nextVersion <= b.nextVersion
    ensures a.Valid() && b.disk == a.disk && a.disk.Some? ==> a.nextVersion == b.nextVersion
  {
  }

  class FailureMarkerReader {
    /** What each version of the registry holds, if it holds a valid document. */
    const contents: Version -> Option<Document>
    /** The registry file as it is now. */
    var disk: Option<Version>
    var nextVersion: Version
    var script: seq<Moment>
    /** The versions present at the moments of the current call. */
    var moments: set<Option<Version>>

    var cacheSignature: Option<Signature>
    var markers: Document
    var cacheError: bool
    var reported: set<(CheckStatus, Path, Option<FileIdentity>)>

    /** What the registry says at a version, or when there is none. */
    function At(version: Option<Version>): Option<Document> {
      if version.None? then Some(map[]) else contents(version.value)
    }

    /** The cache holds what the version it names holds. */
    ghost predicate Valid()
      reads this
    {
      && Now().Valid()
      && (cacheSignature.Some? && cacheSignature.value.PresentFile? ==>
            cacheSignature.value.version < nextVersion
              && (!cacheError ==> contents(cacheSignature.value.version) == Some(markers)))
      && (cacheSignature == Some(MissingFile) || cacheSignature.None? ==> !cacheError && markers == map[])
    }

    constructor (contents: Version -> Option<Document>, disk: Option<Version>)
      ensures Valid() && this.contents == contents && this.disk == disk && cacheSignature.None?
    {
      this.contents, this.disk := contents, disk;
      nextVersion := if disk.None? then 0 else disk.value + 1;
      script, moments, cacheSignature, markers, cacheError, reported := [], {disk}, None, map[], false, {};
    }

    /** The registry as it is now, and what is yet to happen to it. */
    function Now(): View
      reads this
    {
      View(disk, nextVersion, moments, script)
    }

    /** The registry at the next call. */
    function DiskSoon(): Option<Version>
      reads this`script, this`disk, this`nextVersion
    {
      if script == [] then disk
      else if script[0].removed then None
      else if script[0].replaced then Some(nextVersion)
      else disk
    }

    /** How the registry will look to the next stat. */
    function FirstLook(): Signature
      reads this`script, this`disk, this`nextVersion
    {
      if script != [] && script[0].statError.Some? then StatError(script[0].statError.value)
        else SignatureOf(DiskSoon())
    }

    /** The registry held an invalid document at some moment of this call. */
    ghost predicate SawInvalid()
      reads this`moments
    {
      exists v :: v in moments && At(v).None?
    }

    lemma SawInvalidAt(v: Option<Version>)
      requires v in moments && At(v).None?
      ensures SawInvalid()
    {
    }

    /** Let the others act, then see how the next call fares. */
    method Next() returns (m: Moment)
      requires Now().Valid()
      modifies this`script, this`disk, this`nextVersion, this`moments
      ensures Progress(old(Now()), Now())
      ensures if old(script) == [] then Calm(m) else m == old(script)[0]
      ensures script == Drop(old(script), 1)
      ensures disk == old(DiskSoon()) && moments == old(moments) + {disk}
      ensures !Touched(old(script), 0) ==> nextVersion == old(nextVersion)
    {
      m := Moment(false, false, None, false);
      if script == [] { return; }
      m, script := script[0], script[1..];
      if m.removed {
        disk, nextVersion := None, nextVersion + 1;
      } else if m.replaced {
        disk, nextVersion := Some(nextVersion), nextVersion + 1;
      }
      moments := moments + {disk};
    }

    method CurrentSignature() returns (s: Signature)
      requires Now().Valid()
      modifies this`script, this`disk, this`nextVersion, this`moments
      ensures Progress(old(Now()), Now())
      ensures s == old(FirstLook()) && disk == old(DiskSoon()) && script == Drop(old(script), 1)
    {
      var m := Next();
      s := if m.statError.Some? then StatError(m.statError.value)
           else if disk.Some? then PresentFile(disk.value) else MissingFile;
    }

    /** load_marker_document: stat, open the very same version, read it, and validate what it holds. */
    method Load() returns (l: Loading)
      requires Now().Valid()
      modifies this`script, this`disk, this`nextVersion, this`moments
      ensures Progress(old(Now()), Now())
      ensures l.Loaded? ==>
                Some(l.version) in moments && contents(l.version) == Some(l.document) && l.version < nextVersion
      ensures l.Loaded? && nextVersion == old(nextVersion) ==> disk == Some(l.version)
      ensures l.Absent? ==> None in moments
      ensures l.Loaded? ==> script == Drop(old(script), 3)
      ensures l.Loaded? && !TouchedWithin(old(script), 0, 3) ==> disk == old(disk)
      ensures l.Unreadable? ==> FaultyWithin(old(script), 0, 3) || Touched(old(script), 1) || SawInvalid()
      ensures Quiet(old(script), 3) ==>
                && disk == old(disk)
                && l == if disk.None? then Absent
                        else if contents(disk.value).None? then Unreadable
                        else Loaded(disk.value, contents(disk.value).value)
      ensures l.Loaded? ==> !StatFails(old(script), 0) && !StatFails(old(script), 1) && !Touched(old(script), 1)
      ensures l.Loaded? ==> |old(script)| > 2 ==> !old(script)[2].readError
      ensures l.Absent? ==> !StatFails(old(script), 0)
    {
      hide Progress, TouchedWithin, FaultyWithin;
      ghost var start, ms := Now(), script;
      Positions(ms);
      var stat := Next();
      ghost var seen := Now();
      ProgressFacts(start, seen);
      if stat.statError.Some? { return Unreadable; }
      if disk.None? { return Absent; }
      var version := disk.value;
      var again := Next();
      ghost var there := Now();
      ProgressFacts(seen, there);
      ProgressTransitive(start, seen, there);
      if again.statError.Some? || disk != Some(version) { return Unreadable; }
      var read := Next();
      ProgressFacts(there, Now());
      ProgressTransitive(start, there, Now());
      if read.readError { return Unreadable; }
      if contents(version).None? {
        SawInvalidAt(Some(version));
        return Unreadable;
      }
      l := Loaded(version, contents(version).value);
    }

    /** The cached markers are what the registry said at some moment of this call. */
    ghost predicate Reflected()
      reads this
    {
      exists v :: v in moments && At(v) == Some(markers)
    }

    lemma ReflectedAt(v: Option<Version>)
      requires v in moments && At(v) == Some(markers)
      ensures Reflected()
    {
    }

    /** One attempt to load the registry between two equal looks at it; says how it looks otherwise. */
    method Attempt(signature: Signature) returns (settled: bool, after: Signature)
      requires Now().Valid() && markers == map[] && !cacheError
      requires signature.PresentFile? ==> disk == Some(signature.version)
      requires !signature.MissingFile?
      modifies this`script, this`disk, this`nextVersion, this`moments, this`markers, this`cacheError,
        this`cacheSignature
      ensures Progress(old(Now()), Now())
      ensures settled ==> Valid() && cacheSignature.Some? && (cacheError || Reflected())
      ensures settled && cacheError ==>
                FaultyWithin(old(script), 0, 3) || Touched(old(script), 1) || SawInvalid()
      ensures !settled ==>
                markers == map[] && !cacheError && !after.MissingFile?
                && (after.PresentFile? ==> disk == Some(after.version))
      ensures !settled ==>
                && script == Drop(old(script), 4)
                && (after.StatError? ==> Faulty(old(script), 3))
                && (signature.StatError? || Faulty(old(script), 3) || TouchedWithin(old(script), 0, 4))
      ensures Quiet(old(script), 4) && signature.PresentFile? ==>
                && settled && disk == old(disk) && cacheSignature == Some(signature)
                && cacheError == contents(signature.version).None?
      ensures old(LoadsThenFails(signature)) ==>
                settled && cacheSignature == Some(signature) && !cacheError && Some(markers) == At(old(disk))
                && disk == old(disk)
    {
      hide Progress, TouchedWithin, FaultyWithin, SawInvalid;
      ghost var start, ms := Now(), script;
      after := signature;
      var l := Load();
      ghost var read := Now();
      ProgressFacts(start, read);
      if l.Absent? {
        cacheSignature := Some(MissingFile);
        ReflectedAt(None);
        return true, after;
      }
      if l.Unreadable? {
        cacheSignature, cacheError := Some(signature), true;
        return true, after;
      }
      FourthCall(ms);
      after := CurrentSignature();
      ProgressFacts(read, Now());
      ProgressTransitive(start, read, Now());
      ProgressFacts(start, Now());
      if after == signature {
        markers, cacheSignature := l.document, Some(signature);
        ReflectedAt(Some(l.version));
        return true, after;
      }
      settled := after.MissingFile?;
      if settled {
        cacheSignature := Some(after);
        ReflectedAt(None);
      }
    }

    /** Bring the cache up to date, unless the registry looks as it did. */
    method Refresh()
      requires Valid()
      modifies this
      ensures Valid() && Progress(old(Now()), Now()) && cacheSignature.Some?
      ensures !cacheError && !old(FailsAsCached()) ==> Reflected()
      ensures old(cacheSignature) == Some(old(FirstLook())) ==>
                && markers == old(markers) && cacheError == old(cacheError) && cacheSignature == old(cacheSignature)
                && reported == old(reported)
      ensures old(cacheSignature) != Some(old(FirstLook())) ==>
                && reported == {}
                && (cacheError ==> Disturbed(old(script)) || SawInvalid())
                && (Quiet(old(script), 5) ==>
                    cacheSignature == Some(SignatureOf(disk)) && cacheError == At(disk).None?)
      ensures Quiet(old(script), 5) ==> disk == old(disk)
      ensures Flaps(old(script), old(disk)) && old(cacheSignature).None? ==>
                cacheSignature == Some(StatError(old(script)[0].statError.value)) && !cacheError
                && Some(markers) == At(old(disk)) && disk == old(disk)
    {
      hide Progress, TouchedWithin, FaultyWithin, SawInvalid, Quiet, LoadsThenFails, Flaps;
      ghost var start, ms := Now(), script;
      FlapsFacts(ms, disk);
      QuietFacts(ms);
      var signature := CurrentSignature();
      FlapsFacts(ms, old(disk));
      ProgressFacts(start, Now());
      if cacheSignature == Some(signature) {
        if !cacheError && !signature.StatError? { ReflectedAt(disk); }
        return;
      }
      markers, cacheError, reported := map[], false, {};
      if signature.MissingFile? {
        cacheSignature := Some(signature);
        ReflectedAt(None);
        return;
      }
      CallPositions(ms);
      var attempt := 0;
      while attempt < 2
        invariant 0 <= attempt <= 2 && Progress(start, Now()) && Now().Valid() && start.nextVersion <= nextVersion
        invariant markers == map[] && !cacheError && !signature.MissingFile? && reported == {}
        invariant signature.PresentFile? ==> disk == Some(signature.version)
        invariant script == Drop(ms, 1 + 4 * attempt)
        invariant signature.StatError? ==> FaultyWithin(ms, 0, 9)
        invariant attempt >= 1 ==> TouchedWithin(ms, 1, 5) || FaultyWithin(ms, 0, 9)
        invariant attempt >= 2 ==> TouchedWithin(ms, 5, 9) || FaultyWithin(ms, 0, 9)
        invariant Quiet(ms, 5) ==> attempt == 0 && signature.PresentFile? && disk == old(disk)
        invariant Flaps(ms, old(disk)) ==>
                    attempt == 0 && LoadsThenFails(signature) && signature == StatError(ms[0].statError.value)
                    && disk == old(disk)
      {
        ghost var looked := Now();
        var settled, after := Attempt(signature);
        ProgressTransitive(start, looked, Now());
        ProgressFacts(looked, Now());
        if settled { return; }
        signature := after;
        attempt := attempt + 1;
      }
      cacheSignature, cacheError := Some(signature), true;
    }

    /** The first stat of a call fails just as the one on which the cache rests. */
    predicate FailsAsCached()
      reads this`script, this`cacheSignature
    {
      script != [] && script[0].statError.Some? && cacheSignature == Some(StatError(script[0].statError.value))
    }

    /** The load will work, and the stat after it will fail as this signature says. */
    predicate LoadsThenFails(signature: Signature)
      reads this`script, this`disk
    {
      && |script| == 4
      && (forall k :: 0 <= k < 3 ==> Calm(script[k]))
      && signature.StatError? && script[3].statError == Some(signature.code) && !script[3].replaced
      && !script[3].removed
      && disk.Some? && contents(disk.value).Some?
    }

    /** The stat of the registry fails, its load in between works, and the stat fails again in the same way. */
    predicate Flaps(ms: seq<Moment>, version: Option<Version>)
    {
      && |ms| == 5
      && ms[0].statError.Some? && ms[4].statError == ms[0].statError
      && (forall k :: 0 <= k < 5 ==> !ms[k].replaced && !ms[k].removed)
      && (forall k :: 1 <= k < 4 ==> Calm(ms[k]))
      && version.Some? && contents(version.value).Some?
    }

    lemma FlapsFacts(ms: seq<Moment>, version: Option<Version>)
      ensures Flaps(ms, version) ==> ms != [] && ms[0].statError.Some? && !Touched(ms, 0) && !Quiet(ms, 5)
      ensures Flaps(ms, version) && script == Drop(ms, 1) && disk == version ==>
                LoadsThenFails(StatError(ms[0].statError.value))
    {
      if Flaps(ms, version) { assert !Calm(ms[0]); }
    }

    /** Say once per reason what was decided. */
    method Report(status: CheckStatus, path: Path, candidate: Option<FileIdentity>) returns (isNew: bool)
      modifies this`reported
      ensures isNew <==> (status, path, candidate) !in old(reported)
      ensures reported == old(reported) + {(status, path, candidate)}
    {
      isNew := (status, path, candidate) !in reported;
      reported := reported + {(status, path, candidate)};
    }

    /** Between two calls somebody replaces the registry. */
    method Replace()
      requires Valid()
      modifies this`disk, this`nextVersion, this`moments
      ensures Valid() && disk == Some(old(nextVersion)) && nextVersion == old(nextVersion) + 1
    {
      disk, nextVersion := Some(nextVersion), nextVersion + 1;
      moments := moments + {disk};
    }

    /** What is to happen during the next call. */
    method Schedule(ms: seq<Moment>)
      requires Valid()
      modifies this`script
      ensures Valid() && script == ms
    {
      script := ms;
    }

    lemma VersionsNumbered()
      requires Valid() && disk.Some?
      ensures nextVersion > 0
    {
    }

    /** Begin a call: the registry's moments are counted from now. */
    method Begin()
      requires Valid()
      modifies this`moments
      ensures Valid() && moments == {disk}
    {
      moments := {disk};
    }

    /**
     Decide on a candidate generation. The answer is what the registry said at some moment of this call, or that
     it cannot be known now, unless the first stat fails exactly as the one on which the cache rests: then it is
     what the cache holds.
     */
    method Check(path: Option<Path>, candidate: Option<FileIdentity>) returns (status: CheckStatus, report: bool)
      requires Valid()
      modifies this
      ensures Valid()
      ensures path.None? ==> status == Unmarked
      ensures path.Some? && LeftAlone(old(script)) ==> disk == old(disk) && moments == {disk}
      ensures path.Some? ==> forall v :: v in moments ==> v == old(disk) || v.None? || v.value >= old(nextVersion)
      ensures path.Some? && old(disk).Some? && NeverRemoved(old(script)) ==> None !in moments
      ensures path.Some? && status != UnavailableNow && !old(FailsAsCached()) ==>
                exists v :: v in moments && At(v).Some? && status == Answer(At(v).value, path.value, candidate)
      ensures path.Some? && old(FailsAsCached()) ==>
                status == if old(cacheError) then UnavailableNow else Answer(old(markers), path.value, candidate)
      ensures path.Some? && status == UnavailableNow ==>
                || (old(cacheError) && old(cacheSignature) == Some(old(FirstLook())))
                || Disturbed(old(script)) || SawInvalid()
      ensures path.Some? && Quiet(old(script), 5) ==>
                disk == old(disk) &&
                status == if At(disk).None? || (old(cacheError) && old(cacheSignature) == Some(SignatureOf(disk)))
                          then UnavailableNow else Answer(At(disk).value, path.value, candidate)
      ensures path.Some? ==>
                var key := (status, path.value, if status == UnavailableNow then None else candidate);
                report <==> status != Unmarked
                            && (old(cacheSignature) == Some(old(FirstLook())) ==> key !in old(reported))
      ensures path.Some? && old(Flaps(script, disk)) && old(cacheSignature).None? ==>
                FlapCached(old(script), old(disk)) && disk == old(disk)
    {
      hide Progress, Flaps, Disturbed, SawInvalid, Valid, FirstLook, Quiet, FailsAsCached, Answer, At;
      if path.None? { return Unmarked, false; }
      BeginFacts();
      Begin();
      ghost var start := Now();
      Refresh();
      CallProgress(start, Now());
      CachedFacts();
      status, report := Decide(path.value, candidate);
    }

    lemma BeginFacts()
      requires Valid()
      ensures Quiet(script, 5) ==> FirstLook() == SignatureOf(disk) && !FailsAsCached()
      ensures FailsAsCached() ==> cacheSignature == Some(FirstLook())
      ensures Now().Valid()
    {
      QuietFacts(script);
    }

    /** What is cached for the version that stands there is what that version holds. */
    lemma CachedFacts()
      requires Valid()
      ensures cacheSignature == Some(SignatureOf(disk)) ==> !cacheError ==> At(disk) == Some(markers)
    {
    }

    /** The decision on what is cached. */
    method Decide(path: Path, candidate: Option<FileIdentity>) returns (status: CheckStatus, report: bool)
      requires Valid()
      modifies this`reported
      ensures Valid()
      ensures status == if cacheError then UnavailableNow else Answer(markers, path, candidate)
      ensures status == UnavailableNow <==> cacheError
      ensures var key := (status, path, if status == UnavailableNow then None else candidate);
              (report <==> status != Unmarked && key !in old(reported))
              && reported == old(reported) + if status != Unmarked then {key} else {}
    {
      if cacheError {
        report := Report(UnavailableNow, path, None);
        return UnavailableNow, report;
      }
      status := Answer(markers, path, candidate);
      report := false;
      if status != Unmarked { report := Report(status, path, candidate); }
    }

    /** The cache rests on a stat error but holds the document that was loaded meanwhile. */
    ghost predicate FlapCached(ms: seq<Moment>, version: Option<Version>)
      requires Flaps(ms, version)
      reads this
    {
      cacheSignature == Some(StatError(ms[0].statError.value)) && !cacheError && Some(markers) == At(version)
    }
  }

  /** If this version is valid, it says of the path that this generation is marked. */
  predicate KeepsMarker(document: Option<Document>, path: Path, id: FileIdentity) {
    document.Some? ==> path in document.value && document.value[path].identity == id
  }

  /**
   Once a marker is persisted, and as long as later versions keep it, every check finds the unchanged generation
   matched and any other one stale, or cannot know now. Other paths' markers may change meanwhile.
   */
  method CheckAfterPersist(r: FailureMarkerReader, path: Path, id: FileIdentity, candidate: FileIdentity)
    returns (status: CheckStatus)
    requires r.Valid() && r.disk.Some? && KeepsMarker(r.contents(r.disk.value), path, id)
    requires forall v :: v >= r.nextVersion ==> KeepsMarker(r.contents(v), path, id)
    requires NeverRemoved(r.script) && !r.FailsAsCached()
    modifies r
    ensures status == UnavailableNow || status == if candidate == id then Matched else Stale
    ensures status == UnavailableNow ==>
              || (old(r.cacheError) && old(r.cacheSignature) == Some(old(r.FirstLook())))
              || Disturbed(old(r.script)) || r.SawInvalid()
    ensures Quiet(old(r.script), 5) && r.contents(old(r.disk).value).Some?
            && !(old(r.cacheError) && old(r.cacheSignature) == Some(PresentFile(old(r.disk).value))) ==>
              status != UnavailableNow
  {
    var report;
    status, report := r.Check(Some(path), Some(candidate));
  }

  /** The same from the persist itself: the next version of the registry is the one this persist writes. */
  method PersistThenCheck(m: Monitor, r: FailureMarkerReader, path: Path, candidate: FileIdentity)
    returns (persisted: Monitoring<bool>, status: CheckStatus)
    requires m.Valid() && path in m.records && m.records[path].identity.Some?
    requires !RecoveryOwned(m.records[path].status) && m.records[path].intent.None?
    requires r.Valid() && NeverRemoved(r.script) && !r.FailsAsCached()
    requires r.contents(r.nextVersion) == Some(m.registry[path := m.MarkerFor(m.records[path], ProcessingError)])
    requires forall v :: v > r.nextVersion ==> KeepsMarker(r.contents(v), path, m.records[path].identity.value)
    modifies m, r
    ensures persisted == Done(true) ==>
              || status == UnavailableNow
              || status == if Some(candidate) == old(m.records[path].identity) then Matched else Stale
    ensures persisted == Done(true) && Quiet(old(r.script), 5) ==> status != UnavailableNow
    ensures forall other, c :: other != path ==> Answer(m.registry, other, c) == Answer(old(m.registry), other, c)
  {
    var id := m.records[path].identity.value;
    persisted := m.PersistFailureMarker(path);
    status := UnavailableNow;
    if persisted == Done(true) {
      r.Replace();
      status := CheckAfterPersist(r, path, id, candidate);
    }
  }

  /** A reader that has loaded a marked version between two equal stat errors, and cached it under that error. */
  method CachedUnderStatError(path: Path, id: FileIdentity, code: nat) returns (r: FailureMarkerReader)
    ensures fresh(r) && r.Valid() && r.nextVersion > 0 && forall v :: v > 0 ==> r.contents(v) == Some(map[])
    ensures r.cacheSignature == Some(StatError(code)) && !r.cacheError && Answer(r.markers, path, Some(id)) == Matched
  {
    hide FailureMarkerReader.Valid;
    var marked: Document := map[path := Marker(id, ProcessingError, 1)];
    r := new FailureMarkerReader((v: Version) => if v == 0 then Some(marked) else Some(map[]), Some(0));
    var failing, calm := Moment(false, false, Some(code), false), Moment(false, false, None, false);
    r.Schedule([failing, calm, calm, calm, failing]);
    var _, _ := r.Check(Some(path), Some(id));
    r.VersionsNumbered();
  }

  /**
   A stat error in place of a version: the reader caches the document it loads in between under that error, and
   when the stat fails in the same way again it answers from that document, although at no moment of the call
   the registry holds anything.
   */
  method OldMarkerServedUnderStatError(path: Path, id: FileIdentity)
    returns (r: FailureMarkerReader, status: CheckStatus)
    ensures status == Matched && forall v :: v in r.moments ==> r.At(v) == Some(map[])
  {
    hide FailureMarkerReader.Valid;
    r := CachedUnderStatError(path, id, 5);
    r.Replace();
    r.Schedule([Moment(false, false, Some(5), false)]);
    var report;
    status, report := r.Check(Some(path), Some(id));
  }
}
