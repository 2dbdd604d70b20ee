/** When the failure monitor may call the quarantine delete: evidence, markers and durable intents. */
module DeletionAuthority {
  import opened Outcomes
  import Quarantine

  type Path = string
  type FileIdentity = Quarantine.FileIdentity

  /** What one failure event reports. */
  datatype Evidence = Evidence(
    failureEvent: string,
    failureClass: string,
    ffprobe: string,
    pyav: string,
    detail: string,
    source: Option<FileIdentity>)

  datatype Event = Event(path: Path, evidence: Evidence)

  /** The generation that both parsers found invalid, if the event proves that. */
  function ProofOf(e: Evidence): Option<FileIdentity> {
    if e.failureEvent == "media_validation_failed" && e.failureClass == "invalid_media"
       && e.ffprobe == "invalid_format" && e.pyav == "invalid_format" && e.detail == "dual_parser_invalid"
    then e.source else None
  }

  /** Only one report proves a generation invalid: both parsers rejected it, and the detail says so. */
  lemma ProofIsDualRejection(e: Evidence, id: FileIdentity)
    ensures ProofOf(e) == Some(id) <==>
              e == Evidence("media_validation_failed", "invalid_media", "invalid_format", "invalid_format",
                            "dual_parser_invalid", Some(id))
  {
  }

  datatype FailureKind = ProcessingError | Sigsegv

  datatype Marker = Marker(identity: FileIdentity, kind: FailureKind, count: nat)

  const MaxMarkerEntries: nat := 10_000

  datatype Status =
    | Unset | PolicyBlocked | Waiting | MarkerBlocked | Missing | BlockedDelete | Failed
    | Deleting | DeletePaused | BlockedRecovery | FailedRecovery
    | Deleted | DeletedRecovered

  predicate RecoveryOwned(s: Status) {
    s == BlockedRecovery || s == DeletePaused || s == Deleting || s == FailedRecovery
  }

  predicate Terminal(s: Status) {
    s == Deleted || s == DeletedRecovered
  }

  /** A durable decision to delete one generation, resumable by its token. */
  datatype Intent = Intent(identity: FileIdentity, proof: FileIdentity, token: string)

  /** The evidence kept for one path; since is the event count at which this record began. */
  datatype Record = Record(
    count: nat,
    invalidCount: nat,
    identity: Option<FileIdentity>,
    evidence: Evidence,
    status: Status,
    markerReady: bool,
    intent: Option<Intent>,
    since: nat)

  /** The proof of a record whose own generation the last event proved invalid. */
  function DeleteProof(r: Record): Option<FileIdentity> {
    if r.identity == ProofOf(r.evidence) then ProofOf(r.evidence) else None
  }

  /** A record proves its own generation invalid when its last event was the dual rejection of just that one. */
  lemma RecordProof(r: Record, id: FileIdentity)
    ensures DeleteProof(r) == Some(id) <==>
              && r.identity == Some(id)
              && r.evidence == Evidence("media_validation_failed", "invalid_media", "invalid_format", "invalid_format",
                                        "dual_parser_invalid", Some(id))
  {
  }

  /** How a durable write ends: its effect may stand although it was reported as failed, or nobody lived to see it. */
  datatype Fault = Works | Fails(effect: bool) | Dies(effect: bool)

  datatype UnlinkResult = Unlinked | Unavailable | NeedsRecovery | Refused | Unexpected | Died

  datatype Look = Found(identity: FileIdentity) | NotFound | NotSafe | Error

  /** What the outside world does at each of the monitor's calls. */
  datatype Tick = Tick(fault: Fault, look: Look, unlink: UnlinkResult, token: string)

  /** One call of the quarantine delete, with all that was durable and all that had been received then. */
  datatype Call = Call(
    path: Path,
    identity: FileIdentity,
    token: string,
    received: seq<Event>,
    since: nat,
    record: Option<Record>,
    marker: Option<Marker>,
    result: UnlinkResult)

  /** How many of these calls were for this path. */
  function CallsTo(calls: seq<Call>, path: Path): nat {
    if calls == [] then 0
    else CallsTo(calls[..|calls| - 1], path) + if calls[|calls| - 1].path == path then 1 else 0
  }

  /** One more call, for this generation of this path and under this token, with this result. */
  predicate OneCall(before: seq<Call>, after: seq<Call>, path: Path, id: FileIdentity, token: string,
    result: UnlinkResult) {
    && |after| == |before| + 1 && before == after[..|before|]
    && after[|before|].path == path && after[|before|].identity == id && after[|before|].token == token
    && after[|before|].result == result
  }

  /** The file is gone: this call removed it, or found that it had gone. */
  predicate Conclusive(result: UnlinkResult) { result == Unlinked || result == Unavailable }

  /** A record that says deleted rests on a conclusive call made for this very record. */
  ghost predicate Closed(calls: seq<Call>, path: Path, r: Record) {
    r.status == Deleted || r.status == DeletedRecovered ==>
      exists k :: 0 <= k < |calls| && ClosedBy(calls[k], path, r)
  }

  predicate ClosedBy(c: Call, path: Path, r: Record) {
    && c.path == path && r.identity == Some(c.identity) && c.since == r.since
    && (c.result == Unlinked || c.result == Unavailable)
  }

  ghost predicate AllClosed(calls: seq<Call>, records: map<Path, Record>) {
    forall path :: path in records ==> Closed(calls, path, records[path])
  }

  lemma AllClosedLater(calls: seq<Call>, c: Call, records: map<Path, Record>)
    requires AllClosed(calls, records)
    ensures AllClosed(calls + [c], records)
  {
    forall path | path in records ensures Closed(calls + [c], path, records[path]) {
      var r := records[path];
      if r.status == Deleted || r.status == DeletedRecovered {
        var k :| 0 <= k < |calls| && ClosedBy(calls[k], path, r);
        assert (calls + [c])[k] == calls[k];
      }
    }
  }

  lemma CallsToGrows(before: seq<Call>, after: seq<Call>, path: Path)
    requires |after| == |before| + 1 && before == after[..|before|]
    ensures CallsTo(after, path) == CallsTo(before, path) + if after[|before|].path == path then 1 else 0
  {
  }

  /** How many of these events prove this generation of this path invalid. */
  function InvalidEvents(h: seq<Event>, path: Path, id: FileIdentity): nat {
    if h == [] then 0
    else
      var last := h[|h| - 1];
      InvalidEvents(h[..|h| - 1], path, id) + (if last.path == path && ProofOf(last.evidence) == Some(id) then 1 else 0)
  }

  lemma EventAdded(h: seq<Event>, since: nat, e: Event, path: Path, id: FileIdentity)
    requires since <= |h|
    ensures InvalidEvents((h + [e])[since..], path, id)
            == InvalidEvents(h[since..], path, id)
              + (if e.path == path && ProofOf(e.evidence) == Some(id) then 1 else 0)
  {
    assert (h + [e])[since..] == h[since..] + [e];
    assert (h[since..] + [e])[..|h[since..]|] == h[since..];
  }

  /** The counts of a record are covered by events received since it began. */
  ghost predicate Covered(h: seq<Event>, deleteMin: nat, path: Path, r: Record) {
    && r.since <= |h|
    && r.invalidCount <= r.count
    && (r.identity.None? ==> r.invalidCount == 0)
    && (r.identity.Some? ==> r.invalidCount <= InvalidEvents(h[r.since..], path, r.identity.value))
    && (r.intent.Some? ==>
          && r.identity == Some(r.intent.value.identity)
          && r.intent.value.proof == r.intent.value.identity
          && r.invalidCount >= deleteMin
          && (r.status == BlockedRecovery || r.status == DeletePaused || r.status == Deleting
              || r.status == FailedRecovery))
  }

  ghost predicate AllCovered(h: seq<Event>, deleteMin: nat, records: map<Path, Record>) {
    forall path :: path in records ==> Covered(h, deleteMin, path, records[path])
  }

  lemma CoveredLater(h: seq<Event>, e: Event, deleteMin: nat, path: Path, r: Record)
    requires Covered(h, deleteMin, path, r)
    ensures Covered(h + [e], deleteMin, path, r)
  {
    if r.identity.Some? { EventAdded(h, r.since, e, path, r.identity.value); }
  }

  lemma AllCoveredLater(h: seq<Event>, e: Event, deleteMin: nat, records: map<Path, Record>)
    requires AllCovered(h, deleteMin, records)
    ensures AllCovered(h + [e], deleteMin, records)
  {
    forall path | path in records ensures Covered(h + [e], deleteMin, path, records[path]) {
      CoveredLater(h, e, deleteMin, path, records[path]);
    }
  }

  /** A record may change its status, and drop its intent when it does. */
  lemma CoveredStatus(h: seq<Event>, deleteMin: nat, path: Path, r: Record, status: Status)
    requires Covered(h, deleteMin, path, r)
    ensures RecoveryOwned(status) ==> Covered(h, deleteMin, path, r.(status := status))
    ensures Covered(h, deleteMin, path, r.(status := status, intent := None))
  {
  }

  /** The records still to be recovered are in memory as they are on disk. */
  ghost predicate Resumable(records: map<Path, Record>, durable: map<Path, Record>, todo: set<Path>) {
    forall q :: q in todo ==>
      q in records && q in durable && records[q].intent == durable[q].intent && records[q].since == durable[q].since
  }

  /** The marker that lets a generation be deleted. */
  predicate Entitles(marker: Option<Marker>, id: FileIdentity, deleteMin: nat) {
    marker.Some? && marker.value.identity == id && marker.value.kind == ProcessingError
      && marker.value.count >= deleteMin
  }

  /** Enough proofs since the record began, the exact marker durable, the intent durable. */
  ghost predicate Authorised(deleteMin: nat, c: Call) {
    && c.since <= |c.received|
    && InvalidEvents(c.received[c.since..], c.path, c.identity) >= deleteMin
    && c.marker.Some? && c.marker.value.identity == c.identity && c.marker.value.kind == ProcessingError
    && c.marker.value.count >= deleteMin
    && c.record.Some?
    && c.record.value.since == c.since
    && c.record.value.intent == Some(Intent(c.identity, c.identity, c.token))
  }

  // ---------------------------------------------------------------- one event on one record

  /** The record of a path after an event that passed the generation check. */
  function Counted(previous: Option<Record>, e: Evidence, now: nat): Record {
    var starts := previous.None? || Terminal(previous.value.status)
      || (e.source.Some? && previous.value.identity != e.source);
    var base :=
      if starts then Record(1, 0, e.source, e, Unset, false, None, now)
      else
        var identity := if e.source.Some? then e.source else previous.value.identity;
        previous.value.(count := previous.value.count + 1, identity := identity);
    base.(evidence := e, invalidCount := base.invalidCount + (if ProofOf(e).Some? then 1 else 0))
  }

  lemma {:induction false} CountedIsCovered(
    h: seq<Event>, deleteMin: nat, path: Path, previous: Option<Record>, e: Evidence)
    requires previous.Some? ==> Covered(h, deleteMin, path, previous.value) && !RecoveryOwned(previous.value.status)
    ensures Covered(h + [Event(path, e)], deleteMin, path, Counted(previous, e, |h|))
    ensures Counted(previous, e, |h|).intent.None?
  {
    var r := Counted(previous, e, |h|);
    if r.identity.Some? {
      EventAdded(h, r.since, Event(path, e), path, r.identity.value);
      assert h[|h|..] == [];
    }
  }

  lemma CountedIsOpen(previous: Option<Record>, e: Evidence, now: nat)
    ensures !Terminal(Counted(previous, e, now).status) && Counted(previous, e, now).evidence == e
    ensures ProofOf(e).Some? ==> DeleteProof(Counted(previous, e, now)) == ProofOf(e)
    ensures DeleteProof(Counted(previous, e, now)).Some? ==> ProofOf(e) == DeleteProof(Counted(previous, e, now))
  {
  }

  /** What an event adds, counter by counter. */
  lemma {:induction false} CountedLaw(r: Record, e: Evidence, now: nat)
    ensures !Terminal(r.status) && (e.source.None? || r.identity == e.source) ==>
              Counted(Some(r), e, now)
              == r.(count := r.count + 1, invalidCount := r.invalidCount + (if ProofOf(e).Some? then 1 else 0),
                    evidence := e)
    ensures Terminal(r.status) || (e.source.Some? && r.identity != e.source) ==>
              Counted(Some(r), e, now)
              == Record(1, if ProofOf(e).Some? then 1 else 0, e.source, e, Unset, false, None, now)
    ensures Counted(None, e, now)
         == Record(1, if ProofOf(e).Some? then 1 else 0, e.source, e, Unset, false, None, now)
  {
  }

  /** What was counted for two records is the same, and for the same generation. */
  predicate SameCounts(a: Record, b: Record) {
    a.count == b.count && a.invalidCount == b.invalidCount && a.identity == b.identity && a.evidence == b.evidence
      && a.since == b.since
  }

  /** A call under the intent of a record, whose result made the record what it is now. */
  predicate CallUnder(c: Call, path: Path, r: Record, now: Record) {
    && r.intent.Some? && c.path == path && c.identity == r.intent.value.identity && c.token == r.intent.value.token
    && now == Resumed(r, c.result)
  }

  /** Since the first of these points exactly one call was made for the path, under the intent of its record. */
  ghost predicate ResumedOnce(path: Path, r: Record, before: seq<Call>, calls: seq<Call>, now: Record) {
    && CallsTo(calls, path) == CallsTo(before, path) + 1
    && exists k :: |before| <= k < |calls| && CallUnder(calls[k], path, r, now)
  }

  /** No call was made for the path, and its record keeps its intent. */
  ghost predicate NotResumed(path: Path, r: Record, before: seq<Call>, calls: seq<Call>, now: Record) {
    && CallsTo(calls, path) == CallsTo(before, path)
    && now == r.(status := now.status)
    && (now.status == r.status || now.status == BlockedRecovery || now.status == DeletePaused)
  }

  ghost predicate Handled(path: Path, r: Record, before: seq<Call>, calls: seq<Call>, now: Record) {
    ResumedOnce(path, r, before, calls, now) || NotResumed(path, r, before, calls, now)
  }

  ghost predicate AllHandled(paths: set<Path>, were: map<Path, Record>, before: seq<Call>, calls: seq<Call>,
    now: map<Path, Record>) {
    forall p :: p in paths ==> p in were && p in now && Handled(p, were[p], before, calls, now[p])
  }

  /** A path still to do is as it was; the others are dealt with, and those that are due were resumed. */
  ghost predicate PathUpTo(p: Path, todo: set<Path>, r: Record, first: seq<Call>, calls: seq<Call>,
    now: map<Path, Record>, due: set<Path>) {
    && p in now
    && (if p in todo then now[p] == r && CallsTo(calls, p) == CallsTo(first, p)
        else Handled(p, r, first, calls, now[p]) && (p in due ==> ResumedOnce(p, r, first, calls, now[p])))
  }

  ghost predicate UpTo(todo: set<Path>, origin: map<Path, Record>, first: seq<Call>, calls: seq<Call>,
    now: map<Path, Record>, due: set<Path>) {
    |first| <= |calls| && now.Keys == origin.Keys
    && forall p :: p in origin ==> PathUpTo(p, todo, origin[p], first, calls, now, due)
  }

  /** What a resumed deletion leaves of its record. */
  function Resumed(r: Record, result: UnlinkResult): Record {
    match result
    case Unlinked => r.(status := DeletedRecovered, intent := None)
    case Unavailable => r.(status := DeletedRecovered, intent := None)
    case NeedsRecovery => r.(status := Deleting)
    case Refused => r.(status := BlockedRecovery)
    case Unexpected => r.(status := BlockedRecovery)
    case Died => r
  }

  /** What a first deletion leaves of its record, which holds the intent. */
  function Concluded(r: Record, result: UnlinkResult): Record {
    match result
    case Unlinked => r.(status := Deleted, intent := None)
    case Unavailable => r.(status := DeletedRecovered, intent := None)
    case NeedsRecovery => r.(status := Deleting)
    case Refused => r.(status := BlockedDelete, intent := None)
    case Unexpected => r.(status := FailedRecovery)
    case Died => r
  }

  datatype Trouble = IoError

  type Monitoring<+T> = Outcome<T, Trouble>

  predicate HasRoom(registry: map<Path, Marker>) {
    |registry.Keys| < MaxMarkerEntries
  }

  lemma RoomForOne(registry: map<Path, Marker>, path: Path)
    ensures HasRoom(registry) ==> |registry.Keys - {path}| + 1 <= MaxMarkerEntries
  {
    var others := registry.Keys - {path};
    if path in registry.Keys { assert others < registry.Keys; } else { assert others == registry.Keys; }
  }

  // ---------------------------------------------------------------- the monitor

  class Monitor {
    const autoMark: bool
    const autoDelete: bool
    const markMin: nat
    const deleteMin: nat
    /** The records in memory, and whether the state they came from could be read. */
    var records: map<Path, Record>
    var safe: bool
    /** What is on disk: the state file and the marker registry. */
    var durable: map<Path, Record>
    var registry: map<Path, Marker>
    var script: seq<Tick>
    /** Everything received, and every call of the quarantine delete, over all processes. */
    var history: seq<Event>
    var calls: seq<Call>

    ghost predicate Valid()
      reads this
    {
      && AllCovered(history, deleteMin, records)
      && AllCovered(history, deleteMin, durable)
      && AllClosed(calls, records)
      && AllClosed(calls, durable)
      && forall c :: c in calls ==> Authorised(deleteMin, c)
    }

    constructor (autoMark: bool, autoDelete: bool, markMin: nat, deleteMin: nat)
      ensures Valid() && records == map[] && durable == map[] && registry == map[] && history == [] && calls == []
      ensures this.autoMark == autoMark && this.autoDelete == autoDelete && safe
      ensures this.markMin >= 1 && (markMin >= 1 ==> this.markMin == markMin)
      ensures this.deleteMin >= 1 && (deleteMin >= 1 ==> this.deleteMin == deleteMin)
    {
      this.autoMark, this.autoDelete := autoMark, autoDelete;
      this.markMin := if markMin < 1 then 1 else markMin;
      this.deleteMin := if deleteMin < 1 then 1 else deleteMin;
      records, safe, durable, registry, script, history, calls := map[], true, map[], map[], [], [], [];
    }

    method Next() returns (t: Tick)
      modifies this`script
      ensures old(script) != [] ==> t == old(script)[0] && script == old(script)[1..]
      ensures old(script) == [] ==> t == Tick(Works, NotFound, Unlinked, "") && script == []
    {
      if script == [] { return Tick(Works, NotFound, Unlinked, ""); }
      t, script := script[0], script[1..];
    }

    /** The next calls work, and the file they look at is this generation. */
    predicate Smooth(calls: nat, id: FileIdentity)
      reads this
    {
      calls <= |script| && forall k :: 0 <= k < calls ==> script[k].fault == Works && script[k].look == Found(id)
    }

    /** No call fails; the deletions end as they may. */
    predicate AllWork()
      reads this`script
    {
      forall k :: 0 <= k < |script| ==> script[k].fault == Works
    }

    /** Replace one record in memory. */
    method Keep(path: Path, r: Record)
      requires Valid() && Covered(history, deleteMin, path, r) && Closed(calls, path, r)
      modifies this`records
      ensures Valid() && records == old(records)[path := r]
    {
      records := records[path := r];
    }

    /** save_state: replace the state file. */
    method SaveState() returns (o: Monitoring<()>)
      requires Valid()
      modifies this`script, this`durable
      ensures Valid() && (durable == old(durable) || durable == records)
      ensures o.Done? ==> durable == records
      ensures old(script != [] && script[0].fault == Works) ==> o.Done?
      ensures old(AllWork()) ==> o.Done? && AllWork()
    {
      var t := Next();
      match t.fault {
        case Works => durable := records; o := Done(());
        case Fails(effect) => if effect { durable := records; } o := Blocked(IoError);
        case Dies(effect) => if effect { durable := records; } o := Crashed;
      }
    }

    /** The entry an exact-generation marker makes of a record. */
    function MarkerFor(r: Record, kind: FailureKind): Marker
      requires r.identity.Some?
    {
      Marker(r.identity.value, kind, r.count)
    }

    /** Replace one path's marker in the registry; every other path keeps its own. */
    method WriteMarker(path: Path, marker: Marker) returns (o: Monitoring<()>)
      modifies this`script, this`registry
      ensures registry == old(registry) || registry == old(registry)[path := marker]
      ensures o.Done? ==> registry == old(registry)[path := marker]
      ensures old(|script| > 0 && script[0].fault == Works && HasRoom(registry)) ==>
                o.Done? && script == old(script)[1..]
      ensures old(AllWork()) ==> AllWork() && !o.Crashed? && (old(HasRoom(registry)) ==> o.Done?)
      ensures old(|registry.Keys - {path}|) + 1 > 10_000 ==> o == Blocked(IoError) && registry == old(registry)
      ensures old(HasRoom(registry) && script != [] && script[0].fault.Dies?) ==> o.Crashed?
    {
      RoomForOne(registry, path);
      if |registry.Keys - {path}| + 1 > MaxMarkerEntries { return Blocked(IoError); }
      var updated := registry[path := marker];
      var t := Next();
      match t.fault {
        case Works => registry := updated; o := Done(());
        case Fails(effect) => if effect { registry := updated; } o := Blocked(IoError);
        case Dies(effect) => if effect { registry := updated; } o := Crashed;
      }
    }

    /** Read the registry and put the marker of a record in place of the path's own. */
    method StoreMarker(path: Path, r: Record) returns (o: Monitoring<()>)
      modifies this`script, this`registry
      ensures registry == old(registry)
                || (r.identity.Some? && registry == old(registry)[path := MarkerFor(r, ProcessingError)])
      ensures o.Done? ==> r.identity.Some? && registry == old(registry)[path := MarkerFor(r, ProcessingError)]
      ensures r.identity.Some? && old(HasRoom(registry) && Smooth(2, r.identity.value)) ==>
                o.Done? && script == old(script)[2..]
    {
      var loaded := Next();
      if loaded.fault != Works || r.identity.None? { return Blocked(IoError); }
      o := WriteMarker(path, MarkerFor(r, ProcessingError));
    }

    function Unmarked(r: Record, status: Status): Record { r.(markerReady := false, status := status) }

    /** Persist the marker of a record that failed often enough; says whether deletion may be considered. */
    method PersistFailureMarker(path: Path) returns (o: Monitoring<bool>)
      requires Valid() && path in records && !RecoveryOwned(records[path].status) && records[path].intent.None?
      modifies this`script, this`registry, this`records
      ensures Valid() && !o.Blocked?
      ensures path in records && records == old(records)[path := records[path]]
      ensures records[path]
                == old(records)[path].(status := records[path].status, markerReady := records[path].markerReady)
      ensures !RecoveryOwned(records[path].status)
      ensures records[path].status == old(records)[path].status || !Terminal(records[path].status)
      ensures registry == old(registry)
              || (records[path].identity.Some?
                 && registry == old(registry)[path := MarkerFor(records[path], ProcessingError)])
      ensures o == Done(true) ==>
                records[path].identity.Some? && path in registry
                && registry[path] == MarkerFor(records[path], ProcessingError)
      ensures old(autoMark && records[path].count >= markMin && records[path].identity.Some? && HasRoom(registry)
                  && Smooth(2, records[path].identity.value)) ==>
                o == Done(true) && records[path].markerReady && script == old(script)[2..]
      ensures !autoMark || old(records)[path].count < markMin ==>
                && o == Done(false) && registry == old(registry) && script == old(script)
                && records[path] == Unmarked(old(records)[path],
                     if autoMark && autoDelete && old(records)[path].count >= deleteMin then MarkerBlocked
                     else old(records)[path].status)
      ensures o == Done(true) ==> records[path] == old(records)[path].(markerReady := true)
      ensures autoMark && old(records)[path].count >= markMin && o == Done(false) ==>
                records[path] == Unmarked(old(records)[path],
                  if !autoDelete || old(records)[path].count < deleteMin then old(records)[path].status
                  else if old(records)[path].identity.None? then BlockedDelete else MarkerBlocked)
    {
      hide AllCovered, Authorised;
      var r := records[path];
      RecordInMemory(path);
      if !autoMark || r.count < markMin {
        var waiting := if autoMark && autoDelete && r.count >= deleteMin then MarkerBlocked else r.status;
        Keep(path, r.(markerReady := false, status := waiting));
        return Done(false);
      }
      label Storing:
      var written := StoreMarker(path, r);
      Continues@Storing();
      if written.Crashed? { return Crashed; }
      if written.Blocked? {
        var blocked := if r.identity.None? then BlockedDelete else MarkerBlocked;
        var status := if autoDelete && r.count >= deleteMin then blocked else r.status;
        Keep(path, r.(markerReady := false, status := status));
        return Done(false);
      }
      Keep(path, r.(markerReady := true));
      o := Done(true);
    }

    lemma RecordInMemory(path: Path)
      requires Valid() && path in records
      ensures Covered(history, deleteMin, path, records[path]) && Closed(calls, path, records[path])
    {
    }

    /** The registry, read now, holds the marker that entitles this generation to deletion. */
    method DurableMarkerMatches(path: Path, id: FileIdentity) returns (matches: bool)
      modifies this`script
      ensures matches ==> path in registry && Entitles(Some(registry[path]), id, deleteMin)
      ensures old(Smooth(1, id)) && path in registry && Entitles(Some(registry[path]), id, deleteMin) ==>
                matches && script == old(script)[1..]
      ensures old(AllWork()) ==>
                AllWork() && (matches <==> path in registry && Entitles(Some(registry[path]), id, deleteMin))
    {
      var t := Next();
      matches := t.fault == Works && path in registry && Entitles(Some(registry[path]), id, deleteMin);
    }

    /** Nothing but a failing call can keep this generation from being deleted now. */
    predicate Due(path: Path)
      reads this
    {
      && path in records
      && autoDelete && autoMark && safe
      && records[path].invalidCount >= deleteMin
      && DeleteProof(records[path]).Some?
      && records[path].markerReady
      && path in registry
      && Entitles(Some(registry[path]), DeleteProof(records[path]).value, deleteMin)
    }

    /** Policy, threshold, proof and marker, in this order. */
    method MarkerAllowsDelete(path: Path) returns (allowed: bool)
      requires Valid() && path in records && records[path].intent.None?
      modifies this`script, this`records
      ensures Valid() && path in records
      ensures records == old(records)[path := old(records)[path].(status := records[path].status)]
      ensures records[path].status
              == if allowed || !autoDelete then old(records)[path].status
                 else if !autoMark || !safe then PolicyBlocked
                 else if records[path].invalidCount < deleteMin then Waiting
                 else if DeleteProof(records[path]).None? then PolicyBlocked
                 else MarkerBlocked
      ensures allowed ==> autoDelete && autoMark && safe && records[path].markerReady
      ensures allowed ==>
                records[path].invalidCount >= deleteMin && DeleteProof(records[path]).Some? && records == old(records)
      ensures allowed ==>
                path in registry && Entitles(Some(registry[path]), DeleteProof(records[path]).value, deleteMin)
      ensures old(Due(path) && Smooth(1, DeleteProof(records[path]).value)) ==> allowed && script == old(script)[1..]
    {
      var r := records[path];
      if !autoDelete { return false; }
      if !autoMark || !safe {
        Keep(path, r.(status := PolicyBlocked));
        return false;
      }
      if r.invalidCount < deleteMin {
        Keep(path, r.(status := Waiting));
        return false;
      }
      if DeleteProof(r).None? {
        Keep(path, r.(status := PolicyBlocked));
        return false;
      }
      if r.markerReady {
        allowed := DurableMarkerMatches(path, DeleteProof(r).value);
        if allowed { return; }
      }
      Keep(path, r.(status := MarkerBlocked));
      allowed := false;
    }

    ghost predicate CallAuthorised(path: Path, id: FileIdentity, token: string)
      reads this
    {
      && path in durable
      && Covered(history, deleteMin, path, durable[path])
      && durable[path].intent == Some(Intent(id, id, token))
      && path in registry
      && Entitles(Some(registry[path]), id, deleteMin)
    }

    /** The call of the quarantine delete. */
    method Unlink(path: Path, id: FileIdentity, token: string) returns (result: UnlinkResult)
      requires Valid() && CallAuthorised(path, id, token)
      modifies this`script, this`calls
      ensures Valid() && OneCall(old(calls), calls, path, id, token, result)
      ensures calls[|old(calls)|].since == durable[path].since
      ensures result == if old(script) == [] then Unlinked else old(script)[0].unlink
      ensures old(AllWork()) ==> AllWork()
      ensures script == if old(script) == [] then [] else old(script)[1..]
    {
      var t := Next();
      result := t.unlink;
      var call :=
        Call(path, id, token, history, durable[path].since, Some(durable[path]), Some(registry[path]), result);
      assert Authorised(deleteMin, call);
      AllClosedLater(calls, call, records);
      AllClosedLater(calls, call, durable);
      hide AllCovered, AllClosed, Authorised;
      calls := calls + [call];
    }

    /** Record how a deletion ended; only an unfinished one keeps its intent. */
    method FinishDeleteOutcome(path: Path, status: Status) returns (o: Monitoring<()>)
      requires Valid() && path in records && Closed(calls, path, records[path].(status := status))
      modifies this`script, this`durable, this`records
      ensures Valid() && path in records
      ensures records == old(records)[path := old(records)[path].(status := status, intent := records[path].intent)]
      ensures records[path].intent
              == if status == BlockedRecovery || status == DeletePaused || status == Deleting
                || status == FailedRecovery
                 then old(records)[path].intent else None
      ensures o.Done? ==> durable == records
    {
      var r := records[path];
      Keep(path, r.(status := status, intent := if RecoveryOwned(status) then r.intent else None));
      o := SaveState();
    }

    /** Delete the proven generation: marker first, then a durable intent, and only then the call. */
    method TryDeletePath(path: Path) returns (o: Monitoring<()>)
      requires Valid() && path in records && !RecoveryOwned(records[path].status) && records[path].intent.None?
      modifies this`script, this`durable, this`records, this`calls
      ensures Valid() && path in records && records == old(records)[path := records[path]]
      ensures calls == old(calls) ==>
                records[path].status == old(records)[path].status || !Terminal(records[path].status)
      ensures calls != old(calls) ==> CallConcluded(path, old(records)[path], old(calls))
      ensures SameCounts(records[path], old(records)[path])
      ensures old(Due(path) && Smooth(3, DeleteProof(records[path]).value)) ==> calls != old(calls)
      ensures !autoDelete ==> o.Done? && records == old(records) && durable == old(durable) && calls == old(calls)
      ensures autoDelete && (old(records)[path].invalidCount < deleteMin || DeleteProof(old(records)[path]).None?) ==>
                && o.Done? && calls == old(calls) && durable == old(durable)
                && records[path] == old(records)[path].(
                     status := if old(records)[path].invalidCount < deleteMin then Waiting else PolicyBlocked)
      ensures o.Done? && records[path].intent.Some? ==> calls != old(calls)
    {
      hide AllCovered, AllClosed, Authorised, Covered, Entitles, ProofOf, DeleteProof, CallConcluded;
      if !autoDelete { return Done(()); }
      var r := records[path];
      RecordInMemory(path);
      CoveredStatus(history, deleteMin, path, r, Waiting);
      CoveredStatus(history, deleteMin, path, r, PolicyBlocked);
      if r.invalidCount < deleteMin {
        Keep(path, r.(status := Waiting));
        return Done(());
      }
      if DeleteProof(r).None? {
        Keep(path, r.(status := PolicyBlocked));
        return Done(());
      }
      var allowed := MarkerAllowsDelete(path);
      if !allowed { return Done(()); }
      o := LookThenDelete(path);
    }

    /** Look once more at the path; only the proven generation is deleted. */
    method LookThenDelete(path: Path) returns (o: Monitoring<()>)
      requires Valid() && path in records && records[path].intent.None?
      requires records[path].invalidCount >= deleteMin && DeleteProof(records[path]).Some?
      requires path in registry && Entitles(Some(registry[path]), DeleteProof(records[path]).value, deleteMin)
      modifies this`script, this`durable, this`records, this`calls
      ensures Valid() && path in records && records == old(records)[path := records[path]]
      ensures calls == old(calls) ==> !Terminal(records[path].status)
      ensures calls != old(calls) ==> CallConcluded(path, old(records)[path], old(calls))
      ensures SameCounts(records[path], old(records)[path])
      ensures old(Smooth(2, DeleteProof(records[path]).value)) ==> calls != old(calls)
      ensures old(script != [] && script[0].look != Found(DeleteProof(records[path]).value)) ==> calls == old(calls)
      ensures o.Done? && records[path].intent.Some? ==> calls != old(calls)
    {
      hide AllCovered, AllClosed, Authorised, Covered, Entitles, ProofOf;
      var r := records[path];
      ProofIsIdentity(r);
      label Looking:
      var t := Next();
      Continues@Looking();
      if t.look != Found(DeleteProof(r).value) {
        var status := match t.look case NotFound => Missing case Error => Failed case _ => BlockedDelete;
        o := FinishDeleteOutcome(path, status);
        return;
      }
      o := DeleteWithIntent(path, t.token);
    }

    lemma ProofIsIdentity(r: Record)
      ensures DeleteProof(r).Some? ==> r.identity == DeleteProof(r)
    {
    }

    /** The record with the intent to delete its proven generation. */
    function Intending(r: Record, token: string): Record
      requires DeleteProof(r).Some?
    {
      var id := DeleteProof(r).value;
      r.(status := Deleting, identity := Some(id), intent := Some(Intent(id, id, token)))
    }

    /**
     One call was made, for the proven generation of this record, and its result decided what became of the record.
     */
    predicate CallConcluded(path: Path, before: Record, calls: seq<Call>)
      reads this`calls, this`records
    {
      && DeleteProof(before).Some? && path in records && |this.calls| == |calls| + 1
      && var c := this.calls[|calls|];
         && OneCall(calls, this.calls, path, DeleteProof(before).value, c.token, c.result)
         && records[path] == Concluded(Intending(before, c.token), c.result)
    }

    method DeleteWithIntent(path: Path, token: string) returns (o: Monitoring<()>)
      requires Valid() && path in records && records[path].intent.None?
      requires records[path].invalidCount >= deleteMin && DeleteProof(records[path]).Some?
      requires path in registry && Entitles(Some(registry[path]), DeleteProof(records[path]).value, deleteMin)
      modifies this`script, this`durable, this`records, this`calls
      ensures Valid() && path in records && records == old(records)[path := records[path]]
      ensures calls == old(calls) ==> !o.Done? && records[path] == Intending(old(records)[path], token)
      ensures calls != old(calls) ==>
                CallConcluded(path, old(records)[path], old(calls)) && calls[|old(calls)|].token == token
      ensures o.Done? ==> durable == records
      ensures old(Smooth(1, DeleteProof(records[path]).value)) ==> calls != old(calls)
    {
      hide AllCovered, AllClosed, Authorised;
      var r := records[path];
      var id := DeleteProof(r).value;
      RecordInMemory(path);
      Keep(path, Intending(r, token));
      var saved := SaveState();
      if !saved.Done? { return saved; }
      var result := Unlink(path, id, token);
      var status: Status;
      match result {
        case Died => return Crashed;
        case Unlinked => status := Deleted;
        case Unavailable => status := DeletedRecovered;
        case NeedsRecovery => status := Deleting;
        case Refused => status := BlockedDelete;
        case Unexpected => status := FailedRecovery;
      }
      o := FinishDeleteOutcome(path, status);
    }

    // ------------------------------------------------------------ events

    /** Take note of an event as received. */
    method Receive(e: Event)
      requires Valid()
      modifies this`history
      ensures Valid() && history == old(history) + [e]
    {
      AllCoveredLater(history, e, deleteMin, records);
      AllCoveredLater(history, e, deleteMin, durable);
      history := history + [e];
    }

    lemma ConcludedIsCall(path: Path, before: Record, calls: seq<Call>)
      requires CallConcluded(path, before, calls)
      ensures CallFor(path, DeleteProof(before), calls)
    {
    }

    /** A marker just made of the record entitles its proven generation, if it failed often enough. */
    lemma MarkerEntitles(path: Path)
      requires Valid() && path in records && path in registry && records[path].identity.Some?
      requires registry[path] == MarkerFor(records[path], ProcessingError) && DeleteProof(records[path]).Some?
      ensures records[path].invalidCount >= deleteMin ==>
                Entitles(Some(registry[path]), DeleteProof(records[path]).value, deleteMin)
    {
    }

    lemma OpenIsClosed(path: Path, r: Record)
      requires !Terminal(r.status)
      ensures Closed(calls, path, r)
    {
    }

    lemma CoveredReady(path: Path, r: Record)
      requires Covered(history, deleteMin, path, r) && r.intent.None?
      ensures Covered(history, deleteMin, path, r.(markerReady := false, status := PolicyBlocked))
    {
    }

    /** Count one failure event; enough proofs of one exact generation lead to its deletion. */
    method RecordProcessingError(path: Path, e: Evidence) returns (o: Monitoring<()>)
      requires Valid()
      modifies this`script, this`durable, this`records, this`registry, this`history, this`calls
      ensures Valid() && history == old(history) + [Event(path, e)]
      ensures calls == old(calls) || CallFor(path, ProofOf(e), old(calls))
      ensures !Current(path, e, old(script)) ==>
                records == old(records) && durable == old(durable) && registry == old(registry) && calls == old(calls)
      ensures Current(path, e, old(script)) ==>
                && CountedUp(path, e, old(records), |old(history)|)
                && (o.Done? ==> durable == records)
      ensures old(NearlyDue(path, e) && Smooth(6, ProofOf(e).value)) ==> calls != old(calls)
    {
      ghost var before := history;
      assert path in records ==> Covered(before, deleteMin, path, records[path]);
      hide Valid, Covered, ProofOf, DeleteProof, Entitles, CountedUp, CallFor, HasRoom;
      Receive(Event(path, e));
      if e.source.Some? {
        label Looking:
        var t := Next();
        Continues@Looking();
        ProofHasSource(e);
        if t.look != Found(e.source.value) { return Done(()); }
      }
      o := CountEvent(path, e, before);
    }

    lemma ProofHasSource(e: Evidence)
      ensures ProofOf(e).Some? ==> ProofOf(e) == e.source
    {
    }

    /** The event names no generation, or the one that is at the path when it is looked at. */
    predicate Current(path: Path, e: Evidence, script: seq<Tick>) {
      e.source.Some? ==> script != [] && script[0].look == Found(e.source.value)
    }

    /**
     The event is counted: an unfinished deletion keeps its record, and so does a finished one if no generation is
     named; otherwise the record has gone up by one, or starts over.
     */
    predicate CountedUp(path: Path, e: Evidence, before: map<Path, Record>, now: nat)
      reads this`records
    {
      var status := if path in before then before[path].status else Unset;
      if status == BlockedRecovery || status == DeletePaused || status == Deleting || status == FailedRecovery
         || ((status == Deleted || status == DeletedRecovered) && e.source.None?)
      then records == before
      else path in records
           && records == before[path := records[path]]
           && SameCounts(records[path], Counted(if path in before then Some(before[path]) else None, e, now))
    }

    /** One call was made, for this path and this generation. */
    predicate CallFor(path: Path, proof: Option<FileIdentity>, before: seq<Call>)
      reads this`calls
    {
      && proof.Some? && |calls| == |before| + 1
      && OneCall(before, calls, path, proof.value, calls[|before|].token, calls[|before|].result)
    }

    /** Count an event whose generation, if it names one, is the one at the path now. */
    method CountEvent(path: Path, e: Evidence, ghost before: seq<Event>) returns (o: Monitoring<()>)
      requires Valid() && history == before + [Event(path, e)]
      requires path in records ==> Covered(before, deleteMin, path, records[path])
      modifies this`script, this`durable, this`records, this`registry, this`calls
      ensures Valid()
      ensures calls == old(calls) || CallFor(path, ProofOf(e), old(calls))
      ensures CountedUp(path, e, old(records), |before|)
      ensures o.Done? ==> durable == records
      ensures old(NearlyDue(path, e) && Smooth(5, ProofOf(e).value)) ==> calls != old(calls)
    {
      hide Valid, Covered, ProofOf, DeleteProof, HasRoom, CallFor, Closed;
      var previous := if path in records then Some(records[path]) else None;
      if previous.Some? {
        if RecoveryOwned(previous.value.status) || (Terminal(previous.value.status) && e.source.None?) {
          o := SaveState();
          return;
        }
      }
      CountedIsCovered(before, deleteMin, path, previous, e);
      CountedIsOpen(previous, e, |before|);
      if previous.Some? { CountedLaw(previous.value, e, |before|); }
      ProofHasSource(e);
      hide Counted;
      var counted := Counted(previous, e, |history| - 1);
      OpenIsClosed(path, counted);
      Keep(path, counted);
      o := ActOnRecord(path);
    }

    /** One more proof of this generation, and its deletion is due. */
    predicate NearlyDue(path: Path, e: Evidence)
      reads this
    {
      && autoMark && autoDelete && safe && HasRoom(registry)
      && ProofOf(e).Some?
      && path in records
      && !RecoveryOwned(records[path].status) && !Terminal(records[path].status)
      && records[path].identity == ProofOf(e)
      && records[path].invalidCount + 1 >= deleteMin
      && records[path].count + 1 >= markMin
    }

    /** Nothing but a failing call can keep this record from its marker and its generation from deletion. */
    predicate Ripe(path: Path)
      reads this
    {
      && path in records
      && autoMark && autoDelete && safe && HasRoom(registry) && DeleteProof(records[path]).Some?
      && records[path].invalidCount >= deleteMin && records[path].count >= markMin
    }

    method ActOnRecord(path: Path) returns (o: Monitoring<()>)
      requires Valid() && path in records && records[path].intent.None? && !RecoveryOwned(records[path].status)
      modifies this`script, this`durable, this`records, this`registry, this`calls
      ensures Valid() && path in records && records == old(records)[path := records[path]]
      ensures SameCounts(records[path], old(records)[path])
      ensures calls == old(calls) || CallFor(path, DeleteProof(old(records)[path]), old(calls))
      ensures o.Done? ==> durable == records
      ensures old(Ripe(path) && Smooth(5, DeleteProof(records[path]).value)) ==> calls != old(calls)
      ensures old(records)[path].evidence.source.None? ==>
                && records[path] == old(records)[path].(markerReady := false, status := PolicyBlocked)
                && registry == old(registry) && calls == old(calls)
      ensures o.Done? && records[path].intent.Some? ==> calls != old(calls)
    {
      hide Valid, Covered, Closed, ProofOf, CallFor, HasRoom;
      var r := records[path];
      if r.evidence.source.None? {
        RecordInMemory(path);
        CoveredReady(path, r);
        OpenIsClosed(path, r.(markerReady := false, status := PolicyBlocked));
        NoProof(r);
        Keep(path, r.(markerReady := false, status := PolicyBlocked));
        o := SaveState();
        return;
      }
      var _ :- MarkThenDelete(path);
      o := SaveState();
    }

    lemma NoProof(r: Record)
      ensures r.evidence.source.None? ==> DeleteProof(r).None?
    {
    }

    method MarkThenDelete(path: Path) returns (o: Monitoring<()>)
      requires Valid() && path in records && records[path].intent.None? && !RecoveryOwned(records[path].status)
      modifies this`script, this`durable, this`records, this`registry, this`calls
      ensures Valid() && path in records && records == old(records)[path := records[path]]
      ensures SameCounts(records[path], old(records)[path])
      ensures calls == old(calls) || CallFor(path, DeleteProof(old(records)[path]), old(calls))
      ensures old(Ripe(path) && Smooth(5, DeleteProof(records[path]).value)) ==> calls != old(calls)
      ensures o.Done? && records[path].intent.Some? ==> calls != old(calls)
    {
      hide Valid, CallFor, CallConcluded, Entitles, HasRoom, ProofOf;
      ghost var soon := old(Ripe(path) && Smooth(5, DeleteProof(records[path]).value));
      ProofIsIdentity(records[path]);
      var ready :- PersistFailureMarker(path);
      if ready && DeleteProof(records[path]).Some? {
        MarkerEntitles(path);
        ghost var before := records[path];
        assert soon ==> Due(path) && Smooth(3, DeleteProof(before).value);
        o := TryDeletePath(path);
        if calls != old(calls) { ConcludedIsCall(path, before, old(calls)); }
        return;
      }
      o := Done(());
    }

    /** A crash candidate may put its own marker on a path; it never deletes. */
    method RecordCrashCandidate(path: Path, id: FileIdentity, count: nat) returns (o: Monitoring<()>)
      requires Valid()
      modifies this`script, this`registry, this`durable
      ensures Valid()
      ensures registry == old(registry) || registry == old(registry)[path := Marker(id, Sigsegv, count)]
      ensures o.Done? ==> durable == records
      ensures !autoMark || count < markMin ==> registry == old(registry)
      ensures old(AllWork()) ==> o.Done?
      ensures old(AllWork() && HasRoom(registry)) && autoMark && count >= markMin ==>
                registry == old(registry)[path := Marker(id, Sigsegv, count)]
      ensures autoMark && count >= markMin && old(HasRoom(registry) && script != [] && script[0].fault.Dies?) ==>
                o.Crashed? && durable == old(durable)
    {
      hide AllCovered, AllClosed, Authorised, HasRoom;
      if autoMark && count >= markMin {
        var written := WriteMarker(path, Marker(id, Sigsegv, count));
        if written.Crashed? { return Crashed; }
      }
      o := SaveState();
    }

    // ------------------------------------------------------------ restart

    /** What a legacy record without an identity becomes. */
    function Migrated(r: Record): Record {
      if r.identity.Some? then r
      else if r.intent.Some? then r.(identity := Some(r.intent.value.identity))
      else if RecoveryOwned(r.status) then r.(status := BlockedRecovery)
      else if Terminal(r.status) then r
      else r.(count := 0, status := Unset, intent := None)
    }

    /** Migration takes counts away only from records that could not have authorised anything. */
    lemma MigratedIsCovered(path: Path, r: Record)
      requires Covered(history, deleteMin, path, r) && Closed(calls, path, r)
      ensures Covered(history, deleteMin, path, Migrated(r)) && Closed(calls, path, Migrated(r))
      ensures r.intent.Some? ==> Migrated(r) == r
      ensures Migrated(r).intent == r.intent && Migrated(r).since == r.since
    {
    }

    method MigrateFailureIdentities() returns (reset: bool)
      requires Valid()
      modifies this`records
      ensures !reset ==> records == old(records)
      ensures Valid() && Resumable(records, old(records), old(records).Keys) && records.Keys == old(records).Keys
      ensures forall path :: path in records ==> records[path] == Migrated(old(records)[path])
    {
      MigrationKeepsValid();
      hide Valid, Covered, Closed, Migrated;
      reset := exists path :: path in records && records[path] != Migrated(records[path]);
      label Before:
      records := map path | path in records :: Migrated(records[path]);
      Replaced@Before();
    }

    lemma MigrationKeepsValid()
      requires Valid()
      ensures var all := map path | path in records :: Migrated(records[path]);
              && AllCovered(history, deleteMin, all) && AllClosed(calls, all)
              && Resumable(all, records, records.Keys)
    {
      hide Covered, Closed, Migrated, Authorised;
      forall path | path in records
        ensures Covered(history, deleteMin, path, Migrated(records[path]))
        ensures Closed(calls, path, Migrated(records[path]))
        ensures Migrated(records[path]).intent == records[path].intent
                  && Migrated(records[path]).since == records[path].since
      {
        MigratedIsCovered(path, records[path]);
      }
    }

    /** Other records of which all that matters holds. */
    twostate lemma Replaced()
      requires old(Valid()) && AllCovered(history, deleteMin, records) && AllClosed(calls, records)
      requires durable == old(durable) && history == old(history) && calls == old(calls)
      ensures Valid()
    {
    }

    lemma RecordCovered(path: Path)
      requires Valid() && path in records && path in durable
      ensures Covered(history, deleteMin, path, records[path]) && Covered(history, deleteMin, path, durable[path])
      ensures records[path].intent.Some? ==> records[path].identity == Some(records[path].intent.value.identity)
    {
    }

    /** The intent of this record may be resumed: its proof and its exact marker still stand. */
    predicate Stands(path: Path, r: Record)
      reads this`registry
    {
      && (r.status == Deleting || r.status == DeletePaused)
      && r.intent.Some? && r.intent.value.identity == r.intent.value.proof
      && DeleteProof(r) == Some(r.intent.value.proof)
      && path in registry && Entitles(Some(registry[path]), r.intent.value.identity, deleteMin)
    }

    /** One call was made, under the intent of this record, and its result decided what became of the record. */
    predicate CallResumed(path: Path, r: Record, before: seq<Call>, calls: seq<Call>, now: Record) {
      && r.intent.Some? && |calls| == |before| + 1
      && OneCall(before, calls, path, r.intent.value.identity, r.intent.value.token, calls[|before|].result)
      && now == Resumed(r, calls[|before|].result)
    }

    /** Without a call only the status changes, to one that keeps the intent. */
    predicate Unresumed(r: Record, now: Record, changed: bool) {
      && now == r.(status := now.status)
      && (now.status == r.status || now.status == BlockedRecovery || now.status == DeletePaused)
      && (r.status != Deleting && r.status != DeletePaused ==> now == r)
      && (changed <==> now.status != r.status)
    }

    /** Resume one durable intent, if its proof and its exact marker still stand. */
    method RecoverIntent(path: Path) returns (o: Monitoring<bool>)
      requires Valid() && Resumable(records, durable, {path})
      modifies this`script, this`records, this`calls
      ensures Valid() && !o.Blocked?
      ensures path in records && records == old(records)[path := records[path]]
      ensures calls != old(calls) ==>
                && safe && autoMark && autoDelete && Stands(path, old(records)[path])
                && CallResumed(path, old(records)[path], old(calls), calls, records[path])
                && o == if calls[|old(calls)|].result == Died then Crashed else Done(true)
      ensures calls == old(calls) ==> o.Done? && Unresumed(old(records)[path], records[path], o.value)
      ensures old(AllWork()) ==> AllWork()
      ensures old(AllWork()) && safe && autoMark && autoDelete && Stands(path, old(records)[path]) ==>
                calls != old(calls)
    {
      hide Valid, Covered, Closed, CallResumed, DeleteProof, Entitles, AllWork;
      var r := records[path];
      if r.status != Deleting && r.status != DeletePaused { return Done(false); }
      RecordCovered(path);
      if r.intent.None? || DeleteProof(r) != Some(r.intent.value.proof)
        || r.intent.value.identity != r.intent.value.proof {
        CoveredStatus(history, deleteMin, path, r, BlockedRecovery);
        OpenIsClosed(path, r.(status := BlockedRecovery));
        Keep(path, r.(status := BlockedRecovery));
        return Done(true);
      }
      o := RecoverProven(path);
    }

    /** The same for an intent whose proof stands. */
    method RecoverProven(path: Path) returns (o: Monitoring<bool>)
      requires Valid() && Resumable(records, durable, {path})
      requires records[path].status == Deleting || records[path].status == DeletePaused
      requires records[path].intent.Some? && records[path].intent.value.identity == records[path].intent.value.proof
      modifies this`script, this`records, this`calls
      ensures Valid() && !o.Blocked?
      ensures path in records && records == old(records)[path := records[path]]
      ensures calls != old(calls) ==>
                && safe && autoMark && autoDelete
                && path in registry
                && Entitles(Some(registry[path]), old(records)[path].intent.value.identity, deleteMin)
                && CallResumed(path, old(records)[path], old(calls), calls, records[path])
                && o == if calls[|old(calls)|].result == Died then Crashed else Done(true)
      ensures calls == old(calls) ==> o.Done? && Unresumed(old(records)[path], records[path], o.value)
      ensures old(AllWork()) ==> AllWork()
      ensures old(AllWork()) && safe && autoMark && autoDelete && path in registry
                && Entitles(Some(registry[path]), old(records)[path].intent.value.identity, deleteMin) ==>
                calls != old(calls)
    {
      hide Valid, Covered, Closed, CallResumed, DeleteProof, Entitles, AllWork;
      var r := records[path];
      RecordCovered(path);
      CoveredStatus(history, deleteMin, path, r, BlockedRecovery);
      OpenIsClosed(path, r.(status := BlockedRecovery));
      label Start:
      var matches := DurableMarkerMatches(path, r.intent.value.identity);
      Continues@Start();
      if !autoMark || !safe || !matches {
        Keep(path, r.(status := BlockedRecovery));
        return Done(true);
      }
      if !autoDelete {
        CoveredStatus(history, deleteMin, path, r, DeletePaused);
        OpenIsClosed(path, r.(status := DeletePaused));
        Keep(path, r.(status := DeletePaused));
        return Done(r.status != DeletePaused);
      }
      o := ResumeIntent(path);
      ResumedGrew(path, r, old(calls), calls, records[path]);
    }

    lemma ResumedGrew(path: Path, r: Record, before: seq<Call>, calls: seq<Call>, now: Record)
      requires CallResumed(path, r, before, calls, now)
      ensures calls != before && |calls| == |before| + 1
    {
    }

    /** The script's progress changes nothing else. */
    twostate lemma Continues()
      requires old(Valid())
      requires records == old(records) && durable == old(durable) && history == old(history) && calls == old(calls)
      ensures Valid()
    {
    }

    /** The resumed call: conclusive, it ends the deletion; otherwise the intent stays. */
    method ResumeIntent(path: Path) returns (o: Monitoring<bool>)
      requires Valid() && Resumable(records, durable, {path})
      requires records[path].intent.Some? && records[path].intent.value.identity == records[path].intent.value.proof
      requires path in registry && Entitles(Some(registry[path]), records[path].intent.value.identity, deleteMin)
      modifies this`script, this`records, this`calls
      ensures Valid() && !o.Blocked?
      ensures path in records && records == old(records)[path := records[path]]
      ensures CallResumed(path, old(records)[path], old(calls), calls, records[path])
      ensures o == if calls[|old(calls)|].result == Died then Crashed else Done(true)
      ensures old(AllWork()) ==> AllWork()
    {
      hide Valid, Covered;
      var r := records[path];
      RecordCovered(path);
      var result := Unlink(path, r.intent.value.identity, r.intent.value.token);
      if result == Died { return Crashed; }
      var status := if result == NeedsRecovery then Deleting else BlockedRecovery;
      CoveredStatus(history, deleteMin, path, r, status);
      CoveredStatus(history, deleteMin, path, r, DeletedRecovered);
      if result == Unlinked || result == Unavailable {
        assert ClosedBy(calls[|old(calls)|], path, r.(status := DeletedRecovered, intent := None));
        Keep(path, r.(status := DeletedRecovered, intent := None));
      } else {
        Keep(path, r.(status := status));
      }
      o := Done(true);
    }

    /** What is allowed is resumed: policy, state, proof and marker. */
    predicate MayResume(path: Path, r: Record)
      reads this
    {
      safe && autoMark && autoDelete && Stands(path, r)
    }

    /** Resume every durable intent, each by exactly one call, as far as its proof and its marker stand. */
    method RecoverDeleteIntents() returns (o: Monitoring<()>)
      requires Valid() && Resumable(records, durable, records.Keys)
      modifies this`script, this`records, this`calls, this`durable
      ensures Valid() && (!safe ==> calls == old(calls)) && records.Keys == old(records).Keys
      ensures AllHandled(records.Keys, old(records), old(calls), calls, records)
      ensures old(AllWork()) && o.Done? ==>
                forall p :: p in old(records) && old(MayResume(p, records[p])) ==>
                  ResumedOnce(p, old(records)[p], old(calls), calls, records[p])
      ensures o.Done? ==> durable == records || (records == old(records) && durable == old(durable))
      ensures old(AllWork()) ==> AllWork() && !o.Blocked?
    {
      hide Valid, AllWork, Stands, Unresumed, CallResumed, UpTo, AllHandled, ResumedOnce;
      var todo := records.Keys;
      var changed := false;
      ghost var due := set p | p in records && AllWork() && MayResume(p, records[p]);
      NoneHandled(todo, records, calls, due);
      while todo != {}
        invariant Valid() && Resumable(records, durable, todo) && (!safe ==> calls == old(calls))
        invariant todo <= records.Keys == old(records).Keys
        invariant UpTo(todo, old(records), old(calls), calls, records, due)
        invariant old(AllWork()) ==> AllWork()
        invariant (!changed ==> records == old(records)) && durable == old(durable)
        decreases |todo|
      {
        var path :| path in todo;
        ghost var before, were := calls, records;
        StillTodo(path, todo, old(records), old(calls), calls, records, due);
        var did := RecoverIntent(path);
        OneMoreHandled(path, todo, old(records), old(calls), before, calls, were, records, due, did);
        todo := todo - {path};
        UpToHandled(todo, old(records), old(calls), calls, records, due);
        if did.Crashed? { return Crashed; }
        if did.value { changed := true; }
      }
      UpToHandled(todo, old(records), old(calls), calls, records, due);
      if changed { o := SaveState(); } else { o := Done(()); }
    }

    lemma StillTodo(path: Path, todo: set<Path>, origin: map<Path, Record>, first: seq<Call>, calls: seq<Call>,
        now: map<Path, Record>, due: set<Path>)
      requires UpTo(todo, origin, first, calls, now, due) && path in todo && path in origin
      ensures path in now && now[path] == origin[path]
    {
    }

    lemma NoneHandled(todo: set<Path>, records: map<Path, Record>, calls: seq<Call>, due: set<Path>)
      requires todo == records.Keys
      ensures UpTo(todo, records, calls, calls, records, due)
    {
    }

    lemma UpToHandled(todo: set<Path>, origin: map<Path, Record>, first: seq<Call>, calls: seq<Call>,
        now: map<Path, Record>, due: set<Path>)
      requires UpTo(todo, origin, first, calls, now, due)
      ensures AllHandled(origin.Keys, origin, first, calls, now)
      ensures todo == {} ==>
                forall p :: p in due && p in origin ==> p in now && ResumedOnce(p, origin[p], first, calls, now[p])
    {
      hide ResumedOnce, CallsTo;
    }

    /** One path more is dealt with; the others are where they were. */
    lemma OneMoreHandled(path: Path, todo: set<Path>, origin: map<Path, Record>, first: seq<Call>, before: seq<Call>,
        calls: seq<Call>, were: map<Path, Record>, now: map<Path, Record>, due: set<Path>, did: Monitoring<bool>)
      requires UpTo(todo, origin, first, before, were, due) && path in todo && path in origin && path in now
      requires now == were[path := now[path]]
      requires calls != before ==> CallResumed(path, origin[path], before, calls, now[path])
      requires calls == before ==> did.Done? && Unresumed(origin[path], now[path], did.value) && path !in due
      ensures UpTo(todo - {path}, origin, first, calls, now, due)
      ensures did == Done(false) && calls == before ==> now == were
    {
      forall p | p in origin ensures PathUpTo(p, todo - {path}, origin[p], first, calls, now, due) {
        assert PathUpTo(p, todo, origin[p], first, before, were, due);
        hide Resumed;
        if calls != before {
          CallsToGrows(before, calls, p);
          if p == path {
            assert CallUnder(calls[|before|], path, origin[path], now[path]);
          } else if p !in todo && ResumedOnce(p, origin[p], first, before, were[p]) {
            var k :| |first| <= k < |before| && CallUnder(before[k], p, origin[p], were[p]);
            assert calls[k] == before[k];
          }
        }
      }
    }

    /**
     A new process: memory is what the state file says. Of a malformed file the good records are kept, but nothing is
     deleted; of an unreadable one nothing is kept. A whole one has its intents resumed.
     */
    method Restart(found: StateFile) returns (o: Monitoring<()>)
      requires Valid()
      modifies this`script, this`records, this`calls, this`durable, this`safe
      ensures Valid() && safe == found.Whole? && (!safe ==> calls == old(calls))
      ensures records.Keys == match found
                              case Whole => old(durable).Keys
                              case Malformed(good) => old(durable).Keys * good
                              case Lost => {}
      ensures forall p :: p in records ==> Handled(p, Migrated(old(durable)[p]), old(calls), calls, records[p])
      ensures safe && autoMark && autoDelete && old(AllWork()) && o.Done? ==>
                forall p :: p in old(durable) && Stands(p, old(durable)[p]) ==>
                  ResumedOnce(p, old(durable)[p], old(calls), calls, records[p])
      ensures safe && o.Done? ==> durable == records
    {
      hide Covered, Closed, Authorised, AllWork, Stands, ResumedOnce, NotResumed, Migrated;
      StandingNeedsNoMigration();
      safe := found.Whole?;
      match found {
        case Whole => records := durable;
        case Malformed(good) => records := map path | path in durable && path in good :: durable[path];
        case Lost => records := map[];
      }
      if found.Lost? { return Done(()); }
      hide Valid;
      var reset := MigrateFailureIdentities();
      var _ :- RecoverDeleteIntents();
      if reset { o := SaveState(); } else { o := Done(()); }
    }

    /** A record with an intent that stands has its identity. */
    lemma StandingNeedsNoMigration()
      requires Valid()
      ensures forall p :: p in durable && Stands(p, durable[p]) ==> Migrated(durable[p]) == durable[p]
    {
      forall p | p in durable && Stands(p, durable[p]) ensures Migrated(durable[p]) == durable[p] {
        MigratedIsCovered(p, durable[p]);
      }
    }

    // ------------------------------------------------------------ whole runs

    /**
     Any sequence of events, crashes and restarts: every call of the quarantine delete was authorised, and every record
     that says deleted rests on a call. A dead process takes no event before the next restart.
     */
    method Run(steps: seq<Step>) returns (outcomes: seq<Option<Monitoring<()>>>)
      requires Valid()
      modifies this
      ensures Valid()
      ensures forall c :: c in calls ==> Authorised(deleteMin, c)
      ensures AllClosed(calls, records) && AllClosed(calls, durable)
      ensures |outcomes| == |steps|
      ensures forall k :: 0 <= k < |steps| ==>
                (outcomes[k].Some? <==> steps[k].Restarted? || Alive(steps, outcomes[..k], k))
    {
      hide AllCovered, AllClosed, Authorised, Handled;
      outcomes := [];
      var alive := true;
      for k := 0 to |steps|
        invariant Valid() && |outcomes| == k && alive == Alive(steps, outcomes, k)
        invariant forall j :: 0 <= j < k ==>
                    (outcomes[j].Some? <==> steps[j].Restarted? || Alive(steps, outcomes[..j], j))
      {
        var o: Option<Monitoring<()>> := None;
        ghost var before := outcomes;
        if alive || steps[k].Restarted? {
          var taken := TakeStep(steps[k]);
          o, alive := Some(taken), !taken.Crashed?;
        }
        outcomes := outcomes + [o];
        assert outcomes[..k] == before;
        assert forall j :: 0 <= j < k ==> outcomes[..j] == before[..j];
      }
    }

    method TakeStep(step: Step) returns (o: Monitoring<()>)
      requires Valid()
      modifies this
      ensures Valid()
      ensures step.Delivered? ==> history == old(history) + [step.event]
      ensures !step.Delivered? ==> history == old(history)
      ensures step.Restarted? ==> safe == step.found.Whole?
    {
      hide AllCovered, AllClosed, Authorised, Handled;
      match step {
        case Delivered(e) => o := RecordProcessingError(e.path, e.evidence);
        case Crashing(path, id, count) => o := RecordCrashCandidate(path, id, count);
        case Restarted(found) => o := Restart(found);
      }
    }
  }

  /** The process lives after so many steps: it was restarted since it last died. */
  predicate Alive(steps: seq<Step>, outcomes: seq<Option<Monitoring<()>>>, k: nat)
    requires k == |outcomes| <= |steps|
  {
    if k == 0 then true
    else if outcomes[k - 1] == Some(Crashed) then false
    else steps[k - 1].Restarted? || Alive(steps, outcomes[..k - 1], k - 1)
  }

  /** What can happen to the monitor: an event, a native crash of the service, or a restart of its own. */
  datatype Step =
    | Delivered(event: Event)
    | Crashing(path: Path, identity: FileIdentity, count: nat)
    | Restarted(found: StateFile)

  /** How the state file is found. */
  datatype StateFile = Whole | Malformed(good: set<Path>) | Lost
}