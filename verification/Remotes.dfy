/** The public state of a release and what each remote operation does to it. */
module Remotes {
  import opened Outcomes
  import opened Checkpoints

  /** Manifest digests: the sealed index, or a probe manifest derived from its token and role. */
  datatype ProbeRole = Prior | Winner | Rejected
  datatype Digest = Sealed(id: string) | ProbeManifest(kind: ProbeKind, token: string, role: ProbeRole)

  datatype Tagged = Tagged(digest: Digest, etag: Etag)

  datatype Intent = Intent(
    id: string,
    priorMain: string,
    releaseCommit: string,
    tagObject: string,
    release: string,
    image: Digest,
    smoke: string,
    blobs: seq<string>,
    manifests: seq<string>,
    priorLatest: Option<Digest>)
  {
    predicate Valid() {
      && image.Sealed?
      && (priorLatest.Some? ==> priorLatest.value.Sealed?)
    }
  }

  datatype Remote = Remote(
    main: string,
    tag: Option<string>,
    release: Option<string>,
    registry: map<Reference, Tagged>,
    blobs: set<string>,
    manifests: set<string>,
    lock: Option<ObjectSha>,
    actions: seq<nat>,
    nextEtag: Etag,
    nextUpload: nat)
  {
    function DigestAt(ref: Reference): Option<Digest> {
      if ref in registry then Some(registry[ref].digest) else None
    }

    function EtagAt(ref: Reference): Option<Etag> {
      if ref in registry then Some(registry[ref].etag) else None
    }

    /** Store a manifest; a strong entity tag never repeats. */
    function Put(ref: Reference, digest: Digest): Remote {
      this.(registry := registry[ref := Tagged(digest, nextEtag)], nextEtag := nextEtag + 1)
    }

    /** PUT with If-None-Match: * (section 13.1.2 of RFC 9110). */
    function PutIfAbsent(ref: Reference, digest: Digest): (Remote, bool) {
      if ref in registry then (this, false) else (Put(ref, digest), true)
    }

    /** PUT with If-Match (section 13.1.1 of RFC 9110). */
    function PutIfMatch(ref: Reference, etag: Etag, digest: Digest): (Remote, bool) {
      if EtagAt(ref) == Some(etag) then (Put(ref, digest), true) else (this, false)
    }
  }

  datatype Reply =
    | Ack
    | LockObjectCreated(lockSha: ObjectSha)
    | VersionTagCreated(tagObject: string)
    | Location(url: nat)
    | ProbeStatus(code: nat)

  /** The state after the server served a request, and its reply unless it reported an error. */
  datatype Served = Served(remote: Remote, reply: Option<Reply>)

  function ProbeReply(r: (Remote, bool)): Served {
    Served(r.0, Some(ProbeStatus(if r.1 then 201 else 412)))
  }

  /** What the server does with one operation armed by checkpoint c. */
  function Serve(i: Intent, c: Checkpoint, r: Remote, op: Operation): Served {
    match op
    case LockObjectCreate =>
      Served(r, Some(LockObjectCreated(TagOf(c.lockDocument))))
    case LockRefCreate =>
      if r.lock.None? && c.lockObject.Some? then Served(r.(lock := c.lockObject), Some(Ack)) else Served(r, None)
    case MainFastForward =>
      if r.main == i.priorMain || r.main == i.releaseCommit then Served(r.(main := i.releaseCommit), Some(Ack))
      else Served(r, None)
    case VersionTagObjectCreate =>
      Served(r, Some(VersionTagCreated(i.tagObject)))
    case VersionTagRefCreate =>
      if r.tag.None? then Served(r.(tag := Some(i.tagObject)), Some(Ack)) else Served(r, None)
    case BlobUploadStart(_) =>
      Served(r.(nextUpload := r.nextUpload + 1), Some(Location(r.nextUpload)))
    case BlobUploadFinish(k) =>
      if k < |i.blobs| && i.blobs[k] in c.uploads && c.uploads[i.blobs[k]] < r.nextUpload
      then Served(r.(blobs := r.blobs + {i.blobs[k]}), Some(Ack))
      else Served(r, None)
    case ManifestPut(k) =>
      if k < |i.manifests| then Served(r.(manifests := r.manifests + {i.manifests[k]}), Some(Ack)) else Served(r, None)
    case VersionProbeSeed => ServeProbe(c.createProbe, r, Winner, true)
    case VersionProbeReject => ServeProbe(c.createProbe, r, Rejected, true)
    case LatestProbeSeed => ServeProbe(c.casProbe, r, Prior, true)
    case LatestProbeCas => ServeProbe(c.casProbe, r, Winner, false)
    case LatestProbeStale => ServeProbe(c.casProbe, r, Rejected, false)
    case VersionConditionalCreate =>
      var (created, ok) := r.PutIfAbsent(VersionTag, i.image);
      if ok then Served(created, Some(Ack))
      else Served(r, if r.DigestAt(VersionTag) == Some(i.image) then Some(Ack) else None)
    case ReleaseCreate =>
      if r.release.None? then Served(r.(release := Some(i.release)), Some(Ack)) else Served(r, None)
    case LatestUpdate =>
      if r.DigestAt(Latest) == i.priorLatest then ServeLatestPut(i, r, r.EtagAt(Latest)) else Served(r, None)
    case LockRefRemove =>
      if c.lockObject.Some? && r.lock == c.lockObject then Served(r.(lock := None), Some(Ack)) else Served(r, None)
  }

  function ServeProbe(probe: Option<Probe>, r: Remote, role: ProbeRole, ifAbsent: bool): Served {
    if probe.None? then Served(r, None)
    else
      var p := probe.value;
      var digest := ProbeManifest(p.kind, p.token, role);
      if ifAbsent then ProbeReply(r.PutIfAbsent(p.reference, digest))
      else if p.priorEtag.Some? then ProbeReply(r.PutIfMatch(p.reference, p.priorEtag.value, digest))
      else Served(r, None)
  }

  /** The conditional PUT of latest, guarded by the entity tag that was read (or by absence). */
  function ServeLatestPut(i: Intent, r: Remote, observed: Option<Etag>): Served {
    var (after, ok) :=
      if i.priorLatest.None? then r.PutIfAbsent(Latest, i.image)
      else if observed.Some? then r.PutIfMatch(Latest, observed.value, i.image)
      else (r, false);
    Served(after, if ok || r.DigestAt(Latest) == Some(i.image) then Some(Ack) else None)
  }

  /** Entity tags already handed out are below the next one. */
  ghost predicate TagsIssued(r: Remote) {
    forall ref :: ref in r.registry ==> r.registry[ref].etag < r.nextEtag
  }

  /** Between two moments the registry only ever stored manifests under fresh entity tags. */
  ghost predicate TagsFresh(before: Remote, after: Remote) {
    && before.nextEtag <= after.nextEtag
    && TagsIssued(after)
    && forall ref :: ref in after.registry && after.registry[ref].etag < before.nextEtag ==>
         ref in before.registry && before.registry[ref] == after.registry[ref]
  }

  predicate IsLockOperation(op: Operation) {
    op == LockObjectCreate || op == LockRefCreate || op == LockRefRemove
  }

  /** What serving one operation may do to the lock. */
  lemma {:induction false} LockChanges(i: Intent, c: Checkpoint, r: Remote, op: Operation)
    ensures var after := Serve(i, c, r, op).remote;
            if op == LockRefCreate then after.lock == r.lock || (r.lock.None? && after.lock == c.lockObject)
            else if op == LockRefRemove then after.lock == r.lock || (r.lock == c.lockObject && after.lock.None?)
            else after.lock == r.lock
  {
  }

  /**
   The compare-and-set of latest. Whatever other writers do between the read and the PUT, the PUT
   replaces exactly the prior digest that was read, or changes nothing.
   */
  lemma {:induction false} LatestPutReplacesOnlyPrior(i: Intent, read: Remote, put: Remote)
    requires TagsIssued(read) && TagsFresh(read, put)
    requires read.DigestAt(Latest) == i.priorLatest
    ensures var after := ServeLatestPut(i, put, read.EtagAt(Latest)).remote;
            && (after == put || (put.DigestAt(Latest) == i.priorLatest && after == put.Put(Latest, i.image)))
            && (i.priorLatest.Some? && after != put ==> put.EtagAt(Latest) == read.EtagAt(Latest))
  {
    if i.priorLatest.Some? && Latest in put.registry && put.EtagAt(Latest) == read.EtagAt(Latest) {
      assert put.registry[Latest].etag < read.nextEtag;
    }
  }

  /** Without interference the two-request update is the single one. */
  lemma {:induction false} LatestPutUndisturbed(i: Intent, c: Checkpoint, r: Remote)
    requires r.DigestAt(Latest) == i.priorLatest
    ensures ServeLatestPut(i, r, r.EtagAt(Latest)) == Serve(i, c, r, LatestUpdate)
    ensures i.priorLatest.Some? || Latest !in r.registry
    ensures Serve(i, c, r, LatestUpdate) == Served(r.Put(Latest, i.image), Some(Ack))
  {
  }

  /** Whatever is served, a manifest is only ever stored under a new entity tag, */
  lemma ServeTagsFresh(i: Intent, c: Checkpoint, r: Remote, op: Operation)
    requires TagsIssued(r)
    ensures TagsFresh(r, Serve(i, c, r, op).remote)
  {
  }

  /** and so over any stretch of time. */
  lemma TagsFreshTransitive(a: Remote, b: Remote, c: Remote)
    requires TagsFresh(a, b) && TagsFresh(b, c)
    ensures TagsFresh(a, c)
  {
  }
}
