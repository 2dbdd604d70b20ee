/** What must hold between the public state and the last durable checkpoint of a publication. */
module Publication {
  import opened Outcomes
  import opened Checkpoints
  import opened Remotes

  predicate InFlight(phase: Phase, op: Operation) {
    phase == Pending(op) || phase == Ambiguous(op) || phase == Written(op)
  }

  predicate ProbeBound(probe: Option<Probe>) {
    probe.Some? ==>
      && probe.value.reference == ProbeRef(probe.value.kind, probe.value.token)
      && (probe.value.verification.Some? ==>
            probe.value.verification.value
            == VerificationOf(probe.value.kind, probe.value.token, probe.value.priorEtag, probe.value.winnerEtag))
  }

  predicate ProbeVerified(probe: Option<Probe>) {
    probe.Some? && probe.value.stage == Verified
  }

  /** The smoke run and both probes are on record. */
  predicate Evidence(d: Checkpoint) {
    d.smoke.Some? && ProbeVerified(d.createProbe) && ProbeVerified(d.casProbe)
  }

  /** The lock may only be given up by its owner, with all evidence on record. */
  predicate Removable(d: Checkpoint) {
    d.lockAcquired && Evidence(d)
  }

  /** The checkpoint belongs to this intent and its evidence fits together. */
  predicate Identity(i: Intent, d: Checkpoint) {
    && d.intent == i.id
    && d.lockDocument == LockDocument(i.id, d.actionsBaseline, d.runToken)
    && WellFormed(d)
    && ProbeBound(d.createProbe)
    && ProbeBound(d.casProbe)
    && (d.lockObject.Some? ==> d.lockObject == Some(TagOf(d.lockDocument)))
    && (d.lockAcquired ==> d.lockObject.Some?)
    && (d.lockRemoved || InFlight(d.phase, LockRefRemove) ==> Removable(d))
    && (d.smoke.Some? ==> d.smoke == Some(i.smoke))
    && (d.latestAttempted ==> Evidence(d))
  }

  lemma IdentityFacts(i: Intent, d: Checkpoint)
    requires Identity(i, d)
    ensures WellFormed(d)
    ensures d.lockDocument == LockDocument(i.id, d.actionsBaseline, d.runToken)
    ensures d.lockObject.Some? ==> d.lockObject == Some(TagOf(d.lockDocument))
    ensures d.lockAcquired ==> d.lockObject == Some(TagOf(d.lockDocument))
    ensures d.lockRemoved ==> d.lockAcquired
    ensures d.latestAttempted ==> d.smoke.Some?
  {
  }

  lemma TransitionFacts(d: Checkpoint, e: Checkpoint)
    requires SameRun(d, e) && Transition(d, e)
    ensures d.lockDocument == e.lockDocument
    ensures d.lockAcquired ==> e.lockAcquired
    ensures d.latestAttempted ==> e.latestAttempted
  {
  }

  /** Only the narrative fields differ: phase, failure and the tail of completed writes. */
  predicate SameStanding(d: Checkpoint, e: Checkpoint) {
    d.completed <= e.completed && e == d.(phase := e.phase, failure := e.failure, completed := e.completed)
  }

  lemma StandingTransition(i: Intent, d: Checkpoint, e: Checkpoint)
    requires Identity(i, d) && SameStanding(d, e)
    ensures SameRun(d, e) && Transition(d, e)
    ensures (InFlight(e.phase, LockRefRemove) ==> Removable(e)) ==> Identity(i, e)
  {
  }

  lemma ServeIgnoresStanding(i: Intent, d: Checkpoint, e: Checkpoint, r: Remote, op: Operation)
    requires SameStanding(d, e)
    ensures Serve(i, d, r, op) == Serve(i, e, r, op)
  {
  }

  // ---------------------------------------------------------------- alone with the remote

  ghost predicate GraphComplete(i: Intent, r: Remote) {
    && (forall k :: 0 <= k < |i.blobs| ==> i.blobs[k] in r.blobs)
    && (forall k :: 0 <= k < |i.manifests| ==> i.manifests[k] in r.manifests)
  }

  predicate Pristine(i: Intent, r: Remote) {
    && r.main == i.priorMain
    && r.tag.None?
    && r.release.None?
    && VersionTag !in r.registry
    && r.DigestAt(Latest) == i.priorLatest
  }

  predicate Final(i: Intent, r: Remote) {
    && r.main == i.releaseCommit
    && r.tag == Some(i.tagObject)
    && r.release == Some(i.release)
    && r.DigestAt(VersionTag) == Some(i.image)
    && r.DigestAt(Latest) == Some(i.image)
    && r.lock.None?
  }

  /** Every public component is the one before or the one after the publication. */
  predicate Components(i: Intent, r: Remote) {
    && (r.main == i.priorMain || r.main == i.releaseCommit)
    && (r.tag.None? || r.tag == Some(i.tagObject))
    && (r.release.None? || r.release == Some(i.release))
    && (VersionTag !in r.registry || r.DigestAt(VersionTag) == Some(i.image))
    && (r.DigestAt(Latest) == i.priorLatest || r.DigestAt(Latest) == Some(i.image))
  }

  ghost predicate Bookkeeping(r: Remote, d: Checkpoint) {
    && r.actions == d.actionsBaseline
    && TagsIssued(r)
    && forall b :: b in d.uploads ==> d.uploads[b] < r.nextUpload
  }

  predicate Locking(i: Intent, r: Remote, d: Checkpoint) {
    var mine := Some(TagOf(d.lockDocument));
    if d.lockRemoved then Final(i, r)
    else if d.lockAcquired then r.lock == mine || (InFlight(d.phase, LockRefRemove) && Final(i, r))
    else r.lock.None? || (r.lock == mine && d.lockObject.Some? && InFlight(d.phase, LockRefCreate))
  }

  /** What the probe's registry reference may hold at its stage. */
  predicate ProbeTracks(probe: Option<Probe>, r: Remote) {
    probe.Some? ==>
      var p := probe.value;
      var at := r.DigestAt(p.reference);
      var etag := r.EtagAt(p.reference);
      match p.stage
      case Planned => at.None?
      case SeedArmed => at.None?
        || at == Some(ProbeManifest(p.kind, p.token, if p.kind == CreateProbe then Winner else Prior))
      case CasArmed =>
        || (at == Some(ProbeManifest(p.kind, p.token, Prior)) && etag == p.priorEtag)
        || (at == Some(ProbeManifest(p.kind, p.token, Winner)) && etag != p.priorEtag)
      case _ => at == Some(ProbeManifest(p.kind, p.token, Winner)) && etag == p.winnerEtag && etag != p.priorEtag
  }

  /** Each public step presupposes the ones before it. */
  ghost predicate Ordering(i: Intent, r: Remote, d: Checkpoint) {
    && (!d.lockAcquired ==>
          Pristine(i, r) && d.createProbe.None? && d.casProbe.None? && d.smoke.None? && !d.latestAttempted)
    && (r.tag.Some? ==> r.main == i.releaseCommit)
    && (d.createProbe.Some? ==> r.tag.Some? && GraphComplete(i, r))
    && (VersionTag in r.registry ==> ProbeVerified(d.createProbe))
    && (d.smoke.Some? ==> VersionTag in r.registry)
    && (r.release.Some? ==> d.smoke.Some?)
    && (d.casProbe.Some? ==> r.release.Some?)
    && (r.DigestAt(Latest) != i.priorLatest ==> d.latestAttempted)
  }

  ghost predicate Consistent(i: Intent, r: Remote, d: Checkpoint) {
    && Components(i, r)
    && Bookkeeping(r, d)
    && Locking(i, r, d)
    && ProbeTracks(d.createProbe, r)
    && ProbeTracks(d.casProbe, r)
    && Ordering(i, r, d)
  }

  /** The whole ladder of the publication, read off any consistent state. */
  lemma {:induction false} PublicationIsOrdered(i: Intent, r: Remote, d: Checkpoint)
    requires Identity(i, d) && Consistent(i, r, d)
    ensures r.DigestAt(Latest) != i.priorLatest ==>
              r.release == Some(i.release) && d.smoke == Some(i.smoke) && d.latestAttempted
    ensures r.release.Some? ==> r.DigestAt(VersionTag) == Some(i.image) && ProbeVerified(d.createProbe)
    ensures VersionTag in r.registry ==> GraphComplete(i, r)
    ensures VersionTag in r.registry ==> r.tag == Some(i.tagObject) && r.main == i.releaseCommit
    ensures r.lock.None? && d.lockAcquired ==> Final(i, r)
  {
  }

  lemma StandingConsistent(i: Intent, r: Remote, d: Checkpoint, e: Checkpoint)
    requires Consistent(i, r, d) && SameStanding(d, e)
    requires InFlight(d.phase, LockRefCreate) ==> InFlight(e.phase, LockRefCreate) || r.lock.None? || d.lockAcquired
    requires InFlight(d.phase, LockRefRemove) ==> InFlight(e.phase, LockRefRemove) || r.lock.Some? || d.lockRemoved
    ensures Consistent(i, r, e)
  {
  }

  /** An operation whose arming and whose effect both leave the publication recoverable. */
  ghost predicate WriteSafe(i: Intent, r: Remote, d: Checkpoint, op: Operation) {
    var armed := d.(phase := Pending(op), failure := None);
    && Consistent(i, r, armed)
    && Consistent(i, Serve(i, d, r, op).remote, armed)
    && Serve(i, d, r, op).reply.Some?
    && (op == LockRefCreate ==> r.lock.None?)
    && (op == LockRefRemove ==> r.lock.Some? && !d.lockRemoved)
  }

  /** After arming: the write happened or it did not; either way the armed checkpoint recovers, */
  lemma WriteRecoverable(i: Intent, r: Remote, d: Checkpoint, op: Operation, after: Remote)
    requires WriteSafe(i, r, d, op)
    requires after == r || after == Serve(i, d, r, op).remote
    ensures Consistent(i, after, d.(phase := Pending(op), failure := None))
  {
    hide Consistent, Serve;
  }

  /** and so does every later note about the same write. */
  lemma NoteConsistent(i: Intent, r: Remote, d: Checkpoint, op: Operation, e: Checkpoint)
    requires Consistent(i, r, d) && SameStanding(d, e) && d.phase == Pending(op)
    requires InFlight(e.phase, op)
    ensures Consistent(i, r, e)
  {
    hide Consistent;
    StandingConsistent(i, r, d, e);
  }

  /** A write that was blocked before it was sent left the remote as it was. */
  lemma BlockedConsistent(i: Intent, r: Remote, d: Checkpoint, op: Operation, e: Checkpoint)
    requires WriteSafe(i, r, d, op) && e.phase == BlockedBeforeWrite(op)
    requires SameStanding(d.(phase := Pending(op), failure := None), e)
    ensures Consistent(i, r, e)
  {
    hide Consistent, Serve;
    StandingConsistent(i, r, d.(phase := Pending(op), failure := None), e);
  }

  // ---------------------------------------------------------------- each write is safe where it is armed

  /** A consistent publication whose lock is held. */
  ghost predicate Holding(i: Intent, r: Remote, d: Checkpoint) {
    && Identity(i, d)
    && Consistent(i, r, d)
    && d.lockAcquired
    && !d.lockRemoved
    && r.lock == d.lockObject
  }

  /** While the lock is held, the narrative fields do not matter. */
  lemma HoldingStanding(i: Intent, r: Remote, d: Checkpoint, e: Checkpoint)
    requires Holding(i, r, d) && SameStanding(d, e)
    ensures Consistent(i, r, e)
  {
    hide Consistent, Identity;
    IdentityFacts(i, d);
    StandingConsistent(i, r, d, e);
  }

  lemma MainIsSafe(i: Intent, r: Remote, d: Checkpoint)
    requires Holding(i, r, d)
    ensures WriteSafe(i, r, d, MainFastForward)
  {
    HoldingStanding(i, r, d, d.(phase := Pending(MainFastForward), failure := None));
  }

  lemma TagObjectIsSafe(i: Intent, r: Remote, d: Checkpoint)
    requires Holding(i, r, d)
    ensures WriteSafe(i, r, d, VersionTagObjectCreate)
  {
    HoldingStanding(i, r, d, d.(phase := Pending(VersionTagObjectCreate), failure := None));
  }

  lemma TagRefIsSafe(i: Intent, r: Remote, d: Checkpoint)
    requires Holding(i, r, d) && r.tag.None? && r.main == i.releaseCommit
    ensures WriteSafe(i, r, d, VersionTagRefCreate)
  {
    HoldingStanding(i, r, d, d.(phase := Pending(VersionTagRefCreate), failure := None));
  }

  lemma UploadStartIsSafe(i: Intent, r: Remote, d: Checkpoint, k: nat)
    requires Holding(i, r, d)
    ensures WriteSafe(i, r, d, BlobUploadStart(k))
  {
    HoldingStanding(i, r, d, d.(phase := Pending(BlobUploadStart(k)), failure := None));
  }

  lemma UploadFinishIsSafe(i: Intent, r: Remote, d: Checkpoint, k: nat)
    requires Holding(i, r, d) && k < |i.blobs| && i.blobs[k] in d.uploads
    ensures WriteSafe(i, r, d, BlobUploadFinish(k))
  {
    HoldingStanding(i, r, d, d.(phase := Pending(BlobUploadFinish(k)), failure := None));
  }

  lemma ManifestIsSafe(i: Intent, r: Remote, d: Checkpoint, k: nat)
    requires Holding(i, r, d) && k < |i.manifests|
    ensures WriteSafe(i, r, d, ManifestPut(k))
  {
    HoldingStanding(i, r, d, d.(phase := Pending(ManifestPut(k)), failure := None));
  }

  lemma {:induction false} VersionSeedIsSafe(i: Intent, r: Remote, d: Checkpoint)
    requires Holding(i, r, d) && d.createProbe.Some? && d.createProbe.value.stage == SeedArmed
    requires d.createProbe.value.reference !in r.registry
    ensures WriteSafe(i, r, d, VersionProbeSeed)
    ensures Serve(i, d, r, VersionProbeSeed).reply == Some(ProbeStatus(201))
    ensures Serve(i, d, r, VersionProbeSeed).remote.DigestAt(d.createProbe.value.reference)
            == Some(ProbeManifest(CreateProbe, d.createProbe.value.token, Winner))
  {
    HoldingStanding(i, r, d, d.(phase := Pending(VersionProbeSeed), failure := None));
  }

  lemma VersionRejectIsSafe(i: Intent, r: Remote, d: Checkpoint)
    requires Holding(i, r, d) && d.createProbe.Some? && d.createProbe.value.stage == RejectArmed
    ensures WriteSafe(i, r, d, VersionProbeReject)
    ensures Serve(i, d, r, VersionProbeReject) == Served(r, Some(ProbeStatus(412)))
  {
    HoldingStanding(i, r, d, d.(phase := Pending(VersionProbeReject), failure := None));
  }

  lemma {:induction false} VersionCreateIsSafe(i: Intent, r: Remote, d: Checkpoint)
    requires Holding(i, r, d) && ProbeVerified(d.createProbe)
    ensures WriteSafe(i, r, d, VersionConditionalCreate)
    ensures Serve(i, d, r, VersionConditionalCreate).remote.DigestAt(VersionTag) == Some(i.image)
  {
    HoldingStanding(i, r, d, d.(phase := Pending(VersionConditionalCreate), failure := None));
  }

  lemma ReleaseIsSafe(i: Intent, r: Remote, d: Checkpoint)
    requires Holding(i, r, d) && r.release.None? && d.smoke.Some?
    ensures WriteSafe(i, r, d, ReleaseCreate)
    ensures Serve(i, d, r, ReleaseCreate).remote == r.(release := Some(i.release))
  {
    HoldingStanding(i, r, d, d.(phase := Pending(ReleaseCreate), failure := None));
  }

  lemma LatestSeedIsSafe(i: Intent, r: Remote, d: Checkpoint)
    requires Holding(i, r, d) && d.casProbe.Some? && d.casProbe.value.stage == SeedArmed
    requires d.casProbe.value.reference !in r.registry
    ensures WriteSafe(i, r, d, LatestProbeSeed)
    ensures Serve(i, d, r, LatestProbeSeed).reply == Some(ProbeStatus(201))
    ensures Serve(i, d, r, LatestProbeSeed).remote.DigestAt(d.casProbe.value.reference)
            == Some(ProbeManifest(CasProbe, d.casProbe.value.token, Prior))
  {
    HoldingStanding(i, r, d, d.(phase := Pending(LatestProbeSeed), failure := None));
  }

  lemma {:induction false} LatestCasIsSafe(i: Intent, r: Remote, d: Checkpoint)
    requires Holding(i, r, d) && d.casProbe.Some? && d.casProbe.value.stage == CasArmed
    requires r.DigestAt(d.casProbe.value.reference) == Some(ProbeManifest(CasProbe, d.casProbe.value.token, Prior))
    ensures WriteSafe(i, r, d, LatestProbeCas)
    ensures Serve(i, d, r, LatestProbeCas).reply == Some(ProbeStatus(201))
    ensures Serve(i, d, r, LatestProbeCas).remote.DigestAt(d.casProbe.value.reference)
            == Some(ProbeManifest(CasProbe, d.casProbe.value.token, Winner))
  {
    HoldingStanding(i, r, d, d.(phase := Pending(LatestProbeCas), failure := None));
  }

  lemma {:induction false} LatestStaleIsSafe(i: Intent, r: Remote, d: Checkpoint)
    requires Holding(i, r, d) && d.casProbe.Some? && d.casProbe.value.stage == StaleArmed
    ensures WriteSafe(i, r, d, LatestProbeStale)
    ensures Serve(i, d, r, LatestProbeStale) == Served(r, Some(ProbeStatus(412)))
  {
    HoldingStanding(i, r, d, d.(phase := Pending(LatestProbeStale), failure := None));
  }

  lemma {:induction false} LatestUpdateIsSafe(i: Intent, r: Remote, d: Checkpoint)
    requires Holding(i, r, d) && d.latestAttempted && r.DigestAt(Latest) == i.priorLatest
    ensures WriteSafe(i, r, d, LatestUpdate)
    ensures Serve(i, d, r, LatestUpdate).remote.DigestAt(Latest) == Some(i.image)
  {
    LatestPutUndisturbed(i, d, r);
    HoldingStanding(i, r, d, d.(phase := Pending(LatestUpdate), failure := None));
  }

  lemma {:induction false} RemoveIsSafe(i: Intent, r: Remote, d: Checkpoint)
    requires Holding(i, r, d) && Final(i, r.(lock := None))
    ensures WriteSafe(i, r, d, LockRefRemove)
    ensures Serve(i, d, r, LockRefRemove).remote == r.(lock := None)
  {
    HoldingStanding(i, r, d, d.(phase := Pending(LockRefRemove), failure := None));
  }

  lemma LockObjectIsSafe(i: Intent, r: Remote, d: Checkpoint)
    requires Identity(i, d) && Consistent(i, r, d) && !d.lockAcquired && r.lock.None?
    ensures WriteSafe(i, r, d, LockObjectCreate)
  {
    StandingConsistent(i, r, d, d.(phase := Pending(LockObjectCreate), failure := None));
  }

  lemma LockRefIsSafe(i: Intent, r: Remote, d: Checkpoint)
    requires Identity(i, d) && Consistent(i, r, d) && !d.lockAcquired && r.lock.None? && d.lockObject.Some?
    ensures WriteSafe(i, r, d, LockRefCreate)
    ensures Serve(i, d, r, LockRefCreate).remote == r.(lock := d.lockObject)
  {
    StandingConsistent(i, r, d, d.(phase := Pending(LockRefCreate), failure := None));
  }

  /** A write touches no registry reference but version, latest and the references of planned probes. */
  lemma ServeKeepsFresh(i: Intent, d: Checkpoint, r: Remote, op: Operation, kind: ProbeKind, token: string)
    requires ProbeBound(d.createProbe) && ProbeBound(d.casProbe) && WellFormed(d)
    requires ProbeRef(kind, token) !in r.registry
    requires if kind == CreateProbe then d.createProbe.None? else d.casProbe.None?
    ensures ProbeRef(kind, token) !in Serve(i, d, r, op).remote.registry
  {
  }

  // ---------------------------------------------------------------- probes

  function ProbeOf(d: Checkpoint, kind: ProbeKind): Option<Probe> {
    if kind == CreateProbe then d.createProbe else d.casProbe
  }

  function WithProbe(d: Checkpoint, kind: ProbeKind, p: Probe, phase: Phase): Checkpoint {
    if kind == CreateProbe then d.(createProbe := Some(p), phase := phase) else d.(casProbe := Some(p), phase := phase)
  }

  function PlannedProbe(kind: ProbeKind, token: string): Probe {
    Probe(kind, token, ProbeRef(kind, token), Planned, None, None, None)
  }

  /** The checkpoint with a probe planned, or moved to its next stage. */
  function WithPlan(d: Checkpoint, kind: ProbeKind, token: string): Checkpoint {
    WithProbe(d, kind, PlannedProbe(kind, token), ProbePlanned(kind))
  }

  function WithStage(d: Checkpoint, q: Probe): Checkpoint {
    WithProbe(d, q.kind, q, ProbeAt(q.kind, q.stage))
  }

  lemma PlanLawful(i: Intent, d: Checkpoint, kind: ProbeKind, token: string)
    requires Identity(i, d) && ProbeOf(d, kind).None?
    ensures var e := WithPlan(d, kind, token); Identity(i, e) && SameRun(d, e) && Transition(d, e)
  {
  }

  lemma PlanConsistent(i: Intent, r: Remote, d: Checkpoint, kind: ProbeKind, token: string)
    requires Holding(i, r, d) && ProbeOf(d, kind).None? && ProbeRef(kind, token) !in r.registry
    requires if kind == CreateProbe then r.tag.Some? && GraphComplete(i, r) else r.release.Some?
    ensures Consistent(i, r, WithPlan(d, kind, token))
  {
  }

  /** One admissible step of a probe that is not verified yet. */
  predicate ProbeStep(d: Checkpoint, q: Probe) {
    && ProbeOf(d, q.kind).Some?
    && ProbeOf(d, q.kind).value.stage != Verified
    && WellFormedProbe(Some(q), q.kind)
    && ProbeBound(Some(q))
    && ProbeTransition(ProbeOf(d, q.kind), Some(q), q.kind)
  }

  lemma {:induction false} StageLawful(i: Intent, d: Checkpoint, q: Probe)
    requires Identity(i, d) && ProbeStep(d, q)
    ensures var e := WithStage(d, q); Identity(i, e) && SameRun(d, e) && Transition(d, e)
  {
    var other := if q.kind == CreateProbe then CasProbe else CreateProbe;
    SameProbeTransition(i, d, other);
    hide ProbeTransition;
  }

  lemma SameProbeTransition(i: Intent, d: Checkpoint, kind: ProbeKind)
    requires Identity(i, d)
    ensures ProbeTransition(ProbeOf(d, kind), ProbeOf(d, kind), kind)
  {
  }

  lemma StageConsistent(i: Intent, r: Remote, d: Checkpoint, q: Probe)
    requires Holding(i, r, d) && ProbeStep(d, q) && ProbeTracks(Some(q), r)
    ensures Consistent(i, r, WithStage(d, q))
  {
  }

  /** The probe's stage decides which manifests its reference can hold. */
  lemma TrackedDigests(i: Intent, r: Remote, d: Checkpoint, kind: ProbeKind)
    requires Identity(i, d) && Consistent(i, r, d) && ProbeOf(d, kind).Some?
    ensures var p := ProbeOf(d, kind).value;
            && p.kind == kind
            && p.reference == ProbeRef(kind, p.token)
            && ProbeTracks(Some(p), r)
            && (p.reference in r.registry ==>
                  || r.registry[p.reference].digest == ProbeManifest(kind, p.token, Winner)
                  || (kind == CasProbe && r.registry[p.reference].digest == ProbeManifest(kind, p.token, Prior)))
  {
  }

  /** A probe request changes the registry at the probe's own reference only. */
  predicate OnlyProbeWritten(before: Remote, after: Remote) {
    && after == before.(registry := after.registry, nextEtag := after.nextEtag)
    && after.DigestAt(VersionTag) == before.DigestAt(VersionTag)
    && after.DigestAt(Latest) == before.DigestAt(Latest)
  }

  predicate IsProbeOperation(op: Operation) {
    op in {VersionProbeSeed, VersionProbeReject, LatestProbeSeed, LatestProbeCas, LatestProbeStale}
  }

  lemma ProbeWritesOnlyProbe(i: Intent, d: Checkpoint, r: Remote, op: Operation)
    requires ProbeBound(d.createProbe) && ProbeBound(d.casProbe) && IsProbeOperation(op)
    ensures OnlyProbeWritten(r, Serve(i, d, r, op).remote)
  {
  }

  // ---------------------------------------------------------------- steps of the checkpoint that are not writes

  lemma VersionPresent(i: Intent, r: Remote, d: Checkpoint)
    requires Consistent(i, r, d) && VersionTag in r.registry
    ensures ProbeVerified(d.createProbe) && r.DigestAt(VersionTag) == Some(i.image)
  {
  }

  function WithSmoke(i: Intent, d: Checkpoint): Checkpoint {
    d.(smoke := Some(i.smoke), phase := SmokeVerified)
  }

  lemma SmokeLawful(i: Intent, d: Checkpoint)
    requires Identity(i, d)
    ensures var e := WithSmoke(i, d); Identity(i, e) && SameRun(d, e) && Transition(d, e)
  {
  }

  lemma SmokeConsistent(i: Intent, r: Remote, d: Checkpoint)
    requires Holding(i, r, d) && VersionTag in r.registry
    ensures Consistent(i, r, WithSmoke(i, d))
  {
  }

  function WithLatestArmed(d: Checkpoint): Checkpoint {
    d.(latestAttempted := true, phase := LatestArmed)
  }

  lemma ArmLawful(i: Intent, d: Checkpoint)
    requires Identity(i, d) && Evidence(d)
    ensures var e := WithLatestArmed(d); Identity(i, e) && SameRun(d, e) && Transition(d, e)
  {
  }

  lemma ArmConsistent(i: Intent, r: Remote, d: Checkpoint)
    requires Holding(i, r, d)
    ensures Consistent(i, r, WithLatestArmed(d))
  {
  }

  /** Once latest holds the image and the release exists, only the lock is left. */
  lemma OnlyLockLeft(i: Intent, r: Remote, d: Checkpoint)
    requires Consistent(i, r, d) && r.release.Some? && r.DigestAt(Latest) == Some(i.image)
    ensures Final(i, r.(lock := None))
  {
  }

  function WithLockObject(d: Checkpoint): Checkpoint {
    d.(lockObject := Some(TagOf(d.lockDocument)))
  }

  lemma LockObjectLawful(i: Intent, r: Remote, d: Checkpoint)
    requires Identity(i, d) && d.lockObject.None?
    ensures var e := WithLockObject(d); Identity(i, e) && SameRun(d, e) && Transition(d, e)
    ensures Consistent(i, r, d) ==> Consistent(i, r, WithLockObject(d))
  {
  }

  function WithLock(d: Checkpoint, phase: Phase): Checkpoint {
    d.(lockAcquired := true, phase := phase, failure := None)
  }

  lemma AcquiredLawful(i: Intent, d: Checkpoint, phase: Phase)
    requires Identity(i, d) && d.lockObject.Some? && !d.lockAcquired
    requires phase == LockReconciled || phase == Written(LockRefCreate)
    ensures var e := WithLock(d, phase); Identity(i, e) && SameRun(d, e) && Transition(d, e)
  {
  }

  lemma AcquiredConsistent(i: Intent, r: Remote, d: Checkpoint, phase: Phase)
    requires Identity(i, d) && Consistent(i, r, d) && d.lockObject.Some? && r.lock == d.lockObject
    requires !d.lockAcquired
    ensures Consistent(i, r, WithLock(d, phase))
  {
  }

  function WithCompletion(d: Checkpoint): Checkpoint {
    d.(lockRemoved := true, phase := Complete, failure := None)
  }

  lemma CompletionLawful(i: Intent, d: Checkpoint)
    requires Identity(i, d) && Removable(d)
    ensures var e := WithCompletion(d); Identity(i, e) && SameRun(d, e) && Transition(d, e)
  {
  }

  lemma CompletionConsistent(i: Intent, r: Remote, d: Checkpoint)
    requires Consistent(i, r, d) && d.lockAcquired && Final(i, r)
    ensures Consistent(i, r, WithCompletion(d))
  {
  }

  /** The first checkpoint of a run. */
  function FirstCheckpoint(i: Intent, baseline: seq<nat>, runToken: string): Checkpoint {
    Checkpoint(i.id, runToken, baseline, LockDocument(i.id, baseline, runToken), Prepared, None, false, false, [], None,
      None, None, false, map[], None)
  }

  lemma FirstLawful(i: Intent, r: Remote, runToken: string)
    ensures var d := FirstCheckpoint(i, r.actions, runToken); Identity(i, d) && Initial(d)
    ensures TagsIssued(r) && Pristine(i, r) && r.lock.None? ==>
              Consistent(i, r, FirstCheckpoint(i, r.actions, runToken))
  {
  }

  /** Where a recovery finds the lock, alone with the remote. */
  lemma {:induction false} LockStanding(i: Intent, r: Remote, d: Checkpoint)
    requires Identity(i, d) && Consistent(i, r, d)
    ensures d.lockRemoved ==> Final(i, r)
    ensures d.lockAcquired && r.lock.None? ==> Final(i, r) && (d.lockRemoved || InFlight(d.phase, LockRefRemove))
    ensures d.lockAcquired && r.lock.Some? ==> r.lock == d.lockObject && !d.lockRemoved
    ensures !d.lockAcquired && r.lock.Some? ==> r.lock == d.lockObject && InFlight(d.phase, LockRefCreate)
    ensures !d.lockAcquired ==> !d.latestAttempted
  {
  }
}
