/** Results that may be missing, refused or cut short by a crash. */
module Outcomes {

  datatype Option<+T> = None | Some(value: T) {
    predicate IsFailure() { None? }
    function PropagateFailure<U>(): Option<U>
      requires IsFailure()
    {
      None
    }
    function Extract(): T
      requires Some?
    {
      value
    }
  }

  /** A step finished, was refused with a reason, or its process died in it. */
  datatype Outcome<+T, +E> = Done(value: T) | Blocked(reason: E) | Crashed {
    predicate IsFailure() { !Done? }
    function PropagateFailure<U>(): Outcome<U, E>
      requires IsFailure()
    {
      if Crashed? then Crashed else Blocked(reason)
    }
    function Extract(): T
      requires Done?
    {
      value
    }
  }
}

/** The publication checkpoint and the rules by which one recorded checkpoint may follow another. */
module Checkpoints {
  import opened Outcomes

  /** Registry entity tags, identified by number. */
  type Etag = nat

  /** Hashes and object ids are taken to be injective: each is built from what it identifies. */
  datatype LockDocument = LockDocument(intent: string, actionsBaseline: seq<nat>, runToken: string)
  datatype ObjectSha = TagOf(message: LockDocument)
  datatype Reference = VersionTag | Latest | ProbeRef(kind: ProbeKind, token: string)
  datatype Verification =
    VerificationOf(kind: ProbeKind, token: string, priorEtag: Option<Etag>, winnerEtag: Option<Etag>)

  /** The public operations the publisher may arm, in the order it arms them. */
  datatype Operation =
    | LockObjectCreate
    | LockRefCreate
    | MainFastForward
    | VersionTagObjectCreate
    | VersionTagRefCreate
    | BlobUploadStart(index: nat)
    | BlobUploadFinish(index: nat)
    | ManifestPut(index: nat)
    | VersionProbeSeed
    | VersionProbeReject
    | VersionConditionalCreate
    | ReleaseCreate
    | LatestProbeSeed
    | LatestProbeCas
    | LatestProbeStale
    | LatestUpdate
    | LockRefRemove

  datatype Phase =
    | Prepared
    | Pending(operation: Operation)
    | BlockedBeforeWrite(operation: Operation)
    | Ambiguous(operation: Operation)
    | Written(operation: Operation)
    | LockReconciled
    | ProbePlanned(kind: ProbeKind)
    | ProbeAt(kind: ProbeKind, stage: ProbeStage)
    | SmokeVerified
    | LatestArmed
    | LatestUnresolved
    | Complete

  datatype Failure = ActionsChanged | PreconditionFailed | ResponseAmbiguous | LatestOutcomeUnresolved

  datatype ProbeKind = CreateProbe | CasProbe

  datatype ProbeStage = Planned | SeedArmed | RejectArmed | CasArmed | StaleArmed | Verified

  datatype Probe = Probe(
    kind: ProbeKind,
    token: string,
    reference: Reference,
    stage: ProbeStage,
    priorEtag: Option<Etag>,
    winnerEtag: Option<Etag>,
    verification: Option<Verification>)

  datatype Checkpoint = Checkpoint(
    intent: string,
    runToken: string,
    actionsBaseline: seq<nat>,
    lockDocument: LockDocument,
    phase: Phase,
    lockObject: Option<ObjectSha>,
    lockAcquired: bool,
    lockRemoved: bool,
    completed: seq<Operation>,
    smoke: Option<string>,
    createProbe: Option<Probe>,
    casProbe: Option<Probe>,
    latestAttempted: bool,
    uploads: map<string, nat>,
    failure: Option<Failure>)

  /** Position of a stage on its kind's ladder, or None when the ladder lacks that stage. */
  function Rung(kind: ProbeKind, stage: ProbeStage): Option<nat> {
    match (kind, stage)
    case (_, Planned) => Some(0)
    case (_, SeedArmed) => Some(1)
    case (CreateProbe, RejectArmed) => Some(2)
    case (CreateProbe, Verified) => Some(3)
    case (CasProbe, CasArmed) => Some(2)
    case (CasProbe, StaleArmed) => Some(3)
    case (CasProbe, Verified) => Some(4)
    case (_, _) => None
  }

  /** Stages at which the winner's entity tag must be on record. */
  predicate WinnerKnown(kind: ProbeKind, stage: ProbeStage) {
    stage == Verified || (kind == CreateProbe && stage == RejectArmed) || (kind == CasProbe && stage == StaleArmed)
  }

  /** Stages of a compare-and-set probe at which the prior entity tag must be on record. */
  predicate PriorKnown(stage: ProbeStage) {
    stage == CasArmed || stage == StaleArmed || stage == Verified
  }

  /** What the receipt decoder demands of a stored probe. */
  predicate WellFormedProbe(probe: Option<Probe>, kind: ProbeKind) {
    probe.Some? ==>
      && probe.value.kind == kind
      && Rung(kind, probe.value.stage).Some?
      && (kind == CreateProbe ==> probe.value.priorEtag.None?)
      && (kind == CasProbe ==> (PriorKnown(probe.value.stage) <==> probe.value.priorEtag.Some?))
      && (probe.value.stage == Verified <==> probe.value.verification.Some?)
      && (WinnerKnown(kind, probe.value.stage) <==> probe.value.winnerEtag.Some?)
  }

  predicate WellFormed(c: Checkpoint) {
    WellFormedProbe(c.createProbe, CreateProbe) && WellFormedProbe(c.casProbe, CasProbe)
  }

  /** A value that was set stays what it was. */
  predicate Kept<T(==)>(before: Option<T>, after: Option<T>) {
    before.Some? ==> after == before
  }

  predicate ProbeTransition(before: Option<Probe>, after: Option<Probe>, kind: ProbeKind) {
    if before.None? then
      after.Some? ==> after.value.stage == Planned
    else
      && after.Some?
      && before.value.kind == after.value.kind == kind
      && before.value.token == after.value.token
      && before.value.reference == after.value.reference
      && Rung(kind, before.value.stage).Some?
      && Rung(kind, after.value.stage).Some?
      && (var low := Rung(kind, before.value.stage).value;
          var high := Rung(kind, after.value.stage).value;
          && (high == low || high == low + 1)
          && Kept(before.value.priorEtag, after.value.priorEtag)
          && Kept(before.value.verification, after.value.verification)
          && Kept(before.value.winnerEtag, after.value.winnerEtag)
          && (kind == CasProbe && before.value.priorEtag.None? && after.value.priorEtag.Some? ==>
                before.value.stage == SeedArmed && after.value.stage == CasArmed)
          && (before.value.winnerEtag.None? && after.value.winnerEtag.Some? ==>
                && high == low + 1
                && ((kind == CreateProbe && before.value.stage == SeedArmed && after.value.stage == RejectArmed)
                    || (kind == CasProbe && before.value.stage == CasArmed && after.value.stage == StaleArmed))))
  }

  /** The first receipt must precede every public mutation. */
  predicate Initial(c: Checkpoint) {
    && c.phase == Prepared
    && c.lockObject.None?
    && !c.lockAcquired
    && !c.lockRemoved
    && c.completed == []
    && c.smoke.None?
    && c.createProbe.None?
    && c.casProbe.None?
    && !c.latestAttempted
    && c.uploads == map[]
    && c.failure.None?
  }

  predicate SameRun(a: Checkpoint, b: Checkpoint) {
    && a.intent == b.intent
    && a.runToken == b.runToken
    && a.lockDocument == b.lockDocument
    && a.actionsBaseline == b.actionsBaseline
  }

  predicate Transition(before: Checkpoint, after: Checkpoint) {
    && ProbeTransition(before.createProbe, after.createProbe, CreateProbe)
    && ProbeTransition(before.casProbe, after.casProbe, CasProbe)
    && Kept(before.smoke, after.smoke)
    && Kept(before.lockObject, after.lockObject)
    && (before.lockAcquired ==> after.lockAcquired)
    && (before.lockRemoved ==> after.lockRemoved)
    && (before.latestAttempted ==> after.latestAttempted)
    && before.completed <= after.completed
    && (forall digest :: digest in before.uploads ==>
                           digest in after.uploads && after.uploads[digest] == before.uploads[digest])
    && (after.lockRemoved ==> after.lockAcquired)
    && (after.lockAcquired ==> after.lockObject.Some?)
  }

  /** What the journal accepts after the receipts already on record. */
  predicate Accepts(history: seq<Checkpoint>, next: Checkpoint) {
    if history == [] then Initial(next)
    else SameRun(history[|history| - 1], next) && Transition(history[|history| - 1], next)
  }

  /** A probe never loses its identity, its rung or a recorded value. */
  ghost predicate ProbeAdvances(before: Option<Probe>, after: Option<Probe>, kind: ProbeKind) {
    before.Some? ==>
      && after.Some?
      && after.value.token == before.value.token
      && after.value.reference == before.value.reference
      && Kept(before.value.priorEtag, after.value.priorEtag)
      && Kept(before.value.winnerEtag, after.value.winnerEtag)
      && Kept(before.value.verification, after.value.verification)
      && Rung(kind, before.value.stage).Some?
      && Rung(kind, after.value.stage).Some?
      && Rung(kind, before.value.stage).value <= Rung(kind, after.value.stage).value
  }

  /** Everything a later receipt of a run keeps from an earlier one. */
  ghost predicate Advances(before: Checkpoint, after: Checkpoint) {
    && SameRun(before, after)
    && (before.lockAcquired ==> after.lockAcquired)
    && (before.lockRemoved ==> after.lockRemoved)
    && (before.latestAttempted ==> after.latestAttempted)
    && before.completed <= after.completed
    && Kept(before.smoke, after.smoke)
    && Kept(before.lockObject, after.lockObject)
    && before.uploads.Keys <= after.uploads.Keys
    && (forall digest :: digest in before.uploads ==> after.uploads[digest] == before.uploads[digest])
    && ProbeAdvances(before.createProbe, after.createProbe, CreateProbe)
    && ProbeAdvances(before.casProbe, after.casProbe, CasProbe)
  }

  /** A run as the journal admits it: every checkpoint was accepted after the ones before it. */
  ghost predicate AcceptedRun(run: seq<Checkpoint>) {
    forall i :: 0 <= i < |run| ==> WellFormed(run[i]) && Accepts(run[..i], run[i])
  }

  lemma AdvancesTransitive(a: Checkpoint, b: Checkpoint, c: Checkpoint)
    requires Advances(a, b) && Advances(b, c)
    ensures Advances(a, c)
  {
  }

  lemma AcceptedStep(run: seq<Checkpoint>, k: nat)
    requires AcceptedRun(run) && 0 < k < |run|
    ensures Advances(run[k - 1], run[k])
  {
    assert Accepts(run[..k], run[k]);
    assert run[..k][k - 1] == run[k - 1];
    assert WellFormed(run[k - 1]) && WellFormed(run[k]);
  }

  /** Any two receipts of one journal, however far apart, are ordered. */
  lemma {:induction false} RunAdvances(run: seq<Checkpoint>, i: nat, j: nat)
    requires AcceptedRun(run)
    requires i <= j < |run|
    ensures Advances(run[i], run[j])
    decreases j
  {
    if i < j {
      RunAdvances(run, i, j - 1);
      AcceptedStep(run, j);
      AdvancesTransitive(run[i], run[j - 1], run[j]);
    } else {
      assert WellFormed(run[i]);
    }
  }
}
