/** The restartable publisher: write-ahead receipts, one remote lock, and an ordered ladder of public writes. */
module Publisher {
  import opened Outcomes
  import opened Checkpoints
  import opened Remotes
  import opened Publication

  datatype BlockCode =
    | ActionsRunSetChanged
    | ActionsBaselineUnstable
    | RequestFailed
    | LockNotHeld
    | LockMissingOrReplaced
    | LockPreexisting
    | LockReplacedDuringAcquisition
    | RemovedLockReappeared
    | LockMissingBeforeCompletion
    | RemovalUnverified
    | ForeignComponent
    | UnownedPartialPublication
    | RecoveryMismatch
    | WriteAmbiguous
    | ReplyInvalid
    | NotExact
    | ProbeInvalid
    | ProbeUnowned
    | EvidenceMissing
    | SmokeMismatch
    | LatestChanged
    | LatestUnresolvedOutcome
    | FinalStateNotExact

  type Publishing<+T> = Outcome<T, BlockCode>

  /** Who else may change the remote between two of our requests. */
  datatype Policy = Alone | OtherPublishers | Anyone

  /** How one request (or one receipt append) fares. */
  datatype Fault = Works | Refused | LostReply | Dies

  /** Before each request an optional foreign change; then the request's own fate, and what a smoke run saw. */
  datatype Tick = Tick(foreign: Option<Remote>, fault: Fault, smoked: Option<string>)

  /** One served public write. */
  datatype Effect = Effect(op: Operation, before: Remote, after: Remote)

  /**
   What was seen so far: the public state as last read, how often the lock was found to be ours and a probe's winner
   to be in place, and the sets of hosted runs that were listed.
   */
  datatype Audit = Audit(state: Option<Remote>, locks: nat, winners: nat, runs: seq<seq<nat>>)

  /** How the next request of a script fares. */
  function Next(script: seq<Tick>): Fault { if script == [] then Works else script[0].fault }

  /** What is left of a script after so many requests. */
  function Rest(script: seq<Tick>, n: nat): seq<Tick> { if n <= |script| then script[n..] else [] }

  /** A dead process does not go on, and a request without a good reply is not taken for one. */
  predicate Fared<T(==)>(f: Fault, o: Publishing<T>) {
    (f == Dies ==> o.Crashed?) && (f == Refused || f == LostReply ==> o == Blocked(RequestFailed))
  }

  /** Other publishers create the lock only where there is none and remove only their own. */
  predicate LockRespected(before: Remote, after: Remote, mine: ObjectSha) {
    before.lock == Some(mine) <==> after.lock == Some(mine)
  }

  ghost predicate Permitted(policy: Policy, before: Remote, after: Remote, mine: ObjectSha) {
    && policy != Alone
    && TagsFresh(before, after)
    && (policy == OtherPublishers ==> LockRespected(before, after, mine))
  }

  /** update_latest is called at most once, and the lock is never created again once its removal was called. */
  ghost predicate IssuedOnce(issued: seq<Operation>) {
    && (forall m, n :: 0 <= m < n < |issued| && issued[m] == LatestUpdate ==> issued[n] != LatestUpdate)
    && (forall m, n :: 0 <= m < n < |issued| && issued[m] == LockRefRemove ==> issued[n] != LockRefCreate)
  }

  /** The lock is never created again after a served removal, and what was served had been called. */
  ghost predicate ServedInOrder(effects: seq<Effect>, issued: seq<Operation>) {
    && (forall e :: e in effects ==> e.op in issued)
    && LockNotRetaken(effects)
  }

  ghost predicate LockNotRetaken(effects: seq<Effect>) {
    forall m, n :: 0 <= m < n < |effects| && effects[m].op == LockRefRemove ==> effects[n].op != LockRefCreate
  }

  lemma ServeInOrder(effects: seq<Effect>, issued: seq<Operation>, e: Effect)
    requires ServedInOrder(effects, issued) && e.op in issued
    requires e.op == LockRefCreate ==> LockRefRemove !in issued
    ensures ServedInOrder(effects + [e], issued)
  {
    if e.op == LockRefCreate {
      forall m | 0 <= m < |effects| ensures effects[m].op != LockRefRemove {
        assert effects[m] in effects;
      }
    }
  }

  /** latest is only moved from exactly the prior digest, the lock only as its owner may; entity tags are new. */
  ghost predicate EffectLawful(i: Intent, mine: ObjectSha, e: Effect) {
    && TagsFresh(e.before, e.after)
    && (e.op == LatestUpdate ==>
          e.after == e.before
          || (e.before.DigestAt(Latest) == i.priorLatest && e.after == e.before.Put(Latest, i.image)))
    && (e.after.lock != e.before.lock ==>
          || (e.op == LockRefCreate && e.before.lock.None? && e.after.lock == Some(mine))
          || (e.op == LockRefRemove && e.before.lock == Some(mine) && e.after.lock.None?))
  }

  /** Every write except the lock's own is served while this publisher holds the lock. */
  ghost predicate EffectGuarded(mine: ObjectSha, e: Effect) {
    IsLockOperation(e.op) || e.before.lock == Some(mine)
  }

  lemma LawfulTags(i: Intent, mine: ObjectSha, e: Effect)
    requires EffectLawful(i, mine, e)
    ensures TagsIssued(e.after)
  {
  }

  /** One more write was served, and this was the reply to it. */
  ghost predicate Answered(i: Intent, c: Checkpoint, op: Operation, reply: Reply, was: seq<Effect>, now: seq<Effect>) {
    && |now| == |was| + 1 && was == now[..|was|] && now[|was|].op == op
    && if op == LatestUpdate then now[|was|].after.DigestAt(Latest) == Some(i.image)
       else Serve(i, c, now[|was|].before, op) == Served(now[|was|].after, Some(reply))
  }

  lemma AnsweredStanding(i: Intent, c: Checkpoint, d: Checkpoint, op: Operation, reply: Reply, was: seq<Effect>,
      now: seq<Effect>)
    requires Answered(i, c, op, reply, was, now) && SameStanding(d, c)
    ensures Answered(i, d, op, reply, was, now)
  {
    ServeIgnoresStanding(i, d, c, now[|was|].before, op);
  }

  lemma AnsweredOnce(i: Intent, c: Checkpoint, op: Operation, reply: Reply, was: seq<Effect>, e: Effect)
    requires e.op == op
    requires if op == LatestUpdate then e.after.DigestAt(Latest) == Some(i.image)
             else Serve(i, c, e.before, op) == Served(e.after, Some(reply))
    ensures Answered(i, c, op, reply, was, was + [e])
  {
    hide Serve;
  }

  lemma LatestAnswered(i: Intent, r: Remote, observed: Option<Etag>)
    ensures var served := ServeLatestPut(i, r, observed);
            served.reply.Some? ==> served.remote.DigestAt(Latest) == Some(i.image)
  {
  }

  /** A create of the losing manifest was refused where the reference was taken, and changed nothing. */
  predicate CreateRefused(e: Effect, p: Probe) {
    e.op == VersionProbeReject && e.after == e.before && p.reference in e.before.registry
  }

  /** A swap under the old entity tag was refused once another stood there, and changed nothing. */
  predicate SwapRefused(e: Effect, p: Probe) {
    e.op == LatestProbeStale && e.after == e.before && e.before.EtagAt(p.reference) != p.priorEtag
  }

  predicate LoserRefused(kind: ProbeKind, e: Effect, p: Probe) {
    if kind == CreateProbe then CreateRefused(e, p) else SwapRefused(e, p)
  }

  ghost predicate LoserWasRefused(kind: ProbeKind, effects: seq<Effect>, probe: Option<Probe>) {
    ProbeVerified(probe) ==> exists k :: 0 <= k < |effects| && LoserRefused(kind, effects[k], probe.value)
  }

  /** The evidence in a checkpoint is of what happened: a pull that ran the image, and losing writes refused. */
  ghost predicate Backed(i: Intent, pulls: seq<string>, effects: seq<Effect>, c: Checkpoint) {
    && (c.smoke.Some? ==> i.smoke in pulls)
    && LoserWasRefused(CreateProbe, effects, c.createProbe)
    && LoserWasRefused(CasProbe, effects, c.casProbe)
  }

  lemma BackedStill(i: Intent, pulls: seq<string>, effects: seq<Effect>, c: Checkpoint, e: Effect)
    requires Backed(i, pulls, effects, c)
    ensures Backed(i, pulls, effects + [e], c)
  {
    var now := effects + [e];
    if ProbeVerified(c.createProbe) {
      var k :| 0 <= k < |effects| && LoserRefused(CreateProbe, effects[k], c.createProbe.value);
      assert now[k] == effects[k];
    }
    if ProbeVerified(c.casProbe) {
      var k :| 0 <= k < |effects| && LoserRefused(CasProbe, effects[k], c.casProbe.value);
      assert now[k] == effects[k];
    }
  }

  /** The evidence of two checkpoints is the same, apart from probes that are not verified. */
  predicate SameEvidence(d: Checkpoint, e: Checkpoint) {
    && (e.smoke.Some? ==> d.smoke.Some?)
    && (ProbeVerified(e.createProbe) ==> e.createProbe == d.createProbe)
    && (ProbeVerified(e.casProbe) ==> e.casProbe == d.casProbe)
  }

  lemma BackedSame(i: Intent, pulls: seq<string>, effects: seq<Effect>, d: Checkpoint, e: Checkpoint)
    requires Backed(i, pulls, effects, d) && SameEvidence(d, e)
    ensures Backed(i, pulls, effects, e)
  {
  }

  /** A losing probe write answered with 412 was refused. */
  lemma RefusedAnswer(i: Intent, c: Checkpoint, kind: ProbeKind, was: seq<Effect>, now: seq<Effect>)
    requires Answered(i, c, if kind == CreateProbe then VersionProbeReject else LatestProbeStale, ProbeStatus(412),
                      was, now)
    requires ProbeOf(c, kind).Some?
    ensures |now| == |was| + 1 && LoserRefused(kind, now[|was|], ProbeOf(c, kind).value)
  {
  }

  lemma IssueOnce(issued: seq<Operation>, op: Operation)
    requires IssuedOnce(issued)
    requires op == LatestUpdate ==> LatestUpdate !in issued
    requires op == LockRefCreate ==> LockRefRemove !in issued
    ensures IssuedOnce(issued + [op])
  {
  }

  lemma ServedLawful(i: Intent, c: Checkpoint, r: Remote, op: Operation, mine: ObjectSha, policy: Policy)
    requires TagsIssued(r) && op != LatestUpdate
    requires c.lockObject.Some? ==> c.lockObject == Some(mine)
    requires policy != Anyone && !IsLockOperation(op) ==> r.lock == Some(mine)
    ensures var after := Serve(i, c, r, op).remote;
            && TagsIssued(after)
            && EffectLawful(i, mine, Effect(op, r, after))
            && (policy != Anyone ==> EffectGuarded(mine, Effect(op, r, after)))
            && (!IsLockOperation(op) ==> after.lock == r.lock)
            && (op == LockObjectCreate ==> Serve(i, c, r, op).reply == Some(LockObjectCreated(TagOf(c.lockDocument))))
  {
    LockChanges(i, c, r, op);
    ServeTagsFresh(i, c, r, op);
    hide Serve;
  }

  lemma LatestElsewhere(i: Intent, c: Checkpoint, r: Remote)
    requires r.DigestAt(Latest) != i.priorLatest
    ensures Serve(i, c, r, LatestUpdate) == Served(r, None)
  {
  }

  lemma LatestPutLawful(i: Intent, mine: ObjectSha, before: Remote, after: Remote)
    requires after == before || (before.DigestAt(Latest) == i.priorLatest && after == before.Put(Latest, i.image))
    requires TagsIssued(before)
    ensures EffectLawful(i, mine, Effect(LatestUpdate, before, after)) && TagsIssued(after) && after.lock == before.lock
    ensures before.lock == Some(mine) ==> EffectGuarded(mine, Effect(LatestUpdate, before, after))
  {
  }

  lemma RecordExtends(run: seq<Checkpoint>, c: Checkpoint)
    requires AcceptedRun(run) && WellFormed(c) && Accepts(run, c)
    ensures AcceptedRun(run + [c])
  {
    forall k | 0 <= k < |run + [c]| ensures WellFormed((run + [c])[k]) && Accepts((run + [c])[..k], (run + [c])[k]) {
      assert (run + [c])[..k] == run[..k];
      assert run[..|run|] == run;
    }
  }

  lemma UploadFinishes(i: Intent, r: Remote, c: Checkpoint, k: nat)
    requires WriteSafe(i, r, c, BlobUploadFinish(k)) && k < |i.blobs|
    ensures Serve(i, c, r, BlobUploadFinish(k)).remote == r.(blobs := r.blobs + {i.blobs[k]})
  {
    hide Consistent;
  }

  lemma ProbeStepKnown(d: Checkpoint, q: Probe)
    requires ProbeStep(d, q)
    ensures ProbeOf(d, q.kind).Some?
  {
  }

  lemma ProbeStepRemoved(d: Checkpoint, q: Probe)
    ensures WithStage(d, q).lockRemoved == d.lockRemoved
  {
  }

  function VerifiedProbe(p: Probe): Probe {
    p.(stage := Verified, verification := Some(VerificationOf(p.kind, p.token, p.priorEtag, p.winnerEtag)))
  }

  lemma MainMoves(i: Intent, r: Remote, c: Checkpoint)
    requires Components(i, r)
    ensures Serve(i, c, r, MainFastForward).remote == r.(main := i.releaseCommit)
    ensures r.main == i.priorMain || r.main == i.releaseCommit
  {
  }

  /** What a registry read of one reference returns. */
  function Seen(r: Remote, ref: Reference): Option<Tagged> {
    if ref in r.registry then Some(r.registry[ref]) else None
  }

  /** One probe moved; the rest of the checkpoint is the same but for its narrative. */
  predicate ProbeMoved(kind: ProbeKind, before: Checkpoint, after: Checkpoint) {
    var same := before.(phase := after.phase, failure := after.failure, completed := after.completed);
    && ProbeOf(after, kind).Some?
    && after == (if kind == CreateProbe then same.(createProbe := after.createProbe)
                 else same.(casProbe := after.casProbe))
  }

  /** Blobs and manifests were only added; nothing else moved. */
  predicate ContentAdded(before: Remote, after: Remote) {
    && before.blobs <= after.blobs
    && before.manifests <= after.manifests
    && after == before.(blobs := after.blobs, manifests := after.manifests, nextUpload := after.nextUpload)
  }

  /** The checkpoint gained upload locations and narrative only. */
  predicate UploadsAdded(before: Checkpoint, after: Checkpoint) {
    after == before.(phase := after.phase, failure := after.failure, completed := after.completed,
      uploads := after.uploads)
  }

  lemma UploadRecorded(i: Intent, d: Checkpoint, digest: string, url: nat)
    requires Identity(i, d) && digest !in d.uploads
    ensures var e := d.(uploads := d.uploads[digest := url]); Identity(i, e) && SameRun(d, e) && Transition(d, e)
  {
  }

  lemma UploadConsistent(i: Intent, r: Remote, d: Checkpoint, digest: string, url: nat)
    requires Consistent(i, r, d) && url < r.nextUpload
    ensures Consistent(i, r, d.(uploads := d.uploads[digest := url]))
  {
  }

  class Task12Publisher {
    const intent: Intent
    const policy: Policy
    var remote: Remote
    /** The durable receipts, as the journal holds them. */
    var journal: seq<Checkpoint>
    /** The checkpoint in memory. */
    var cp: Checkpoint
    var script: seq<Tick>
    /** The probe tokens this process would draw. */
    var createToken: string
    var casToken: string
    /** Every public write this journal's processes ever called. */
    var issued: seq<Operation>
    /** Every public write a server ever served for them. */
    var effects: seq<Effect>
    /** What every anonymous pull that worked ran. */
    var pulls: seq<string>
    /** What the checks of this journal's processes saw. */
    var audit: Audit

    function Last(): Checkpoint
      requires journal != []
      reads this`journal
    {
      journal[|journal| - 1]
    }

    ghost function Mine(): ObjectSha
      requires journal != []
      reads this`journal
    {
      TagOf(Last().lockDocument)
    }

    ghost predicate History()
      reads this`journal, this`issued, this`effects, this`pulls
    {
      && AcceptedRun(journal)
      && (journal == [] ==> issued == [] && effects == [])
      && (journal != [] ==> Identity(intent, Last()) && Backed(intent, pulls, effects, Last()))
    }

    ghost predicate CallsLawful()
      reads this`journal, this`issued, this`effects
    {
      && IssuedOnce(issued)
      && ServedInOrder(effects, issued)
      && (LatestUpdate in issued ==> journal != [] && Last().latestAttempted)
      && (LockRefRemove in issued ==> journal != [] && Last().lockAcquired)
    }

    ghost predicate EffectsLawful()
      reads this`journal, this`effects
    {
      forall e :: e in effects ==>
        && journal != []
        && EffectLawful(intent, Mine(), e)
        && (policy != Anyone ==> EffectGuarded(Mine(), e))
    }

    /** What holds at every moment, even between a write and its receipt. */
    ghost predicate Lawful()
      reads this`remote, this`journal, this`issued, this`effects, this`pulls
    {
      && intent.Valid()
      && TagsIssued(remote)
      && History()
      && CallsLawful()
      && EffectsLawful()
    }

    /** What holds after every step of every run, whoever else writes. */
    ghost predicate Safe()
      reads this`remote, this`journal, this`issued, this`effects, this`pulls
    {
      && Lawful()
      && (policy.Alone? && journal != [] ==> Consistent(intent, remote, Last()))
    }

    /** A process that has recorded all it knows and holds the lock. */
    ghost predicate Running()
      reads this`remote, this`journal, this`cp, this`createToken, this`casToken, this`issued, this`effects, this`pulls
      ensures Running() ==> Safe() && journal != [] && cp == Last() && cp.lockAcquired && !cp.lockRemoved
    {
      && Safe()
      && journal != []
      && cp == Last()
      && cp.lockAcquired
      && !cp.lockRemoved
      && (policy != Anyone ==> remote.lock == Some(Mine()))
      && (policy.Alone? ==> TokensUnused(cp))
    }

    /** A token drawn for a probe that is not planned yet has never been used. */
    predicate TokensUnused(c: Checkpoint)
      reads this`remote, this`createToken, this`casToken
    {
      && (c.createProbe.None? ==> ProbeRef(CreateProbe, createToken) !in remote.registry)
      && (c.casProbe.None? ==> ProbeRef(CasProbe, casToken) !in remote.registry)
    }

    // ------------------------------------------------------------ requests and receipts

    /** Alone, nothing moved; beside other publishers, at least our lock stayed. */
    twostate predicate Undisturbed()
      reads this`remote, this`journal
    {
      && (policy.Alone? ==> remote == old(remote))
      && (policy != Anyone && journal != [] && old(remote).lock == Some(Mine()) ==> remote.lock == Some(Mine()))
    }

    /** Whether a scripted foreign change is one the policy lets happen. */
    predicate Allowed(after: Remote)
      reads this`remote, this`journal
      ensures Allowed(after) ==> policy != Alone && TagsFresh(remote, after)
      ensures Allowed(after) && journal != [] ==> Permitted(policy, remote, after, Mine())
    {
      && policy != Alone
      && remote.nextEtag <= after.nextEtag
      && (forall ref :: ref in after.registry ==> after.registry[ref].etag < after.nextEtag)
      && (forall ref :: ref in after.registry && after.registry[ref].etag < remote.nextEtag ==>
            ref in remote.registry && remote.registry[ref] == after.registry[ref])
      && (policy == OtherPublishers && journal != [] ==>
            LockRespected(remote, after, TagOf(journal[|journal| - 1].lockDocument)))
    }

    /** A request reaches the server: others may have changed the remote first. */
    method Reach() returns (f: Fault)
      requires Safe()
      modifies this`remote, this`script
      ensures Safe() && Undisturbed() && TagsFresh(old(remote), remote)
      ensures old(script) == [] ==> script == [] && f == Works
      ensures old(script) != [] ==> script == old(script)[1..] && f == old(script)[0].fault
      ensures remote == if old(script != [] && script[0].foreign.Some? && Allowed(script[0].foreign.value))
                        then old(script)[0].foreign.value else old(remote)
      ensures f == Next(old(script)) && script == Rest(old(script), 1)
    {
      hide Identity, Consistent, IssuedOnce, ServedInOrder, EffectLawful, EffectGuarded, AcceptedRun;
      if script == [] { return Works; }
      f := script[0].fault;
      if script[0].foreign.Some? {
        if Allowed(script[0].foreign.value) { remote := script[0].foreign.value; }
      }
      script := script[1..];
    }

    /** Append the checkpoint to the journal, which accepts it. */
    method Record() returns (o: Publishing<()>)
      requires Safe() && Identity(intent, cp) && Backed(intent, pulls, effects, cp)
      requires if journal == [] then Initial(cp) else SameRun(Last(), cp) && Transition(Last(), cp)
      requires policy.Alone? ==> Consistent(intent, remote, cp)
      modifies this`journal, this`script
      ensures Safe() && !o.Blocked?
      ensures o.Done? ==> journal == old(journal) + [cp]
      ensures o.Crashed? ==> journal == old(journal) || journal == old(journal) + [cp]
      ensures old(script) == [] ==> o.Done? && script == []
      ensures script == Rest(old(script), 1)
      ensures o.Done? <==> Next(old(script)) == Works || Next(old(script)) == Refused
      ensures Next(old(script)) == Dies ==> journal == old(journal)
      ensures Next(old(script)) != Dies ==> journal == old(journal) + [cp]
    {
      hide Safe, Identity, Initial, Transition, Consistent, SameRun, Backed;
      var fault := if script == [] then Works else script[0].fault;
      label Before:
      if script != [] { script := script[1..]; }
      MemoryOnly@Before();
      if fault == Dies { return Crashed; }
      label Accepting:
      journal := journal + [cp];
      AppendKeepsSafe@Accepting(cp);
      o := if fault == LostReply then Crashed else Done(());
    }

    twostate lemma AppendKeepsHistory(c: Checkpoint)
      requires old(History()) && journal == old(journal) + [c] && issued == old(issued) && effects == old(effects)
      requires pulls == old(pulls) && Identity(intent, c) && Backed(intent, pulls, effects, c)
      requires if old(journal) == [] then Initial(c) else SameRun(old(Last()), c) && Transition(old(Last()), c)
      ensures History()
      ensures old(journal) != [] ==> old(Last()).lockDocument == c.lockDocument
      ensures old(journal) != [] && old(Last()).lockAcquired ==> c.lockAcquired
      ensures old(journal) != [] && old(Last()).latestAttempted ==> c.latestAttempted
    {
      hide Identity, Initial, Transition, SameRun, AcceptedRun, Backed;
      if old(journal) != [] { TransitionFacts(old(Last()), c); }
      IdentityFacts(intent, c);
      RecordExtends(old(journal), c);
    }

    /** A receipt the journal accepts keeps everything that held. */
    twostate lemma AppendKeepsSafe(c: Checkpoint)
      requires old(Safe()) && journal == old(journal) + [c]
      requires issued == old(issued) && effects == old(effects) && remote == old(remote) && pulls == old(pulls)
      requires Backed(intent, pulls, effects, c)
      requires Identity(intent, c) && (policy.Alone? ==> Consistent(intent, remote, c))
      requires if old(journal) == [] then Initial(c) else SameRun(old(Last()), c) && Transition(old(Last()), c)
      ensures Safe()
    {
      hide Identity, Initial, Transition, SameRun, Consistent, TagsIssued, IssuedOnce, ServedInOrder, EffectLawful,
        EffectGuarded, Backed;
      AppendKeepsHistory(c);
      hide History;
    }

    lemma AloneActions()
      requires Safe()
      ensures policy.Alone? && journal != [] ==> remote.actions == Last().actionsBaseline
    {
    }

    method AssertActionsUnchanged() returns (o: Publishing<()>)
      requires Safe()
      modifies this`remote, this`script, this`audit
      ensures Safe() && Undisturbed()
      ensures o.Done? ==>
                remote.actions == cp.actionsBaseline
                && audit == old(audit).(runs := old(audit).runs + [cp.actionsBaseline])
      ensures old(script) == [] ==> script == [] && !o.Crashed?
      ensures old(script) == [] && policy.Alone? && journal != [] && cp == Last() ==> o.Done?
      ensures Fared(Next(old(script)), o)
    {
      AloneActions();
      hide Safe, TagsFresh;
      var f := Reach();
      if f == Dies { return Crashed; }
      if f != Works { return Blocked(RequestFailed); }
      audit := audit.(runs := audit.runs + [remote.actions]);
      if remote.actions != cp.actionsBaseline { return Blocked(ActionsRunSetChanged); }
      o := Done(());
    }

    /** The remote lock is the object this checkpoint says we hold. */
    predicate LockSeen()
      reads this`remote, this`cp
    {
      cp.lockAcquired && cp.lockObject.Some? && remote.lock == cp.lockObject
    }

    /** The lock must be ours, now. */
    method RequireLock() returns (o: Publishing<()>)
      requires Safe()
      modifies this`remote, this`script, this`audit
      ensures Safe() && Undisturbed()
      ensures o.Done? ==> LockSeen() && audit == old(audit).(locks := old(audit).locks + 1)
      ensures o.Blocked? ==> o.reason == LockNotHeld || o.reason == RequestFailed || o.reason == LockMissingOrReplaced
      ensures old(script) == [] ==> script == [] && !o.Crashed?
      ensures old(script) == [] && policy.Alone? && LockSeen() ==> o.Done?
      ensures cp.lockAcquired && cp.lockObject.Some? ==> Fared(Next(old(script)), o)
    {
      hide Safe, TagsFresh;
      if !cp.lockAcquired || cp.lockObject.None? { return Blocked(LockNotHeld); }
      var f := Reach();
      if f == Dies { return Crashed; }
      if f != Works { return Blocked(RequestFailed); }
      if remote.lock != cp.lockObject { return Blocked(LockMissingOrReplaced); }
      audit := audit.(locks := audit.locks + 1);
      o := Done(());
    }

    /** Read the whole public state; a component that is neither before nor after this intent blocks. */
    method ReadState() returns (o: Publishing<Remote>)
      requires Safe()
      modifies this`remote, this`script, this`audit
      ensures Safe() && Undisturbed()
      ensures o.Done? ==> o.value == remote && Components(intent, remote)
      ensures o.Done? ==> audit == old(audit).(state := Some(o.value))
      ensures old(script) == [] ==> script == [] && !o.Crashed?
      ensures old(script) == [] && policy.Alone? && Components(intent, remote) ==> o.Done?
      ensures Fared(Next(old(script)), o)
    {
      hide Safe, TagsFresh, Components;
      var f := Reach();
      if f == Dies { return Crashed; }
      if f != Works { return Blocked(RequestFailed); }
      if !Components(intent, remote) { return Blocked(ForeignComponent); }
      audit := audit.(state := Some(remote));
      o := Done(remote);
    }

    method ReadProbe(ref: Reference) returns (o: Publishing<Option<Tagged>>)
      requires Safe()
      modifies this`remote, this`script
      ensures Safe() && Undisturbed()
      ensures o.Done? ==> o.value == Seen(remote, ref)
      ensures old(script) == [] ==> script == [] && o.Done?
      ensures o.Blocked? ==> o.reason == RequestFailed
      ensures Fared(Next(old(script)), o)
    {
      hide Safe, TagsFresh;
      var f := Reach();
      if f == Dies { return Crashed; }
      if f != Works { return Blocked(RequestFailed); }
      o := Done(Seen(remote, ref));
    }

    // ------------------------------------------------------------ public writes

    /** The server has served a lawful write. */
    method TakeEffect(e: Effect)
      requires Lawful() && journal != [] && e.before == remote && e.op in issued
      requires EffectLawful(intent, Mine(), e) && (policy != Anyone ==> EffectGuarded(Mine(), e))
      requires e.op == LockRefCreate ==> LockRefRemove !in issued
      modifies this`remote, this`effects
      ensures Lawful() && remote == e.after && effects == old(effects) + [e]
    {
      BackedStill(intent, pulls, effects, Last(), e);
      hide Backed, Identity, IssuedOnce, ServedInOrder, EffectLawful, EffectGuarded, AcceptedRun, TagsIssued,
        TagsFresh;
      LawfulTags(intent, Mine(), e);
      ServeInOrder(effects, issued, e);
      remote, effects := e.after, effects + [e];
    }

    /** update_latest: read latest, then replace it under the entity tag that was read. */
    method UpdateLatest() returns (o: Publishing<Reply>)
      requires Safe() && journal != [] && LatestUpdate in issued
      requires policy != Anyone ==> remote.lock == Some(Mine())
      modifies this`remote, this`script, this`effects
      ensures Lawful()
      ensures o.Done? ==> Answered(intent, cp, LatestUpdate, o.value, old(effects), effects)
      ensures policy != Anyone ==> remote.lock == Some(Mine())
      ensures policy.Alone? ==> remote == old(remote) || remote == Serve(intent, cp, old(remote), LatestUpdate).remote
      ensures policy.Alone? && o.Done? ==> Served(remote, Some(o.value)) == Serve(intent, cp, old(remote), LatestUpdate)
      ensures old(script) == [] && policy.Alone? && Serve(intent, cp, old(remote), LatestUpdate).reply.Some? ==>
                o.Done? && script == []
      ensures Fared(Next(old(script)), o)
      ensures o.Done? ==> Next(Rest(old(script), 1)) == Works && script == Rest(old(script), 2)
      ensures Next(Rest(old(script), 1)) == Dies || Next(Rest(old(script), 1)) == Refused ==> effects == old(effects)
    {
      hide Safe, Lawful, EffectLawful, EffectGuarded, Serve, ServeLatestPut, TagsIssued, TagsFresh, Answered;
      SafeTags();
      var f := Reach();
      SafeTags();
      if f == Dies { return Crashed; }
      if f != Works { return Blocked(RequestFailed); }
      if remote.DigestAt(Latest) != intent.priorLatest {
        LatestElsewhere(intent, cp, remote);
        return Blocked(LatestChanged);
      }
      ghost var read := remote;
      var etag := remote.EtagAt(Latest);
      LatestPutUndisturbed(intent, cp, remote);
      f := Reach();
      SafeTags();
      if f == Dies { return Crashed; }
      if f == Refused { return Blocked(RequestFailed); }
      ghost var read2 := remote;
      var served := ServeLatestPut(intent, remote, etag);
      LatestPutReplacesOnlyPrior(intent, read, remote);
      LatestPutLawful(intent, Mine(), remote, served.remote);
      TakeEffect(Effect(LatestUpdate, remote, served.remote));
      if f == LostReply { return Blocked(RequestFailed); }
      if served.reply.None? { return Blocked(LatestChanged); }
      LatestAnswered(intent, read2, etag);
      AnsweredOnce(intent, cp, LatestUpdate, served.reply.value, old(effects), Effect(LatestUpdate, read2, remote));
      o := Done(served.reply.value);
    }

    /** Send one public write; its effect may happen without its reply, or not at all. */
    method PerformWrite(op: Operation) returns (o: Publishing<Reply>)
      requires Safe() && journal != [] && cp.lockDocument == Last().lockDocument
      requires cp.lockObject.Some? ==> cp.lockObject == Some(Mine())
      requires policy != Anyone && !IsLockOperation(op) ==> remote.lock == Some(Mine())
      requires op != LockObjectCreate && op != LockRefCreate ==> LockSeen()
      requires op == LatestUpdate ==> LatestUpdate !in issued && Last().latestAttempted
      requires op == LockRefCreate ==> LockRefRemove !in issued
      requires op == LockRefRemove ==> Removable(Last())
      modifies this`remote, this`script, this`issued, this`effects
      ensures Lawful() && issued == old(issued) + [op]
      ensures o.Done? ==> Answered(intent, cp, op, o.value, old(effects), effects)
      ensures policy != Anyone && !IsLockOperation(op) ==> remote.lock == Some(Mine())
      ensures policy.Alone? ==> remote == old(remote) || remote == Serve(intent, cp, old(remote), op).remote
      ensures policy.Alone? && o.Done? ==> Served(remote, Some(o.value)) == Serve(intent, cp, old(remote), op)
      ensures o.Done? && op == LockObjectCreate ==> o.value == LockObjectCreated(Mine())
      ensures old(script) == [] && policy.Alone? && Serve(intent, cp, old(remote), op).reply.Some? ==>
                o.Done? && script == []
    {
      hide Identity, Consistent, IssuedOnce, LockNotRetaken, EffectLawful, EffectGuarded, AcceptedRun, Serve,
        ServeLatestPut, TagsIssued, TagsFresh, Answered;
      IssueOnce(issued, op);
      issued := issued + [op];
      assert ServedInOrder(effects, issued);
      if op == LatestUpdate { o := UpdateLatest(); } else { o := RequestWrite(op); }
    }

    /** A write that is a single request. */
    method RequestWrite(op: Operation) returns (o: Publishing<Reply>)
      requires Safe() && journal != [] && cp.lockDocument == Last().lockDocument && op != LatestUpdate
      requires op in issued && (op == LockRefCreate ==> LockRefRemove !in issued)
      requires cp.lockObject.Some? ==> cp.lockObject == Some(Mine())
      requires policy != Anyone && !IsLockOperation(op) ==> remote.lock == Some(Mine())
      modifies this`remote, this`script, this`effects
      ensures Lawful()
      ensures o.Done? ==> Answered(intent, cp, op, o.value, old(effects), effects)
      ensures policy != Anyone && !IsLockOperation(op) ==> remote.lock == Some(Mine())
      ensures policy.Alone? ==> remote == old(remote) || remote == Serve(intent, cp, old(remote), op).remote
      ensures policy.Alone? && o.Done? ==> Served(remote, Some(o.value)) == Serve(intent, cp, old(remote), op)
      ensures o.Done? && op == LockObjectCreate ==> o.value == LockObjectCreated(Mine())
      ensures old(script) == [] && policy.Alone? && Serve(intent, cp, old(remote), op).reply.Some? ==>
                o.Done? && script == []
      ensures Fared(Next(old(script)), o) && script == Rest(old(script), 1)
      ensures Next(old(script)) == Dies || Next(old(script)) == Refused ==> effects == old(effects)
      ensures Next(old(script)) == Works || Next(old(script)) == LostReply ==> |effects| == |old(effects)| + 1
    {
      hide Safe, Lawful, EffectLawful, EffectGuarded, Serve, ServeLatestPut, TagsIssued, TagsFresh, Answered;
      SafeTags();
      var f := Reach();
      SafeTags();
      if f == Dies { return Crashed; }
      if f == Refused { return Blocked(RequestFailed); }
      ghost var there := remote;
      var served := Serve(intent, cp, remote, op);
      ServedLawful(intent, cp, remote, op, Mine(), policy);
      TakeEffect(Effect(op, remote, served.remote));
      if f == LostReply { return Blocked(RequestFailed); }
      if served.reply.None? { return Blocked(RequestFailed); }
      AnsweredOnce(intent, cp, op, served.reply.value, old(effects), Effect(op, there, remote));
      o := Done(served.reply.value);
    }

    /** Only the creation of the lock itself may be sent without holding the lock. */
    predicate LockInHand(op: Operation)
      reads this`remote, this`cp
    {
      || op == LockObjectCreate
      || op == LockRefCreate
      || LockSeen()
    }

    /** The audit after the checks that belong to a write: the hosted runs, and the lock unless it is being created. */
    function Checked(was: Audit, op: Operation, runs: seq<seq<nat>>): Audit {
      was.(runs := was.runs + runs,
        locks := was.locks + if op == LockObjectCreate || op == LockRefCreate then 0 else 1)
    }

    /** The checks between arming a write and sending it. */
    method CheckPreconditions(op: Operation) returns (o: Publishing<()>)
      requires Safe()
      modifies this`remote, this`script, this`audit
      ensures Safe() && Undisturbed()
      ensures o.Done? && op != LockObjectCreate && op != LockRefCreate ==> LockSeen()
      ensures o.Done? ==> audit == Checked(old(audit), op, [cp.actionsBaseline])
      ensures old(script) == [] ==> script == [] && !o.Crashed?
      ensures old(script) == [] && policy.Alone? && journal != [] && cp == Last() && LockInHand(op) ==> o.Done?
    {
      hide Safe;
      var _ :- AssertActionsUnchanged();
      if op == LockObjectCreate || op == LockRefCreate { return Done(()); }
      o := RequireLock();
    }

    /** Record what became of an armed write and stop. */
    method RecordFailure(phase: Phase, failure: Failure, code: BlockCode) returns (o: Publishing<Reply>)
      requires Safe() && journal != [] && cp == Last()
      requires InFlight(phase, LockRefRemove) ==> Removable(cp)
      requires policy.Alone? ==> Consistent(intent, remote, cp.(phase := phase, failure := Some(failure)))
      modifies this`cp, this`journal, this`script
      ensures Safe() && !o.Done? && journal != []
      ensures o.Blocked? ==>
                o.reason == code && cp == old(cp).(phase := phase, failure := Some(failure))
                && journal == old(journal) + [cp]
      ensures Last().lockDocument == old(Last()).lockDocument
    {
      hide Identity, Initial, Transition, Consistent, TagsIssued, IssuedOnce, ServedInOrder, EffectLawful,
        EffectGuarded, AcceptedRun, SameRun, Backed;
      cp := cp.(phase := phase, failure := Some(failure));
      BackedSame(intent, pulls, effects, Last(), cp);
      StandingTransition(intent, Last(), cp);
      var r := Record();
      o := if r.Crashed? then Crashed else Blocked(code);
    }

    /** Move on to a phase of the write in hand and record it. */
    method RecordPhase(phase: Phase, completed: seq<Operation>) returns (o: Publishing<()>)
      requires Safe() && journal != [] && cp == Last() && cp.completed <= completed
      requires InFlight(phase, LockRefRemove) ==> Removable(cp)
      requires policy.Alone? ==>
                Consistent(intent, remote, cp.(phase := phase, failure := None, completed := completed))
      modifies this`cp, this`journal, this`script
      ensures Safe() && !o.Blocked? && journal != []
      ensures cp == old(cp).(phase := phase, failure := None, completed := completed)
      ensures o.Done? ==> cp == Last() && journal == old(journal) + [cp]
      ensures Last() == old(Last()) || Last() == cp
      ensures old(script) == [] ==> o.Done? && script == []
    {
      hide Identity, Initial, Transition, Consistent, TagsIssued, IssuedOnce, ServedInOrder, EffectLawful,
        EffectGuarded, AcceptedRun, SameRun, Backed;
      cp := cp.(phase := phase, failure := None, completed := completed);
      BackedSame(intent, pulls, effects, Last(), cp);
      StandingTransition(intent, Last(), cp);
      o := Record();
    }

    /** After sending: make sure no hosted run appeared, and record what became of the write. */
    method SettleWrite(op: Operation, written: Publishing<Reply>) returns (o: Publishing<Reply>)
      requires Safe() && journal != [] && cp == Last() && cp.phase == Pending(op) && cp.failure == None
      requires InFlight(cp.phase, LockRefRemove) ==> Removable(cp)
      requires !written.Crashed?
      modifies this`cp, this`journal, this`script, this`remote, this`audit
      ensures Safe() && Undisturbed() && journal != [] && Last().lockDocument == old(Last()).lockDocument
      ensures o.Done? ==> cp == Last() && cp == old(cp).(phase := Written(op), completed := old(cp).completed + [op])
      ensures o.Done? ==> o == written && audit == old(audit).(runs := old(audit).runs + [cp.actionsBaseline])
      ensures o.Done? ==> journal == old(journal) + [cp]
      ensures o.Blocked? ==>
                && journal == old(journal) + [cp]
                && cp == old(cp).(phase := Ambiguous(op), failure := cp.failure)
                && (cp.failure == Some(ActionsChanged) || cp.failure == Some(ResponseAmbiguous))
      ensures o.Blocked? && written.Done? ==> cp.failure == Some(ActionsChanged)
      ensures policy.Alone? && old(script) == [] && written.Done? ==>
                o.Done? && script == []
    {
      hide Identity, Consistent, Safe, SameStanding;
      var quiescent := AssertActionsUnchanged();
      if quiescent.Crashed? { return Crashed; }
      SettledPhases(op);
      if quiescent.Blocked? {
        o := RecordFailure(Ambiguous(op), ActionsChanged, ActionsRunSetChanged);
        return;
      }
      if written.Blocked? {
        o := RecordFailure(Ambiguous(op), ResponseAmbiguous, WriteAmbiguous);
        return;
      }
      var _ :- RecordPhase(Written(op), cp.completed + [op]);
      o := written;
    }

    lemma SettledPhases(op: Operation)
      requires Safe() && journal != [] && cp == Last() && cp.phase == Pending(op) && cp.failure == None
      ensures policy.Alone? ==>
                && Consistent(intent, remote, cp.(phase := Ambiguous(op), failure := Some(ActionsChanged)))
                && Consistent(intent, remote, cp.(phase := Ambiguous(op), failure := Some(ResponseAmbiguous)))
                && Consistent(intent, remote,
                   cp.(phase := Written(op), failure := None, completed := cp.completed + [op]))
    {
      hide Consistent;
      if policy.Alone? {
        NoteConsistent(intent, remote, cp, op, cp.(phase := Ambiguous(op), failure := Some(ActionsChanged)));
        NoteConsistent(intent, remote, cp, op, cp.(phase := Ambiguous(op), failure := Some(ResponseAmbiguous)));
        NoteConsistent(intent, remote, cp, op,
          cp.(phase := Written(op), failure := None, completed := cp.completed + [op]));
      }
    }

    /** Send the armed write; whatever became of it, the armed checkpoint can recover. */
    method SendWrite(op: Operation, ghost before: Checkpoint) returns (o: Publishing<Reply>)
      requires Safe() && journal != [] && cp == Last() && cp == before.(phase := Pending(op), failure := None)
      requires policy != Anyone && !IsLockOperation(op) ==> remote.lock == Some(Mine())
      requires op != LockObjectCreate && op != LockRefCreate ==> LockSeen()
      requires op == LatestUpdate ==> LatestUpdate !in issued && cp.latestAttempted
      requires op == LockRefCreate ==> LockRefRemove !in issued
      requires op == LockRefRemove ==> Removable(cp)
      requires policy.Alone? ==> WriteSafe(intent, remote, before, op)
      modifies this`remote, this`script, this`issued, this`effects
      ensures Safe() && issued == old(issued) + [op]
      ensures o.Done? ==> Answered(intent, before, op, o.value, old(effects), effects)
      ensures policy != Anyone && !IsLockOperation(op) ==> remote.lock == Some(Mine())
      ensures policy.Alone? && o.Done? ==> Served(remote, Some(o.value)) == Serve(intent, before, old(remote), op)
      ensures o.Done? && op == LockObjectCreate ==> o.value == LockObjectCreated(Mine())
      ensures policy.Alone? && old(script) == [] ==> o.Done? && script == []
    {
      hide Identity, Consistent, TagsIssued, IssuedOnce, ServedInOrder, EffectLawful, EffectGuarded, AcceptedRun,
        Serve, EffectsLawful, Answered;
      IdentityFacts(intent, cp);
      ServeIgnoresStanding(intent, before, cp, remote, op);
      o := PerformWrite(op);
      if o.Done? { AnsweredStanding(intent, cp, before, op, o.value, old(effects), effects); }
      if policy.Alone? { WriteRecoverable(intent, old(remote), before, op, remote); }
    }

    /** What a caller must have established before it arms a write. */
    ghost predicate Armable(op: Operation)
      reads this`remote, this`journal, this`cp, this`issued
    {
      && journal != []
      && cp == Last()
      && (policy != Anyone && !IsLockOperation(op) ==> remote.lock == Some(Mine()))
      && (op == LatestUpdate ==> LatestUpdate !in issued && cp.latestAttempted)
      && (op == LockRefCreate ==> LockRefRemove !in issued)
      && (op == LockRefRemove ==> Removable(cp))
      && (policy.Alone? ==> WriteSafe(intent, remote, cp, op) && LockInHand(op))
    }

    /** A write was armed, sent and answered; arming and answer are on record. */
    predicate Journaled(op: Operation, before: Checkpoint, was: seq<Checkpoint>)
      reads this`cp, this`journal
    {
      journal == was + [before.(phase := Pending(op), failure := None)] + [cp]
    }

    /** A write was armed and then given up before it was sent; both are on record. */
    predicate GaveUp(op: Operation, before: Checkpoint, was: seq<Checkpoint>)
      reads this`cp, this`journal
    {
      && cp == before.(phase := BlockedBeforeWrite(op), failure := Some(PreconditionFailed))
      && journal == was + [before.(phase := Pending(op), failure := None)] + [cp]
    }

    /** A write was armed and sent, and it is on record that its outcome is not known. */
    predicate LeftAmbiguous(op: Operation, before: Checkpoint, was: seq<Checkpoint>)
      reads this`cp, this`journal
    {
      && cp == before.(phase := Ambiguous(op), failure := cp.failure)
      && (cp.failure == Some(ActionsChanged) || cp.failure == Some(ResponseAmbiguous))
      && journal == was + [before.(phase := Pending(op), failure := None)] + [cp]
    }

    /** Record the intention to write, then re-check everything the write presupposes. */
    method ArmWrite(op: Operation) returns (o: Publishing<()>)
      requires Safe() && Armable(op)
      modifies this`cp, this`journal, this`script, this`remote, this`audit
      ensures Safe() && Undisturbed() && journal != [] && Last().lockDocument == old(Last()).lockDocument
      ensures o.Done? ==> cp == Last() && cp == old(cp).(phase := Pending(op), failure := None)
      ensures o.Done? ==> journal == old(journal) + [cp] && audit == Checked(old(audit), op, [cp.actionsBaseline])
      ensures o.Done? && op != LockObjectCreate && op != LockRefCreate ==> LockSeen()
      ensures o.Blocked? ==> GaveUp(op, old(cp), old(journal))
      ensures policy.Alone? && old(script) == [] ==> o.Done? && script == []
    {
      hide Safe, Identity, Consistent, Serve, WriteSafe;
      ghost var before := cp;
      if policy.Alone? { WriteRecoverable(intent, remote, cp, op, remote); }
      var _ :- RecordPhase(Pending(op), cp.completed);
      o := CheckPreconditions(op);
      if o.Blocked? { o := GiveUpWrite(op, before, o.reason); }
    }

    /** A write blocked before it was sent: record that and stop. */
    method GiveUpWrite(op: Operation, ghost before: Checkpoint, reason: BlockCode) returns (o: Publishing<()>)
      requires Safe() && journal != [] && cp == Last() && cp == before.(phase := Pending(op), failure := None)
      requires policy.Alone? ==> WriteSafe(intent, remote, before, op)
      modifies this`cp, this`journal, this`script
      ensures Safe() && !o.Done? && journal != [] && Last().lockDocument == old(Last()).lockDocument
      ensures o.Blocked? ==>
                cp == before.(phase := BlockedBeforeWrite(op), failure := Some(PreconditionFailed))
                && journal == old(journal) + [cp]
    {
      hide Safe, Identity, Consistent, Serve, WriteSafe;
      if policy.Alone? {
        BlockedConsistent(intent, remote, before, op,
          cp.(phase := BlockedBeforeWrite(op), failure := Some(PreconditionFailed)));
      }
      var failed := RecordFailure(BlockedBeforeWrite(op), PreconditionFailed, reason);
      o := if failed.Crashed? then Crashed else Blocked(reason);
    }

    /** One public write under its write-ahead receipt. */
    method PublicWrite(op: Operation) returns (o: Publishing<Reply>)
      requires Safe() && Armable(op)
      modifies this`remote, this`journal, this`cp, this`script, this`issued, this`effects, this`audit
      ensures Safe() && journal != [] && Last().lockDocument == old(Last()).lockDocument
      ensures o.Done? ==> cp == Last()
                          && cp == old(cp).(phase := Written(op), failure := None,
                             completed := old(cp).completed + [op])
      ensures o.Done? ==>
                && Journaled(op, old(cp), old(journal))
                && Answered(intent, old(cp), op, o.value, old(effects), effects)
                && issued == old(issued) + [op]
                && audit == Checked(old(audit), op, [cp.actionsBaseline, cp.actionsBaseline])
      ensures o.Blocked? ==> GaveUp(op, old(cp), old(journal)) || LeftAmbiguous(op, old(cp), old(journal))
      ensures o.Blocked? && issued == old(issued) ==> GaveUp(op, old(cp), old(journal))
      ensures policy != Anyone && !IsLockOperation(op) ==> remote.lock == Some(Mine())
      ensures policy.Alone? && o.Done? ==> Served(remote, Some(o.value)) == Serve(intent, old(cp), old(remote), op)
      ensures o.Done? && op == LockObjectCreate ==> o.value == LockObjectCreated(Mine())
      ensures issued == old(issued) || issued == old(issued) + [op]
      ensures policy.Alone? && old(script) == [] ==> o.Done? && script == []
    {
      hide Safe, Identity, Consistent, Serve, WriteSafe, History, Answered;
      var _ :- ArmWrite(op);
      o := CompleteWrite(op, old(cp));
    }

    /** Send an armed write and record what became of it. */
    method CompleteWrite(op: Operation, ghost before: Checkpoint) returns (o: Publishing<Reply>)
      requires Safe() && journal != [] && cp == Last() && cp == before.(phase := Pending(op), failure := None)
      requires policy != Anyone && !IsLockOperation(op) ==> remote.lock == Some(Mine())
      requires op != LockObjectCreate && op != LockRefCreate ==> LockSeen()
      requires op == LatestUpdate ==> LatestUpdate !in issued && cp.latestAttempted
      requires op == LockRefCreate ==> LockRefRemove !in issued
      requires op == LockRefRemove ==> Removable(cp)
      requires policy.Alone? ==> WriteSafe(intent, remote, before, op)
      modifies this`remote, this`journal, this`cp, this`script, this`issued, this`effects, this`audit
      ensures Safe() && journal != [] && Last().lockDocument == old(Last()).lockDocument
      ensures o.Done? ==>
                cp == Last()
                && cp == before.(phase := Written(op), failure := None, completed := before.completed + [op])
      ensures o.Done? ==>
                && journal == old(journal) + [cp]
                && Answered(intent, before, op, o.value, old(effects), effects)
                && audit == old(audit).(runs := old(audit).runs + [cp.actionsBaseline])
      ensures o.Blocked? ==>
                && journal == old(journal) + [cp]
                && cp == before.(phase := Ambiguous(op), failure := cp.failure)
                && (cp.failure == Some(ActionsChanged) || cp.failure == Some(ResponseAmbiguous))
      ensures policy != Anyone && !IsLockOperation(op) ==> remote.lock == Some(Mine())
      ensures policy.Alone? && o.Done? ==> Served(remote, Some(o.value)) == Serve(intent, before, old(remote), op)
      ensures o.Done? && op == LockObjectCreate ==> o.value == LockObjectCreated(Mine())
      ensures issued == old(issued) + [op]
      ensures policy.Alone? && old(script) == [] ==> o.Done? && script == []
    {
      hide Safe, Identity, Consistent, Serve, WriteSafe, History, Answered;
      var written := SendWrite(op, before);
      if written.Crashed? { return Crashed; }
      o := SettleWrite(op, written);
    }

    // ------------------------------------------------------------ steps taken while holding the lock

    lemma RunningHolds()
      requires Running()
      ensures Identity(intent, cp) && cp.lockObject == Some(Mine())
      ensures policy.Alone? ==> Holding(intent, remote, cp) && Components(intent, remote)
      ensures LatestUpdate in issued ==> cp.latestAttempted
    {
    }

    /** At least so often since then the lock was found to be ours, and a winner to be in place. */
    predicate CheckedSince(was: Audit, locks: nat, winners: nat)
      reads this`audit
    {
      audit.locks >= was.locks + locks && audit.winners >= was.winners + winners
    }

    /** The public state last read is this one. */
    predicate LastRead(state: Remote)
      reads this`audit
    {
      audit.state == Some(state)
    }

    /** A public write between two moments at which everything is recorded and the lock is held. */
    method HeldWrite(op: Operation) returns (o: Publishing<Reply>)
      requires Running() && !IsLockOperation(op)
      requires op == LatestUpdate ==> LatestUpdate !in issued && cp.latestAttempted
      requires policy.Alone? ==> WriteSafe(intent, remote, cp, op)
      modifies this`remote, this`journal, this`cp, this`script, this`issued, this`effects, this`audit
      ensures Safe()
      ensures o.Done? ==> Running()
                          && cp == old(cp).(phase := Written(op), failure := None,
                             completed := old(cp).completed + [op])
      ensures o.Done? ==>
                && Answered(intent, old(cp), op, o.value, old(effects), effects)
                && issued == old(issued) + [op]
                && audit == Checked(old(audit), op, [cp.actionsBaseline, cp.actionsBaseline])
      ensures o.Blocked? ==> GaveUp(op, old(cp), old(journal)) || LeftAmbiguous(op, old(cp), old(journal))
      ensures policy.Alone? && o.Done? ==> Served(remote, Some(o.value)) == Serve(intent, old(cp), old(remote), op)
      ensures policy.Alone? && old(script) == [] ==> o.Done? && script == []
    {
      RunningHolds();
      hide Safe, Identity, Consistent, Serve, WriteSafe, Components, ProbeBound, Answered, Journaled, GaveUp,
        LeftAmbiguous, Checked;
      HeldTokens(op);
      o := PublicWrite(op);
    }

    lemma HeldTokens(op: Operation)
      requires Running()
      ensures policy.Alone? ==>
                && (cp.createProbe.None? ==>
                   ProbeRef(CreateProbe, createToken) !in Serve(intent, cp, remote, op).remote.registry)
                && (cp.casProbe.None? ==>
                   ProbeRef(CasProbe, casToken) !in Serve(intent, cp, remote, op).remote.registry)
    {
      hide Serve, Consistent;
      if policy.Alone? {
        if cp.createProbe.None? { ServeKeepsFresh(intent, cp, remote, op, CreateProbe, createToken); }
        if cp.casProbe.None? { ServeKeepsFresh(intent, cp, remote, op, CasProbe, casToken); }
      }
    }

    /** Record a change of the checkpoint that is not itself a public write. */
    method Advance(next: Checkpoint) returns (o: Publishing<()>)
      requires Running() && Identity(intent, next) && SameRun(cp, next) && Transition(cp, next) && !next.lockRemoved
      requires Backed(intent, pulls, effects, next)
      requires policy.Alone? ==> Consistent(intent, remote, next) && TokensUnused(next)
      modifies this`journal, this`cp, this`script
      ensures Safe() && !o.Blocked?
      ensures o.Done? ==> Running() && cp == next && journal == old(journal) + [next]
      ensures old(script) == [] ==> o.Done? && script == []
    {
      TransitionFacts(cp, next);
      hide Safe, Identity, Consistent, Transition, SameRun, Initial, Backed;
      o := RecordNext(next);
    }

    method HeldRequireLock() returns (o: Publishing<()>)
      requires Running()
      modifies this`remote, this`script, this`audit
      ensures Running() && (policy.Alone? ==> remote == old(remote))
      ensures o.Done? ==> LockSeen() && audit == old(audit).(locks := old(audit).locks + 1)
      ensures o.Blocked? ==> o.reason == LockNotHeld || o.reason == RequestFailed || o.reason == LockMissingOrReplaced
      ensures policy.Alone? && old(script) == [] ==> o.Done? && script == []
    {
      RunningHolds();
      hide Running, Safe, Backed, Answered, Journaled, GaveUp, LeftAmbiguous, Identity, Consistent, Components;
      o := RequireLock();
      StillRunning();
    }

    method HeldReadState() returns (o: Publishing<Remote>)
      requires Running()
      modifies this`remote, this`script, this`audit
      ensures Running() && (policy.Alone? ==> remote == old(remote))
      ensures o.Done? ==>
                o.value == remote && Components(intent, remote) && audit == old(audit).(state := Some(o.value))
      ensures policy.Alone? && old(script) == [] ==> o.Done? && script == []
    {
      RunningHolds();
      hide Running, Safe, Backed, Answered, Journaled, GaveUp, LeftAmbiguous, Identity, Consistent, Components;
      o := ReadState();
      StillRunning();
    }

    method HeldReadProbe(ref: Reference) returns (o: Publishing<Option<Tagged>>)
      requires Running()
      modifies this`remote, this`script
      ensures Running() && (policy.Alone? ==> remote == old(remote))
      ensures o.Done? ==> o.value == Seen(remote, ref)
      ensures policy.Alone? && old(script) == [] ==> o.Done? && script == []
    {
      hide Safe;
      o := ReadProbe(ref);
    }

    /** Fast-forward main when it still is at the prior commit. */
    method AdvanceMain() returns (o: Publishing<Remote>)
      requires Running()
      modifies this`remote, this`journal, this`cp, this`script, this`issued, this`effects, this`audit
      ensures Safe()
      ensures o.Done? ==> Running() && SameStanding(old(cp), cp)
      ensures o.Done? && policy.Alone? ==> o.value == remote && remote == old(remote).(main := intent.releaseCommit)
      ensures policy.Alone? && old(script) == [] ==> o.Done? && script == []
      ensures o.Done? ==> o.value.main == intent.releaseCommit && LastRead(o.value) && CheckedSince(old(audit), 1, 0)
    {
      hide Running, Safe, Backed, Answered, Journaled, GaveUp, LeftAmbiguous, Identity, Consistent, Serve, WriteSafe,
        Holding, Components;
      var state :- HeldReadState();
      var _ :- HeldRequireLock();
      RunningHolds();
      if policy.Alone? { MainIsSafe(intent, remote, cp); MainMoves(intent, remote, cp); }
      if state.main == intent.priorMain {
        var _ :- HeldWrite(MainFastForward);
        state :- HeldReadState();
      }
      if state.main != intent.releaseCommit { return Blocked(NotExact); }
      o := Done(state);
    }

    /** Create the annotated tag and its ref when the ref is missing. */
    method PublishTag(before: Remote) returns (o: Publishing<Remote>)
      requires Running()
      requires policy.Alone? ==> before == remote && remote.main == intent.releaseCommit
      requires LastRead(before)
      modifies this`remote, this`journal, this`cp, this`script, this`issued, this`effects, this`audit
      ensures Safe()
      ensures o.Done? ==> Running() && SameStanding(old(cp), cp)
      ensures o.Done? && policy.Alone? ==> o.value == remote && remote == old(remote).(tag := Some(intent.tagObject))
      ensures policy.Alone? && old(script) == [] ==> o.Done? && script == []
      ensures o.Done? ==> o.value.tag == Some(intent.tagObject) && LastRead(o.value) && CheckedSince(old(audit), 1, 0)
      ensures o.Done? ==> issued == old(issued)
                          + if before.tag.None? then [VersionTagObjectCreate, VersionTagRefCreate] else []
    {
      hide Running, Safe, Backed, Answered, Journaled, GaveUp, LeftAmbiguous, Identity, Consistent, WriteSafe,
        Holding;
      var state := before;
      var _ :- HeldRequireLock();
      RunningHolds();
      if state.tag.None? {
        state :- CreateTag();
      }
      if state.tag != Some(intent.tagObject) { return Blocked(NotExact); }
      o := Done(state);
    }

    /** Create the annotated tag object, then the ref to it, and read the state again. */
    method CreateTag() returns (o: Publishing<Remote>)
      requires Running()
      requires policy.Alone? ==> remote.tag.None? && remote.main == intent.releaseCommit
      modifies this`remote, this`journal, this`cp, this`script, this`issued, this`effects, this`audit
      ensures Safe()
      ensures o.Done? ==> Running() && SameStanding(old(cp), cp)
      ensures o.Done? && policy.Alone? ==> o.value == remote && remote == old(remote).(tag := Some(intent.tagObject))
      ensures o.Done? ==> LastRead(o.value) && CheckedSince(old(audit), 2, 0)
      ensures o.Done? ==> issued == old(issued) + [VersionTagObjectCreate, VersionTagRefCreate]
      ensures policy.Alone? && old(script) == [] ==> o.Done? && script == []
    {
      hide Running, Safe, Backed, Answered, Journaled, GaveUp, LeftAmbiguous, Identity, Consistent, WriteSafe,
        Holding;
      RunningHolds();
      if policy.Alone? { TagObjectIsSafe(intent, remote, cp); }
      var created :- HeldWrite(VersionTagObjectCreate);
      if created != VersionTagCreated(intent.tagObject) { return Blocked(ReplyInvalid); }
      RunningHolds();
      if policy.Alone? { TagRefIsSafe(intent, remote, cp); }
      var _ :- HeldWrite(VersionTagRefCreate);
      o := HeldReadState();
    }

    method BlobPresent(digest: string) returns (o: Publishing<bool>)
      requires Running()
      modifies this`remote, this`script
      ensures Running() && (policy.Alone? ==> remote == old(remote))
      ensures o.Done? ==> o.value == (digest in remote.blobs)
      ensures policy.Alone? && old(script) == [] ==> o.Done? && script == []
      ensures Fared(Next(old(script)), o)
    {
      hide Safe;
      var f := Reach();
      if f == Dies { return Crashed; }
      if f != Works { return Blocked(RequestFailed); }
      o := Done(digest in remote.blobs);
    }

    method ManifestPresent(digest: string) returns (o: Publishing<bool>)
      requires Running()
      modifies this`remote, this`script
      ensures Running() && (policy.Alone? ==> remote == old(remote))
      ensures o.Done? ==> o.value == (digest in remote.manifests)
      ensures policy.Alone? && old(script) == [] ==> o.Done? && script == []
      ensures Fared(Next(old(script)), o)
    {
      hide Safe;
      var f := Reach();
      if f == Dies { return Crashed; }
      if f != Works { return Blocked(RequestFailed); }
      o := Done(digest in remote.manifests);
    }

    /** Have an upload location for blob k: the recorded one, or a new one, recorded before it is used. */
    method UploadLocation(k: nat) returns (o: Publishing<()>)
      requires Running() && k < |intent.blobs|
      modifies this`remote, this`journal, this`cp, this`script, this`issued, this`effects, this`audit
      ensures Safe()
      ensures o.Done? ==> Running() && UploadsAdded(old(cp), cp) && intent.blobs[k] in cp.uploads
      ensures o.Done? && policy.Alone? ==> ContentAdded(old(remote), remote)
      ensures policy.Alone? && old(script) == [] ==> o.Done? && script == []
      ensures o.Done? ==> audit.state == old(audit).state && CheckedSince(old(audit), 0, 0)
    {
      hide Running, Safe, Backed, Answered, Journaled, GaveUp, LeftAmbiguous, Identity, Consistent, WriteSafe,
        Holding, Transition, SameRun;
      RunningHolds();
      var digest := intent.blobs[k];
      if digest in cp.uploads { return Done(()); }
      if policy.Alone? { UploadStartIsSafe(intent, remote, cp, k); }
      var reply :- HeldWrite(BlobUploadStart(k));
      if !reply.Location? { return Blocked(ReplyInvalid); }
      RunningConsistent();
      UploadRecorded(intent, cp, digest, reply.url);
      if policy.Alone? { UploadConsistent(intent, remote, cp, digest, reply.url); }
      EvidenceStands(cp.(uploads := cp.uploads[digest := reply.url]));
      o := Advance(cp.(uploads := cp.uploads[digest := reply.url]));
    }

    /** A checkpoint with the evidence on record may be recorded. */
    lemma EvidenceStands(next: Checkpoint)
      requires Recorded() && SameEvidence(cp, next)
      ensures Backed(intent, pulls, effects, next)
    {
      BackedSame(intent, pulls, effects, cp, next);
    }

    lemma RunningConsistent()
      requires Running()
      ensures Recorded()
      ensures Identity(intent, cp)
      ensures policy.Alone? ==> Consistent(intent, remote, cp) && TokensUnused(cp)
    {
    }

    /** Make every required blob present, one after the other. */
    method UploadBlobs() returns (o: Publishing<()>)
      requires Running()
      modifies this`remote, this`journal, this`cp, this`script, this`issued, this`effects, this`audit
      ensures Safe()
      ensures o.Done? ==> Running() && UploadsAdded(old(cp), cp)
      ensures o.Done? && policy.Alone? ==>
                && ContentAdded(old(remote), remote)
                && forall j :: 0 <= j < |intent.blobs| ==> intent.blobs[j] in remote.blobs
      ensures policy.Alone? && old(script) == [] ==> o.Done? && script == []
      ensures o.Done? ==> audit.state == old(audit).state && CheckedSince(old(audit), |intent.blobs|, 0)
    {
      hide Running, Safe, Backed, Answered, Journaled, GaveUp, LeftAmbiguous, Identity, Consistent, WriteSafe,
        Holding;
      var k := 0;
      while k < |intent.blobs|
        invariant k <= |intent.blobs| && Running() && UploadsAdded(old(cp), cp)
        invariant audit.state == old(audit).state && CheckedSince(old(audit), k, 0)
        invariant policy.Alone? ==> ContentAdded(old(remote), remote)
        invariant policy.Alone? ==> forall j :: 0 <= j < k ==> intent.blobs[j] in remote.blobs
        invariant policy.Alone? && old(script) == [] ==> script == []
      {
        o := UploadBlob(k);
        if !o.Done? { return; }
        k := k + 1;
      }
      o := Done(());
    }

    method UploadBlob(k: nat) returns (o: Publishing<()>)
      requires Running() && k < |intent.blobs|
      modifies this`remote, this`journal, this`cp, this`script, this`issued, this`effects, this`audit
      ensures Safe()
      ensures o.Done? ==> Running() && UploadsAdded(old(cp), cp)
      ensures o.Done? && policy.Alone? ==> ContentAdded(old(remote), remote) && intent.blobs[k] in remote.blobs
      ensures policy.Alone? && old(script) == [] ==> o.Done? && script == []
      ensures o.Done? ==>
                intent.blobs[k] in remote.blobs && audit.state == old(audit).state && CheckedSince(old(audit), 1, 0)
      ensures policy.Alone? && o.Done? && intent.blobs[k] in old(remote).blobs ==> issued == old(issued)
    {
      hide Running, Safe, Backed, Answered, Journaled, GaveUp, LeftAmbiguous, Identity, Consistent, WriteSafe,
        Holding;
      var _ :- HeldRequireLock();
      var present :- BlobPresent(intent.blobs[k]);
      if present { return Done(()); }
      var _ :- UploadLocation(k);
      RunningHolds();
      if policy.Alone? { UploadFinishIsSafe(intent, remote, cp, k); UploadFinishes(intent, remote, cp, k); }
      var _ :- HeldWrite(BlobUploadFinish(k));
      present :- BlobPresent(intent.blobs[k]);
      if !present { return Blocked(NotExact); }
      o := Done(());
    }

    /** Make every required manifest present, one after the other. */
    method PutManifests() returns (o: Publishing<()>)
      requires Running()
      modifies this`remote, this`journal, this`cp, this`script, this`issued, this`effects, this`audit
      ensures Safe()
      ensures o.Done? ==> Running() && UploadsAdded(old(cp), cp)
      ensures o.Done? && policy.Alone? ==>
                && ContentAdded(old(remote), remote)
                && forall j :: 0 <= j < |intent.manifests| ==> intent.manifests[j] in remote.manifests
      ensures policy.Alone? && old(script) == [] ==> o.Done? && script == []
      ensures o.Done? ==> audit.state == old(audit).state && CheckedSince(old(audit), |intent.manifests|, 0)
    {
      hide Running, Safe, Backed, Answered, Journaled, GaveUp, LeftAmbiguous, Identity, Consistent, WriteSafe,
        Holding;
      var k := 0;
      while k < |intent.manifests|
        invariant k <= |intent.manifests| && Running() && UploadsAdded(old(cp), cp)
        invariant audit.state == old(audit).state && CheckedSince(old(audit), k, 0)
        invariant policy.Alone? ==> ContentAdded(old(remote), remote)
        invariant policy.Alone? ==> forall j :: 0 <= j < k ==> intent.manifests[j] in remote.manifests
        invariant policy.Alone? && old(script) == [] ==> script == []
      {
        o := PutManifest(k);
        if !o.Done? { return; }
        k := k + 1;
      }
      o := Done(());
    }

    method PutManifest(k: nat) returns (o: Publishing<()>)
      requires Running() && k < |intent.manifests|
      modifies this`remote, this`journal, this`cp, this`script, this`issued, this`effects, this`audit
      ensures Safe()
      ensures o.Done? ==> Running() && UploadsAdded(old(cp), cp)
      ensures o.Done? && policy.Alone? ==> ContentAdded(old(remote), remote) && intent.manifests[k] in remote.manifests
      ensures policy.Alone? && old(script) == [] ==> o.Done? && script == []
      ensures o.Done? ==>
                intent.manifests[k] in remote.manifests && audit.state == old(audit).state
                && CheckedSince(old(audit), 1, 0)
      ensures policy.Alone? && o.Done? && intent.manifests[k] in old(remote).manifests ==> issued == old(issued)
    {
      hide Running, Safe, Backed, Answered, Journaled, GaveUp, LeftAmbiguous, Identity, Consistent, WriteSafe,
        Holding;
      var _ :- HeldRequireLock();
      var present :- ManifestPresent(intent.manifests[k]);
      if present { return Done(()); }
      RunningHolds();
      if policy.Alone? { ManifestIsSafe(intent, remote, cp, k); }
      var _ :- HeldWrite(ManifestPut(k));
      present :- ManifestPresent(intent.manifests[k]);
      if !present { return Blocked(NotExact); }
      o := Done(());
    }

    // ------------------------------------------------------------ probes

    /** The planned probe of a kind; planning draws a token and records the plan first. */
    method PrepareProbe(kind: ProbeKind) returns (o: Publishing<()>)
      requires Running()
      requires policy.Alone? && ProbeOf(cp, kind).None? ==>
                 if kind == CreateProbe then remote.tag.Some? && GraphComplete(intent, remote) else remote.release.Some?
      modifies this`journal, this`cp, this`script
      ensures Safe() && !o.Blocked?
      ensures o.Done? ==> Running() && ProbeOf(cp, kind).Some?
      ensures o.Done? ==> if old(ProbeOf(cp, kind)).Some? then cp == old(cp)
                          else cp == WithPlan(old(cp), kind, if kind == CreateProbe then createToken else casToken)
      ensures policy.Alone? && old(script) == [] ==> o.Done? && script == []
    {
      hide Running, Safe, Backed, Answered, Journaled, GaveUp, LeftAmbiguous, Identity, Consistent, WriteSafe,
        Holding, Transition, SameRun, GraphComplete;
      RunningHolds();
      RunningConsistent();
      if ProbeOf(cp, kind).Some? { return Done(()); }
      var token := if kind == CreateProbe then createToken else casToken;
      PlanLawful(intent, cp, kind, token);
      if policy.Alone? { PlanConsistent(intent, remote, cp, kind, token); }
      EvidenceStands(WithPlan(cp, kind, token));
      o := Advance(WithPlan(cp, kind, token));
    }

    lemma StageBacked(q: Probe)
      requires Recorded() && LoserWasRefused(q.kind, effects, Some(q))
      ensures Backed(intent, pulls, effects, WithStage(cp, q))
    {
    }

    /** Record the next stage of a probe. */
    method AdvanceStage(q: Probe) returns (o: Publishing<()>)
      requires Running() && ProbeStep(cp, q)
      requires policy.Alone? ==> ProbeTracks(Some(q), remote)
      requires LoserWasRefused(q.kind, effects, Some(q))
      modifies this`journal, this`cp, this`script
      ensures Safe() && !o.Blocked?
      ensures o.Done? ==> Running() && cp == WithStage(old(cp), q)
      ensures policy.Alone? && old(script) == [] ==> o.Done? && script == []
    {
      hide Running, Safe, Backed, Answered, Journaled, GaveUp, LeftAmbiguous, Identity, Consistent, WriteSafe,
        Holding, Transition, SameRun, ProbeStep;
      RunningHolds();
      RunningConsistent();
      StageLawful(intent, cp, q);
      if policy.Alone? { StageConsistent(intent, remote, cp, q); }
      assert policy.Alone? ==> TokensUnused(WithStage(cp, q)) by { ProbeStepKnown(cp, q); }
      ProbeStepRemoved(cp, q);
      StageBacked(q);
      o := Advance(WithStage(cp, q));
    }

    /** Read the probe's reference; a manifest that is none of the probe's own blocks. */
    method ObserveProbe(kind: ProbeKind) returns (o: Publishing<Option<Tagged>>)
      requires Running() && ProbeOf(cp, kind).Some?
      modifies this`remote, this`script
      ensures Running() && (policy.Alone? ==> remote == old(remote))
      ensures o.Done? ==> o.value == Seen(remote, ProbeOf(cp, kind).value.reference)
      ensures policy.Alone? && old(script) == [] ==> o.Done? && script == []
      ensures o.Done? && o.value.Some? ==>
                var p := ProbeOf(cp, kind).value; var digest := o.value.value.digest;
                || digest == ProbeManifest(kind, p.token, Winner) || digest == ProbeManifest(kind, p.token, Rejected)
                || (kind == CasProbe && digest == ProbeManifest(kind, p.token, Prior))
    {
      hide Running, Safe, Backed, Answered, Journaled, GaveUp, LeftAmbiguous, Identity, Consistent, WriteSafe,
        Holding;
      RunningHolds();
      if policy.Alone? { TrackedDigests(intent, remote, cp, kind); }
      var p := ProbeOf(cp, kind).value;
      o := HeldReadProbe(p.reference);
      if o.Done? && o.value.Some? {
        var digest := o.value.value.digest;
        if digest != ProbeManifest(kind, p.token, Winner) && digest != ProbeManifest(kind, p.token, Rejected)
          && !(kind == CasProbe && digest == ProbeManifest(kind, p.token, Prior))
        {
          return Blocked(ProbeInvalid);
        }
      }
    }

    /** Reads leave a running process running. */
    twostate lemma StillRunning()
      requires old(Running()) && Safe() && Undisturbed()
      requires journal == old(journal) && cp == old(cp) && createToken == old(createToken) && casToken == old(casToken)
      ensures Running()
    {
    }

    /** Everything the process knows is on record. */
    ghost predicate Recorded()
      reads this`remote, this`journal, this`cp, this`issued, this`effects, this`pulls
    {
      Safe() && journal != [] && cp == Last()
    }

    lemma RecordedTracks(kind: ProbeKind)
      requires Recorded() && ProbeOf(cp, kind).Some?
      ensures WellFormedProbe(ProbeOf(cp, kind), kind)
      ensures policy.Alone? ==> ProbeTracks(ProbeOf(cp, kind), remote)
    {
    }

    /** The reference holds the winner under the recorded entity tag, which is not the prior one. */
    predicate WinnerInPlace(kind: ProbeKind)
      reads this`remote, this`cp
    {
      && ProbeOf(cp, kind).Some?
      && var p := ProbeOf(cp, kind).value;
         && p.winnerEtag.Some?
         && Seen(remote, p.reference) == Some(Tagged(ProbeManifest(kind, p.token, Winner), p.winnerEtag.value))
         && (kind == CasProbe ==> p.winnerEtag != p.priorEtag)
    }

    /** What was read is the winner under its recorded entity tag, and not under the prior one. */
    predicate IsWinner(kind: ProbeKind, p: Probe, observed: Option<Tagged>) {
      && observed.Some? && observed.value.digest == ProbeManifest(kind, p.token, Winner)
      && !(kind == CasProbe && Some(observed.value.etag) == p.priorEtag)
      && Some(observed.value.etag) == p.winnerEtag
    }

    lemma WinnerSeen(kind: ProbeKind)
      requires ProbeOf(cp, kind).Some?
      requires var p := ProbeOf(cp, kind).value; IsWinner(kind, p, Seen(remote, p.reference))
      ensures WinnerInPlace(kind)
    {
    }

    lemma RecordedWinner(kind: ProbeKind)
      requires Recorded() && ProbeOf(cp, kind).Some?
      ensures var p := ProbeOf(cp, kind).value;
              policy.Alone? && WinnerKnown(kind, p.stage) ==> IsWinner(kind, p, Seen(remote, p.reference))
    {
      RecordedTracks(kind);
    }

    /** The reference still holds the winner under the recorded entity tag. */
    method ConfirmWinner(kind: ProbeKind) returns (o: Publishing<()>)
      requires Recorded() && ProbeOf(cp, kind).Some?
      modifies this`remote, this`script, this`audit
      ensures Safe() && Undisturbed() && (old(Running()) ==> Running())
      ensures policy.Alone? && old(script) == [] && WinnerKnown(kind, ProbeOf(cp, kind).value.stage) ==>
                o.Done? && script == []
      ensures o.Done? ==> WinnerInPlace(kind) && audit == old(audit).(winners := old(audit).winners + 1)
      ensures o.Blocked? ==> o.reason == RequestFailed || o.reason == ProbeInvalid
    {
      hide Running, Safe, Identity, Consistent, WinnerInPlace, WinnerKnown;
      o := LookAtWinner(kind);
      if old(Running()) { StillRunning(); }
    }

    method LookAtWinner(kind: ProbeKind) returns (o: Publishing<()>)
      requires Recorded() && ProbeOf(cp, kind).Some?
      modifies this`remote, this`script, this`audit
      ensures Safe() && Undisturbed()
      ensures policy.Alone? && old(script) == [] && WinnerKnown(kind, ProbeOf(cp, kind).value.stage) ==>
                o.Done? && script == []
      ensures o.Done? ==> WinnerInPlace(kind) && audit == old(audit).(winners := old(audit).winners + 1)
      ensures o.Blocked? ==> o.reason == RequestFailed || o.reason == ProbeInvalid
    {
      RecordedWinner(kind);
      hide Safe, Lawful, TagsFresh, Identity, Consistent, WinnerInPlace, IsWinner, WinnerKnown, Seen;
      var p := ProbeOf(cp, kind).value;
      var observed :- ReadProbe(p.reference);
      if !IsWinner(kind, p, observed) { return Blocked(ProbeInvalid); }
      WinnerSeen(kind);
      audit := audit.(winners := audit.winners + 1);
      o := Done(());
    }

    /** The evidence of a verified probe must still be what the registry shows. */
    method VerifyRetainedProbe(kind: ProbeKind) returns (o: Publishing<()>)
      requires Recorded()
      modifies this`remote, this`script, this`audit
      ensures Safe() && Undisturbed() && (old(Running()) ==> Running())
      ensures o.Done? ==> ProbeVerified(ProbeOf(cp, kind))
      ensures policy.Alone? && old(script) == [] && ProbeVerified(ProbeOf(cp, kind)) ==> o.Done? && script == []
      ensures o.Done? ==> WinnerInPlace(kind) && audit == old(audit).(winners := old(audit).winners + 1)
      ensures o.Blocked? ==> o.reason == RequestFailed || o.reason == ProbeInvalid || o.reason == EvidenceMissing
    {
      hide Running, Safe, Backed, Answered, Journaled, GaveUp, LeftAmbiguous, Identity, Consistent, WriteSafe,
        Holding;
      if ProbeOf(cp, kind).None? { return Blocked(EvidenceMissing); }
      RecordedTracks(kind);
      if ProbeOf(cp, kind).value.verification.None? { return Blocked(EvidenceMissing); }
      o := ConfirmWinner(kind);
    }

    /** The smoke run and both probes are on record, and the registry still bears the probes out. */
    method VerifyCompletionEvidence() returns (o: Publishing<()>)
      requires Recorded()
      modifies this`remote, this`script, this`audit
      ensures Safe() && Undisturbed() && (old(Running()) ==> Running())
      ensures o.Done? ==> Evidence(cp)
      ensures policy.Alone? && old(script) == [] && Evidence(cp) ==> o.Done? && script == []
      ensures o.Done? ==> cp.smoke == Some(intent.smoke) && ProbeVerified(cp.createProbe) && WinnerInPlace(CasProbe)
      ensures o.Done? ==> audit == old(audit).(winners := old(audit).winners + 2)
      ensures o.Blocked? ==> o.reason == RequestFailed || o.reason == ProbeInvalid || o.reason == EvidenceMissing
    {
      RecordedSmoke();
      hide Running, Safe, Identity, Consistent, WinnerInPlace;
      if cp.smoke != Some(intent.smoke) { return Blocked(EvidenceMissing); }
      var _ :- VerifyRetainedProbe(CreateProbe);
      o := VerifyRetainedProbe(CasProbe);
    }

    lemma RecordedSmoke()
      requires Recorded()
      ensures cp.smoke.Some? ==> cp.smoke == Some(intent.smoke)
    {
    }

    /** A conditional probe PUT whose status must be the expected one. */
    method WriteProbe(op: Operation, status: nat) returns (o: Publishing<()>)
      requires Running() && IsProbeOperation(op)
      requires policy.Alone? ==> WriteSafe(intent, remote, cp, op)
      requires policy.Alone? ==> Serve(intent, cp, remote, op).reply == Some(ProbeStatus(status))
      modifies this`remote, this`journal, this`cp, this`script, this`issued, this`effects, this`audit
      ensures Safe()
      ensures o.Done? ==> Running() && SameStanding(old(cp), cp)
      ensures o.Done? ==>
                && Answered(intent, old(cp), op, ProbeStatus(status), old(effects), effects)
                && audit.state == old(audit).state && CheckedSince(old(audit), 2, 0)
      ensures o.Done? && policy.Alone? ==> remote == Serve(intent, old(cp), old(remote), op).remote
      ensures policy.Alone? && old(script) == [] ==> o.Done? && script == []
    {
      hide Running, Safe, Backed, Identity, Consistent, WriteSafe, Serve, Answered, Journaled, GaveUp, LeftAmbiguous;
      var _ :- HeldRequireLock();
      var reply :- HeldWrite(op);
      if reply != ProbeStatus(status) { return Blocked(ProbeInvalid); }
      o := Done(());
    }

    /** Look at the probe's reference, arming its seed first when the probe is only planned. */
    method ObserveArmed(kind: ProbeKind) returns (o: Publishing<Option<Tagged>>)
      requires Running() && ProbeOf(cp, kind).Some? && ProbeOf(cp, kind).value.stage != Verified
      modifies this`remote, this`journal, this`cp, this`script
      ensures Safe()
      ensures o.Done? ==> Running() && ProbeMoved(kind, old(cp), cp)
                          && ProbeOf(cp, kind).value.stage != Planned && ProbeOf(cp, kind).value.stage != Verified
      ensures o.Done? && policy.Alone? ==>
                remote == old(remote) && o.value == Seen(remote, ProbeOf(cp, kind).value.reference)
      ensures policy.Alone? && old(script) == [] ==> o.Done? && script == []
      ensures o.Done? && ProbeOf(old(cp), kind).value.stage == Planned ==> o.value.None?
    {
      hide Running, Safe, Backed, Answered, Journaled, GaveUp, LeftAmbiguous, Identity, Consistent, WriteSafe,
        Holding, Serve;
      var observed :- ObserveProbe(kind);
      ProbeFacts(kind);
      var p := ProbeOf(cp, kind).value;
      if p.stage == Planned {
        if observed.Some? { return Blocked(ProbeUnowned); }
        var _ :- AdvanceStage(p.(stage := SeedArmed));
      }
      o := Done(observed);
    }

    /** Write an armed probe's first manifest where there is none yet, and look again. */
    method SeedProbe(kind: ProbeKind) returns (o: Publishing<Option<Tagged>>)
      requires Running() && ProbeOf(cp, kind).Some? && ProbeOf(cp, kind).value.stage == SeedArmed
      requires policy.Alone? ==> ProbeOf(cp, kind).value.reference !in remote.registry
      modifies this`remote, this`journal, this`cp, this`script, this`issued, this`effects, this`audit
      ensures Safe()
      ensures o.Done? ==> Running() && SameStanding(old(cp), cp)
      ensures o.Done? && policy.Alone? ==> OnlyProbeWritten(old(remote), remote)
      ensures o.Done? && policy.Alone? ==> o.value == Seen(remote, ProbeOf(cp, kind).value.reference) && o.value.Some?
      ensures policy.Alone? && old(script) == [] ==> o.Done? && script == []
      ensures o.Done? ==> audit.state == old(audit).state && CheckedSince(old(audit), 2, 0)
    {
      hide Running, Safe, Backed, Answered, Journaled, GaveUp, LeftAmbiguous, Identity, Consistent, WriteSafe,
        Holding, Serve;
      RunningHolds();
      ProbeFacts(kind);
      var op := if kind == CreateProbe then VersionProbeSeed else LatestProbeSeed;
      if policy.Alone? {
        if kind == CreateProbe { VersionSeedIsSafe(intent, remote, cp); } else { LatestSeedIsSafe(intent, remote, cp); }
        ProbeWritesOnlyProbe(intent, cp, remote, op);
      }
      var _ :- WriteProbe(op, 201);
      o := ObserveProbe(kind);
    }

    /** Bring the create probe to the point where its winner is in place and recorded. */
    method SeedVersionProbe() returns (o: Publishing<()>)
      requires Running() && cp.createProbe.Some? && cp.createProbe.value.stage != Verified
      modifies this`remote, this`journal, this`cp, this`script, this`issued, this`effects, this`audit
      ensures Safe()
      ensures o.Done? ==> Running() && ProbeMoved(CreateProbe, old(cp), cp) && cp.createProbe.value.stage == RejectArmed
      ensures o.Done? && policy.Alone? ==> OnlyProbeWritten(old(remote), remote)
      ensures policy.Alone? && old(script) == [] ==> o.Done? && script == []
      ensures o.Done? ==> audit.state == old(audit).state && CheckedSince(old(audit), 0, 0)
    {
      hide Running, Safe, Backed, Answered, Journaled, GaveUp, LeftAmbiguous, Identity, Consistent, WriteSafe,
        Holding, Serve;
      var observed :- ObserveArmed(CreateProbe);
      if cp.createProbe.value.stage == SeedArmed && observed.None? {
        observed :- SeedProbe(CreateProbe);
      }
      o := RecordWinner(observed);
    }

    /** Record the entity tag of the winner that was seen. */
    method RecordWinner(observed: Option<Tagged>) returns (o: Publishing<()>)
      requires Running() && cp.createProbe.Some? && cp.createProbe.value.stage != Planned
                && cp.createProbe.value.stage != Verified
      requires policy.Alone? ==> observed == Seen(remote, cp.createProbe.value.reference)
      requires policy.Alone? && cp.createProbe.value.stage == SeedArmed ==> observed.Some?
      modifies this`journal, this`cp, this`script
      ensures Safe()
      ensures o.Done? ==> Running() && ProbeMoved(CreateProbe, old(cp), cp) && cp.createProbe.value.stage == RejectArmed
      ensures policy.Alone? && old(script) == [] ==> o.Done? && script == []
      ensures o.Done? ==>
                && observed.Some?
                && observed.value.digest == ProbeManifest(CreateProbe, old(cp).createProbe.value.token, Winner)
                && (old(cp).createProbe.value.stage == SeedArmed ==>
                      cp.createProbe.value.winnerEtag == Some(observed.value.etag))
    {
      hide Running, Safe, Backed, Answered, Journaled, GaveUp, LeftAmbiguous, Identity, Consistent, WriteSafe,
        Holding, Serve;
      ProbeFacts(CreateProbe);
      var p := cp.createProbe.value;
      var winner := ProbeManifest(CreateProbe, p.token, Winner);
      if observed.None? || observed.value.digest != winner { return Blocked(ProbeInvalid); }
      if p.stage != SeedArmed { return Done(()); }
      o := AdvanceStage(p.(stage := RejectArmed, winnerEtag := Some(observed.value.etag)));
    }

    /** What the code and the invariants know of a planned probe. */
    lemma ProbeFacts(kind: ProbeKind)
      requires Running() && ProbeOf(cp, kind).Some?
      ensures var p := ProbeOf(cp, kind).value;
              && WellFormedProbe(Some(p), kind)
              && ProbeBound(Some(p))
              && p.kind == kind
              && p.reference == ProbeRef(kind, p.token)
              && ProbeBound(cp.createProbe) && ProbeBound(cp.casProbe)
              && (policy.Alone? ==> ProbeTracks(Some(p), remote))
    {
    }

    lemma LoserOnRecord(kind: ProbeKind, k: nat, armed: Checkpoint)
      requires k < |effects| && ProbeOf(armed, kind).Some? && ProbeOf(cp, kind) == ProbeOf(armed, kind)
      requires LoserRefused(kind, effects[k], ProbeOf(armed, kind).value)
      ensures LoserWasRefused(kind, effects, Some(VerifiedProbe(ProbeOf(cp, kind).value)))
    {
      assert LoserRefused(kind, effects[k], VerifiedProbe(ProbeOf(cp, kind).value));
    }

    /** With the winner in place, a losing write must be refused and change nothing; then the probe is verified. */
    method RejectLoser(kind: ProbeKind) returns (o: Publishing<()>)
      requires Running() && ProbeOf(cp, kind).Some?
      requires ProbeOf(cp, kind).value.stage == if kind == CreateProbe then RejectArmed else StaleArmed
      modifies this`remote, this`journal, this`cp, this`script, this`issued, this`effects, this`audit
      ensures Safe()
      ensures o.Done? ==> Running() && ProbeVerified(ProbeOf(cp, kind)) && ProbeMoved(kind, old(cp), cp)
      ensures o.Done? && policy.Alone? ==> remote == old(remote)
      ensures o.Done? ==> audit.state == old(audit).state && WinnerInPlace(kind) && CheckedSince(old(audit), 2, 2)
      ensures policy.Alone? && old(script) == [] ==> o.Done? && script == []
    {
      hide Running, Safe, Backed, Answered, Identity, Consistent, WriteSafe, Holding, Serve, LoserWasRefused;
      var _ :- RefuseLoser(kind);
      ProbeFacts(kind);
      o := AdvanceStage(VerifiedProbe(ProbeOf(cp, kind).value));
    }

    /** The losing write between two looks at the winner. */
    method RefuseLoser(kind: ProbeKind) returns (o: Publishing<()>)
      requires Running() && ProbeOf(cp, kind).Some?
      requires ProbeOf(cp, kind).value.stage == if kind == CreateProbe then RejectArmed else StaleArmed
      modifies this`remote, this`journal, this`cp, this`script, this`issued, this`effects, this`audit
      ensures Safe()
      ensures o.Done? ==> Running() && SameStanding(old(cp), cp)
      ensures o.Done? && policy.Alone? ==> remote == old(remote)
      ensures o.Done? ==> audit.state == old(audit).state && WinnerInPlace(kind) && CheckedSince(old(audit), 2, 2)
      ensures o.Done? ==> LoserWasRefused(kind, effects, Some(VerifiedProbe(ProbeOf(cp, kind).value)))
      ensures policy.Alone? && old(script) == [] ==> o.Done? && script == []
    {
      hide Running, Safe, Backed, Answered, Journaled, GaveUp, LeftAmbiguous, Identity, Consistent, WriteSafe,
        Holding, Serve, LoserRefused, LoserWasRefused, WinnerInPlace;
      var _ :- ConfirmWinner(kind);
      var op := if kind == CreateProbe then VersionProbeReject else LatestProbeStale;
      RunningHolds();
      if policy.Alone? {
        if kind == CreateProbe { VersionRejectIsSafe(intent, remote, cp); }
          else { LatestStaleIsSafe(intent, remote, cp); }
      }
      ghost var armed, were := cp, effects;
      var _ :- WriteProbe(op, 412);
      RefusedAnswer(intent, armed, kind, were, effects);
      LoserOnRecord(kind, |were|, armed);
      o := ConfirmWinner(kind);
    }

    /** Probe that the registry honours If-None-Match before relying on it for the version. */
    method RunVersionCreateProbe() returns (o: Publishing<()>)
      requires Running()
      requires policy.Alone? && cp.createProbe.None? ==> remote.tag.Some? && GraphComplete(intent, remote)
      modifies this`remote, this`journal, this`cp, this`script, this`issued, this`effects, this`audit
      ensures Safe()
      ensures o.Done? ==> Running() && ProbeVerified(cp.createProbe) && ProbeMoved(CreateProbe, old(cp), cp)
      ensures o.Done? && policy.Alone? ==> OnlyProbeWritten(old(remote), remote)
      ensures policy.Alone? && old(script) == [] ==> o.Done? && script == []
      ensures o.Done? ==>
                audit.state == old(audit).state && WinnerInPlace(CreateProbe) && CheckedSince(old(audit), 0, 1)
    {
      hide Running, Safe, Backed, Answered, Journaled, GaveUp, LeftAmbiguous, Identity, Consistent, WriteSafe,
        Holding, Serve, GraphComplete;
      var _ :- PrepareProbe(CreateProbe);
      if cp.createProbe.value.stage == Verified {
        o := VerifyRetainedProbe(CreateProbe);
        return;
      }
      var _ :- SeedVersionProbe();
      o := RejectLoser(CreateProbe);
    }

    /** Bring the compare-and-set probe to the point where the prior manifest's entity tag is recorded. */
    method SeedLatestProbe() returns (o: Publishing<Option<Tagged>>)
      requires Running() && cp.casProbe.Some? && cp.casProbe.value.stage != Verified
      modifies this`remote, this`journal, this`cp, this`script, this`issued, this`effects, this`audit
      ensures Safe()
      ensures o.Done? ==> Running() && ProbeMoved(CasProbe, old(cp), cp)
                          && (cp.casProbe.value.stage == CasArmed || cp.casProbe.value.stage == StaleArmed)
      ensures o.Done? && policy.Alone? ==>
                OnlyProbeWritten(old(remote), remote) && o.value == Seen(remote, cp.casProbe.value.reference)
      ensures policy.Alone? && old(script) == [] ==> o.Done? && script == []
      ensures o.Done? ==> audit.state == old(audit).state && CheckedSince(old(audit), 0, 0)
    {
      hide Running, Safe, Backed, Answered, Journaled, GaveUp, LeftAmbiguous, Identity, Consistent, WriteSafe,
        Holding, Serve;
      var observed :- ObserveArmed(CasProbe);
      ProbeFacts(CasProbe);
      if cp.casProbe.value.stage != SeedArmed { return Done(observed); }
      if observed.None? {
        observed :- SeedProbe(CasProbe);
      }
      var _ :- RecordPrior(observed);
      o := Done(observed);
    }

    /** Record the entity tag of the prior manifest. */
    method RecordPrior(observed: Option<Tagged>) returns (o: Publishing<()>)
      requires Running() && cp.casProbe.Some? && cp.casProbe.value.stage == SeedArmed
      requires policy.Alone? ==> observed == Seen(remote, cp.casProbe.value.reference) && observed.Some?
      modifies this`remote, this`journal, this`cp, this`script
      ensures Safe()
      ensures o.Done? ==> Running() && ProbeMoved(CasProbe, old(cp), cp) && cp.casProbe.value.stage == CasArmed
                          && cp.casProbe.value.reference == old(cp).casProbe.value.reference
      ensures o.Done? && policy.Alone? ==> remote == old(remote)
      ensures policy.Alone? && old(script) == [] ==> o.Done? && script == []
      ensures o.Done? ==>
                && Seen(remote, cp.casProbe.value.reference).Some?
                && cp.casProbe.value.priorEtag == Some(Seen(remote, cp.casProbe.value.reference).value.etag)
                && remote.DigestAt(cp.casProbe.value.reference)
                   == Some(ProbeManifest(CasProbe, cp.casProbe.value.token, Prior))
      ensures o.Done? ==>
                observed.Some?
                && observed.value.digest == ProbeManifest(CasProbe, old(cp).casProbe.value.token, Prior)
    {
      hide Running, Safe, Backed, Answered, Journaled, GaveUp, LeftAmbiguous, Identity, Consistent, WriteSafe,
        Holding, Serve;
      ProbeFacts(CasProbe);
      var p := cp.casProbe.value;
      var prior := ProbeManifest(CasProbe, p.token, Prior);
      if observed.None? || observed.value.digest != prior { return Blocked(ProbeInvalid); }
      var again :- HeldReadProbe(p.reference);
      if again.None? || again.value.digest != prior { return Blocked(ProbeInvalid); }
      o := AdvanceStage(p.(stage := CasArmed, priorEtag := Some(again.value.etag)));
    }

    /** Replace the prior manifest under its recorded entity tag, and look at what is there then. */
    method SwapProbe() returns (o: Publishing<Option<Tagged>>)
      requires Running() && cp.casProbe.Some? && cp.casProbe.value.stage == CasArmed
      requires policy.Alone? ==>
                remote.DigestAt(cp.casProbe.value.reference)
                == Some(ProbeManifest(CasProbe, cp.casProbe.value.token, Prior))
      modifies this`remote, this`journal, this`cp, this`script, this`issued, this`effects, this`audit
      ensures Safe()
      ensures o.Done? ==> Running() && SameStanding(old(cp), cp)
      ensures o.Done? && policy.Alone? ==>
                OnlyProbeWritten(old(remote), remote) && o.value == Seen(remote, cp.casProbe.value.reference)
      ensures o.Done? && policy.Alone? ==>
                o.value.Some? && o.value.value.digest == ProbeManifest(CasProbe, cp.casProbe.value.token, Winner)
      ensures policy.Alone? && old(script) == [] ==> o.Done? && script == []
      ensures o.Done? ==> audit.state == old(audit).state && CheckedSince(old(audit), 2, 0)
    {
      hide Running, Safe, Backed, Identity, Consistent, WriteSafe, Holding, Serve;
      ProbeFacts(CasProbe);
      var p := cp.casProbe.value;
      var prior :- HeldReadProbe(p.reference);
      if prior.None? || prior.value.digest != ProbeManifest(CasProbe, p.token, Prior) { return Blocked(ProbeInvalid); }
      if p.priorEtag != Some(prior.value.etag) { return Blocked(ProbeInvalid); }
      o := WriteSwap();
    }

    /** The prior manifest stands there under the recorded entity tag. */
    predicate PriorInPlace()
      reads this`remote, this`cp
    {
      && cp.casProbe.Some? && cp.casProbe.value.priorEtag.Some?
      && Seen(remote, cp.casProbe.value.reference)
         == Some(Tagged(ProbeManifest(CasProbe, cp.casProbe.value.token, Prior), cp.casProbe.value.priorEtag.value))
    }

    /** The swap itself, sent only where the prior manifest was seen. */
    method WriteSwap() returns (o: Publishing<Option<Tagged>>)
      requires Running() && PriorInPlace() && cp.casProbe.value.stage == CasArmed
      modifies this`remote, this`journal, this`cp, this`script, this`issued, this`effects, this`audit
      ensures Safe()
      ensures o.Done? ==> Running() && SameStanding(old(cp), cp)
      ensures o.Done? && policy.Alone? ==>
                OnlyProbeWritten(old(remote), remote) && o.value == Seen(remote, cp.casProbe.value.reference)
      ensures o.Done? && policy.Alone? ==>
                o.value.Some? && o.value.value.digest == ProbeManifest(CasProbe, cp.casProbe.value.token, Winner)
      ensures o.Done? ==> audit.state == old(audit).state && CheckedSince(old(audit), 2, 0)
      ensures policy.Alone? && old(script) == [] ==> o.Done? && script == []
    {
      hide Running, Safe, Backed, Answered, Identity, Consistent, WriteSafe, Holding, Serve;
      ProbeFacts(CasProbe);
      RunningHolds();
      if policy.Alone? {
        LatestCasIsSafe(intent, remote, cp);
        ProbeWritesOnlyProbe(intent, cp, remote, LatestProbeCas);
      }
      var _ :- WriteProbe(LatestProbeCas, 201);
      o := ObserveProbe(CasProbe);
    }

    /** Bring the compare-and-set probe to the point where its winner is in place and recorded. */
    method WinLatestProbe(seen: Option<Tagged>) returns (o: Publishing<()>)
      requires Running() && cp.casProbe.Some?
      requires cp.casProbe.value.stage == CasArmed || cp.casProbe.value.stage == StaleArmed
      requires policy.Alone? ==> seen == Seen(remote, cp.casProbe.value.reference)
      modifies this`remote, this`journal, this`cp, this`script, this`issued, this`effects, this`audit
      ensures Safe()
      ensures o.Done? ==> Running() && ProbeMoved(CasProbe, old(cp), cp) && cp.casProbe.value.stage == StaleArmed
      ensures o.Done? && policy.Alone? ==> OnlyProbeWritten(old(remote), remote)
      ensures policy.Alone? && old(script) == [] ==> o.Done? && script == []
      ensures o.Done? ==> audit.state == old(audit).state && CheckedSince(old(audit), 0, 0)
      ensures o.Done? && old(cp).casProbe.value.stage == CasArmed ==>
                cp.casProbe.value.winnerEtag.Some? && cp.casProbe.value.winnerEtag != cp.casProbe.value.priorEtag
    {
      hide Running, Safe, Backed, Answered, Journaled, GaveUp, LeftAmbiguous, Identity, Consistent, WriteSafe,
        Holding, Serve;
      ProbeFacts(CasProbe);
      var observed := seen;
      var p := cp.casProbe.value;
      if p.stage == CasArmed && observed.Some? && observed.value.digest == ProbeManifest(CasProbe, p.token, Prior) {
        observed :- SwapProbe();
        ProbeFacts(CasProbe);
      }
      var winner := ProbeManifest(CasProbe, p.token, Winner);
      if observed.None? || observed.value.digest != winner { return Blocked(ProbeInvalid); }
      if p.stage == CasArmed {
        if Some(observed.value.etag) == p.priorEtag { return Blocked(ProbeInvalid); }
        var _ :- AdvanceStage(p.(stage := StaleArmed, winnerEtag := Some(observed.value.etag)));
      }
      o := Done(());
    }

    /** Probe that the registry honours If-Match before relying on it for latest. */
    method RunLatestCasProbe() returns (o: Publishing<()>)
      requires Running()
      requires policy.Alone? && cp.casProbe.None? ==> remote.release.Some?
      modifies this`remote, this`journal, this`cp, this`script, this`issued, this`effects, this`audit
      ensures Safe()
      ensures o.Done? ==> Running() && ProbeVerified(cp.casProbe) && ProbeMoved(CasProbe, old(cp), cp)
      ensures o.Done? && policy.Alone? ==> OnlyProbeWritten(old(remote), remote)
      ensures policy.Alone? && old(script) == [] ==> o.Done? && script == []
      ensures o.Done? ==> audit.state == old(audit).state && WinnerInPlace(CasProbe) && CheckedSince(old(audit), 0, 1)
    {
      hide Running, Safe, Backed, Answered, Journaled, GaveUp, LeftAmbiguous, Identity, Consistent, WriteSafe,
        Holding, Serve, GraphComplete;
      var _ :- PrepareProbe(CasProbe);
      if cp.casProbe.value.stage == Verified {
        o := VerifyRetainedProbe(CasProbe);
        return;
      }
      var seen :- SeedLatestProbe();
      var _ :- WinLatestProbe(seen);
      o := RejectLoser(CasProbe);
    }

    // ------------------------------------------------------------ version, smoke, release, latest

    /** Create the version under If-None-Match once the registry was seen to honour it. */
    method CreateVersion(before: Remote) returns (o: Publishing<()>)
      requires Running()
      requires policy.Alone? ==>
                remote.tag.Some? && GraphComplete(intent, remote)
                && before.DigestAt(VersionTag) == remote.DigestAt(VersionTag)
      requires LastRead(before)
      modifies this`remote, this`journal, this`cp, this`script, this`issued, this`effects, this`audit
      ensures Safe()
      ensures o.Done? ==> Running() && ProbeVerified(cp.createProbe) && ProbeMoved(CreateProbe, old(cp), cp)
      ensures o.Done? && policy.Alone? ==>
                VersionTag in remote.registry && remote.DigestAt(Latest) == old(remote).DigestAt(Latest)
      ensures policy.Alone? && old(script) == [] ==> o.Done? && script == []
      ensures o.Done? ==> WinnerInPlace(CreateProbe) && CheckedSince(old(audit), 1, 1)
      ensures o.Done? ==> audit.state.Some? && audit.state.value.DigestAt(VersionTag) == Some(intent.image)
    {
      hide Running, Safe, Backed, Answered, Journaled, GaveUp, LeftAmbiguous, Identity, Consistent, WriteSafe,
        Holding, GraphComplete;
      var state := before;
      var _ :- HeldRequireLock();
      if state.DigestAt(VersionTag).None? {
        var _ :- RunVersionCreateProbe();
        state :- WriteVersion();
      }
      RunningConsistent();
      if policy.Alone? { VersionPresent(intent, remote, cp); }
      if state.DigestAt(VersionTag) != Some(intent.image) { return Blocked(NotExact); }
      o := VerifyRetainedProbe(CreateProbe);
    }

    method WriteVersion() returns (o: Publishing<Remote>)
      requires Running() && ProbeVerified(cp.createProbe)
      modifies this`remote, this`journal, this`cp, this`script, this`issued, this`effects, this`audit
      ensures Safe()
      ensures o.Done? ==> Running() && SameStanding(old(cp), cp)
      ensures o.Done? && policy.Alone? ==> o.value == remote && remote.DigestAt(VersionTag) == Some(intent.image)
                                           && remote.DigestAt(Latest) == old(remote).DigestAt(Latest)
      ensures policy.Alone? && old(script) == [] ==> o.Done? && script == []
      ensures o.Done? ==> LastRead(o.value) && CheckedSince(old(audit), 2, 0)
    {
      hide Running, Safe, Backed, Answered, Journaled, GaveUp, LeftAmbiguous, Identity, Consistent, WriteSafe,
        Holding;
      var _ :- HeldRequireLock();
      RunningHolds();
      if policy.Alone? { VersionCreateIsSafe(intent, remote, cp); }
      var _ :- HeldWrite(VersionConditionalCreate);
      o := HeldReadState();
    }

    /** What the next anonymous pull would run. */
    function PulledSoon(): string
      reads this`script
    {
      if script != [] && script[0].smoked.Some? then script[0].smoked.value else intent.smoke
    }

    /** The anonymous pull and smoke run: a call that works or fails, and the identity of the image it ran. */
    method PullAndSmoke() returns (o: Publishing<string>)
      requires Running()
      modifies this`remote, this`script, this`pulls
      ensures Running() && (policy.Alone? ==> remote == old(remote))
      ensures o.Done? ==> o.value == old(PulledSoon()) && pulls == old(pulls) + [o.value]
      ensures !o.Done? ==> pulls == old(pulls)
      ensures o.Done? <==> old(script == [] || script[0].fault == Works)
      ensures policy.Alone? && old(script) == [] ==> o == Done(intent.smoke) && script == []
      ensures o.Blocked? ==> o.reason == RequestFailed
      ensures Fared(Next(old(script)), o)
    {
      hide Safe;
      var smoked := PulledSoon();
      var f := Reach();
      if f == Dies { return Crashed; }
      if f != Works { return Blocked(RequestFailed); }
      label Pulling:
      pulls := pulls + [smoked];
      PullsGrow@Pulling();
      o := Done(smoked);
    }

    twostate lemma PullsGrow()
      requires old(Running()) && old(pulls) <= pulls && journal == old(journal) && cp == old(cp)
      requires issued == old(issued) && effects == old(effects) && remote == old(remote)
      requires createToken == old(createToken) && casToken == old(casToken)
      ensures Running()
    {
      hide Identity, Consistent, AcceptedRun, IssuedOnce, ServedInOrder, EffectLawful, EffectGuarded, TagsIssued,
        LoserWasRefused;
    }

    /**
     Pull and smoke the image by its digest, anonymously, and record that it was the intended one. The pull of this
     very call worked and ran it; an image of another identity is not recorded.
     */
    method Smoke() returns (o: Publishing<()>)
      requires Running()
      requires policy.Alone? ==> VersionTag in remote.registry
      modifies this`remote, this`journal, this`cp, this`script, this`pulls, this`audit
      ensures Safe()
      ensures o.Done? ==> Running() && cp == WithSmoke(intent, old(cp)) && journal == old(journal) + [cp]
      ensures o.Done? ==> pulls == old(pulls) + [intent.smoke] && audit.locks == old(audit).locks + 1
      ensures o.Done? && policy.Alone? ==> remote == old(remote)
      ensures o.Blocked? ==> journal == old(journal) && cp == old(cp)
      ensures |pulls| > |old(pulls)| && pulls[|old(pulls)|] != intent.smoke ==>
                o == Blocked(SmokeMismatch) && journal == old(journal)
      ensures o == Blocked(SmokeMismatch) ==> |pulls| == |old(pulls)| + 1 && pulls[|old(pulls)|] != intent.smoke
      ensures policy.Alone? && old(script) == [] ==> o.Done? && script == []
      ensures o.Done? ==> audit.state == old(audit).state
    {
      hide Running, Safe, Answered, Journaled, GaveUp, LeftAmbiguous, Identity, Consistent, WriteSafe, Holding,
        Transition, SameRun, TagsFresh, Backed;
      var _ :- HeldRequireLock();
      var smoked :- PullAndSmoke();
      if smoked != intent.smoke { return Blocked(SmokeMismatch); }
      RunningHolds();
      RunningConsistent();
      SmokeLawful(intent, cp);
      if policy.Alone? { SmokeConsistent(intent, remote, cp); }
      SmokeBacked();
      o := Advance(WithSmoke(intent, cp));
    }

    lemma SmokeBacked()
      requires Recorded() && intent.smoke in pulls
      ensures Backed(intent, pulls, effects, WithSmoke(intent, cp))
    {
    }

    method CreateRelease() returns (o: Publishing<Remote>)
      requires Running() && cp.smoke.Some?
      modifies this`remote, this`journal, this`cp, this`script, this`issued, this`effects, this`audit
      ensures Safe()
      ensures o.Done? ==> Running() && SameStanding(old(cp), cp)
      ensures o.Done? && policy.Alone? ==> o.value == remote && remote == old(remote).(release := Some(intent.release))
      ensures policy.Alone? && old(script) == [] ==> o.Done? && script == []
      ensures o.Done? ==> o.value.release == Some(intent.release) && LastRead(o.value) && CheckedSince(old(audit), 1, 0)
    {
      hide Running, Safe, Backed, Answered, Journaled, GaveUp, LeftAmbiguous, Identity, Consistent, WriteSafe,
        Holding, Serve, Components;
      var _ :- HeldRequireLock();
      var state :- HeldReadState();
      RunningHolds();
      if state.release.None? {
        if policy.Alone? { ReleaseIsSafe(intent, remote, cp); }
        var _ :- HeldWrite(ReleaseCreate);
        state :- HeldReadState();
      }
      if state.release != Some(intent.release) { return Blocked(NotExact); }
      o := Done(state);
    }

    /** The outcome of an earlier update of latest cannot be known: say so, durably, and stop. */
    method LeaveLatestUnresolved() returns (o: Publishing<()>)
      requires Running() && cp.latestAttempted
      modifies this`remote, this`journal, this`cp, this`script, this`audit
      ensures Safe() && !o.Done?
      ensures policy.Alone? && old(script) == [] ==>
                o == Blocked(LatestUnresolvedOutcome) && script == [] && remote == old(remote)
      ensures o == Blocked(LatestUnresolvedOutcome) ==>
                && cp == old(cp).(phase := LatestUnresolved, failure := Some(LatestOutcomeUnresolved))
                && journal == old(journal) + [cp] && CheckedSince(old(audit), 0, 2)
    {
      hide Running, Safe, Backed, Answered, Journaled, GaveUp, LeftAmbiguous, Identity, Consistent, WriteSafe,
        Holding, Transition, SameRun, WellFormed;
      AttemptedEvidence();
      var _ :- VerifyCompletionEvidence();
      RunningHolds();
      var next := cp.(phase := LatestUnresolved, failure := Some(LatestOutcomeUnresolved));
      StandingTransition(intent, cp, next);
      if policy.Alone? { HoldingStanding(intent, remote, cp, next); }
      RunningConsistent();
      EvidenceStands(next);
      var _ :- Advance(next);
      o := Blocked(LatestUnresolvedOutcome);
    }

    lemma AttemptedEvidence()
      requires Running()
      ensures cp.latestAttempted ==> Evidence(cp)
    {
    }

    /** Arm latest durably, then update it: at most once in the life of this journal. */
    method ArmAndUpdateLatest() returns (o: Publishing<Remote>)
      requires Running() && Evidence(cp) && !cp.latestAttempted
      requires policy.Alone? ==> remote.DigestAt(Latest) == intent.priorLatest
      modifies this`remote, this`journal, this`cp, this`script, this`issued, this`effects, this`audit
      ensures Safe()
      ensures o.Done? ==> Running() && Evidence(cp)
      ensures o.Done? && policy.Alone? ==>
                o.value == remote && remote.DigestAt(Latest) == Some(intent.image)
                && remote.release == old(remote).release
      ensures policy.Alone? && old(script) == [] ==> o.Done? && script == []
      ensures o.Done? ==> LastRead(o.value) && CheckedSince(old(audit), 2, 0)
    {
      hide Running, Safe, Identity, Consistent, Holding, Evidence, WriteSafe, Serve;
      var _ :- HeldRequireLock();
      var _ :- ArmLatest();
      RunningHolds();
      if policy.Alone? { LatestUpdateIsSafe(intent, remote, cp); LatestPutUndisturbed(intent, cp, remote); }
      hide Answered, Journaled, GaveUp, LeftAmbiguous;
      var _ :- HeldWrite(LatestUpdate);
      EvidenceKept(old(cp), cp);
      o := HeldReadState();
    }

    /** Record durably, before the update is sent, that it will be. */
    method ArmLatest() returns (o: Publishing<()>)
      requires Running() && Evidence(cp) && !cp.latestAttempted
      modifies this`journal, this`cp, this`script
      ensures Safe() && !o.Blocked?
      ensures o.Done? ==> Running() && cp == WithLatestArmed(old(cp)) && LatestUpdate !in issued
      ensures old(script) == [] ==> o.Done? && script == []
    {
      RunningHolds();
      RunningConsistent();
      ArmLawful(intent, cp);
      if policy.Alone? { ArmConsistent(intent, remote, cp); }
      EvidenceStands(WithLatestArmed(cp));
      hide Running, Safe, Identity, Consistent, Holding, Transition, SameRun, Backed, Evidence;
      o := Advance(WithLatestArmed(cp));
    }

    lemma EvidenceKept(d: Checkpoint, e: Checkpoint)
      requires Evidence(d) && e.smoke == d.smoke && e.createProbe == d.createProbe && e.casProbe == d.casProbe
      ensures Evidence(e)
    {
    }

    /** Move latest to the image, or stop where an earlier attempt's outcome is unknown. */
    method MoveLatest(before: Remote) returns (o: Publishing<()>)
      requires Running() && cp.smoke.Some? && ProbeVerified(cp.createProbe)
      requires policy.Alone? ==> before == remote && remote.release.Some?
      requires LastRead(before)
      modifies this`remote, this`journal, this`cp, this`script, this`issued, this`effects, this`audit
      ensures Safe()
      ensures o.Done? ==> Running()
      ensures o.Done? && policy.Alone? ==>
                remote.DigestAt(Latest) == Some(intent.image) && remote.release.Some? && Evidence(cp)
      ensures policy.Alone? && old(script) == [] ==>
                script == []
                && if old(cp.latestAttempted && remote.DigestAt(Latest) == intent.priorLatest)
                   then o == Blocked(LatestUnresolvedOutcome) && remote == old(remote)
                        && journal != [] && Last().phase == LatestUnresolved
                   else o.Done?
      ensures o.Done? ==>
                audit.state.Some? && audit.state.value.DigestAt(Latest) == Some(intent.image)
                && CheckedSince(old(audit), 1, 0)
    {
      hide Running, Safe, Backed, Answered, Journaled, GaveUp, LeftAmbiguous, Identity, Consistent, WriteSafe,
        Holding;
      var state := before;
      var _ :- HeldRequireLock();
      if cp.latestAttempted && state.DigestAt(Latest) == intent.priorLatest {
        o := LeaveLatestUnresolved();
        return;
      }
      LatestComponents();
      AttemptedEvidence();
      if state.DigestAt(Latest) == intent.priorLatest {
        state :- HeldReadState();
        if state.DigestAt(Latest) != intent.priorLatest { return Blocked(LatestChanged); }
        state :- ProbeAndUpdateLatest();
      }
      if state.DigestAt(Latest) != Some(intent.image) { return Blocked(NotExact); }
      o := Done(());
    }

    /** Probe the registry and update latest, which was just seen to be at the prior digest. */
    method ProbeAndUpdateLatest() returns (o: Publishing<Remote>)
      requires Running() && cp.smoke.Some? && ProbeVerified(cp.createProbe) && !cp.latestAttempted
      requires remote.DigestAt(Latest) == intent.priorLatest
      requires policy.Alone? ==> remote.release.Some?
      modifies this`remote, this`journal, this`cp, this`script, this`issued, this`effects, this`audit
      ensures Safe()
      ensures o.Done? ==> Running() && Evidence(cp)
      ensures o.Done? && policy.Alone? ==>
                o.value == remote && remote.DigestAt(Latest) == Some(intent.image) && remote.release.Some?
      ensures o.Done? ==> LastRead(o.value) && CheckedSince(old(audit), 2, 1)
      ensures policy.Alone? && old(script) == [] ==> o.Done? && script == []
    {
      hide Running, Safe, Backed, Answered, Identity, Consistent, WriteSafe, Holding, WinnerInPlace;
      var _ :- RunLatestCasProbe();
      o := ArmAndUpdateLatest();
    }

    lemma LatestComponents()
      requires Running()
      ensures policy.Alone? ==>
                && (remote.DigestAt(Latest) == intent.priorLatest || remote.DigestAt(Latest) == Some(intent.image))
                && (remote.DigestAt(Latest) != intent.priorLatest ==> cp.latestAttempted)
    {
    }

    // ------------------------------------------------------------ taking and giving up the lock

    /** Everything is on record, and alone the tokens this process would draw are new. */
    ghost predicate Ready()
      reads this`remote, this`journal, this`cp, this`createToken, this`casToken, this`issued, this`effects, this`pulls
    {
      Recorded() && (policy.Alone? ==> TokensUnused(cp))
    }

    lemma ReadyFacts()
      requires Recorded()
      ensures Identity(intent, cp) && Lawful()
      ensures !cp.lockAcquired ==> LockRefRemove !in issued && !cp.lockRemoved
      ensures cp.lockObject.Some? ==> cp.lockObject == Some(Mine())
      ensures policy.Alone? ==> Consistent(intent, remote, cp) && Components(intent, remote)
    {
    }

    /** What holds of the durable and the public state does not depend on the checkpoint in memory. */
    twostate lemma MemoryOnly()
      requires old(Safe())
      requires remote == old(remote) && journal == old(journal) && issued == old(issued) && effects == old(effects)
      requires pulls == old(pulls)
      ensures Safe()
    {
      hide Identity, Consistent, AcceptedRun, IssuedOnce, ServedInOrder, EffectLawful, EffectGuarded, TagsIssued;
    }

    /** Record a next checkpoint, whether or not the lock is held. */
    method RecordNext(next: Checkpoint) returns (o: Publishing<()>)
      requires Recorded() && Identity(intent, next) && SameRun(cp, next) && Transition(cp, next)
      requires Backed(intent, pulls, effects, next)
      requires policy.Alone? ==> Consistent(intent, remote, next)
      modifies this`journal, this`cp, this`script
      ensures Safe() && !o.Blocked?
      ensures o.Done? ==> Recorded() && cp == next && journal == old(journal) + [next]
      ensures old(script) == [] ==> o.Done? && script == []
    {
      hide Safe, Identity, Consistent, Transition, SameRun, Initial, Backed;
      cp := next;
      MemoryOnly();
      o := Record();
    }

    method CreateLockObject() returns (o: Publishing<()>)
      requires Ready() && !cp.lockAcquired && cp.lockObject.None?
      requires policy.Alone? ==> remote.lock.None?
      modifies this`remote, this`journal, this`cp, this`script, this`issued, this`effects, this`audit
      ensures Safe()
      ensures o.Done? ==>
                Ready() && !cp.lockAcquired && cp.lockObject.Some? && cp.latestAttempted == old(cp.latestAttempted)
      ensures o.Done? && policy.Alone? ==> remote == old(remote)
      ensures policy.Alone? && old(script) == [] ==> o.Done? && script == []
      ensures o.Done? ==> issued == old(issued) + [LockObjectCreate]
    {
      hide Safe, Lawful, Identity, Consistent, WriteSafe, Transition, SameRun, Initial, Components;
      ReadyFacts();
      if policy.Alone? { LockObjectIsSafe(intent, remote, cp); }
      var reply :- PublicWrite(LockObjectCreate);
      if !reply.LockObjectCreated? { return Blocked(ReplyInvalid); }
      ReadyFacts();
      LockObjectLawful(intent, remote, cp);
      EvidenceStands(cp.(lockObject := Some(reply.lockSha)));
      o := RecordNext(cp.(lockObject := Some(reply.lockSha)));
    }

    /** Take the lock: create the ref where there is none, and make sure that it is ours. */
    method CreateLockRef() returns (o: Publishing<()>)
      requires Ready() && !cp.lockAcquired && cp.lockObject.Some?
      requires policy.Alone? ==> remote.lock.None?
      modifies this`remote, this`journal, this`cp, this`script, this`issued, this`effects, this`audit
      ensures Safe()
      ensures o.Done? ==> Running() && cp.latestAttempted == old(cp.latestAttempted)
      ensures o.Done? && policy.Alone? ==> remote.DigestAt(Latest) == old(remote).DigestAt(Latest)
      ensures policy.Alone? && old(script) == [] ==> o.Done? && script == []
      ensures o.Done? ==> issued == old(issued) + [LockRefCreate] && audit.locks == old(audit).locks + 1
      ensures o.Done? ==> audit.state.Some? && audit.state.value.lock.None?
    {
      hide Safe, Lawful, Answered, Journaled, GaveUp, LeftAmbiguous, Identity, Consistent, WriteSafe, Transition,
        SameRun, Initial, Components, Serve;
      ReadyFacts();
      var state :- ReadState();
      if state.lock.Some? { return Blocked(LockReplacedDuringAcquisition); }
      o := PutLockRef();
    }

    /** The write of the lock ref, sent only after the state was read without a lock. */
    method PutLockRef() returns (o: Publishing<()>)
      requires Ready() && !cp.lockAcquired && cp.lockObject.Some? && audit.state.Some? && audit.state.value.lock.None?
      requires policy.Alone? ==> remote.lock.None?
      modifies this`remote, this`journal, this`cp, this`script, this`issued, this`effects, this`audit
      ensures Safe()
      ensures o.Done? ==> Running() && cp.latestAttempted == old(cp.latestAttempted)
      ensures o.Done? && policy.Alone? ==> remote.DigestAt(Latest) == old(remote).DigestAt(Latest)
      ensures policy.Alone? && old(script) == [] ==> o.Done? && script == []
      ensures o.Done? ==> issued == old(issued) + [LockRefCreate] && audit.locks == old(audit).locks + 1
      ensures o.Done? ==> audit.state == old(audit).state
    {
      hide Safe, Lawful, Answered, Journaled, GaveUp, LeftAmbiguous, Identity, Consistent, WriteSafe, Transition,
        SameRun, Initial, Components, Serve;
      ReadyFacts();
      if policy.Alone? { LockRefIsSafe(intent, remote, cp); }
      var _ :- PublicWrite(LockRefCreate);
      o := ConfirmLock();
    }

    method ConfirmLock() returns (o: Publishing<()>)
      requires Ready() && !cp.lockAcquired && cp.lockObject.Some? && cp.phase == Written(LockRefCreate)
                && cp.failure.None?
      requires policy.Alone? ==> remote.lock == cp.lockObject
      modifies this`remote, this`journal, this`cp, this`script, this`audit
      ensures Safe()
      ensures o.Done? ==> Running() && cp.latestAttempted == old(cp.latestAttempted)
      ensures o.Done? && policy.Alone? ==> remote == old(remote)
      ensures policy.Alone? && old(script) == [] ==> o.Done? && script == []
      ensures o.Done? ==> LockSeen() && audit == old(audit).(locks := old(audit).locks + 1)
      ensures o.Done? ==> cp == old(cp).(lockAcquired := true)
    {
      hide Safe, Lawful, Identity, Consistent, WriteSafe, Transition, SameRun, Initial, Components;
      ReadyFacts();
      AcquiredLawful(intent, cp, cp.phase);
      if policy.Alone? { AcquiredConsistent(intent, remote, cp, cp.phase); }
      EvidenceStands(cp.(lockAcquired := true));
      cp := cp.(lockAcquired := true);
      MemoryOnly();
      var _ :- RequireLock();
      o := Record();
    }

    /** Record that the lock is gone and the publication complete. */
    method RecordCompletion() returns (o: Publishing<()>)
      requires Recorded() && Removable(cp)
      requires policy.Alone? ==> Final(intent, remote)
      requires audit.state.Some? && audit.state.value.lock.None?
      modifies this`journal, this`cp, this`script
      ensures Safe() && !o.Blocked?
      ensures o.Done? ==> Recorded() && cp.lockRemoved && cp.phase == Complete
      ensures old(script) == [] ==> o.Done? && script == []
    {
      hide Safe, Lawful, Identity, Consistent, WriteSafe, Transition, SameRun, Initial, Components;
      ReadyFacts();
      CompletionLawful(intent, cp);
      if policy.Alone? { CompletionConsistent(intent, remote, cp); }
      EvidenceStands(WithCompletion(cp));
      o := RecordNext(WithCompletion(cp));
    }

    /** Send the removal of the lock, as its exact owner and with all evidence on record. */
    method RemoveLockRef() returns (o: Publishing<()>)
      requires Running()
      requires policy.Alone? ==> remote.DigestAt(Latest) == Some(intent.image) && remote.release.Some? && Evidence(cp)
      modifies this`remote, this`journal, this`cp, this`script, this`issued, this`effects, this`audit
      ensures Safe()
      ensures o.Done? ==> Recorded() && Removable(cp)
      ensures o.Done? && policy.Alone? ==> Final(intent, remote)
      ensures o.Done? ==> CheckedSince(old(audit), 2, 2)
      ensures policy.Alone? && old(script) == [] ==> o.Done? && script == []
    {
      hide Running, Safe, Identity, Consistent, WriteSafe, Holding, Serve, WinnerInPlace;
      var _ :- VerifyCompletionEvidence();
      var _ :- HeldRequireLock();
      RunningHolds();
      RemovalArmable();
      hide Answered, Journaled, GaveUp, LeftAmbiguous, Armable, Final;
      var _ :- PublicWrite(LockRefRemove);
      o := Done(());
    }

    /** With the evidence on record the removal may be armed, and leaves the final state. */
    lemma RemovalArmable()
      requires Running() && Evidence(cp)
      requires policy.Alone? ==> remote.DigestAt(Latest) == Some(intent.image) && remote.release.Some?
      ensures Safe() && Armable(LockRefRemove) && Removable(cp)
      ensures policy.Alone? ==> Final(intent, Serve(intent, cp, remote, LockRefRemove).remote)
    {
      RunningHolds();
      RunningConsistent();
      hide Safe, Identity, Consistent, WriteSafe, Holding, Serve;
      if policy.Alone? { OnlyLockLeft(intent, remote, cp); RemoveIsSafe(intent, remote, cp); }
    }

    /** Give up the lock, make sure it is gone, and record completion. */
    method RemoveLock() returns (o: Publishing<()>)
      requires Running()
      requires policy.Alone? ==> remote.DigestAt(Latest) == Some(intent.image) && remote.release.Some? && Evidence(cp)
      modifies this`remote, this`journal, this`cp, this`script, this`issued, this`effects, this`audit
      ensures Safe()
      ensures o.Done? ==> Recorded() && cp.lockRemoved && cp.phase == Complete
      ensures o.Done? && policy.Alone? ==> Final(intent, remote)
      ensures policy.Alone? && old(script) == [] ==> o.Done? && script == []
      ensures o.Done? ==> audit.state.Some? && Final(intent, audit.state.value) && CheckedSince(old(audit), 2, 2)
    {
      hide Running, Safe, Backed, Answered, Journaled, GaveUp, LeftAmbiguous, Lawful, Identity, Consistent, WriteSafe,
        Holding, Components, Evidence;
      var _ :- RemoveLockRef();
      ReadyFacts();
      var state :- ReadState();
      if state.lock.Some? { return Blocked(RemovalUnverified); }
      var _ :- RecordCompletion();
      if !Final(intent, state) { return Blocked(FinalStateNotExact); }
      o := Done(());
    }

    /** Evidence on record is of what happened: a pull that ran the image, and losing writes that were refused. */
    lemma {:induction false} EvidenceHappened()
      requires Safe() && journal != []
      ensures Last().smoke.Some? || Last().lockRemoved ==> intent.smoke in pulls
      ensures Last().createProbe.Some? && Last().createProbe.value.stage == Verified ==>
                exists k :: 0 <= k < |effects| && CreateRefused(effects[k], Last().createProbe.value)
      ensures Last().casProbe.Some? && Last().casProbe.value.stage == Verified ==>
                exists k :: 0 <= k < |effects| && SwapRefused(effects[k], Last().casProbe.value)
    {
      hide Consistent, AcceptedRun, CallsLawful, EffectsLawful;
      if ProbeVerified(Last().createProbe) {
        var k :| 0 <= k < |effects| && LoserRefused(CreateProbe, effects[k], Last().createProbe.value);
        assert CreateRefused(effects[k], Last().createProbe.value);
      }
      if ProbeVerified(Last().casProbe) {
        var k :| 0 <= k < |effects| && LoserRefused(CasProbe, effects[k], Last().casProbe.value);
        assert SwapRefused(effects[k], Last().casProbe.value);
      }
    }

    // ------------------------------------------------------------ beginning and resuming

    /** A new publication: nothing of it may exist yet, and the first receipt precedes every write. */
    method Begin(runToken: string) returns (o: Publishing<()>)
      requires Safe() && journal == []
      requires policy.Alone? ==> TokensUnused(FirstCheckpoint(intent, remote.actions, runToken))
      modifies this`remote, this`journal, this`cp, this`script, this`audit
      ensures Safe()
      ensures o.Done? ==> Ready() && journal == [cp] && cp == FirstCheckpoint(intent, cp.actionsBaseline, runToken)
      ensures o.Done? && policy.Alone? ==> remote == old(remote) && Pristine(intent, remote) && remote.lock.None?
      ensures policy.Alone? && old(script) == [] && old(Pristine(intent, remote) && remote.lock.None?) ==>
                o.Done? && script == []
      ensures o.Done? ==>
                && audit.runs == old(audit).runs + [cp.actionsBaseline, cp.actionsBaseline]
                && audit.state.Some?
                && var state := audit.state.value;
                   && state.main == intent.priorMain && state.tag.None? && state.release.None? && state.lock.None?
                   && VersionTag !in state.registry && state.DigestAt(Latest) == intent.priorLatest
      ensures old(script) == [] ==> !o.Crashed?
    {
      hide Safe, Lawful, Identity, Consistent, Initial, Transition, SameRun, TagsFresh;
      var first :- ActionsSnapshot();
      var second :- ActionsSnapshot();
      if first != second { return Blocked(ActionsBaselineUnstable); }
      var state :- ReadState();
      if state.lock.Some? { return Blocked(LockPreexisting); }
      if !Pristine(intent, state) { return Blocked(UnownedPartialPublication); }
      SafeTags();
      FirstLawful(intent, remote.(actions := first), runToken);
      label Checked:
      cp := FirstCheckpoint(intent, first, runToken);
      MemoryOnly@Checked();
      o := Record();
    }

    lemma SafeTags()
      requires Safe()
      ensures Lawful() && TagsIssued(remote)
    {
    }

    method ActionsSnapshot() returns (o: Publishing<seq<nat>>)
      requires Safe()
      modifies this`remote, this`script, this`audit
      ensures Safe() && Undisturbed()
      ensures o.Done? ==>
                o.value == remote.actions && audit == old(audit).(runs := old(audit).runs + [remote.actions])
      ensures old(script) == [] ==> script == [] && o.Done?
      ensures Fared(Next(old(script)), o)
    {
      hide Safe, TagsFresh;
      var f := Reach();
      if f == Dies { return Crashed; }
      if f != Works { return Blocked(RequestFailed); }
      audit := audit.(runs := audit.runs + [remote.actions]);
      o := Done(remote.actions);
    }

    /** A recovery that finds everything in place only has to confirm the evidence and say so. */
    method FinishRecovery() returns (o: Publishing<bool>)
      requires Recorded() && Removable(cp)
      requires policy.Alone? ==> Final(intent, remote)
      requires audit.state.Some? && audit.state.value.lock.None?
      modifies this`remote, this`journal, this`cp, this`script, this`audit
      ensures Safe()
      ensures o.Done? ==> o.value && Recorded() && cp.lockRemoved && cp.phase == Complete
      ensures policy.Alone? ==> remote == old(remote)
      ensures policy.Alone? && old(script) == [] ==> o.Done? && script == []
      ensures o.Done? ==> audit == old(audit).(winners := old(audit).winners + 2)
    {
      hide Running, Safe, Backed, Answered, Journaled, GaveUp, LeftAmbiguous, Lawful, Identity, Consistent;
      var _ :- VerifyCompletionEvidence();
      var _ :- RecordCompletion();
      o := Done(true);
    }

    /** Take note of a lock that an earlier process created without living to record it. */
    method ReconcileLock() returns (o: Publishing<bool>)
      requires Ready() && !cp.lockAcquired && cp.lockObject.Some? && remote.lock == cp.lockObject
      modifies this`journal, this`cp, this`script
      ensures Safe() && !o.Blocked?
      ensures o.Done? ==> !o.value && Running() && cp.latestAttempted == old(cp.latestAttempted)
      ensures old(script) == [] ==> o.Done? && script == []
      ensures o.Done? ==> cp == WithLock(old(cp), LockReconciled)
    {
      hide Safe, Lawful, Identity, Consistent, Transition, SameRun, Components;
      ReadyFacts();
      AcquiredLawful(intent, cp, LockReconciled);
      if policy.Alone? { AcquiredConsistent(intent, remote, cp, LockReconciled); }
      EvidenceStands(WithLock(cp, LockReconciled));
      var _ :- RecordNext(WithLock(cp, LockReconciled));
      ReadyFacts();
      o := Done(false);
    }

    /** What a recovery may go on with: complete, the lock in hand, or the lock still to be taken. */
    ghost predicate Resumed(complete: bool)
      reads this`remote, this`journal, this`cp, this`createToken, this`casToken, this`issued, this`effects, this`pulls
    {
      if complete then Recorded() && cp.lockRemoved && cp.phase == Complete && (policy.Alone? ==> Final(intent, remote))
      else if cp.lockAcquired then Running()
      else Ready() && (policy.Alone? ==> remote.lock.None?)
    }

    /** Take up a publication where its last receipt left it. */
    method Resume() returns (o: Publishing<bool>)
      requires Safe() && journal != [] && (policy.Alone? ==> TokensUnused(Last()))
      modifies this`remote, this`journal, this`cp, this`script, this`audit
      ensures Safe()
      ensures o.Done? ==> Resumed(o.value)
      ensures o.Done? && !o.value ==> cp.latestAttempted == old(Last()).latestAttempted
      ensures policy.Alone? ==> remote == old(remote)
      ensures policy.Alone? && old(script) == [] ==> o.Done? && script == []
      ensures policy.Alone? && o.Done? ==> (o.value <==> old(Last()).lockAcquired && remote.lock.None?)
      ensures o.Done? ==>
                && audit.runs == old(audit).runs + [old(Last()).actionsBaseline]
                && audit.state.Some?
                && var state := audit.state.value;
                   if o.value then Final(intent, state) && audit.winners == old(audit).winners + 2
                   else state.lock == if cp.lockAcquired then cp.lockObject else None
    {
      hide Safe, Lawful, Running, Identity, Consistent, Components;
      cp := Last();
      MemoryOnly();
      var _ :- AssertActionsUnchanged();
      ReadyFacts();
      var state :- ReadState();
      ReadyFacts();
      o := ResumeAt(state);
    }

    lemma LockFacts()
      requires Recorded()
      ensures cp.lockRemoved || InFlight(cp.phase, LockRefRemove) ==> Removable(cp)
      ensures cp.lockObject.Some? ==> cp.lockObject == Some(Mine())
      ensures policy.Alone? ==>
                && (cp.lockRemoved ==> Final(intent, remote))
                && (cp.lockAcquired && remote.lock.None? ==>
                   Final(intent, remote) && (cp.lockRemoved || InFlight(cp.phase, LockRefRemove)))
                && (cp.lockAcquired && remote.lock.Some? ==> remote.lock == cp.lockObject && !cp.lockRemoved)
                && (!cp.lockAcquired && remote.lock.Some? ==>
                   remote.lock == cp.lockObject && InFlight(cp.phase, LockRefCreate))
    {
      hide Consistent;
      if policy.Alone? { LockStanding(intent, remote, cp); }
    }

    lemma HoldsLock()
      requires Ready() && cp.lockAcquired && !cp.lockRemoved && remote.lock == cp.lockObject && cp.lockObject.Some?
      ensures Running()
    {
    }

    method ResumeAt(state: Remote) returns (o: Publishing<bool>)
      requires Ready() && state == remote
      requires LastRead(state)
      modifies this`remote, this`journal, this`cp, this`script, this`audit
      ensures Safe()
      ensures o.Done? ==> Resumed(o.value)
      ensures o.Done? && !o.value ==> cp.latestAttempted == old(cp).latestAttempted
      ensures policy.Alone? ==> remote == old(remote)
      ensures policy.Alone? && old(script) == [] ==> o.Done? && script == []
      ensures policy.Alone? && o.Done? ==> (o.value <==> old(cp).lockAcquired && remote.lock.None?)
      ensures o.Done? ==> LastRead(state) && audit.runs == old(audit).runs
                          && if o.value then Final(intent, state) && audit.winners == old(audit).winners + 2
                             else state.lock == if cp.lockAcquired then cp.lockObject else None
      ensures old(cp).lockRemoved && state.lock.Some? ==> o == Blocked(RemovedLockReappeared)
      ensures old(cp).lockRemoved && state.lock.None? && !Final(intent, state) ==>
                o == Blocked(LockMissingBeforeCompletion)
      ensures !old(cp).lockRemoved && old(cp).lockAcquired && state.lock != old(cp).lockObject
                && !(state.lock.None? && InFlight(old(cp).phase, LockRefRemove) && Final(intent, state)) ==>
                o == Blocked(LockMissingOrReplaced)
      ensures !old(cp).lockRemoved && !old(cp).lockAcquired && state.lock.Some?
                && !(state.lock == old(cp).lockObject && InFlight(old(cp).phase, LockRefCreate)) ==>
                o == Blocked(LockReplacedDuringAcquisition)
    {
      hide Safe, Lawful, Running, Identity, Consistent, Components;
      LockFacts();
      if cp.lockRemoved {
        if state.lock.Some? { return Blocked(RemovedLockReappeared); }
        if !Final(intent, state) { return Blocked(LockMissingBeforeCompletion); }
        o := FinishRecovery();
        return;
      }
      if state.lock.None? && InFlight(cp.phase, LockRefRemove) && Final(intent, state) {
        o := FinishRecovery();
        return;
      }
      if cp.lockAcquired {
        if cp.lockObject.None? || state.lock != cp.lockObject { return Blocked(LockMissingOrReplaced); }
        HoldsLock();
      } else if state.lock.Some? {
        if !(cp.lockObject.Some? && InFlight(cp.phase, LockRefCreate) && state.lock == cp.lockObject) {
          return Blocked(LockReplacedDuringAcquisition);
        }
        o := ReconcileLock();
        return;
      }
      o := Done(false);
    }

    // ------------------------------------------------------------ the whole publication

    /** Everything up to and including the version tag in the registry. */
    method PublishVersion() returns (o: Publishing<()>)
      requires Running()
      modifies this`remote, this`journal, this`cp, this`script, this`issued, this`effects, this`audit
      ensures Safe()
      ensures o.Done? ==> Running() && ProbeVerified(cp.createProbe) && cp.latestAttempted == old(cp).latestAttempted
      ensures o.Done? && policy.Alone? ==>
                VersionTag in remote.registry && remote.DigestAt(Latest) == old(remote).DigestAt(Latest)
      ensures policy.Alone? && old(script) == [] ==> o.Done? && script == []
      ensures o.Done? ==> audit.state.Some? && audit.state.value.DigestAt(VersionTag) == Some(intent.image)
    {
      hide Running, Safe, Backed, Answered, Journaled, GaveUp, LeftAmbiguous, Identity, Consistent, Holding;
      var state :- AdvanceMain();
      state :- PublishTag(state);
      var _ :- UploadBlobs();
      var _ :- PutManifests();
      o := CreateVersion(state);
    }

    /** From the version tag on: smoke, release, latest, and the end of the lock. */
    method PublishRelease() returns (o: Publishing<()>)
      requires Running() && ProbeVerified(cp.createProbe)
      requires policy.Alone? ==> VersionTag in remote.registry
      modifies this`remote, this`journal, this`cp, this`script, this`issued, this`effects, this`pulls, this`audit
      ensures Safe()
      ensures o.Done? ==> Recorded() && cp.lockRemoved && cp.phase == Complete
      ensures o.Done? && policy.Alone? ==> Final(intent, remote)
      ensures policy.Alone? && old(script) == [] ==>
                script == []
                && if old(cp.latestAttempted && remote.DigestAt(Latest) == intent.priorLatest)
                   then o == Blocked(LatestUnresolvedOutcome) else o.Done?
      ensures o.Done? ==> audit.state.Some? && Final(intent, audit.state.value) && intent.smoke in pulls
    {
      hide Running, Safe, Backed, Answered, Journaled, GaveUp, LeftAmbiguous, Identity, Consistent, Holding;
      var _ :- Smoke();
      var state :- CreateRelease();
      var _ :- MoveLatest(state);
      o := RemoveLock();
    }

    /** Whether only an operator can say what became of an earlier update of latest. */
    ghost predicate LatestInDoubt()
      reads this`remote, this`journal
    {
      journal != [] && Last().latestAttempted && remote.lock.Some? && remote.DigestAt(Latest) == intent.priorLatest
    }

    lemma DoubtNeedsLock()
      requires Safe() && journal != []
      ensures policy.Alone? && Last().latestAttempted ==> Last().lockAcquired
    {
    }

    /** Publish, or recover: one process of the publication, from its first request to its end. */
    method Publish(runToken: string) returns (o: Publishing<()>)
      requires Safe()
      requires policy.Alone? ==>
                TokensUnused(if journal == [] then FirstCheckpoint(intent, remote.actions, runToken) else Last())
      modifies this`remote, this`journal, this`cp, this`script, this`issued, this`effects, this`pulls, this`audit
      ensures Safe()
      ensures o.Done? ==> Recorded() && cp.lockRemoved && cp.phase == Complete
      ensures o.Done? && policy.Alone? ==> Final(intent, remote)
      ensures policy.Alone? && old(script) == [] && old(journal) != [] ==>
                if old(LatestInDoubt()) then o == Blocked(LatestUnresolvedOutcome) else o.Done?
      ensures policy.Alone? && old(script == [] && journal == [] && Pristine(intent, remote) && remote.lock.None?) ==>
                o.Done?
      ensures o.Done? ==> audit.state.Some? && Final(intent, audit.state.value)
      ensures o.Done? && policy.Alone? ==>
                && remote.main == intent.releaseCommit && remote.tag == Some(intent.tagObject)
                && remote.release == Some(intent.release) && remote.lock.None?
                && remote.DigestAt(VersionTag) == Some(intent.image) && remote.DigestAt(Latest) == Some(intent.image)
      ensures policy.Alone? && old(script) == [] ==> !o.Crashed?
    {
      hide Running, Safe, Backed, Answered, Journaled, GaveUp, LeftAmbiguous, Identity, Consistent, Holding;
      if journal == [] {
        var _ :- Begin(runToken);
      } else {
        DoubtNeedsLock();
        var complete :- Resume();
        if complete { return Done(()); }
      }
      if !cp.lockAcquired {
        if cp.lockObject.None? { var _ :- CreateLockObject(); }
        var _ :- CreateLockRef();
      }
      var _ :- PublishVersion();
      o := PublishRelease();
    }

    /** A first run, undisturbed, up to the point where latest may be armed. */
    method RunUpToLatest(runToken: string) returns (o: Publishing<()>)
      requires Safe() && policy.Alone? && journal == [] && script == []
      requires Pristine(intent, remote) && remote.lock.None?
      requires TokensUnused(FirstCheckpoint(intent, remote.actions, runToken))
      modifies this`remote, this`journal, this`cp, this`script, this`issued, this`effects, this`pulls, this`audit
      ensures o.Done? && Running() && Evidence(cp) && script == [] && !cp.latestAttempted
      ensures remote.DigestAt(Latest) == intent.priorLatest
    {
      hide Running, Safe, Identity, Consistent, Holding, Backed, LoserWasRefused, WinnerInPlace, CheckedSince;
      o := Begin(runToken);
      o := CreateLockObject();
      o := CreateLockRef();
      o := PublishVersion();
      o := Smoke();
      var state := CreateRelease();
      o := RunLatestCasProbe();
    }

    /**
     A process that dies right after arming latest: the requests and receipts of a first run up to that point. Every
     later run finds latest in doubt and stops there.
     */
    method DieAfterArming(runToken: string) returns (o: Publishing<()>)
      requires Safe() && policy.Alone? && journal == [] && script == []
      requires Pristine(intent, remote) && remote.lock.None?
      requires TokensUnused(FirstCheckpoint(intent, remote.actions, runToken))
      modifies this`remote, this`journal, this`cp, this`script, this`issued, this`effects, this`pulls, this`audit
      ensures Safe() && LatestInDoubt() && script == [] && !o.Blocked?
      ensures TokensUnused(Last())
    {
      hide Running, Safe, Identity, Consistent, Holding, Transition, SameRun, Backed;
      o := RunUpToLatest(runToken);
      RunningHolds();
      RunningConsistent();
      ArmLawful(intent, cp);
      ArmConsistent(intent, remote, cp);
      EvidenceStands(WithLatestArmed(cp));
      o := Advance(WithLatestArmed(cp));
      RunningHolds();
      o := Crashed;
    }

    /** A publication nobody has begun. */
    constructor (intent: Intent, policy: Policy, remote: Remote)
      requires intent.Valid() && TagsIssued(remote)
      ensures Safe() && journal == []
      ensures this.intent == intent && this.policy == policy && this.remote == remote
      ensures script == [] && createToken == "" && casToken == ""
    {
      this.intent, this.policy, this.remote := intent, policy, remote;
      journal, issued, effects, script, pulls := [], [], [], [], [];
      audit := Audit(None, 0, 0, []);
      cp := FirstCheckpoint(intent, remote.actions, "");
      createToken, casToken := "", "";
    }

    /**
     Any number of processes over one journal, each cut off or misled wherever its script says. A random probe
     token that is already in use is not drawn.
     */
    method RunProcesses(processes: seq<Process>) returns (outcomes: seq<Option<Publishing<()>>>)
      requires Safe()
      modifies this
      ensures Safe() && |outcomes| == |processes|
      ensures policy.Alone? && outcomes != [] && outcomes[|outcomes| - 1] == Some(Done(())) ==> Final(intent, remote)
      ensures forall k :: 0 <= k < |outcomes| && policy.Alone? && processes[k].script == [] ==>
                outcomes[k] != Some(Crashed)
    {
      hide Safe, Final;
      outcomes := [];
      for k := 0 to |processes|
        invariant Safe() && |outcomes| == k
        invariant policy.Alone? && outcomes != [] && outcomes[|outcomes| - 1] == Some(Done(())) ==>
                    Final(intent, remote)
        invariant forall j :: 0 <= j < k && policy.Alone? && processes[j].script == [] ==> outcomes[j] != Some(Crashed)
      {
        var p := processes[k];
        script, createToken, casToken := p.script, p.createToken, p.casToken;
        var standing := if journal == [] then FirstCheckpoint(intent, remote.actions, p.runToken) else Last();
        var o: Option<Publishing<()>> := None;
        if TokensUnused(standing) {
          var ended := Publish(p.runToken);
          o := Some(ended);
        }
        outcomes := outcomes + [o];
      }
    }
  }

  /** The window is real: a process that dies there, and a second one in which everything works and that blocks. */
  method LatestStaysInDoubt(intent: Intent, remote: Remote, runToken: string)
    returns (p: Task12Publisher, o: Publishing<()>)
    requires intent.Valid() && TagsIssued(remote) && Pristine(intent, remote) && remote.lock.None?
    requires ProbeRef(CreateProbe, "") !in remote.registry && ProbeRef(CasProbe, "") !in remote.registry
    ensures p.Safe() && o == Blocked(LatestUnresolvedOutcome)
  {
    hide Task12Publisher.Safe;
    p := new Task12Publisher(intent, Alone, remote);
    var _ := p.DieAfterArming(runToken);
    o := p.Publish(runToken);
  }

  /** One process: how its requests fare, and the tokens it draws. */
  datatype Process = Process(script: seq<Tick>, runToken: string, createToken: string, casToken: string)
}
