/** Two publishers of different runs never interleave their public writes. */
module MutualExclusion {
  import opened Outcomes
  import opened Checkpoints
  import opened Remotes
  import opened Publication
  import opened Publisher

  /** What one publisher does is a change the other one allows for. */
  lemma {:induction false} OthersRespectOurLock(i: Intent, theirs: ObjectSha, mine: ObjectSha, e: Effect)
    requires EffectLawful(i, theirs, e) && theirs != mine
    ensures Permitted(OtherPublishers, e.before, e.after, mine)
  {
  }

  /** The requests of another publisher between two of ours amount to one permitted change. */
  lemma {:induction false} OthersRespectInSequence(i: Intent, theirs: ObjectSha, mine: ObjectSha, effects: seq<Effect>)
    requires effects != [] && theirs != mine
    requires forall k :: 0 <= k < |effects| ==> EffectLawful(i, theirs, effects[k])
    requires forall k :: 0 <= k < |effects| - 1 ==> effects[k].after == effects[k + 1].before
    ensures Permitted(OtherPublishers, effects[0].before, effects[|effects| - 1].after, mine)
    decreases |effects|
  {
    hide TagsFresh, EffectLawful;
    OthersRespectOurLock(i, theirs, mine, effects[0]);
    if |effects| > 1 {
      OthersRespectInSequence(i, theirs, mine, effects[1..]);
      TagsFreshTransitive(effects[0].before, effects[0].after, effects[|effects| - 1].after);
    }
  }

  /** So each of two publishers is to the other what that one's proof allows for: the argument closes. */
  lemma {:induction false} RelyDischarged(p: Task12Publisher, q: Task12Publisher, between: seq<Effect>)
    requires p.Safe() && q.Safe() && p.journal != [] && q.journal != []
    requires p.Last().runToken != q.Last().runToken
    requires between != [] && forall k :: 0 <= k < |between| ==> between[k] in q.effects
    requires forall k :: 0 <= k < |between| - 1 ==> between[k].after == between[k + 1].before
    ensures Permitted(OtherPublishers, between[0].before, between[|between| - 1].after, p.Mine())
  {
    TokensSeparateLocks(p, q);
    assert forall e :: e in q.effects ==> EffectLawful(q.intent, q.Mine(), e);
    OthersRespectInSequence(q.intent, q.Mine(), p.Mine(), between);
  }

  datatype Actor = First | Second

  /** One served write in the common history of both publishers. */
  datatype Step = Step(actor: Actor, effect: Effect)

  function EffectsOf(trace: seq<Step>, actor: Actor): (effects: seq<Effect>)
    ensures |effects| <= |trace|
    ensures forall e :: e in effects ==> exists k :: 0 <= k < |trace| && trace[k] == Step(actor, e)
  {
    if trace == [] then []
    else
      var n := |trace| - 1;
      var before := EffectsOf(trace[..n], actor);
      if trace[n].actor == actor then before + [trace[n].effect] else before
  }

  /** What each publisher's own proof says of its effects. */
  ghost predicate Disciplined(i: Intent, sha: ObjectSha, effects: seq<Effect>) {
    && (forall e :: e in effects ==> EffectLawful(i, sha, e) && EffectGuarded(sha, e))
    && LockNotRetaken(effects)
  }

  /** Every publisher, in every run, crash and recovery, is disciplined unless lock refs are forged. */
  lemma {:induction false} PublishersAreDisciplined(p: Task12Publisher)
    requires p.Safe() && p.journal != [] && p.policy != Anyone
    ensures Disciplined(p.intent, p.Mine(), p.effects)
  {
  }

  /** One lock, seen by both: nothing but served writes moves it. */
  ghost predicate OneLock(trace: seq<Step>) {
    forall k :: 0 <= k < |trace| - 1 ==> trace[k].effect.after.lock == trace[k + 1].effect.before.lock
  }

  lemma {:induction false} EffectPlaced(trace: seq<Step>, k: nat) returns (at: nat)
    requires k < |trace|
    ensures at < |EffectsOf(trace, trace[k].actor)|
    ensures EffectsOf(trace, trace[k].actor)[at] == trace[k].effect
    ensures at == |EffectsOf(trace[..k], trace[k].actor)|
    decreases |trace|
  {
    var n := |trace| - 1;
    if k == n {
      at := |EffectsOf(trace[..n], trace[k].actor)|;
    } else {
      assert trace[..n][..k] == trace[..k];
      at := EffectPlaced(trace[..n], k);
    }
  }

  lemma {:induction false} EffectsGrow(trace: seq<Step>, actor: Actor, m: nat, n: nat)
    requires m <= n <= |trace|
    ensures |EffectsOf(trace[..m], actor)| <= |EffectsOf(trace[..n], actor)|
    ensures m < n && trace[m].actor == actor ==> |EffectsOf(trace[..m], actor)| < |EffectsOf(trace[..n], actor)|
    decreases n
  {
    if m < n {
      assert trace[..n][..n - 1] == trace[..n - 1];
      EffectsGrow(trace, actor, m, n - 1);
    }
  }

  /** A publisher's removal is never followed by a creation of its own. */
  lemma {:induction false} NoRetake(trace: seq<Step>, actor: Actor, m: nat, n: nat)
    requires m < n < |trace| && trace[m].actor == actor && trace[n].actor == actor
    requires LockNotRetaken(EffectsOf(trace, actor))
    requires trace[m].effect.op == LockRefRemove
    ensures trace[n].effect.op != LockRefCreate
  {
    var a := EffectPlaced(trace, m);
    var b := EffectPlaced(trace, n);
    EffectsGrow(trace, actor, m, n);
  }

  lemma {:induction false} StepLawful(i: Intent, sha: ObjectSha, trace: seq<Step>, k: nat)
    requires k < |trace| && Disciplined(i, sha, EffectsOf(trace, trace[k].actor))
    ensures EffectLawful(i, sha, trace[k].effect) && EffectGuarded(sha, trace[k].effect)
  {
    var at := EffectPlaced(trace, k);
  }

  /** The intents and lock objects of the two publishers. */
  datatype Publishers = Publishers(intents: (Intent, Intent), locks: (ObjectSha, ObjectSha)) {
    function IntentOf(actor: Actor): Intent { if actor == First then intents.0 else intents.1 }
    function LockOf(actor: Actor): ObjectSha { if actor == First then locks.0 else locks.1 }
  }

  /** Different run tokens give different lock objects. */
  lemma {:induction false} TokensSeparateLocks(p: Task12Publisher, q: Task12Publisher)
    requires p.Safe() && q.Safe() && p.journal != [] && q.journal != []
    requires p.Last().runToken != q.Last().runToken
    ensures p.Mine() != q.Mine()
  {
    IdentityFacts(p.intent, p.Last());
    IdentityFacts(q.intent, q.Last());
  }

  /** A common history of both, in any interleaving. */
  ghost predicate Interleaved(p: Publishers, trace: seq<Step>) {
    && p.locks.0 != p.locks.1
    && OneLock(trace)
    && forall actor :: Disciplined(p.IntentOf(actor), p.LockOf(actor), EffectsOf(trace, actor))
  }

  lemma {:induction false} EveryStepLawful(p: Publishers, trace: seq<Step>, k: nat)
    requires Interleaved(p, trace) && k < |trace|
    ensures var s := trace[k];
            EffectLawful(p.IntentOf(s.actor), p.LockOf(s.actor), s.effect) && EffectGuarded(p.LockOf(s.actor), s.effect)
  {
    StepLawful(p.IntentOf(trace[k].actor), p.LockOf(trace[k].actor), trace, k);
  }

  /** A lock that was held and then is not was removed by its owner in between. */
  lemma {:induction false} LostByRemoval(p: Publishers, trace: seq<Step>, actor: Actor, m: nat, n: nat) returns (k: nat)
    requires Interleaved(p, trace) && m < n < |trace|
    requires trace[m].effect.before.lock == Some(p.LockOf(actor))
              && trace[n].effect.before.lock != Some(p.LockOf(actor))
    ensures m <= k < n && trace[k].actor == actor && trace[k].effect.op == LockRefRemove
    decreases n
  {
    EveryStepLawful(p, trace, n - 1);
    if trace[n - 1].effect.before.lock == Some(p.LockOf(actor)) {
      k := n - 1;
    } else {
      k := LostByRemoval(p, trace, actor, m, n - 1);
    }
  }

  /** A lock that was not held and then is was created by its owner in between. */
  lemma {:induction false} GainedByCreation(p: Publishers, trace: seq<Step>, actor: Actor, m: nat, n: nat)
    returns (k: nat)
    requires Interleaved(p, trace) && m < n < |trace|
    requires trace[m].effect.before.lock != Some(p.LockOf(actor))
              && trace[n].effect.before.lock == Some(p.LockOf(actor))
    ensures m <= k < n && trace[k].actor == actor && trace[k].effect.op == LockRefCreate
    decreases n
  {
    EveryStepLawful(p, trace, n - 1);
    if trace[n - 1].effect.before.lock != Some(p.LockOf(actor)) {
      k := n - 1;
    } else {
      k := GainedByCreation(p, trace, actor, m, n - 1);
    }
  }

  /** The spans in which two publishers make public writes other than the lock's own are disjoint. */
  lemma {:induction false} SpansDisjoint(p: Publishers, trace: seq<Step>, actor: Actor, m: nat, n: nat, k: nat)
    requires Interleaved(p, trace) && m < n < k < |trace|
    requires trace[m].actor == actor && trace[k].actor == actor && trace[n].actor != actor
    requires !IsLockOperation(trace[m].effect.op) && !IsLockOperation(trace[k].effect.op)
    ensures IsLockOperation(trace[n].effect.op)
  {
    if !IsLockOperation(trace[n].effect.op) {
      EveryStepLawful(p, trace, m);
      EveryStepLawful(p, trace, n);
      EveryStepLawful(p, trace, k);
      var lost := LostByRemoval(p, trace, actor, m, n);
      var gained := GainedByCreation(p, trace, actor, n, k);
      NoRetake(trace, actor, lost, gained);
      assert false;
    }
  }

  /**
   Mutual exclusion of two publishers of different runs: over all their processes, crashes and recoveries, in any
   interleaving of what the servers did for them, no non-lock write of one falls between two of the other.
   */
  lemma {:induction false} PublishersExcludeEachOther(
    p: Task12Publisher, q: Task12Publisher, trace: seq<Step>, m: nat, n: nat, k: nat)
    requires p.Safe() && q.Safe() && p.policy != Anyone && q.policy != Anyone
    requires p.journal != [] && q.journal != [] && p.Last().runToken != q.Last().runToken
    requires EffectsOf(trace, First) == p.effects && EffectsOf(trace, Second) == q.effects && OneLock(trace)
    requires m < n < k < |trace| && trace[m].actor == trace[k].actor != trace[n].actor
    requires !IsLockOperation(trace[m].effect.op) && !IsLockOperation(trace[k].effect.op)
    ensures IsLockOperation(trace[n].effect.op)
  {
    hide Disciplined;
    TokensSeparateLocks(p, q);
    PublishersAreDisciplined(p);
    PublishersAreDisciplined(q);
    var both := Publishers((p.intent, q.intent), (p.Mine(), q.Mine()));
    assert Interleaved(both, trace) by {
      forall actor ensures Disciplined(both.IntentOf(actor), both.LockOf(actor), EffectsOf(trace, actor)) {
      }
    }
    SpansDisjoint(both, trace, trace[m].actor, m, n, k);
  }
}
