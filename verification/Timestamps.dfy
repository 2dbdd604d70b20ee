/** The decoder's timestamp rule: a floor over the tokens so far, and the mask it puts on the next one. */
module Timestamps {

  /** A score, or minus infinity: a token that cannot be sampled. */
  datatype Logit = NegativeInfinity | Finite(score: real)

  predicate IsTimestamp(id: int, begin: int) {
    id >= begin
  }

  /** The position after the last timestamp, or 0 when there is none. */
  function LastTimestamp(tokens: seq<int>, begin: int): (p: nat)
    ensures p <= |tokens|
    ensures p > 0 ==> IsTimestamp(tokens[p - 1], begin)
    ensures forall k :: p <= k < |tokens| ==> !IsTimestamp(tokens[k], begin)
  {
    if tokens == [] then 0
    else if IsTimestamp(tokens[|tokens| - 1], begin) then |tokens|
    else LastTimestamp(tokens[..|tokens| - 1], begin)
  }

  /** The last token closed a cue: a timestamp that directly follows text. */
  predicate JustClosed(tokens: seq<int>, begin: int) {
    && |tokens| >= 2
    && IsTimestamp(tokens[|tokens| - 1], begin)
    && !IsTimestamp(tokens[|tokens| - 2], begin)
  }

  function FloorOf(tokens: seq<int>, begin: int): int {
    var p := LastTimestamp(tokens, begin);
    if p == 0 then begin
    else tokens[p - 1] + (if JustClosed(tokens, begin) then 0 else 1)
  }

  /** Scan backwards for the last timestamp. */
  method TimestampFloor(tokens: seq<int>, begin: int) returns (floor: int)
    ensures floor == FloorOf(tokens, begin)
  {
    var i := |tokens|;
    while i > 0
      invariant 0 <= i <= |tokens|
      invariant forall k :: i <= k < |tokens| ==> !IsTimestamp(tokens[k], begin)
    {
      if tokens[i - 1] >= begin {
        var lastTimestamp := tokens[|tokens| - 1] >= begin;
        var penultimateTimestamp := |tokens| < 2 || tokens[|tokens| - 2] >= begin;
        return tokens[i - 1] + (if lastTimestamp && !penultimateTimestamp then 0 else 1);
      }
      i := i - 1;
    }
    return begin;
  }

  /** Whether the filter leaves a token to be sampled next. */
  predicate Admitted(tokens: seq<int>, begin: int, next: int) {
    tokens == [] || next < begin || FloorOf(tokens, begin) <= next
  }

  /** Mask exactly the timestamps below the floor. */
  method TimestampFilter(tokens: seq<int>, begin: nat, logits: array<Logit>)
    modifies logits
    ensures forall id :: 0 <= id < logits.Length ==>
              logits[id] == if Admitted(tokens, begin, id) then old(logits[id]) else NegativeInfinity
  {
    if tokens == [] { return; }
    var end := TimestampFloor(tokens, begin);
    if end > logits.Length { end := logits.Length; }
    var i: int := begin;
    while i < end
      invariant begin <= i && (i <= end || i == begin)
      invariant forall id :: 0 <= id < logits.Length ==>
                  logits[id] == if begin <= id < i then NegativeInfinity else old(logits[id])
    {
      logits[i] := NegativeInfinity;
      i := i + 1;
    }
  }

  /** Every timestamp after the first token was admitted by the filter. */
  ghost predicate Decoded(s: seq<int>, begin: int) {
    forall k :: 0 <= k < |s| ==> Admitted(s[..k], begin, s[k])
  }

  /** Two timestamps in order; equal only as a closing one and the opening one right after it. */
  predicate InOrder(s: seq<int>, begin: int, i: nat, j: nat)
    requires i < j < |s|
  {
    && s[i] <= s[j]
    && (s[i] == s[j] ==> j == i + 1 && i >= 1 && !IsTimestamp(s[i - 1], begin))
  }

  ghost predicate Ordered(s: seq<int>, begin: int) {
    forall i, j :: 0 <= i < j < |s| && IsTimestamp(s[i], begin) && IsTimestamp(s[j], begin) ==> InOrder(s, begin, i, j)
  }

  lemma LastBefore(s: seq<int>, begin: int, i: nat, j: nat) returns (p: nat)
    requires i < j < |s| && IsTimestamp(s[i], begin)
    ensures i <= p < j && IsTimestamp(s[p], begin) && p == LastTimestamp(s[..j], begin) - 1
    ensures FloorOf(s[..j], begin) == s[p] + (if p == j - 1 && p >= 1 && !IsTimestamp(s[p - 1], begin) then 0 else 1)
  {
    assert s[..j][i] == s[i];
    p := LastTimestamp(s[..j], begin) - 1;
    if JustClosed(s[..j], begin) {
      assert IsTimestamp(s[..j][j - 1], begin);
    }
  }

  lemma {:induction false} DecodedPair(s: seq<int>, begin: int, i: nat, j: nat)
    requires Decoded(s, begin) && i < j < |s| && IsTimestamp(s[i], begin) && IsTimestamp(s[j], begin)
    ensures InOrder(s, begin, i, j)
    decreases j
  {
    assert Admitted(s[..j], begin, s[j]);
    var p := LastBefore(s, begin, i, j);
    if i < p {
      DecodedPair(s, begin, i, p);
    }
  }

  /** The filter, applied token by token, means exactly the pairwise rule on the whole sequence. */
  lemma {:induction false} DecodedMeansOrdered(s: seq<int>, begin: int)
    ensures Decoded(s, begin) <==> Ordered(s, begin)
  {
    if Decoded(s, begin) {
      forall i, j | 0 <= i < j < |s| && IsTimestamp(s[i], begin) && IsTimestamp(s[j], begin)
        ensures InOrder(s, begin, i, j) {
        DecodedPair(s, begin, i, j);
      }
    }
    if Ordered(s, begin) {
      forall k | 0 <= k < |s| ensures Admitted(s[..k], begin, s[k]) {
        var p := LastTimestamp(s[..k], begin);
        if p > 0 && IsTimestamp(s[k], begin) {
          var q := LastBefore(s, begin, p - 1, k);
          assert InOrder(s, begin, q, k);
        }
      }
    }
  }

  /** A spoken cue has positive duration: timestamps with text between them differ strictly. */
  lemma {:induction false} CuesAdvance(s: seq<int>, begin: int, i: nat, text: nat, j: nat)
    requires Decoded(s, begin) && i < text < j < |s|
    requires IsTimestamp(s[i], begin) && IsTimestamp(s[j], begin) && !IsTimestamp(s[text], begin)
    ensures s[i] < s[j]
  {
    DecodedPair(s, begin, i, j);
  }

  /** No timestamp value occurs three times. */
  lemma {:induction false} AtMostTwice(s: seq<int>, begin: int, i: nat, j: nat, k: nat)
    requires Decoded(s, begin) && i < j < k < |s| && IsTimestamp(s[i], begin) && s[i] == s[j]
    ensures s[k] != s[i]
  {
    if s[k] == s[i] {
      DecodedPair(s, begin, i, k);
    }
  }
}
