/** Pressure decisions from Frigate telemetry: streaks over distinct generations. */
module PriorityEvaluator {
  import opened Outcomes

  datatype Reason = Busy | Degraded | Unavailable | PolicyDrift

  datatype Decision = Decision(pressure: bool, clearEligible: bool, reasons: set<Reason>) {
    /** Add reasons; no reason at all leaves the decision as it was. */
    function Union(more: set<Reason>): Decision {
      if reasons + more == {} then this else Asserted(reasons + more)
    }
  }

  function Asserted(reasons: set<Reason>): Decision { Decision(true, false, reasons) }
  const Clear: Decision := Decision(false, true, {})
  const Neutral: Decision := Decision(false, false, {})

  datatype Camera = Camera(name: string, processFps: real, skippedFps: real)

  datatype Source = Source(
    generation: nat,
    detectionFps: real,
    cameras: seq<Camera>,
    detectors: seq<real>,
    embeddings: seq<Option<real>>,
    computeMode: string)

  datatype Policy = Policy(detectionFpsLimit: real, expectedFps: map<string, real>) {
    /** Normalisation admits only the policy's own cameras. */
    predicate Admits(s: Source) {
      forall k :: 0 <= k < |s.cameras| ==> s.cameras[k].name in expectedFps && expectedFps[s.cameras[k].name] > 0.0
    }

    function Ratio(c: Camera): real
      requires c.name in expectedFps && expectedFps[c.name] > 0.0
    {
      c.processFps / expectedFps[c.name]
    }

    predicate AllAbove(s: Source, bound: real)
      requires Admits(s)
    {
      forall k :: 0 <= k < |s.cameras| ==> Ratio(s.cameras[k]) >= bound
    }
  }

  predicate HasSkips(s: Source) {
    exists k :: 0 <= k < |s.cameras| && s.cameras[k].skippedFps > 0.0
  }

  /** Trouble that asserts pressure at once: large skips, a stalled worker, a foreign compute mode. */
  predicate InTrouble(s: Source) {
    || (exists k :: 0 <= k < |s.cameras| && s.cameras[k].skippedFps > 0.5)
    || 0.0 in s.detectors
    || Some(0.0) in s.embeddings
    || s.computeMode != "Default"
  }

  function Immediate(s: Source): Decision {
    if InTrouble(s) then Asserted({Degraded}) else Neutral
  }

  /** What the three streaks count. */
  datatype Signal = HighLoad | LowRate | Skipping

  predicate Shows(p: Policy, s: Source, signal: Signal)
    requires p.Admits(s)
  {
    match signal
    case HighLoad => s.detectionFps >= p.detectionFpsLimit
    case LowRate => !p.AllAbove(s, 0.95)
    case Skipping => HasSkips(s)
  }

  // ---------------------------------------------------------------- what a history means

  datatype Event =
    | Observed(source: Source, ollamaBusy: bool, ollamaUnavailable: bool)
    | ProbeFailed(reasons: set<Reason>)

  predicate AllAdmitted(p: Policy, h: seq<Event>) {
    forall k :: 0 <= k < |h| && h[k].Observed? ==> p.Admits(h[k].source)
  }

  predicate Newer(s: Source, current: Option<Source>) {
    current.None? || current.value.generation < s.generation
  }

  /** The source of the newest generation, as it was first seen. */
  function Current(h: seq<Event>): Option<Source> {
    if h == [] then None
    else
      var n := |h| - 1;
      if h[n].Observed? && Newer(h[n].source, Current(h[..n])) then Some(h[n].source) else Current(h[..n])
  }

  /** The last event brought a new generation. */
  predicate Fresh(h: seq<Event>) {
    h != [] && h[|h| - 1].Observed? && Newer(h[|h| - 1].source, Current(h[..|h| - 1]))
  }

  /** The last event breaks all streaks: a failure, an outage, a regressed or a mutated generation. */
  predicate Resets(h: seq<Event>) {
    h != [] &&
    var e := h[|h| - 1];
    e.ProbeFailed? || e.ollamaUnavailable || (!Fresh(h) && Some(e.source) != Current(h[..|h| - 1]))
  }

  /** The new generations seen since the last reset, oldest first. */
  function Window(h: seq<Event>): seq<Source> {
    if h == [] || Resets(h) then []
    else if Fresh(h) then Window(h[..|h| - 1]) + [h[|h| - 1].source]
    else Window(h[..|h| - 1])
  }

  predicate WindowAdmitted(p: Policy, w: seq<Source>) {
    forall k :: 0 <= k < |w| ==> p.Admits(w[k])
  }

  /** The last n sources all show the signal. */
  predicate ShownLast(p: Policy, w: seq<Source>, signal: Signal, n: nat)
    requires WindowAdmitted(p, w)
  {
    n <= |w| && forall k :: |w| - n <= k < |w| ==> Shows(p, w[k], signal)
  }

  /** The length of the longest run of the signal at the end of the window. */
  function Streak(p: Policy, w: seq<Source>, signal: Signal): (n: nat)
    requires WindowAdmitted(p, w)
    ensures forall m: nat :: m <= n <==> ShownLast(p, w, signal, m)
  {
    if w == [] || !Shows(p, w[|w| - 1], signal) then 0
    else
      var before := Streak(p, w[..|w| - 1], signal);
      StreakGrows(p, w, w[..|w| - 1], signal, before);
      1 + before
  }

  lemma StreakGrows(p: Policy, w: seq<Source>, rest: seq<Source>, signal: Signal, before: nat)
    requires WindowAdmitted(p, w) && w != [] && rest == w[..|w| - 1] && Shows(p, w[|w| - 1], signal)
    requires forall m: nat :: m <= before <==> ShownLast(p, rest, signal, m)
    ensures forall m: nat :: m <= before + 1 <==> ShownLast(p, w, signal, m)
  {
    forall m: nat ensures m <= before + 1 <==> ShownLast(p, w, signal, m) {
      if m > 0 {
        assert m - 1 <= before <==> ShownLast(p, rest, signal, m - 1);
        assert ShownLast(p, w, signal, m) ==> ShownLast(p, rest, signal, m - 1) by {
          if ShownLast(p, w, signal, m) {
            forall k | |rest| - (m - 1) <= k < |rest| ensures Shows(p, rest[k], signal) {
              assert Shows(p, w[k], signal);
            }
          }
        }
        assert ShownLast(p, rest, signal, m - 1) ==> ShownLast(p, w, signal, m) by {
          if ShownLast(p, rest, signal, m - 1) {
            forall k | |w| - m <= k < |w| ensures Shows(p, w[k], signal) {
              if k < |rest| { assert Shows(p, rest[k], signal); }
            }
          }
        }
      }
    }
  }

  /** The decision on the newest generation of a window. */
  function Base(p: Policy, w: seq<Source>): Decision
    requires WindowAdmitted(p, w) && w != []
  {
    var s := w[|w| - 1];
    var reasons := (if ShownLast(p, w, HighLoad, 2) then {Busy} else {})
                   + (if InTrouble(s) || ShownLast(p, w, LowRate, 2) || ShownLast(p, w, Skipping, 3)
                      then {Degraded} else {});
    if reasons != {} then Asserted(reasons)
    else if !Shows(p, s, HighLoad) && p.AllAbove(s, 0.98) then Clear
    else Neutral
  }

  /** The decision that stands since the newest generation came. */
  function Standing(p: Policy, h: seq<Event>): Option<Decision>
    requires AllAdmitted(p, h)
  {
    if h == [] then None
    else if !Fresh(h) then Standing(p, h[..|h| - 1])
    else if h[|h| - 1].ollamaUnavailable then Some(Immediate(h[|h| - 1].source))
    else
      WindowIsAdmitted(p, h);
      Some(Base(p, Window(h)))
  }

  /** What the last event adds to the standing decision. */
  function Added(h: seq<Event>): set<Reason>
    requires h != []
  {
    var e := h[|h| - 1];
    if e.ProbeFailed? then e.reasons
    else
      (if e.ollamaBusy then {Busy} else {})
      + (if e.ollamaUnavailable || (!Fresh(h) && Some(e.source) != Current(h[..|h| - 1])) then {Unavailable} else {})
  }

  /** The decision published after a history; none before the first source. */
  function DecisionOf(p: Policy, h: seq<Event>): Option<Decision>
    requires AllAdmitted(p, h) && h != []
  {
    if Standing(p, h).None? then None else Some(Standing(p, h).value.Union(Added(h)))
  }

  lemma {:induction false} WindowIsAdmitted(p: Policy, h: seq<Event>)
    requires AllAdmitted(p, h)
    ensures WindowAdmitted(p, Window(h))
    decreases |h|
  {
    if h != [] { WindowIsAdmitted(p, h[..|h| - 1]); }
  }

  /** A generation is new exactly when it is above every generation observed before. */
  lemma {:induction false} FreshMeansHighest(h: seq<Event>)
    ensures Current(h).Some? <==> exists k :: 0 <= k < |h| && h[k].Observed?
    ensures forall k :: 0 <= k < |h| && h[k].Observed? ==> !Newer(h[k].source, Current(h))
    ensures Current(h).Some? ==> exists k :: FirstOfItsGeneration(h, k) && Current(h) == Some(h[k].source)
    decreases |h|
  {
    if h != [] {
      var n := |h| - 1;
      FreshMeansHighest(h[..n]);
      if h[n].Observed? { assert h[n].Observed?; }
      if Current(h[..n]).Some? {
        var k :| FirstOfItsGeneration(h[..n], k) && Current(h[..n]) == Some(h[..n][k].source);
        forall j | 0 <= j < k && h[j].Observed? ensures h[j].source.generation < h[k].source.generation {
          assert h[..n][j].Observed?;
        }
        assert FirstOfItsGeneration(h, k);
      }
      if Fresh(h) {
        forall j | 0 <= j < n && h[j].Observed? ensures h[j].source.generation < h[n].source.generation {
          assert h[..n][j].Observed?;
        }
        assert FirstOfItsGeneration(h, n);
      }
    }
  }

  /** Every generation observed before position k is below the one observed there. */
  predicate FirstOfItsGeneration(h: seq<Event>, k: int) {
    && 0 <= k < |h| && h[k].Observed?
    && forall j :: 0 <= j < k && h[j].Observed? ==> h[j].source.generation < h[k].source.generation
  }

  /** Repeated polls of an unchanged generation advance no streak and change no standing decision. */
  lemma {:induction false} RepeatsAdvanceNothing(p: Policy, h: seq<Event>, s: Source, busy: bool)
    requires AllAdmitted(p, h) && p.Admits(s) && Current(h) == Some(s)
    ensures var after := h + [Observed(s, busy, false)];
            && Window(after) == Window(h)
            && Current(after) == Current(h)
            && AllAdmitted(p, after)
            && Standing(p, after) == Standing(p, h)
  {
    var after := h + [Observed(s, busy, false)];
    assert after[..|after| - 1] == h;
  }

  /** No decision is both clear-eligible and pressured, and pressure always has a reason. */
  lemma {:induction false} StandingIsCoherent(p: Policy, h: seq<Event>)
    requires AllAdmitted(p, h)
    ensures Standing(p, h).Some? <==> Current(h).Some?
    ensures Standing(p, h).Some? ==> Coherent(Standing(p, h).value)
    decreases |h|
  {
    if h != [] { StandingIsCoherent(p, h[..|h| - 1]); }
  }

  predicate Coherent(d: Decision) {
    && !(d.pressure && d.clearEligible)
    && (d.pressure <==> d.reasons != {})
  }

  lemma {:induction false} DecisionsAreCoherent(p: Policy, h: seq<Event>)
    requires AllAdmitted(p, h) && h != []
    ensures DecisionOf(p, h).Some? <==> Current(h).Some?
    ensures DecisionOf(p, h).Some? ==> Coherent(DecisionOf(p, h).value)
    ensures DecisionOf(p, h).Some? && DecisionOf(p, h).value.clearEligible ==> Added(h) == {}
  {
    StandingIsCoherent(p, h);
  }

  // ---------------------------------------------------------------- the decision over the fields of the sources

  predicate SkipsAbove(s: Source, bound: real) {
    exists k :: 0 <= k < |s.cameras| && s.cameras[k].skippedFps > bound
  }

  /** A camera that processes less than the given share of its expected frames. */
  predicate SlowerThan(p: Policy, s: Source, share: real)
    requires p.Admits(s)
  {
    exists k :: 0 <= k < |s.cameras| && s.cameras[k].processFps / p.expectedFps[s.cameras[k].name] < share
  }

  predicate WorkerStalled(s: Source) {
    || (exists k :: 0 <= k < |s.detectors| && s.detectors[k] == 0.0)
    || (exists k :: 0 <= k < |s.embeddings| && s.embeddings[k] == Some(0.0))
  }

  /** The source alone is reason enough. */
  predicate Alarming(s: Source) {
    SkipsAbove(s, 0.5) || WorkerStalled(s) || s.computeMode != "Default"
  }

  predicate LastTwoAtLimit(p: Policy, w: seq<Source>) {
    |w| >= 2 && w[|w| - 1].detectionFps >= p.detectionFpsLimit && w[|w| - 2].detectionFps >= p.detectionFpsLimit
  }

  predicate LastTwoSlow(p: Policy, w: seq<Source>)
    requires WindowAdmitted(p, w)
  {
    |w| >= 2 && SlowerThan(p, w[|w| - 1], 0.95) && SlowerThan(p, w[|w| - 2], 0.95)
  }

  predicate LastThreeSkip(w: seq<Source>) {
    |w| >= 3 && SkipsAbove(w[|w| - 1], 0.0) && SkipsAbove(w[|w| - 2], 0.0) && SkipsAbove(w[|w| - 3], 0.0)
  }

  lemma {:induction false} SignalsOverFields(p: Policy, s: Source)
    requires p.Admits(s)
    ensures Shows(p, s, HighLoad) <==> s.detectionFps >= p.detectionFpsLimit
    ensures Shows(p, s, LowRate) <==> SlowerThan(p, s, 0.95)
    ensures Shows(p, s, Skipping) <==> SkipsAbove(s, 0.0)
    ensures p.AllAbove(s, 0.98) <==> !SlowerThan(p, s, 0.98)
    ensures InTrouble(s) <==> Alarming(s)
  {
    assert forall c: Camera | c.name in p.expectedFps && p.expectedFps[c.name] > 0.0 ::
             p.Ratio(c) == c.processFps / p.expectedFps[c.name];
    assert p.AllAbove(s, 0.95) ==> !SlowerThan(p, s, 0.95);
    if !p.AllAbove(s, 0.95) {
      var k :| 0 <= k < |s.cameras| && p.Ratio(s.cameras[k]) < 0.95;
      assert s.cameras[k].processFps / p.expectedFps[s.cameras[k].name] < 0.95;
    }
    if !p.AllAbove(s, 0.98) {
      var k :| 0 <= k < |s.cameras| && p.Ratio(s.cameras[k]) < 0.98;
      assert s.cameras[k].processFps / p.expectedFps[s.cameras[k].name] < 0.98;
    }
  }

  lemma {:induction false} LastShown(p: Policy, w: seq<Source>, signal: Signal)
    requires WindowAdmitted(p, w)
    ensures ShownLast(p, w, signal, 2) <==>
              |w| >= 2 && Shows(p, w[|w| - 1], signal) && Shows(p, w[|w| - 2], signal)
    ensures ShownLast(p, w, signal, 3) <==>
              |w| >= 3 && Shows(p, w[|w| - 1], signal) && Shows(p, w[|w| - 2], signal) && Shows(p, w[|w| - 3], signal)
  {
  }

  /** What is decided on a window: each reason, and no pressure, exactly when its condition holds. */
  lemma {:induction false} BaseOverFields(p: Policy, w: seq<Source>)
    requires WindowAdmitted(p, w) && w != []
    ensures var s := w[|w| - 1]; var d := Base(p, w);
            && (Busy in d.reasons <==> LastTwoAtLimit(p, w))
            && (Degraded in d.reasons <==> Alarming(s) || LastTwoSlow(p, w) || LastThreeSkip(w))
            && Unavailable !in d.reasons && PolicyDrift !in d.reasons
            && (d.pressure <==> d.reasons != {})
            && (d.clearEligible <==> d.reasons == {} && s.detectionFps < p.detectionFpsLimit && !SlowerThan(p, s, 0.98))
  {
    hide Shows, ShownLast, InTrouble, Alarming, SlowerThan, SkipsAbove, Policy.AllAbove;
    forall k | 0 <= k < |w|
      ensures p.Admits(w[k])
      ensures Shows(p, w[k], HighLoad) <==> w[k].detectionFps >= p.detectionFpsLimit
      ensures Shows(p, w[k], LowRate) <==> SlowerThan(p, w[k], 0.95)
      ensures Shows(p, w[k], Skipping) <==> SkipsAbove(w[k], 0.0)
    {
      SignalsOverFields(p, w[k]);
    }
    SignalsOverFields(p, w[|w| - 1]);
    LastShown(p, w, HighLoad);
    LastShown(p, w, LowRate);
    LastShown(p, w, Skipping);
    assert ShownLast(p, w, HighLoad, 2) <==> LastTwoAtLimit(p, w);
    assert ShownLast(p, w, LowRate, 2) <==> LastTwoSlow(p, w);
    assert ShownLast(p, w, Skipping, 3) <==> LastThreeSkip(w);
  }

  /** What one event does to the window, over the generations that were observed before it. */
  lemma {:induction false} WindowOverFields(h: seq<Event>, e: Event)
    ensures e.ProbeFailed? ==> Window(h + [e]) == []
    ensures e.Observed? && e.ollamaUnavailable ==> Window(h + [e]) == []
    ensures e.Observed? && !e.ollamaUnavailable && AboveAll(h, e.source.generation) ==>
              Window(h + [e]) == Window(h) + [e.source]
    ensures e.Observed? && !e.ollamaUnavailable && !AboveAll(h, e.source.generation) ==>
              Window(h + [e]) == if Current(h) == Some(e.source) then Window(h) else []
    ensures Fresh(h + [e]) <==> e.Observed? && AboveAll(h, e.source.generation)
  {
    assert (h + [e])[..|h|] == h;
    FreshMeansHighest(h);
    if e.Observed? {
      if Newer(e.source, Current(h)) {
        forall k | 0 <= k < |h| && h[k].Observed? ensures h[k].source.generation < e.source.generation {
          assert !Newer(h[k].source, Current(h));
        }
      } else {
        var k :| FirstOfItsGeneration(h, k) && Current(h) == Some(h[k].source);
        assert h[k].source.generation >= e.source.generation;
      }
    }
  }

  predicate AboveAll(h: seq<Event>, generation: nat) {
    forall k :: 0 <= k < |h| && h[k].Observed? ==> h[k].source.generation < generation
  }

  /** The decision published on a new generation, reason by reason. */
  lemma {:induction false} DecisionOverFields(p: Policy, h: seq<Event>, e: Event)
    requires AllAdmitted(p, h + [e]) && e.Observed? && AboveAll(h, e.source.generation)
    ensures DecisionOf(p, h + [e]).Some? && p.Admits(e.source)
    ensures var d := DecisionOf(p, h + [e]).value; var w := Window(h) + [e.source]; var s := e.source;
            && WindowAdmitted(p, w)
            && (Busy in d.reasons <==> e.ollamaBusy || (!e.ollamaUnavailable && LastTwoAtLimit(p, w)))
            && (Degraded in d.reasons <==>
                Alarming(s) || (!e.ollamaUnavailable && (LastTwoSlow(p, w) || LastThreeSkip(w))))
            && (Unavailable in d.reasons <==> e.ollamaUnavailable)
            && PolicyDrift !in d.reasons
            && (d.pressure <==> d.reasons != {})
            && (d.clearEligible <==>
                d.reasons == {} && s.detectionFps < p.detectionFpsLimit && !SlowerThan(p, s, 0.98))
  {
    hide Alarming, SlowerThan, Base, LastTwoSlow, LastThreeSkip, LastTwoAtLimit, InTrouble, Window, Current;
    var all := h + [e];
    assert all[..|h|] == h && all[|h|] == e;
    WindowOverFields(h, e);
    assert p.Admits(e.source);
    WindowIsAdmitted(p, all);
    SignalsOverFields(p, e.source);
    WindowIsAdmitted(p, h) by { assert forall k :: 0 <= k < |h| ==> all[k] == h[k]; }
    BaseOverFields(p, Window(h) + [e.source]);
    assert Fresh(all);
    assert Added(all) == (if e.ollamaBusy then {Busy} else {}) + (if e.ollamaUnavailable then {Unavailable} else {});
    if e.ollamaUnavailable {
      assert Standing(p, all) == Some(Immediate(e.source));
    } else {
      assert Standing(p, all) == Some(Base(p, Window(h) + [e.source]));
    }
    DecisionsAreCoherent(p, all);
  }

  /** A poll whose generation is not new keeps the standing decision and adds what this poll showed. */
  lemma {:induction false} DecisionWithoutNews(p: Policy, h: seq<Event>, e: Event)
    requires AllAdmitted(p, h + [e]) && AllAdmitted(p, h) && (e.Observed? ==> !AboveAll(h, e.source.generation))
    ensures Standing(p, h + [e]) == Standing(p, h)
    ensures DecisionOf(p, h + [e]).Some? <==> exists k :: 0 <= k < |h| && h[k].Observed?
    ensures DecisionOf(p, h + [e]).Some? ==>
              var d := DecisionOf(p, h + [e]).value; var before := Standing(p, h).value.reasons;
              && (e.ProbeFailed? ==> d.reasons == before + e.reasons)
              && (e.Observed? ==>
                  && (Busy in d.reasons <==> Busy in before || e.ollamaBusy)
                  && (Degraded in d.reasons <==> Degraded in before)
                  && (PolicyDrift in d.reasons <==> PolicyDrift in before)
                  && (Unavailable in d.reasons <==>
                      Unavailable in before || e.ollamaUnavailable || Current(h) != Some(e.source)))
              && (d.reasons == before ==> d == Standing(p, h).value)
  {
    var all := h + [e];
    assert all[..|h|] == h && all[|h|] == e;
    WindowOverFields(h, e);
    FreshMeansHighest(h);
    StandingIsCoherent(p, h);
    hide Current, Standing, Fresh;
    assert !Fresh(all);
    assert Standing(p, all) == Standing(p, h) by { StandingKept(p, h, e); }
  }

  lemma {:induction false} StandingKept(p: Policy, h: seq<Event>, e: Event)
    requires AllAdmitted(p, h + [e]) && AllAdmitted(p, h) && !Fresh(h + [e])
    ensures Standing(p, h + [e]) == Standing(p, h)
  {
    assert (h + [e])[..|h|] == h;
  }

  /** Nothing about the source but its rate and its frame ratios can be wrong. */
  predicate Unremarkable(p: Policy, s: Source)
    requires p.Admits(s)
  {
    !SkipsAbove(s, 0.0) && !WorkerStalled(s) && s.computeMode == "Default"
  }

  /** High load alone asserts exactly the busy reason, from the second consecutive new generation on. */
  lemma {:induction false} SecondHighLoadAsserts(p: Policy, h: seq<Event>, a: Source, b: Source)
    requires AllAdmitted(p, h) && p.Admits(a) && p.Admits(b)
    requires AboveAll(h, a.generation) && a.generation < b.generation
    requires Unremarkable(p, b) && !SlowerThan(p, b, 0.95) && b.detectionFps >= p.detectionFpsLimit
    ensures var polled := h + [Observed(a, false, false)] + [Observed(b, false, false)];
            && AllAdmitted(p, polled)
            && DecisionOf(p, polled) == Some(
                 if a.detectionFps >= p.detectionFpsLimit then Decision(true, false, {Busy})
                 else Decision(false, false, {}))
  {
    TwoPolls(p, h, a, b);
    var polled := h + [Observed(a, false, false)] + [Observed(b, false, false)];
    var d := DecisionOf(p, polled).value;
    assert !SkipsAbove(b, 0.5);
    OnlyThese(d.reasons);
    assert d.reasons == if a.detectionFps >= p.detectionFpsLimit then {Busy} else {};
  }

  /** A slow camera alone asserts exactly the degraded reason, from the second consecutive new generation on. */
  lemma {:induction false} SecondSlowCameraAsserts(p: Policy, h: seq<Event>, a: Source, b: Source)
    requires AllAdmitted(p, h) && p.Admits(a) && p.Admits(b)
    requires AboveAll(h, a.generation) && a.generation < b.generation
    requires Unremarkable(p, b) && SlowerThan(p, b, 0.95) && b.detectionFps < p.detectionFpsLimit
    ensures var polled := h + [Observed(a, false, false)] + [Observed(b, false, false)];
            && AllAdmitted(p, polled)
            && DecisionOf(p, polled) == Some(
                 if SlowerThan(p, a, 0.95) then Decision(true, false, {Degraded}) else Decision(false, false, {}))
  {
    TwoPolls(p, h, a, b);
    var polled := h + [Observed(a, false, false)] + [Observed(b, false, false)];
    var d := DecisionOf(p, polled).value;
    assert SlowerThan(p, b, 0.98);
    assert !SkipsAbove(b, 0.5);
    OnlyThese(d.reasons);
    assert d.reasons == if SlowerThan(p, a, 0.95) then {Degraded} else {};
  }

  /** Small skips alone assert exactly the degraded reason, from the third consecutive new generation on. */
  lemma {:induction false} ThirdSkipAsserts(p: Policy, h: seq<Event>, s: Source)
    requires AllAdmitted(p, h) && p.Admits(s) && AboveAll(h, s.generation)
    requires SkipsAbove(s, 0.0) && !Alarming(s) && s.detectionFps < p.detectionFpsLimit && !SlowerThan(p, s, 0.98)
    ensures var w := Window(h); var polled := h + [Observed(s, false, false)];
            && AllAdmitted(p, polled)
            && DecisionOf(p, polled) == Some(
                 if |w| >= 2 && SkipsAbove(w[|w| - 1], 0.0) && SkipsAbove(w[|w| - 2], 0.0)
                 then Decision(true, false, {Degraded}) else Decision(false, true, {}))
  {
    var w, e := Window(h), Observed(s, false, false);
    DecisionOverFields(p, h, e);
    assert !SlowerThan(p, s, 0.95);
    var all := w + [s];
    assert |w| >= 2 ==> all[|all| - 2] == w[|w| - 1] && all[|all| - 3] == w[|w| - 2];
    OnlyThese(DecisionOf(p, h + [e]).value.reasons);
  }

  lemma OnlyThese(reasons: set<Reason>)
    requires Unavailable !in reasons && PolicyDrift !in reasons
    ensures Busy in reasons && Degraded !in reasons ==> reasons == {Busy}
    ensures Degraded in reasons && Busy !in reasons ==> reasons == {Degraded}
    ensures Degraded !in reasons && Busy !in reasons ==> reasons == {}
  {
    forall r | r in reasons ensures r == Busy || r == Degraded {
      match r
      case Busy =>
      case Degraded =>
      case Unavailable =>
      case PolicyDrift =>
    }
  }

  /** Two polls of new generations in a row: whatever came before, what the last one shows is decided. */
  lemma {:induction false} TwoPolls(p: Policy, h: seq<Event>, a: Source, b: Source)
    requires AllAdmitted(p, h) && p.Admits(a) && p.Admits(b)
    requires AboveAll(h, a.generation) && a.generation < b.generation
    ensures var polled := h + [Observed(a, false, false)] + [Observed(b, false, false)];
            && AllAdmitted(p, polled) && DecisionOf(p, polled).Some?
            && var d := DecisionOf(p, polled).value;
               && (Busy in d.reasons <==>
                   a.detectionFps >= p.detectionFpsLimit && b.detectionFps >= p.detectionFpsLimit)
               && (Alarming(b) || (SlowerThan(p, a, 0.95) && SlowerThan(p, b, 0.95)) ==> Degraded in d.reasons)
               && (Degraded in d.reasons ==>
                   Alarming(b) || (SlowerThan(p, a, 0.95) && SlowerThan(p, b, 0.95)) || SkipsAbove(b, 0.0))
               && Unavailable !in d.reasons && PolicyDrift !in d.reasons
               && (d.pressure <==> d.reasons != {})
               && (d.clearEligible <==>
                   d.reasons == {} && b.detectionFps < p.detectionFpsLimit && !SlowerThan(p, b, 0.98))
  {
    hide Alarming, SlowerThan, Window, Standing, Current, SkipsAbove;
    var first, second := Observed(a, false, false), Observed(b, false, false);
    assert AllAdmitted(p, h + [first] + [second]);
    WindowOverFields(h, first);
    var w := Window(h + [first]) + [b];
    assert w[|w| - 1] == b && w[|w| - 2] == a;
    assert AboveAll(h + [first], b.generation);
    DecisionOverFields(p, h + [first], second);
  }

  // ---------------------------------------------------------------- the evaluator

  class FrigatePriorityEvaluator {
    const policy: Policy
    var source: Option<Source>
    var cached: Option<Decision>
    var highStreak: nat
    var lowStreak: nat
    var skipStreak: nat
    ghost var history: seq<Event>

    ghost predicate Valid()
      reads this
    {
      && AllAdmitted(policy, history)
      && source == Current(history)
      && cached == Standing(policy, history)
      && Streaks(Window(history))
    }

    ghost predicate Streaks(w: seq<Source>)
      reads this
    {
      && WindowAdmitted(policy, w)
      && highStreak == Streak(policy, w, HighLoad)
      && lowStreak == Streak(policy, w, LowRate)
      && skipStreak == Streak(policy, w, Skipping)
    }

    constructor (policy: Policy)
      ensures Valid() && this.policy == policy && history == []
    {
      this.policy := policy;
      source, cached, highStreak, lowStreak, skipStreak, history := None, None, 0, 0, 0, [];
    }

    /** A failed probe: streaks start over, and the standing decision gains the reasons. */
    method Failure(reasons: set<Reason>) returns (d: Option<Decision>)
      requires Valid()
      modifies this
      ensures Valid() && history == old(history) + [ProbeFailed(reasons)]
      ensures d == DecisionOf(policy, history)
    {
      Extended(ProbeFailed(reasons));
      StandingIsCoherent(policy, history);
      d := FailureDecision(reasons);
      history := history + [ProbeFailed(reasons)];
    }

    lemma Extended(e: Event)
      requires Valid() && (e.Observed? ==> policy.Admits(e.source))
      ensures var h := history + [e];
              h[..|h| - 1] == history && AllAdmitted(policy, h) && WindowAdmitted(policy, Window(h))
    {
      var h := history + [e];
      assert h[..|h| - 1] == history;
      WindowIsAdmitted(policy, h);
    }

    method FailureDecision(reasons: set<Reason>) returns (d: Option<Decision>)
      modifies this`highStreak, this`lowStreak, this`skipStreak
      ensures highStreak == lowStreak == skipStreak == 0
      ensures d == if source.None? then None else Some((if cached.None? then Neutral else cached.value).Union(reasons))
    {
      highStreak, lowStreak, skipStreak := 0, 0, 0;
      if source.None? { return None; }
      d := Some((if cached.None? then Neutral else cached.value).Union(reasons));
    }

    /** Count the signals of a new generation and decide on it. */
    method BaseDecision(s: Source, ghost w: seq<Source>) returns (d: Decision)
      requires Streaks(w) && policy.Admits(s)
      modifies this`highStreak, this`lowStreak, this`skipStreak
      ensures Streaks(w + [s]) && d == Base(policy, w + [s])
    {
      var reasons := Immediate(s).reasons;
      assert (w + [s])[..|w|] == w;
      skipStreak := if Shows(policy, s, Skipping) then skipStreak + 1 else 0;
      highStreak := if Shows(policy, s, HighLoad) then highStreak + 1 else 0;
      lowStreak := if Shows(policy, s, LowRate) then lowStreak + 1 else 0;
      assert WindowAdmitted(policy, w + [s]);
      assert Streaks(w + [s]);
      if highStreak >= 2 { reasons := reasons + {Busy}; }
      if lowStreak >= 2 || skipStreak >= 3 { reasons := reasons + {Degraded}; }
      if reasons != {} { return Asserted(reasons); }
      d := if s.detectionFps < policy.detectionFpsLimit && policy.AllAbove(s, 0.98) then Clear else Neutral;
    }

    /** A generation that is not new: repeated as it was, mutated, or regressed. */
    method ObserveKnown(s: Source, busy: bool, unavailable: bool) returns (d: Decision)
      requires Valid() && policy.Admits(s) && source.Some? && s.generation <= source.value.generation
      modifies this
      ensures Valid() && history == old(history) + [Observed(s, busy, unavailable)]
      ensures Some(d) == DecisionOf(policy, history)
    {
      ghost var h := history + [Observed(s, busy, unavailable)];
      Extended(Observed(s, busy, unavailable));
      StandingIsCoherent(policy, history);
      assert !Fresh(h) && Current(h) == source && Standing(policy, h) == cached;
      hide Fresh, Current, Standing;
      var reasons := (if busy then {Busy} else {}) + (if unavailable then {Unavailable} else {});
      if s != source.value || unavailable {
        if s != source.value { reasons := reasons + {Unavailable}; }
        assert reasons == Added(h);
        var failed := FailureDecision(reasons);
        d := failed.value;
      } else {
        assert reasons == Added(h);
        d := cached.value.Union(reasons);
      }
      history := h;
    }

    lemma NewGeneration(s: Source, busy: bool, unavailable: bool)
      requires Valid() && policy.Admits(s) && Newer(s, source)
      ensures var h := history + [Observed(s, busy, unavailable)];
              && AllAdmitted(policy, h)
              && Current(h) == Some(s)
              && Added(h) == (if busy then {Busy} else {}) + (if unavailable then {Unavailable} else {})
              && Window(h) == (if unavailable then [] else Window(history) + [s])
              && WindowAdmitted(policy, Window(h))
              && Standing(policy, h) == Some(if unavailable then Immediate(s) else Base(policy, Window(h)))
      ensures forall signal :: WindowAdmitted(policy, []) && Streak(policy, [], signal) == 0
    {
      Extended(Observed(s, busy, unavailable));
    }

    method Observe(s: Source, busy: bool, unavailable: bool) returns (d: Decision)
      requires Valid() && policy.Admits(s)
      modifies this
      ensures Valid() && history == old(history) + [Observed(s, busy, unavailable)]
      ensures Some(d) == DecisionOf(policy, history)
    {
      hide Fresh, Current, Standing, Window, Added, Base, Streak, Immediate, WindowAdmitted, AllAdmitted;
      if source.Some? && s.generation <= source.value.generation {
        d := ObserveKnown(s, busy, unavailable);
        return;
      }
      ghost var h := history + [Observed(s, busy, unavailable)];
      NewGeneration(s, busy, unavailable);
      var reasons := (if busy then {Busy} else {}) + (if unavailable then {Unavailable} else {});
      source := Some(s);
      if unavailable {
        highStreak, lowStreak, skipStreak := 0, 0, 0;
        cached := Some(Immediate(s));
      } else {
        var base := BaseDecision(s, Window(history));
        cached := Some(base);
      }
      history := h;
      d := cached.value.Union(reasons);
    }
  }

  // ---------------------------------------------------------------- publications

  datatype Publication = Publication(sequence: nat, generation: nat, decision: Decision)

  /** Published sequence numbers count up by one, and generations never go back. */
  predicate InSequence(published: seq<Publication>) {
    && (forall k :: 0 <= k < |published| ==> published[k].sequence == k + 1 && Coherent(published[k].decision))
    && (forall i, j :: 0 <= i < j < |published| ==> published[i].generation <= published[j].generation)
  }

  class FrigatePriorityMonitor {
    const evaluator: FrigatePriorityEvaluator
    var sequence: nat
    var published: seq<Publication>

    ghost predicate Valid()
      reads this, evaluator
    {
      && evaluator.Valid()
      && sequence == |published|
      && InSequence(published)
      && (published != [] ==>
         evaluator.source.Some? && published[|published| - 1].generation <= evaluator.source.value.generation)
    }

    constructor (policy: Policy)
      ensures Valid() && published == [] && evaluator.history == [] && evaluator.policy == policy && fresh(evaluator)
    {
      evaluator := new FrigatePriorityEvaluator(policy);
      sequence, published := 0, [];
    }

    /** One poll: what the probes gave is evaluated, and the decision is published, if that works. */
    method PollOnce(e: Event, works: bool) returns (sent: bool)
      requires Valid() && (e.Observed? ==> evaluator.policy.Admits(e.source))
      modifies this, evaluator
      ensures Valid() && evaluator.history == old(evaluator.history) + [e]
      ensures sent <==> works && Current(evaluator.history).Some?
      ensures published == old(published)
                + if sent && DecisionOf(evaluator.policy, evaluator.history).Some?
                  then [Publication(|old(published)| + 1, Current(evaluator.history).value.generation,
                                    DecisionOf(evaluator.policy, evaluator.history).value)]
                  else []
    {
      hide Current, Standing, Added, Window, Streak, Fresh, Coherent, Decision.Union;
      ghost var before := evaluator.history;
      var d: Option<Decision>;
      if e.ProbeFailed? {
        d := evaluator.Failure(e.reasons);
      } else {
        var decided := evaluator.Observe(e.source, e.ollamaBusy, e.ollamaUnavailable);
        d := Some(decided);
      }
      DecisionsAreCoherent(evaluator.policy, evaluator.history);
      GenerationsNeverGoBack(before, e);
      assert evaluator.history == before + [e];
      sent := works && d.Some?;
      if sent {
        var next := sequence + 1;
        published := published + [Publication(next, evaluator.source.value.generation, d.value)];
        sequence := next;
      }
    }
  }

  lemma GenerationsNeverGoBack(h: seq<Event>, e: Event)
    ensures Current(h).Some? ==>
              Current(h + [e]).Some? && Current(h).value.generation <= Current(h + [e]).value.generation
  {
    assert (h + [e])[..|h|] == h;
  }
}
