/**
 * The life story collector (src/LifeStoryCollector.js): it samples the
 * consciousness dial every tenth frame, records the events lived, summarises
 * a life, computes the karma handed to the next one, and guards the request
 * that asks the story service for a narrative.
 */
module Collector {
  import opened Wrappers
  import opened JsMath
  import Events

  /** One sample of the dial; `stamp` is the clock reading, passed in by the caller. */
  datatype Sample = Sample(p: real, c: real, stamp: int)

  /** A sample is kept on every tenth call of `record`. */
  const SampleEvery: nat := 10

  /** A story is only asked for once this many samples are held. */
  const MinStorySamples: nat := 50

  /** What `getSummary` reports about a life. */
  datatype Summary = Summary(
    averageConsciousness: real,
    maxConsciousness: real,
    minConsciousness: real,
    finalConsciousness: real,
    totalEvents: nat,
    transmuted: nat,
    fallen: nat,
    neutral: nat)

  /** What `generateStory` sends to the story service. */
  datatype StoryRequest = StoryRequest(
    history: seq<Sample>,
    events: seq<Events.EventReport>,
    finalConsciousness: real,
    karma: real)

  // ---------------------------------------------------------------------------
  // Sampling
  // ---------------------------------------------------------------------------

  /** The samples kept out of the samples offered since the last reset. */
  function EveryTenth(offered: seq<Sample>): (kept: seq<Sample>)
    ensures |kept| == |offered| / SampleEvery
    ensures forall k :: 0 <= k < |kept| ==> kept[k] == offered[SampleEvery * k + SampleEvery - 1]
  {
    if offered == [] then []
    else
      var n := |offered|;
      var before := EveryTenth(offered[..n - 1]);
      assert forall k :: 0 <= k < |before| ==> before[k] == offered[SampleEvery * k + SampleEvery - 1];
      if n % SampleEvery == 0 then
        assert |before| == n / SampleEvery - 1;
        before + [offered[n - 1]]
      else
        before
  }

  // ---------------------------------------------------------------------------
  // Summary
  // ---------------------------------------------------------------------------

  /** The sum of the sampled consciousness values. */
  function SumC(h: seq<Sample>): real {
    if h == [] then 0.0 else SumC(h[..|h| - 1]) + h[|h| - 1].c
  }

  /** The largest sampled value: `Math.max` over the samples. */
  function MaxC(h: seq<Sample>): (m: real)
    requires |h| > 0
    ensures forall k :: 0 <= k < |h| ==> h[k].c <= m
    ensures exists k :: 0 <= k < |h| && h[k].c == m
  {
    if |h| == 1 then h[0].c
    else
      var rest := MaxC(h[..|h| - 1]);
      assert forall k :: 0 <= k < |h| - 1 ==> h[..|h| - 1][k] == h[k];
      if h[|h| - 1].c > rest then h[|h| - 1].c else rest
  }

  /** The smallest sampled value: `Math.min` over the samples. */
  function MinC(h: seq<Sample>): (m: real)
    requires |h| > 0
    ensures forall k :: 0 <= k < |h| ==> m <= h[k].c
    ensures exists k :: 0 <= k < |h| && h[k].c == m
  {
    if |h| == 1 then h[0].c
    else
      var rest := MinC(h[..|h| - 1]);
      assert forall k :: 0 <= k < |h| - 1 ==> h[..|h| - 1][k] == h[k];
      if h[|h| - 1].c < rest then h[|h| - 1].c else rest
  }

  /** How many recorded events carry the colour `color`. */
  function CountColor(events: seq<Events.EventReport>, color: Events.Color): (n: nat)
    ensures n <= |events|
  {
    if events == [] then 0
    else CountColor(events[..|events| - 1], color) + (if events[|events| - 1].color == color then 1 else 0)
  }

  /** A sum of values that all lie in [lo, hi] lies between |h| * lo and |h| * hi. */
  lemma {:induction false} SumBetween(h: seq<Sample>, lo: real, hi: real)
    requires forall k :: 0 <= k < |h| ==> lo <= h[k].c <= hi
    ensures |h| as real * lo <= SumC(h) <= |h| as real * hi
  {
    if h != [] {
      SumBetween(h[..|h| - 1], lo, hi);
    }
  }

  /** Dividing by a positive `n` a value between n * lo and n * hi gives a value between lo and hi. */
  lemma DivBetween(x: real, n: real, lo: real, hi: real)
    requires n > 0.0 && n * lo <= x <= n * hi
    ensures lo <= x / n <= hi
  {
    var q := x / n;
    assert q * n == x;
  }

  /** The mean of values that all lie in [lo, hi] lies in [lo, hi]. */
  lemma MeanBetween(h: seq<Sample>, lo: real, hi: real)
    requires |h| > 0
    requires forall k :: 0 <= k < |h| ==> lo <= h[k].c <= hi
    ensures lo <= SumC(h) / |h| as real <= hi
  {
    SumBetween(h, lo, hi);
    DivBetween(SumC(h), |h| as real, lo, hi);
  }

  /** The three colour groups never overlap, so together they count at most every event. */
  lemma {:induction false} ColorCountsDisjoint(events: seq<Events.EventReport>)
    ensures CountColor(events, Events.TransmutedColor) + CountColor(events, Events.FallenColor)
              + CountColor(events, Events.NeutralColor) <= |events|
  {
    if events != [] {
      ColorCountsDisjoint(events[..|events| - 1]);
    }
  }

  /**
   * getSummary on the collected data: nothing for an empty history;
   * otherwise the mean, maximum and minimum of the samples (so
   * min <= average <= max), the final value as the last sample, and the
   * count of each colour, which together never exceed the number of events.
   */
  function Summarize(history: seq<Sample>, events: seq<Events.EventReport>): (r: Option<Summary>)
    ensures r.None? <==> history == []
    ensures r.Some? ==>
      && r.value.minConsciousness <= r.value.averageConsciousness <= r.value.maxConsciousness
      && r.value.finalConsciousness == history[|history| - 1].c
      && r.value.totalEvents == |events|
      && r.value.transmuted + r.value.fallen + r.value.neutral <= r.value.totalEvents
    ensures r.Some? ==>
      && r.value.averageConsciousness == SumC(history) / |history| as real
      && r.value.maxConsciousness == MaxC(history)
      && r.value.minConsciousness == MinC(history)
      && r.value.transmuted == CountColor(events, Events.TransmutedColor)
      && r.value.fallen == CountColor(events, Events.FallenColor)
      && r.value.neutral == CountColor(events, Events.NeutralColor)
  {
    if history == [] then None
    else
      MeanBetween(history, MinC(history), MaxC(history));
      ColorCountsDisjoint(events);
      Some(Summary(
        SumC(history) / |history| as real, MaxC(history), MinC(history), history[|history| - 1].c, |events|,
        CountColor(events, Events.TransmutedColor),
        CountColor(events, Events.FallenColor),
        CountColor(events, Events.NeutralColor)))
  }

  // ---------------------------------------------------------------------------
  // Karma
  // ---------------------------------------------------------------------------

  /** The weight of sample `i` of `n`: later samples weigh more. */
  function Weight(i: nat, n: nat): real
    requires n > 0
  {
    (i + 1) as real / n as real
  }

  /** The weighted sum of the samples of `h`, each weighted as sample i of `n`. */
  function WeightedSum(h: seq<Sample>, n: nat): real
    requires n > 0
  {
    if h == [] then 0.0
    else WeightedSum(h[..|h| - 1], n) + h[|h| - 1].c * Weight(|h| - 1, n)
  }

  /** The sum of the weights of the first `k` samples of `n`. */
  function WeightTotal(k: nat, n: nat): (w: real)
    requires n > 0
    ensures w >= 0.0
    ensures k > 0 ==> w > 0.0
  {
    if k == 0 then 0.0 else WeightTotal(k - 1, n) + Weight(k - 1, n)
  }

  /** Each transmuted event adds 0.05, each fallen event takes 0.05 away. */
  function EventBonus(events: seq<Events.EventReport>): real {
    if events == [] then 0.0
    else
      var e := events[|events| - 1];
      EventBonus(events[..|events| - 1])
        + (if e.color == Events.TransmutedColor then 0.05
           else if e.color == Events.FallenColor then -0.05
           else 0.0)
  }

  /**
   * calculateKarma on the collected data: 0 without samples, otherwise the
   * weighted mean of the samples plus the event bonus, saturated to [-1, 1].
   */
  function Karma(history: seq<Sample>, events: seq<Events.EventReport>): (k: real)
    ensures -1.0 <= k <= 1.0
    ensures history == [] ==> k == 0.0
  {
    if history == [] then 0.0
    else
      var n := |history|;
      ClampReal(WeightedSum(history, n) / WeightTotal(n, n) + EventBonus(events), -1.0, 1.0)
  }

  /** The weights of all `n` samples add up to (n + 1) / 2. */
  lemma {:induction false} WeightTotalClosedForm(k: nat, n: nat)
    requires n > 0
    ensures WeightTotal(k, n) == (k * (k + 1)) as real / (2 * n) as real
  {
    if k > 0 {
      WeightTotalClosedForm(k - 1, n);
      assert (k * (k + 1)) == (k - 1) * k + 2 * k;
    }
  }

  /** A value in [-1, 1] scaled by a non-negative weight stays within that weight. */
  lemma ScaleUnit(c: real, w: real)
    requires w >= 0.0 && -1.0 <= c <= 1.0
    ensures -w <= c * w <= w
  {
    assert (c + 1.0) * w >= 0.0;
    assert (1.0 - c) * w >= 0.0;
  }

  /** Bounds add up. */
  lemma AddBounds(s1: real, t1: real, s2: real, t2: real)
    requires -t1 <= s1 <= t1 && -t2 <= s2 <= t2
    ensures -(t1 + t2) <= s1 + s2 <= t1 + t2
  {
  }

  /** Samples in [-1, 1] give a weighted sum within the total weight either way. */
  lemma {:induction false} WeightedSumBounded(h: seq<Sample>, n: nat)
    requires n > 0
    requires forall k :: 0 <= k < |h| ==> -1.0 <= h[k].c <= 1.0
    ensures -WeightTotal(|h|, n) <= WeightedSum(h, n) <= WeightTotal(|h|, n)
  {
    if h != [] {
      var init := h[..|h| - 1];
      assert forall k :: 0 <= k < |init| ==> init[k] == h[k];
      WeightedSumBounded(init, n);
      var c, w := h[|h| - 1].c, Weight(|h| - 1, n);
      ScaleUnit(c, w);
      AddBounds(WeightedSum(init, n), WeightTotal(|init|, n), c * w, w);
    }
  }

  /** The bonus is 0.05 times the number of transmuted events minus the number of fallen ones. */
  lemma {:induction false} EventBonusCounts(events: seq<Events.EventReport>)
    ensures EventBonus(events)
              == 0.05 * (CountColor(events, Events.TransmutedColor) - CountColor(events, Events.FallenColor)) as real
  {
    if events != [] {
      EventBonusCounts(events[..|events| - 1]);
    }
  }

  /** A transmuted and a fallen event cancel out. */
  lemma BonusCancels(lived: Events.EventReport, failed: Events.EventReport)
    requires lived.color == Events.TransmutedColor && failed.color == Events.FallenColor
    ensures EventBonus([lived, failed]) == 0.0
  {
    Events.ColorsDistinct();
    assert [lived, failed][..1] == [lived];
    assert [lived][..0] == [];
    assert EventBonus([lived]) == 0.05;
  }

  /**
   * Without events and with samples in [-1, 1] (the dial's range), the karma
   * is the weighted mean itself: the clamp never bites.
   */
  lemma KarmaWithoutEvents(history: seq<Sample>)
    requires history != []
    requires forall k :: 0 <= k < |history| ==> -1.0 <= history[k].c <= 1.0
    ensures Karma(history, []) == WeightedSum(history, |history|) / WeightTotal(|history|, |history|)
  {
    var n := |history|;
    WeightedSumBounded(history, n);
    DivBetween(WeightedSum(history, n), WeightTotal(n, n), -1.0, 1.0);
  }

  /** One sample in [-1, 1] and no events: the karma is that sample. */
  lemma KarmaOfOneSample(s: Sample)
    requires -1.0 <= s.c <= 1.0
    ensures Karma([s], []) == s.c
  {
    assert [s][..0] == [];
    assert WeightedSum([s], 1) == s.c;
    assert WeightTotal(1, 1) == 1.0;
  }

  /** Samples 1 then -1 and no events: the later sample weighs double, giving -1/3. */
  lemma KarmaOfTwoSamples(first: Sample, second: Sample)
    requires first.c == 1.0 && second.c == -1.0
    ensures Karma([first, second], []) == -1.0 / 3.0
  {
    var h := [first, second];
    assert h[..1] == [first] && [first][..0] == [];
    assert WeightedSum([first], 2) == 0.5;
    assert WeightedSum(h, 2) == -0.5;
    assert WeightTotal(2, 2) == 1.5;
  }

  // ---------------------------------------------------------------------------
  // The collector object
  // ---------------------------------------------------------------------------

  class LifeStoryCollector {
    var history: seq<Sample>
    var events: seq<Events.EventReport>
    var isGenerating: bool
    var frameCount: nat
    /** Every sample `record` was offered since the last reset. */
    ghost var offered: seq<Sample>

    /** The history holds exactly every tenth sample offered. */
    ghost predicate Valid()
      reads this
    {
      frameCount == |offered| && history == EveryTenth(offered)
    }

    constructor ()
      ensures Valid()
      ensures history == [] && events == [] && !isGenerating && frameCount == 0
    {
      history := [];
      events := [];
      isGenerating := false;
      frameCount := 0;
      offered := [];
    }

    /** record: counts the frame and keeps the sample on every tenth one. */
    method Record(progress: real, consciousness: real, now: int)
      requires Valid()
      modifies this
      ensures Valid()
      ensures frameCount == old(frameCount) + 1
      ensures offered == old(offered) + [Sample(progress, consciousness, now)]
      ensures history == if frameCount % SampleEvery == 0
                         then old(history) + [Sample(progress, consciousness, now)]
                         else old(history)
      ensures events == old(events) && isGenerating == old(isGenerating)
    {
      frameCount := frameCount + 1;
      offered := offered + [Sample(progress, consciousness, now)];
      assert offered[..|offered| - 1] == old(offered);
      if frameCount % SampleEvery == 0 {
        history := history + [Sample(progress, consciousness, now)];
      }
    }

    /** recordEvent: keeps one more lived event; the samples are untouched. */
    method RecordEvent(report: Events.EventReport)
      requires Valid()
      modifies this`events
      ensures Valid()
      ensures events == old(events) + [report]
      ensures history == old(history) && frameCount == old(frameCount)
    {
      events := events + [report];
    }

    /** reset: a new life starts with nothing collected. */
    method Reset()
      modifies this
      ensures Valid()
      ensures history == [] && events == [] && frameCount == 0
      ensures isGenerating == old(isGenerating)
    {
      history := [];
      events := [];
      frameCount := 0;
      offered := [];
    }

    /** getSummary over the collected data. */
    function GetSummary(): (r: Option<Summary>)
      reads this
      ensures r.None? <==> history == []
      ensures r.Some? ==> r.value.finalConsciousness == history[|history| - 1].c
      ensures r == Summarize(history, events)
    {
      Summarize(history, events)
    }

    /** calculateKarma: the weighted mean of the samples, the event bonus, the clamp. */
    method CalculateKarma() returns (karma: real)
      ensures karma == Karma(history, events)
    {
      if |history| == 0 {
        return 0.0;
      }
      var n := |history|;
      var weightedSum := 0.0;
      var weightSum := 0.0;
      var i := 0;
      while i < n
        invariant 0 <= i <= n
        invariant weightedSum == WeightedSum(history[..i], n)
        invariant weightSum == WeightTotal(i, n)
      {
        var weight := (i + 1) as real / n as real;
        assert history[..i + 1][..i] == history[..i];
        weightedSum := weightedSum + history[i].c * weight;
        weightSum := weightSum + weight;
        i := i + 1;
      }
      assert history[..n] == history;
      var bonus := 0.0;
      var j := 0;
      while j < |events|
        invariant 0 <= j <= |events|
        invariant bonus == EventBonus(events[..j])
      {
        assert events[..j + 1][..j] == events[..j];
        if events[j].color == Events.TransmutedColor {
          bonus := bonus + 0.05;
        } else if events[j].color == Events.FallenColor {
          bonus := bonus - 0.05;
        }
        j := j + 1;
      }
      assert events[..|events|] == events;
      karma := weightedSum / weightSum + bonus;
      karma := if -1.0 > (if 1.0 < karma then 1.0 else karma) then -1.0
               else if 1.0 < karma then 1.0 else karma;
    }

    /**
     * The synchronous part of generateStory: refuses while a request is out
     * or with fewer than 50 samples, leaving the state alone; otherwise marks
     * a request as out and returns what is sent.
     */
    method StartStory() returns (request: Option<StoryRequest>)
      modifies this`isGenerating
      ensures old(isGenerating) || |history| < MinStorySamples ==>
                request == None && isGenerating == old(isGenerating)
      ensures !old(isGenerating) && |history| >= MinStorySamples ==>
                && isGenerating
                && request == Some(StoryRequest(history, events, history[|history| - 1].c, Karma(history, events)))
    {
      if isGenerating {
        return None;
      }
      if |history| < MinStorySamples {
        return None;
      }
      isGenerating := true;
      var finalConsciousness := history[|history| - 1].c;
      var karma := CalculateKarma();
      request := Some(StoryRequest(history, events, finalConsciousness, karma));
    }

    /**
     * The rest of generateStory once the service answered: the story on
     * success, nothing on any failure, and never generating afterwards.
     */
    method FinishStory(outcome: Result<string, string>) returns (story: Option<string>)
      modifies this`isGenerating
      ensures !isGenerating
      ensures outcome.Success? ==> story == Some(outcome.value)
      ensures outcome.Failure? ==> story == None
    {
      if outcome.Success? {
        story := Some(outcome.value);
      } else {
        story := None;
      }
      isGenerating := false;
    }
  }

  /** A whole story request leaves the collector ready for the next one. */
  method GenerateStory(collector: LifeStoryCollector, service: StoryRequest -> Result<string, string>)
    returns (story: Option<string>)
    modifies collector`isGenerating
    ensures old(collector.isGenerating) ==> story == None && collector.isGenerating
    ensures !old(collector.isGenerating) ==> !collector.isGenerating
    ensures |collector.history| < MinStorySamples ==> story == None
    ensures !old(collector.isGenerating) && |collector.history| >= MinStorySamples ==>
              var h, ev := collector.history, collector.events;
              story == match service(StoryRequest(h, ev, h[|h| - 1].c, Karma(h, ev)))
                       case Success(s) => Some(s)
                       case Failure(_) => None
  {
    var request := collector.StartStory();
    if request.None? {
      return None;
    }
    story := collector.FinishStory(service(request.value));
  }
}
