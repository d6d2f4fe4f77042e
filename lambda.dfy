/**
 * The story service (lambda/index.js): loading the API keys, choosing the
 * language-model provider, routing between the event-generation and the
 * story endpoints, normalising generated events, and the facts a story
 * prompt is built from (statistics, colour groups, the five-phase trajectory).
 * The language models are a parameter `complete`; their prose is opaque.
 */
module Lambda {
  import opened Wrappers
  import Sorting
  import Events
  import Collector

  // ---------------------------------------------------------------------------
  // API keys and provider choice
  // ---------------------------------------------------------------------------

  datatype Provider = Anthropic | OpenAI

  /** The two entries of the stored secret, as read. */
  datatype Secrets = Secrets(anthropicApiKey: Option<string>, openaiApiKey: Option<string>)

  /** The keys the handler works with; `None` is JavaScript's null. */
  datatype ApiKeys = ApiKeys(anthropicKey: Option<string>, openaiKey: Option<string>)

  const MissingSecretName: string := "LLM_SECRETS_NAME environment variable not set"
  const SecretsUnavailable: string := "Failed to load LLM API keys from Secrets Manager"
  const NoKeysConfigured: string := "No API keys configured"

  /** A missing or empty entry of the secret becomes null. */
  function KeyOrNull(entry: Option<string>): (key: Option<string>)
    ensures key.Some? <==> entry.Some? && entry.value != ""
    ensures key.Some? ==> key == entry
  {
    if entry.Some? && entry.value != "" then entry else None
  }

  /**
   * getApiKeys, without its cache: the secret name must be set (an empty
   * name counts as unset); `fetched` is the outcome of reading and parsing the
   * secret.
   */
  function LoadApiKeys(secretName: Option<string>, fetched: Result<Secrets, string>): (r: Result<ApiKeys, string>)
    ensures secretName.None? || secretName.value == "" ==> r == Failure(MissingSecretName)
    ensures secretName.Some? && secretName.value != "" && fetched.Failure? ==> r == Failure(SecretsUnavailable)
    ensures r.Success? ==> fetched.Success?
    ensures r.Success? ==> r.value.anthropicKey.Some? ==> r.value.anthropicKey.value != ""
    ensures r.Success? ==> r.value.openaiKey.Some? ==> r.value.openaiKey.value != ""
  {
    if secretName.None? || secretName.value == "" then Failure(MissingSecretName)
    else if fetched.Failure? then Failure(SecretsUnavailable)
    else Success(ApiKeys(KeyOrNull(fetched.value.anthropicApiKey), KeyOrNull(fetched.value.openaiApiKey)))
  }

  /** The configured provider name, Anthropic when the setting is missing or empty. */
  function ConfiguredProvider(setting: Option<string>): (name: string)
    ensures name != ""
  {
    if setting.Some? && setting.value != "" then setting.value else "anthropic"
  }

  function ProviderName(p: Provider): string {
    match p
    case Anthropic => "anthropic"
    case OpenAI => "openai"
  }

  function KeyFor(keys: ApiKeys, p: Provider): Option<string> {
    match p
    case Anthropic => keys.anthropicKey
    case OpenAI => keys.openaiKey
  }

  /** The provider actually used and the key it is called with. */
  datatype Choice = Choice(provider: Provider, apiKey: string)

  /**
   * The provider ladder: the configured provider when its key is there,
   * otherwise Anthropic, then OpenAI, and an error when neither key is there.
   */
  function SelectProvider(configured: string, keys: ApiKeys): (r: Result<Choice, string>)
    ensures r.Failure? <==> keys.anthropicKey.None? && keys.openaiKey.None?
    ensures r.Failure? ==> r.error == NoKeysConfigured
    ensures r.Success? ==> KeyFor(keys, r.value.provider) == Some(r.value.apiKey)
  {
    if configured == "anthropic" && keys.anthropicKey.Some? then Success(Choice(Anthropic, keys.anthropicKey.value))
    else if configured == "openai" && keys.openaiKey.Some? then Success(Choice(OpenAI, keys.openaiKey.value))
    else if keys.anthropicKey.Some? then Success(Choice(Anthropic, keys.anthropicKey.value))
    else if keys.openaiKey.Some? then Success(Choice(OpenAI, keys.openaiKey.value))
    else Failure(NoKeysConfigured)
  }

  /** The configured provider is used whenever its key is there. */
  lemma SelectionHonoursConfiguration(keys: ApiKeys, p: Provider)
    requires KeyFor(keys, p).Some?
    ensures SelectProvider(ProviderName(p), keys) == Success(Choice(p, KeyFor(keys, p).value))
  {
  }

  /**
   * Without a usable configured provider, Anthropic is preferred, then
   * OpenAI; the configured name then plays no part.
   */
  lemma SelectionFallsBack(configured: string, keys: ApiKeys)
    requires forall p :: ProviderName(p) == configured ==> KeyFor(keys, p).None?
    ensures keys.anthropicKey.Some? ==> SelectProvider(configured, keys) == Success(Choice(Anthropic, keys.anthropicKey.value))
    ensures keys.anthropicKey.None? && keys.openaiKey.Some? ==>
              SelectProvider(configured, keys) == Success(Choice(OpenAI, keys.openaiKey.value))
  {
    assert ProviderName(Anthropic) == "anthropic" && ProviderName(OpenAI) == "openai";
  }

  /** Keys loaded from the secret give a non-empty key to whichever provider is chosen. */
  lemma ChosenKeyNonEmpty(secretName: Option<string>, fetched: Result<Secrets, string>, configured: string)
    requires LoadApiKeys(secretName, fetched).Success?
    requires SelectProvider(configured, LoadApiKeys(secretName, fetched).value).Success?
    ensures SelectProvider(configured, LoadApiKeys(secretName, fetched).value).value.apiKey != ""
  {
    var keys := LoadApiKeys(secretName, fetched).value;
    var choice := SelectProvider(configured, keys).value;
    assert KeyFor(keys, choice.provider) == Some(choice.apiKey);
  }

  // ---------------------------------------------------------------------------
  // Routing
  // ---------------------------------------------------------------------------

  /** The raw path when it is non-empty, else the path when it is non-empty, else the empty string. */
  function RequestPath(rawPath: Option<string>, path: Option<string>): string {
    if rawPath.Some? && rawPath.value != "" then rawPath.value
    else if path.Some? && path.value != "" then path.value
    else ""
  }

  /** `sub` occurs in `s` starting at index `i`. */
  predicate OccursAt(s: string, sub: string, i: int) {
    0 <= i && i + |sub| <= |s| && s[i..i + |sub|] == sub
  }

  /** `sub` occurs somewhere in `s`. */
  predicate Contains(s: string, sub: string) {
    exists i :: 0 <= i <= |s| - |sub| && OccursAt(s, sub, i)
  }

  const EventsRoute: string := "generate-events"

  predicate IsEventGeneration(path: string) {
    Contains(path, EventsRoute)
  }

  /** Two example paths that contain the events route ask for events. */
  lemma RoutingExamples()
    ensures IsEventGeneration("/generate-events")
    ensures IsEventGeneration("/prod/generate-events")
  {
    assert OccursAt("/generate-events", EventsRoute, 1);
    assert OccursAt("/prod/generate-events", EventsRoute, 6);
  }

  /** The story path and the empty path do not ask for events. */
  lemma NonEventPaths()
    ensures !IsEventGeneration("/generate-story")
    ensures !IsEventGeneration("")
  {
    var story := "/generate-story";
    forall i | 0 <= i && i + |EventsRoute| <= |story| ensures !OccursAt(story, EventsRoute, i) {
      assert story[i..i + |EventsRoute|][0] != EventsRoute[0];
    }
  }

  // ---------------------------------------------------------------------------
  // Event generation
  // ---------------------------------------------------------------------------

  /** An event as the model answers it. */
  datatype RawEvent = RawEvent(name: string, age: int, kind: string)

  /** An event as the client receives it. */
  datatype NormEvent = NormEvent(t: real, name: string, age: int, kind: string)

  function NormTime(e: NormEvent): real {
    e.t
  }

  const UniversalEvents: seq<NormEvent> := [
    NormEvent(0.0, "Nacimiento", 0, "universal"),
    NormEvent(0.18, "Mayoria de Edad", 18, "universal"),
    NormEvent(0.99, "Muerte Fisica", 99, "universal")
  ]

  /** One parsed event in the client's format: t is age / 100. */
  function Formatted(e: RawEvent): (n: NormEvent)
    ensures n.t == e.age as real / 100.0
    ensures n.name == e.name && n.age == e.age && n.kind == e.kind
  {
    NormEvent(e.age as real / 100.0, e.name, e.age, e.kind)
  }

  /** The universal events followed by the parsed ones, in their order. */
  function Combined(parsed: seq<RawEvent>): (all: seq<NormEvent>)
    ensures |all| == |parsed| + 3
    ensures all[..3] == UniversalEvents
    ensures forall i :: 0 <= i < |parsed| ==> all[i + 3] == Formatted(parsed[i])
  {
    UniversalEvents + seq(|parsed|, i requires 0 <= i < |parsed| => Formatted(parsed[i]))
  }

  /** The normalised list: universal and parsed events together, sorted by t. */
  function Normalise(parsed: seq<RawEvent>): (r: seq<NormEvent>)
    ensures |r| == |parsed| + 3
    ensures Sorting.SortedBy(r, NormTime)
    ensures multiset(r) == multiset(Combined(parsed))
  {
    Sorting.SortBy(Combined(parsed), NormTime)
  }

  /** An event whose t is its age in hundredths of a life. */
  predicate AgeTimed(e: NormEvent)
  {
    e.t == e.age as real / 100.0
  }

  /** An event that is one of the parsed events, formatted. */
  ghost predicate FromParsed(e: NormEvent, parsed: seq<RawEvent>)
  {
    exists i :: 0 <= i < |parsed| && e == Formatted(parsed[i])
  }

  /** What the combined list holds, before sorting. */
  lemma CombinedEvents(parsed: seq<RawEvent>)
    ensures forall e :: e in Combined(parsed) ==> AgeTimed(e)
    ensures forall e :: e in Combined(parsed) && e !in UniversalEvents ==> FromParsed(e, parsed)
    ensures forall u :: u in UniversalEvents ==> u in Combined(parsed)
  {
    var all := Combined(parsed);
    forall e | e in all ensures AgeTimed(e) && (e in UniversalEvents || FromParsed(e, parsed)) {
      var k :| 0 <= k < |all| && all[k] == e;
      if k < 3 {
        assert e == UniversalEvents[k];
      } else {
        assert e == Formatted(parsed[k - 3]);
      }
    }
    forall u | u in UniversalEvents ensures u in all {
      var k :| 0 <= k < 3 && UniversalEvents[k] == u;
      assert all[k] == u;
    }
  }

  /** Two lists with the same multiset hold the same events. */
  lemma SameMembers(a: seq<NormEvent>, b: seq<NormEvent>)
    requires multiset(a) == multiset(b)
    ensures forall e :: e in a <==> e in b
  {
    forall e ensures e in a <==> e in b {
      assert e in a <==> e in multiset(a);
      assert e in b <==> e in multiset(b);
    }
  }

  /**
   * Every normalised event has t == age / 100, the universal events are all
   * present, and every other event is a parsed one with name, age and type kept.
   */
  lemma NormaliseKeepsEvents(parsed: seq<RawEvent>)
    ensures var r := Normalise(parsed);
      && (forall e :: e in r ==> e.t == e.age as real / 100.0)
      && (forall u :: u in UniversalEvents ==> u in r)
      && (forall e :: e in r && e !in UniversalEvents ==>
            exists i :: 0 <= i < |parsed| && e == Formatted(parsed[i]))
  {
    CombinedEvents(parsed);
    SameMembers(Normalise(parsed), Combined(parsed));
  }

  /** What the handler asks a model for. */
  datatype Query = EventsQuery(karma: real) | StoryQuery(facts: PromptFacts)

  const ParseFailed: string := "Failed to parse generated events"

  /**
   * generateLifeEvents: one model call for the karma, the events extracted
   * from its text by `parse`, then normalised. A failed call passes its
   * error on; text that does not parse fails with its own message.
   */
  function GenerateLifeEvents(
    karma: real, choice: Choice,
    complete: (Provider, string, Query) -> Result<string, string>,
    parse: string -> Option<seq<RawEvent>>): (r: Result<seq<NormEvent>, string>)
    ensures complete(choice.provider, choice.apiKey, EventsQuery(karma)).Failure? ==>
              r == Failure(complete(choice.provider, choice.apiKey, EventsQuery(karma)).error)
    ensures complete(choice.provider, choice.apiKey, EventsQuery(karma)).Success? ==>
              var text := complete(choice.provider, choice.apiKey, EventsQuery(karma)).value;
              r == (if parse(text).Some? then Success(Normalise(parse(text).value)) else Failure(ParseFailed))
    ensures r.Success? ==> exists parsed :: |r.value| == |parsed| + 3 && r.value == Normalise(parsed)
  {
    match complete(choice.provider, choice.apiKey, EventsQuery(karma))
    case Failure(message) => Failure(message)
    case Success(text) =>
      match parse(text)
      case None => Failure(ParseFailed)
      case Some(parsed) => Success(Normalise(parsed))
  }

  /** The inherited karma in words: negative below -0.2, positive above 0.2, neutral otherwise. */
  function KarmaDescription(karma: real): string {
    if karma < -0.2 then "negativo (vida previa en sombra)"
    else if karma > 0.2 then "positivo (vida previa en luz)"
    else "neutro (vida previa equilibrada)"
  }

  /** The service describes karma with the same bands the local generator uses. */
  lemma KarmaDescriptionFollowsBands(karma: real)
    ensures KarmaDescription(karma) == "negativo (vida previa en sombra)" <==> Events.BandOf(karma) == Events.Shadow
    ensures KarmaDescription(karma) == "positivo (vida previa en luz)" <==> Events.BandOf(karma) == Events.Light
    ensures KarmaDescription(karma) == "neutro (vida previa equilibrada)" <==> Events.BandOf(karma) == Events.Balanced
  {
    var neg, pos, neu := "negativo (vida previa en sombra)", "positivo (vida previa en luz)", "neutro (vida previa equilibrada)";
    assert neg[0] != pos[0] && neg[2] != neu[2] && pos[0] != neu[0];
  }

  // ---------------------------------------------------------------------------
  // Story prompt facts
  // ---------------------------------------------------------------------------

  /** The events lived with colour `color`, in order. */
  function WithColor(events: seq<Events.EventReport>, color: Events.Color): (r: seq<Events.EventReport>)
    ensures |r| == Collector.CountColor(events, color)
    ensures forall i :: 0 <= i < |r| ==> r[i].color == color && r[i] in events
    ensures forall e :: e in events && e.color == color ==> e in r
  {
    if events == [] then []
    else
      var front := WithColor(events[..|events| - 1], color);
      var last := events[|events| - 1];
      assert forall e :: e in events[..|events| - 1] ==> e in events;
      assert forall e :: e in events ==> e == last || e in events[..|events| - 1];
      front + (if last.color == color then [last] else [])
  }

  /** The three colour groups share no event. */
  lemma ColourGroupsDisjoint(events: seq<Events.EventReport>)
    ensures var t, f, n := WithColor(events, Events.TransmutedColor), WithColor(events, Events.FallenColor),
                           WithColor(events, Events.NeutralColor);
      && (forall e :: e in t ==> e !in f && e !in n)
      && (forall e :: e in f ==> e !in n)
  {
    Events.ColorsDistinct();
  }

  /** Grouping two runs of events groups each and keeps them in order. */
  lemma {:induction false} WithColorConcat(a: seq<Events.EventReport>, b: seq<Events.EventReport>, color: Events.Color)
    ensures WithColor(a + b, color) == WithColor(a, color) + WithColor(b, color)
  {
    if b == [] {
      assert a + b == a;
    } else {
      var init := b[..|b| - 1];
      assert (a + b)[..|a + b| - 1] == a + init;
      assert (a + b)[|a + b| - 1] == b[|b| - 1];
      WithColorConcat(a, init, color);
    }
  }

  /**
   * When every event was lived with one of the three colours, each event
   * is in the group of its colour, and the groups hold them all.
   */
  lemma ColourGroupsComplete(events: seq<Events.EventReport>)
    requires forall i :: 0 <= i < |events| ==>
               events[i].color in {Events.TransmutedColor, Events.FallenColor, Events.NeutralColor}
    ensures forall i :: 0 <= i < |events| ==>
      || events[i] in WithColor(events, Events.TransmutedColor)
      || events[i] in WithColor(events, Events.FallenColor)
      || events[i] in WithColor(events, Events.NeutralColor)
    ensures |WithColor(events, Events.TransmutedColor)| + |WithColor(events, Events.FallenColor)|
              + |WithColor(events, Events.NeutralColor)| == |events|
  {
    forall i | 0 <= i < |events|
      ensures events[i] in WithColor(events, events[i].color)
    {
    }
    GroupSizesAddUp(events);
  }

  /** The sizes of the three groups add up to the number of events of the three colours. */
  lemma {:induction false} GroupSizesAddUp(events: seq<Events.EventReport>)
    requires forall i :: 0 <= i < |events| ==>
               events[i].color in {Events.TransmutedColor, Events.FallenColor, Events.NeutralColor}
    ensures |WithColor(events, Events.TransmutedColor)| + |WithColor(events, Events.FallenColor)|
              + |WithColor(events, Events.NeutralColor)| == |events|
  {
    Events.ColorsDistinct();
    if events != [] {
      GroupSizesAddUp(events[..|events| - 1]);
    }
  }


  /** The phases of a life, by segment. */
  function PhaseName(i: nat): string
    requires i < 5
  {
    if i == 0 then "Infancia"
    else if i == 1 then "Juventud"
    else if i == 2 then "Madurez temprana"
    else if i == 3 then "Madurez plena"
    else "Vejez"
  }

  const InLight: string := "en la Luz"
  const InShadow: string := "en la Sombra"
  const InBalance: string := "en equilibrio"

  /** The state of a segment: strict thresholds at +0.3 and -0.3. */
  function StateOf(average: real): string {
    if average > 0.3 then InLight else if average < -0.3 then InShadow else InBalance
  }

  /** A segment is "in the light" exactly when an event lived at that value would be transmuted, and so on. */
  lemma StateFollowsClassify(average: real)
    ensures StateOf(average) == InLight <==> Events.Classify(average) == Events.TransmutedColor
    ensures StateOf(average) == InShadow <==> Events.Classify(average) == Events.FallenColor
    ensures StateOf(average) == InBalance <==> Events.Classify(average) == Events.NeutralColor
  {
    Events.ColorsDistinct();
    assert |InLight| != |InShadow| && |InLight| != |InBalance| && |InShadow| != |InBalance|;
  }

  const MinTrajectorySamples: nat := 10
  const PhaseCount: nat := 5

  function SegmentSize(n: nat): nat {
    n / PhaseCount
  }

  function SegmentStart(i: nat, n: nat): nat {
    i * SegmentSize(n)
  }

  /** Where segment `i` ends: one segment size past its start, but never past the history. */
  function SegmentEnd(i: nat, n: nat): nat {
    if (i + 1) * SegmentSize(n) < n then (i + 1) * SegmentSize(n) else n
  }

  /** With at least 10 samples every segment is non-empty and inside the history. */
  lemma SegmentBounds(i: nat, n: nat)
    requires i < PhaseCount && n >= MinTrajectorySamples
    ensures SegmentStart(i, n) < SegmentEnd(i, n) <= n
    ensures SegmentEnd(i, n) == (i + 1) * SegmentSize(n)
  {
    var k := SegmentSize(n);
    assert 5 * k <= n && k >= 2;
    if i == 0 {
      assert SegmentStart(i, n) == 0 && (i + 1) * k == k;
    } else if i == 1 {
      assert SegmentStart(i, n) == k && (i + 1) * k == 2 * k;
    } else if i == 2 {
      assert SegmentStart(i, n) == 2 * k && (i + 1) * k == 3 * k;
    } else if i == 3 {
      assert SegmentStart(i, n) == 3 * k && (i + 1) * k == 4 * k;
    } else {
      assert SegmentStart(i, n) == 4 * k && (i + 1) * k == 5 * k;
    }
  }

  /**
   * The five segments are contiguous from the first sample, and the last
   * one stops n mod 5 samples short of the end: those samples are never described.
   */
  lemma SegmentsTile(n: nat)
    requires n >= MinTrajectorySamples
    ensures SegmentStart(0, n) == 0
    ensures forall i :: 0 <= i < PhaseCount - 1 ==> SegmentEnd(i, n) == SegmentStart(i + 1, n)
    ensures SegmentEnd(PhaseCount - 1, n) == n - n % PhaseCount
  {
    forall i | 0 <= i < PhaseCount - 1 ensures SegmentEnd(i, n) == SegmentStart(i + 1, n) {
      SegmentBounds(i, n);
    }
    SegmentBounds(PhaseCount - 1, n);
  }

  /** One line of the trajectory: a phase, its state and the segment's mean. */
  datatype PhaseLine = PhaseLine(phase: string, state: string, average: real)

  datatype Trajectory = ShortTrajectory | Phases(lines: seq<PhaseLine>)

  /** The line of segment `i`. */
  function SegmentLine(history: seq<Collector.Sample>, i: nat): (line: PhaseLine)
    requires i < PhaseCount && |history| >= MinTrajectorySamples
    ensures line.phase == PhaseName(i) && line.state == StateOf(line.average)
    ensures SegmentStart(i, |history|) < SegmentEnd(i, |history|) <= |history|
    ensures var start, end := SegmentStart(i, |history|), SegmentEnd(i, |history|);
      line.average == Collector.SumC(history[start..end]) / (end - start) as real
  {
    SegmentBounds(i, |history|);
    var start, end := SegmentStart(i, |history|), SegmentEnd(i, |history|);
    var average := Collector.SumC(history[start..end]) / (end - start) as real;
    PhaseLine(PhaseName(i), StateOf(average), average)
  }

  /** describeTrajectory as a value. */
  function TrajectoryOf(history: seq<Collector.Sample>): (t: Trajectory)
    ensures t.ShortTrajectory? <==> |history| < MinTrajectorySamples
    ensures t.Phases? ==> |t.lines| == PhaseCount
  {
    if |history| < MinTrajectorySamples then ShortTrajectory
    else Phases(seq(PhaseCount, i requires 0 <= i < PhaseCount => SegmentLine(history, i)))
  }

  /** The phases come in life order, each with the state its mean calls for. */
  lemma TrajectoryPhases(history: seq<Collector.Sample>)
    requires |history| >= MinTrajectorySamples
    ensures var lines := TrajectoryOf(history).lines;
      && [lines[0].phase, lines[1].phase, lines[2].phase, lines[3].phase, lines[4].phase]
           == ["Infancia", "Juventud", "Madurez temprana", "Madurez plena", "Vejez"]
      && forall i :: 0 <= i < PhaseCount ==> lines[i].state == StateOf(lines[i].average)
  {
    var lines := TrajectoryOf(history).lines;
    assert forall i :: 0 <= i < PhaseCount ==> lines[i] == SegmentLine(history, i);
  }

  /** The bounds the loop of describeTrajectory computes are those of segment `i`. */
  lemma SegmentRange(history: seq<Collector.Sample>, i: nat, start: nat, end: nat)
    requires i < PhaseCount && |history| >= MinTrajectorySamples
    requires start == i * (|history| / PhaseCount)
    requires end == if (i + 1) * (|history| / PhaseCount) < |history| then (i + 1) * (|history| / PhaseCount) else |history|
    ensures start == SegmentStart(i, |history|) && end == SegmentEnd(i, |history|)
    ensures start < end <= |history|
  {
    SegmentBounds(i, |history|);
  }

  /** A line with phase i, the mean of segment i and the state of that mean is the line of segment i. */
  lemma LineOfSegment(history: seq<Collector.Sample>, i: nat, line: PhaseLine)
    requires i < PhaseCount && |history| >= MinTrajectorySamples
    requires SegmentStart(i, |history|) < SegmentEnd(i, |history|) <= |history|
    requires var start, end := SegmentStart(i, |history|), SegmentEnd(i, |history|);
      line.average == Collector.SumC(history[start..end]) / (end - start) as real
    requires line.phase == PhaseName(i)
    requires line.state == if line.average > 0.3 then InLight else if line.average < -0.3 then InShadow else InBalance
    ensures line == SegmentLine(history, i)
  {
  }

  /** describeTrajectory: a fixed message for short lives, else five phase lines. */
  method DescribeTrajectory(history: seq<Collector.Sample>) returns (t: Trajectory)
    ensures t == TrajectoryOf(history)
  {
    if |history| < MinTrajectorySamples {
      return ShortTrajectory;
    }
    var segments: seq<PhaseLine> := [];
    var segmentSize := |history| / PhaseCount;
    for i := 0 to PhaseCount
      invariant |segments| == i
      invariant forall k :: 0 <= k < i ==> segments[k] == SegmentLine(history, k)
    {
      var start := i * segmentSize;
      var end := if (i + 1) * segmentSize < |history| then (i + 1) * segmentSize else |history|;
      SegmentRange(history, i, start, end);
      var segment := history[start..end];
      var average := Collector.SumC(segment) / |segment| as real;
      var state := if average > 0.3 then InLight else if average < -0.3 then InShadow else InBalance;
      var line := PhaseLine(PhaseName(i), state, average);
      LineOfSegment(history, i, line);
      segments := segments + [line];
    }
    t := Phases(segments);
  }

  /** The facts a story prompt states about a life. */
  datatype PromptFacts = PromptFacts(
    average: Option<real>,
    maximum: Option<real>,
    minimum: Option<real>,
    finalConsciousness: real,
    karma: real,
    transmuted: seq<Events.EventReport>,
    fallen: seq<Events.EventReport>,
    neutral: seq<Events.EventReport>,
    trajectory: Trajectory)

  /** The request body fields the story endpoint reads. */
  datatype Body = Body(
    karma: Option<real>,
    history: Option<seq<Collector.Sample>>,
    events: Option<seq<Events.EventReport>>,
    finalConsciousness: Option<real>)

  /** What `toFixed` on a missing number throws. */
  const UndefinedNumber: string := "Cannot read properties of undefined (reading 'toFixed')"

  /**
   * buildKabalaPrompt, reduced to the facts it states. With an empty
   * history the statistics are not numbers (None); a missing final value or
   * karma makes the prompt throw.
   */
  function KabalaPrompt(history: seq<Collector.Sample>, events: seq<Events.EventReport>, body: Body): (r: Result<PromptFacts, string>)
    ensures r.Failure? <==> body.finalConsciousness.None? || body.karma.None?
    ensures r.Success? ==>
      && (r.value.average.Some? <==> history != [])
      && r.value.transmuted == WithColor(events, Events.TransmutedColor)
      && r.value.fallen == WithColor(events, Events.FallenColor)
      && r.value.neutral == WithColor(events, Events.NeutralColor)
      && r.value.trajectory == TrajectoryOf(history)
      && r.value.finalConsciousness == body.finalConsciousness.value
      && r.value.karma == body.karma.value
    ensures r.Success? && history != [] ==>
      && r.value.average == Some(Collector.SumC(history) / |history| as real)
      && r.value.maximum == Some(Collector.MaxC(history))
      && r.value.minimum == Some(Collector.MinC(history))
    ensures r.Success? && history == [] ==>
      r.value.average.None? && r.value.maximum.None? && r.value.minimum.None?
  {
    if body.finalConsciousness.None? || body.karma.None? then Failure(UndefinedNumber)
    else
      Success(PromptFacts(
        if history == [] then None else Some(Collector.SumC(history) / |history| as real),
        if history == [] then None else Some(Collector.MaxC(history)),
        if history == [] then None else Some(Collector.MinC(history)),
        body.finalConsciousness.value,
        body.karma.value,
        WithColor(events, Events.TransmutedColor),
        WithColor(events, Events.FallenColor),
        WithColor(events, Events.NeutralColor),
        TrajectoryOf(history)))
  }

  // ---------------------------------------------------------------------------
  // The handler
  // ---------------------------------------------------------------------------

  /** The body as the handler sees it: absent or null, unparsable, or an object. */
  datatype RequestBody = NoBody | Malformed(message: string) | Json(body: Body)

  datatype Request = Request(rawPath: Option<string>, path: Option<string>, body: RequestBody)

  /** The environment: LLM_PROVIDER and LLM_SECRETS_NAME. */
  datatype Env = Env(provider: Option<string>, secretName: Option<string>)

  datatype Payload =
    | EventsPayload(events: seq<NormEvent>, karma: real, provider: Provider)
    | StoryPayload(story: string, provider: Provider, karma: real)
    | ErrorPayload(error: string)

  datatype Response = Response(status: int, payload: Payload)

  const MissingFields: string := "Missing required fields: history, events"

  /** The karma of the body, 0 when there is no body or no karma in it. */
  function EventsKarma(body: RequestBody): real {
    if body.Json? && body.body.karma.Some? then body.body.karma.value else 0.0
  }

  /** The story endpoint needs a body with both history and events. */
  predicate HasStoryFields(body: RequestBody) {
    body.Json? && body.body.history.Some? && body.body.events.Some?
  }

  function ServerError(message: string): Response {
    Response(500, ErrorPayload(message))
  }

  /**
   * handler: parse the body, load the keys, choose the provider, then serve
   * the endpoint the path names. Every thrown error becomes a 500 carrying
   * its message; a story request without history or events is a 400.
   */
  function Handle(
    request: Request, env: Env, fetched: Result<Secrets, string>,
    complete: (Provider, string, Query) -> Result<string, string>,
    parse: string -> Option<seq<RawEvent>>): (response: Response)
    ensures response.status in {200, 400, 500}
    ensures response.status == 200 <==> !response.payload.ErrorPayload?
    ensures response.payload.EventsPayload? ==> IsEventGeneration(RequestPath(request.rawPath, request.path))
    ensures response.payload.StoryPayload? ==> !IsEventGeneration(RequestPath(request.rawPath, request.path))
    ensures response.status == 400 ==>
              !IsEventGeneration(RequestPath(request.rawPath, request.path)) && !HasStoryFields(request.body)
    ensures request.body.Malformed? ==> response == ServerError(request.body.message)
  {
    var isEventGeneration := IsEventGeneration(RequestPath(request.rawPath, request.path));
    if request.body.Malformed? then ServerError(request.body.message)
    else
      match LoadApiKeys(env.secretName, fetched)
      case Failure(message) => ServerError(message)
      case Success(keys) =>
        match SelectProvider(ConfiguredProvider(env.provider), keys)
        case Failure(message) => ServerError(message)
        case Success(choice) =>
          if isEventGeneration then
            var karma := EventsKarma(request.body);
            match GenerateLifeEvents(karma, choice, complete, parse)
            case Failure(message) => ServerError(message)
            case Success(events) => Response(200, EventsPayload(events, karma, choice.provider))
          else if !HasStoryFields(request.body) then
            Response(400, ErrorPayload(MissingFields))
          else
            var body := request.body.body;
            match KabalaPrompt(body.history.value, body.events.value, body)
            case Failure(message) => ServerError(message)
            case Success(facts) =>
              match complete(choice.provider, choice.apiKey, StoryQuery(facts))
              case Failure(message) => ServerError(message)
              case Success(story) => Response(200, StoryPayload(story, choice.provider, body.karma.value))
  }

  /** A story request without history or events, once keys and provider are fine, is a 400. */
  lemma MissingFieldsRejected(
    request: Request, env: Env, fetched: Result<Secrets, string>,
    complete: (Provider, string, Query) -> Result<string, string>,
    parse: string -> Option<seq<RawEvent>>)
    requires !request.body.Malformed? && !HasStoryFields(request.body)
    requires !IsEventGeneration(RequestPath(request.rawPath, request.path))
    requires LoadApiKeys(env.secretName, fetched).Success?
    requires SelectProvider(ConfiguredProvider(env.provider), LoadApiKeys(env.secretName, fetched).value).Success?
    ensures Handle(request, env, fetched, complete, parse) == Response(400, ErrorPayload(MissingFields))
  {
  }

  /** With no key at all every request fails with "No API keys configured", whatever its body. */
  lemma NoKeysIsServerError(
    request: Request, env: Env, fetched: Result<Secrets, string>,
    complete: (Provider, string, Query) -> Result<string, string>,
    parse: string -> Option<seq<RawEvent>>)
    requires !request.body.Malformed?
    requires LoadApiKeys(env.secretName, fetched).Success?
    requires LoadApiKeys(env.secretName, fetched).value == ApiKeys(None, None)
    ensures Handle(request, env, fetched, complete, parse) == ServerError(NoKeysConfigured)
  {
  }

  /**
   * A request to the events path that reaches a model and gets parsable
   * text back answers 200 with the normalised events and the karma it was
   * given (0 when the body has none).
   */
  lemma EventsRouteAnswers(
    request: Request, env: Env, fetched: Result<Secrets, string>,
    complete: (Provider, string, Query) -> Result<string, string>,
    parse: string -> Option<seq<RawEvent>>)
    requires !request.body.Malformed?
    requires IsEventGeneration(RequestPath(request.rawPath, request.path))
    requires LoadApiKeys(env.secretName, fetched).Success?
    requires SelectProvider(ConfiguredProvider(env.provider), LoadApiKeys(env.secretName, fetched).value).Success?
    ensures var choice := SelectProvider(ConfiguredProvider(env.provider), LoadApiKeys(env.secretName, fetched).value).value;
      var reply := complete(choice.provider, choice.apiKey, EventsQuery(EventsKarma(request.body)));
      reply.Success? && parse(reply.value).Some? ==>
        Handle(request, env, fetched, complete, parse)
          == Response(200, EventsPayload(Normalise(parse(reply.value).value), EventsKarma(request.body), choice.provider))
  {
  }

  /**
   * A story request with history and events whose prompt can be built, and
   * whose model call succeeds, answers 200 with the story, the provider
   * and the karma of the body.
   */
  lemma StoryRouteAnswers(
    request: Request, env: Env, fetched: Result<Secrets, string>,
    complete: (Provider, string, Query) -> Result<string, string>,
    parse: string -> Option<seq<RawEvent>>)
    requires !IsEventGeneration(RequestPath(request.rawPath, request.path))
    requires HasStoryFields(request.body)
    requires LoadApiKeys(env.secretName, fetched).Success?
    requires SelectProvider(ConfiguredProvider(env.provider), LoadApiKeys(env.secretName, fetched).value).Success?
    ensures var choice := SelectProvider(ConfiguredProvider(env.provider), LoadApiKeys(env.secretName, fetched).value).value;
      var body := request.body.body;
      var prompt := KabalaPrompt(body.history.value, body.events.value, body);
      prompt.Success? && complete(choice.provider, choice.apiKey, StoryQuery(prompt.value)).Success? ==>
        Handle(request, env, fetched, complete, parse)
          == Response(200, StoryPayload(complete(choice.provider, choice.apiKey, StoryQuery(prompt.value)).value,
                                        choice.provider, body.karma.value))
  {
  }
}
