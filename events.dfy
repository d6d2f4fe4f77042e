/**
 * The event system of one life (src/EventSystem.js): the fixed event pools,
 * the karma-biased local generator, the triggering of events as the progress
 * cursor moves, the colour an event is lived with, and the ageing light effects.
 */
module Events {
  import opened JsMath
  import Sorting

  // ---------------------------------------------------------------------------
  // Data
  // ---------------------------------------------------------------------------

  /** Colours a lived event is tagged with; other strings may reach the consumers. */
  type Color = string

  const TransmutedColor: Color := "#ffff00"
  const FallenColor: Color := "#ff0000"
  const NeutralColor: Color := "#ffffff"

  /**
   * An event of a life. Its position in the life is `t == age / 100`
   * (see Time); every pool entry is written with exactly that `t`.
   */
  datatype LifeEvent = LifeEvent(age: int, name: string, triggered: bool)

  /** `t`, the life position in [0, 1]. */
  function Time(e: LifeEvent): real {
    e.age as real / 100.0
  }

  /** A pool entry, not yet triggered. */
  function Pooled(age: int, name: string): LifeEvent {
    LifeEvent(age, name, false)
  }

  /** A pool written as (age, name) pairs: every entry starts untriggered. */
  function PoolOf(entries: seq<(int, string)>): seq<LifeEvent> {
    seq(|entries|, k requires 0 <= k < |entries| => Pooled(entries[k].0, entries[k].1))
  }

  const Universal: seq<LifeEvent> := [
    Pooled(0, "Nacimiento"),
    Pooled(18, "Mayoría de Edad"),
    Pooled(99, "Muerte Física")
  ]

  const StandardPool: seq<LifeEvent> := PoolOf([
    (4, "Primeros Pasos"),
    (6, "Primer Día de Escuela"),
    (10, "Mejor Amigo/a"),
    (14, "Primer Beso"),
    (16, "Licencia de Conducir"),
    (22, "Graduación Universitaria"),
    (24, "Viaje al Extranjero"),
    (25, "Primer Empleo Real"),
    (27, "Mudanza Independiente"),
    (28, "Boda / Matrimonio"),
    (30, "Ascenso Laboral"),
    (32, "Compra de Casa"),
    (35, "Nacimiento Primer Hijo"),
    (38, "Nacimiento Segundo Hijo"),
    (45, "Crisis de Mediana Edad"),
    (52, "Boda de Hijo/a"),
    (60, "Retiro Parcial"),
    (65, "Fiesta de Jubilación"),
    (70, "Bodas de Oro"),
    (75, "Nacimiento Primer Nieto")
  ])

  /** Hard trials ("bad karma"). */
  const KarmicPool: seq<LifeEvent> := PoolOf([
    (8, "Accidente Doméstico"),
    (12, "Bullying Escolar Severo"),
    (15, "Suspensión Escolar"),
    (20, "Accidente de Auto"),
    (23, "Ruptura Amorosa Dolorosa"),
    (26, "Deuda Inesperada"),
    (30, "Despido Fulminante"),
    (34, "Traición de Socio"),
    (38, "Divorcio Conflictivo"),
    (42, "Bancarrota Total"),
    (48, "Diagnóstico de Cáncer"),
    (55, "Incendio del Hogar"),
    (60, "Muerte de Cónyuge"),
    (68, "Estafa Financiera"),
    (72, "Caída Grave"),
    (80, "Demencia Senil"),
    (88, "Soledad Absoluta")
  ])

  /** Gifts ("good karma"). */
  const DharmicPool: seq<LifeEvent> := PoolOf([
    (7, "Premio Escolar"),
    (16, "Descubrimiento de Talento"),
    (19, "Mentor Inspirador"),
    (24, "Beca Prestigiosa"),
    (29, "Oportunidad de Negocio"),
    (33, "Éxito Viral / Fama"),
    (40, "Premio de Lotería"),
    (46, "Obra Maestra Creada"),
    (50, "Curación Milagrosa"),
    (58, "Herencia Inesperada"),
    (62, "Reencuentro Emotivo"),
    (70, "Reconocimiento Mundial"),
    (78, "Bisnieto Conocido"),
    (85, "Lucidez Extraordinaria"),
    (92, "Paz Espiritual Profunda")
  ])

  const TargetEventCount: nat := 25
  const MaxAttempts: nat := 100
  const MinSpacing: real := 0.03

  datatype Category = Standard | Karmic | Dharmic

  function Pool(c: Category): (p: seq<LifeEvent>)
    ensures |p| > 0
  {
    match c
    case Standard => StandardPool
    case Karmic => KarmicPool
    case Dharmic => DharmicPool
  }

  /**
   * Every pool event lies strictly inside a life, between birth at 0 and
   * death at 99, and each pool lists its events in ascending age, so no
   * event appears twice in a pool.
   */
  lemma PoolsInsideLife(c: Category)
    ensures forall k :: 0 <= k < |Pool(c)| ==> 0 < Pool(c)[k].age < 99
    ensures forall k, l :: 0 <= k < l < |Pool(c)| ==> Pool(c)[k].age < Pool(c)[l].age
  {
    match c
    case Standard => StandardRises(); AscendingAges(StandardPool);
    case Karmic => KarmicRises(); AscendingAges(KarmicPool);
    case Dharmic => DharmicRises(); AscendingAges(DharmicPool);
  }

  /** The standard pool, checked entry by entry. */
  lemma StandardRises()
    ensures forall k :: 0 <= k < |StandardPool| ==> 0 < StandardPool[k].age < 99
    ensures forall k :: 0 <= k < |StandardPool| - 1 ==> StandardPool[k].age < StandardPool[k + 1].age
  {
  }

  /** The karmic pool, checked entry by entry. */
  lemma KarmicRises()
    ensures forall k :: 0 <= k < |KarmicPool| ==> 0 < KarmicPool[k].age < 99
    ensures forall k :: 0 <= k < |KarmicPool| - 1 ==> KarmicPool[k].age < KarmicPool[k + 1].age
  {
  }

  /** The dharmic pool, checked entry by entry. */
  lemma DharmicRises()
    ensures forall k :: 0 <= k < |DharmicPool| ==> 0 < DharmicPool[k].age < 99
    ensures forall k :: 0 <= k < |DharmicPool| - 1 ==> DharmicPool[k].age < DharmicPool[k + 1].age
  {
  }

  /** Ages that rise from each entry to the next rise between any two entries. */
  lemma {:induction false} AscendingAges(p: seq<LifeEvent>)
    requires forall k :: 0 <= k < |p| - 1 ==> p[k].age < p[k + 1].age
    ensures forall k, l :: 0 <= k < l < |p| ==> p[k].age < p[l].age
  {
    if |p| > 1 {
      AscendingAges(p[1..]);
      forall k, l | 0 <= k < l < |p| ensures p[k].age < p[l].age {
        if k == 0 && l > 1 {
          assert p[1..][0] == p[1] && p[1..][l - 1] == p[l];
        } else if k > 0 {
          assert p[1..][k - 1] == p[k] && p[1..][l - 1] == p[l];
        }
      }
    }
  }

  // ---------------------------------------------------------------------------
  // Category choice
  // ---------------------------------------------------------------------------

  /** The category ladder of the generator for a draw `r` in [0, 1). */
  function ChooseCategory(prevKarma: real, r: real): Category {
    if prevKarma < -0.2 then
      if r < 0.5 then Karmic else if r < 0.8 then Standard else Dharmic
    else if prevKarma > 0.2 then
      if r < 0.5 then Dharmic else if r < 0.8 then Standard else Karmic
    else
      if r < 0.3 then Karmic else if r < 0.6 then Dharmic else Standard
  }

  /** The inherited-karma bands: a shadowed, a luminous and a balanced previous life. */
  datatype Band = Shadow | Light | Balanced

  function BandOf(karma: real): Band {
    if karma < -0.2 then Shadow else if karma > 0.2 then Light else Balanced
  }

  /** Reference table: the probability of each category in each band. */
  function Share(b: Band, c: Category): real {
    match (b, c)
    case (Shadow, Karmic) => 0.5
    case (Shadow, Standard) => 0.3
    case (Shadow, Dharmic) => 0.2
    case (Light, Dharmic) => 0.5
    case (Light, Standard) => 0.3
    case (Light, Karmic) => 0.2
    case (Balanced, Karmic) => 0.3
    case (Balanced, Dharmic) => 0.3
    case (Balanced, Standard) => 0.4
  }

  /** The order in which a band lays its categories out on [0, 1). */
  function Order(b: Band): seq<Category> {
    match b
    case Shadow => [Karmic, Standard, Dharmic]
    case Light => [Dharmic, Standard, Karmic]
    case Balanced => [Karmic, Dharmic, Standard]
  }

  /** Where the interval of `c` starts: the shares of the categories before it. */
  function Lower(b: Band, c: Category): real {
    var o := Order(b);
    if c == o[0] then 0.0
    else if c == o[1] then Share(b, o[0])
    else Share(b, o[0]) + Share(b, o[1])
  }

  /** In every band the three shares add up to one. */
  lemma SharesSumToOne(b: Band)
    ensures Share(b, Standard) + Share(b, Karmic) + Share(b, Dharmic) == 1.0
  {
  }

  /**
   * The ladder gives category `c` exactly on [Lower, Lower + Share): for a
   * uniform draw the category has the band's probability.
   */
  lemma {:induction false} CategoryFollowsShares(prevKarma: real, r: real, c: Category)
    requires 0.0 <= r < 1.0
    ensures ChooseCategory(prevKarma, r) == c <==>
              Lower(BandOf(prevKarma), c) <= r < Lower(BandOf(prevKarma), c) + Share(BandOf(prevKarma), c)
  {
    match BandOf(prevKarma)
    case Shadow =>
    case Light =>
    case Balanced =>
  }

  // ---------------------------------------------------------------------------
  // Local generation
  // ---------------------------------------------------------------------------

  /** The two Math.random() values one attempt consumes. */
  datatype Draw = Draw(category: real, index: real)

  predicate ValidDraws(draws: seq<Draw>) {
    forall i :: 0 <= i < |draws| ==>
      0.0 <= draws[i].category < 1.0 && 0.0 <= draws[i].index < 1.0
  }

  /** Math.floor(x * n): a uniform index into a pool of n entries. */
  function PickIndex(x: real, n: nat): (i: nat)
    requires 0.0 <= x < 1.0 && n > 0
    ensures i < n
    ensures i as real <= x * n as real < (i + 1) as real
  {
    assert (1.0 - x) * n as real > 0.0;
    (x * n as real).Floor
  }

  /** The candidate one attempt proposes: a category, then an entry of its pool. */
  function Candidate(prevKarma: real, d: Draw): (e: LifeEvent)
    requires 0.0 <= d.category < 1.0 && 0.0 <= d.index < 1.0
    ensures e in Pool(ChooseCategory(prevKarma, d.category)) && !e.triggered
  {
    var pool := Pool(ChooseCategory(prevKarma, d.category));
    pool[PickIndex(d.index, |pool|)]
  }

  /** The candidates of all the draws, attempt by attempt. */
  function Candidates(prevKarma: real, draws: seq<Draw>): (cands: seq<LifeEvent>)
    requires ValidDraws(draws)
    ensures |cands| == |draws|
    ensures forall i :: 0 <= i < |cands| ==> !cands[i].triggered
  {
    seq(|draws|, i requires 0 <= i < |draws| => Candidate(prevKarma, draws[i]))
  }

  predicate InSomePool(e: LifeEvent) {
    e in StandardPool || e in KarmicPool || e in DharmicPool
  }

  /** Every candidate is an untriggered entry of one of the three pools. */
  lemma CandidatesFromPools(prevKarma: real, draws: seq<Draw>)
    requires ValidDraws(draws)
    ensures forall i :: 0 <= i < |draws| ==>
              InSomePool(Candidates(prevKarma, draws)[i]) && !Candidates(prevKarma, draws)[i].triggered
  {
    forall i | 0 <= i < |draws|
      ensures InSomePool(Candidates(prevKarma, draws)[i]) && !Candidates(prevKarma, draws)[i].triggered
    {
      var c := Candidate(prevKarma, draws[i]);
      assert Candidates(prevKarma, draws)[i] == c;
      match ChooseCategory(prevKarma, draws[i].category)
      case Standard =>
      case Karmic =>
      case Dharmic =>
    }
  }

  predicate IsDuplicate(events: seq<LifeEvent>, c: LifeEvent) {
    exists i :: 0 <= i < |events| && events[i].name == c.name
  }

  predicate IsTooClose(events: seq<LifeEvent>, c: LifeEvent) {
    exists i :: 0 <= i < |events| && Abs(Time(events[i]) - Time(c)) < MinSpacing
  }

  /** What one attempt does to the list built so far. */
  function Step(acc: seq<LifeEvent>, c: LifeEvent): seq<LifeEvent> {
    if |acc| >= TargetEventCount then acc
    else if !IsDuplicate(acc, c) && !IsTooClose(acc, c) then acc + [c]
    else acc
  }

  /** The list after the first `n` attempts (with candidates `cands`), before sorting. */
  function Fill(cands: seq<LifeEvent>, n: nat): seq<LifeEvent>
    requires n <= |cands|
  {
    if n == 0 then Universal
    else Step(Fill(cands, n - 1), cands[n - 1])
  }

  /** The life the local generator produces: every attempt made, then sorted by t. */
  function LocalLife(prevKarma: real, draws: seq<Draw>): seq<LifeEvent>
    requires |draws| >= MaxAttempts && ValidDraws(draws)
  {
    Sorting.SortBy(Fill(Candidates(prevKarma, draws), MaxAttempts), Time)
  }

  /** Two events may share a life: different names, at least 0.03 apart. */
  predicate Compatible(a: LifeEvent, b: LifeEvent) {
    a.name != b.name && Abs(Time(a) - Time(b)) >= MinSpacing
  }

  /** What holds of the list after any number of attempts. */
  ghost predicate WellFormedFill(s: seq<LifeEvent>, cands: seq<LifeEvent>) {
    && 3 <= |s| <= TargetEventCount
    && s[..3] == Universal
    && Sorting.Pairwise(s, Compatible)
    && (forall i :: 3 <= i < |s| ==> s[i] in cands)
    && (forall i :: 0 <= i < |s| ==> !s[i].triggered)
  }

  lemma UniversalWellFormed(cands: seq<LifeEvent>)
    ensures WellFormedFill(Universal, cands)
  {
    var u := Universal;
    assert u[0].name != u[1].name by { assert |u[0].name| != |u[1].name|; }
    assert u[0].name != u[2].name by { assert |u[0].name| != |u[2].name|; }
    assert u[1].name != u[2].name by { assert u[1].name[1] != u[2].name[1]; }
    assert u[..3] == u;
  }

  lemma {:induction false} StepWellFormed(acc: seq<LifeEvent>, c: LifeEvent, cands: seq<LifeEvent>)
    requires WellFormedFill(acc, cands) && c in cands && !c.triggered
    ensures WellFormedFill(Step(acc, c), cands)
  {
    if |acc| < TargetEventCount && !IsDuplicate(acc, c) && !IsTooClose(acc, c) {
      var r := acc + [c];
      assert r[..3] == acc[..3];
      forall i | 0 <= i < |acc| ensures Compatible(acc[i], c) && Compatible(c, acc[i]) {
        assert Abs(Time(acc[i]) - Time(c)) == Abs(Time(c) - Time(acc[i]));
      }
      forall i, j | 0 <= i < |r| && 0 <= j < |r| && i != j ensures Compatible(r[i], r[j]) {
        if i < |acc| && j < |acc| {
          assert r[i] == acc[i] && r[j] == acc[j];
        }
      }
    }
  }

  /**
   * After any number of attempts the list starts with the three universal
   * events and holds 3 to 25 untriggered events, each after the third one of
   * the candidates, with distinct names and pairwise at least 0.03 apart.
   */
  lemma {:induction false} FillWellFormed(cands: seq<LifeEvent>, n: nat)
    requires n <= |cands|
    requires forall i :: 0 <= i < |cands| ==> !cands[i].triggered
    ensures WellFormedFill(Fill(cands, n), cands)
  {
    if n == 0 {
      UniversalWellFormed(cands);
    } else {
      FillWellFormed(cands, n - 1);
      StepWellFormed(Fill(cands, n - 1), cands[n - 1], cands);
    }
  }

  /** Once the list is full, further attempts change nothing (the loop's `break`). */
  lemma {:induction false} FillSaturates(cands: seq<LifeEvent>, i: nat, j: nat)
    requires i <= j <= |cands|
    requires |Fill(cands, i)| >= TargetEventCount
    ensures Fill(cands, j) == Fill(cands, i)
  {
    if j > i {
      FillSaturates(cands, i, j - 1);
    }
  }

  /** Sorting a well-formed list keeps its size and makes it strictly increasing in t. */
  lemma SortedFillOrder(full: seq<LifeEvent>, cands: seq<LifeEvent>)
    requires WellFormedFill(full, cands)
    ensures var life := Sorting.SortBy(full, Time);
      && 3 <= |life| <= TargetEventCount
      && Sorting.SortedBy(life, Time)
      && Sorting.Pairwise(life, Compatible)
      && (forall i, j :: 0 <= i < j < |life| ==> Time(life[i]) + MinSpacing <= Time(life[j]))
  {
    var life := Sorting.SortBy(full, Time);
    Sorting.SortPairwise(full, Time, Compatible);
    forall i, j | 0 <= i < j < |life| ensures Time(life[i]) + MinSpacing <= Time(life[j]) {
      assert Compatible(life[i], life[j]);
    }
  }

  /** Sorting a well-formed list keeps the universal events and the candidates in it. */
  lemma SortedFillMembers(full: seq<LifeEvent>, cands: seq<LifeEvent>)
    requires WellFormedFill(full, cands)
    requires forall i :: 0 <= i < |cands| ==> InSomePool(cands[i])
    ensures var life := Sorting.SortBy(full, Time);
      && (forall k :: 0 <= k < 3 ==> Universal[k] in life)
      && (forall e :: e in life ==> !e.triggered && (e in Universal || InSomePool(e)))
  {
    var life := Sorting.SortBy(full, Time);
    forall k | 0 <= k < 3 ensures Universal[k] in life {
      assert full[k] == Universal[k];
      assert Universal[k] in multiset(full);
    }
    forall e | e in life ensures !e.triggered && (e in Universal || InSomePool(e)) {
      assert e in multiset(full);
      var i :| 0 <= i < |full| && full[i] == e;
      if i < 3 {
        assert e == Universal[i];
      } else {
        var k :| 0 <= k < |cands| && cands[k] == e;
      }
    }
  }

  /** The attempts made by the local generator, each well formed, before sorting. */
  lemma LocalFillWellFormed(prevKarma: real, draws: seq<Draw>)
    requires |draws| >= MaxAttempts && ValidDraws(draws)
    ensures var cands := Candidates(prevKarma, draws);
      && WellFormedFill(Fill(cands, MaxAttempts), cands)
      && (forall i :: 0 <= i < |cands| ==> InSomePool(cands[i]))
  {
    var cands := Candidates(prevKarma, draws);
    CandidatesFromPools(prevKarma, draws);
    FillWellFormed(cands, MaxAttempts);
  }

  /**
   * The generated life holds 3 to 25 events, sorted by t, every two of them
   * with different names and at least 0.03 apart (so strictly increasing in t).
   */
  lemma LocalLifeOrder(prevKarma: real, draws: seq<Draw>)
    requires |draws| >= MaxAttempts && ValidDraws(draws)
    ensures var life := LocalLife(prevKarma, draws);
      && 3 <= |life| <= TargetEventCount
      && Sorting.SortedBy(life, Time)
      && Sorting.Pairwise(life, Compatible)
      && (forall i, j :: 0 <= i < j < |life| ==> Time(life[i]) + MinSpacing <= Time(life[j]))
  {
    var cands := Candidates(prevKarma, draws);
    LocalFillWellFormed(prevKarma, draws);
    SortedFillOrder(Fill(cands, MaxAttempts), cands);
  }

  /**
   * The three universal events are always in the generated life, every
   * other event comes from a pool, none is triggered, and the life is a
   * permutation of the list the attempts built (the universal events followed
   * by the accepted candidates, in acceptance order).
   */
  lemma LocalLifeMembers(prevKarma: real, draws: seq<Draw>)
    requires |draws| >= MaxAttempts && ValidDraws(draws)
    ensures var life := LocalLife(prevKarma, draws);
      && (forall k :: 0 <= k < 3 ==> Universal[k] in life)
      && (forall e :: e in life ==> !e.triggered && (e in Universal || InSomePool(e)))
      && multiset(life) == multiset(Fill(Candidates(prevKarma, draws), MaxAttempts))
  {
    var cands := Candidates(prevKarma, draws);
    var full := Fill(cands, MaxAttempts);
    assert LocalLife(prevKarma, draws) == Sorting.SortBy(full, Time);
    LocalFillWellFormed(prevKarma, draws);
    SortedFillMembers(full, cands);
  }

  /**
   * _generateLocalEvents: up to 100 attempts, stopping once 25 events are
   * held; each attempt draws a category and a pool entry and keeps it when its
   * name is new and it is at least 0.03 from every event held; then sorts.
   * `attempts` is how many draws were consumed.
   */
  method BuildLifeEvents(prevKarma: real, draws: seq<Draw>) returns (events: seq<LifeEvent>, attempts: nat)
    requires |draws| >= MaxAttempts && ValidDraws(draws)
    ensures events == LocalLife(prevKarma, draws)
    ensures attempts <= MaxAttempts
    ensures events == Sorting.SortBy(Fill(Candidates(prevKarma, draws), attempts), Time)
    ensures attempts < MaxAttempts ==> |events| == TargetEventCount
  {
    ghost var cands := Candidates(prevKarma, draws);
    var newEvents := Universal;
    attempts := 0;
    while attempts < MaxAttempts
      invariant attempts <= MaxAttempts
      invariant newEvents == Fill(cands, attempts)
    {
      if |newEvents| >= TargetEventCount {
        break;
      }
      var candidate := Candidate(prevKarma, draws[attempts]);
      assert candidate == cands[attempts];
      if !IsDuplicate(newEvents, candidate) && !IsTooClose(newEvents, candidate) {
        newEvents := newEvents + [candidate];
      }
      attempts := attempts + 1;
    }
    FillWellFormed(cands, attempts);
    if attempts < MaxAttempts {
      FillSaturates(cands, attempts, MaxAttempts);
    }
    events := Sorting.SortBy(newEvents, Time);
  }

  // ---------------------------------------------------------------------------
  // Triggering
  // ---------------------------------------------------------------------------

  /** The colour an event is lived with: strict thresholds at +0.3 and -0.3. */
  function Classify(consciousness: real): (color: Color)
    ensures color in {TransmutedColor, FallenColor, NeutralColor}
    ensures color == TransmutedColor <==> consciousness > 0.3
    ensures color == FallenColor <==> consciousness < -0.3
  {
    ColorsDistinct();
    if consciousness > 0.3 then TransmutedColor
    else if consciousness < -0.3 then FallenColor
    else NeutralColor
  }

  /** The three colours are different strings. */
  lemma ColorsDistinct()
    ensures TransmutedColor != FallenColor && TransmutedColor != NeutralColor && FallenColor != NeutralColor
  {
    assert TransmutedColor[3] != FallenColor[3];
    assert TransmutedColor[5] != NeutralColor[5];
    assert FallenColor[3] != NeutralColor[3];
  }

  /** The boundaries themselves are neutral. */
  lemma ClassifyBoundaries()
    ensures Classify(0.3) == NeutralColor && Classify(-0.3) == NeutralColor
    ensures Classify(0.5) == TransmutedColor && Classify(-0.5) == FallenColor
    ensures Classify(0.0) == NeutralColor
  {
  }

  /** What `onEvent` receives when an event fires. */
  datatype EventReport = EventReport(name: string, t: real, consciousness: real, color: Color, age: int)

  function Report(e: LifeEvent, consciousness: real): EventReport {
    EventReport(e.name, Time(e), consciousness, Classify(consciousness), e.age)
  }

  /** An event fires when untriggered and the cursor has just crossed its t. */
  predicate Fires(e: LifeEvent, lastProgress: real, progress: real) {
    !e.triggered && progress >= Time(e) && lastProgress < Time(e)
  }

  /** A backwards move of the cursor clears every triggered flag first. */
  function Rearmed(events: seq<LifeEvent>, progress: real, lastProgress: real): (r: seq<LifeEvent>)
    ensures |r| == |events|
    ensures forall i :: 0 <= i < |r| ==>
              r[i].age == events[i].age && r[i].name == events[i].name
    ensures progress < lastProgress ==> forall i :: 0 <= i < |r| ==> !r[i].triggered
    ensures lastProgress <= progress ==> r == events
  {
    if progress < lastProgress then seq(|events|, i requires 0 <= i < |events| => events[i].(triggered := false))
    else events
  }

  /** An event after the firing pass: triggered if it fired, unchanged otherwise. */
  function Mark(e: LifeEvent, lastProgress: real, progress: real): LifeEvent {
    if Fires(e, lastProgress, progress) then e.(triggered := true) else e
  }

  /** What one event contributes to the reports: its report if it fires, nothing otherwise. */
  function FiredReport(e: LifeEvent, lastProgress: real, progress: real, consciousness: real): seq<EventReport> {
    if Fires(e, lastProgress, progress) then [Report(e, consciousness)] else []
  }

  /** Every event that fires is marked triggered; nothing else changes. */
  function Marked(events: seq<LifeEvent>, lastProgress: real, progress: real): (r: seq<LifeEvent>)
    ensures |r| == |events|
  {
    if events == [] then []
    else Marked(events[..|events| - 1], lastProgress, progress) + [Mark(events[|events| - 1], lastProgress, progress)]
  }

  /** Marking acts on each event alone. */
  lemma {:induction false} MarkedAt(events: seq<LifeEvent>, lastProgress: real, progress: real, i: nat)
    requires i < |events|
    ensures Marked(events, lastProgress, progress)[i] == Mark(events[i], lastProgress, progress)
  {
    if i < |events| - 1 {
      MarkedAt(events[..|events| - 1], lastProgress, progress, i);
    }
  }

  /** The reports of the events that fire, in list order. */
  function Reports(events: seq<LifeEvent>, lastProgress: real, progress: real, consciousness: real): (r: seq<EventReport>)
    ensures |r| <= |events|
  {
    if events == [] then []
    else
      var last := events[|events| - 1];
      Reports(events[..|events| - 1], lastProgress, progress, consciousness)
        + FiredReport(last, lastProgress, progress, consciousness)
  }

  /**
   * Every report is of an event whose t the cursor has just crossed, and
   * carries the colour the current consciousness classifies to.
   */
  lemma {:induction false} ReportsWindow(events: seq<LifeEvent>, lastProgress: real, progress: real, consciousness: real)
    ensures forall k :: 0 <= k < |Reports(events, lastProgress, progress, consciousness)| ==>
      var report := Reports(events, lastProgress, progress, consciousness)[k];
      lastProgress < report.t <= progress && report.color == Classify(consciousness)
  {
    if events != [] {
      var init := events[..|events| - 1];
      ReportsWindow(init, lastProgress, progress, consciousness);
      var pre := Reports(init, lastProgress, progress, consciousness);
      var r := Reports(events, lastProgress, progress, consciousness);
      assert r == pre + FiredReport(events[|events| - 1], lastProgress, progress, consciousness);
      forall k | 0 <= k < |r|
        ensures lastProgress < r[k].t <= progress && r[k].color == Classify(consciousness)
      {
        if k < |pre| {
          assert r[k] == pre[k];
        } else {
          var last := events[|events| - 1];
          assert Fires(last, lastProgress, progress);
          assert r[k] == Report(last, consciousness);
        }
      }
    }
  }

  /** The reports of two runs of events are the reports of the first, then those of the second. */
  lemma {:induction false} ReportsConcat(a: seq<LifeEvent>, b: seq<LifeEvent>, lastProgress: real, progress: real, consciousness: real)
    ensures Reports(a + b, lastProgress, progress, consciousness)
      == Reports(a, lastProgress, progress, consciousness) + Reports(b, lastProgress, progress, consciousness)
  {
    if b == [] {
      assert a + b == a;
    } else {
      var init := b[..|b| - 1];
      assert (a + b)[..|a + b| - 1] == a + init;
      assert (a + b)[|a + b| - 1] == b[|b| - 1];
      ReportsConcat(a, init, lastProgress, progress, consciousness);
    }
  }

  /** A single event yields its report exactly when it fires, and nothing otherwise. */
  lemma ReportsSingle(e: LifeEvent, lastProgress: real, progress: real, consciousness: real)
    ensures Reports([e], lastProgress, progress, consciousness)
      == (if Fires(e, lastProgress, progress) then [Report(e, consciousness)] else [])
  {
    assert [e][..0] == [];
  }

  /** Every event of the list that fires is reported. */
  lemma ReportsEachFiring(events: seq<LifeEvent>, lastProgress: real, progress: real, consciousness: real, i: nat)
    requires i < |events| && Fires(events[i], lastProgress, progress)
    ensures Report(events[i], consciousness) in Reports(events, lastProgress, progress, consciousness)
  {
    var before, after := events[..i], events[i + 1..];
    assert events == before + [events[i]] + after;
    ReportsConcat(before + [events[i]], after, lastProgress, progress, consciousness);
    ReportsConcat(before, [events[i]], lastProgress, progress, consciousness);
    ReportsSingle(events[i], lastProgress, progress, consciousness);
  }

  /** Marking one more event: the earlier marks, then this event's. */
  lemma MarkedExtend(events: seq<LifeEvent>, j: nat, lastProgress: real, progress: real)
    requires j < |events|
    ensures Marked(events[..j + 1], lastProgress, progress)
      == Marked(events[..j], lastProgress, progress) + [Mark(events[j], lastProgress, progress)]
  {
    assert events[..j + 1][..j] == events[..j];
  }

  /**
   * One step of the firing pass: with the events before j already marked and
   * the rest untouched, marking event j (when it fires) extends the marked prefix.
   */
  lemma MarkStep(cur: seq<LifeEvent>, base: seq<LifeEvent>, j: nat, lastProgress: real, progress: real)
    requires j < |base|
    requires cur == Marked(base[..j], lastProgress, progress) + base[j..]
    ensures |cur| == |base| && cur[j] == base[j]
    ensures cur[j := Mark(base[j], lastProgress, progress)]
      == Marked(base[..j + 1], lastProgress, progress) + base[j + 1..]
  {
    var done := Marked(base[..j], lastProgress, progress);
    MarkedExtend(base, j, lastProgress, progress);
    assert base[j..] == [base[j]] + base[j + 1..];
    assert cur == done + [base[j]] + base[j + 1..];
    ReplaceAfter(done, base[j], Mark(base[j], lastProgress, progress), base[j + 1..]);
  }

  /** Reports over one more event: the earlier reports, then this event's if it fires. */
  lemma ReportsExtend(events: seq<LifeEvent>, j: nat, lastProgress: real, progress: real, consciousness: real)
    requires j < |events|
    ensures Reports(events[..j + 1], lastProgress, progress, consciousness)
      == Reports(events[..j], lastProgress, progress, consciousness)
         + FiredReport(events[j], lastProgress, progress, consciousness)
  {
    assert events[..j + 1][..j] == events[..j];
  }

  /**
   * One step of the firing pass, on values: if the first j events are done
   * and event j is marked, reported and flashed, the first j + 1 are done.
   */
  lemma FireStep(base: seq<LifeEvent>, j: nat, events: seq<LifeEvent>, fired: seq<EventReport>,
                 effects0: seq<Effect>, effects: seq<Effect>, marked: LifeEvent, reports: seq<EventReport>,
                 lastProgress: real, progress: real, consciousness: real)
    requires j < |base|
    requires events == Marked(base[..j], lastProgress, progress) + base[j..]
    requires fired == Reports(base[..j], lastProgress, progress, consciousness)
    requires marked == Mark(events[j], lastProgress, progress)
    requires reports == FiredReport(events[j], lastProgress, progress, consciousness)
    requires effects == effects0 + Spawned(|fired|, consciousness) + Spawned(|reports|, consciousness)
    ensures events[j := marked] == Marked(base[..j + 1], lastProgress, progress) + base[j + 1..]
    ensures fired + reports == Reports(base[..j + 1], lastProgress, progress, consciousness)
    ensures effects == effects0 + Spawned(|fired + reports|, consciousness)
  {
    MarkStep(events, base, j, lastProgress, progress);
    ReportsExtend(base, j, lastProgress, progress, consciousness);
    SpawnedAdd(|fired|, |reports|, consciousness);
    AppendAssoc(effects0, Spawned(|fired|, consciousness), Spawned(|reports|, consciousness));
  }

  /**
   * After a step of the cursor every event whose t lies in (lastProgress,
   * progress] is triggered, every other event keeps the flag it had after the
   * re-arming, and names and ages never change.
   */
  lemma MarkedWindow(events: seq<LifeEvent>, lastProgress: real, progress: real)
    ensures var r := Marked(events, lastProgress, progress);
      forall i :: 0 <= i < |events| ==>
        && r[i].age == events[i].age && r[i].name == events[i].name
        && (lastProgress < Time(events[i]) <= progress ==> r[i].triggered)
        && (!(lastProgress < Time(events[i]) <= progress) ==> r[i].triggered == events[i].triggered)
  {
    forall i | 0 <= i < |events| {
      MarkedAt(events, lastProgress, progress, i);
    }
  }

  /**
   * While the cursor moves forward, an event that fired in one step does not
   * fire again in the next.
   */
  lemma FiresOnce(events: seq<LifeEvent>, p0: real, p1: real, p2: real, i: nat)
    requires p0 <= p1 <= p2 && i < |events|
    requires Fires(events[i], p0, p1)
    ensures var after := Marked(Rearmed(events, p1, p0), p0, p1);
      !Fires(Rearmed(after, p2, p1)[i], p1, p2)
  {
    MarkedAt(Rearmed(events, p1, p0), p0, p1, i);
  }

  /**
   * Birth, at t = 0, never fires: the cursor starts at 0 and never goes
   * below it, and firing needs lastProgress < t.
   */
  lemma BirthNeverFires(e: LifeEvent, lastProgress: real, progress: real)
    requires e.age == 0 && lastProgress >= 0.0
    ensures !Fires(e, lastProgress, progress)
  {
  }

  // ---------------------------------------------------------------------------
  // Light effects
  // ---------------------------------------------------------------------------

  /** A flash: its age, its light's intensity and its light's colour. */
  datatype Effect = Effect(age: real, intensity: real, color: Color)

  /** The flash triggerEvent creates: intensity 5 for light and shadow, 2 when neutral. */
  function SpawnedEffect(consciousness: real): Effect {
    var color := Classify(consciousness);
    Effect(0.0, if color == NeutralColor then 2.0 else 5.0, color)
  }

  /** The flashes of `n` events triggered at the same consciousness. */
  function Spawned(n: nat, consciousness: real): (flashes: seq<Effect>)
    ensures |flashes| == n
  {
    if n == 0 then [] else Spawned(n - 1, consciousness) + [SpawnedEffect(consciousness)]
  }

  /** Flashes of the same kind add up. */
  lemma {:induction false} SpawnedAdd(m: nat, n: nat, consciousness: real)
    ensures Spawned(m, consciousness) + Spawned(n, consciousness) == Spawned(m + n, consciousness)
  {
    if n > 0 {
      SpawnedAdd(m, n - 1, consciousness);
      AppendAssoc(Spawned(m, consciousness), Spawned(n - 1, consciousness), [SpawnedEffect(consciousness)]);
    }
  }

  /** One frame of ageing: age + 0.05, intensity max(0, 5 - 5 * age). */
  function Bump(e: Effect): Effect {
    var age := e.age + 0.05;
    e.(age := age, intensity := if 5.0 - age * 5.0 > 0.0 then 5.0 - age * 5.0 else 0.0)
  }

  /**
   * updateEffects on a list: each effect aged by one frame, those now older
   * than 1 dropped, the others kept in order.
   */
  function Aged(s: seq<Effect>): (r: seq<Effect>)
    ensures |r| <= |s|
    ensures forall k :: 0 <= k < |r| ==> r[k].age <= 1.0
  {
    if s == [] then []
    else
      var e := Bump(s[0]);
      (if e.age > 1.0 then [] else [e]) + Aged(s[1..])
  }

  /**
   * Exactly the effects older than 1 after ageing are dropped: an effect of
   * the old list survives, aged, exactly when its new age is at most 1, and
   * every survivor is an aged effect of the old list.
   */
  lemma {:induction false} AgedKeepsExactly(s: seq<Effect>)
    ensures forall x :: x in s ==> (Bump(x) in Aged(s) <==> x.age + 0.05 <= 1.0)
    ensures forall y :: y in Aged(s) ==> exists x :: x in s && y == Bump(x)
  {
    if s != [] {
      AgedKeepsExactly(s[1..]);
      assert forall x :: x in s ==> x == s[0] || x in s[1..];
      var e := Bump(s[0]);
      var r := Aged(s);
      assert r == (if e.age > 1.0 then [] else [e]) + Aged(s[1..]);
      forall y | y in r ensures exists x :: x in s && y == Bump(x) {
        if y in Aged(s[1..]) {
          var x :| x in s[1..] && y == Bump(x);
          assert x in s;
        } else {
          assert y == e && s[0] in s;
        }
      }
    }
  }

  /** Ageing two runs of effects ages each and keeps them in order. */
  lemma {:induction false} AgedConcat(a: seq<Effect>, b: seq<Effect>)
    ensures Aged(a + b) == Aged(a) + Aged(b)
  {
    if a == [] {
      assert a + b == b;
    } else {
      assert (a + b)[0] == a[0] && (a + b)[1..] == a[1..] + b;
      AgedConcat(a[1..], b);
    }
  }

  /** A single effect survives ageing, aged, exactly when its new age is at most 1. */
  lemma AgedSingle(x: Effect)
    ensures Aged([x]) == if Bump(x).age > 1.0 then [] else [Bump(x)]
  {
    assert [x][1..] == [];
  }

  lemma AgedAppend(s: seq<Effect>, i: nat)
    requires i < |s|
    ensures Aged(s[i..]) == (if Bump(s[i]).age > 1.0 then [] else [Bump(s[i])]) + Aged(s[i + 1..])
  {
    assert s[i..][1..] == s[i + 1..];
  }

  /** Splicing out the element after `head` leaves `head + tail`. */
  lemma SpliceOut<T>(head: seq<T>, x: T, tail: seq<T>)
    ensures var cur := head + [x] + tail;
      cur[..|head|] + cur[|head| + 1..] == head + tail
  {
    var cur := head + [x] + tail;
    assert cur[..|head|] == head;
    assert cur[|head| + 1..] == tail;
  }

  /** Concatenation is associative. */
  lemma AppendAssoc<T>(a: seq<T>, b: seq<T>, c: seq<T>)
    ensures (a + b) + c == a + (b + c)
  {
  }

  /** Overwriting the element after `head` replaces it and nothing else. */
  lemma ReplaceAfter<T>(head: seq<T>, x: T, y: T, tail: seq<T>)
    ensures (head + [x] + tail)[|head| := y] == head + [y] + tail
  {
  }

  /**
   * One step of the backwards walk of updateEffects: with the effects from
   * i + 1 on already aged, ageing effect i in place (or splicing it out when
   * it is now older than 1) leaves the effects from i on aged.
   */
  lemma AgeInPlace(cur: seq<Effect>, s: seq<Effect>, i: nat)
    requires i < |s|
    requires cur == s[..i + 1] + Aged(s[i + 1..])
    ensures i < |cur| && cur[i] == s[i]
    ensures Bump(s[i]).age > 1.0 ==> cur[..i] + cur[i + 1..] == s[..i] + Aged(s[i..])
    ensures Bump(s[i]).age <= 1.0 ==> cur[i := Bump(s[i])] == s[..i] + Aged(s[i..])
  {
    var head, x, tail := s[..i], s[i], Aged(s[i + 1..]);
    assert cur == head + [x] + tail by {
      assert s[..i + 1] == head + [x];
    }
    assert |head| == i;
    SpliceOut(head, x, tail);
    ReplaceAfter(head, x, Bump(x), tail);
    if Bump(x).age > 1.0 {
      assert s[..i] + Aged(s[i..]) == head + tail by {
        AgedAppend(s, i);
      }
    } else {
      assert s[..i] + Aged(s[i..]) == head + [Bump(x)] + tail by {
        AgedAppend(s, i);
        AppendAssoc(head, [Bump(x)], tail);
      }
    }
  }

  // ---------------------------------------------------------------------------
  // The event system object
  // ---------------------------------------------------------------------------

  class EventSystem {
    var activeEvents: seq<LifeEvent>
    var lastProgress: real
    var activeEffects: seq<Effect>

    /** Starts the first life with neutral karma. */
    constructor (draws: seq<Draw>)
      requires |draws| >= MaxAttempts && ValidDraws(draws)
      ensures activeEvents == LocalLife(0.0, draws)
      ensures lastProgress == 0.0 && activeEffects == []
    {
      lastProgress := 0.0;
      activeEffects := [];
      new;
      GenerateLifeEvents(0.0, draws);
    }

    /** generateLifeEvents: the local generator replaces the active events. */
    method GenerateLifeEvents(prevKarma: real, draws: seq<Draw>)
      requires |draws| >= MaxAttempts && ValidDraws(draws)
      modifies this`activeEvents
      ensures activeEvents == LocalLife(prevKarma, draws)
    {
      var attempts;
      activeEvents, attempts := BuildLifeEvents(prevKarma, draws);
    }

    /** triggerEvent: adds the flash and returns what `onEvent` receives. */
    method TriggerEvent(e: LifeEvent, consciousness: real) returns (report: EventReport)
      modifies this`activeEffects
      ensures activeEffects == old(activeEffects) + [SpawnedEffect(consciousness)]
      ensures report == Report(e, consciousness)
    {
      var color;
      if consciousness > 0.3 {
        color := TransmutedColor;
        activeEffects := activeEffects + [Effect(0.0, 5.0, color)];
      } else if consciousness < -0.3 {
        color := FallenColor;
        activeEffects := activeEffects + [Effect(0.0, 5.0, color)];
      } else {
        color := NeutralColor;
        activeEffects := activeEffects + [Effect(0.0, 2.0, color)];
      }
      report := EventReport(e.name, Time(e), consciousness, color, e.age);
    }

    /** updateEffects: walks the flashes backwards, ageing and splicing. */
    method UpdateEffects()
      modifies this`activeEffects
      ensures activeEffects == Aged(old(activeEffects))
    {
      ghost var s := activeEffects;
      var i := |activeEffects|;
      while i > 0
        invariant 0 <= i <= |s|
        invariant activeEffects == s[..i] + Aged(s[i..])
      {
        i := i - 1;
        AgeInPlace(activeEffects, s, i);
        var effect := Bump(activeEffects[i]);
        if effect.age > 1.0 {
          activeEffects := activeEffects[..i] + activeEffects[i + 1..];
        } else {
          activeEffects := activeEffects[i := effect];
        }
      }
    }

    /** The reset step of checkEvents: every flag cleared when the cursor went back. */
    method Rearm(progress: real)
      modifies this`activeEvents
      ensures activeEvents == Rearmed(old(activeEvents), progress, lastProgress)
    {
      if progress < lastProgress {
        ghost var original := activeEvents;
        var i := 0;
        while i < |activeEvents|
          invariant |activeEvents| == |original|
          invariant 0 <= i <= |activeEvents|
          invariant forall k :: 0 <= k < i ==> activeEvents[k] == original[k].(triggered := false)
          invariant forall k :: i <= k < |activeEvents| ==> activeEvents[k] == original[k]
        {
          activeEvents := activeEvents[i := activeEvents[i].(triggered := false)];
          i := i + 1;
        }
      }
    }

    /** The body of the firing pass for one event: trigger it if the cursor just crossed it. */
    method FireIfCrossed(e: LifeEvent, progress: real, consciousness: real)
      returns (marked: LifeEvent, reports: seq<EventReport>)
      modifies this`activeEffects
      ensures marked == Mark(e, lastProgress, progress)
      ensures reports == FiredReport(e, lastProgress, progress, consciousness)
      ensures activeEffects == old(activeEffects) + Spawned(|reports|, consciousness)
    {
      marked, reports := e, [];
      if !e.triggered && progress >= Time(e) && lastProgress < Time(e) {
        var report := TriggerEvent(e, consciousness);
        reports := [report];
        marked := e.(triggered := true);
      }
    }

    /** The firing step of checkEvents: one pass over the events, in order. */
    method FireCrossed(progress: real, consciousness: real) returns (fired: seq<EventReport>)
      modifies this`activeEvents, this`activeEffects
      ensures activeEvents == Marked(old(activeEvents), lastProgress, progress)
      ensures fired == Reports(old(activeEvents), lastProgress, progress, consciousness)
      ensures activeEffects == old(activeEffects) + Spawned(|fired|, consciousness)
    {
      var events := activeEvents;
      ghost var base, effects0 := events, activeEffects;
      fired := [];
      var j := 0;
      while j < |events|
        invariant 0 <= j <= |base| == |events|
        invariant events == Marked(base[..j], lastProgress, progress) + base[j..]
        invariant fired == Reports(base[..j], lastProgress, progress, consciousness)
        invariant activeEffects == effects0 + Spawned(|fired|, consciousness)
      {
        var marked, reports := FireIfCrossed(events[j], progress, consciousness);
        FireStep(base, j, events, fired, effects0, activeEffects, marked, reports, lastProgress, progress, consciousness);
        events := events[j := marked];
        fired := fired + reports;
        j := j + 1;
      }
      assert base[..j] == base;
      activeEvents := events;
    }

    /**
     * checkEvents: re-arms every event when the cursor went backwards, fires
     * the events crossed since the last call, moves the cursor, ages the
     * flashes. Returns the reports handed to `onEvent`, in order.
     */
    method CheckEvents(progress: real, consciousness: real) returns (fired: seq<EventReport>)
      modifies this
      ensures lastProgress == progress
      ensures var base := Rearmed(old(activeEvents), progress, old(lastProgress));
        && activeEvents == Marked(base, old(lastProgress), progress)
        && fired == Reports(base, old(lastProgress), progress, consciousness)
      ensures activeEffects == Aged(old(activeEffects) + Spawned(|fired|, consciousness))
    {
      Rearm(progress);
      fired := FireCrossed(progress, consciousness);
      lastProgress := progress;
      UpdateEffects();
    }
  }
}
