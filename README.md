# metatof, the life-cycle bookkeeping in Dafny

metatof plays one human life as a cursor that runs from 0 to 1 over a tree of
life. A dial sets the player's consciousness in [-1, 1]. The life's events fire
as the cursor passes them, and each is tagged by the consciousness it was lived
with: transmuted (light), fallen (shadow) or neutral. A collector samples the
dial and scores the life's karma, which biases the events of the next life. A
small server chooses a language-model provider and either generates events or
tells the life as a story.

This project models the bookkeeping under the 3D scene, one module per source
file:

- `Events` (src/EventSystem.js) holds several parts:
  - the event pools;
  - the karma-biased local generator, as a loop proved against a fold over explicit random draws;
  - the firing pass of `checkEvents` over the `triggered` flags and the `lastProgress` cursor;
  - the three-way colour classifier;
  - the ageing and pruning of the light effects.
- `Sorting` holds the `Array.prototype.sort` the event lists use. It is an insertion sort by a real key.
- `Collector` (src/LifeStoryCollector.js) samples every tenth frame, summarises the life, computes karma and guards the story request.
- `Lambda` (lambda/index.js) covers several parts of the server:
  - key loading and the provider ladder;
  - routing and request validation;
  - normalisation of generated events;
  - the five-phase trajectory;
  - the karma wording;
  - the colour groups of the story prompt.
- `Consciousness` (src/ConsciousnessController.js) is the dial. It counts whole tenths in [-10, 10].
- `Tree` (src/TreeVessel.js) holds the two mirrored ten-node tables, their paths and the node lookup.
- `Minimap` (src/Minimap.js) holds the sampled trail, the remembered events and the two linear maps of the canvas.
- `Wrappers` (Option, Result) and `JsMath` (JavaScript's `Math.round`, `Math.abs` and the max/min clamps) are shared helpers.

Consciousness, karma and times are exact reals. An event's time is its age in
hundredths. Randomness is a sequence of draws passed in: one category draw and
one index draw per attempt. The clock, the network and the language models are
parameters. Objects whose fields the source updates in place are classes with
those fields. Their methods are proved against the specification functions
beside them.

Three behaviours of the code are worth knowing:

- The local generator starts its list with the three universal events, before any sampling. Candidates are therefore checked for duplicate names and spacing against the universal events too.
- Karma of an empty history is 0 (src/LifeStoryCollector.js:147).
- Birth (t = 0) never fires, because the cursor starts at 0 and firing needs `lastProgress < t` (`Events.BirthNeverFires`).

## Model

| member | source | states |
|---|---|---|
| Events.PoolsInsideLife | src/EventSystem.js:17-74 | every pool event lies strictly between birth (age 0) and death (age 99), and each pool lists its events in strictly ascending age, so no event repeats within a pool |
| Events.Pool | src/EventSystem.js:164 | each category's pool is non-empty, so a pool index can always be drawn |
| Events.SharesSumToOne | src/EventSystem.js:146-161 | in each karma band the three category probabilities add up to 1 |
| Events.CategoryFollowsShares | src/EventSystem.js:146-161 | for a draw in [0,1) the ladder picks category c exactly on an interval of the band's probability for c: 50/30/20 karmic/standard/dharmic below -0.2, mirrored above 0.2, 30/30/40 karmic/dharmic/standard otherwise |
| Events.PickIndex | src/EventSystem.js:165 | the floor of draw times pool length is a valid index of the pool, and index i is picked exactly for draws x with i <= x * n < i + 1 |
| Events.Candidate | src/EventSystem.js:163-165 | an attempt's candidate is an untriggered entry of the pool of the category its draw selects |
| Events.Candidates | src/EventSystem.js:139-165 | one candidate per attempt, all untriggered |
| Events.CandidatesFromPools | src/EventSystem.js:163-165 | every candidate is an untriggered entry of one of the three pools |
| Events.UniversalWellFormed | src/EventSystem.js:12-16 | the three universal events alone already satisfy the list invariant: distinct names, at least 0.03 apart |
| Events.StepWellFormed | src/EventSystem.js:167-176 | an attempt that adds only a candidate with a new name and at least 0.03 from every held event, and only below 25 events, keeps the list invariant |
| Events.FillWellFormed | src/EventSystem.js:139-177 | after any number of attempts the list starts with the universal events and holds 3 to 25 untriggered events with distinct names, pairwise at least 0.03 apart, each extra one a candidate |
| Events.FillSaturates | src/EventSystem.js:140 | once 25 events are held, further attempts change nothing, which justifies the loop's early exit |
| Events.SortedFillOrder | src/EventSystem.js:180 | sorting a well-formed list gives a list ascending in t whose consecutive times differ by at least 0.03 |
| Events.SortedFillMembers | src/EventSystem.js:180 | sorting keeps the universal events and yields only universal or pool events, none triggered |
| Events.LocalFillWellFormed | src/EventSystem.js:130-177 | the hundred attempts of the generator yield a well-formed list of pool candidates |
| Events.LocalLifeOrder | src/EventSystem.js:130-181 | a generated life has 3 to 25 events, sorted by t, names pairwise distinct, any two at least 0.03 apart |
| Events.LocalLifeMembers | src/EventSystem.js:130-181 | a generated life contains the three universal events, every other event comes from a pool, none is triggered, and it is a permutation of the accepted list |
| Events.BuildLifeEvents | src/EventSystem.js:130-185 | the generator loop makes at most 100 attempts and returns exactly the specified life; stopping early means it holds 25 events |
| Events.Classify | src/EventSystem.js:208-220 | the colour of an event is one of the three colours; it is the transmuted colour exactly when consciousness is above 0.3 and the fallen colour exactly when it is below -0.3 |
| Events.ColorsDistinct | src/EventSystem.js:210-218 | the three colour strings are different |
| Events.ClassifyBoundaries | src/EventSystem.js:208-220 | 0.3 and -0.3 are neutral (strict thresholds); 0.5 is transmuted, -0.5 fallen, 0 neutral |
| Events.Rearmed | src/EventSystem.js:188-191 | when the cursor moved back every `triggered` flag is cleared; when it did not the list is unchanged; names, ages and the length are always kept |
| Events.Marked | src/EventSystem.js:193-198 | the firing pass keeps the number of events |
| Events.MarkedAt | src/EventSystem.js:193-198 | the firing pass acts on each event alone: position i is event i marked |
| Events.Reports | src/EventSystem.js:193-198 | no more reports than events |
| Events.ReportsConcat | src/EventSystem.js:193-198 | the reports of a list are those of its first part followed by those of the rest, so reports come in list order |
| Events.ReportsSingle | src/EventSystem.js:193-198 | one event yields exactly its report when it fires and nothing otherwise, so there is one report per firing event |
| Events.ReportsEachFiring | src/EventSystem.js:193-198 | every event of the list that fires is reported |
| Events.ReportsWindow | src/EventSystem.js:193-198 | every report is of an event whose t lies in (lastProgress, progress] and carries the colour the current consciousness classifies to |
| Events.MarkedWindow | src/EventSystem.js:193-198 | after a step every event with t in (lastProgress, progress] is triggered, every other keeps its flag, names and ages are unchanged |
| Events.FiresOnce | src/EventSystem.js:187-200 | while the cursor moves forward, an event that fired in one step does not fire in the next |
| Events.BirthNeverFires | src/EventSystem.js:194 | an event at age 0 never fires once the cursor is non-negative |
| Events.Spawned | src/EventSystem.js:256-272 | n triggered events leave n flashes |
| Events.Aged | src/EventSystem.js:274-284 | ageing never lengthens the list and leaves every flash with age at most 1 |
| Events.AgedConcat | src/EventSystem.js:274-284 | ageing a list ages its first part and the rest separately and keeps the survivors in their order |
| Events.AgedSingle | src/EventSystem.js:274-284 | one flash survives, aged by 0.05, exactly when its new age is at most 1 |
| Events.AgedKeepsExactly | src/EventSystem.js:274-284 | a flash survives ageing, aged by 0.05, exactly when its new age is at most 1, and every survivor is an aged flash of the old list |
| Events.EventSystem.constructor | src/EventSystem.js:78-89 | a new system holds the neutral-karma local life, cursor 0, no flashes |
| Events.EventSystem.GenerateLifeEvents | src/EventSystem.js:91-94 | the active events become the local life for the given karma |
| Events.EventSystem.TriggerEvent | src/EventSystem.js:204-233 | one flash of the classified colour is appended (intensity 5, or 2 when neutral) and the report carries name, t, consciousness, colour and age |
| Events.EventSystem.UpdateEffects | src/EventSystem.js:274-284 | the backwards walk with in-place bump and splice leaves exactly the aged list |
| Events.EventSystem.Rearm | src/EventSystem.js:188-191 | when the cursor went back every flag is cleared, otherwise nothing changes |
| Events.EventSystem.FireIfCrossed | src/EventSystem.js:194-197 | an event fires exactly when untriggered and lastProgress < t <= progress: then it is marked, reported and flashed, else untouched |
| Events.EventSystem.FireCrossed | src/EventSystem.js:193-198 | the in-order pass marks exactly the specified events, returns their reports in list order, and appends one flash per report |
| Events.EventSystem.CheckEvents | src/EventSystem.js:187-202 | re-arm, fire, move the cursor to progress, then age the flashes, all as the specification functions say |
| Sorting.Insert | src/EventSystem.js:180 | inserting into a sorted list keeps it sorted and adds exactly the element; the element goes first when its key is at most the first entry's, otherwise the first entry stays first |
| Sorting.SortBy | src/EventSystem.js:180 | the result is sorted by the key and a permutation of the input |
| Sorting.InsertPairwise | src/EventSystem.js:180 | insertion keeps any pairwise relation the element has with every entry |
| Sorting.SortPairwise | src/EventSystem.js:180 | sorting keeps every pairwise relation the input had, such as distinct names and spacing |
| Collector.EveryTenth | src/LifeStoryCollector.js:18-27 | of the samples offered, exactly those at every tenth frame are kept, in order |
| Collector.MaxC | src/LifeStoryCollector.js:61 | the maximum bounds every sample and is attained |
| Collector.MinC | src/LifeStoryCollector.js:62 | the minimum bounds every sample and is attained |
| Collector.CountColor | src/LifeStoryCollector.js:71-73 | a colour count never exceeds the number of events |
| Collector.MeanBetween | src/LifeStoryCollector.js:60-62 | the average of samples within [lo, hi] lies within [lo, hi] |
| Collector.ColorCountsDisjoint | src/LifeStoryCollector.js:70-73 | transmuted + fallen + neutral counts are at most the number of events |
| Collector.Summarize | src/LifeStoryCollector.js:55-75 | no summary exactly for an empty history; otherwise the average is the mean of the samples, max and min are `MaxC` and `MinC`, so min <= average <= max, final is the last sample, total is the event count, each colour count is `CountColor` of that colour, and they sum to at most the total |
| Collector.WeightTotal | src/LifeStoryCollector.js:153-157 | the total weight is non-negative and positive for a non-empty history |
| Collector.Karma | src/LifeStoryCollector.js:146-170 | karma lies in [-1, 1] and is 0 for an empty history |
| Collector.WeightTotalClosedForm | src/LifeStoryCollector.js:153-157 | the weights (i+1)/n of the first k samples add up to k(k+1)/2n |
| Collector.WeightedSumBounded | src/LifeStoryCollector.js:153-157 | samples in [-1, 1] give a weighted sum within plus or minus the total weight |
| Collector.EventBonusCounts | src/LifeStoryCollector.js:160-164 | the bonus is 0.05 times (transmuted count minus fallen count); other colours add nothing |
| Collector.BonusCancels | src/LifeStoryCollector.js:160-164 | one transmuted and one fallen event net a bonus of 0 |
| Collector.KarmaWithoutEvents | src/LifeStoryCollector.js:146-169 | with samples in [-1, 1] and no events the clamp never bites: karma is the weighted mean |
| Collector.KarmaOfOneSample | src/LifeStoryCollector.js:153-166 | one sample c in [-1, 1] and no events give karma c |
| Collector.KarmaOfTwoSamples | src/LifeStoryCollector.js:153-166 | samples 1 then -1 and no events give karma -1/3 |
| Collector.LifeStoryCollector.constructor | src/LifeStoryCollector.js:5-13 | a new collector holds no samples, no events, frame 0, not generating |
| Collector.LifeStoryCollector.Record | src/LifeStoryCollector.js:18-28 | every call counts a frame; the sample is appended exactly when the frame count is a multiple of 10; the history stays every tenth sample offered |
| Collector.LifeStoryCollector.RecordEvent | src/LifeStoryCollector.js:33-41 | exactly one event is appended; samples and frame count are unchanged |
| Collector.LifeStoryCollector.Reset | src/LifeStoryCollector.js:46-50 | samples and events are emptied and the frame count is 0 |
| Collector.LifeStoryCollector.GetSummary | src/LifeStoryCollector.js:55-75 | the summary of the collected history and events as `Summarize` states it: null exactly for an empty history, the final value is the last sample |
| Collector.LifeStoryCollector.CalculateKarma | src/LifeStoryCollector.js:146-170 | the two accumulation loops and the clamp compute exactly the specified karma |
| Collector.LifeStoryCollector.StartStory | src/LifeStoryCollector.js:80-108 | while generating, or with fewer than 50 samples, nothing is sent and the state is unchanged; otherwise generating is set and the request carries history, events, last sample and karma |
| Collector.LifeStoryCollector.FinishStory | src/LifeStoryCollector.js:118-140 | the story on success, nothing on failure, not generating afterwards |
| Collector.GenerateStory | src/LifeStoryCollector.js:80-141 | a refused request returns nothing and leaves the flag as it was; an accepted one ends with the flag cleared and returns the service's story for the request of the history, the events, the last sample and the karma, or nothing when the service fails |
| Lambda.KeyOrNull | lambda/index.js:26-27 | a missing or empty secret entry becomes null; any other is kept |
| Lambda.LoadApiKeys | lambda/index.js:10-36 | unset secret name and unreadable secret give their two errors; loaded keys are never empty strings |
| Lambda.ConfiguredProvider | lambda/index.js:302 | the configured provider name is never empty (anthropic by default) |
| Lambda.SelectProvider | lambda/index.js:305-321 | an error exactly when neither key exists, with the source's message; otherwise the chosen provider's key is the returned key |
| Lambda.SelectionHonoursConfiguration | lambda/index.js:307-312 | the configured provider is used whenever its key exists |
| Lambda.SelectionFallsBack | lambda/index.js:313-321 | without a usable configured provider, Anthropic is used when its key exists, else OpenAI |
| Lambda.ChosenKeyNonEmpty | lambda/index.js:305-321 | the key the chosen provider is called with is non-empty |
| Lambda.RoutingExamples | lambda/index.js:293-294 | two example paths that contain "generate-events" are routed to event generation |
| Lambda.NonEventPaths | lambda/index.js:293-294 | the story path and the empty path are not routed to event generation |
| Lambda.Formatted | lambda/index.js:271-276 | a parsed event gets t = age/100 and keeps name, age and type |
| Lambda.Combined | lambda/index.js:265-279 | the universal events come first, then every parsed event formatted, in order |
| Lambda.Normalise | lambda/index.js:279-280 | the normalised list has the parsed count plus 3 events, is ascending in t and is a permutation of the combined list |
| Lambda.CombinedEvents | lambda/index.js:265-279 | every combined event has t = age/100, every non-universal one is a formatted parsed event, every universal one is present |
| Lambda.NormaliseKeepsEvents | lambda/index.js:265-282 | after sorting every event still has t = age/100, the universal events are all present and every other event is a formatted parsed event |
| Lambda.GenerateLifeEvents | lambda/index.js:244-287 | a failed model call passes its error on; after a successful call, text that `parse` accepts gives the normalisation of exactly that list, and text it rejects gives the parse-failure error |
| Lambda.KarmaDescriptionFollowsBands | lambda/index.js:225-227 | the karma wording is negative, positive or neutral exactly in the generator's shadow, light and balanced bands |
| Lambda.WithColor | lambda/index.js:48-50 | a colour group holds events of that colour only, every event of that colour, and as many as the colour count |
| Lambda.WithColorConcat | lambda/index.js:48-50 | grouping a list groups its first part and the rest separately, so each group keeps the events in list order |
| Lambda.ColourGroupsDisjoint | lambda/index.js:48-50 | the three colour groups share no event |
| Lambda.ColourGroupsComplete | lambda/index.js:48-50 | when every event has one of the three colours, each event is in one of the three groups and the group sizes add up to the number of events |
| Lambda.StateFollowsClassify | lambda/index.js:133-134 | a segment is in the light, shadow or balance exactly when an event at that value would be transmuted, fallen or neutral |
| Lambda.SegmentBounds | lambda/index.js:120-125 | with at least 10 samples every segment is non-empty and ends one segment size after its start, inside the history |
| Lambda.SegmentsTile | lambda/index.js:119-125 | the five segments are contiguous from 0 and stop n mod 5 samples before the end |
| Lambda.SegmentLine | lambda/index.js:123-136 | segment i is a non-empty range of the history; its line carries phase name i, the mean of the samples in that range, and the state that mean calls for |
| Lambda.TrajectoryOf | lambda/index.js:116-140 | the short message exactly below 10 samples, otherwise exactly 5 lines |
| Lambda.TrajectoryPhases | lambda/index.js:128-136 | the lines name the phases Infancia to Vejez in order, each with the state of its mean |
| Lambda.DescribeTrajectory | lambda/index.js:116-140 | the segment loop returns exactly the specified trajectory |
| Lambda.KabalaPrompt | lambda/index.js:39-101 | a missing final value or karma throws; otherwise the final value and karma are the body's, the average, maximum and minimum are the mean, `MaxC` and `MinC` of a non-empty history and absent for an empty one, events are split into their three colour groups, and the trajectory is the specified one |
| Lambda.Handle | lambda/index.js:289-391 | the status is 200, 400 or 500; 200 exactly without an error payload; events only on the events path and stories only off it; 400 only for a story request without history or events; an unparsable body is a 500 with its message |
| Lambda.MissingFieldsRejected | lambda/index.js:348-354 | a story request without history or events, once keys and provider are fine, is answered 400 with the source's message |
| Lambda.NoKeysIsServerError | lambda/index.js:319-321 | with no key at all every well-formed request is a 500 "No API keys configured" |
| Lambda.EventsRouteAnswers | lambda/index.js:326-345 | an events request whose model reply parses is answered 200 with the normalised events, the given karma (0 by default) and the provider |
| Lambda.StoryRouteAnswers | lambda/index.js:347-380 | a story request with history and events whose prompt is built and whose model call succeeds is answered 200 with the model's story, the provider and the body's karma |
| Consciousness.ChangedValue | src/ConsciousnessController.js:21-25 | the value after a change lies in [-1, 1] |
| Consciousness.Stepped | src/ConsciousnessController.js:21-25 | a change in tenths lands in [-10, 10] |
| Consciousness.SteppedMatchesFormula | src/ConsciousnessController.js:21-25 | counting in whole tenths gives exactly the value of the add-round-clamp rule |
| Consciousness.PressMovesOneTenth | src/ConsciousnessController.js:21-25 | a press up adds one tenth unless at 1, a press down removes one unless at -1 |
| Consciousness.Saturates | src/ConsciousnessController.js:21-25 | up at 1 stays 1, down at -1 stays -1 |
| Consciousness.UpDownRestores | src/ConsciousnessController.js:21-25 | away from the bounds, up then down (or down then up) restores the value |
| Consciousness.KeyDelta | src/ConsciousnessController.js:9-16 | ArrowUp and w ask for +0.1, ArrowDown and s for -0.1, every other key for nothing |
| Consciousness.ConsciousnessController.constructor | src/ConsciousnessController.js:2-5 | the dial starts at 0 |
| Consciousness.ConsciousnessController.GetValue | src/ConsciousnessController.js:36-38 | the value lies in [-1, 1] and is a whole number of tenths |
| Consciousness.ConsciousnessController.ChangeValue | src/ConsciousnessController.js:19-28 | the new value is the add-round-clamp of the old one and stays in range |
| Consciousness.ConsciousnessController.OnKeyDown | src/ConsciousnessController.js:8-17 | a mapped key applies its step, any other key leaves the value alone |
| Consciousness.ConsciousnessController.Update | src/ConsciousnessController.js:30-34 | a frame leaves the value unchanged |
| Tree.Mirror | src/TreeVessel.js:175-176 | the mirror negates y and keeps x and z |
| Tree.TablesHaveTenNodes | src/TreeVessel.js:4-28 | both tables have ten nodes |
| Tree.QliphothMirrorSefirot | src/TreeVessel.js:4-28 | every qliphah sits at the mirror image of the sefirah with the same index |
| Tree.ConnectionsWithinTree | src/TreeVessel.js:30-37 | there are 22 paths, each joining two distinct node indices in 0..9 |
| Tree.SafeIndex | src/TreeVessel.js:168-169 | the node index lies in 0..9 whatever the magnitude |
| Tree.SafeIndexMonotone | src/TreeVessel.js:184-185 | a larger magnitude never selects a lower node |
| Tree.SafeIndexOnTenths | src/TreeVessel.js:184-185 | k tenths select node 10 - k |
| Tree.ActiveNodeData | src/TreeVessel.js:182-195 | null exactly at consciousness 0 |
| Tree.ActiveNodePosition | src/TreeVessel.js:166-180 | the origin at consciousness 0 |
| Tree.ExtremesOfTheLightTree | src/TreeVessel.js:183-186 | 1 lights Kéter and 0.1 lights Maljut |
| Tree.ShadowUsesSameIndex | src/TreeVessel.js:183-191 | a negative value lights the qliphah at the index its magnitude gives a sefirah |
| Tree.PositionMirrors | src/TreeVessel.js:166-180 | negating consciousness mirrors the active position through the axis |
| Tree.PositionOfActiveNode | src/TreeVessel.js:166-195 | wherever a node is lit, the position lookup agrees with the lit node's position |
| Tree.ActiveSideFollowsSign | src/TreeVessel.js:166-176 | positive values land in the upper tree, negative values in the lower |
| Minimap.Sampled | src/Minimap.js:49-56 | after a sampling frame the last point is (progress, consciousness); the trail restarts when progress went back, else grows by that point |
| Minimap.SampledKeepsOrder | src/Minimap.js:51-55 | sampling keeps the trail's progress values non-decreasing |
| Minimap.SampledGrowsByAtMostOne | src/Minimap.js:51-55 | a sampling frame grows the trail by at most one point |
| Minimap.Minimap.constructor | src/Minimap.js:13-17 | a new minimap holds no points, no events, frame 0 |
| Minimap.Minimap.Update | src/Minimap.js:46-59 | every call counts a frame; only on every fifth frame is the trail sampled, with trail and events cleared first when progress went back; the trail stays ordered |
| Minimap.Minimap.RegisterEvent | src/Minimap.js:61-67 | exactly the event's (t, consciousness, colour) is appended; the trail is unchanged |
| Minimap.MapYEnds | src/Minimap.js:75-80 | time 0 maps to the bottom padding, time 1 to the top padding |
| Minimap.MapYOrdered | src/Minimap.js:75-80 | on a canvas taller than its paddings, later times are drawn strictly higher, inside the paddings |
| Minimap.MapXGuides | src/Minimap.js:160-163 | consciousness 1, 0 and -1 land on the left guide, the centre line and the right guide |
| Minimap.MapXOrdered | src/Minimap.js:160-163 | on a canvas of positive width higher consciousness lies strictly further left, between the guides |

## Left out

- Rendering and the DOM are left out, because they are side effects only. This covers the three.js scene, meshes and lights in TreeVessel.js. It also covers the event toast (`showToast`), `Minimap.draw` with its colour ramp, and `handleResize`.
- `Minimap.Minimap.Update`: the draw call at the end of `update` is not modelled, because it only renders.
- Light objects of the flashes are modelled by their age, intensity and colour. The scene-graph `add` and `remove` are not modelled.
- The network is a parameter, because it is outside the program:
  - `generateLifeEventsAsync` (src/EventSystem.js:97-128), which fetches events from the server, is not modelled; its events go through the same sort as the local ones.
  - `callAnthropic` and `callOpenAI` are the parameter `complete`.
  - The fetch in `generateStory` is the parameter `service`.
- `Collector.GenerateStory` models `generateStory` split at its `await`: the synchronous guards (`StartStory`) and the settlement (`FinishStory`). Concurrent calls that interleave while a request is out are not modelled.
- Reading the secret from the secrets store is the parameter `fetched`. The `cachedKeys` cache is not modelled, because it only saves repeated reads.
- Extracting and parsing the model's JSON (regex and `JSON.parse`) is the parameter `parse`. The prompt texts and `toFixed` formatting are not modelled, since they are prose. `Lambda.KabalaPrompt` keeps only the facts a story prompt states.
- `Math.random` is replaced by an explicit sequence of draws. `Date.now` and the ISO timestamps are passed in (`stamp`) or dropped.
- Floating point is not modelled: numbers are exact reals and ages are whole hundredths. `Math.round(x * 10) / 10` and the 0.03 spacing test are exact here. IEEE rounding artefacts are not reproduced.
- `Lambda.Handle`: console logging and the response headers are not modelled.
- `Consciousness.ConsciousnessController.ChangeValue`: the console log is not modelled.
- Sorting is modelled on values, as an insertion sort. The in-place order of the JavaScript engine's sort among events with equal `t` is not claimed.
- `Events.EventSystem.GenerateLifeEvents`: the local generator copies the list of universal events but shares the three event objects with the pool, so `checkEvents` setting their `triggered` flag writes into the pool itself. A life generated after a universal event fired and before any rewind would start with that event already triggered. The model gives every generated life fresh, untriggered universal events, so it does not capture this aliasing. The game generates a local life only when the system is constructed, when no flag has been set yet.
- `Lambda.GenerateLifeEvents`: on the events path, a parsed value that is not an array makes `events.map` throw, which ends in the parse-failure error. The model sends that case through the failure branch of `parse`. Events whose `age` is not a number are outside the model, because parsed events are typed records.
