# ENDF Nexus dashboard — a verified model of its panel logic

ENDF Nexus is a React command dashboard for a defence force. Each panel
(operations, intelligence, wargaming, chief of staff, health, finance,
personnel, the overview) keeps some state. The panel's handlers update that
state from timers, form input and replies of a generative-AI service. This
project models the logic behind those handlers in Dafny and proves what they
promise:

- **The AI service envelope** (`services/aiService.ts`).
  - How a request is assembled.
  - The fixed texts that stand in for a failed call.
  - The Markdown code fences stripped from model output, by the service and by
    the panels' own copies of that clean-up.
  - The `data:` URLs of RFC 2397, section 3: how they are built and read back.
  - The persona the strategy simulation selects.
  - The fallbacks when a reply does not parse as JSON.
- **List and state reducers.**
  - Directive tasks and the insight triage.
  - Mission and medevac manifests that grow by prepending.
  - A dragged node in the link graph.
  - The cyber-terminal history.
  - Bounded feeds: SIGINT keeps 15, notifications 5, the battle log 20, and
    telemetry is a 7-point sliding window.
- **Small simulations and state machines.**
  - The wargame's tactical tick: move, engage, remove the destroyed, log,
    integrity and the end rule.
  - Triage counters clamped at zero.
  - The four-way budget re-allocation.
  - The application shell: sidebar, palette, notifications and navigation.
- **Small classifiers.**
  - The panels' `SafeRender` variants, which differ on purpose or by accident.
  - The metric card's badge and colours.
  - The personnel potential score.

## How the model is built

- **Randomness, time and input are parameters.** `Math.random()` draws, the
  clock, the window width, the geolocation outcome and key events are passed
  into the handlers the model declares.
- **Remote calls are parameters.** A remote call's outcome is a `Transport`
  value: a reply (whose text may be missing) or a thrown error. `JSON.parse`
  is a function parameter `string -> Option<JsValue>`. In the repository as it
  stands `getAiClient` is referenced but never defined, so every call takes
  the failure branch. The lemmas about `AiService.Failed` describe exactly
  that behaviour.
- **Panels are classes.** Their `useState` fields become class fields, and a
  handler becomes a method with `modifies` and a full description of the new
  state.
- **The logic lives in module functions.** A method's new state is tied to
  pure functions of the old state, and the properties are lemmas about those
  functions.
- **Loops stay loops.** Where the source loops (`generateUnits`, the tick's
  `map`/`filter`, `handleSliderChange`'s `forEach`, `decode`'s copy loop), the
  model is a method with a loop, proved against the function.
- **JavaScript semantics are written out.** `trim`, truthiness, `Math.round`
  (`floor(x + 0.5)`), `Math.ceil`, `%`, `split`, `slice`, `startsWith`,
  `includes` and ASCII `toLowerCase`/`toUpperCase` are modelled exactly in
  `JsString`, `JsMath` and `JsValues`.
- **Numbers are exact reals.**

### Where the documented behaviour and the code differ (the model follows the code)

- **Unreachable catch branches.** `generateContent` catches every error and
  returns a fallback text (services/aiService.ts:90-93). So the bio-scan
  handler's catch branch with "Unable to connect to Medical AI Core."
  (views/HealthView.tsx:74) never runs. A failed bio-scan shows
  "System Notice: AI Service Connection Failed." instead. The same holds for:
  - the finance insight's "Analysis unavailable." (views/FinanceView.tsx:34);
  - the terminal's "Error: Command failed execution."
    (views/IntelligenceView.tsx:148).
- **The budget total can drift.** It is kept only while no slider share has to
  be cut off at zero. Moving operations to 100 from the start gives a total of
  110 (`FinanceView.ClampedTotalExample`).
- **The fence clean-ups disagree on a lone closing fence.** The service's
  `cleanJson` strips it (`abc` followed by a fence becomes `abc`). The panels'
  `cleanJsonString` keeps it. The Sigma handler's inline clean-up keeps a bare
  opening fence. Both are modelled as written (`Normalizer.ClosingFenceExample`,
  `Normalizer.SigmaExample`).

## Model

| member | source | states |
|---|---|---|
| Normalizer.CleanJson | services/aiService.ts:22-27 | the empty reply becomes exactly "{}"; any other reply comes back trimmed and no longer than it was |
| Normalizer.CleanJsonUnfenced | services/aiService.ts:22-27 | a reply whose trimmed form has no fence at either end is only trimmed |
| Normalizer.CleanJsonIdentity | services/aiService.ts:22-27 | a non-empty, trimmed reply with no fence at either end comes back unchanged |
| Normalizer.CleanJsonOfUnopened | services/aiService.ts:25 | on trimmed text with no opening backtick only a closing fence is stripped |
| Normalizer.CleanJsonOfJsonOpening | services/aiService.ts:25 | behind a "```json" opening, one closing fence is stripped and the rest trimmed |
| Normalizer.CleanJsonOfEmptyObject | services/aiService.ts:23-26 | the JSON-mode failure text "{}" passes through unchanged |
| Normalizer.UnwrapJsonBlock | services/aiService.ts:25 | a JSON code block with whitespace around a trimmed body yields exactly the body, under the service's and the panels' clean-up alike |
| Normalizer.CleanJsonExample | services/aiService.ts:25 | the block holding `{"a":1}` on its own line cleans to exactly `{"a":1}` |
| Normalizer.CleanJsonString | views/OperationalView.tsx:271-279 | the panels' clean-up always returns trimmed text, and text that does not open with a fence is only trimmed |
| Normalizer.CleanJsonStringOfJsonOpening | views/OperationalView.tsx:273-274 | behind a "```json" opening the panels strip one closing fence and trim |
| Normalizer.CleanJsonStringOfEmpty | views/OperationalView.tsx:271-279 | the panels' clean-up of "" is "" (not "{}") |
| Normalizer.CleanJsonStringOfUnopened | views/OperationalView.tsx:271-279 | trimmed text with no opening backtick is left alone by the panels' clean-up |
| Normalizer.ClosingFenceOnly | views/OperationalView.tsx:273-277 | a lone closing fence is stripped by the service and kept by the panels |
| Normalizer.ClosingFenceExample | services/aiService.ts:25 | `abc` plus a closing fence cleans to `abc` in the service and stays as it is in the panels |
| Normalizer.SigmaClean | views/IntelligenceView.tsx:196 | the Sigma handler's clean-up returns trimmed text no longer than its input |
| Normalizer.SigmaKeepsBareFence | views/IntelligenceView.tsx:196 | a block opened by a bare fence keeps that fence under the Sigma clean-up |
| Normalizer.CleanJsonOfBareBlock | services/aiService.ts:25 | the service removes the bare opening fence that the Sigma clean-up keeps |
| Normalizer.SigmaExample | views/IntelligenceView.tsx:196 | on a bare-fenced `{"a":1}` the Sigma clean-up keeps the opening fence and the service does not |
| Normalizer.SigmaUntrimmedExample | views/IntelligenceView.tsx:196 | leading whitespace hides a JSON fence from the Sigma clean-up |
| AiService.BuildRequest | services/aiService.ts:60-86 | the image part, then the audio part, then the prompt; the system instruction is passed on; JSON mode iff "application/json" |
| AiService.GenerateContent | services/aiService.ts:60-93 | the reply's text ("" when absent), or on failure "{}" in JSON mode and the connection notice otherwise |
| AiService.FailureText | services/aiService.ts:92 | a JSON-mode call fails to "{}", any other to the connection notice |
| AiService.FailureTextsDistinct | services/aiService.ts:92 | the two failure texts differ and neither is blank |
| AiService.ContextInsight | services/aiService.ts:189-192 | a failed insight call yields the connection notice instead of throwing; a reply yields its text, "" when absent |
| AiService.SpeechVoiceName | services/aiService.ts:108 | the voice is 'Fenrir' exactly when 'Fenrir' is asked for, 'Kore' otherwise |
| AiService.FormatDataUrl | services/aiService.ts:141 | the URL starts with "data:" and ends with the payload |
| AiService.DataUrlLayout | services/aiService.ts:141 | a built URL is the scheme, the media type and ";base64", a comma, then the payload; the comma is the first one |
| AiService.UrlData | services/aiService.ts:171 | the payload read back is the second ','-field and holds no ',' |
| AiService.UrlMimeType | services/aiService.ts:172 | the media type read back is the second ':'-field of the first ';'-field and holds no ':' |
| AiService.DataUrlRoundTrip | services/aiService.ts:141-172 | reading back a built URL recovers the media type and the payload whenever the type has no ':' ';' ',' and the payload no ',' |
| AiService.DataUrlCommaTruncates | services/aiService.ts:171 | a ',' inside the payload cuts the read-back payload at that comma |
| AiService.Base64RoundTrip | services/aiService.ts:141-172 | a base64 payload (RFC 4648, section 4 alphabet) always comes back whole |
| AiService.FirstInline | services/aiService.ts:139-143 | none iff no part has inline data; otherwise the first part that has it |
| AiService.GenerateTacticalImage | services/aiService.ts:131-149 | null when the call fails or no part is inline; otherwise present iff some part has inline data, and then the "data:" URL built from the first inline part's type and payload |
| AiService.SlasParts | services/aiService.ts:168-174 | the prompt part, then, for a non-empty image, an inline part read from its URL |
| AiService.GeneratedImageReachesChat | services/aiService.ts:141-173 | an image from the image call, attached to a chat message, reaches the model with its original type and payload |
| AiService.YieldedChunks | services/aiService.ts:178-182 | the stream yields only non-empty chunk texts taken from the stream, no more than it received |
| AiService.YieldedChunksConcat | services/aiService.ts:178-182 | yielding is chunk by chunk: two stretches of stream yield the concatenation of their outputs |
| AiService.SlasStream | services/aiService.ts:151-187 | an interrupted stream yields what arrived and then the uplink notice; a complete one yields exactly what arrived |
| AiService.FieldInsightAudio | services/aiService.ts:343-347 | a recording is sent iff one is given, as its URL's payload with type 'audio/webm' |
| AiService.FieldInsightSendsPayload | services/aiService.ts:343-347 | a recorder's URL sends exactly its payload, whatever type it declared |
| AiService.PersonaFor | services/aiService.ts:201-236 | each of the four archetype names selects its own persona and nothing else does |
| AiService.GenericPersonaOtherwise | services/aiService.ts:234-236 | the generic strategist is chosen iff the mode is none of the four archetypes |
| AiService.PanelModesAreGeneric | services/aiService.ts:234-236 | the wargaming and chief-of-staff modes 'alpha' and 'sigma' get the generic persona |
| AiService.RunStrategySimulation | services/aiService.ts:196-288 | the mode's persona and the cleaned JSON-mode reply, which is trimmed, and "{}" when the call fails |
| AiService.StrategyOutputStable | views/OperationalView.tsx:271-279 | the panels' clean-up leaves an unfenced strategy result unchanged |
| AiService.GenerateDynamicData | services/aiService.ts:399-408 | the parsed, cleaned reply, or the empty array when it does not parse |
| AiService.DynamicDataOnFailure | services/aiService.ts:399-408 | a failed call yields an empty object (its "{}" parses), not the empty array |
| AiService.AnalyzePersonnelRisk | services/aiService.ts:325-336 | the cleaned reply is parsed with no fallback, so a failed call yields whatever "{}" parses to |
| AiService.SearchIntelligenceText | services/aiService.ts:351-386 | the summary, "No intelligence found." when it is empty, the offline notice on failure; never empty |
| AiService.ToUint8 | services/aiService.ts:34 | a stored code is reduced modulo 256 and a byte-sized code is kept |
| AiService.DecodeBinaryString | services/aiService.ts:29-37 | a fresh array as long as the binary string holding each character's code as a byte, equal to the code when every code is below 256 |
| Feeds.Newest | views/IntelligenceView.tsx:226 | the new item first, then the older ones in order, at most the limit |
| Feeds.ReplayIsNewestFirst | views/IntelligenceView.tsx:226 | after pushes one by one the feed is the arrivals newest first, then the old feed, cut at the limit |
| Feeds.NewestLength | App.tsx:112 | a full feed stays at its limit; below it each push adds exactly one entry |
| Units.CountSide | views/WargamingView.tsx:289-290 | counting one side's units never exceeds the list length |
| Units.CountSideConcat | views/WargamingView.tsx:289-290 | the count over two lists is the sum of their counts |
| Units.CountSideSameSides | views/WargamingView.tsx:289-290 | lists with the same sides position by position have the same counts |
| Units.CountSideUniform | views/WargamingView.tsx:289-290 | a one-sided list counts all of its units for that side and none for the other |
| OperationalView.AgentPersona | services/aiService.ts:201-233 | every agent of this panel reaches its own archetype persona, never the generic one |
| OperationalView.ThemeColor | views/OperationalView.tsx:351-358 | each agent gets one of blue, orange, red and purple |
| OperationalView.ThemeColorsDistinct | views/OperationalView.tsx:351-358 | different agents get different colours |
| OperationalView.BarColor | views/OperationalView.tsx:349 | green iff the value is positive, red iff it is not |
| OperationalView.SafeRender | views/OperationalView.tsx:77-85 | strings and numbers verbatim; an object's defined `value`, else its defined `text`, else its JSON; nothing for the rest |
| OperationalView.SafeRenderDefinedZero | views/OperationalView.tsx:80 | an object whose `value` is 0 shows that 0 |
| OperationalView.BriefingSummary | views/OperationalView.tsx:188-189 | a string summary up to 500 characters is kept, a longer one cut to 500 plus "...", at most 503; a non-string becomes the on-screen notice |
| OperationalView.BriefingSummaryPrefix | views/OperationalView.tsx:189 | the spoken summary is a prefix of the string summary apart from the ellipsis |
| OperationalView.BriefingIntro | views/OperationalView.tsx:184 | the intro ends with " Report." and is "System Report." when the archetype is falsy |
| OperationalView.BriefingTitle | views/OperationalView.tsx:185 | a string title, else "Simulation Report" |
| OperationalView.BriefingOutcome | views/OperationalView.tsx:186 | the projected end state only for a string outcome vector, else "" |
| OperationalView.BriefingScriptShape | views/OperationalView.tsx:191 | the script opens with the intro, closes with the summary, and its length is bounded by its pieces |
| OperationalView.BriefingVoice | views/OperationalView.tsx:193 | 'Fenrir' exactly for the Sigma-AI and Theta agents, 'Kore' for the others |
| OperationalView.Briefed | views/OperationalView.tsx:179-217 | a falsy result changes nothing; otherwise the script and voice are requested and the speaking flag follows whether audio came back |
| OperationalView.JitteredUnit | views/OperationalView.tsx:236-261 | one unit of the map tick: a moving unit or an aircraft drifts (position clamped to [5, 95], heading mod 360, speed floored at 0, an aircraft's altitude by up to 25); any other unit is returned unchanged; its facts are in JitterFacts |
| OperationalView.JitterFacts | views/OperationalView.tsx:237-265 | a jittered unit stays within [5, 95], keeps a non-negative speed and a heading within [0, 360); a unit that does not drift is unchanged |
| OperationalView.JitteredUnits | views/OperationalView.tsx:236-265 | the tick maps every unit with its own draws, keeping the length |
| OperationalView.MapTickKeepsRoster | views/OperationalView.tsx:236-265 | the tick keeps ids, names, sides and order; idle ground units stay put; side counts are unchanged |
| OperationalView.MapTickInBounds | views/OperationalView.tsx:258-259 | units inside [5, 95] stay inside whatever the draws |
| OperationalView.InitialDrift | views/OperationalView.tsx:222-237 | of the five starting units exactly the moving armour and the air unit drift |
| OperationalView.SimulationFallbackFields | views/OperationalView.tsx:302-306 | the fallback has exactly the keys summary (the raw reply), title and rationale, with their fixed texts |
| OperationalView.SimulationResult | views/OperationalView.tsx:296-307 | the stored result as the `try`/`catch` picks it; its two cases are in SimulationResultCases |
| OperationalView.SimulationResultCases | views/OperationalView.tsx:296-307 | the cleaned reply parsed when it parses, otherwise the fallback built from the uncleaned reply |
| OperationalView.FallbackBriefing | views/OperationalView.tsx:184-189 | the fallback is truthy and is read as "System Report.", its raw-text title and the raw reply cut at 500 |
| OperationalView.FailedSimulation | views/OperationalView.tsx:289-299 | a failed call stores an empty object, since "{}" parses |
| OperationalView.EmptyResultBriefing | views/OperationalView.tsx:184-189 | an empty result is briefed with the defaults alone |
| OperationalView.MissionId | views/OperationalView.tsx:333 | "OP-" and the decimal digits of floor(draw·10000), below 10000; the upper-casing changes nothing |
| OperationalView.NewMission | views/OperationalView.tsx:331-341 | the form's name, commander and priority, status 'Planning', progress 0, phase 'Init', both dates 'TBD' |
| OperationalView.TwoCreations | views/OperationalView.tsx:342 | two creations add two missions, the later first, with the old list behind them |
| OperationalView.OperationalPanel.TickMap | views/OperationalView.tsx:232-268 | on the live tab the units are jittered; on any other tab nothing moves |
| OperationalView.OperationalPanel.StopAudio | views/OperationalView.tsx:171-177 | playback stops and nothing else in the screen changes |
| OperationalView.OperationalPanel.PlayBriefing | views/OperationalView.tsx:179-217 | the screen becomes the briefed screen for the current agent |
| OperationalView.OperationalPanel.Simulate | views/OperationalView.tsx:281-316 | a blank scenario changes nothing; otherwise the parsed or fallback result is stored, briefed and the simulation ends |
| OperationalView.OperationalPanel.CreateMission | views/OperationalView.tsx:330-347 | the new mission goes first, the old ones follow unchanged, the modal closes and the fields clear |
| WargamingView.UnitCount | views/WargamingView.tsx:204-205 | ceil(force/10)+2, as bounds on the count |
| WargamingView.UnitCountRange | views/WargamingView.tsx:204-205 | slider values 0..100 give 2..12 units, 2 at 0 and 12 at 100 |
| WargamingView.GeneratedUnit | views/WargamingView.tsx:207-232 | a unit of the given side, moving, health and ammo 100, id ALPHA-n or SIGMA-n, placed in its side's band |
| WargamingView.SideUnits | views/WargamingView.tsx:207-232 | one side's units, as many as asked for |
| WargamingView.GenerateUnits | views/WargamingView.tsx:202-234 | the two push loops build exactly the generated roster |
| WargamingView.SideUnitsFacts | views/WargamingView.tsx:207-232 | every generated unit has the side, full health and ammo, status moving and its placement band |
| WargamingView.GeneratedCounts | views/WargamingView.tsx:204-233 | ceil(blue/10)+2 friendly and ceil(red/10)+2 hostile units |
| WargamingView.GeneratedPlacement | views/WargamingView.tsx:213-228 | friendly units start at x in [10, 20), hostile at [80, 90), all at y in [20, 80) |
| WargamingView.GeneratedAlive | views/WargamingView.tsx:209-230 | every generated unit starts alive |
| WargamingView.GeneratedIdsDistinct | views/WargamingView.tsx:209-223 | no two generated units share an id |
| WargamingView.Step | views/WargamingView.tsx:247-254 | an engaged or dead unit does not move; a living friendly moves right and a living hostile left |
| WargamingView.StepMagnitude | views/WargamingView.tsx:249-253 | the step is 2, 1 or 0.5 by category, times 0.6 on mountain terrain |
| WargamingView.FindEnemyFirst | views/WargamingView.tsx:257-261 | none iff no living opposing unit is within 15; otherwise the first such unit |
| WargamingView.Advance | views/WargamingView.tsx:244-273 | only x, status and health change; engaged iff an enemy is near; damage only when engaged |
| WargamingView.AdvanceAll | views/WargamingView.tsx:245-273 | the tick's map keeps the length |
| WargamingView.Survivors | views/WargamingView.tsx:274-280 | the kept units all have health above 0 and come from the list |
| WargamingView.SurvivorsPartition | views/WargamingView.tsx:274-280 | every unit is either kept or logged as neutralized |
| WargamingView.SurvivorsCountSide | views/WargamingView.tsx:274-280 | removal never increases a side's count |
| WargamingView.MoveUnits | views/WargamingView.tsx:245-273 | the loop builds exactly the mapped units and the engagement log |
| WargamingView.RemoveDestroyed | views/WargamingView.tsx:274-280 | the loop keeps exactly the survivors and logs exactly the neutralized |
| WargamingView.TacticalStep | views/WargamingView.tsx:243-281 | the units after the tick are the survivors of the moved units, with both logs |
| WargamingView.AdvanceAllMovement | views/WargamingView.tsx:247-254 | y and side never change and x moves by the step |
| WargamingView.EngagementRule | views/WargamingView.tsx:256-272 | a unit is engaged and damaged iff a living enemy from the previous tick is near, else moving |
| WargamingView.TickNeverAddsUnits | views/WargamingView.tsx:275-290 | a tick never increases a side's count |
| WargamingView.AppendBattleLog | views/WargamingView.tsx:283-285 | no updates leave the log; otherwise it is the last 20 entries of the log followed by the updates |
| WargamingView.BattleLogBounded | views/WargamingView.tsx:284 | the log never exceeds 20 and ends with the newest update |
| WargamingView.IntegrityAsWritten | views/WargamingView.tsx:287-293 | as written: the survivors as a percentage of the current slider's count, within [0, 100] only while the slider is unchanged |
| WargamingView.IntegrityAsWrittenOverflows | views/WargamingView.tsx:287-293 | ten friendly survivors over a slider moved to 0 read as 500 |
| WargamingView.Integrity | views/WargamingView.tsx:292-293 | the survivors as a percentage of the generated count: within [0, 100], 100 at full strength, 0 when none are left |
| WargamingView.PlayPause | views/WargamingView.tsx:768 | RUNNING becomes PAUSED and every other state RUNNING |
| WargamingView.StartLog | views/WargamingView.tsx:315 | five header lines: the fixed opening, the upper-cased terrain, enemy and doctrine, the start marker |
| WargamingView.PanelModesGeneric | services/aiService.ts:234-236 | both of this panel's modes get the generic persona |
| WargamingView.BriefingVoice | views/WargamingView.tsx:154 | 'Fenrir' for the sigma mode, 'Kore' for alpha |
| WargamingView.StrategicFallbackFields | views/WargamingView.tsx:348-353 | the raw reply as summary, the raw-output title, no options and a zero cross-domain matrix |
| WargamingView.StrategicResult | views/WargamingView.tsx:343-354 | the stored result as the `try`/`catch` picks it; its two cases are in StrategicResultCases |
| WargamingView.StrategicResultCases | views/WargamingView.tsx:343-354 | the cleaned reply parsed when it parses, otherwise the fallback built from the raw reply |
| WargamingView.SimulationAfter | views/WargamingView.tsx:333-363 | a blank scenario keeps the stored result and busy flag; any other scenario stores a result and ends the simulation |
| WargamingView.ImpactData | views/WargamingView.tsx:368-374 | empty without a matrix; otherwise five entries for the five matrix fields |
| WargamingView.FallbackImpactZero | views/WargamingView.tsx:368-374 | the fallback's chart has five zero entries |
| WargamingView.SafeRender | views/WargamingView.tsx:66-72 | strings and numbers verbatim, any object as JSON, nothing for the rest |
| WargamingView.BattleOver | views/WargamingView.tsx:295 | the end condition: a side has no unit left or the turn read before the increment is past 60 |
| WargamingView.StartBattle | views/WargamingView.tsx:312-321 | the battle the start handler sets up; StartConsistent states its invariant |
| WargamingView.StartConsistent | views/WargamingView.tsx:312-321 | a started battle is running at turn 0 with full integrity, the header log and a generated roster consistent with its counts |
| WargamingView.TickedOver | views/WargamingView.tsx:238-298 | one tick with the read-outs over given unit counts; TickWellFormed and TickedIntegrity state its facts |
| WargamingView.TickedBattleAsWritten | views/WargamingView.tsx:287-293 | as written: the read-outs divide by the counts the sliders give when the tick runs |
| WargamingView.TickedBattle | views/WargamingView.tsx:287-293 | corrected: the read-outs divide by the counts generated at the start |
| WargamingView.RunTick | views/WargamingView.tsx:238-303 | the interval callback's `map` and `filter` loops and read-outs compute exactly the tick as written, over the sliders as they stand at that tick |
| WargamingView.TickWellFormed | views/WargamingView.tsx:238-303 | over any read-out bases a tick keeps the log within 20, only living units on the map and each side within its generated count |
| WargamingView.TickConsistent | views/WargamingView.tsx:287-293 | the corrected tick keeps the whole invariant, both read-outs within [0, 100] included |
| WargamingView.TickAsWrittenReadouts | views/WargamingView.tsx:287-293 | as written each read-out is IntegrityAsWritten over its slider, and is at most 100 iff the survivors do not outnumber the slider's count |
| WargamingView.TickAsWrittenAtStartSliders | views/WargamingView.tsx:287-293 | with the sliders at the values the battle started from, the tick as written is the corrected tick and keeps the invariant |
| WargamingView.TickedIntegrity | views/WargamingView.tsx:287-298 | for either base: the turn advances by one, a side reads 0 iff it has no unit left, and a running battle completes iff a side is empty or the turn was past 60, staying RUNNING otherwise |
| WargamingView.PercentBounds | views/WargamingView.tsx:292-293 | over a base of at most 12 a count reads 0% iff it is 0, and above 100% iff it exceeds the base |
| WargamingView.SurvivorsOfLiving | views/WargamingView.tsx:274-280 | a list of living units passes the filter whole |
| WargamingView.QuietTick | views/WargamingView.tsx:243-280 | in the two-sided example, 75 map units apart, every unit moves one step and all survive |
| WargamingView.QuietCounts | views/WargamingView.tsx:289-290 | the example starts with three friendly and two hostile units and keeps the three friendly ones |
| WargamingView.TickAsWrittenOverflows | views/WargamingView.tsx:287-293 | a whole tick of the example, with the friendly slider moved from 10 to 0, reads 150 as written and 100 corrected |
| WargamingView.WargamePanel.Start | views/WargamingView.tsx:312-321 | the tactical tab opens on the started battle and the after-action report is cleared |
| WargamingView.WargamePanel.Tick | views/WargamingView.tsx:237-305 | only a running battle on the tactical tab changes; it becomes the tick as written over the current sliders, the tab moves to the report when it ends, and with the sliders at their start values the read-outs stay within [0, 100] |
| WargamingView.WargamePanel.TogglePlay | views/WargamingView.tsx:768 | only the simulation state changes, by play/pause |
| WargamingView.WargamePanel.Stop | views/WargamingView.tsx:771 | the state becomes IDLE and the configuration tab opens |
| WargamingView.WargamePanel.SetForces | views/WargamingView.tsx:695 | the sliders take the new values |
| WargamingView.WargamePanel.StrategicSim | views/WargamingView.tsx:333-363 | the stored result and busy flag become SimulationAfter of the scenario, mode and reply: unchanged when blank, otherwise the parsed or fallback result with the simulation ended |
| ChiefOfStaffView.NewTask | views/ChiefOfStaffView.tsx:50-61 | title 'New Strategic Directive', priority medium, status pending, not completed, id the clock's digits, due date the ISO date before its 'T' |
| ChiefOfStaffView.UpdatedTasks | views/ChiefOfStaffView.tsx:63-65 | same length and order; exactly the tasks with the id are replaced |
| ChiefOfStaffView.UpdatedTasksFacts | views/ChiefOfStaffView.tsx:63-65 | updating twice equals updating once, and an absent id changes nothing |
| ChiefOfStaffView.WithoutTask | views/ChiefOfStaffView.tsx:67-69 | no remaining task has the id, and every remaining one was in the list |
| ChiefOfStaffView.WithoutTaskCount | views/ChiefOfStaffView.tsx:67-69 | exactly the tasks with the id are removed and every other task stays |
| ChiefOfStaffView.WithoutTaskConcat | views/ChiefOfStaffView.tsx:67-69 | deletion works element by element, so relative order is kept |
| ChiefOfStaffView.WithoutTaskIdempotent | views/ChiefOfStaffView.tsx:67-69 | deleting twice equals deleting once |
| ChiefOfStaffView.WithoutAbsent | views/ChiefOfStaffView.tsx:67-69 | deleting an absent id changes nothing |
| ChiefOfStaffView.Toggled | views/ChiefOfStaffView.tsx:72 | completion flips, the status follows it, and nothing else changes |
| ChiefOfStaffView.ToggledTasks | views/ChiefOfStaffView.tsx:71-73 | exactly the tasks with the id are toggled |
| ChiefOfStaffView.ToggleTwice | views/ChiefOfStaffView.tsx:71-73 | toggling twice restores completion and every other field but the status |
| ChiefOfStaffView.ToggleTwiceLosesPending | views/ChiefOfStaffView.tsx:44-48 | a pending task toggled twice comes back 'in-progress', not 'pending' |
| ChiefOfStaffView.ActionedInsights | views/ChiefOfStaffView.tsx:91-93 | exactly the insights with the id become 'Actioned' |
| ChiefOfStaffView.ActionedInsightsFacts | views/ChiefOfStaffView.tsx:91-93 | actioning is idempotent and never un-actions another insight |
| ChiefOfStaffView.ModeName | services/aiService.ts:234-236 | this panel's modes get the generic persona |
| ChiefOfStaffView.AgentAccent | views/ChiefOfStaffView.tsx:142 | blue iff the alpha mode, red for sigma |
| ChiefOfStaffView.StrategyFallbackFields | views/ChiefOfStaffView.tsx:124 | exactly "Analysis Error" and the raw reply as rationale, with no matrix |
| ChiefOfStaffView.StrategyResult | views/ChiefOfStaffView.tsx:119-125 | the stored result as the `try`/`catch` picks it; its two cases are in StrategyResultCases |
| ChiefOfStaffView.StrategyResultCases | views/ChiefOfStaffView.tsx:119-125 | the cleaned reply parsed when it parses, otherwise the fallback built from the raw reply |
| ChiefOfStaffView.ImpactData | views/ChiefOfStaffView.tsx:133-139 | empty without a matrix; otherwise five entries Mil, Dip, Econ, Soc, Leg |
| ChiefOfStaffView.FallbackHasNoImpact | views/ChiefOfStaffView.tsx:124-133 | the fallback and a missing result draw no chart |
| ChiefOfStaffView.SafeRender | views/ChiefOfStaffView.tsx:16-23 | strings and numbers verbatim; an object's defined `value`, else its JSON; nothing for the rest |
| ChiefOfStaffView.SafeRenderIgnoresText | views/ChiefOfStaffView.tsx:16-23 | unlike the operations panel, a `text` field alone shows as JSON |
| ChiefOfStaffView.ChiefOfStaffPanel.AddTask | views/ChiefOfStaffView.tsx:50-61 | the new task goes first and the old ones follow |
| ChiefOfStaffView.ChiefOfStaffPanel.UpdateTask | views/ChiefOfStaffView.tsx:63-65 | the task list becomes the updated list |
| ChiefOfStaffView.ChiefOfStaffPanel.DeleteTask | views/ChiefOfStaffView.tsx:67-69 | the task list loses exactly the tasks with the id |
| ChiefOfStaffView.ChiefOfStaffPanel.ToggleTask | views/ChiefOfStaffView.tsx:71-73 | the task list becomes the toggled list |
| ChiefOfStaffView.ChiefOfStaffPanel.ActionInsight | views/ChiefOfStaffView.tsx:91-93 | the insight list becomes the actioned list |
| ChiefOfStaffView.ChiefOfStaffPanel.GenerateStrategyAsWritten | views/ChiefOfStaffView.tsx:105-129 | as written: the guard reads `sitRep`, which is never set, so the strategy never changes |
| ChiefOfStaffView.ChiefOfStaffPanel.GenerateStrategy | views/ChiefOfStaffView.tsx:105-129 | guarded by the scenario the button checks: blank changes nothing, otherwise the parsed or fallback strategy is stored |
| ChiefOfStaffView.RunEnabled | views/ChiefOfStaffView.tsx:398 | the run button's enablement: not thinking and a non-empty scenario |
| ChiefOfStaffView.EnabledButDead | views/ChiefOfStaffView.tsx:106 | the button is enabled for a non-empty scenario while the guard's `sitRep` is blank |
| IntelligenceView.SafeRender | views/IntelligenceView.tsx:29-36 | strings and numbers verbatim; an object's truthy `value`, else its JSON; nothing for the rest |
| IntelligenceView.SafeRenderFalsyValue | views/IntelligenceView.tsx:31 | an object whose `value` is 0 or "" shows as JSON |
| IntelligenceView.FindNode | views/IntelligenceView.tsx:113 | a found node has the id and is in the graph |
| IntelligenceView.FindNodeFirst | views/IntelligenceView.tsx:113 | none iff no node has the id; otherwise the first such node |
| IntelligenceView.MovedNodes | views/IntelligenceView.tsx:121 | exactly the nodes with the dragged id get the new x and y |
| IntelligenceView.DragKeepsGraph | views/IntelligenceView.tsx:121 | only x and y change, the dragged node takes them, and repeating the move changes nothing more |
| IntelligenceView.IsClear | views/IntelligenceView.tsx:138 | the command whose lower-cased form is "clear"; ClearInAnyCase exercises it |
| IntelligenceView.ClearInAnyCase | views/IntelligenceView.tsx:138 | 'clear' is recognised in any case, but not with a leading space |
| IntelligenceView.NewSignal | views/IntelligenceView.tsx:219-225 | frequency within 100..600 MHz, keys and kind chosen by the thresholds 0.5, 0.7, 0.7 |
| IntelligenceView.SearchQuery | views/IntelligenceView.tsx:155 | a non-empty argument, else the stored query |
| IntelligenceView.MentionsMedia | views/IntelligenceView.tsx:165 | the lower-cased query contains "video", "speech" or "fake"; MediaExamples exercises it |
| IntelligenceView.MediaExamples | views/IntelligenceView.tsx:165 | an upper-case "VIDEO" counts as media; "troop movement" does not |
| IntelligenceView.DeepfakeVerdict | views/IntelligenceView.tsx:167-171 | score within 10..89, verdict by the 0.5 threshold, fixed details |
| IntelligenceView.Searched | views/IntelligenceView.tsx:158-176 | the search text is stored, and a deepfake analysis appears iff the query mentions video, speech or fake |
| IntelligenceView.SigmaResult | views/IntelligenceView.tsx:193-200 | the Sigma result as the inner `try`/`catch` picks it; its two cases are in SigmaResultCases |
| IntelligenceView.SigmaResultCases | views/IntelligenceView.tsx:193-200 | the Sigma-cleaned reply parsed when it parses, otherwise an object whose summary is the raw reply |
| IntelligenceView.SigmaLogNamesTarget | views/IntelligenceView.tsx:182-203 | two lines: the scan line ends with the target, and the completion line is the same for every target |
| IntelligenceView.SigmaOfFailedOutput | views/IntelligenceView.tsx:186-196 | a failed call's "{}" passes both clean-ups unchanged |
| IntelligenceView.SigmaOfFailure | views/IntelligenceView.tsx:186-196 | a failed Sigma simulation reaches the parser as "{}" |
| IntelligenceView.SigmaRun | views/IntelligenceView.tsx:185-203 | the screen a completed run leaves; its facts are in SigmaRunFacts |
| IntelligenceView.SigmaRunFacts | views/IntelligenceView.tsx:179-208 | the two log lines, not running, the parsed or fallback result; an empty object on failure |
| IntelligenceView.IntelligencePanel.MouseDown | views/IntelligenceView.tsx:110-114 | the dragged id is set and the selection is the node found for it |
| IntelligenceView.IntelligencePanel.MouseMove | views/IntelligenceView.tsx:116-123 | while dragging, the nodes move as the pointer minus the canvas origin; otherwise nothing changes |
| IntelligenceView.IntelligencePanel.MouseUp | views/IntelligenceView.tsx:125-127 | dragging ends |
| IntelligenceView.TerminalAfter | views/IntelligenceView.tsx:129-152 | a blank input or another key changes nothing; Enter clears the input and the busy flag; 'clear' leaves exactly "Console cleared."; any other command appends its prompt line and the reply |
| IntelligenceView.TerminalAppends | views/IntelligenceView.tsx:134-147 | a command other than 'clear' grows the history by two lines, keeps the old history as its prefix and adds the prompt line first |
| IntelligenceView.IntelligencePanel.TerminalKey | views/IntelligenceView.tsx:129-152 | the history, input and busy flag become TerminalAfter of the key, the old terminal and the reply |
| IntelligenceView.IntelligencePanel.SigintTick | views/IntelligenceView.tsx:216-230 | on the SIGINT tab the new signal goes first and the feed keeps 15; elsewhere nothing changes |
| IntelligenceView.IntelligencePanel.OsintSearch | views/IntelligenceView.tsx:154-177 | a blank query changes nothing; otherwise the screen becomes the searched screen |
| IntelligenceView.IntelligencePanel.RunSigma | views/IntelligenceView.tsx:179-208 | an empty target changes nothing; otherwise the Sigma screen becomes the run's screen |
| HealthView.Delta | views/HealthView.tsx:59-63 | up or down past the threshold by the direction draw, else no change |
| HealthView.ClampAtZero | views/HealthView.tsx:60-62 | `Math.max(0, n)`: never below zero nor below n, and n itself when n is not negative |
| HealthView.TriageTick | views/HealthView.tsx:57-64 | each counter moves by its step and is clamped at zero |
| HealthView.TriageSteps | views/HealthView.tsx:59-63 | critical moves by −1..+1, serious by −1..+2, minor by −2..+3, never below 0 |
| HealthView.TriageAfter | views/HealthView.tsx:55-66 | any number of ticks keeps every counter non-negative |
| HealthView.TriageDrift | views/HealthView.tsx:59-63 | after n ticks the counters grow by at most n, 2n and 3n |
| HealthView.DispatchId | views/HealthView.tsx:82 | "MED-" and four digits with value floor(draw·9000)+1000, within 1000..9999 |
| HealthView.NewMedevac | views/HealthView.tsx:81-88 | the selected place and transport, 'Dispatched', one patient, 'Calculating...' |
| HealthView.MedevacMetric | views/HealthView.tsx:143 | the card shows the decimal digits of the mission count |
| HealthView.OverCapacity | views/HealthView.tsx:216 | flagged iff occupied exceeds 90% of the beds; with no beds, iff anyone is in them |
| HealthView.OccupancyPercent | views/HealthView.tsx:216 | the nearest whole percentage, within 0..100 when occupancy is within the beds |
| HealthView.FacilityBoard | views/HealthView.tsx:44-48 | the three hospitals show 86%, 65% and 25%, none flagged |
| HealthView.HealthPanel.TickTriage | views/HealthView.tsx:55-66 | the counters become the ticked counters and stay non-negative |
| HealthView.HealthPanel.Dispatch | views/HealthView.tsx:79-90 | the new mission goes first, the old ones follow unchanged, the metric grows by one, the modal closes |
| HealthView.HealthPanel.RunBioAnalysis | views/HealthView.tsx:68-77 | the insight is the service's answer (the connection notice on failure) and loading ends |
| FinanceView.Allocations.With | views/FinanceView.tsx:49-50 | the key takes the value and every other key keeps its share |
| FinanceView.AllocationsByKey | views/FinanceView.tsx:18 | two records agreeing on every key are equal |
| FinanceView.RemainingKeys | views/FinanceView.tsx:46 | the three other keys, each once |
| FinanceView.Reallocation | views/FinanceView.tsx:44-50 | the moved key takes the value; each other key becomes max(0, old − change/3) |
| FinanceView.ReallocationByKey | views/FinanceView.tsx:46-50 | any record with the moved value and every other key reduced by a third of the change, clamped at 0, is the re-allocation |
| FinanceView.Reallocate | views/FinanceView.tsx:45-50 | the copy and the `forEach` loop build exactly the re-allocation |
| FinanceView.ReallocationNonNegative | views/FinanceView.tsx:43-50 | a non-negative slider value leaves every share at zero or above |
| FinanceView.ReallocationKeepsTotal | views/FinanceView.tsx:45-50 | when no share is cut off at zero the total is kept |
| FinanceView.ClampedTotalExample | views/FinanceView.tsx:45-50 | the initial total is 100, and operations moved to 100 gives 110 |
| FinanceView.ReadyScore | views/FinanceView.tsx:53 | for non-negative shares the weighted score lies between a tenth and a half of the total budget |
| FinanceView.MonthLabel | views/FinanceView.tsx:56 | an "M" label with a number |
| FinanceView.ProjectedReadiness | views/FinanceView.tsx:54-58 | six months, each min(100, base + ready/10 · 0.2·i) with bases 82..87 |
| FinanceView.ProjectionShape | views/FinanceView.tsx:54-58 | the first month is 82, no score exceeds 100, and scores never fall for non-negative readiness |
| FinanceView.MonthLabels | views/FinanceView.tsx:56 | the labels run M1 to M6 |
| FinanceView.FinancePanel.SliderChange | views/FinanceView.tsx:42-62 | the shares become the re-allocation and the projection is recomputed from them |
| FinanceView.FinancePanel.RefreshInsight | views/FinanceView.tsx:27-40 | the insight becomes the service's answer |
| DashboardOverview.TimeLabel | views/DashboardOverview.tsx:40-41 | for a valid clock: five characters, ':' at index 2, two padded digits on each side |
| DashboardOverview.TimeLabelExamples | views/DashboardOverview.tsx:41 | 9:05 reads "09:05" and 23:59 "23:59" |
| DashboardOverview.NextPoint | views/DashboardOverview.tsx:37-43 | the new point is stamped and clamped to readiness 70..100 and threats 0..50 |
| DashboardOverview.Slide | views/DashboardOverview.tsx:43 | same length, the others shift left unchanged, the new point last |
| DashboardOverview.TelemetryTick | views/DashboardOverview.tsx:34-47 | the window drops its oldest point and ends with the next point |
| DashboardOverview.TickKeepsRanges | views/DashboardOverview.tsx:37-38 | a window in range stays in range |
| DashboardOverview.TicksAfter | views/DashboardOverview.tsx:43 | ticks keep the window length |
| DashboardOverview.TicksAfterIsSuffix | views/DashboardOverview.tsx:43 | after k ≤ 7 ticks the window is the last 7−k old points followed by the k new ones |
| DashboardOverview.IsForecastError | views/DashboardOverview.tsx:79 | the written test: a forecast containing "offline" or "unavailable"; FailedForecastNotFlagged shows it misses the failure notice |
| DashboardOverview.IsForecastFailure | views/DashboardOverview.tsx:79 | the corrected test: the written one or the service's failure notice; ForecastFailureFlagged states its meaning |
| DashboardOverview.FailedForecastNotFlagged | views/DashboardOverview.tsx:79 | the service's failure notice is not recognised as an error |
| DashboardOverview.ForecastFailureFlagged | views/DashboardOverview.tsx:79 | the corrected test flags every failed forecast, keeps what the written test flags, and leaves other answers alone |
| DashboardOverview.Forecast | services/aiService.ts:410-412 | the forecast text, the connection notice on failure |
| DashboardOverview.ForecastShown | views/DashboardOverview.tsx:346-361 | as written: scanning iff loading; the offline box iff not loading and the written test flags the forecast; otherwise the forecast text |
| DashboardOverview.ForecastShownCorrected | views/DashboardOverview.tsx:346-361 | corrected: the same box, with the offline box iff not loading and the corrected test flags the forecast |
| DashboardOverview.FailedForecastShown | views/DashboardOverview.tsx:346-361 | a failed forecast call shows its notice text as written and the offline box corrected; for every other forecast the two boxes agree |
| DashboardOverview.CoordsText | views/DashboardOverview.tsx:54-69 | "GPS N/A" with no geolocation, "GPS SIGNAL LOST" on error, otherwise the latitude first and "°E" last |
| DashboardOverview.DashboardPanel.TickTelemetry | views/DashboardOverview.tsx:32-48 | the window becomes the ticked window and stays seven points in range |
| DashboardOverview.DashboardPanel.RefreshForecast | views/DashboardOverview.tsx:72-77 | the forecast is the service's answer |
| DashboardOverview.DashboardPanel.Locate | views/DashboardOverview.tsx:54-69 | the location line is the text for the outcome |
| HRView.SafeRender | views/HRView.tsx:65-69 | strings and numbers unchanged iff they are such; JSON iff an object; '' for the rest |
| HRView.ProfileScores | views/HRView.tsx:50-57 | a profile built from scored subjects is numeric, sums to the scores' sum and is on scale when every score is |
| HRView.SumABounds | views/HRView.tsx:366 | on the 0..150 scale the sum lies within 0..150·n |
| HRView.MeanA | views/HRView.tsx:366 | the mean stays on the 0..150 scale |
| HRView.PotentialScoreAsWritten | views/HRView.tsx:366 | as written: the score lies within 0..1000, not 0..100 |
| HRView.PotentialScoreOverflows | views/HRView.tsx:366 | the initial profile (sum 553) scores 614 against a "/100" label |
| HRView.PotentialScore | views/HRView.tsx:366 | corrected: the mean as a share of 150, in percent, within 0..100 |
| HRView.PotentialScoreCorrected | views/HRView.tsx:366 | the corrected score is 61 on the initial profile and never exceeds 100 |
| HRView.Evaluated | views/HRView.tsx:111-113 | a non-empty array replaces the profile, anything else keeps it |
| HRView.EvaluationFailuresKeepProfile | views/HRView.tsx:109-113 | a failed call and a parse failure both keep the profile |
| HRView.KeyDriver | views/HRView.tsx:281 | the last forecast month's risk factor when the forecast is a non-empty array, otherwise undefined (optional chaining included) |
| HRView.KeyDriverOfLastMonth | views/HRView.tsx:281 | a forecast whose last month names a string risk factor yields that factor, whatever precedes it; no forecast or an empty one yields undefined |
| HRView.HRPanel.EvaluateCandidate | views/HRView.tsx:103-115 | the radar becomes the evaluated profile and stays non-empty |
| HRView.HRPanel.RiskAnalysis | views/HRView.tsx:117-130 | a parsed reply becomes the risk data; a parse failure leaves it and the loading flag set |
| HRView.HRPanel.Deploy | views/HRView.tsx:95-101 | deployment starts |
| HRView.HRPanel.DeployDone | views/HRView.tsx:97-100 | deployment ends |
| AppShell.RenderView | App.tsx:149-190 | the overview and every unlisted view render the dashboard; each listed view its own panel; DEFCON control iff a leadership view, mode control iff settings |
| AppShell.BackButtonShown | App.tsx:231 | the header's back button shows on every view but the overview |
| AppShell.ModeClasses | App.tsx:127-133 | '' iff standard; the night-vision and tactical-red filters otherwise |
| AppShell.ModeClassesDistinct | App.tsx:129-130 | the two filters differ |
| AppShell.IsPaletteShortcut | App.tsx:83 | Cmd or Ctrl held with a lower-case 'k' |
| AppShell.PaletteAfter | App.tsx:83-85 | the shortcut toggles the palette and any other key leaves it |
| AppShell.PaletteShortcutTwice | App.tsx:83 | two presses restore the palette; 'K' or 'k' without a modifier do nothing |
| AppShell.Alerts | App.tsx:104-110 | three translated alerts, then the two fixed ones |
| AppShell.PickAlert | App.tsx:111 | the alert at floor(draw·5), always one of the list |
| AppShell.TickerText | App.tsx:246 | the alerts joined by bullets once there are any, otherwise the idle line |
| AppShell.JoinWith | App.tsx:246 | one alert is shown alone, and the joined text always starts with the newest alert |
| AppShell.FindLanguage | App.tsx:260 | none iff no language has the code; otherwise one with that code |
| AppShell.LanguageLabel | App.tsx:260 | the first word of the language's name, "EN" for an unknown code |
| AppShell.LanguageLabels | App.tsx:260 | Amharic shows "Amharic" and an unknown code "EN" |
| AppShell.Shell.Login | App.tsx:193-195 | the user is authenticated |
| AppShell.Shell.Resize | App.tsx:65-71 | the sidebar is open iff the window is at least 768 wide |
| AppShell.Shell.KeyDown | App.tsx:82-86 | the palette follows the shortcut rule |
| AppShell.Shell.NotificationTick | App.tsx:99-116 | only while logged in and on a draw above 0.7 the picked alert goes first and five are kept; otherwise nothing changes |
| AppShell.Shell.Logout | App.tsx:118-121 | logged out, with the overview selected |
| AppShell.Shell.GoBackToDashboard | App.tsx:123-125 | the overview, where the back button is hidden |
| AppShell.Shell.Navigate | App.tsx:143-148 | the view is set; below 768 the sidebar closes, otherwise it is left |
| AppShell.Shell.PaletteAction | App.tsx:358-362 | logout logs out; inbox and feedback open their panels; nothing else changes |
| AppShell.Shell.SelectLanguage | App.tsx:268 | the language is set and the menu closes |
| AppShell.Shell.OpenDataTerminal | App.tsx:94-95 | the data terminal opens |
| AppShell.Shell.ToggleDataTerminal | App.tsx:367 | the data terminal flips |
| MetricCard.ColorOf | components/MetricCard.tsx:11-56 | each of the five names selects its own scheme, and any other name the default |
| MetricCard.ColorConfigFor | components/MetricCard.tsx:11-56 | every class is the scheme's hue at its fixed shade; the default starts at 700 and dims the icon to 300 |
| MetricCard.CardColors | components/MetricCard.tsx:11-56 | a missing colour prop gets the default scheme |
| MetricCard.BordersDistinct | components/MetricCard.tsx:11-56 | no two schemes share a border class |
| MetricCard.ChangeDisplay | components/MetricCard.tsx:60-65 | no badge iff no change; up iff positive; down iff negative with a positive magnitude; flat ("0%") iff zero |
| MetricCard.ChangeDisplayRoundTrip | components/MetricCard.tsx:60-65 | the badge's arrow and magnitude give back the change |
| MetricCard.ClickableClasses | components/MetricCard.tsx:70 | the hover classes appear iff the card has a click handler |

## Findings

Where a panel's handler or its rendering is modelled, it follows the code as
written (the wargame tick reads the live sliders, the forecast box uses the
written test). The corrected member of each row is the evidently intended
definition, with its property proved beside the as-written one.

| source | as written | input that shows it | evidently intended | confidence | as-written member | corrected member |
|---|---|---|---|---|---|---|
| views/ChiefOfStaffView.tsx:106 | the strategy guard tests `sitRep`, which starts as '' and is never assigned, so the handler always returns early | any scenario text, e.g. "Secure the northern corridor", with the enabled button pressed | the guard tests `scenarioInput`, the text the button's enablement checks (line 398) | not executed | ChiefOfStaffView.ChiefOfStaffPanel.GenerateStrategyAsWritten, ChiefOfStaffView.EnabledButDead | ChiefOfStaffView.ChiefOfStaffPanel.GenerateStrategy |
| views/HRView.tsx:366 | the potential score is mean/1.5·10, shown as "/100" | the initial profile (sum 553 over six entries) scores 614 | mean/1.5, the mean as a percentage of the 150-point scale (61 here) | not executed | HRView.PotentialScoreAsWritten, HRView.PotentialScoreOverflows | HRView.PotentialScore, HRView.PotentialScoreCorrected |
| views/DashboardOverview.tsx:79 | the offline test looks for "offline" or "unavailable", which the service's own failure text lacks | a failed forecast call, whose text is "System Notice: AI Service Connection Failed." | the offline box also shows for the service's failure notice | not executed | DashboardOverview.ForecastShown, DashboardOverview.FailedForecastShown | DashboardOverview.ForecastShownCorrected, DashboardOverview.ForecastFailureFlagged |
| views/WargamingView.tsx:287-293 | integrity divides by the force slider's current count, and the slider can be moved during a run | start with 80 friendly (10 units), move the slider to 0 (2 units): ten survivors read 500%; on a whole tick, three friendly survivors of a force of 10 read 150% once the slider is at 0 | divide by the number of units generated at the start | not executed | WargamingView.RunTick, WargamingView.TickAsWrittenOverflows | WargamingView.TickedBattle, WargamingView.TickConsistent |

## Left out

- **Remote calls.** The bodies of `generateContent`, `generateSpeech`,
  `generateTacticalImage`, `searchIntelligence` and `streamSLASResponse` call
  an SDK that the file never defines or imports. Their outcomes are
  `Transport` (or response-part) parameters. The grounding sources of
  `searchIntelligence` are not modelled.
- **Foreign libraries and network I/O.** This covers `queryDocument` (the
  LangChain PDF search) and the Ollama fetch of the training view.
- **Audio.** `decodeAudioData` converts samples to floating point, and audio
  playback is a browser API. Only `decode`'s byte-copy loop is modelled; its
  `atob` base64 step is a parameter.
- **JSON and `String()`.**
  - `JSON.parse` is a function parameter.
  - `JSON.stringify` and `String(...)` are tags of the `Rendered` outcome, or
    a `convert` parameter in the briefing script.
- **Prompt texts and persona texts.** They are not spelled out, except the
  generic instruction; a `Persona` tag stands for each archetype.
- **Floating-point detail.**
  - `toFixed` rounding is not modelled: telemetry values kept to one decimal,
    coordinates to four, SIGINT frequencies to one.
  - `Math.sqrt` is not modelled: the wargame engagement test is `Near`, the
    squared distance below 225.
  - NaN is not modelled: a NaN change on the metric card would show "0%".
- **Strings.** They are sequences of Unicode scalar values, not UTF-16 code
  units. Case mapping is ASCII only.
- **Rendering.** JSX, charts and the remaining Tailwind classes are not
  modelled, including the metric card's decorative glow class (line 72). The
  settings, foreign-relations, info-ops and training views, the sidebar and
  the error boundary display only.
- **Concurrency.** Races between overlapping requests of one panel are not
  modelled. Neither are the intermediate loading states set before an
  `await`: each handler is modelled from its start to its final state.
- **Timers.** Timers and debounces are callers of the tick methods. They are
  not part of the model: the HR deployment timeout, the finance debounce, the
  OSINT two-second delay, and the notification and map intervals.
- **The order of random draws.** The model takes each draw as a named
  parameter. Which `Math.random()` call produces which value is not modelled.
- **Grouped state.** Hook state that handlers set together is grouped into
  one field: the wargame's `Battle`, the operations `SimScreen`, the
  chief-of-staff `StrategyScreen` and the intelligence `OsintScreen` and
  `SigmaScreen`. Separate hooks updated in separate renders are not
  distinguished.
- **Translations.** `t(...)` texts are parameters (the three translated alerts
  and the ticker's translated flag). The language code lives in a context
  provider in the source and is a shell field here.
- **Files outside the model.** `types.ts` and `components/TacticalMap.tsx`
  (which declare the task, mission and unit records) are not part of this
  model. The records carry the fields the panels use.
- HRView.PotentialScoreAsWritten: assumes every `A` is a number. A non-numeric
  `A` from a generated profile makes JavaScript concatenate strings, which is
  not modelled.
- AiService.FormatDataUrl: states only the scheme prefix and the payload
  suffix. The full layout is stated by `AiService.DataUrlLayout` and used by
  the round-trip lemmas.
- AiService.UrlMimeType: states only that the result holds no ':'. Its value
  on built URLs is given by `AiService.DataUrlRoundTrip`.
- OperationalView.BriefingVoice: states which agents get 'Fenrir' and that
  the other two get 'Kore'.
- ChiefOfStaffView.AgentAccent: states blue iff alpha and red for sigma. The
  mode type has no other value.
- WargamingView.UnitCount: states the ceiling as a pair of bounds. It models
  `Math.ceil` on the slider's integer value.
- HealthView.OccupancyPercent: requires at least one bed, because the source
  divides by the bed count. All listed facilities have beds.
