/**
 * The operations panel: its render helper for AI text, the spoken briefing
 * assembled from a simulation result, the live-map tick that jitters moving
 * units, the agent simulation handler with its parse fallback, and the
 * mission list that grows by prepending.
 *
 * `Math.random` draws, the remote calls, `JSON.parse` and `String(...)` are
 * parameters; the timer that drives the map tick is a caller of `TickMap`.
 */
module OperationalView {
  import opened Wrappers
  import opened JsString
  import opened JsMath
  import opened JsValues
  import opened Units
  import opened Normalizer
  import AiService

  datatype Tab = Live | Missions | Readiness | Structure

  /** The four agent archetypes the panel offers. */
  datatype Agent = AlphaPrime | SigmaHuman | SigmaAi | Theta {
    /** The mode string handed to the strategy simulation. */
    function Name(): string {
      match this
      case AlphaPrime => "alpha_prime"
      case SigmaHuman => "sigma_human"
      case SigmaAi => "sigma_ai"
      case Theta => "theta"
    }
  }

  /** Each agent reaches its own archetype persona in the service, never the generic one. */
  lemma AgentPersona(a: Agent)
    ensures AiService.PersonaFor(a.Name()) != AiService.GenericStrategist
    ensures a == AlphaPrime <==> AiService.PersonaFor(a.Name()) == AiService.AlphaPrime
    ensures a == SigmaHuman <==> AiService.PersonaFor(a.Name()) == AiService.SigmaHuman
    ensures a == SigmaAi <==> AiService.PersonaFor(a.Name()) == AiService.SigmaAi
    ensures a == Theta <==> AiService.PersonaFor(a.Name()) == AiService.Theta
  {
  }

  /** The accent colour of the simulation screen for each agent. */
  function ThemeColor(a: Agent): (r: string)
    ensures r in ["blue", "orange", "red", "purple"]
  {
    match a
    case AlphaPrime => "blue"
    case SigmaHuman => "orange"
    case SigmaAi => "red"
    case Theta => "purple"
  }

  /** Different agents get different colours. */
  lemma ThemeColorsDistinct(a: Agent, b: Agent)
    requires a != b
    ensures ThemeColor(a) != ThemeColor(b)
  {
  }

  /** The bar colour of the readiness chart: green for a positive value, red otherwise. */
  function BarColor(val: real): (r: string)
    ensures r == "#10b981" <==> val > 0.0
    ensures r == "#ef4444" <==> val <= 0.0
  {
    if val > 0.0 then "#10b981" else "#ef4444"
  }

  // ---------------------------------------------------------------- rendering AI text

  /**
   * `SafeRender`: strings and numbers as they are; an object by its `value`
   * field when that is defined, else its `text` field when defined, else its
   * JSON text; anything else renders nothing.
   */
  function SafeRender(content: JsValue): (r: Rendered)
    ensures (content.Str? || content.Num?) <==> r == Verbatim(content)
    ensures r == Nothing <==> !(content.Str? || content.Num? || IsObject(content))
    ensures IsObject(content) && Get(content, "value") != Undefined ==> r == StringOf(Get(content, "value"))
    ensures IsObject(content) && Get(content, "value") == Undefined && Get(content, "text") != Undefined ==>
      r == StringOf(Get(content, "text"))
    ensures r.JsonOf? <==> IsObject(content) && Get(content, "value") == Undefined && Get(content, "text") == Undefined
  {
    if content.Str? || content.Num? then Verbatim(content)
    else if IsObject(content) then
      if Get(content, "value") != Undefined then StringOf(Get(content, "value"))
      else if Get(content, "text") != Undefined then StringOf(Get(content, "text"))
      else JsonOf(content)
    else Nothing
  }

  /** An object whose `value` is falsy but defined, such as 0, still shows that value here. */
  lemma SafeRenderDefinedZero(other: map<string, JsValue>)
    ensures SafeRender(Obj(other["value" := Num(0.0)])) == StringOf(Num(0.0))
  {
  }

  // ---------------------------------------------------------------- the spoken briefing

  const SummaryLimit: nat := 500

  /**
   * The summary read aloud: a string summary, cut to its first 500 characters
   * followed by "..." when longer; a fixed sentence for any other value.
   */
  function BriefingSummary(summary: JsValue): (r: string)
    ensures |r| <= SummaryLimit + 3
    ensures summary.Str? && |summary.s| <= SummaryLimit ==> r == summary.s
    ensures summary.Str? && |summary.s| > SummaryLimit ==>
      StartsWith(r, summary.s[..SummaryLimit]) && EndsWith(r, "...") && |r| == SummaryLimit + 3
    ensures !summary.Str? ==> r == "Analysis data available on screen."
  {
    if summary.Str? then
      if |summary.s| > SummaryLimit then summary.s[..SummaryLimit] + "..." else summary.s
    else "Analysis data available on screen."
  }

  /** The summary spoken is always a prefix of the string summary, apart from the ellipsis. */
  lemma BriefingSummaryPrefix(s: string)
    ensures StartsWith(s, StripSuffix(BriefingSummary(Str(s)), if |s| > SummaryLimit then "..." else ""))
  {
    var r := BriefingSummary(Str(s));
    if |s| > SummaryLimit {
      assert r == s[..SummaryLimit] + "...";
      StripSuffixOfConcat(s[..SummaryLimit], "...");
    } else {
      assert r + "" == r;
      assert EndsWith(r, "");
    }
  }

  /**
   * A template-literal interpolation: a string is inserted as it is, any other
   * value through `String(...)`, which `convert` stands for.
   */
  function Interpolate(v: JsValue, convert: JsValue -> string): (r: string)
    ensures v.Str? ==> r == v.s
  {
    if v.Str? then v.s else convert(v)
  }

  /** The opening of the script: the report's archetype (when truthy) or 'System', then " Report.". */
  function BriefingIntro(result: JsValue, convert: JsValue -> string): (r: string)
    ensures EndsWith(r, " Report.")
    ensures !Truthy(Get(Get(result, "agent_specific_data"), "archetype")) ==> r == "System Report."
  {
    var archetype := Get(Get(result, "agent_specific_data"), "archetype");
    (if Truthy(archetype) then Interpolate(archetype, convert) else "System") + " Report."
  }

  /** The title read aloud: a string title, else "Simulation Report". */
  function BriefingTitle(result: JsValue): (r: string)
    ensures Get(result, "title").Str? ==> r == Get(result, "title").s
    ensures !Get(result, "title").Str? ==> r == "Simulation Report"
  {
    var title := Get(result, "title");
    if title.Str? then title.s else "Simulation Report"
  }

  /** The projected end state, only when the outcome vector is a string. */
  function BriefingOutcome(result: JsValue): (r: string)
    ensures Get(result, "outcome_vector").Str? ==> r == "Projected End State: " + Get(result, "outcome_vector").s + "."
    ensures !Get(result, "outcome_vector").Str? ==> r == ""
  {
    var outcome := Get(result, "outcome_vector");
    if outcome.Str? then "Projected End State: " + outcome.s + "." else ""
  }

  /** The script sent to speech synthesis: intro, title, outcome and summary, separated by spaces. */
  function BriefingScript(result: JsValue, convert: JsValue -> string): string {
    BriefingIntro(result, convert) + " " + BriefingTitle(result) + ". " + BriefingOutcome(result) + " " +
    BriefingSummary(Get(result, "summary"))
  }

  /** The script opens with the intro and closes with the (possibly cut) summary, so its length stays bounded. */
  lemma BriefingScriptShape(result: JsValue, convert: JsValue -> string)
    ensures StartsWith(BriefingScript(result, convert), BriefingIntro(result, convert))
    ensures EndsWith(BriefingScript(result, convert), " " + BriefingSummary(Get(result, "summary")))
    ensures |BriefingScript(result, convert)| <=
      |BriefingIntro(result, convert)| + |BriefingTitle(result)| + |BriefingOutcome(result)| + SummaryLimit + 7
  {
    ScriptLayout(BriefingIntro(result, convert), BriefingTitle(result), BriefingOutcome(result),
                 BriefingSummary(Get(result, "summary")));
  }

  lemma ScriptLayout(intro: string, title: string, outcome: string, summary: string)
    ensures var script := intro + " " + title + ". " + outcome + " " + summary;
      StartsWith(script, intro) && EndsWith(script, " " + summary) &&
      |script| == |intro| + |title| + |outcome| + |summary| + 4
  {
    var middle := " " + title + ". " + outcome;
    assert intro + " " + title + ". " + outcome + " " + summary == intro + middle + (" " + summary);
    ConcatEnds(intro, middle, " " + summary);
  }

  lemma ConcatEnds(a: string, b: string, c: string)
    ensures StartsWith(a + b + c, a) && EndsWith(a + b + c, c)
  {
    assert (a + b + c)[..|a|] == a;
    assert (a + b + c)[|a + b + c| - |c|..] == c;
  }

  /** The voice of the briefing: 'Fenrir' exactly for the Sigma-AI and Theta agents, 'Kore' for the others. */
  function BriefingVoice(a: Agent): (r: string)
    ensures r == "Fenrir" <==> a == SigmaAi || a == Theta
    ensures a == AlphaPrime || a == SigmaHuman ==> r == "Kore"
  {
    if a == SigmaAi || a == Theta then "Fenrir" else "Kore"
  }

  /** A speech request: the script and the voice it is read in. */
  datatype Speech = Speech(script: string, voice: string)

  /**
   * The simulation screen's state hooks: the stored result, the busy flag,
   * whether a briefing is playing, and the last speech request sent.
   */
  datatype SimScreen = SimScreen(result: JsValue, simulating: bool, speaking: bool, speech: Option<Speech>)

  /**
   * `playBriefing` on a screen: a falsy result is ignored; otherwise the
   * script goes out in the agent's voice and the screen is speaking exactly
   * when synthesis returned audio.
   */
  function Briefed(s: SimScreen, result: JsValue, convert: JsValue -> string, agent: Agent, audio: bool): (r: SimScreen)
    ensures !Truthy(result) ==> r == s
    ensures Truthy(result) ==> r.result == s.result && r.simulating == s.simulating
    ensures Truthy(result) ==> r.speech == Some(Speech(BriefingScript(result, convert), BriefingVoice(agent)))
    ensures Truthy(result) ==> r.speaking == audio
  {
    if Truthy(result) then s.(speaking := audio, speech := Some(Speech(BriefingScript(result, convert), BriefingVoice(agent))))
    else s
  }

  // ---------------------------------------------------------------- live-map tick

  /** The five `Math.random()` draws one unit may consume in a tick. */
  datatype Jitter = Jitter(dx: real, dy: real, dHeading: real, dSpeed: real, dAltitude: real)

  predicate IsDraw(r: real) {
    0.0 <= r < 1.0
  }

  predicate IsJitter(j: Jitter) {
    IsDraw(j.dx) && IsDraw(j.dy) && IsDraw(j.dHeading) && IsDraw(j.dSpeed) && IsDraw(j.dAltitude)
  }

  /** Only units that are moving, and every air unit, are jittered in a tick. */
  predicate Drifts(u: Unit) {
    u.status == Moving || u.category == Air
  }

  /**
   * One unit's tick: a drifting unit moves by up to a quarter of a cell on each
   * axis, kept within [5, 95]; its heading turns by up to 2.5 degrees modulo
   * 360; its speed changes by up to 2.5 and stays non-negative; an aircraft's
   * altitude changes by up to 25. Every other unit is returned as it is.
   */
  function JitteredUnit(u: Unit, j: Jitter): Unit {
    if Drifts(u) then
      u.(x := Clamp(5.0, 95.0, u.x + (j.dx - 0.5) * 0.5),
         y := Clamp(5.0, 95.0, u.y + (j.dy - 0.5) * 0.5),
         heading := if u.heading.Some? then Some(Rem(u.heading.value + (j.dHeading - 0.5) * 5.0 + 360.0, 360.0)) else None,
         speed := if u.speed.Some? then Some(Max(0.0, u.speed.value + (j.dSpeed - 0.5) * 5.0)) else None,
         altitude := if u.category == Air && u.altitude.Some? then Some(u.altitude.value + (j.dAltitude - 0.5) * 50.0)
                     else u.altitude)
    else u
  }

  /** What one tick does to one unit. */
  lemma JitterFacts(u: Unit, j: Jitter)
    requires IsJitter(j)
    ensures var r := JitteredUnit(u, j);
      && (!Drifts(u) ==> r == u)
      && r.id == u.id && r.name == u.name && r.side == u.side && r.category == u.category
      && r.status == u.status && r.health == u.health && r.ammo == u.ammo
      && r.speed.Some? == u.speed.Some? && r.heading.Some? == u.heading.Some? && r.altitude.Some? == u.altitude.Some?
      && (Drifts(u) ==> 5.0 <= r.x <= 95.0 && 5.0 <= r.y <= 95.0)
      && (Drifts(u) && 5.0 <= u.x <= 95.0 ==> -0.25 <= r.x - u.x <= 0.25)
      && (Drifts(u) && 5.0 <= u.y <= 95.0 ==> -0.25 <= r.y - u.y <= 0.25)
      && (Drifts(u) && u.speed.Some? ==> r.speed.value >= 0.0)
      && (u.heading.Some? && 0.0 <= u.heading.value < 360.0 ==> 0.0 <= r.heading.value < 360.0)
      && (u.category != Air ==> r.altitude == u.altitude)
  {
    if Drifts(u) && u.heading.Some? {
      var turned := u.heading.value + (j.dHeading - 0.5) * 5.0 + 360.0;
      if 0.0 <= u.heading.value {
        assert turned >= 0.0;
      }
    }
  }

  /** The map tick: every unit jittered with its own draws (`prev.map(...)`). */
  function JitteredUnits(units: seq<Unit>, draws: seq<Jitter>): (r: seq<Unit>)
    requires |draws| == |units|
    ensures |r| == |units|
    ensures forall k :: 0 <= k < |r| ==> r[k] == JitteredUnit(units[k], draws[k])
  {
    seq(|units|, k requires 0 <= k < |units| => JitteredUnit(units[k], draws[k]))
  }

  /** A map tick keeps the roster: the same units, in the same order, on the same sides; idle ground units stay put. */
  lemma MapTickKeepsRoster(units: seq<Unit>, draws: seq<Jitter>, side: Side)
    requires |draws| == |units|
    ensures forall k :: 0 <= k < |units| ==>
      && JitteredUnits(units, draws)[k].id == units[k].id
      && JitteredUnits(units, draws)[k].name == units[k].name
      && JitteredUnits(units, draws)[k].side == units[k].side
    ensures forall k :: 0 <= k < |units| && !Drifts(units[k]) ==> JitteredUnits(units, draws)[k] == units[k]
    ensures CountSide(JitteredUnits(units, draws), side) == CountSide(units, side)
  {
    CountSideSameSides(JitteredUnits(units, draws), units, side);
  }

  /** Units whose coordinates lie in [5, 95] keep them there whatever the draws. */
  lemma MapTickInBounds(units: seq<Unit>, draws: seq<Jitter>)
    requires |draws| == |units|
    requires forall k :: 0 <= k < |draws| ==> IsJitter(draws[k])
    requires forall k :: 0 <= k < |units| ==> 5.0 <= units[k].x <= 95.0 && 5.0 <= units[k].y <= 95.0
    ensures forall k :: 0 <= k < |units| ==>
      5.0 <= JitteredUnits(units, draws)[k].x <= 95.0 && 5.0 <= JitteredUnits(units, draws)[k].y <= 95.0
  {
    forall k | 0 <= k < |units|
      ensures 5.0 <= JitteredUnits(units, draws)[k].x <= 95.0 && 5.0 <= JitteredUnits(units, draws)[k].y <= 95.0
    {
      JitterFacts(units[k], draws[k]);
    }
  }

  /** The five units the live map starts with. */
  const InitialUnits: seq<Unit> := [
    Unit("u1", "Alpha Co.", Friendly, Infantry, 30.0, 40.0, Engaged, 85.0, 40.0, Some(5.0), Some(45.0), None),
    Unit("u2", "Bravo Bat.", Friendly, Armor, 45.0, 55.0, Moving, 92.0, 78.0, Some(45.0), Some(120.0), None),
    Unit("u3", "Eagle 1", Friendly, Air, 60.0, 20.0, Active, 100.0, 100.0, Some(450.0), Some(90.0), Some(15400.0)),
    Unit("h1", "Insurgent Grp A", Hostile, Infantry, 35.0, 35.0, Engaged, 40.0, 20.0, Some(0.0), Some(225.0), None),
    Unit("h2", "Unknown Vehicle", Hostile, Armor, 70.0, 60.0, Moving, 100.0, 0.0, Some(60.0), Some(270.0), None)
  ]

  /** Of the starting units, the two engaged infantry units never move; the others drift. */
  lemma InitialDrift()
    ensures forall k :: 0 <= k < |InitialUnits| ==> (Drifts(InitialUnits[k]) <==> k == 1 || k == 2 || k == 4)
  {
  }

  // ---------------------------------------------------------------- agent simulation

  /** The stand-in result when the simulation reply does not parse as JSON. */
  function SimulationFallback(raw: string): JsValue {
    Obj(map["summary" := Str(raw), "title" := Str("Simulation Output (Raw Text)"),
            "rationale" := Str("Data parsing failed. Raw output displayed.")])
  }

  /** The fallback has exactly three keys: the raw reply as summary, and its fixed title and rationale. */
  lemma SimulationFallbackFields(raw: string)
    ensures SimulationFallback(raw).Obj? && SimulationFallback(raw).fields.Keys == {"summary", "title", "rationale"}
    ensures Get(SimulationFallback(raw), "summary") == Str(raw)
    ensures Get(SimulationFallback(raw), "title") == Str("Simulation Output (Raw Text)")
    ensures Get(SimulationFallback(raw), "rationale") == Str("Data parsing failed. Raw output displayed.")
  {
  }

  /** The result the handler stores: the cleaned reply parsed, or the fallback built from the uncleaned reply. */
  function SimulationResult(raw: string, parse: string -> Option<JsValue>): JsValue {
    match parse(CleanJsonString(raw))
    case Some(v) => v
    case None => SimulationFallback(raw)
  }

  /** A reply that parses after the clean-up is shown as parsed; any other reply is shown through the fallback. */
  lemma SimulationResultCases(raw: string, parse: string -> Option<JsValue>)
    ensures parse(CleanJsonString(raw)).Some? ==> SimulationResult(raw, parse) == parse(CleanJsonString(raw)).value
    ensures parse(CleanJsonString(raw)).None? ==> SimulationResult(raw, parse) == SimulationFallback(raw)
  {
  }

  /** The fallback is read aloud: its title, and the raw reply as summary, cut at 500 characters. */
  lemma FallbackBriefing(raw: string, convert: JsValue -> string)
    ensures Truthy(SimulationFallback(raw))
    ensures BriefingTitle(SimulationFallback(raw)) == "Simulation Output (Raw Text)"
    ensures BriefingSummary(Get(SimulationFallback(raw), "summary")) ==
      if |raw| > SummaryLimit then raw[..SummaryLimit] + "..." else raw
    ensures BriefingIntro(SimulationFallback(raw), convert) == "System Report."
    ensures SafeRender(Get(SimulationFallback(raw), "summary")) == Verbatim(Str(raw))
  {
    SimulationFallbackFields(raw);
    assert Get(SimulationFallback(raw), "agent_specific_data") == Undefined;
  }

  /** When the remote call fails, the service's "{}" parses and the screen stores an empty object. */
  lemma FailedSimulation(agent: Agent, parse: string -> Option<JsValue>)
    requires parse("{}") == Some(Obj(map[]))
    ensures SimulationResult(AiService.RunStrategySimulation(agent.Name(), AiService.Failed).output, parse) == Obj(map[])
  {
    AiService.StrategyOutputStable(agent.Name(), AiService.Failed);
  }

  /** The briefing of an empty result is made of the defaults alone. */
  lemma EmptyResultBriefing(convert: JsValue -> string)
    ensures BriefingIntro(Obj(map[]), convert) == "System Report."
    ensures BriefingTitle(Obj(map[])) == "Simulation Report"
    ensures BriefingOutcome(Obj(map[])) == ""
    ensures BriefingSummary(Get(Obj(map[]), "summary")) == "Analysis data available on screen."
  {
  }

  // ---------------------------------------------------------------- missions

  datatype Mission = Mission(
    id: string,
    name: string,
    status: string,
    priority: string,
    commander: string,
    progress: int,
    start: string,
    end: string,
    phase: string)

  const InitialMissions: seq<Mission> := [
    Mission("OP-ALPHA", "Operation Desert Wind", "Active", "High", "Col. Tadesse", 65, "06:00", "18:00", "Execution"),
    Mission("OP-BETA", "Border Security Phase II", "Planning", "Medium", "Gen. Abate", 15, "Mar 15", "Mar 20", "Logistics Prep"),
    Mission("OP-GAMMA", "Relief Convoy Escort", "Active", "Critical", "Maj. Girma", 88, "08:30", "14:00", "Extraction"),
    Mission("OP-DELTA", "Night Watch Surveillance", "Completed", "Low", "Lt. Col. Bekele", 100, "Yesterday", "Today", "Debrief")
  ]

  lemma {:induction false} UpperOfUnlettered(s: string)
    requires forall i :: 0 <= i < |s| ==> !('a' <= s[i] <= 'z')
    ensures ToUpper(s) == s
  {
  }

  /** A new mission's id: "OP-" and a number below 10000 drawn from `draw` (the upper-casing changes nothing). */
  function MissionId(draw: real): (r: string)
    requires IsDraw(draw)
    ensures 4 <= |r| <= 7 && r[..3] == "OP-"
    ensures forall i :: 3 <= i < |r| ==> IsDigit(r[i])
    ensures DecimalValue(r[3..]) == Floor(draw * 10000.0) < 10000
  {
    var n := Floor(draw * 10000.0);
    var digits := NatToString(n);
    NatToStringLength(n);
    NatToStringRoundTrip(n);
    UpperOfUnlettered("OP-" + digits);
    assert ("OP-" + digits)[3..] == digits;
    ToUpper("OP-" + digits)
  }

  /** The mission the form creates: planned, not started, with both dates to be decided. */
  function NewMission(draw: real, name: string, commander: string, priority: string): (m: Mission)
    requires IsDraw(draw)
    ensures m.name == name && m.commander == commander && m.priority == priority
    ensures m.status == "Planning" && m.progress == 0 && m.phase == "Init"
    ensures m.start == "TBD" && m.end == "TBD"
    ensures |m.id| >= 4 && m.id[..3] == "OP-"
  {
    Mission(MissionId(draw), name, "Planning", priority, commander, 0, "TBD", "TBD", "Init")
  }

  /** Two creations add two missions, the later one first, and keep the earlier list behind them. */
  lemma TwoCreations(missions: seq<Mission>, m1: Mission, m2: Mission)
    ensures |[m2] + ([m1] + missions)| == |missions| + 2
    ensures ([m2] + ([m1] + missions))[0] == m2 && ([m2] + ([m1] + missions))[1] == m1
    ensures ([m2] + ([m1] + missions))[2..] == missions
  {
  }

  // ---------------------------------------------------------------- the panel

  class OperationalPanel {
    var activeTab: Tab
    var agentType: Agent
    var scenarioInput: string
    var screen: SimScreen
    var mapUnits: seq<Unit>
    var missions: seq<Mission>
    var showMissionModal: bool
    var newMissionName: string
    var newMissionCommander: string
    var newMissionPriority: string

    /** The state after mounting: the live tab, the five map units and the four missions. */
    constructor ()
      ensures activeTab == Live && agentType == AlphaPrime && scenarioInput == ""
      ensures screen == SimScreen(Null, false, false, None)
      ensures mapUnits == InitialUnits && missions == InitialMissions
      ensures !showMissionModal && newMissionName == "" && newMissionCommander == "" && newMissionPriority == "Medium"
    {
      activeTab := Live;
      agentType := AlphaPrime;
      scenarioInput := "";
      screen := SimScreen(Null, false, false, None);
      mapUnits := InitialUnits;
      missions := InitialMissions;
      showMissionModal := false;
      newMissionName := "";
      newMissionCommander := "";
      newMissionPriority := "Medium";
    }

    /** One interval tick of the live map; the interval only runs on the live tab. */
    method TickMap(draws: seq<Jitter>)
      requires |draws| == |mapUnits|
      modifies this`mapUnits
      ensures activeTab == Live ==> mapUnits == JitteredUnits(old(mapUnits), draws)
      ensures activeTab != Live ==> mapUnits == old(mapUnits)
    {
      if activeTab == Live {
        mapUnits := JitteredUnits(mapUnits, draws);
      }
    }

    /** `stopAudio`: the current playback ends. */
    method StopAudio()
      modifies this`screen
      ensures screen == old(screen).(speaking := false)
    {
      screen := screen.(speaking := false);
    }

    /** `playBriefing`, with `audio` saying whether speech synthesis returned a buffer. */
    method PlayBriefing(result: JsValue, convert: JsValue -> string, audio: bool)
      modifies this`screen
      ensures screen == Briefed(old(screen), result, convert, agentType, audio)
    {
      screen := Briefed(screen, result, convert, agentType, audio);
    }

    /**
     * `handleSimulation`: a blank scenario changes nothing; otherwise the
     * agent's strategy simulation runs, its result (or the fallback) is
     * stored, playback stops and the new result is read aloud, and the busy
     * flag is cleared.
     */
    method Simulate(reply: AiService.Transport, parse: string -> Option<JsValue>, convert: JsValue -> string, audio: bool)
      modifies this`screen
      ensures IsBlank(old(scenarioInput)) ==> screen == old(screen)
      ensures !IsBlank(old(scenarioInput)) ==>
        screen == Briefed(SimScreen(SimulationResult(AiService.RunStrategySimulation(old(agentType).Name(), reply).output, parse),
                                    false, false, old(screen).speech),
                          SimulationResult(AiService.RunStrategySimulation(old(agentType).Name(), reply).output, parse),
                          convert, old(agentType), audio)
    {
      if !IsBlank(scenarioInput) {
        var raw := AiService.RunStrategySimulation(agentType.Name(), reply).output;
        var result := SimulationResult(raw, parse);
        screen := Briefed(SimScreen(result, false, false, screen.speech), result, convert, agentType, audio);
      }
    }

    /** `handleCreateMission`: the new mission goes first, the modal closes and the name fields are cleared. */
    method CreateMission(draw: real)
      requires IsDraw(draw)
      modifies this`missions, this`showMissionModal, this`newMissionName, this`newMissionCommander
      ensures missions == [NewMission(draw, old(newMissionName), old(newMissionCommander), newMissionPriority)] + old(missions)
      ensures |missions| == |old(missions)| + 1 && missions[1..] == old(missions)
      ensures !showMissionModal && newMissionName == "" && newMissionCommander == ""
    {
      var m := NewMission(draw, newMissionName, newMissionCommander, newMissionPriority);
      missions := [m] + missions;
      showMissionModal := false;
      newMissionName := "";
      newMissionCommander := "";
    }
  }
}
