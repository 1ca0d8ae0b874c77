/**
 * The Chief-of-Staff panel: the strategic directive list (add, edit, delete,
 * complete), the field-insight triage list, the AI strategy director with its
 * guard and parse fallback, and the impact chart drawn from its result.
 *
 * The clock (`Date.now()` and the ISO date) and the remote call are
 * parameters. `types.ts`, which declares the task record, is not part of this
 * model; the record below has the fields this panel writes.
 */
module ChiefOfStaffView {
  import opened Wrappers
  import opened JsString
  import opened JsValues
  import opened Normalizer
  import AiService

  // ---------------------------------------------------------------- directives

  datatype Task = Task(
    id: string,
    title: string,
    description: string,
    dueDate: string,
    priority: string,
    status: string,
    isCompleted: bool)

  const InitialTasks: seq<Task> := [
    Task("1", "Review Northern Sector Defense Plan", "Assess 4th Mech Div readiness post-maneuvers.", "2024-10-30",
         "high", "in-progress", false),
    Task("2", "Authorize Logistics Budget Adjustment", "Emergency fuel allocation for Air Force operations.", "2024-10-25",
         "medium", "pending", false),
    Task("3", "Intelligence Briefing: Horn of Africa", "Review weekly INSA report on regional actors.", "2024-10-26",
         "high", "pending", false)
  ]

  /**
   * The directive the add button creates: its id is the clock in milliseconds,
   * its due date the date part (before the first 'T') of the current ISO time.
   */
  function NewTask(now: nat, isoNow: string): (t: Task)
    ensures t.title == "New Strategic Directive" && t.description == "Enter directive details..."
    ensures t.priority == "medium" && t.status == "pending" && !t.isCompleted
    ensures (forall i :: 0 <= i < |t.id| ==> IsDigit(t.id[i])) && DecimalValue(t.id) == now
    ensures 'T' !in t.dueDate && StartsWith(isoNow, t.dueDate)
  {
    NatToStringRoundTrip(now);
    DatePart(isoNow);
    Task(NatToString(now), "New Strategic Directive", "Enter directive details...", Split(isoNow, 'T')[0],
         "medium", "pending", false)
  }

  /** The first 'T'-field of a string is one of its prefixes. */
  lemma DatePart(s: string)
    ensures StartsWith(s, Split(s, 'T')[0])
  {
    SplitJoin(s, 'T');
    JoinStartsWithFirst(Split(s, 'T'), 'T');
  }

  lemma JoinStartsWithFirst(fields: seq<string>, sep: char)
    requires |fields| >= 1
    ensures StartsWith(Join(fields, sep), fields[0])
  {
    if |fields| > 1 {
      assert (fields[0] + [sep] + Join(fields[1..], sep))[..|fields[0]|] == fields[0];
    }
  }

  /** `handleUpdateTask`: every task with the edited task's id is replaced by it. */
  function UpdatedTasks(tasks: seq<Task>, updated: Task): (r: seq<Task>)
    ensures |r| == |tasks|
    ensures forall k :: 0 <= k < |r| ==> r[k] == if tasks[k].id == updated.id then updated else tasks[k]
  {
    seq(|tasks|, k requires 0 <= k < |tasks| => if tasks[k].id == updated.id then updated else tasks[k])
  }

  /** Saving the same edit twice is the same as saving it once, and an edit for an unknown id changes nothing. */
  lemma UpdatedTasksFacts(tasks: seq<Task>, updated: Task)
    ensures UpdatedTasks(UpdatedTasks(tasks, updated), updated) == UpdatedTasks(tasks, updated)
    ensures (forall k :: 0 <= k < |tasks| ==> tasks[k].id != updated.id) ==> UpdatedTasks(tasks, updated) == tasks
  {
  }

  /** `handleDeleteTask`: the tasks whose id differs, in their original order. */
  function WithoutTask(tasks: seq<Task>, id: string): (r: seq<Task>)
    ensures |r| <= |tasks|
    ensures forall k :: 0 <= k < |r| ==> r[k].id != id && r[k] in tasks
  {
    if |tasks| == 0 then []
    else (if tasks[0].id == id then [] else [tasks[0]]) + WithoutTask(tasks[1..], id)
  }

  /** The number of tasks with a given id. */
  function CountId(tasks: seq<Task>, id: string): nat {
    if |tasks| == 0 then 0 else (if tasks[0].id == id then 1 else 0) + CountId(tasks[1..], id)
  }

  /** Deletion removes exactly the tasks with that id: the others all remain. */
  lemma {:induction false} WithoutTaskCount(tasks: seq<Task>, id: string)
    ensures |WithoutTask(tasks, id)| + CountId(tasks, id) == |tasks|
    ensures forall t :: t in tasks && t.id != id ==> t in WithoutTask(tasks, id)
  {
    if |tasks| > 0 {
      WithoutTaskCount(tasks[1..], id);
      forall t | t in tasks && t.id != id
        ensures t in WithoutTask(tasks, id)
      {
        if t != tasks[0] {
          assert t in tasks[1..];
        }
      }
    }
  }

  /** Deletion works list piece by list piece, so the relative order of what remains is kept. */
  lemma {:induction false} WithoutTaskConcat(a: seq<Task>, b: seq<Task>, id: string)
    ensures WithoutTask(a + b, id) == WithoutTask(a, id) + WithoutTask(b, id)
  {
    if |a| == 0 {
      assert a + b == b;
    } else {
      assert (a + b)[1..] == a[1..] + b;
      WithoutTaskConcat(a[1..], b, id);
    }
  }

  /** Deleting twice is deleting once. */
  lemma {:induction false} WithoutTaskIdempotent(tasks: seq<Task>, id: string)
    ensures WithoutTask(WithoutTask(tasks, id), id) == WithoutTask(tasks, id)
  {
    WithoutAbsent(WithoutTask(tasks, id), id);
  }

  /** Deleting an id that no task has changes nothing. */
  lemma {:induction false} WithoutAbsent(tasks: seq<Task>, id: string)
    requires forall k :: 0 <= k < |tasks| ==> tasks[k].id != id
    ensures WithoutTask(tasks, id) == tasks
  {
    if |tasks| > 0 {
      WithoutAbsent(tasks[1..], id);
      assert [tasks[0]] + tasks[1..] == tasks;
    }
  }

  /** One task toggled: completion flips, and the status follows the new completion. */
  function Toggled(t: Task): (r: Task)
    ensures r.isCompleted == !t.isCompleted
    ensures r.status == (if r.isCompleted then "completed" else "in-progress")
    ensures r.(isCompleted := t.isCompleted, status := t.status) == t
  {
    t.(isCompleted := !t.isCompleted, status := if !t.isCompleted then "completed" else "in-progress")
  }

  /** `handleToggleTask`: the tasks with that id toggled, every other task as it was. */
  function ToggledTasks(tasks: seq<Task>, id: string): (r: seq<Task>)
    ensures |r| == |tasks|
    ensures forall k :: 0 <= k < |r| ==> r[k] == if tasks[k].id == id then Toggled(tasks[k]) else tasks[k]
  {
    seq(|tasks|, k requires 0 <= k < |tasks| => if tasks[k].id == id then Toggled(tasks[k]) else tasks[k])
  }

  /**
   * Toggling twice restores every completion flag; the status is then the one
   * the flag implies, which loses a 'pending' status.
   */
  lemma ToggleTwice(tasks: seq<Task>, id: string)
    ensures var r := ToggledTasks(ToggledTasks(tasks, id), id);
      |r| == |tasks| &&
      forall k :: 0 <= k < |r| ==>
        r[k].isCompleted == tasks[k].isCompleted &&
        (tasks[k].id == id ==> r[k].status == if tasks[k].isCompleted then "completed" else "in-progress") &&
        (tasks[k].id != id ==> r[k] == tasks[k])
  {
  }

  /** The second initial directive, 'pending', comes back from two toggles as 'in-progress'. */
  lemma ToggleTwiceLosesPending()
    ensures InitialTasks[1].status == "pending"
    ensures ToggledTasks(ToggledTasks(InitialTasks, "2"), "2")[1].status == "in-progress"
  {
    ToggleTwice(InitialTasks, "2");
  }

  // ---------------------------------------------------------------- field insights

  datatype Insight = Insight(id: string, source: string, text: string, severity: string, status: string)

  const InitialInsights: seq<Insight> := [
    Insight("INS-044", "Sgt. Kebede (3rd Div)", "Rations quality in Sector 4 deteriorating. Morale impact observed.",
            "High", "Pending"),
    Insight("INS-045", "Lt. Sarah (Signals)", "New radio encryption protocols causing lag in remote outposts.",
            "Medium", "Pending"),
    Insight("INS-042", "Cpl. Dawit (Eng)", "Bridge structural weakness detected near Supply Route B.",
            "Critical", "Actioned")
  ]

  /** `handleActionInsight`: the insights with that id become 'Actioned'; nothing else changes. */
  function ActionedInsights(insights: seq<Insight>, id: string): (r: seq<Insight>)
    ensures |r| == |insights|
    ensures forall k :: 0 <= k < |r| ==>
      r[k] == if insights[k].id == id then insights[k].(status := "Actioned") else insights[k]
  {
    seq(|insights|, k requires 0 <= k < |insights| =>
      if insights[k].id == id then insights[k].(status := "Actioned") else insights[k])
  }

  /** Actioning is idempotent, and actioning never reopens an insight. */
  lemma ActionedInsightsFacts(insights: seq<Insight>, id: string, other: string)
    ensures ActionedInsights(ActionedInsights(insights, id), id) == ActionedInsights(insights, id)
    ensures forall k :: 0 <= k < |insights| && insights[k].status == "Actioned" ==>
      ActionedInsights(insights, other)[k].status == "Actioned"
  {
  }

  // ---------------------------------------------------------------- strategy director

  datatype Mode = Alpha | Sigma

  /** The mode string handed to the strategy simulation; both reach the generic persona. */
  function ModeName(m: Mode): (r: string)
    ensures AiService.PersonaFor(r) == AiService.GenericStrategist
  {
    AiService.PanelModesAreGeneric();
    if m == Alpha then "alpha" else "sigma"
  }

  /** The accent of the run button: blue for the constructive mode, red for the adversarial one. */
  function AgentAccent(m: Mode): (r: string)
    ensures r == "bg-blue-600" <==> m == Alpha
    ensures m == Sigma ==> r == "bg-red-600"
  {
    if m == Alpha then "bg-blue-600" else "bg-red-600"
  }

  /** The stand-in result when the strategy reply does not parse. */
  function StrategyFallback(raw: string): JsValue {
    Obj(map["recommended_strategy" := Str("Analysis Error"), "rationale" := Str(raw)])
  }

  /** The fallback names the analysis error, keeps the raw reply as its rationale and has no matrix. */
  lemma StrategyFallbackFields(raw: string)
    ensures Get(StrategyFallback(raw), "recommended_strategy") == Str("Analysis Error")
    ensures Get(StrategyFallback(raw), "rationale") == Str(raw)
    ensures Get(StrategyFallback(raw), "cross_domain_matrix") == Undefined
  {
  }

  /** The stored result: the cleaned reply parsed, or the fallback built from the reply as received. */
  function StrategyResult(raw: string, parse: string -> Option<JsValue>): JsValue {
    match parse(CleanJsonString(raw))
    case Some(v) => v
    case None => StrategyFallback(raw)
  }

  /** A reply that parses after the clean-up is shown as parsed; any other reply is shown through the fallback. */
  lemma StrategyResultCases(raw: string, parse: string -> Option<JsValue>)
    ensures parse(CleanJsonString(raw)).Some? ==> StrategyResult(raw, parse) == parse(CleanJsonString(raw)).value
    ensures parse(CleanJsonString(raw)).None? ==> StrategyResult(raw, parse) == StrategyFallback(raw)
  {
  }

  /** The run button is enabled when nothing is in flight and a scenario has been typed. */
  predicate RunEnabled(isThinking: bool, scenarioInput: string) {
    !isThinking && scenarioInput != ""
  }

  /** The strategy screen's state hooks: the stored result and the busy flag. */
  datatype StrategyScreen = StrategyScreen(result: JsValue, thinking: bool)

  const CrossDomainKeys: seq<string> :=
    ["military_readiness", "diplomatic_trust", "economic_cost", "domestic_morale", "legal_compliance"]

  const ImpactSubjects: seq<string> := ["Mil", "Dip", "Econ", "Soc", "Leg"]

  /** One bar of the impact chart. */
  datatype Impact = Impact(subject: string, score: JsValue)

  /** `impactData`: five bars read from a truthy cross-domain matrix, none otherwise. */
  function ImpactData(result: JsValue): (r: seq<Impact>)
    ensures !Truthy(Get(result, "cross_domain_matrix")) ==> r == []
    ensures Truthy(Get(result, "cross_domain_matrix")) ==>
      |r| == 5 && forall k :: 0 <= k < 5 ==>
        r[k] == Impact(ImpactSubjects[k], Get(Get(result, "cross_domain_matrix"), CrossDomainKeys[k]))
  {
    if Truthy(Get(result, "cross_domain_matrix")) then
      var m := Get(result, "cross_domain_matrix");
      seq(5, k requires 0 <= k < 5 => Impact(ImpactSubjects[k], Get(m, CrossDomainKeys[k])))
    else []
  }

  /** A reply that did not parse draws no impact chart, and neither does the empty initial result. */
  lemma FallbackHasNoImpact(raw: string)
    ensures ImpactData(StrategyFallback(raw)) == []
    ensures ImpactData(Null) == []
  {
    StrategyFallbackFields(raw);
  }

  /** This panel's `SafeRender`: strings and numbers as they are; an object by its defined `value`, else as JSON. */
  function SafeRender(content: JsValue): (r: Rendered)
    ensures (content.Str? || content.Num?) <==> r == Verbatim(content)
    ensures r == Nothing <==> !(content.Str? || content.Num? || IsObject(content))
    ensures IsObject(content) && Get(content, "value") != Undefined ==> r == StringOf(Get(content, "value"))
    ensures r.JsonOf? <==> IsObject(content) && Get(content, "value") == Undefined
  {
    if content.Str? || content.Num? then Verbatim(content)
    else if IsObject(content) then
      if Get(content, "value") != Undefined then StringOf(Get(content, "value")) else JsonOf(content)
    else Nothing
  }

  /** Unlike the operations panel, this one shows an object carrying only `text` as JSON. */
  lemma SafeRenderIgnoresText(s: string)
    ensures SafeRender(Obj(map["text" := Str(s)])) == JsonOf(Obj(map["text" := Str(s)]))
  {
    assert Get(Obj(map["text" := Str(s)]), "value") == Undefined;
  }

  // ---------------------------------------------------------------- the panel

  class ChiefOfStaffPanel {
    var tasks: seq<Task>
    var insights: seq<Insight>
    var sitRep: string
    var scenarioInput: string
    var simMode: Mode
    var strategy: StrategyScreen

    /**
     * The situation-report state is declared but no handler of this panel
     * assigns it, so it stays the empty string it starts as.
     */
    predicate Valid()
      reads this`sitRep
    {
      sitRep == ""
    }

    constructor ()
      ensures Valid()
      ensures tasks == InitialTasks && insights == InitialInsights
      ensures scenarioInput == "" && simMode == Alpha && strategy == StrategyScreen(Null, false)
    {
      tasks := InitialTasks;
      insights := InitialInsights;
      sitRep := "";
      scenarioInput := "";
      simMode := Alpha;
      strategy := StrategyScreen(Null, false);
    }

    /** `handleAddTask`: the new directive goes first. */
    method AddTask(now: nat, isoNow: string)
      modifies this`tasks
      ensures tasks == [NewTask(now, isoNow)] + old(tasks)
    {
      tasks := [NewTask(now, isoNow)] + tasks;
    }

    method UpdateTask(updated: Task)
      modifies this`tasks
      ensures tasks == UpdatedTasks(old(tasks), updated)
    {
      tasks := UpdatedTasks(tasks, updated);
    }

    method DeleteTask(id: string)
      modifies this`tasks
      ensures tasks == WithoutTask(old(tasks), id)
    {
      tasks := WithoutTask(tasks, id);
    }

    method ToggleTask(id: string)
      modifies this`tasks
      ensures tasks == ToggledTasks(old(tasks), id)
    {
      tasks := ToggledTasks(tasks, id);
    }

    method ActionInsight(id: string)
      modifies this`insights
      ensures insights == ActionedInsights(old(insights), id)
    {
      insights := ActionedInsights(insights, id);
    }

    /** Typing in the scenario box. */
    method SetScenario(text: string)
      modifies this`scenarioInput
      ensures scenarioInput == text
    {
      scenarioInput := text;
    }

    method SetMode(m: Mode)
      modifies this`simMode
      ensures simMode == m
    {
      simMode := m;
    }

    /**
     * `handleGenerateStrategy` as written: it returns unless the situation
     * report is non-blank. No handler assigns the situation report, so in
     * every state the panel reaches (`Valid()`) it never changes the screen,
     * whatever was typed into the scenario box that enables its button.
     */
    method GenerateStrategyAsWritten(reply: AiService.Transport, parse: string -> Option<JsValue>)
      modifies this`strategy
      ensures IsBlank(old(sitRep)) ==> strategy == old(strategy)
      ensures !IsBlank(old(sitRep)) ==>
        strategy == StrategyScreen(StrategyResult(AiService.RunStrategySimulation(ModeName(old(simMode)), reply).output, parse), false)
      ensures old(Valid()) ==> strategy == old(strategy)
    {
      if !IsBlank(sitRep) {
        var raw := AiService.RunStrategySimulation(ModeName(simMode), reply).output;
        strategy := StrategyScreen(StrategyResult(raw, parse), false);
      }
    }

    /**
     * The handler as its button intends: guarded by the scenario text, it
     * stores the parsed result or the fallback and clears the busy flag.
     */
    method GenerateStrategy(reply: AiService.Transport, parse: string -> Option<JsValue>)
      modifies this`strategy
      ensures IsBlank(old(scenarioInput)) ==> strategy == old(strategy)
      ensures !IsBlank(old(scenarioInput)) ==>
        strategy == StrategyScreen(StrategyResult(AiService.RunStrategySimulation(ModeName(old(simMode)), reply).output, parse), false)
    {
      if !IsBlank(scenarioInput) {
        var raw := AiService.RunStrategySimulation(ModeName(simMode), reply).output;
        strategy := StrategyScreen(StrategyResult(raw, parse), false);
      }
    }
  }

  /** The button can be enabled while the handler it triggers does nothing: a typed scenario with the empty report. */
  lemma EnabledButDead()
    ensures RunEnabled(false, "Secure the northern corridor")
    ensures IsBlank("")
  {
    assert Trim("") == "";
  }
}
