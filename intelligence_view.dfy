/**
 * The intelligence panel: the link-analysis graph whose nodes are dragged with
 * the mouse, the cyber terminal and its history, the SIGINT feed that grows
 * while its tab is open, the OSINT search with its deepfake check, and the
 * Sigma red-team run with its own fence stripping.
 *
 * Mouse coordinates, the clock, `Math.random` draws, the remote calls and
 * `JSON.parse` are parameters; the timers are callers of the handlers.
 */
module IntelligenceView {
  import opened Wrappers
  import opened JsString
  import opened JsMath
  import opened JsValues
  import opened Normalizer
  import opened Feeds
  import AiService

  datatype Tab = Dashboard | Cyber | Sigint | Surveillance | Osint | Link | Fusion

  // ---------------------------------------------------------------- rendering

  /**
   * This panel's `SafeRender`: strings and numbers as they are; an object by
   * its `value` only when that is truthy, else as JSON; nothing otherwise.
   */
  function SafeRender(content: JsValue): (r: Rendered)
    ensures (content.Str? || content.Num?) <==> r == Verbatim(content)
    ensures r == Nothing <==> !(content.Str? || content.Num? || IsObject(content))
    ensures IsObject(content) && Truthy(Get(content, "value")) ==> r == Verbatim(Get(content, "value"))
    ensures r.JsonOf? <==> IsObject(content) && !Truthy(Get(content, "value"))
  {
    if content.Str? || content.Num? then Verbatim(content)
    else if IsObject(content) then
      if Truthy(Get(content, "value")) then Verbatim(Get(content, "value")) else JsonOf(content)
    else Nothing
  }

  /** A falsy `value`, such as 0 or the empty string, is not shown: the whole object appears as JSON. */
  lemma SafeRenderFalsyValue(other: map<string, JsValue>)
    ensures SafeRender(Obj(other["value" := Num(0.0)])) == JsonOf(Obj(other["value" := Num(0.0)]))
    ensures SafeRender(Obj(other["value" := Str("")])) == JsonOf(Obj(other["value" := Str("")]))
  {
  }

  // ---------------------------------------------------------------- link analysis

  datatype NodeKind = Target | Finance | Location | Cache

  datatype GraphNode = GraphNode(id: string, name: string, kind: NodeKind, x: real, y: real, connections: seq<string>)

  const InitialNodes: seq<GraphNode> := [
    GraphNode("n1", "Cmdr. X", Target, 400.0, 300.0, ["n2", "n3", "n4"]),
    GraphNode("n2", "Bank Acc #992", Finance, 250.0, 150.0, ["n1", "n5"]),
    GraphNode("n3", "Safehouse Alpha", Location, 550.0, 150.0, ["n1", "n6"]),
    GraphNode("n4", "Arms Cache B", Cache, 400.0, 450.0, ["n1"]),
    GraphNode("n5", "Shell Corp", Finance, 100.0, 100.0, ["n2"]),
    GraphNode("n6", "Lt. Y", Target, 700.0, 100.0, ["n3"])
  ]

  /** `nodes.find(n => n.id === id) || null`. */
  function FindNode(nodes: seq<GraphNode>, id: string): (r: Option<GraphNode>)
    ensures r.Some? ==> r.value.id == id && r.value in nodes
  {
    if |nodes| == 0 then None
    else if nodes[0].id == id then Some(nodes[0])
    else FindNode(nodes[1..], id)
  }

  /** The search finds nothing exactly when no node has the id, and otherwise the first node that has it. */
  lemma {:induction false} FindNodeFirst(nodes: seq<GraphNode>, id: string)
    ensures FindNode(nodes, id).None? <==> forall k :: 0 <= k < |nodes| ==> nodes[k].id != id
    ensures FindNode(nodes, id).Some? ==>
      exists k :: 0 <= k < |nodes| && nodes[k] == FindNode(nodes, id).value &&
        forall j :: 0 <= j < k ==> nodes[j].id != id
  {
    if |nodes| > 0 && nodes[0].id != id {
      FindNodeFirst(nodes[1..], id);
      if FindNode(nodes, id).Some? {
        var k :| 0 <= k < |nodes[1..]| && nodes[1..][k] == FindNode(nodes, id).value &&
          forall j :: 0 <= j < k ==> nodes[1..][j].id != id;
        assert nodes[k + 1] == FindNode(nodes, id).value;
        assert forall j :: 0 <= j < k + 1 ==> nodes[j].id != id by {
          forall j | 0 <= j < k + 1 ensures nodes[j].id != id {
            if j > 0 {
              assert nodes[j] == nodes[1..][j - 1];
            }
          }
        }
      }
    }
  }

  /** The drag step of `handleMouseMove`: the nodes with the dragged id take the new position. */
  function MovedNodes(nodes: seq<GraphNode>, id: string, x: real, y: real): (r: seq<GraphNode>)
    ensures |r| == |nodes|
    ensures forall k :: 0 <= k < |r| ==> r[k] == if nodes[k].id == id then nodes[k].(x := x, y := y) else nodes[k]
  {
    seq(|nodes|, k requires 0 <= k < |nodes| => if nodes[k].id == id then nodes[k].(x := x, y := y) else nodes[k])
  }

  /** Dragging changes positions only: every id, name, kind and connection list stays as it was. */
  lemma DragKeepsGraph(nodes: seq<GraphNode>, id: string, x: real, y: real)
    ensures forall k :: 0 <= k < |nodes| ==>
      MovedNodes(nodes, id, x, y)[k].(x := nodes[k].x, y := nodes[k].y) == nodes[k]
    ensures forall k :: 0 <= k < |nodes| && nodes[k].id == id ==>
      MovedNodes(nodes, id, x, y)[k].x == x && MovedNodes(nodes, id, x, y)[k].y == y
    ensures MovedNodes(MovedNodes(nodes, id, x, y), id, x, y) == MovedNodes(nodes, id, x, y)
  {
  }

  // ---------------------------------------------------------------- terminal

  const TerminalPrompt: string := "root@endf-cyber:~# "

  const InitialHistory: seq<string> := [
    "root@endf-cyber:~# initializing threat_scan --deep",
    "[SYSTEM] Connection established to secure node.",
    "[SYSTEM] Monitoring active channels...",
    "[INFO] 4.0.3 Cyber and Electronic Warfare Directorate Module Loaded.",
    "Type 'help' for available commands."
  ]

  /** The command that wipes the console, in any letter case. */
  predicate IsClear(command: string) {
    ToLower(command) == "clear"
  }

  lemma ClearInAnyCase()
    ensures IsClear("clear") && IsClear("CLEAR") && IsClear("Clear")
    ensures !IsClear(" clear")
  {
    assert ToLower("CLEAR") == "clear";
    assert ToLower("Clear") == "clear";
    assert ToLower(" clear")[0] == ' ';
  }

  /** The terminal's three state hooks: the history lines, the input line and the busy flag. */
  datatype Terminal = Terminal(history: seq<string>, input: string, processing: bool)

  /**
   * `handleTerminalCommand` from its start to its last state update: on Enter,
   * a non-blank command clears the input; 'clear' leaves only the cleared
   * notice, any other command appends its prompt line and the reply.
   */
  function TerminalAfter(key: string, t: Terminal, reply: AiService.Transport): (r: Terminal)
    ensures key != "Enter" || IsBlank(t.input) ==> r == t
    ensures key == "Enter" && !IsBlank(t.input) ==> r.input == "" && !r.processing
    ensures key == "Enter" && !IsBlank(t.input) && IsClear(Trim(t.input)) ==> r.history == ["Console cleared."]
    ensures key == "Enter" && !IsBlank(t.input) && !IsClear(Trim(t.input)) ==>
      r.history == t.history + [TerminalPrompt + Trim(t.input), AiService.GenerateContent(false, reply)]
  {
    var command := Trim(t.input);
    if key != "Enter" || command == "" then t
    else if IsClear(command) then Terminal(["Console cleared."], "", false)
    else Terminal(t.history + [TerminalPrompt + command, AiService.GenerateContent(false, reply)], "", false)
  }

  /** An ordinary command grows the history by exactly two lines and keeps every earlier line. */
  lemma TerminalAppends(t: Terminal, reply: AiService.Transport)
    requires !IsBlank(t.input) && !IsClear(Trim(t.input))
    ensures |TerminalAfter("Enter", t, reply).history| == |t.history| + 2
    ensures TerminalAfter("Enter", t, reply).history[..|t.history|] == t.history
    ensures TerminalAfter("Enter", t, reply).history[|t.history|] == TerminalPrompt + Trim(t.input)
  {
    var h := TerminalAfter("Enter", t, reply).history;
    assert h == t.history + [TerminalPrompt + Trim(t.input), AiService.GenerateContent(false, reply)];
    assert h[..|t.history|] == t.history;
  }

  // ---------------------------------------------------------------- SIGINT

  const SigintLimit: nat := 15

  datatype Signal = Signal(id: int, frequency: real, sourceKey: string, contentKey: string, kind: string)

  const InitialSignals: seq<Signal> := [
    Signal(1, 442.5, "intel_sig_source_unk", "intel_sig_content_enc", "raw"),
    Signal(2, 121.8, "Sector 9", "intel_sig_content_move", "voice")
  ]

  /** The four draws of a new signal. */
  datatype SignalDraws = SignalDraws(frequency: real, source: real, content: real, kind: real)

  /**
   * A new intercepted signal: its id is the clock, its frequency 100 to 600 MHz,
   * its source and content keys and its kind chosen by the draws.
   */
  function NewSignal(now: int, d: SignalDraws): (s: Signal)
    ensures 0.0 <= d.frequency < 1.0 ==> 100.0 <= s.frequency < 600.0
    ensures s.id == now
    ensures s.sourceKey == (if d.source > 0.5 then "Intercept 4" else "intel_sig_source_unk")
    ensures s.contentKey == (if d.content > 0.7 then "intel_sig_content_enc" else "intel_sig_content_move")
    ensures s.kind == (if d.kind > 0.7 then "raw" else "voice")
  {
    Signal(now, d.frequency * 500.0 + 100.0,
           if d.source > 0.5 then "Intercept 4" else "intel_sig_source_unk",
           if d.content > 0.7 then "intel_sig_content_enc" else "intel_sig_content_move",
           if d.kind > 0.7 then "raw" else "voice")
  }

  // ---------------------------------------------------------------- OSINT

  /** `query || osintQuery`: the argument when it is a non-empty string, else the stored query. */
  function SearchQuery(query: Option<string>, stored: string): (q: string)
    ensures query.Some? && query.value != "" ==> q == query.value
    ensures query.None? || query.value == "" ==> q == stored
  {
    if query.Some? && query.value != "" then query.value else stored
  }

  /** The media keywords that trigger the deepfake check, tested on the lower-cased query. */
  predicate MentionsMedia(q: string) {
    Includes(ToLower(q), "video") || Includes(ToLower(q), "speech") || Includes(ToLower(q), "fake")
  }

  lemma MediaExamples()
    ensures MentionsMedia("Leaked VIDEO of the summit")
    ensures !MentionsMedia("troop movement")
  {
    var q := ToLower("Leaked VIDEO of the summit");
    assert q[7..12] == "video";
    assert OccursAt(q, "video", 7);
    var m := ToLower("troop movement");
    assert m == "troop movement";
    NotIncludesMissingChar(m, "video", 2);
    NotIncludesMissingChar(m, "speech", 0);
    NotIncludesMissingChar(m, "fake", 0);
  }

  datatype Deepfake = Deepfake(score: int, verdict: string, details: string)

  /** The simulated media verdict: a score of 10 to 89 and one of two verdicts. */
  function DeepfakeVerdict(scoreDraw: real, verdictDraw: real): (d: Deepfake)
    ensures 0.0 <= scoreDraw < 1.0 ==> 10 <= d.score <= 89
    ensures d.verdict == (if verdictDraw > 0.5 then "Manipulated Media" else "Authentic Source")
    ensures d.details == "Frame-by-frame artifact analysis complete. Audio spectrum inconsistencies detected."
  {
    Deepfake(Floor(scoreDraw * 80.0) + 10, if verdictDraw > 0.5 then "Manipulated Media" else "Authentic Source",
             "Frame-by-frame artifact analysis complete. Audio spectrum inconsistencies detected.")
  }

  /** The OSINT screen's state hooks: the search text shown, the media verdict and the loading flag. */
  datatype OsintScreen = OsintScreen(data: Option<string>, deepfake: Option<Deepfake>, loading: bool)

  /** The screen once a search and (for media queries) its delayed verdict have completed. */
  function Searched(reply: AiService.Transport, q: string, scoreDraw: real, verdictDraw: real): (r: OsintScreen)
    ensures r.data == Some(AiService.SearchIntelligenceText(reply)) && !r.loading
    ensures r.deepfake.Some? <==> MentionsMedia(q)
    ensures MentionsMedia(q) ==> r.deepfake == Some(DeepfakeVerdict(scoreDraw, verdictDraw))
  {
    OsintScreen(Some(AiService.SearchIntelligenceText(reply)),
                if MentionsMedia(q) then Some(DeepfakeVerdict(scoreDraw, verdictDraw)) else None, false)
  }

  // ---------------------------------------------------------------- Sigma red team

  /** The Sigma run's state hooks: its log lines, its result and the busy flag. */
  datatype SigmaScreen = SigmaScreen(logs: seq<string>, result: JsValue, running: bool)

  /** The result of a Sigma run: its own cleaning of the reply parsed, or the reply itself as summary. */
  function SigmaResult(raw: string, parse: string -> Option<JsValue>): JsValue {
    match parse(SigmaClean(raw))
    case Some(v) => v
    case None => Obj(map["summary" := Str(raw)])
  }

  /** A reply that parses after the Sigma clean-up is shown as parsed; any other reply is shown whole as the summary. */
  lemma SigmaResultCases(raw: string, parse: string -> Option<JsValue>)
    ensures parse(SigmaClean(raw)).Some? ==> SigmaResult(raw, parse) == parse(SigmaClean(raw)).value
    ensures parse(SigmaClean(raw)).None? ==> Get(SigmaResult(raw, parse), "summary") == Str(raw)
  {
  }

  /** The log of a completed run: the scan line naming the target, then the completion line. */
  function SigmaLog(target: string): seq<string> {
    ["[SIGMA] Initiating vulnerability scan on vector: " + target + "...",
     "[SIGMA] Assessment Complete. Vulnerabilities identified."]
  }

  /** The log has two lines; the first names the target, and the second is the same for every target. */
  lemma SigmaLogNamesTarget(target: string, other: string)
    ensures |SigmaLog(target)| == 2
    ensures EndsWith(SigmaLog(target)[0], target + "...")
    ensures SigmaLog(target)[1] == SigmaLog(other)[1]
  {
    var line := SigmaLog(target)[0];
    var prefix := "[SIGMA] Initiating vulnerability scan on vector: ";
    assert line == prefix + (target + "...");
    assert line[|line| - |target + "..."|..] == target + "...";
  }

  /**
   * The strategy service already trims its output and strips any opening
   * fence, so the Sigma cleaning of a failed call is the service's "{}".
   */
  lemma SigmaOfFailure()
    ensures SigmaClean(AiService.RunStrategySimulation("sigma", AiService.Failed).output) == "{}"
  {
    SigmaOfFailedOutput();
  }

  lemma SigmaOfFailedOutput()
    ensures AiService.RunStrategySimulation("sigma", AiService.Failed).output == "{}"
    ensures SigmaClean("{}") == "{}"
  {
    assert !StartsWith("{}", JsonFence);
    assert !EndsWith("{}", Fence);
    TrimOfTrimmed("{}");
  }

  /** A completed run against a target: the two log lines, the result of the reply, not running. */
  function SigmaRun(target: string, reply: AiService.Transport, parse: string -> Option<JsValue>): SigmaScreen {
    SigmaScreen(SigmaLog(target), SigmaResult(AiService.RunStrategySimulation("sigma", reply).output, parse), false)
  }

  /** What a run leaves on screen: its two log lines, the result of the reply, and an empty object when the call fails. */
  lemma SigmaRunFacts(target: string, reply: AiService.Transport, parse: string -> Option<JsValue>)
    ensures SigmaRun(target, reply, parse).logs == SigmaLog(target) && !SigmaRun(target, reply, parse).running
    ensures SigmaRun(target, reply, parse).result ==
      SigmaResult(AiService.RunStrategySimulation("sigma", reply).output, parse)
    ensures reply.Failed? && parse("{}") == Some(Obj(map[])) ==> SigmaRun(target, reply, parse).result == Obj(map[])
  {
    SigmaOfFailedOutput();
  }

  // ---------------------------------------------------------------- the panel

  class IntelligencePanel {
    var activeTab: Tab
    var nodes: seq<GraphNode>
    var selectedNode: Option<GraphNode>
    var draggingNode: Option<string>
    var terminalHistory: seq<string>
    var terminalInput: string
    var terminalProcessing: bool
    var sigintFeed: seq<Signal>
    var osintQuery: string
    var osint: OsintScreen
    var sigmaTarget: string
    var sigma: SigmaScreen

    /** The feed never holds more than fifteen signals. */
    predicate Valid()
      reads this`sigintFeed
    {
      |sigintFeed| <= SigintLimit
    }

    constructor ()
      ensures Valid()
      ensures activeTab == Dashboard && nodes == InitialNodes && selectedNode.None? && draggingNode.None?
      ensures terminalHistory == InitialHistory && terminalInput == "" && !terminalProcessing
      ensures sigintFeed == InitialSignals && osintQuery == "" && osint == OsintScreen(None, None, false)
      ensures sigmaTarget == "" && sigma == SigmaScreen([], Null, false)
    {
      activeTab := Dashboard;
      nodes := InitialNodes;
      selectedNode := None;
      draggingNode := None;
      terminalHistory := InitialHistory;
      terminalInput := "";
      terminalProcessing := false;
      sigintFeed := InitialSignals;
      osintQuery := "";
      osint := OsintScreen(None, None, false);
      sigmaTarget := "";
      sigma := SigmaScreen([], Null, false);
    }

    method SelectTab(t: Tab)
      modifies this`activeTab
      ensures activeTab == t
    {
      activeTab := t;
    }

    /** `handleMouseDown`: start dragging the node and select it (none when the id is unknown). */
    method MouseDown(id: string)
      modifies this`draggingNode, this`selectedNode
      ensures draggingNode == Some(id) && selectedNode == FindNode(nodes, id)
    {
      draggingNode := Some(id);
      selectedNode := FindNode(nodes, id);
    }

    /**
     * `handleMouseMove`: while a node is dragged (a non-empty id), it moves to
     * the pointer position relative to the canvas; otherwise nothing happens.
     */
    method MouseMove(clientX: real, clientY: real, left: real, top: real)
      modifies this`nodes
      ensures draggingNode.Some? && draggingNode.value != "" ==>
        nodes == MovedNodes(old(nodes), draggingNode.value, clientX - left, clientY - top)
      ensures draggingNode.None? || draggingNode.value == "" ==> nodes == old(nodes)
    {
      if draggingNode.Some? && draggingNode.value != "" {
        var x := clientX - left;
        var y := clientY - top;
        nodes := MovedNodes(nodes, draggingNode.value, x, y);
      }
    }

    /** `handleMouseUp` (also on leaving the canvas): dragging stops; the selection stays. */
    method MouseUp()
      modifies this`draggingNode
      ensures draggingNode.None?
    {
      draggingNode := None;
    }

    /**
     * `handleTerminalCommand`: on Enter, a non-blank command is echoed after
     * the prompt and the input cleared; 'clear' then wipes the history to one
     * line, and any other command appends the reply of the simulated terminal.
     */
    method TerminalKey(key: string, reply: AiService.Transport)
      modifies this`terminalHistory, this`terminalInput, this`terminalProcessing
      ensures Terminal(terminalHistory, terminalInput, terminalProcessing) ==
        TerminalAfter(key, Terminal(old(terminalHistory), old(terminalInput), old(terminalProcessing)), reply)
    {
      var next := TerminalAfter(key, Terminal(terminalHistory, terminalInput, terminalProcessing), reply);
      terminalHistory := next.history;
      terminalInput := next.input;
      terminalProcessing := next.processing;
    }

    /** The SIGINT interval: while the SIGINT tab is open, a new signal goes first and the feed keeps fifteen. */
    method SigintTick(now: int, draws: SignalDraws)
      requires Valid()
      modifies this`sigintFeed
      ensures Valid()
      ensures activeTab == Sigint ==> sigintFeed == Newest(NewSignal(now, draws), old(sigintFeed), SigintLimit)
      ensures activeTab != Sigint ==> sigintFeed == old(sigintFeed)
    {
      if activeTab == Sigint {
        sigintFeed := Newest(NewSignal(now, draws), sigintFeed, SigintLimit);
      }
    }

    /**
     * `handleOsintSearch`: a blank query changes nothing; otherwise the
     * search result is shown, and a media query also gets the deepfake verdict.
     */
    method OsintSearch(query: Option<string>, reply: AiService.Transport, scoreDraw: real, verdictDraw: real)
      modifies this`osint
      ensures IsBlank(SearchQuery(query, old(osintQuery))) ==> osint == old(osint)
      ensures !IsBlank(SearchQuery(query, old(osintQuery))) ==>
        osint == Searched(reply, SearchQuery(query, old(osintQuery)), scoreDraw, verdictDraw)
    {
      var q := SearchQuery(query, osintQuery);
      if !IsBlank(q) {
        osint := Searched(reply, q, scoreDraw, verdictDraw);
      }
    }

    /** `handleRunSigma`: nothing for an empty target; otherwise the run's log and result replace the old ones. */
    method RunSigma(reply: AiService.Transport, parse: string -> Option<JsValue>)
      modifies this`sigma
      ensures old(sigmaTarget) == "" ==> sigma == old(sigma)
      ensures old(sigmaTarget) != "" ==> sigma == SigmaRun(old(sigmaTarget), reply, parse)
    {
      if sigmaTarget != "" {
        sigma := SigmaRun(sigmaTarget, reply, parse);
      }
    }
  }
}
