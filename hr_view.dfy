/**
 * The personnel panel: the leadership evaluation radar and its potential
 * score, and the risk and retention analysis. Replies and `JSON.parse` are
 * parameters.
 */
module HRView {
  import opened Wrappers
  import opened JsMath
  import opened JsValues
  import AiService

  datatype Tab = Overview | Org | Mobilization | Upas | Risk

  // ---------------------------------------------------------------- rendering

  /** `safeRender`: strings and numbers as they are, any non-null object (arrays too) as JSON, else nothing. */
  function SafeRender(content: JsValue): (r: Rendered)
    ensures (content.Str? || content.Num?) <==> r == Verbatim(content)
    ensures IsObject(content) <==> r == JsonOf(content)
    ensures r == Nothing <==> !(content.Str? || content.Num? || IsObject(content))
  {
    if content.Str? || content.Num? then Verbatim(content)
    else if IsObject(content) then JsonOf(content)
    else Nothing
  }

  // ---------------------------------------------------------------- talent evaluation

  function TalentEntry(subject: string, a: real): JsValue {
    Obj(map["subject" := Str(subject), "A" := Num(a), "fullMark" := Num(150.0)])
  }

  /** A radar profile built from (subject, score) pairs, every entry out of 150. */
  function TalentProfile(scores: seq<(string, real)>): (r: seq<JsValue>)
    ensures |r| == |scores|
  {
    seq(|scores|, k requires 0 <= k < |scores| => TalentEntry(scores[k].0, scores[k].1))
  }

  const InitialScores: seq<(string, real)> := [
    ("Leadership", 120.0), ("Tactics", 98.0), ("Tech", 86.0),
    ("Logistics", 99.0), ("Diplomacy", 85.0), ("Morale", 65.0)
  ]

  const InitialTalent: seq<JsValue> := TalentProfile(InitialScores)

  /** Every entry has a numeric `A`. */
  predicate Numeric(data: seq<JsValue>) {
    forall k :: 0 <= k < |data| ==> Get(data[k], "A").Num?
  }

  /** Every entry's `A` lies on the radar's 0..150 scale. */
  predicate OnScale(data: seq<JsValue>)
    requires Numeric(data)
  {
    forall k :: 0 <= k < |data| ==> 0.0 <= Get(data[k], "A").n <= 150.0
  }

  /** `data.reduce((acc, curr) => acc + curr.A, 0)`. */
  function SumA(data: seq<JsValue>): (r: real)
    requires Numeric(data)
  {
    if |data| == 0 then 0.0 else SumA(data[..|data| - 1]) + Get(data[|data| - 1], "A").n
  }

  lemma {:induction false} SumABounds(data: seq<JsValue>)
    requires Numeric(data) && OnScale(data)
    ensures 0.0 <= SumA(data) <= 150.0 * |data| as real
  {
    if |data| > 0 {
      var init := data[..|data| - 1];
      assert forall k :: 0 <= k < |init| ==> init[k] == data[k];
      SumABounds(init);
    }
  }

  /** The mean `A` of a non-empty, numeric list, which stays on the 0..150 scale when every entry does. */
  function MeanA(data: seq<JsValue>): (r: real)
    requires |data| > 0 && Numeric(data)
    ensures OnScale(data) ==> 0.0 <= r <= 150.0
  {
    MeanBounds(data);
    SumA(data) / |data| as real
  }

  lemma MeanBounds(data: seq<JsValue>)
    requires |data| > 0 && Numeric(data)
    ensures OnScale(data) ==> 0.0 <= SumA(data) / |data| as real <= 150.0
  {
    if OnScale(data) {
      SumABounds(data);
      QuotientCompare(SumA(data), |data| as real, 150.0);
      QuotientCompare(SumA(data), |data| as real, 0.0);
    }
  }

  /** The potential score as written: the mean divided by 1.5 and multiplied by ten, shown against "/100". */
  function PotentialScoreAsWritten(data: seq<JsValue>): (r: int)
    requires |data| > 0 && Numeric(data)
    ensures OnScale(data) ==> 0 <= r <= 1000
  {
    Round(MeanA(data) / 1.5 * 10.0)
  }

  /** The initial profile (sum 553 over six entries) scores 614 "out of 100". */
  lemma PotentialScoreOverflows()
    ensures Numeric(InitialTalent) && OnScale(InitialTalent)
    ensures SumA(InitialTalent) == 553.0
    ensures PotentialScoreAsWritten(InitialTalent) == 614
  {
    InitialSum();
  }

  lemma InitialSum()
    ensures Numeric(InitialTalent) && OnScale(InitialTalent)
    ensures SumA(InitialTalent) == 553.0
  {
    var sc := InitialScores;
    ProfileScores(sc);
    InitialScoreSum();
  }

  lemma InitialScoreSum()
    ensures ScoreSum(InitialScores) == 553.0
    ensures forall k :: 0 <= k < |InitialScores| ==> 0.0 <= InitialScores[k].1 <= 150.0
  {
    var sc := InitialScores;
    assert ScoreSum(sc[..1]) == 120.0 by { assert sc[..1][..0] == []; }
    assert ScoreSum(sc[..2]) == 218.0 by { assert sc[..2][..1] == sc[..1]; }
    assert ScoreSum(sc[..3]) == 304.0 by { assert sc[..3][..2] == sc[..2]; }
    assert ScoreSum(sc[..4]) == 403.0 by { assert sc[..4][..3] == sc[..3]; }
    assert ScoreSum(sc[..5]) == 488.0 by { assert sc[..5][..4] == sc[..4]; }
    assert ScoreSum(sc) == 553.0 by { assert sc[..6] == sc; assert sc[..6][..5] == sc[..5]; }
  }

  /** The sum of the scores of (subject, score) pairs, last one added last. */
  function ScoreSum(scores: seq<(string, real)>): real {
    if |scores| == 0 then 0.0 else ScoreSum(scores[..|scores| - 1]) + scores[|scores| - 1].1
  }

  lemma TalentEntryA(subject: string, a: real)
    ensures Get(TalentEntry(subject, a), "A") == Num(a)
  {
  }

  /** A profile's entries carry their scores as `A`, so its sum is the scores' sum and it is on scale when they are. */
  lemma {:induction false} ProfileScores(scores: seq<(string, real)>)
    ensures Numeric(TalentProfile(scores))
    ensures SumA(TalentProfile(scores)) == ScoreSum(scores)
    ensures (forall k :: 0 <= k < |scores| ==> 0.0 <= scores[k].1 <= 150.0) ==> OnScale(TalentProfile(scores))
  {
    var p := TalentProfile(scores);
    forall k | 0 <= k < |p| ensures Get(p[k], "A") == Num(scores[k].1) {
      TalentEntryA(scores[k].0, scores[k].1);
    }
    if |scores| > 0 {
      var init := scores[..|scores| - 1];
      ProfileScores(init);
      assert TalentProfile(init) == p[..|p| - 1];
    }
  }

  /** The score as the "/100" label means it: the mean as a share of the 150-point scale, in percent. */
  function PotentialScore(data: seq<JsValue>): (r: int)
    requires |data| > 0 && Numeric(data)
    ensures OnScale(data) ==> 0 <= r <= 100
  {
    Round(MeanA(data) / 1.5)
  }

  /** The corrected score agrees with the written one up to the factor ten, and gives 61 on the initial profile. */
  lemma PotentialScoreCorrected()
    ensures Numeric(InitialTalent) && PotentialScore(InitialTalent) == 61
    ensures forall data :: |data| > 0 && Numeric(data) && OnScale(data) ==> PotentialScore(data) <= 100
  {
    PotentialScoreOverflows();
  }

  /** `handleEvaluateCandidate`'s rule: a non-empty array replaces the profile, anything else keeps it. */
  function Evaluated(current: seq<JsValue>, data: JsValue): (r: seq<JsValue>)
    ensures data.Arr? && |data.items| > 0 ==> r == data.items
    ensures !(data.Arr? && |data.items| > 0) ==> r == current
    ensures |current| > 0 ==> |r| > 0
  {
    if data.Arr? && |data.items| > 0 then data.items else current
  }

  /** A failed call (the service's "{}" parses to an object) and a parse failure (the empty array) both keep the profile. */
  lemma EvaluationFailuresKeepProfile(current: seq<JsValue>, parse: string -> Option<JsValue>, reply: AiService.Transport)
    requires parse("{}") == Some(Obj(map[]))
    ensures Evaluated(current, AiService.GenerateDynamicData(AiService.Failed, parse)) == current
    ensures Evaluated(current, Arr([])) == current
  {
    AiService.DynamicDataOnFailure(parse);
  }

  // ---------------------------------------------------------------- risk analysis

  /** `riskData.retention_forecast?.[length - 1]?.risk_factor`: the last month's driver, or undefined. */
  function KeyDriver(riskData: JsValue): (r: JsValue)
    ensures var f := Get(riskData, "retention_forecast");
      (f.Arr? && |f.items| > 0 ==> r == Get(f.items[|f.items| - 1], "risk_factor")) &&
      (!(f.Arr? && |f.items| > 0) ==> r == Undefined)
  {
    var f := Get(riskData, "retention_forecast");
    if f.Arr? && |f.items| > 0 then Get(f.items[|f.items| - 1], "risk_factor") else Undefined
  }

  /**
   * A forecast whose last month names a string risk factor yields that factor
   * whatever the months before it; an analysis without a forecast, or with an
   * empty one, has no key driver.
   */
  lemma KeyDriverOfLastMonth(riskData: JsValue, months: seq<JsValue>, last: map<string, JsValue>, factor: string)
    requires Get(riskData, "retention_forecast") == Arr(months + [Obj(last)])
    requires "risk_factor" in last && last["risk_factor"] == Str(factor)
    ensures KeyDriver(riskData) == Str(factor)
    ensures KeyDriver(Obj(map[])) == Undefined
    ensures KeyDriver(Obj(map["retention_forecast" := Arr([])])) == Undefined
  {
    assert (months + [Obj(last)])[|months|] == Obj(last);
  }

  // ---------------------------------------------------------------- the panel

  class HRPanel {
    var activeTab: Tab
    var deploying: bool
    var selectedUnit: string
    var selectedRegion: string
    var candidateName: string
    var talentData: seq<JsValue>
    var evalLoading: bool
    var riskLoading: bool
    var riskData: JsValue

    /** The radar always has at least one entry, so the score's division is defined. */
    predicate Valid()
      reads this`talentData
    {
      |talentData| > 0
    }

    constructor ()
      ensures Valid()
      ensures activeTab == Overview && !deploying && selectedUnit == "3rd Infantry Division"
      ensures selectedRegion == "North Command" && candidateName == "Maj. Dawit K."
      ensures talentData == InitialTalent && !evalLoading && !riskLoading && riskData == Null
    {
      activeTab := Overview;
      deploying := false;
      selectedUnit := "3rd Infantry Division";
      selectedRegion := "North Command";
      candidateName := "Maj. Dawit K.";
      talentData := InitialTalent;
      evalLoading := false;
      riskLoading := false;
      riskData := Null;
    }

    method SelectTab(t: Tab)
      modifies this`activeTab
      ensures activeTab == t
    {
      activeTab := t;
    }

    /** `handleEvaluateCandidate`: the generated profile replaces the radar only when it is a non-empty array. */
    method EvaluateCandidate(reply: AiService.Transport, parse: string -> Option<JsValue>)
      requires Valid()
      modifies this`talentData, this`evalLoading
      ensures Valid()
      ensures talentData == Evaluated(old(talentData), AiService.GenerateDynamicData(reply, parse))
      ensures !evalLoading
    {
      var next := Evaluated(talentData, AiService.GenerateDynamicData(reply, parse));
      assert |next| > 0;
      talentData := next;
      evalLoading := false;
    }

    /**
     * `handleRiskAnalysis`: a parsed reply becomes the risk data; an
     * unparsable one throws out of the handler, leaving the data as it was
     * and the loading flag set.
     */
    method RiskAnalysis(reply: AiService.Transport, parse: string -> Option<JsValue>)
      modifies this`riskData, this`riskLoading
      ensures AiService.AnalyzePersonnelRisk(reply, parse).Some? ==>
        riskData == AiService.AnalyzePersonnelRisk(reply, parse).value && !riskLoading
      ensures AiService.AnalyzePersonnelRisk(reply, parse).None? ==> riskData == old(riskData) && riskLoading
    {
      riskLoading := true;
      var data := AiService.AnalyzePersonnelRisk(reply, parse);
      if data.Some? {
        riskData := data.value;
        riskLoading := false;
      }
    }

    /** `handleDeploy` starts the two-second deployment. */
    method Deploy()
      modifies this`deploying
      ensures deploying
    {
      deploying := true;
    }

    /** The deployment timer ends it (the alert it raises is presentation). */
    method DeployDone()
      modifies this`deploying
      ensures !deploying
    {
      deploying := false;
    }
  }
}
