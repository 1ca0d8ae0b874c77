/**
 * The finance panel's budget simulator: four allocation sliders that share
 * out a change over the other three, and the readiness projection computed
 * from the allocation. Values are exact reals here; the slider passes the
 * integer `parseInt` makes of its value.
 */
module FinanceView {
  import opened JsString
  import opened JsMath
  import AiService

  datatype Tab = Budget | Procure | Dce

  datatype Key = Ops | Procurement | Salary | Rd

  /** The `allocations` record, one share per key. */
  datatype Allocations = Allocations(ops: real, procure: real, salary: real, rd: real) {
    function Get(k: Key): real {
      match k
      case Ops => ops
      case Procurement => procure
      case Salary => salary
      case Rd => rd
    }

    function With(k: Key, v: real): (r: Allocations)
      ensures r.Get(k) == v
      ensures forall j :: j != k ==> r.Get(j) == Get(j)
    {
      match k
      case Ops => this.(ops := v)
      case Procurement => this.(procure := v)
      case Salary => this.(salary := v)
      case Rd => this.(rd := v)
    }
  }

  const InitialAllocations: Allocations := Allocations(40.0, 30.0, 20.0, 10.0)

  function Total(a: Allocations): real {
    a.ops + a.procure + a.salary + a.rd
  }

  /** Two records that agree on every key are the same record. */
  lemma AllocationsByKey(a: Allocations, b: Allocations)
    requires forall k :: a.Get(k) == b.Get(k)
    ensures a == b
  {
    assert a.Get(Ops) == b.Get(Ops) && a.Get(Procurement) == b.Get(Procurement);
    assert a.Get(Salary) == b.Get(Salary) && a.Get(Rd) == b.Get(Rd);
  }

  /** `Object.keys(prev).filter(k => k !== key)`, in the record's key order. */
  function RemainingKeys(key: Key): (r: seq<Key>)
    ensures |r| == 3 && key !in r
    ensures key != Ops ==> Ops in r
    ensures key != Procurement ==> Procurement in r
    ensures key != Salary ==> Salary in r
    ensures key != Rd ==> Rd in r
    ensures forall i, j :: 0 <= i < j < |r| ==> r[i] != r[j]
  {
    match key
    case Ops => [Procurement, Salary, Rd]
    case Procurement => [Ops, Salary, Rd]
    case Salary => [Ops, Procurement, Rd]
    case Rd => [Ops, Procurement, Salary]
  }

  /** What the other keys each lose: a third of the change of the moved key. */
  function Deduction(prev: Allocations, key: Key, value: int): real {
    (value as real - prev.Get(key)) / 3.0
  }

  /**
   * The allocation after moving `key` to `value`: that key takes the value,
   * and every other key loses the deduction but never goes below zero.
   */
  function Reallocation(prev: Allocations, key: Key, value: int): (r: Allocations)
    ensures r.Get(key) == value as real
    ensures forall k :: k != key ==> r.Get(k) == Max(0.0, prev.Get(k) - Deduction(prev, key, value))
  {
    var d := Deduction(prev, key, value);
    Allocations(if key == Ops then value as real else Max(0.0, prev.ops - d),
                if key == Procurement then value as real else Max(0.0, prev.procure - d),
                if key == Salary then value as real else Max(0.0, prev.salary - d),
                if key == Rd then value as real else Max(0.0, prev.rd - d))
  }

  /** `handleSliderChange`'s new record: a copy with the moved key set, then the other keys rewritten one by one. */
  method Reallocate(prev: Allocations, key: Key, value: int) returns (next: Allocations)
    ensures next == Reallocation(prev, key, value)
  {
    var remaining := RemainingKeys(key);
    var deduction := (value as real - prev.Get(key)) / (|remaining| as real);
    assert deduction == Deduction(prev, key, value);
    next := prev.With(key, value as real);
    for i := 0 to |remaining|
      invariant next.Get(key) == value as real
      invariant forall j :: 0 <= j < i ==> next.Get(remaining[j]) == Max(0.0, prev.Get(remaining[j]) - deduction)
      invariant forall j :: i <= j < |remaining| ==> next.Get(remaining[j]) == prev.Get(remaining[j])
    {
      var k := remaining[i];
      assert forall j :: 0 <= j < |remaining| && j != i ==> remaining[j] != k;
      next := next.With(k, Max(0.0, prev.Get(k) - deduction));
    }
    ReallocationByKey(prev, key, value, next);
  }

  /** A record with the moved key set and each remaining key cut by the deduction is the re-allocation. */
  lemma ReallocationByKey(prev: Allocations, key: Key, value: int, next: Allocations)
    requires next.Get(key) == value as real
    requires forall j :: 0 <= j < 3 ==>
      next.Get(RemainingKeys(key)[j]) == Max(0.0, prev.Get(RemainingKeys(key)[j]) - Deduction(prev, key, value))
    ensures next == Reallocation(prev, key, value)
  {
    var remaining := RemainingKeys(key);
    forall k | k != key
      ensures next.Get(k) == Reallocation(prev, key, value).Get(k)
    {
      assert k in remaining by {
        match k
        case Ops =>
        case Procurement =>
        case Salary =>
        case Rd =>
      }
      var j :| 0 <= j < |remaining| && remaining[j] == k;
    }
    AllocationsByKey(next, Reallocation(prev, key, value));
  }

  /** A slider value of zero or more leaves every share at zero or above. */
  lemma ReallocationNonNegative(prev: Allocations, key: Key, value: int)
    requires value >= 0
    ensures forall k :: Reallocation(prev, key, value).Get(k) >= 0.0
  {
  }

  /** When no other share has to be cut off at zero, the total is what it was. */
  lemma ReallocationKeepsTotal(prev: Allocations, key: Key, value: int)
    requires forall k :: k != key ==> prev.Get(k) >= Deduction(prev, key, value)
    ensures Total(Reallocation(prev, key, value)) == Total(prev)
  {
    var d := Deduction(prev, key, value);
    var r := Reallocation(prev, key, value);
    assert key != Ops ==> prev.Get(Ops) >= d;
    assert key != Procurement ==> prev.Get(Procurement) >= d;
    assert key != Salary ==> prev.Get(Salary) >= d;
    assert key != Rd ==> prev.Get(Rd) >= d;
    assert Total(r) == Total(prev) + (value as real - prev.Get(key)) - 3.0 * d by {
      match key
      case Ops => assert r.procure == prev.procure - d && r.salary == prev.salary - d && r.rd == prev.rd - d;
      case Procurement => assert r.ops == prev.ops - d && r.salary == prev.salary - d && r.rd == prev.rd - d;
      case Salary => assert r.ops == prev.ops - d && r.procure == prev.procure - d && r.rd == prev.rd - d;
      case Rd => assert r.ops == prev.ops - d && r.procure == prev.procure - d && r.salary == prev.salary - d;
    }
  }

  /** When a share is cut off at zero the total grows: operations to 100 from the start gives 110. */
  lemma ClampedTotalExample()
    ensures Total(InitialAllocations) == 100.0
    ensures Total(Reallocation(InitialAllocations, Ops, 100)) == 110.0
  {
    var r := Reallocation(InitialAllocations, Ops, 100);
    assert r.procure == 10.0 && r.salary == 0.0 && r.rd == 0.0;
  }

  // ---------------------------------------------------------------- readiness projection

  /**
   * The weighted readiness of an allocation: operations weigh 0.5,
   * procurement 0.3, salaries 0.2 and research 0.1, so for non-negative shares
   * the score lies between a tenth and a half of the total budget.
   */
  function ReadyScore(a: Allocations): (r: real)
    ensures a.ops >= 0.0 && a.procure >= 0.0 && a.salary >= 0.0 && a.rd >= 0.0 ==>
      0.0 <= 0.1 * (a.ops + a.procure + a.salary + a.rd) <= r <= 0.5 * (a.ops + a.procure + a.salary + a.rd)
  {
    a.ops * 0.5 + a.procure * 0.3 + a.salary * 0.2 + a.rd * 0.1
  }

  datatype Projection = Projection(month: string, score: real)

  const ProjectionBases: seq<real> := [82.0, 83.0, 84.0, 85.0, 86.0, 87.0]

  const InitialProjection: seq<Projection> := [
    Projection("M1", 85.0), Projection("M2", 86.0), Projection("M3", 88.0),
    Projection("M4", 89.0), Projection("M5", 91.0), Projection("M6", 92.0)
  ]

  function MonthLabel(i: nat): (r: string)
    ensures |r| >= 2 && r[0] == 'M'
  {
    "M" + NatToString(i + 1)
  }

  /** Six months, each its base plus a readiness bonus growing with the month, capped at 100. */
  function ProjectedReadiness(ready: real): (r: seq<Projection>)
    ensures |r| == |ProjectionBases| == 6
    ensures forall i :: 0 <= i < 6 ==>
      r[i].month == MonthLabel(i) && r[i].score == Min(100.0, ProjectionBases[i] + ready / 10.0 * (i as real * 0.2))
  {
    seq(6, i requires 0 <= i < 6 => MonthProjection(ready, i))
  }

  function MonthProjection(ready: real, i: nat): Projection
    requires i < 6
  {
    Projection(MonthLabel(i), Min(100.0, ProjectionBases[i] + ready / 10.0 * (i as real * 0.2)))
  }

  /** The first month is always the bare base 82, no score exceeds 100, and with non-negative readiness the scores never fall. */
  lemma ProjectionShape(ready: real)
    ensures ProjectedReadiness(ready)[0].score == 82.0
    ensures forall i :: 0 <= i < 6 ==> ProjectedReadiness(ready)[i].score <= 100.0
    ensures ready >= 0.0 ==>
      forall i, j :: 0 <= i <= j < 6 ==> ProjectedReadiness(ready)[i].score <= ProjectedReadiness(ready)[j].score
  {
    var r := ProjectedReadiness(ready);
    if ready >= 0.0 {
      forall i, j | 0 <= i <= j < 6
        ensures r[i].score <= r[j].score
      {
        assert ProjectionBases[i] <= ProjectionBases[j];
        assert ready / 10.0 * (i as real * 0.2) <= ready / 10.0 * (j as real * 0.2);
      }
    }
  }

  /** The month labels read M1 to M6. */
  lemma MonthLabels()
    ensures MonthLabel(0) == "M1" && MonthLabel(5) == "M6"
  {
  }

  // ---------------------------------------------------------------- the panel

  class FinancePanel {
    var activeTab: Tab
    var allocations: Allocations
    var projectedReadiness: seq<Projection>
    var aiInsight: string
    var loadingInsight: bool

    constructor ()
      ensures activeTab == Budget && allocations == InitialAllocations
      ensures projectedReadiness == InitialProjection
      ensures aiInsight == "Adjust sliders to generate AI prediction." && !loadingInsight
    {
      activeTab := Budget;
      allocations := InitialAllocations;
      projectedReadiness := InitialProjection;
      aiInsight := "Adjust sliders to generate AI prediction.";
      loadingInsight := false;
    }

    method SelectTab(t: Tab)
      modifies this`activeTab
      ensures activeTab == t
    {
      activeTab := t;
    }

    /** `handleSliderChange`: the shares are re-allocated and the projection recomputed from them. */
    method SliderChange(key: Key, value: int)
      modifies this`allocations, this`projectedReadiness
      ensures allocations == Reallocation(old(allocations), key, value)
      ensures projectedReadiness == ProjectedReadiness(ReadyScore(allocations))
    {
      var next := Reallocate(allocations, key, value);
      projectedReadiness := ProjectedReadiness(ReadyScore(next));
      allocations := next;
    }

    /** The debounced insight after a change: the service's answer, its connection notice on failure. */
    method RefreshInsight(reply: AiService.Transport)
      modifies this`aiInsight, this`loadingInsight
      ensures aiInsight == AiService.ContextInsight(reply) && !loadingInsight
    {
      aiInsight := AiService.ContextInsight(reply);
      loadingInsight := false;
    }
  }
}
