/**
 * The medical panel: live triage counters, medevac dispatch, facility
 * occupancy and the AI bio-scan of unit fatigue.
 *
 * The timer's `Math.random` draws and the reply of the remote call are
 * parameters of the handlers.
 */
module HealthView {
  import opened Wrappers
  import opened JsString
  import opened JsMath
  import AiService

  datatype Tab = Overview | Facilities | Logistics | Resilience

  // ---------------------------------------------------------------- triage

  datatype Triage = Triage(critical: int, serious: int, minor: int)

  const InitialTriage: Triage := Triage(4, 12, 45)

  /** The two draws of one counter: whether it changes, and in which direction. */
  datatype CounterDraws = CounterDraws(change: real, direction: real)

  datatype TriageDraws = TriageDraws(critical: CounterDraws, serious: CounterDraws, minor: CounterDraws)

  /** The change of one counter: `up` or `down` when the first draw exceeds the threshold, else none. */
  function Delta(d: CounterDraws, threshold: real, up: int, down: int): (r: int)
    ensures d.change > threshold && d.direction > 0.5 ==> r == up
    ensures d.change > threshold && d.direction <= 0.5 ==> r == down
    ensures d.change <= threshold ==> r == 0
  {
    if d.change > threshold then (if d.direction > 0.5 then up else down) else 0
  }

  function ClampAtZero(n: int): (r: nat)
    ensures r >= n && (n >= 0 ==> r == n) && (n < 0 ==> r == 0)
  {
    if n < 0 then 0 else n
  }

  /**
   * One tick of the live triage board: critical moves by +1/-1 with chance
   * 0.2, serious by +2/-1 with chance 0.3, minor by +3/-2 with chance 0.4,
   * and none goes below zero.
   */
  function TriageTick(t: Triage, d: TriageDraws): (r: Triage)
    ensures r.critical >= 0 && r.serious >= 0 && r.minor >= 0
    ensures r.critical == ClampAtZero(t.critical + Delta(d.critical, 0.8, 1, -1))
    ensures r.serious == ClampAtZero(t.serious + Delta(d.serious, 0.7, 2, -1))
    ensures r.minor == ClampAtZero(t.minor + Delta(d.minor, 0.6, 3, -2))
  {
    Triage(ClampAtZero(t.critical + Delta(d.critical, 0.8, 1, -1)),
           ClampAtZero(t.serious + Delta(d.serious, 0.7, 2, -1)),
           ClampAtZero(t.minor + Delta(d.minor, 0.6, 3, -2)))
  }

  predicate NonNegative(t: Triage) {
    t.critical >= 0 && t.serious >= 0 && t.minor >= 0
  }

  /** From a board with no negative counter, a tick moves each counter only within its step range. */
  lemma TriageSteps(t: Triage, d: TriageDraws)
    requires NonNegative(t)
    ensures NonNegative(TriageTick(t, d))
    ensures t.critical - 1 <= TriageTick(t, d).critical <= t.critical + 1
    ensures t.serious - 1 <= TriageTick(t, d).serious <= t.serious + 2
    ensures t.minor - 2 <= TriageTick(t, d).minor <= t.minor + 3
  {
  }

  /** Any number of ticks from the initial board leaves every counter at zero or above. */
  function TriageAfter(t: Triage, ticks: seq<TriageDraws>): (r: Triage)
    requires NonNegative(t)
    ensures NonNegative(r)
    decreases |ticks|
  {
    if |ticks| == 0 then t else TriageAfter(TriageTick(t, ticks[0]), ticks[1..])
  }

  /** Counters drift at most their largest step per tick. */
  lemma {:induction false} TriageDrift(t: Triage, ticks: seq<TriageDraws>)
    requires NonNegative(t)
    ensures TriageAfter(t, ticks).critical <= t.critical + |ticks|
    ensures TriageAfter(t, ticks).serious <= t.serious + 2 * |ticks|
    ensures TriageAfter(t, ticks).minor <= t.minor + 3 * |ticks|
    decreases |ticks|
  {
    if |ticks| > 0 {
      TriageSteps(t, ticks[0]);
      TriageDrift(TriageTick(t, ticks[0]), ticks[1..]);
    }
  }

  // ---------------------------------------------------------------- medevac

  datatype Transport = AirHelo | GroundAmbulance

  datatype MissionStatus = Dispatched | EnRoute | Retrieving | Returning

  datatype Medevac = Medevac(id: string, location: string, transport: Transport, status: MissionStatus,
                             patients: nat, eta: string)

  const InitialMissions: seq<Medevac> := [Medevac("MED-992", "Sector 4", AirHelo, Returning, 2, "12m")]

  /** "MED-" and a four-digit number from 1000 to 9999. */
  function DispatchId(draw: real): (r: string)
    requires 0.0 <= draw < 1.0
    ensures |r| == 8 && r[..4] == "MED-"
    ensures forall i :: 4 <= i < |r| ==> IsDigit(r[i])
    ensures 1000 <= DecimalValue(r[4..]) <= 9999
    ensures DecimalValue(r[4..]) == Floor(draw * 9000.0) + 1000
  {
    var n := Floor(draw * 9000.0) + 1000;
    NatToStringLength(n);
    NatToStringRoundTrip(n);
    assert ("MED-" + NatToString(n))[4..] == NatToString(n);
    "MED-" + NatToString(n)
  }

  /** The mission a dispatch creates: the selected place and transport, dispatched, one patient, no ETA yet. */
  function NewMedevac(draw: real, location: string, transport: Transport): (m: Medevac)
    requires 0.0 <= draw < 1.0
    ensures m.location == location && m.transport == transport
    ensures m.status == Dispatched && m.patients == 1 && m.eta == "Calculating..."
    ensures |m.id| == 8 && m.id[..4] == "MED-"
  {
    Medevac(DispatchId(draw), location, transport, Dispatched, 1, "Calculating...")
  }

  /** The medevac metric card: the number of missions, as text. */
  function MedevacMetric(missions: seq<Medevac>): (r: string)
    ensures forall i :: 0 <= i < |r| ==> IsDigit(r[i])
    ensures DecimalValue(r) == |missions|
  {
    NatToStringRoundTrip(|missions|);
    NatToString(|missions|)
  }

  // ---------------------------------------------------------------- facilities

  datatype Facility = Facility(name: string, location: string, beds: nat, occupied: nat, status: string)

  const Facilities: seq<Facility> := [
    Facility("Armed Forces General Hospital", "Addis Ababa", 400, 345, "Operational"),
    Facility("Northern Command Referral", "Mekelle", 150, 98, "High Load"),
    Facility("Air Force Hospital", "Bishoftu", 80, 20, "Operational")
  ]

  /**
   * `occupied / beds > 0.9`, the red flag. With no beds JavaScript divides to
   * Infinity (flagged) or, with nobody in them, to NaN (not flagged).
   */
  function OverCapacity(f: Facility): (r: bool)
    ensures f.beds > 0 ==> (r <==> 10 * f.occupied > 9 * f.beds)
    ensures f.beds == 0 ==> (r <==> f.occupied > 0)
  {
    if f.beds == 0 then f.occupied > 0
    else
      QuotientCompare(f.occupied as real, f.beds as real, 0.9);
      (f.occupied as real / f.beds as real) > 0.9
  }

  /** `Math.round(occupied / beds * 100)`: the occupancy in percent, to the nearest whole number. */
  function OccupancyPercent(f: Facility): (r: int)
    requires f.beds > 0
    ensures f.beds * (2 * r - 1) <= 200 * f.occupied < f.beds * (2 * r + 1)
    ensures f.occupied <= f.beds ==> 0 <= r <= 100
  {
    var r := Round(f.occupied as real / f.beds as real * 100.0);
    RoundedPercent(f.occupied, f.beds, r);
    r
  }

  /** The rounding bounds of a percentage, multiplied out so that no division is left. */
  lemma RoundedPercent(occupied: nat, beds: nat, r: int)
    requires beds > 0
    requires r as real - 0.5 <= occupied as real / beds as real * 100.0 < r as real + 0.5
    ensures beds * (2 * r - 1) <= 200 * occupied < beds * (2 * r + 1)
    ensures occupied <= beds ==> 0 <= r <= 100
  {
    var y := occupied as real / beds as real * 100.0;
    PercentTimesBase(occupied as real, beds as real);
    RoundingMultiplied(y, occupied, beds, r);
    if occupied <= beds {
      PercentAtMostHundred(y, occupied as real, beds as real);
    }
  }

  /** A percentage multiplied back by its base is a hundred times the count. */
  lemma PercentTimesBase(a: real, b: real)
    requires b > 0.0
    ensures a / b * 100.0 * b == 100.0 * a
  {
    var q := a / b;
    assert q * b == a;
    assert q * 100.0 * b == 100.0 * (q * b);
  }

  /** Bounds of half a unit around a percentage, multiplied by the base. */
  lemma RoundingMultiplied(y: real, occupied: nat, beds: nat, r: int)
    requires beds > 0 && y * beds as real == 100.0 * occupied as real
    requires r as real - 0.5 <= y < r as real + 0.5
    ensures beds * (2 * r - 1) <= 200 * occupied < beds * (2 * r + 1)
  {
    var lo, hi := 2 * r - 1, 2 * r + 1;
    DoubledBounds(y, beds as real, 100.0 * occupied as real, lo as real, hi as real);
    CastProduct(lo, beds);
    CastProduct(hi, beds);
    CastBounds(lo * beds, 200 * occupied, hi * beds);
  }

  /** Twice a quantity between two bounds, multiplied by a positive base. */
  lemma DoubledBounds(y: real, b: real, c: real, lo: real, hi: real)
    requires b > 0.0 && y * b == c && lo <= 2.0 * y < hi
    ensures lo * b <= 2.0 * c < hi * b
  {
    MultiplyBounds(lo, 2.0 * y, hi, b);
  }

  lemma CastBounds(l: int, c: int, u: int)
    requires l as real <= c as real < u as real
    ensures l <= c < u
  {
  }

  lemma CastProduct(m: int, n: int)
    ensures (m * n) as real == m as real * n as real
  {
  }

  /** Bounds on a factor carry over to its product with a positive number. */
  lemma MultiplyBounds(lo: real, x: real, hi: real, b: real)
    requires b > 0.0 && lo <= x < hi
    ensures lo * b <= x * b < hi * b
  {
  }

  /** The percentage of a count that does not exceed its positive base lies in [0, 100]. */
  lemma PercentAtMostHundred(y: real, a: real, b: real)
    requires 0.0 <= a <= b && b > 0.0 && y * b == 100.0 * a
    ensures 0.0 <= y <= 100.0
  {
    if y > 100.0 {
      MultiplyBounds(100.0, y, y + 1.0, b);
    }
    if y < 0.0 {
      MultiplyBounds(y, y, 0.0, b);
    }
  }

  /** The listed hospitals show 86%, 65% and 25%, and none is flagged red. */
  lemma FacilityBoard()
    ensures OccupancyPercent(Facilities[0]) == 86 && OccupancyPercent(Facilities[1]) == 65
    ensures OccupancyPercent(Facilities[2]) == 25
    ensures forall k :: 0 <= k < |Facilities| ==> !OverCapacity(Facilities[k])
  {
  }

  // ---------------------------------------------------------------- the panel

  class HealthPanel {
    var activeTab: Tab
    var triage: Triage
    var showDispatchModal: bool
    var missions: seq<Medevac>
    var aiInsight: string
    var loadingInsight: bool
    var dispatchLocation: string
    var dispatchTransport: Transport

    /** No triage counter is ever negative. */
    predicate Valid()
      reads this`triage
    {
      NonNegative(triage)
    }

    constructor ()
      ensures Valid()
      ensures activeTab == Overview && triage == InitialTriage && !showDispatchModal
      ensures missions == InitialMissions && aiInsight == "Click to analyze unit stress levels."
      ensures !loadingInsight && dispatchLocation == "Sector 1" && dispatchTransport == GroundAmbulance
    {
      activeTab := Overview;
      triage := InitialTriage;
      showDispatchModal := false;
      missions := InitialMissions;
      aiInsight := "Click to analyze unit stress levels.";
      loadingInsight := false;
      dispatchLocation := "Sector 1";
      dispatchTransport := GroundAmbulance;
    }

    method SelectTab(t: Tab)
      modifies this`activeTab
      ensures activeTab == t
    {
      activeTab := t;
    }

    /** The three-second triage interval. */
    method TickTriage(d: TriageDraws)
      requires Valid()
      modifies this`triage
      ensures Valid()
      ensures triage == TriageTick(old(triage), d)
    {
      triage := TriageTick(triage, d);
    }

    method OpenDispatch()
      modifies this`showDispatchModal
      ensures showDispatchModal
    {
      showDispatchModal := true;
    }

    method SetDispatch(location: string, transport: Transport)
      modifies this`dispatchLocation, this`dispatchTransport
      ensures dispatchLocation == location && dispatchTransport == transport
    {
      dispatchLocation := location;
      dispatchTransport := transport;
    }

    /** `handleDispatch`: the new mission goes first, the others stay behind it unchanged, and the form closes. */
    method Dispatch(draw: real)
      requires 0.0 <= draw < 1.0
      modifies this`missions, this`showDispatchModal
      ensures missions == [NewMedevac(draw, dispatchLocation, dispatchTransport)] + old(missions)
      ensures |missions| == |old(missions)| + 1 && missions[1..] == old(missions)
      ensures DecimalValue(MedevacMetric(missions)) == DecimalValue(MedevacMetric(old(missions))) + 1
      ensures !showDispatchModal
    {
      missions := [NewMedevac(draw, dispatchLocation, dispatchTransport)] + missions;
      showDispatchModal := false;
    }

    /** `handleRunBioAnalysis`: the insight becomes the service's answer, which on failure is its connection notice. */
    method RunBioAnalysis(reply: AiService.Transport)
      modifies this`aiInsight, this`loadingInsight
      ensures aiInsight == AiService.ContextInsight(reply) && !loadingInsight
      ensures reply.Failed? ==> aiInsight == AiService.ConnectionFailedNotice
    {
      aiInsight := AiService.ContextInsight(reply);
      loadingInsight := false;
    }
  }
}
