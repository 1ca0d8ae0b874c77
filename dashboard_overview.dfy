/**
 * The command dashboard: the live telemetry chart over a seven-point sliding
 * window, the AI forecast box with its offline state, and the operator's
 * location line. The clock, the draws and the geolocation outcome are
 * parameters.
 */
module DashboardOverview {
  import opened Wrappers
  import opened JsString
  import opened JsMath
  import AiService

  // ---------------------------------------------------------------- telemetry

  datatype Telemetry = Telemetry(name: string, readiness: real, threats: real)

  const WindowSize: nat := 7

  const InitialTelemetry: seq<Telemetry> := [
    Telemetry("00:00", 85.0, 12.0), Telemetry("04:00", 86.0, 15.0), Telemetry("08:00", 89.0, 10.0),
    Telemetry("12:00", 88.0, 8.0), Telemetry("16:00", 90.0, 14.0), Telemetry("20:00", 87.0, 11.0),
    Telemetry("24:00", 88.0, 9.0)
  ]

  /** Readiness within 70..100 and threats within 0..50, the ranges the chart is drawn for. */
  predicate InRange(p: Telemetry) {
    70.0 <= p.readiness <= 100.0 && 0.0 <= p.threats <= 50.0
  }

  /** `HH:MM` from the hours and minutes of the clock, each padded to two digits. */
  function TimeLabel(hours: nat, minutes: nat): (r: string)
    ensures hours < 24 && minutes < 60 ==> |r| == 5 && r[2] == ':'
    ensures hours < 24 && minutes < 60 ==> forall i :: 0 <= i < 5 && i != 2 ==> IsDigit(r[i])
    ensures hours < 24 && minutes < 60 ==> r[..2] == PadStart2(NatToString(hours)) && r[3..] == PadStart2(NatToString(minutes))
  {
    TimeLabelParts(hours, minutes);
    PadStart2(NatToString(hours)) + ":" + PadStart2(NatToString(minutes))
  }

  lemma TimeLabelParts(hours: nat, minutes: nat)
    ensures hours < 24 && minutes < 60 ==>
      |PadStart2(NatToString(hours))| == 2 && |PadStart2(NatToString(minutes))| == 2
  {
    NatToStringLength(hours % 10000);
    NatToStringLength(minutes % 10000);
  }

  lemma TimeLabelExamples()
    ensures TimeLabel(9, 5) == "09:05" && TimeLabel(23, 59) == "23:59"
  {
    assert NatToString(9) == "9" && NatToString(5) == "5";
    assert NatToString(23) == NatToString(2) + "3" == "23";
    assert NatToString(59) == NatToString(5) + "9" == "59";
    assert PadStart2("9") == "09" && PadStart2("5") == "05";
  }

  /** The point a tick appends: the last point's values nudged by the draws and clamped, stamped with the time. */
  function NextPoint(last: Telemetry, stamp: string, readinessDraw: real, threatDraw: real): (p: Telemetry)
    ensures InRange(p) && p.name == stamp
    ensures p.readiness == Min(100.0, Max(70.0, last.readiness + (readinessDraw - 0.5) * 5.0))
    ensures p.threats == Max(0.0, Min(50.0, last.threats + (threatDraw - 0.5) * 4.0))
  {
    Telemetry(stamp, Min(100.0, Max(70.0, last.readiness + (readinessDraw - 0.5) * 5.0)),
              Max(0.0, Min(50.0, last.threats + (threatDraw - 0.5) * 4.0)))
  }

  /** `[...prev.slice(1), point]`: the oldest point leaves and the new one joins at the end. */
  function Slide(prev: seq<Telemetry>, point: Telemetry): (r: seq<Telemetry>)
    requires |prev| > 0
    ensures |r| == |prev|
    ensures forall k :: 0 <= k < |prev| - 1 ==> r[k] == prev[k + 1]
    ensures r[|r| - 1] == point
  {
    prev[1..] + [point]
  }

  /** The two-second telemetry tick on a non-empty window (the source reads its last point). */
  function TelemetryTick(prev: seq<Telemetry>, hours: nat, minutes: nat, readinessDraw: real, threatDraw: real): (r: seq<Telemetry>)
    requires |prev| > 0
    ensures |r| == |prev| && r[..|r| - 1] == prev[1..]
    ensures r[|r| - 1] == NextPoint(prev[|prev| - 1], TimeLabel(hours, minutes), readinessDraw, threatDraw)
  {
    Slide(prev, NextPoint(prev[|prev| - 1], TimeLabel(hours, minutes), readinessDraw, threatDraw))
  }

  /** Ticks keep every point of a window that starts in range within range. */
  lemma TickKeepsRanges(prev: seq<Telemetry>, hours: nat, minutes: nat, readinessDraw: real, threatDraw: real)
    requires |prev| > 0 && forall k :: 0 <= k < |prev| ==> InRange(prev[k])
    ensures forall k :: 0 <= k < |prev| ==> InRange(TelemetryTick(prev, hours, minutes, readinessDraw, threatDraw)[k])
  {
  }

  /** After a full window of ticks, none of the initial points remain: the window holds exactly the new points. */
  function TicksAfter(prev: seq<Telemetry>, points: seq<Telemetry>): (r: seq<Telemetry>)
    requires |prev| > 0
    ensures |r| == |prev|
    decreases |points|
  {
    if |points| == 0 then prev else TicksAfter(Slide(prev, points[0]), points[1..])
  }

  lemma {:induction false} TicksAfterIsSuffix(prev: seq<Telemetry>, points: seq<Telemetry>)
    requires |prev| > 0 && |points| <= |prev|
    ensures TicksAfter(prev, points) == prev[|points|..] + points
    decreases |points|
  {
    if |points| > 0 {
      var next := Slide(prev, points[0]);
      assert next == prev[1..] + [points[0]];
      TicksAfterIsSuffix(next, points[1..]);
      assert next[|points| - 1..] == prev[|points|..] + [points[0]];
      assert [points[0]] + points[1..] == points;
    }
  }

  // ---------------------------------------------------------------- forecast

  /** `forecast?.includes("offline") || forecast?.includes("unavailable")`, as written. */
  predicate IsForecastError(forecast: Option<string>) {
    forecast.Some? && (Includes(forecast.value, "offline") || Includes(forecast.value, "unavailable"))
  }

  /** The service's own failure text contains neither word, so a failed forecast is not shown as an error. */
  lemma FailedForecastNotFlagged()
    ensures !IsForecastError(Some(Forecast(AiService.Failed)))
  {
    NoticeLacksOffline();
    NoticeLacksUnavailable();
  }

  /** The notice has no lower-case 'f' and no 'u', letters that "offline" and "unavailable" need. */
  lemma NoticeLacksOffline()
    ensures !Includes(AiService.ConnectionFailedNotice, "offline")
  {
    NoticeLettersF();
    NotIncludesMissingChar(AiService.ConnectionFailedNotice, "offline", 1);
  }

  lemma NoticeLacksUnavailable()
    ensures !Includes(AiService.ConnectionFailedNotice, "unavailable")
  {
    NoticeLettersU();
    NotIncludesMissingChar(AiService.ConnectionFailedNotice, "unavailable", 0);
  }

  lemma NoticeLettersF()
    ensures 'f' !in AiService.ConnectionFailedNotice
  {
  }

  lemma NoticeLettersU()
    ensures 'u' !in AiService.ConnectionFailedNotice
  {
  }

  /** The error test the offline box was meant to have: it also recognises the service's failure notice. */
  predicate IsForecastFailure(forecast: Option<string>) {
    IsForecastError(forecast) || forecast == Some(AiService.ConnectionFailedNotice)
  }

  /** The corrected test flags every failed forecast, still flags what the written test flags, and leaves an answer without those words alone. */
  lemma ForecastFailureFlagged(reply: AiService.Transport, text: string)
    ensures reply.Failed? ==> IsForecastFailure(Some(Forecast(reply)))
    ensures IsForecastError(Some(text)) ==> IsForecastFailure(Some(text))
    ensures !Includes(text, "offline") && !Includes(text, "unavailable") && text != AiService.ConnectionFailedNotice ==>
      !IsForecastFailure(Some(text))
    ensures !IsForecastFailure(None)
  {
  }

  /** `getStrategicForecast`: a plain text call. */
  function Forecast(reply: AiService.Transport): (r: string)
    ensures reply.Failed? ==> r == AiService.ConnectionFailedNotice
    ensures reply.Replied? ==> r == reply.text.GetOr("")
  {
    AiService.GenerateContent(false, reply)
  }

  /** What the forecast box shows. */
  datatype ForecastBox = Scanning | OfflineNotice | ForecastText(text: Option<string>)

  /** The box as written: scanning while loading, the offline notice when the written test flags the text, else the text. */
  function ForecastShown(loading: bool, forecast: Option<string>): (r: ForecastBox)
    ensures loading <==> r == Scanning
    ensures r == OfflineNotice <==> !loading && IsForecastError(forecast)
    ensures r.ForecastText? ==> r.text == forecast
  {
    if loading then Scanning else if IsForecastError(forecast) then OfflineNotice else ForecastText(forecast)
  }

  /** The box with the corrected test, which also recognises the service's failure notice. */
  function ForecastShownCorrected(loading: bool, forecast: Option<string>): (r: ForecastBox)
    ensures loading <==> r == Scanning
    ensures r == OfflineNotice <==> !loading && IsForecastFailure(forecast)
    ensures r.ForecastText? ==> r.text == forecast
  {
    if loading then Scanning else if IsForecastFailure(forecast) then OfflineNotice else ForecastText(forecast)
  }

  /**
   * A failed forecast call is shown as its notice text as written and as the
   * offline box once corrected; for every other forecast the two boxes agree.
   */
  lemma FailedForecastShown(loading: bool, forecast: Option<string>)
    ensures ForecastShown(false, Some(Forecast(AiService.Failed))) == ForecastText(Some(AiService.ConnectionFailedNotice))
    ensures ForecastShownCorrected(false, Some(Forecast(AiService.Failed))) == OfflineNotice
    ensures forecast != Some(AiService.ConnectionFailedNotice) ==>
      ForecastShown(loading, forecast) == ForecastShownCorrected(loading, forecast)
  {
    FailedForecastNotFlagged();
  }

  // ---------------------------------------------------------------- location

  /** The outcome of the geolocation request: no API, an error, or a position already formatted to four places. */
  datatype Geolocation = NoGeolocation | PositionError | Position(latitude: string, longitude: string)

  function CoordsText(g: Geolocation): (r: string)
    ensures g.NoGeolocation? ==> r == "GPS N/A"
    ensures g.PositionError? ==> r == "GPS SIGNAL LOST"
    ensures g.Position? ==> StartsWith(r, g.latitude) && EndsWith(r, "°E")
  {
    match g
    case NoGeolocation => "GPS N/A"
    case PositionError => "GPS SIGNAL LOST"
    case Position(lat, lon) =>
      var r := lat + "°N, " + lon + "°E";
      assert r[..|lat|] == lat;
      assert r[|r| - 2..] == "°E";
      r
  }

  // ---------------------------------------------------------------- the panel

  class DashboardPanel {
    var sitRoomMode: bool
    var telemetry: seq<Telemetry>
    var forecast: Option<string>
    var loadingForecast: bool
    var userCoords: string

    /** The window always holds seven points, each in its chart range. */
    predicate Valid()
      reads this`telemetry
    {
      |telemetry| == WindowSize && forall k :: 0 <= k < |telemetry| ==> InRange(telemetry[k])
    }

    constructor ()
      ensures Valid()
      ensures !sitRoomMode && telemetry == InitialTelemetry && forecast.None? && !loadingForecast
      ensures userCoords == "Locating..."
    {
      sitRoomMode := false;
      telemetry := InitialTelemetry;
      forecast := None;
      loadingForecast := false;
      userCoords := "Locating...";
    }

    method SetSitRoom(on: bool)
      modifies this`sitRoomMode
      ensures sitRoomMode == on
    {
      sitRoomMode := on;
    }

    /** The telemetry interval: the window slides by one and stays valid. */
    method TickTelemetry(hours: nat, minutes: nat, readinessDraw: real, threatDraw: real)
      requires Valid()
      modifies this`telemetry
      ensures Valid()
      ensures telemetry == TelemetryTick(old(telemetry), hours, minutes, readinessDraw, threatDraw)
    {
      TickKeepsRanges(telemetry, hours, minutes, readinessDraw, threatDraw);
      telemetry := TelemetryTick(telemetry, hours, minutes, readinessDraw, threatDraw);
    }

    /** `handleRefreshForecast`. */
    method RefreshForecast(reply: AiService.Transport)
      modifies this`forecast, this`loadingForecast
      ensures forecast == Some(Forecast(reply)) && !loadingForecast
    {
      forecast := Some(Forecast(reply));
      loadingForecast := false;
    }

    /** The geolocation callbacks. */
    method Locate(g: Geolocation)
      modifies this`userCoords
      ensures userCoords == CoordsText(g)
    {
      userCoords := CoordsText(g);
    }
  }
}
