/**
 * The dashboard page: the dwell timer that counts seconds spent in a danger
 * zone and raises the emergency alert, the location handlers, the area
 * statistics and the display helpers.
 *
 * React's interval is modelled as an explicit `Tick` call and the browser
 * `alert` as a counter of alerts raised. The timer part of the page state is
 * also given as a value, `DwellState`, with one step function per event, so
 * that whole event sequences can be reasoned about.
 */
module Dashboard {
  import opened Common
  import GoogleMaps

  /** Seconds in danger after which every tick raises the alert. */
  const AlertThresholdSeconds: nat := 300

  /** The countdown is shown once the counter exceeds this many seconds. */
  const CountdownStartSeconds: nat := 240

  /** The location used when the user denies geolocation (central Delhi). */
  const DemoLocation: Coordinate := Coordinate(28.6139, 77.209)

  // ---------------------------------------------------------------------
  // Dwell timer as a value

  /** The page state the timer reads and writes; `alerts` counts alerts raised. */
  datatype DwellState = DwellState(dangerZone: Zone, isTracking: bool, timeInZone: nat, alerts: nat)

  const InitialDwell: DwellState := DwellState(Safe, false, 0, 0)

  /** The interval is running exactly when the zone is danger and tracking is on. */
  predicate Counting(s: DwellState)
  {
    s.dangerZone == Danger && s.isTracking
  }

  /** Whenever the interval is not running the counter reads 0. */
  predicate TimerInvariant(s: DwellState)
  {
    !Counting(s) ==> s.timeInZone == 0
  }

  /**
   * The effect keyed on (dangerZone, isTracking): it runs again only when one
   * of them changed, and then either starts an interval or clears the counter.
   */
  function RerunEffect(before: DwellState, after: DwellState): (s: DwellState)
    ensures s.dangerZone == after.dangerZone && s.isTracking == after.isTracking && s.alerts == after.alerts
    ensures s.timeInZone == after.timeInZone || s.timeInZone == 0
    ensures (before.dangerZone != after.dangerZone || before.isTracking != after.isTracking) ==> TimerInvariant(s)
    ensures Counting(after) ==> s.timeInZone == after.timeInZone
    ensures before.dangerZone == after.dangerZone && before.isTracking == after.isTracking ==> s == after
  {
    if before.dangerZone == after.dangerZone && before.isTracking == after.isTracking then after
    else if Counting(after) then after
    else after.(timeInZone := 0)
  }

  /** One interval callback: count a second, and alert once the new value reaches the threshold. */
  function TickStep(s: DwellState): (r: DwellState)
    ensures r.dangerZone == s.dangerZone && r.isTracking == s.isTracking
    ensures !Counting(s) ==> r == s
    ensures Counting(s) ==> r.timeInZone == s.timeInZone + 1
    ensures r.alerts == s.alerts || r.alerts == s.alerts + 1
    ensures r.alerts == s.alerts + 1 <==> Counting(s) && r.timeInZone >= AlertThresholdSeconds
    ensures TimerInvariant(s) ==> TimerInvariant(r)
  {
    if Counting(s) then
      var newTime := s.timeInZone + 1;
      s.(timeInZone := newTime, alerts := if newTime >= AlertThresholdSeconds then s.alerts + 1 else s.alerts)
    else s
  }

  /** `handleZoneChange`: store the zone, clear the counter for any zone but danger. */
  function ZoneChangeStep(s: DwellState, zone: Zone): (r: DwellState)
    ensures r.dangerZone == zone && r.isTracking == s.isTracking && r.alerts == s.alerts
    ensures zone != Danger ==> r.timeInZone == 0
    ensures zone == Danger && TimerInvariant(s) ==> r.timeInZone == s.timeInZone
    ensures TimerInvariant(s) ==> TimerInvariant(r)
  {
    RerunEffect(s, s.(dangerZone := zone, timeInZone := if zone != Danger then 0 else s.timeInZone))
  }

  /** `handleLocationGranted` switches tracking on. */
  function GrantedStep(s: DwellState): (r: DwellState)
    ensures r.isTracking && r.dangerZone == s.dangerZone && r.alerts == s.alerts
    ensures TimerInvariant(s) ==> r == s.(isTracking := true)
    ensures TimerInvariant(s) ==> TimerInvariant(r)
  {
    RerunEffect(s, s.(isTracking := true))
  }

  /** What reaches the page, in arrival order. */
  datatype Event = Tick | ZoneChange(zone: Zone) | LocationGranted(location: Coordinate) | LocationDenied(error: string)

  /** The effect of one event on the timer state (a denial leaves it alone). */
  function Step(s: DwellState, e: Event): (r: DwellState)
    ensures r.alerts >= s.alerts
    ensures TimerInvariant(s) ==> TimerInvariant(r)
  {
    match e
    case Tick => TickStep(s)
    case ZoneChange(zone) => ZoneChangeStep(s, zone)
    case LocationGranted(_) => GrantedStep(s)
    case LocationDenied(_) => s
  }

  function Run(s: DwellState, events: seq<Event>): DwellState
    decreases |events|
  {
    if events == [] then s else Run(Step(s, events[0]), events[1..])
  }

  /** `n` interval ticks in a row. */
  function Ticks(n: nat): (events: seq<Event>)
    ensures |events| == n && forall e :: e in events ==> e == Tick
  {
    if n == 0 then [] else [Tick] + Ticks(n - 1)
  }

  lemma {:induction false} RunAppend(s: DwellState, a: seq<Event>, b: seq<Event>)
    ensures Run(s, a + b) == Run(Run(s, a), b)
    decreases a
  {
    if a == [] {
      assert a + b == b;
    } else {
      assert (a + b)[1..] == a[1..] + b;
      RunAppend(Step(s, a[0]), a[1..], b);
    }
  }

  /** No event sequence breaks the timer invariant, and alerts are never taken back. */
  lemma {:induction false} RunKeepsInvariant(s: DwellState, events: seq<Event>)
    requires TimerInvariant(s)
    ensures TimerInvariant(Run(s, events))
    ensures Run(s, events).alerts >= s.alerts
    decreases events
  {
    if events != [] {
      RunKeepsInvariant(Step(s, events[0]), events[1..]);
    }
  }

  /** How many of the counter values t+1 .. t+n reach the threshold. */
  function AlertsAlong(t: nat, n: nat): (count: nat)
    ensures count <= n
    ensures t + n < AlertThresholdSeconds ==> count == 0
    ensures t >= AlertThresholdSeconds ==> count == n
  {
    if t + n < AlertThresholdSeconds then 0
    else if t + 1 >= AlertThresholdSeconds then n
    else t + n - (AlertThresholdSeconds - 1)
  }

  /**
   * While the interval runs, `n` ticks raise the counter by exactly `n` and
   * fire one alert for every new value at or above the threshold: there is
   * no fired-once flag.
   */
  lemma {:induction false} DangerTicks(t: nat, a: nat, n: nat)
    ensures Run(DwellState(Danger, true, t, a), Ticks(n)) == DwellState(Danger, true, t + n, a + AlertsAlong(t, n))
    decreases n
  {
    if n > 0 {
      var next := TickStep(DwellState(Danger, true, t, a));
      assert Ticks(n)[1..] == Ticks(n - 1);
      DangerTicks(t + 1, next.alerts, n - 1);
    }
  }

  /** From a cleared counter, `n` danger ticks fire max(0, n - 299) alerts. */
  lemma DangerTicksFromZero(a: nat, n: nat)
    ensures Run(DwellState(Danger, true, 0, a), Ticks(n))
         == DwellState(Danger, true, n, a + if n < AlertThresholdSeconds then 0 else n - (AlertThresholdSeconds - 1))
  {
    DangerTicks(0, a, n);
  }

  /** 301 ticks in danger leave the counter at 301 after two alerts (at 300 and at 301). */
  lemma ThreeHundredOneTicks()
    ensures Run(DwellState(Danger, true, 0, 0), Ticks(301)) == DwellState(Danger, true, 301, 2)
  {
    DangerTicksFromZero(0, 301);
  }

  /**
   * 150 danger ticks, a switch to safe and back, then 200 danger ticks: the
   * switch clears the counter, which ends at 200, and no alert fires.
   */
  lemma ResetBeforeThreshold()
    ensures Run(DwellState(Danger, true, 0, 0), Ticks(150) + [ZoneChange(Safe), ZoneChange(Danger)] + Ticks(200))
         == DwellState(Danger, true, 200, 0)
  {
    var start := DwellState(Danger, true, 0, 0);
    DangerTicks(0, 0, 150);
    RunAppend(start, Ticks(150), [ZoneChange(Safe), ZoneChange(Danger)]);
    var switched := Run(DwellState(Danger, true, 150, 0), [ZoneChange(Safe), ZoneChange(Danger)]);
    assert switched == DwellState(Danger, true, 0, 0);
    RunAppend(start, Ticks(150) + [ZoneChange(Safe), ZoneChange(Danger)], Ticks(200));
    DangerTicks(0, 0, 200);
  }

  /**
   * After a denial tracking is never switched on, so as long as no grant
   * arrives the counter stays 0 and no alert fires, whatever the zone does.
   */
  lemma {:induction false} UntrackedNeverAlerts(s: DwellState, events: seq<Event>)
    requires !s.isTracking && s.timeInZone == 0
    requires forall e :: e in events ==> !e.LocationGranted?
    ensures Run(s, events).timeInZone == 0 && Run(s, events).alerts == s.alerts
    ensures !Run(s, events).isTracking
    decreases events
  {
    if events != [] {
      assert events[0] in events;
      var next := Step(s, events[0]);
      assert !next.isTracking && next.timeInZone == 0 && next.alerts == s.alerts;
      forall e | e in events[1..]
        ensures !e.LocationGranted?
      {
        assert e in events;
      }
      UntrackedNeverAlerts(next, events[1..]);
    }
  }

  // ---------------------------------------------------------------------
  // Area statistics

  datatype CrimeStats = CrimeStats(totalIncidents: nat, againstWomen: nat, thisMonth: nat, nearbyRisk: string)

  const InitialCrimeStats: CrimeStats := CrimeStats(0, 0, 0, "low")
  const HighRiskStats: CrimeStats := CrimeStats(2847, 1856, 89, "high")
  const MediumRiskStats: CrimeStats := CrimeStats(1234, 789, 34, "medium")

  /** The Delhi box, every bound strict. */
  predicate IsHighRiskArea(location: Coordinate)
  {
    28.5 < location.lat < 28.8 && 77.0 < location.lng < 77.3
  }

  function LoadCrimeStatistics(location: Coordinate): (stats: CrimeStats)
    ensures stats.nearbyRisk == "high" <==> IsHighRiskArea(location)
    ensures stats == HighRiskStats || stats == MediumRiskStats
    ensures stats.totalIncidents > MediumRiskStats.totalIncidents <==> IsHighRiskArea(location)
  {
    if IsHighRiskArea(location) then HighRiskStats else MediumRiskStats
  }

  /**
   * The demo location is inside the Delhi box, and it lies on the New Delhi
   * incident point of the map sample, so the map classifies it as danger.
   */
  lemma DemoLocationIsDanger(dist: GoogleMaps.Distance)
    requires dist(DemoLocation, DemoLocation) == 0.0
    ensures IsHighRiskArea(DemoLocation)
    ensures LoadCrimeStatistics(DemoLocation).nearbyRisk == "high"
    ensures GoogleMaps.DetermineUserZone(dist, DemoLocation, GoogleMaps.SampleCrimeData) == Danger
  {
    var newDelhi := GoogleMaps.SampleCrimeData[0];
    assert GoogleMaps.Position(newDelhi) == DemoLocation;
    GoogleMaps.NearbyDangerWins(dist, DemoLocation, GoogleMaps.SampleCrimeData, 0);
  }

  // ---------------------------------------------------------------------
  // Display helpers

  function DigitChar(d: nat): (c: char)
    requires d < 10
    ensures '0' <= c <= '9' && c as int - '0' as int == d
  {
    ('0' as int + d) as char
  }

  predicate IsDigits(s: string)
  {
    forall i :: 0 <= i < |s| ==> '0' <= s[i] <= '9'
  }

  /** Decimal value of a string of digits. */
  function ParseNat(s: string): nat
    requires IsDigits(s)
  {
    if s == [] then 0 else ParseNat(s[..|s| - 1]) * 10 + (s[|s| - 1] as int - '0' as int)
  }

  /** The decimal text of `n`, as `toString` gives it for a non-negative integer. */
  function NatToString(n: nat): (s: string)
    ensures |s| >= 1 && IsDigits(s)
    ensures n < 10 <==> |s| == 1
    ensures n >= 1 ==> s[0] != '0'
  {
    if n < 10 then [DigitChar(n)] else NatToString(n / 10) + [DigitChar(n % 10)]
  }

  lemma {:induction false} ParseNatToString(n: nat)
    ensures ParseNat(NatToString(n)) == n
  {
    var s := NatToString(n);
    if n >= 10 {
      assert s[..|s| - 1] == NatToString(n / 10);
      ParseNatToString(n / 10);
    } else {
      assert s[..|s| - 1] == [];
    }
  }

  /** `padStart(2, "0")`. */
  function PadStart2(s: string): (padded: string)
    ensures |padded| == if |s| >= 2 then |s| else 2
    ensures padded[|padded| - |s|..] == s
    ensures forall i :: 0 <= i < |padded| - |s| ==> padded[i] == '0'
  {
    if |s| >= 2 then s
    else
      var zeros := seq(2 - |s|, _ => '0');
      assert (zeros + s)[|zeros|..] == s;
      zeros + s
  }

  lemma TwoDigitSeconds(secs: nat)
    requires secs < 60
    ensures |PadStart2(NatToString(secs))| == 2
    ensures IsDigits(PadStart2(NatToString(secs)))
    ensures ParseNat(PadStart2(NatToString(secs))) == secs
  {
    var digits := NatToString(secs);
    var padded := PadStart2(digits);
    ParseNatToString(secs);
    if secs < 10 {
      assert padded == ['0'] + digits;
      assert padded[..1] == ['0'];
    } else {
      assert padded == digits;
    }
  }

  lemma SplitAtColon(minsText: string, secsText: string)
    requires |secsText| == 2
    ensures var text := minsText + ":" + secsText;
      && text[|text| - 3] == ':' && text[..|text| - 3] == minsText && text[|text| - 2..] == secsText
  {
  }

  /**
   * `m:ss`: the minutes, a colon and the seconds as two digits; reading the
   * two numbers back gives minutes * 60 + seconds == the input.
   */
  function FormatTime(seconds: nat): (text: string)
    ensures |text| >= 4 && text[|text| - 3] == ':'
    ensures IsDigits(text[..|text| - 3]) && IsDigits(text[|text| - 2..])
    ensures ParseNat(text[|text| - 2..]) < 60
    ensures ParseNat(text[..|text| - 3]) * 60 + ParseNat(text[|text| - 2..]) == seconds
    ensures |text| == 4 || text[0] != '0'
  {
    var mins := seconds / 60;
    var secs := seconds % 60;
    var minsText := NatToString(mins);
    var secsText := PadStart2(NatToString(secs));
    TwoDigitSeconds(secs);
    ParseNatToString(mins);
    SplitAtColon(minsText, secsText);
    minsText + ":" + secsText
  }

  const UnknownZoneColor: string := "bg-gray-500"

  /** Badge colour for a zone label; unknown labels get gray. */
  function GetZoneColor(zone: string): (color: string)
    ensures color == UnknownZoneColor <==> zone !in {"safe", "warning", "danger"}
  {
    match zone
    case "safe" => "bg-green-500"
    case "warning" => "bg-yellow-500"
    case "danger" => "bg-red-500"
    case _ => UnknownZoneColor
  }

  /** Badge text for a zone label; unknown labels read "Unknown". */
  function GetZoneText(zone: string): (text: string)
    ensures text == "Unknown" <==> zone !in {"safe", "warning", "danger"}
  {
    match zone
    case "safe" => "Safe Zone"
    case "warning" => "Caution Zone"
    case "danger" => "Danger Zone"
    case _ => "Unknown"
  }

  /** The two tables distinguish the three zones and agree on what is unknown. */
  lemma ZoneTablesAgree(zone: string)
    ensures GetZoneText(zone) == "Unknown" <==> GetZoneColor(zone) == UnknownZoneColor
    ensures forall a: Zone, b: Zone :: GetZoneText(ZoneName(a)) == GetZoneText(ZoneName(b)) ==> a == b
    ensures forall a: Zone, b: Zone :: GetZoneColor(ZoneName(a)) == GetZoneColor(ZoneName(b)) ==> a == b
  {
  }

  const UnknownRiskColor: string := "text-gray-600"

  function GetRiskColor(risk: string): (color: string)
    ensures color == UnknownRiskColor <==> risk !in {"high", "medium", "low"}
  {
    match risk
    case "high" => "text-red-600"
    case "medium" => "text-yellow-600"
    case "low" => "text-green-600"
    case _ => UnknownRiskColor
  }

  /**
   * The countdown line under the danger banner: present only in danger once
   * the counter exceeds 240 seconds, and then showing 300 minus the counter.
   */
  function CountdownSeconds(zone: string, timeInZone: nat): (shown: Option<int>)
    ensures shown.Some? <==> zone == "danger" && timeInZone > CountdownStartSeconds
    ensures shown.Some? ==> shown.value < AlertThresholdSeconds - CountdownStartSeconds
    ensures shown.Some? ==> shown.value + timeInZone == AlertThresholdSeconds
  {
    if zone == "danger" && timeInZone > CountdownStartSeconds then Some(AlertThresholdSeconds - timeInZone) else None
  }

  /** Nothing stops the counter at the threshold, so past 300 s the countdown is negative. */
  lemma CountdownNegativePastThreshold(timeInZone: nat)
    requires timeInZone > AlertThresholdSeconds
    ensures CountdownSeconds("danger", timeInZone).Some?
    ensures CountdownSeconds("danger", timeInZone).value < 0
  {
  }

  // ---------------------------------------------------------------------
  // The page

  class DashboardPage {
    var currentLocation: Option<Coordinate>
    var dangerZone: Zone
    var timeInZone: nat
    var isTracking: bool
    var locationPermissionGranted: bool
    var locationError: Option<string>
    var crimeStats: CrimeStats
    /** How many times the emergency alert has been raised. */
    var alertsRaised: nat

    /** The timer part of the state, as a value. */
    function Dwell(): DwellState
      reads this
    {
      DwellState(dangerZone, isTracking, timeInZone, alertsRaised)
    }

    ghost predicate Valid()
      reads this
    {
      TimerInvariant(Dwell())
    }

    constructor ()
      ensures Valid() && Dwell() == InitialDwell
      ensures currentLocation == None && !locationPermissionGranted && locationError == None
      ensures crimeStats == InitialCrimeStats
    {
      currentLocation := None;
      dangerZone := Safe;
      timeInZone := 0;
      isTracking := false;
      locationPermissionGranted := false;
      locationError := None;
      crimeStats := InitialCrimeStats;
      alertsRaised := 0;
    }

    /** Stands in for the browser alert: count it. */
    method TriggerEmergencyAlert()
      modifies this`alertsRaised
      ensures alertsRaised == old(alertsRaised) + 1
    {
      alertsRaised := alertsRaised + 1;
    }

    /** The effect keyed on dangerZone and isTracking, run after either changed. */
    method RunTimerEffect()
      modifies this`timeInZone
      ensures Valid()
      ensures timeInZone == if Counting(Dwell()) then old(timeInZone) else 0
    {
      if !(dangerZone == Danger && isTracking) {
        timeInZone := 0;
      }
    }

    /** One second of the interval; nothing happens when no interval is running. */
    method Tick() returns (alerted: bool)
      requires Valid()
      modifies this`timeInZone, this`alertsRaised
      ensures Valid()
      ensures Dwell() == TickStep(old(Dwell()))
      ensures alerted <==> alertsRaised == old(alertsRaised) + 1
    {
      alerted := false;
      if dangerZone == Danger && isTracking {
        var newTime := timeInZone + 1;
        if newTime >= AlertThresholdSeconds {
          TriggerEmergencyAlert();
          alerted := true;
        }
        timeInZone := newTime;
      }
    }

    method HandleZoneChange(zone: Zone)
      requires Valid()
      modifies this`dangerZone, this`timeInZone
      ensures Valid()
      ensures Dwell() == ZoneChangeStep(old(Dwell()), zone)
    {
      var previous := dangerZone;
      dangerZone := zone;
      if zone != Danger {
        timeInZone := 0;
      }
      if previous != zone {
        RunTimerEffect();
      }
    }

    method HandleLocationGranted(location: Coordinate)
      requires Valid()
      modifies this
      ensures Valid()
      ensures Dwell() == GrantedStep(old(Dwell()))
      ensures currentLocation == Some(location) && locationPermissionGranted && locationError == None
      ensures crimeStats == LoadCrimeStatistics(location)
    {
      var wasTracking := isTracking;
      currentLocation := Some(location);
      isTracking := true;
      locationPermissionGranted := true;
      locationError := None;
      crimeStats := LoadCrimeStatistics(location);
      if !wasTracking {
        RunTimerEffect();
      }
    }

    /** Fall back to the demo location; tracking is left as it was. */
    method HandleLocationDenied(error: string)
      requires Valid()
      modifies this`locationError, this`locationPermissionGranted, this`currentLocation, this`crimeStats
      ensures Valid()
      ensures Dwell() == old(Dwell())
      ensures locationError == Some(error) && !locationPermissionGranted
      ensures currentLocation == Some(DemoLocation)
      ensures crimeStats == LoadCrimeStatistics(DemoLocation) && crimeStats.nearbyRisk == "high"
    {
      locationError := Some(error);
      locationPermissionGranted := false;
      currentLocation := Some(DemoLocation);
      crimeStats := LoadCrimeStatistics(DemoLocation);
    }
  }
}
