/**
 * The heat-map page's danger level: a two-tier test on planar distances in
 * degrees. High-severity records (4 and up) within 0.01 degree mean danger;
 * otherwise medium ones (2 up to, not including, 4) within 0.02 degree mean
 * warning; otherwise safe; and without a user location the level is unknown.
 *
 * Distances are compared squared: for d >= 0 and r > 0, sqrt(d) < r exactly
 * when d < r * r, so no square root is needed.
 */
module MapPage {
  import Common

  /** A record of the page's dataset; `severity` is a JavaScript number, so it may be fractional. */
  datatype CrimeRecord = CrimeRecord(lat: real, lng: real, severity: real)

  datatype DangerLevel = Unknown | Safe | Warning | Danger

  /** 0.01 degree, squared. */
  const HighRadiusSq: real := 0.0001
  /** 0.02 degree, squared. */
  const MediumRadiusSq: real := 0.0004

  function SquaredDistance(lat: real, lng: real, c: CrimeRecord): (d: real)
    ensures d >= 0.0
  {
    (lat - c.lat) * (lat - c.lat) + (lng - c.lng) * (lng - c.lng)
  }

  predicate IsHigh(c: CrimeRecord)
  {
    c.severity >= 4.0
  }

  predicate IsMedium(c: CrimeRecord)
  {
    2.0 <= c.severity < 4.0
  }

  /** `crimeData.filter(crime => crime.severity >= 4)`: every occurrence of a high record, no other. */
  function HighCrimeAreas(data: seq<CrimeRecord>): (areas: seq<CrimeRecord>)
    ensures |areas| <= |data|
    ensures forall c :: c in areas <==> c in data && IsHigh(c)
    ensures forall c :: multiset(areas)[c] == if IsHigh(c) then multiset(data)[c] else 0
  {
    if data == [] then []
    else
      assert data == [data[0]] + data[1..];
      if IsHigh(data[0]) then [data[0]] + HighCrimeAreas(data[1..])
      else HighCrimeAreas(data[1..])
  }

  /** `crimeData.filter(crime => crime.severity >= 2 && crime.severity < 4)`: every occurrence of a medium record, no other. */
  function MediumCrimeAreas(data: seq<CrimeRecord>): (areas: seq<CrimeRecord>)
    ensures |areas| <= |data|
    ensures forall c :: c in areas <==> c in data && IsMedium(c)
    ensures forall c :: multiset(areas)[c] == if IsMedium(c) then multiset(data)[c] else 0
  {
    if data == [] then []
    else
      assert data == [data[0]] + data[1..];
      if IsMedium(data[0]) then [data[0]] + MediumCrimeAreas(data[1..])
      else MediumCrimeAreas(data[1..])
  }

  /** The `for … of` search that returns as soon as one record is close enough. */
  function AnyWithin(areas: seq<CrimeRecord>, lat: real, lng: real, radiusSq: real): (found: bool)
    ensures found <==> exists c :: c in areas && SquaredDistance(lat, lng, c) < radiusSq
  {
    if areas == [] then false
    else if SquaredDistance(lat, lng, areas[0]) < radiusSq then true
    else AnyWithin(areas[1..], lat, lng, radiusSq)
  }

  ghost predicate HighNearby(lat: real, lng: real, data: seq<CrimeRecord>)
  {
    exists c :: c in data && IsHigh(c) && SquaredDistance(lat, lng, c) < HighRadiusSq
  }

  ghost predicate MediumNearby(lat: real, lng: real, data: seq<CrimeRecord>)
  {
    exists c :: c in data && IsMedium(c) && SquaredDistance(lat, lng, c) < MediumRadiusSq
  }

  /** `getDangerLevel(lat, lng)`, which also reads whether the page has a user location. */
  function GetDangerLevel(userLocation: Common.Option<Common.Coordinate>, lat: real, lng: real,
                          crimeData: seq<CrimeRecord>): (level: DangerLevel)
    ensures level == Unknown <==> userLocation == Common.None
    ensures userLocation.Some? ==> (level == Danger <==> HighNearby(lat, lng, crimeData))
    ensures userLocation.Some? ==>
      (level == Warning <==> !HighNearby(lat, lng, crimeData) && MediumNearby(lat, lng, crimeData))
    ensures userLocation.Some? ==>
      (level == Safe <==> !HighNearby(lat, lng, crimeData) && !MediumNearby(lat, lng, crimeData))
  {
    if userLocation.None? then Unknown
    else
      var highCrimeAreas := HighCrimeAreas(crimeData);
      var mediumCrimeAreas := MediumCrimeAreas(crimeData);
      if AnyWithin(highCrimeAreas, lat, lng, HighRadiusSq) then Danger
      else if AnyWithin(mediumCrimeAreas, lat, lng, MediumRadiusSq) then Warning
      else Safe
  }

  /** `currentDangerLevel`: the level at the user's own location, or unknown. */
  function CurrentDangerLevel(userLocation: Common.Option<Common.Coordinate>, crimeData: seq<CrimeRecord>): (level: DangerLevel)
    ensures level == Unknown <==> userLocation == Common.None
    ensures userLocation.Some? ==>
      (level == Danger <==> HighNearby(userLocation.value.lat, userLocation.value.lng, crimeData))
    ensures userLocation.Some? ==>
      (level == Warning <==> !HighNearby(userLocation.value.lat, userLocation.value.lng, crimeData)
                             && MediumNearby(userLocation.value.lat, userLocation.value.lng, crimeData))
    ensures userLocation.Some? ==>
      (level == Safe <==> !HighNearby(userLocation.value.lat, userLocation.value.lng, crimeData)
                          && !MediumNearby(userLocation.value.lat, userLocation.value.lng, crimeData))
  {
    if userLocation.Some? then GetDangerLevel(userLocation, userLocation.value.lat, userLocation.value.lng, crimeData)
    else Unknown
  }

  /** Two datasets with the same records of severity 2 and above give the same level, whatever their order. */
  lemma SameRecordsSameLevel(userLocation: Common.Option<Common.Coordinate>, lat: real, lng: real,
                             data1: seq<CrimeRecord>, data2: seq<CrimeRecord>)
    requires forall c :: c in data1 && c.severity >= 2.0 <==> c in data2 && c.severity >= 2.0
    ensures GetDangerLevel(userLocation, lat, lng, data1) == GetDangerLevel(userLocation, lat, lng, data2)
  {
    assert HighNearby(lat, lng, data1) <==> HighNearby(lat, lng, data2) by {
      if HighNearby(lat, lng, data1) {
        var c :| c in data1 && IsHigh(c) && SquaredDistance(lat, lng, c) < HighRadiusSq;
        assert c in data2;
      }
      if HighNearby(lat, lng, data2) {
        var c :| c in data2 && IsHigh(c) && SquaredDistance(lat, lng, c) < HighRadiusSq;
        assert c in data1;
      }
    }
    assert MediumNearby(lat, lng, data1) <==> MediumNearby(lat, lng, data2) by {
      if MediumNearby(lat, lng, data1) {
        var c :| c in data1 && IsMedium(c) && SquaredDistance(lat, lng, c) < MediumRadiusSq;
        assert c in data2;
      }
      if MediumNearby(lat, lng, data2) {
        var c :| c in data2 && IsMedium(c) && SquaredDistance(lat, lng, c) < MediumRadiusSq;
        assert c in data1;
      }
    }
  }

  /** A record of severity below 2, inserted anywhere, never changes the level. */
  lemma LowSeverityIgnored(userLocation: Common.Option<Common.Coordinate>, lat: real, lng: real,
                           data: seq<CrimeRecord>, i: nat, low: CrimeRecord)
    requires i <= |data|
    requires low.severity < 2.0
    ensures GetDangerLevel(userLocation, lat, lng, data[..i] + [low] + data[i..])
         == GetDangerLevel(userLocation, lat, lng, data)
  {
    var extended := data[..i] + [low] + data[i..];
    forall c
      ensures c in extended <==> c in data || c == low
    {
      assert data == data[..i] + data[i..];
    }
    SameRecordsSameLevel(userLocation, lat, lng, extended, data);
  }

  /**
   * A high-severity record 0.01 degree away or further counts for nothing,
   * even inside 0.02 degree: it is never tested against the medium radius.
   */
  lemma FarHighRecordIgnored(userLocation: Common.Option<Common.Coordinate>, lat: real, lng: real,
                             data: seq<CrimeRecord>, i: nat, high: CrimeRecord)
    requires i <= |data|
    requires IsHigh(high) && SquaredDistance(lat, lng, high) >= HighRadiusSq
    ensures GetDangerLevel(userLocation, lat, lng, data[..i] + [high] + data[i..])
         == GetDangerLevel(userLocation, lat, lng, data)
  {
    var extended := data[..i] + [high] + data[i..];
    forall c
      ensures c in extended <==> c in data || c == high
    {
      assert data == data[..i] + data[i..];
    }
    assert HighNearby(lat, lng, extended) <==> HighNearby(lat, lng, data) by {
      if HighNearby(lat, lng, extended) {
        var c :| c in extended && IsHigh(c) && SquaredDistance(lat, lng, c) < HighRadiusSq;
        assert c in data;
      }
    }
    assert MediumNearby(lat, lng, extended) <==> MediumNearby(lat, lng, data) by {
      if MediumNearby(lat, lng, extended) {
        var c :| c in extended && IsMedium(c) && SquaredDistance(lat, lng, c) < MediumRadiusSq;
        assert c in data;
      }
    }
  }

  /** With a location but no records, the level is safe. */
  lemma EmptyDataIsSafe(location: Common.Coordinate, lat: real, lng: real)
    ensures GetDangerLevel(Common.Some(location), lat, lng, []) == Safe
  {
  }

  /** Where the page falls back when geolocation fails (Times Square). */
  const FallbackLocation: Common.Coordinate := Common.Coordinate(40.7589, -73.9851)

  /** The records the page loads. */
  const SampleCrimeData: seq<CrimeRecord> := [
    CrimeRecord(40.7589, -73.9851, 5.0),
    CrimeRecord(40.7614, -73.9776, 4.0),
    CrimeRecord(40.7282, -73.7949, 2.0),
    CrimeRecord(40.6782, -73.9442, 1.0)
  ]

  /** The fallback location sits on the severity-5 Times Square record, so it is danger. */
  lemma FallbackLocationIsDanger()
    ensures CurrentDangerLevel(Common.Some(FallbackLocation), SampleCrimeData) == Danger
  {
    var timesSquare := SampleCrimeData[0];
    assert timesSquare in SampleCrimeData;
    assert SquaredDistance(FallbackLocation.lat, FallbackLocation.lng, timesSquare) == 0.0;
  }
}
