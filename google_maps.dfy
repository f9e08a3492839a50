/**
 * The map component: the worst-wins zone classifier over the built-in
 * incident sample, the component state it keeps (`crimeData`, `currentZone`,
 * the key flags) and the colour tables used to draw the incidents.
 *
 * The great-circle distance is not modelled numerically: every operation
 * takes the distance function as a parameter `dist`.
 */
module GoogleMaps {
  import opened Common

  /** One incident point of the sample dataset. */
  datatype CrimeDataPoint = CrimeDataPoint(
    lat: real,
    lng: real,
    state: string,
    district: string,
    totalCases: nat,
    avgCrimeRate: real,
    maxSeverity: nat,
    zoneType: Zone)

  function Position(p: CrimeDataPoint): Coordinate
  {
    Coordinate(p.lat, p.lng)
  }

  /** Distance in kilometres, supplied by the caller. */
  type Distance = (Coordinate, Coordinate) -> real

  /** Points strictly closer than this many kilometres count as nearby. */
  const NearRadiusKm: real := 10.0

  predicate IsNearby(dist: Distance, location: Coordinate, p: CrimeDataPoint)
  {
    dist(location, Position(p)) < NearRadiusKm
  }

  /** The `filter` step: the points of `data` within the near radius. */
  function NearbyPoints(dist: Distance, location: Coordinate, data: seq<CrimeDataPoint>): (nearby: seq<CrimeDataPoint>)
    ensures |nearby| <= |data|
    ensures forall p :: p in nearby <==> p in data && IsNearby(dist, location, p)
  {
    if data == [] then []
    else if IsNearby(dist, location, data[0]) then [data[0]] + NearbyPoints(dist, location, data[1..])
    else NearbyPoints(dist, location, data[1..])
  }

  /** Like `filter`, `NearbyPoints` keeps every occurrence of a nearby point, duplicates included. */
  lemma {:induction false} NearbyPointsCounts(dist: Distance, location: Coordinate, data: seq<CrimeDataPoint>)
    ensures forall p :: multiset(NearbyPoints(dist, location, data))[p]
                        == if IsNearby(dist, location, p) then multiset(data)[p] else 0
    decreases |data|
  {
    if data != [] {
      NearbyPointsCounts(dist, location, data[1..]);
      assert data == [data[0]] + data[1..];
    }
  }

  /** The `some` step: does any of `points` carry the label `wanted`? */
  function SomeLabelled(points: seq<CrimeDataPoint>, wanted: Zone): (found: bool)
    ensures found <==> exists p :: p in points && p.zoneType == wanted
  {
    if points == [] then false
    else points[0].zoneType == wanted || SomeLabelled(points[1..], wanted)
  }

  /** Some nearby point carries the label `wanted`. */
  ghost predicate NearbyWithLabel(dist: Distance, location: Coordinate, data: seq<CrimeDataPoint>, wanted: Zone)
  {
    exists p :: p in data && IsNearby(dist, location, p) && p.zoneType == wanted
  }

  /** Worst-wins classification of `location` against `data`. */
  function DetermineUserZone(dist: Distance, location: Coordinate, data: seq<CrimeDataPoint>): (zone: Zone)
    ensures zone == Danger <==> NearbyWithLabel(dist, location, data, Danger)
    ensures zone == Warning <==>
      !NearbyWithLabel(dist, location, data, Danger) && NearbyWithLabel(dist, location, data, Warning)
    ensures (forall p :: p in data ==> !IsNearby(dist, location, p)) ==> zone == Safe
  {
    var nearbyPoints := NearbyPoints(dist, location, data);
    if |nearbyPoints| == 0 then Safe
    else
      var highRiskNearby := SomeLabelled(nearbyPoints, Danger);
      var mediumRiskNearby := SomeLabelled(nearbyPoints, Warning);
      if highRiskNearby then Danger
      else if mediumRiskNearby then Warning
      else Safe
  }

  /** The set of labels carried by the nearby points. */
  ghost function NearbyLabels(dist: Distance, location: Coordinate, data: seq<CrimeDataPoint>): set<Zone>
  {
    set p | p in data && IsNearby(dist, location, p) :: p.zoneType
  }

  /**
   * Worst-wins as a maximum: the result ranks at least as high as every
   * nearby label, and it is either one of those labels or `safe`.
   */
  lemma ZoneIsWorstNearbyLabel(dist: Distance, location: Coordinate, data: seq<CrimeDataPoint>)
    ensures forall z :: z in NearbyLabels(dist, location, data) ==> Rank(z) <= Rank(DetermineUserZone(dist, location, data))
    ensures DetermineUserZone(dist, location, data) == Safe
         || DetermineUserZone(dist, location, data) in NearbyLabels(dist, location, data)
  {
    var zone := DetermineUserZone(dist, location, data);
    var labels := NearbyLabels(dist, location, data);
    forall z | z in labels
      ensures Rank(z) <= Rank(zone)
    {
      var p :| p in data && IsNearby(dist, location, p) && p.zoneType == z;
      assert NearbyWithLabel(dist, location, data, z);
    }
    if zone != Safe {
      var p :| p in data && IsNearby(dist, location, p) && p.zoneType == zone;
      assert p.zoneType in labels;
    }
  }

  /**
   * Only the labels present among nearby points matter: neither their order,
   * their exact distances, nor the points outside the radius.
   */
  lemma SameNearbyLabelsSameZone(dist1: Distance, location1: Coordinate, data1: seq<CrimeDataPoint>,
                                 dist2: Distance, location2: Coordinate, data2: seq<CrimeDataPoint>)
    requires NearbyLabels(dist1, location1, data1) == NearbyLabels(dist2, location2, data2)
    ensures DetermineUserZone(dist1, location1, data1) == DetermineUserZone(dist2, location2, data2)
  {
    forall wanted
      ensures NearbyWithLabel(dist1, location1, data1, wanted) <==> NearbyWithLabel(dist2, location2, data2, wanted)
    {
      LabelPresent(dist1, location1, data1, wanted);
      LabelPresent(dist2, location2, data2, wanted);
    }
  }

  lemma LabelPresent(dist: Distance, location: Coordinate, data: seq<CrimeDataPoint>, wanted: Zone)
    ensures NearbyWithLabel(dist, location, data, wanted) <==> wanted in NearbyLabels(dist, location, data)
  {
    if wanted in NearbyLabels(dist, location, data) {
      var p :| p in data && IsNearby(dist, location, p) && p.zoneType == wanted;
    }
  }

  /** Reordering the dataset never changes the classification. */
  lemma PermutationKeepsZone(dist: Distance, location: Coordinate, data1: seq<CrimeDataPoint>, data2: seq<CrimeDataPoint>)
    requires multiset(data1) == multiset(data2)
    ensures DetermineUserZone(dist, location, data1) == DetermineUserZone(dist, location, data2)
  {
    forall p
      ensures p in data1 <==> p in data2
    {
      assert p in data1 <==> p in multiset(data1);
      assert p in data2 <==> p in multiset(data2);
    }
    assert NearbyLabels(dist, location, data1) == NearbyLabels(dist, location, data2);
    SameNearbyLabelsSameZone(dist, location, data1, dist, location, data2);
  }

  /** A point at 10 km or more, inserted anywhere, never changes the classification. */
  lemma FarPointIgnored(dist: Distance, location: Coordinate, data: seq<CrimeDataPoint>, i: nat, far: CrimeDataPoint)
    requires i <= |data|
    requires dist(location, Position(far)) >= NearRadiusKm
    ensures DetermineUserZone(dist, location, data[..i] + [far] + data[i..]) == DetermineUserZone(dist, location, data)
  {
    var extended := data[..i] + [far] + data[i..];
    forall p
      ensures p in extended <==> p in data || p == far
    {
      assert data == data[..i] + data[i..];
    }
    assert NearbyLabels(dist, location, extended) == NearbyLabels(dist, location, data);
    SameNearbyLabelsSameZone(dist, location, extended, dist, location, data);
  }

  /** One nearby danger point decides the result, whatever else is nearby. */
  lemma NearbyDangerWins(dist: Distance, location: Coordinate, data: seq<CrimeDataPoint>, i: nat)
    requires i < |data|
    requires IsNearby(dist, location, data[i]) && data[i].zoneType == Danger
    ensures DetermineUserZone(dist, location, data) == Danger
  {
    assert data[i] in data;
  }

  /** The incident sample loaded by the component. */
  const SampleCrimeData: seq<CrimeDataPoint> := [
    CrimeDataPoint(28.6139, 77.209, "Delhi", "New Delhi", 1200, 85.7, 5, Danger),
    CrimeDataPoint(28.5355, 77.249, "Delhi", "South Delhi", 45, 1.7, 5, Danger),
    CrimeDataPoint(28.7041, 77.1025, "Delhi", "North Delhi", 890, 98.9, 4, Danger),
    CrimeDataPoint(19.076, 72.8777, "Maharashtra", "Mumbai City", 800, 6.5, 4, Warning),
    CrimeDataPoint(19.1136, 72.8697, "Maharashtra", "Mumbai Suburban", 456, 4.9, 2, Safe),
    CrimeDataPoint(12.9716, 77.5946, "Karnataka", "Bengaluru Urban", 456, 5.4, 3, Safe),
    CrimeDataPoint(13.0827, 80.2707, "Tamil Nadu", "Chennai", 234, 5.0, 3, Safe),
    CrimeDataPoint(22.5726, 88.3639, "West Bengal", "Kolkata", 345, 7.7, 3, Warning),
    CrimeDataPoint(17.385, 78.4867, "Telangana", "Hyderabad", 234, 3.4, 2, Safe),
    CrimeDataPoint(26.9124, 75.7873, "Rajasthan", "Jaipur", 456, 14.7, 4, Warning),
    CrimeDataPoint(26.8467, 80.9462, "Uttar Pradesh", "Lucknow", 567, 20.3, 4, Danger)
  ]

  /** The mount-time key test: a missing, empty or placeholder key counts as absent. */
  function HasApiKey(apiKey: Option<string>): (present: bool)
    ensures apiKey == None ==> !present
    ensures apiKey == Some("") ==> !present
    ensures apiKey.Some? && IsPlaceholderKey(apiKey.value) ==> !present
    ensures apiKey.Some? && apiKey.value != "" && !IsPlaceholderKey(apiKey.value) ==> present
  {
    !(apiKey.None? || apiKey.value == "" || IsPlaceholderKey(apiKey.value))
  }

  const MissingKeyError: string := "Google Maps API key not configured"

  const DangerColor: string := "#EF4444"
  const WarningColor: string := "#F59E0B"
  const SafeColor: string := "#10B981"
  const UnknownColor: string := "#6B7280"

  /** Colour of the info-window badge for a zone label; labels outside the three get gray. */
  function GetZoneColor(zoneType: string): (color: string)
    ensures color == UnknownColor <==> zoneType !in {"danger", "warning", "safe"}
    ensures forall z :: zoneType == ZoneName(z) ==> color == ZoneColor(z)
  {
    match zoneType
    case "danger" => DangerColor
    case "warning" => WarningColor
    case "safe" => SafeColor
    case _ => UnknownColor
  }

  /** The colour each of the three zones is drawn in. */
  function ZoneColor(z: Zone): (color: string)
    ensures color != UnknownColor
  {
    match z
    case Danger => DangerColor
    case Warning => WarningColor
    case Safe => SafeColor
  }

  /** Distinct zones are drawn in distinct colours. */
  lemma ZoneColorsDistinct(a: Zone, b: Zone)
    ensures ZoneColor(a) == ZoneColor(b) <==> a == b
  {
  }

  /** Fill colour of an incident marker; anything but danger or warning is green. */
  function MarkerColor(zoneType: string): (color: string)
    ensures zoneType in {"danger", "warning", "safe"} ==> color == GetZoneColor(zoneType)
    ensures zoneType !in {"danger", "warning"} ==> color == ZoneColor(Safe)
  {
    if zoneType == "danger" then DangerColor
    else if zoneType == "warning" then WarningColor
    else SafeColor
  }

  const ScriptLoadError: string := "Failed to load Google Maps API"
  const BillingError: string := "Google Maps API billing not enabled"

  /** How the Maps script answers once `loadGoogleMaps` has asked for it. */
  datatype ScriptEvent =
    | ScriptReady   // `initGoogleMap`, or `window.google` already present
    | ScriptError   // the script's `onerror`
    | AuthFailure   // `gm_authFailure`

  /**
   * The component's state. `zoneNotifications` records, in order, every
   * value handed to the `onZoneChange` callback.
   *
   * The mount effect runs once (its dependency list is empty), and the
   * `loadCrimeDataAndDetermineZone` it calls, directly or from the script
   * callbacks it installs, is the one of the first render. It therefore sees
   * the `userLocation` prop as it was at mount, kept here as `mountLocation`;
   * later values of the prop are stored in `userLocation` but never classified.
   */
  class MapComponent {
    const mountLocation: Option<Coordinate>
    var userLocation: Option<Coordinate>
    var hasApiKey: bool
    var isLoaded: bool
    var billingError: bool
    var apiError: Option<string>
    var crimeData: seq<CrimeDataPoint>
    var currentZone: Zone
    var zoneNotifications: seq<Zone>

    /** The stored zone is always the last value reported to the parent. */
    ghost predicate Valid()
      reads this
    {
      zoneNotifications != [] ==> currentZone == zoneNotifications[|zoneNotifications| - 1]
    }

    /** The first render, with the prop as the parent passes it. */
    constructor (userLocation: Option<Coordinate>)
      ensures Valid()
      ensures mountLocation == userLocation && this.userLocation == userLocation
      ensures !hasApiKey && !isLoaded && !billingError && apiError == None
      ensures crimeData == [] && currentZone == Safe && zoneNotifications == []
    {
      mountLocation := userLocation;
      this.userLocation := userLocation;
      hasApiKey := false;
      isLoaded := false;
      billingError := false;
      apiError := None;
      crimeData := [];
      currentZone := Safe;
      zoneNotifications := [];
    }

    /** Load the sample; classify and report only when a location was known at mount. */
    method LoadCrimeDataAndDetermineZone(dist: Distance)
      requires Valid()
      modifies this`crimeData, this`currentZone, this`zoneNotifications
      ensures Valid()
      ensures crimeData == SampleCrimeData
      ensures mountLocation == None ==>
        currentZone == old(currentZone) && zoneNotifications == old(zoneNotifications)
      ensures mountLocation.Some? ==>
        && currentZone == DetermineUserZone(dist, mountLocation.value, SampleCrimeData)
        && zoneNotifications == old(zoneNotifications) + [currentZone]
    {
      crimeData := SampleCrimeData;
      if mountLocation.Some? {
        var zone := DetermineUserZone(dist, mountLocation.value, SampleCrimeData);
        currentZone := zone;
        zoneNotifications := zoneNotifications + [zone];
      }
    }

    /**
     * The mount effect. Without a usable key the component records the error
     * and falls back to the sample at once; with one it sets the flag and
     * waits for the script (`OnScriptEvent`).
     */
    method CheckApiKeyOnMount(dist: Distance, apiKey: Option<string>)
      requires Valid()
      modifies this`hasApiKey, this`apiError, this`crimeData, this`currentZone, this`zoneNotifications
      ensures Valid()
      ensures hasApiKey == HasApiKey(apiKey)
      ensures !hasApiKey ==>
        && apiError == Some(MissingKeyError)
        && crimeData == SampleCrimeData
        && (mountLocation.Some? ==>
              && currentZone == DetermineUserZone(dist, mountLocation.value, SampleCrimeData)
              && zoneNotifications == old(zoneNotifications) + [currentZone])
        && (mountLocation == None ==>
              currentZone == old(currentZone) && zoneNotifications == old(zoneNotifications))
      ensures hasApiKey ==>
        && apiError == old(apiError) && crimeData == old(crimeData)
        && currentZone == old(currentZone) && zoneNotifications == old(zoneNotifications)
    {
      if !HasApiKey(apiKey) {
        hasApiKey := false;
        apiError := Some(MissingKeyError);
        LoadCrimeDataAndDetermineZone(dist);
      } else {
        hasApiKey := true;
      }
    }

    /** The flags and message a script callback sets before it loads the sample. */
    method RecordScriptEvent(event: ScriptEvent)
      modifies this`isLoaded, this`billingError, this`apiError
      ensures isLoaded == (old(isLoaded) || event == ScriptReady)
      ensures billingError == (old(billingError) || event == AuthFailure)
      ensures apiError == match event
        case ScriptReady => old(apiError)
        case ScriptError => Some(ScriptLoadError)
        case AuthFailure => Some(BillingError)
    {
      match event {
        case ScriptReady =>
          isLoaded := true;
        case ScriptError =>
          apiError := Some(ScriptLoadError);
        case AuthFailure =>
          billingError := true;
          apiError := Some(BillingError);
      }
    }

    /** A script callback: record the outcome, then load and classify as at mount. */
    method OnScriptEvent(dist: Distance, event: ScriptEvent)
      requires Valid()
      modifies this`isLoaded, this`billingError, this`apiError, this`crimeData, this`currentZone, this`zoneNotifications
      ensures Valid()
      ensures isLoaded == (old(isLoaded) || event == ScriptReady)
      ensures billingError == (old(billingError) || event == AuthFailure)
      ensures apiError == match event
        case ScriptReady => old(apiError)
        case ScriptError => Some(ScriptLoadError)
        case AuthFailure => Some(BillingError)
      ensures crimeData == SampleCrimeData
      ensures mountLocation == None ==>
        currentZone == old(currentZone) && zoneNotifications == old(zoneNotifications)
      ensures mountLocation.Some? ==>
        && currentZone == DetermineUserZone(dist, mountLocation.value, SampleCrimeData)
        && zoneNotifications == old(zoneNotifications) + [currentZone]
    {
      RecordScriptEvent(event);
      LoadCrimeDataAndDetermineZone(dist);
    }

    /** The parent passes a new location: only the map drawing depends on it, nothing reclassifies. */
    method SetUserLocation(location: Option<Coordinate>)
      requires Valid()
      modifies this`userLocation
      ensures Valid()
      ensures userLocation == location
      ensures currentZone == old(currentZone) && zoneNotifications == old(zoneNotifications)
    {
      userLocation := location;
    }
  }

  /**
   * The dashboard's sequence: the map is mounted before any location is known,
   * the location arrives later, and the script answers. Whatever the key and
   * the answer, no zone is ever reported and the stored zone stays safe.
   */
  method LocationAfterMountNeverClassified(dist: Distance, apiKey: Option<string>, later: Coordinate, event: ScriptEvent)
    returns (component: MapComponent)
    ensures component.userLocation == Some(later)
    ensures component.zoneNotifications == [] && component.currentZone == Safe
    ensures component.crimeData == SampleCrimeData
  {
    component := new MapComponent(None);
    component.CheckApiKeyOnMount(dist, apiKey);
    component.SetUserLocation(Some(later));
    component.OnScriptEvent(dist, event);
  }
}
