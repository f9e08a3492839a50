/**
 * Values shared by the safety monitor's components: an optional value, a
 * geographic coordinate, the three-valued risk zone and the two placeholder
 * strings that stand for "no Google Maps key configured".
 */
module Common {

  datatype Option<+T> = None | Some(value: T)

  /** A (latitude, longitude) pair in decimal degrees. */
  datatype Coordinate = Coordinate(lat: real, lng: real)

  /** The zone label carried by incident points and reported to the dashboard. */
  datatype Zone = Safe | Warning | Danger

  /** The string the components use for a zone label. */
  function ZoneName(z: Zone): (name: string)
    ensures name in {"safe", "warning", "danger"}
  {
    match z
    case Safe => "safe"
    case Warning => "warning"
    case Danger => "danger"
  }

  /** The severity order safe < warning < danger used for worst-wins. */
  function Rank(z: Zone): (r: nat)
    ensures r <= 2
    ensures (r == 0 <==> z == Safe) && (r == 2 <==> z == Danger)
  {
    match z
    case Safe => 0
    case Warning => 1
    case Danger => 2
  }

  const GooglePlaceholderKey: string := "your_google_maps_api_key_here"
  const ActualPlaceholderKey: string := "your_actual_api_key_here"

  /** The two strings the setup guides tell users to replace with a real key. */
  predicate IsPlaceholderKey(key: string)
  {
    key == GooglePlaceholderKey || key == ActualPlaceholderKey
  }
}
