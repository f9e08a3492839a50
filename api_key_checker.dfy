/**
 * The API-key status card: it reads the configured Google Maps key, decides
 * whether it is missing, a placeholder, or a real key that a probe request
 * accepts, masks it for display, and derives the badge text and colour.
 *
 * The key is a parameter (`None` when the environment variable is unset), and
 * the outcome of the probe request is a parameter too: the response either
 * arrives, with or without "error" in its URL, or the request throws.
 */
module ApiKeyChecker {
  import opened Common
  import GoogleMaps

  /** The component's `apiKeyStatus` record. */
  datatype ApiKeyStatus = ApiKeyStatus(
    keyExists: bool,
    isValid: bool,
    isDefault: bool,
    maskedKey: string,
    error: Option<string>)

  const InitialStatus: ApiKeyStatus := ApiKeyStatus(false, false, false, "", None)

  const NotFoundError: string :=
    "API key not found. Create .env.local file in project root with NEXT_PUBLIC_GOOGLE_MAPS_API_KEY=your_key_here"
  const PlaceholderError: string := "Using default placeholder API key"
  const RestrictedError: string := "API key may be invalid or restricted"
  const UnvalidatedError: string := "Unable to validate API key - check browser console for errors"
  const CheckFailedError: string := "Error checking API key status"

  /** What the `HEAD` request to the Maps script URL came back with. */
  datatype ProbeOutcome =
    | ProbeResponse(urlContainsError: bool)
    | ProbeFailed

  // ---------------------------------------------------------------------
  // Masking

  /** `"*".repeat(count)`, which throws a range error for a negative count. */
  function Repeat(count: int): (stars: Option<string>)
    ensures stars.None? <==> count < 0
    ensures stars.Some? ==> |stars.value| == count && forall i :: 0 <= i < count ==> stars.value[i] == '*'
  {
    if count < 0 then None else Some(seq(count, _ => '*'))
  }

  /**
   * The masked key: up to 8 characters become stars; longer keys keep their
   * first 8 and last 4 characters around `length - 12` stars. `None` is the
   * throw of `repeat` for lengths 9 to 11.
   */
  function Mask(key: string): (masked: Option<string>)
    ensures masked.None? <==> 8 < |key| < 12
    ensures masked.Some? ==> |masked.value| == |key|
    ensures |key| <= 8 ==> masked.Some? && forall i :: 0 <= i < |key| ==> masked.value[i] == '*'
    ensures |key| >= 12 ==>
      && masked.Some?
      && masked.value[..8] == key[..8]
      && masked.value[|key| - 4..] == key[|key| - 4..]
      && forall i :: 8 <= i < |key| - 4 ==> masked.value[i] == '*'
  {
    if |key| > 8 then
      match Repeat(|key| - 12)
      case None => None
      case Some(stars) => Some(key[..8] + stars + key[|key| - 4..])
    else
      Repeat(|key|)
  }

  /** The mask shows nothing of a short key but its length: equal lengths give equal masks. */
  lemma ShortKeysMaskAlike(key1: string, key2: string)
    requires |key1| == |key2| <= 8
    ensures Mask(key1) == Mask(key2)
  {
    var m1, m2 := Mask(key1).value, Mask(key2).value;
    assert forall i :: 0 <= i < |m1| ==> m1[i] == m2[i];
  }

  /**
   * The mask of a long key reveals only its length, its first 8 and its last 4
   * characters: keys that agree on those are masked alike.
   */
  lemma LongKeysMaskByEnds(key1: string, key2: string)
    requires |key1| == |key2| >= 12
    requires key1[..8] == key2[..8] && key1[|key1| - 4..] == key2[|key2| - 4..]
    ensures Mask(key1) == Mask(key2)
  {
    var m1, m2 := Mask(key1).value, Mask(key2).value;
    var n := |key1|;
    forall i | 0 <= i < n
      ensures m1[i] == m2[i]
    {
      if i < 8 {
        assert m1[i] == m1[..8][i] && m2[i] == m2[..8][i];
      } else if i >= n - 4 {
        assert m1[i] == m1[n - 4..][i - (n - 4)] && m2[i] == m2[n - 4..][i - (n - 4)];
      }
    }
  }

  // ---------------------------------------------------------------------
  // checkApiKey

  /** `!apiKey`: unset or empty. */
  predicate KeyMissing(apiKey: Option<string>)
  {
    apiKey.None? || apiKey.value == ""
  }

  /** The status `checkApiKey` settles on, for every key and every probe outcome. */
  function CheckResult(apiKey: Option<string>, probe: ProbeOutcome): (status: ApiKeyStatus)
    ensures KeyMissing(apiKey) ==> status == ApiKeyStatus(false, false, false, "", Some(NotFoundError))
    ensures !KeyMissing(apiKey) && 8 < |apiKey.value| < 12 ==>
      status == ApiKeyStatus(false, false, false, "", Some(CheckFailedError))
    ensures status.keyExists <==> !KeyMissing(apiKey) && Mask(apiKey.value).Some?
    ensures status.keyExists ==> status.maskedKey == Mask(apiKey.value).value
    ensures status.isDefault <==> apiKey.Some? && IsPlaceholderKey(apiKey.value)
    ensures status.isDefault ==> status.keyExists && !status.isValid && status.error == Some(PlaceholderError)
    ensures status.isValid <==> status.keyExists && !status.isDefault && probe == ProbeResponse(false)
    ensures status.error.None? <==> status.isValid
    ensures status.keyExists && !status.isDefault && probe == ProbeResponse(true) ==> status.error == Some(RestrictedError)
    ensures status.keyExists && !status.isDefault && probe.ProbeFailed? ==> status.error == Some(UnvalidatedError)
  {
    if KeyMissing(apiKey) then
      ApiKeyStatus(false, false, false, "", Some(NotFoundError))
    else
      var key := apiKey.value;
      match Mask(key)
      case None => ApiKeyStatus(false, false, false, "", Some(CheckFailedError))
      case Some(maskedKey) =>
        if IsPlaceholderKey(key) then
          ApiKeyStatus(true, false, true, maskedKey, Some(PlaceholderError))
        else
          match probe
          case ProbeResponse(urlContainsError) =>
            ApiKeyStatus(true, !urlContainsError, false, maskedKey,
                         if urlContainsError then Some(RestrictedError) else None)
          case ProbeFailed =>
            ApiKeyStatus(true, false, false, maskedKey, Some(UnvalidatedError))
  }

  /** The placeholders are long enough to be masked, so a placeholder key always reaches the placeholder test. */
  lemma PlaceholderKeysAreDefault(apiKey: string, probe: ProbeOutcome)
    requires IsPlaceholderKey(apiKey)
    ensures CheckResult(Some(apiKey), probe) == ApiKeyStatus(true, false, true, Mask(apiKey).value, Some(PlaceholderError))
  {
    assert |GooglePlaceholderKey| == 29 && |ActualPlaceholderKey| == 24;
  }

  /**
   * The map component and this card agree on which keys are usable, except
   * for keys of 9 to 11 characters, which the card's masking rejects.
   */
  lemma AgreesWithMapComponent(apiKey: Option<string>, probe: ProbeOutcome)
    requires apiKey.Some? ==> !(8 < |apiKey.value| < 12)
    ensures GoogleMaps.HasApiKey(apiKey) <==> CheckResult(apiKey, probe).keyExists && !CheckResult(apiKey, probe).isDefault
  {
  }

  /** A 9 to 11 character key the map component accepts is reported as not found here. */
  lemma MidLengthKeyDisagrees(apiKey: string, probe: ProbeOutcome)
    requires 8 < |apiKey| < 12
    ensures GoogleMaps.HasApiKey(Some(apiKey))
    ensures !CheckResult(Some(apiKey), probe).keyExists
  {
    assert |GooglePlaceholderKey| == 29 && |ActualPlaceholderKey| == 24;
  }

  // ---------------------------------------------------------------------
  // Badge

  /** `getStatusText`: missing beats placeholder, which beats valid. */
  function StatusText(status: ApiKeyStatus): (text: string)
    ensures text == "Not Found" <==> !status.keyExists
    ensures text == "Default Placeholder" <==> status.keyExists && status.isDefault
    ensures text == "Valid" <==> status.keyExists && !status.isDefault && status.isValid
    ensures text == "Needs Validation" <==> status.keyExists && !status.isDefault && !status.isValid
  {
    if !status.keyExists then "Not Found"
    else if status.isDefault then "Default Placeholder"
    else if status.isValid then "Valid"
    else "Needs Validation"
  }

  /** `getStatusColor`, the badge variant, with the same priority. */
  function StatusColor(status: ApiKeyStatus): (variant: string)
    ensures variant == "destructive" <==> !status.keyExists
    ensures variant == "default" <==> status.keyExists && !status.isDefault && status.isValid
    ensures variant == "secondary" <==> status.keyExists && (status.isDefault || !status.isValid)
  {
    if !status.keyExists then "destructive"
    else if status.isDefault then "secondary"
    else if status.isValid then "default"
    else "secondary"
  }

  /** The badge colour is a function of the badge text. */
  lemma ColorFollowsText(s1: ApiKeyStatus, s2: ApiKeyStatus)
    requires StatusText(s1) == StatusText(s2)
    ensures StatusColor(s1) == StatusColor(s2)
  {
  }

  /** After a check, the badge reads "Valid" exactly when a real key passed the probe. */
  lemma ValidBadgeAfterCheck(apiKey: Option<string>, probe: ProbeOutcome)
    ensures StatusText(CheckResult(apiKey, probe)) == "Valid"
        <==> apiKey.Some? && apiKey.value != "" && !IsPlaceholderKey(apiKey.value)
             && !(8 < |apiKey.value| < 12) && probe == ProbeResponse(false)
  {
  }

  // ---------------------------------------------------------------------
  // The component

  class ApiKeyCheckerCard {
    var apiKeyStatus: ApiKeyStatus
    var isChecking: bool

    constructor ()
      ensures apiKeyStatus == InitialStatus && !isChecking
    {
      apiKeyStatus := InitialStatus;
      isChecking := false;
    }

    /**
     * `checkApiKey`: the early returns for a missing and a placeholder key,
     * the probe, and the outer catch that the masking throw lands in. Every
     * path clears `isChecking`.
     */
    method CheckApiKey(apiKey: Option<string>, probe: ProbeOutcome)
      modifies this
      ensures apiKeyStatus == CheckResult(apiKey, probe)
      ensures !isChecking
    {
      isChecking := true;
      if apiKey.None? || apiKey.value == "" {
        apiKeyStatus := ApiKeyStatus(false, false, false, "", Some(NotFoundError));
        isChecking := false;
        return;
      }
      var key := apiKey.value;
      var isDefault := key == GooglePlaceholderKey || key == ActualPlaceholderKey;
      var masked := Mask(key);
      if masked.None? {
        apiKeyStatus := ApiKeyStatus(false, false, false, "", Some(CheckFailedError));
        isChecking := false;
        return;
      }
      var maskedKey := masked.value;
      if isDefault {
        apiKeyStatus := ApiKeyStatus(true, false, true, maskedKey, Some(PlaceholderError));
        isChecking := false;
        return;
      }
      match probe {
        case ProbeResponse(urlContainsError) =>
          apiKeyStatus := ApiKeyStatus(true, !urlContainsError, false, maskedKey,
                                       if urlContainsError then Some(RestrictedError) else None);
        case ProbeFailed =>
          apiKeyStatus := ApiKeyStatus(true, false, false, maskedKey, Some(UnvalidatedError));
      }
      isChecking := false;
    }
  }
}
