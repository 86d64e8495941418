/**
 * The location screen's check that a person, not a script, confirms the
 * delivery location: timing and map-tap conditions when the device
 * location is known, a typed code when it is not.
 */
module Location {
  import opened Text

  const MinInteractionTime := 2000
  const MinTotalTime := 3000

  /** The codes the fallback asks the user to type. */
  const CaptchaCodes: seq<string> := ["PHARMA", "HEALTH", "MEDS", "VERIFY", "HUMAN"]

  const WaitMessage := "Please wait a moment before confirming."
  const TakeMomentMessage := "Please take a moment to verify your location."
  const TapMarkerMessage := "Please tap on the map marker to verify."
  const InteractFirstMessage := "Please interact with the map first."
  const NotHumanMessage := "Please interact with the map to verify you're human."

  /** `isHumanInteraction`'s answer, with the message it shows when it
      refuses (none in the fallback). */
  datatype HumanVerdict = Human | NotHuman(message: Option<string>)

  /** What pressing "Confirm" does: hand the location back, or show the
      messages in order. */
  datatype ConfirmResult =
    | Confirmed(latitude: real, longitude: real, humanVerified: bool, verificationTime: int)
    | Refused(messages: seq<string>)

  class LocationFragment {
    var currentLatitude: real
    var currentLongitude: real
    var locationLoadTime: int
    var userInteractionStartTime: int
    var hasUserMovedMarker: bool
    var mapClickCount: int
    var isLocationConfirmed: bool
    var captchaCode: string
    var locationDetectionFailed: bool
    /** The confirm button is shown and enabled. */
    var confirmShown: bool

    /** The screen's invariant: a tap near the marker has been counted, a
        failure has drawn one of the codes, and a confirmed location has its
        button shown. */
    predicate Valid()
      reads this
    {
      mapClickCount >= 0
      && (hasUserMovedMarker ==> mapClickCount >= 1)
      && (locationDetectionFailed ==> captchaCode in CaptchaCodes)
      && (!locationDetectionFailed ==> captchaCode == "")
      && (isLocationConfirmed ==> confirmShown)
    }

    constructor()
      ensures Valid()
      ensures currentLatitude == 0.0 && currentLongitude == 0.0
      ensures locationLoadTime == 0 && userInteractionStartTime == 0
      ensures !hasUserMovedMarker && mapClickCount == 0 && !isLocationConfirmed
      ensures captchaCode == "" && !locationDetectionFailed && !confirmShown
    {
      currentLatitude := 0.0;
      currentLongitude := 0.0;
      locationLoadTime := 0;
      userInteractionStartTime := 0;
      hasUserMovedMarker := false;
      mapClickCount := 0;
      isLocationConfirmed := false;
      captchaCode := "";
      locationDetectionFailed := false;
      confirmShown := false;
    }

    /** `isHumanInteraction` at time `now`: after a location failure the
        typed code alone decides; otherwise enough time since the location
        loaded and since verification began, a tap near the marker and at
        least one tap, checked in that order. */
    function HumanCheck(now: int): (r: HumanVerdict)
      reads this
      ensures locationDetectionFailed ==> r == (if isLocationConfirmed then Human else NotHuman(None))
      ensures !locationDetectionFailed ==>
                (r.Human? <==> now - locationLoadTime >= MinTotalTime
                               && now - userInteractionStartTime >= MinInteractionTime
                               && hasUserMovedMarker && mapClickCount >= 1)
      ensures !locationDetectionFailed && now - locationLoadTime < MinTotalTime ==> r == NotHuman(Some(WaitMessage))
      ensures (!locationDetectionFailed && now - locationLoadTime >= MinTotalTime
               && now - userInteractionStartTime < MinInteractionTime) ==> r == NotHuman(Some(TakeMomentMessage))
      ensures r.NotHuman? && !locationDetectionFailed ==> r.message.Some?
    {
      if locationDetectionFailed then (if isLocationConfirmed then Human else NotHuman(None))
      else if now - locationLoadTime < MinTotalTime then NotHuman(Some(WaitMessage))
      else if now - userInteractionStartTime < MinInteractionTime then NotHuman(Some(TakeMomentMessage))
      else if !hasUserMovedMarker then NotHuman(Some(TapMarkerMessage))
      else if mapClickCount < 1 then NotHuman(Some(InteractFirstMessage))
      else Human
    }

    /** `fetchDeviceLocation` begins: the load time is taken. */
    method StartLocationFetch(now: int)
      requires Valid()
      modifies this
      ensures Valid()
      ensures locationLoadTime == now
      ensures userInteractionStartTime == old(userInteractionStartTime)
      ensures hasUserMovedMarker == old(hasUserMovedMarker) && mapClickCount == old(mapClickCount)
      ensures isLocationConfirmed == old(isLocationConfirmed) && confirmShown == old(confirmShown)
      ensures captchaCode == old(captchaCode) && locationDetectionFailed == old(locationDetectionFailed)
      ensures currentLatitude == old(currentLatitude) && currentLongitude == old(currentLongitude)
    {
      locationLoadTime := now;
    }

    /** `handleLocationFailure`: the fallback starts with the code drawn at
        `pick`; a confirmation obtained before is kept. */
    method HandleLocationFailure(pick: nat)
      requires Valid()
      requires pick < |CaptchaCodes|
      modifies this
      ensures Valid()
      ensures locationDetectionFailed && captchaCode == CaptchaCodes[pick]
      ensures isLocationConfirmed == old(isLocationConfirmed) && confirmShown == old(confirmShown)
      ensures hasUserMovedMarker == old(hasUserMovedMarker) && mapClickCount == old(mapClickCount)
      ensures locationLoadTime == old(locationLoadTime) && userInteractionStartTime == old(userInteractionStartTime)
      ensures currentLatitude == old(currentLatitude) && currentLongitude == old(currentLongitude)
    {
      locationDetectionFailed := true;
      captchaCode := CaptchaCodes[pick];
    }

    /** The last-location request answered at `now`: a location starts the
        verification, no location falls back to the typed code drawn at
        `pick`. */
    method OnLastLocation(location: Option<(real, real)>, now: int, pick: nat)
      requires Valid()
      requires pick < |CaptchaCodes|
      modifies this
      ensures Valid()
      ensures location.Some? ==>
                (currentLatitude, currentLongitude) == location.value && userInteractionStartTime == now
                && locationDetectionFailed == old(locationDetectionFailed) && captchaCode == old(captchaCode)
      ensures location.None? ==>
                locationDetectionFailed && captchaCode == CaptchaCodes[pick]
                && currentLatitude == old(currentLatitude) && currentLongitude == old(currentLongitude)
                && userInteractionStartTime == old(userInteractionStartTime)
      ensures locationLoadTime == old(locationLoadTime)
      ensures hasUserMovedMarker == old(hasUserMovedMarker) && mapClickCount == old(mapClickCount)
      ensures isLocationConfirmed == old(isLocationConfirmed) && confirmShown == old(confirmShown)
    {
      if location.Some? {
        currentLatitude := location.value.0;
        currentLongitude := location.value.1;
        userInteractionStartTime := now;
      } else {
        HandleLocationFailure(pick);
      }
    }

    /** `handleMapClick`: every tap is counted; `near` tells whether it
        landed within 500 m of the current coordinates, and only such a tap
        moves them and counts as touching the marker. */
    method HandleMapClick(latitude: real, longitude: real, near: bool)
      requires Valid()
      modifies this
      ensures Valid()
      ensures mapClickCount == old(mapClickCount) + 1
      ensures near ==> hasUserMovedMarker && currentLatitude == latitude && currentLongitude == longitude
      ensures !near ==>
                hasUserMovedMarker == old(hasUserMovedMarker)
                && currentLatitude == old(currentLatitude) && currentLongitude == old(currentLongitude)
      ensures isLocationConfirmed == old(isLocationConfirmed) && confirmShown == old(confirmShown)
      ensures captchaCode == old(captchaCode) && locationDetectionFailed == old(locationDetectionFailed)
      ensures locationLoadTime == old(locationLoadTime) && userInteractionStartTime == old(userInteractionStartTime)
    {
      mapClickCount := mapClickCount + 1;
      if near {
        hasUserMovedMarker := true;
        currentLatitude := latitude;
        currentLongitude := longitude;
      }
    }

    /** The check run a second after a tap near the marker: a passing check
        confirms the location and shows the button. */
    method OnTapSettled(now: int)
      requires Valid()
      modifies this
      ensures Valid()
      ensures isLocationConfirmed == (old(isLocationConfirmed) || old(HumanCheck(now)).Human?)
      ensures confirmShown == (old(confirmShown) || old(HumanCheck(now)).Human?)
      ensures hasUserMovedMarker == old(hasUserMovedMarker) && mapClickCount == old(mapClickCount)
      ensures captchaCode == old(captchaCode) && locationDetectionFailed == old(locationDetectionFailed)
      ensures locationLoadTime == old(locationLoadTime) && userInteractionStartTime == old(userInteractionStartTime)
      ensures currentLatitude == old(currentLatitude) && currentLongitude == old(currentLongitude)
    {
      if HumanCheck(now).Human? {
        confirmShown := true;
        isLocationConfirmed := true;
      }
    }

    /** The code field changed: text whose upper-case form is the code
        confirms the location. */
    method OnCaptchaChanged(text: Option<string>)
      requires Valid()
      modifies this
      ensures Valid()
      ensures isLocationConfirmed == (old(isLocationConfirmed) || (text.Some? && Upper(text.value) == captchaCode))
      ensures confirmShown == (old(confirmShown) || (text.Some? && Upper(text.value) == captchaCode))
      ensures hasUserMovedMarker == old(hasUserMovedMarker) && mapClickCount == old(mapClickCount)
      ensures captchaCode == old(captchaCode) && locationDetectionFailed == old(locationDetectionFailed)
      ensures locationLoadTime == old(locationLoadTime) && userInteractionStartTime == old(userInteractionStartTime)
      ensures currentLatitude == old(currentLatitude) && currentLongitude == old(currentLongitude)
    {
      if text.Some? && Upper(text.value) == captchaCode {
        confirmShown := true;
        isLocationConfirmed := true;
      }
    }

    /** "Confirm" pressed at `now`: the location is handed back as verified
        when the check passes, else the check's message and the screen's own
        are shown. */
    method OnConfirmClicked(now: int) returns (r: ConfirmResult)
      ensures HumanCheck(now).Human? ==>
                r == Confirmed(currentLatitude, currentLongitude, true, now - locationLoadTime)
      ensures HumanCheck(now).NotHuman? ==>
                r == Refused((if HumanCheck(now).message.Some? then [HumanCheck(now).message.value] else [])
                             + [NotHumanMessage])
    {
      var v := HumanCheck(now);
      if v.Human? {
        r := Confirmed(currentLatitude, currentLongitude, true, now - locationLoadTime);
      } else if v.message.Some? {
        r := Refused([v.message.value, NotHumanMessage]);
      } else {
        r := Refused([NotHumanMessage]);
      }
    }
  }

  /** On a screen in its invariant the "interact with the map first" branch
      is never the one that refuses: a tap near the marker is always
      counted as a tap. */
  lemma CountCheckNeverRefuses(f: LocationFragment, now: int)
    requires f.Valid()
    ensures f.HumanCheck(now) != NotHuman(Some(InteractFirstMessage))
  {
  }

  /** Upper-casing is what lets a code typed in any case pass: the lower-case
      spelling of a code confirms the fallback. */
  lemma {:induction false} UpperOfLower(s: string)
    requires forall i :: 0 <= i < |s| ==> IsUpper(s[i])
    ensures Upper(Lower(s)) == s
  {
    assert |Upper(Lower(s))| == |s|;
    forall i | 0 <= i < |s|
      ensures Upper(Lower(s))[i] == s[i]
    {
    }
  }
}
