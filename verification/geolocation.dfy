/** The geolocation composable: one position request followed by reverse
    geocoding, the mapping of position errors to messages, and the loading
    and error bookkeeping. The device's position service is replaced by its
    outcome. */
module Geolocation {
  import opened Prelude
  import opened Types
  import Geocoding
  import Messages

  const UnsupportedMessage: string := "お使いのブラウザは位置情報に対応していません"
  const DeniedMessage: string := "位置情報へのアクセスが拒否されました"
  const UnavailableMessage: string := "位置情報を取得できませんでした"
  const TimeoutMessage: string := "位置情報の取得がタイムアウトしました"
  const GenericFailureMessage: string := "位置情報の取得に失敗しました"

  /** Position-error codes of the device's position service. */
  const PermissionDeniedCode: int := 1
  const PositionUnavailableCode: int := 2
  const TimeoutCode: int := 3

  /** The wrapper before any request, and after `reset`. */
  function InitialState(): (s: GeolocationState)
    ensures !s.loading && s.error.None? && s.position.None? && s.address.None?
  {
    GeolocationState(false, None, None, None)
  }

  /** What the position request produced: the device has no position
      service, the service reported an error (its code, when it has one,
      and its message), or it delivered coordinates. */
  datatype PositionOutcome =
    | Unsupported
    | PositionError(code: Option<int>, message: string)
    | Located(latitude: real, longitude: real)

  /** The message shown for a failed request: fixed texts for the three
      position-error codes, otherwise the error's own message, or a generic
      one when that is empty. */
  function ErrorMessage(code: Option<int>, message: string): (m: string)
    ensures m != ""
    ensures code == Some(PermissionDeniedCode) ==> m == DeniedMessage
    ensures code == Some(PositionUnavailableCode) ==> m == UnavailableMessage
    ensures code == Some(TimeoutCode) ==> m == TimeoutMessage
    ensures code !in {Some(PermissionDeniedCode), Some(PositionUnavailableCode), Some(TimeoutCode)} ==>
      m == (if message != "" then message else GenericFailureMessage)
  {
    if code == Some(1) then DeniedMessage
    else if code == Some(2) then UnavailableMessage
    else if code == Some(3) then TimeoutMessage
    else if message != "" then message
    else GenericFailureMessage
  }

  /** The three fixed texts are not read from the geolocation catalog: the
      permission text differs from the catalog's permission entry, though
      the other two coincide with the catalog's. */
  lemma ErrorTextsVersusCatalog()
    ensures ErrorMessage(Some(PermissionDeniedCode), "") != Messages.GetGeolocationErrorMessage("permission-denied")
    ensures ErrorMessage(Some(PositionUnavailableCode), "") == Messages.GetGeolocationErrorMessage("position-unavailable")
    ensures ErrorMessage(Some(TimeoutCode), "") == Messages.GetGeolocationErrorMessage("timeout")
    ensures ErrorMessage(None, "") == Messages.GetGeolocationErrorMessage("unknown")
  {
  }

  /** `getCurrentPosition`: raise loading and clear the error; on a
      position, store it and the address resolved for it and return the
      state; on a failure, set the mapped message and rethrow, keeping any
      earlier position and address. Loading ends either way. The geocoding
      answer and the formatted coordinate pair are supplied by the caller. */
  function GetCurrentPosition(s: GeolocationState, outcome: PositionOutcome,
                              geo: Geocoding.Response, coordinates: string): (r: (GeolocationState, Completion<GeolocationState>))
    ensures !r.0.loading
    ensures outcome.Located? ==>
      && r.0.position == Some(Position(outcome.latitude, outcome.longitude))
      && r.0.address == Some(Geocoding.ReverseGeocode(geo, coordinates))
      && r.0.error.None?
      && r.1 == Returned(r.0)
    ensures outcome.Unsupported? ==>
      && r.0 == s.(loading := false, error := Some(UnsupportedMessage))
      && r.1.Threw?
    ensures outcome.PositionError? ==>
      && r.0 == s.(loading := false, error := Some(ErrorMessage(outcome.code, outcome.message)))
      && r.1.Threw?
  {
    var entered := s.(loading := true, error := None);
    match outcome
    case Located(lat, lon) =>
      var located := entered.(position := Some(Position(lat, lon)),
                              address := Some(Geocoding.ReverseGeocode(geo, coordinates)));
      // The returned state is the live state object, so the caller sees it
      // after `finally` has lowered loading.
      var done := located.(loading := false);
      (done, Returned(done))
    case Unsupported =>
      // A plain error has no code, so its own message is shown.
      (entered.(loading := false, error := Some(ErrorMessage(None, UnsupportedMessage))), Threw("unsupported"))
    case PositionError(code, message) =>
      (entered.(loading := false, error := Some(ErrorMessage(code, message))), Threw("position-error"))
  }

  /** `reset`: back to the initial state, from any state. */
  function Reset(s: GeolocationState): (s': GeolocationState)
    ensures !s'.loading && s'.error.None? && s'.position.None? && s'.address.None?
  {
    InitialState()
  }

  /** After a reset, a failed request leaves no position behind, and a
      successful one leaves no error behind. */
  lemma ResetThenRequest(s: GeolocationState, outcome: PositionOutcome, geo: Geocoding.Response, coordinates: string)
    ensures var r := GetCurrentPosition(Reset(s), outcome, geo, coordinates).0;
      && (r.position.None? <==> !outcome.Located?)
      && (r.error.None? <==> outcome.Located?)
      && !r.loading
  {
  }
}
