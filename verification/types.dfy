/** The application's shared data model: user profiles, locations and
    attendance records, and the state of the geolocation wrapper. */
module Types {
  import opened Prelude

  /** Access tier of a user. */
  datatype Role = UserRole | Supervisor | Admin

  /** Kind of an attendance event. */
  datatype RecordType = ClockIn | ClockOut

  /** A server timestamp, in seconds; its formatting is not modelled. */
  type Timestamp = int

  /** Coordinates with the street address resolved for them. Coordinates are
      carried as opaque reals; no arithmetic is done on them. */
  datatype Location = Location(latitude: real, longitude: real, address: string)

  /** One stored clock-in or clock-out event. `date` is the day key used to
      group a user's records per day; `timestamp` may be missing while the
      server has not yet assigned it. */
  datatype AttendanceRecord = AttendanceRecord(
    id: string,
    userId: string,
    userName: string,
    kind: RecordType,
    timestamp: Option<Timestamp>,
    location: Location,
    date: string)

  /** A profile document of the `users` collection. `subordinates` is only
      meaningful for supervisors. `createdAt` is missing on a profile that
      was synthesised locally after a failed read. */
  datatype User = User(
    uid: string,
    email: string,
    displayName: string,
    role: Role,
    subordinates: Option<seq<string>>,
    createdAt: Option<Timestamp>)

  /** How reading a profile document went: the read failed, or it found no
      document, or it found this one. */
  datatype ProfileRead = ReadFailed | Absent | Present(profile: User)

  /** What the identity provider reports about an account. */
  datatype Account = Account(uid: string, email: Option<string>, displayName: Option<string>)

  const FallbackDisplayName: string := "User"

  /** Display name of a profile created for an account:
      `displayName || email?.split('@')[0] || 'User'`. */
  function DefaultDisplayName(displayName: Option<string>, email: Option<string>): (name: string)
    ensures name != ""
    ensures Truthy(displayName) ==> name == displayName.value
    ensures !Truthy(displayName) && email.Some? && email.value != "" && email.value[0] != '@' ==>
      && name <= email.value && '@' !in name
      && (|name| < |email.value| ==> email.value[|name|] == '@')
    ensures !Truthy(displayName) && email.Some? && '@' !in email.value && email.value != "" ==>
      name == email.value
    ensures !Truthy(displayName) && (email.None? || email.value == "" || email.value[0] == '@') ==>
      name == FallbackDisplayName
  {
    Or(Or(displayName, if email.Some? then Some(BeforeFirst(email.value, '@')) else None),
       Some(FallbackDisplayName)).value
  }

  /** The coordinates alone, as kept by the geolocation wrapper. */
  datatype Position = Position(latitude: real, longitude: real)

  /** State of the geolocation wrapper. */
  datatype GeolocationState = GeolocationState(
    loading: bool,
    error: Option<string>,
    position: Option<Position>,
    address: Option<string>)

  predicate IsDigit(c: char) {
    '0' <= c <= '9'
  }

  /** A `YYYY-MM-DD` day key. */
  predicate IsDateKey(s: string) {
    && |s| == 10
    && s[4] == '-' && s[7] == '-'
    && (forall i | 0 <= i < 10 && i != 4 && i != 7 :: IsDigit(s[i]))
  }

  /** The shape of `Date.prototype.toISOString()` output for years 0-9999:
      a day key, `T`, then the time of day. */
  predicate IsIsoInstant(s: string) {
    |s| > 10 && IsDateKey(s[..10]) && s[10] == 'T'
  }

  /** Today's day key, `now.toISOString().split('T')[0]`, with the ISO
      string of the clock supplied by the caller. */
  function TodayKey(iso: string): (r: string)
    ensures IsIsoInstant(iso) ==> r == iso[..10] && IsDateKey(r)
  {
    assert IsIsoInstant(iso) ==> 'T' !in iso[..10] && iso == iso[..10] + iso[10..];
    BeforeFirst(iso, 'T')
  }
}
