/** The user-facing error-message catalogs and their lookups. Each catalog
    maps a provider error code to a message and carries a `default` entry
    that every unknown code falls back to. */
module Messages {

  const DefaultKey: string := "default"

  const CredentialMessage: string := "メールアドレスまたはパスワードが正しくありません"

  const AuthErrors: map<string, string> := map[
    "auth/user-not-found" := CredentialMessage,
    "auth/wrong-password" := CredentialMessage,
    "auth/invalid-credential" := CredentialMessage,
    "auth/email-already-in-use" := "このメールアドレスは既に使用されています",
    "auth/weak-password" := "パスワードは6文字以上で入力してください",
    "auth/invalid-email" := "有効なメールアドレスを入力してください",
    DefaultKey := "エラーが発生しました。もう一度お試しください"
  ]

  const GeolocationErrors: map<string, string> := map[
    "permission-denied" := "位置情報の取得が許可されていません",
    "position-unavailable" := "位置情報を取得できませんでした",
    "timeout" := "位置情報の取得がタイムアウトしました",
    DefaultKey := "位置情報の取得に失敗しました"
  ]

  const AttendanceErrors: map<string, string> := map[
    "already-clocked-in" := "既に出勤済みです",
    "not-clocked-in" := "まだ出勤していません",
    "already-clocked-out" := "既に退勤済みです",
    DefaultKey := "勤怠記録の処理に失敗しました"
  ]

  /** A catalog usable by `Lookup`: it has a `default` entry. */
  predicate IsCatalog(table: map<string, string>) {
    DefaultKey in table
  }

  /** `table[code] ?? table.default`. */
  function Lookup(table: map<string, string>, code: string): (m: string)
    requires IsCatalog(table)
    ensures code in table ==> m == table[code]
    ensures code !in table ==> m == table[DefaultKey]
    ensures m in table.Values
  {
    if code in table then table[code] else table[DefaultKey]
  }

  /** Message for an identity-provider error code. */
  function GetAuthErrorMessage(code: string): (m: string)
    ensures code in AuthErrors ==> m == AuthErrors[code]
    ensures code !in AuthErrors ==> m == AuthErrors[DefaultKey]
    ensures m in AuthErrors.Values
  {
    Lookup(AuthErrors, code)
  }

  /** Message for a geolocation error code. */
  function GetGeolocationErrorMessage(code: string): (m: string)
    ensures code in GeolocationErrors ==> m == GeolocationErrors[code]
    ensures code !in GeolocationErrors ==> m == GeolocationErrors[DefaultKey]
    ensures m in GeolocationErrors.Values
  {
    Lookup(GeolocationErrors, code)
  }

  /** Message for an attendance error code. */
  function GetAttendanceErrorMessage(code: string): (m: string)
    ensures code in AttendanceErrors ==> m == AttendanceErrors[code]
    ensures code !in AttendanceErrors ==> m == AttendanceErrors[DefaultKey]
    ensures m in AttendanceErrors.Values
  {
    Lookup(AttendanceErrors, code)
  }

  /** All three lookups are total: every catalog carries a default entry. */
  lemma CatalogsHaveDefaults()
    ensures IsCatalog(AuthErrors) && IsCatalog(GeolocationErrors) && IsCatalog(AttendanceErrors)
  {
  }

  /** Unknown-user, wrong-password and invalid-credential failures are not
      told apart: all three show the same message. */
  lemma CredentialFailuresShareMessage()
    ensures GetAuthErrorMessage("auth/user-not-found") == CredentialMessage
    ensures GetAuthErrorMessage("auth/wrong-password") == CredentialMessage
    ensures GetAuthErrorMessage("auth/invalid-credential") == CredentialMessage
  {
  }

  /** The remaining known authentication codes have their own messages,
      distinct from each other, from the credential message and from the
      default. */
  lemma SpecificAuthMessagesDistinct()
    ensures var specific := [
        GetAuthErrorMessage("auth/email-already-in-use"),
        GetAuthErrorMessage("auth/weak-password"),
        GetAuthErrorMessage("auth/invalid-email"),
        CredentialMessage,
        AuthErrors[DefaultKey]];
      forall i, j | 0 <= i < j < |specific| :: specific[i] != specific[j]
  {
  }
}
