/**
 * `mapErrorToMessage`: the total translation from a provider error (its
 * optional `code` and optional `message`) to the string shown to the user.
 * The `__DEV__` flag is a parameter because it changes the fallback text;
 * the console logging it also guards is not modelled.
 */
module ErrorTranslation {
  import opened AuthTypes

  const FallbackPrefix := "Authentication failed"
  const RetrySuffix := ". Please try again."

  /**
   * The `switch (code)` table: each recognised Firebase code and its
   * message. `auth/user-not-found` and `auth/wrong-password` share a case.
   */
  const Table: map<string, string> := map[
    "auth/invalid-api-key" := "Invalid Firebase API key. Check environment variables and restart the app.",
    "auth/invalid-email" := "The email address is invalid.",
    "auth/user-not-found" := "Invalid credentials. Please check your email and password.",
    "auth/wrong-password" := "Invalid credentials. Please check your email and password.",
    "auth/missing-password" := "Please enter your password.",
    "auth/email-already-in-use" := "This email is already registered. Please sign in or use a different email.",
    "auth/weak-password" := "Password is too weak. Please choose a stronger password.",
    "auth/operation-not-allowed" := "Email/password sign-in is disabled in Firebase Console. Enable it under Authentication > Sign-in method.",
    "auth/too-many-requests" := "Too many attempts. Please wait a moment and try again.",
    "auth/user-disabled" := "This account has been disabled.",
    "auth/invalid-credential" := "Invalid credentials. Please try again.",
    "auth/network-request-failed" := "Network error. Please check your internet connection and try again.",
    "auth/app-deleted" := "Firebase project configuration error. Check your Firebase setup.",
    "auth/unauthorized-domain" := "This domain is not authorized. Add it to Firebase Console > Authentication > Settings > Authorized domains."
  ]

  /** The case of the switch a code selects, None for the `default:` branch (absent codes included). */
  function KnownMessage(code: Option<string>): (r: Option<string>)
    ensures r.Some? ==> |r.value| > 0
  {
    if code.Some? && code.value in Table then Some(Table[code.value]) else None
  }

  /** The `default:` branch: the code in parentheses when truthy, the raw message only in development. */
  function DefaultMessage(code: Option<string>, message: Option<string>, dev: bool): string
  {
    FallbackPrefix + CodePart(code) + Tail(message, dev)
  }

  function CodePart(code: Option<string>): string
  {
    if Truthy(code) then " (" + code.value + ")" else ""
  }

  function Tail(message: Option<string>, dev: bool): (r: string)
    ensures |r| > 0 && (r[0] == ':' || r[0] == '.')
  {
    if Truthy(message) && dev then ": " + message.value else RetrySuffix
  }

  /** `mapErrorToMessage(err)`: total, and never the empty string. */
  function MapErrorToMessage(err: ThrownError, dev: bool): (r: string)
    ensures |r| > 0
    ensures KnownMessage(err.code).None? ==> r == DefaultMessage(err.code, err.message, dev)
  {
    match KnownMessage(err.code)
    case Some(m) => m
    case None => DefaultMessage(err.code, err.message, dev)
  }

  /** A recognised code is translated by the table alone: the raw message and the build flag play no part. */
  lemma KnownCodeTranslated(code: string, message: Option<string>, dev: bool)
    requires code in Table
    ensures MapErrorToMessage(ThrownError(Some(code), message), dev) == Table[code]
  {
  }

  /** `auth/user-not-found` and `auth/wrong-password` are deliberately indistinguishable. */
  lemma CredentialCodesShareMessage(m1: Option<string>, m2: Option<string>, dev: bool)
    ensures MapErrorToMessage(ThrownError(Some("auth/user-not-found"), m1), dev)
         == MapErrorToMessage(ThrownError(Some("auth/wrong-password"), m2), dev)
         == "Invalid credentials. Please check your email and password."
  {
  }

  /** The example the service's tests pin: an invalid-email rejection, whatever its message. */
  lemma InvalidEmailMessage(m: Option<string>, dev: bool)
    ensures MapErrorToMessage(ThrownError(Some("auth/invalid-email"), m), dev)
         == "The email address is invalid."
  {
  }

  /** Absent, empty and unrecognised codes all fall to the default branch, which starts with the prefix. */
  lemma UnknownCodesFallBack(err: ThrownError, dev: bool)
    requires err.code.None? || err.code.value !in Table
    ensures StartsWith(MapErrorToMessage(err, dev), FallbackPrefix)
  {
    var r := MapErrorToMessage(err, dev);
    assert r == FallbackPrefix + (CodePart(err.code) + Tail(err.message, dev));
    assert r[..|FallbackPrefix|] == FallbackPrefix;
  }

  /** The code appears in parentheses right after the prefix exactly when it is truthy. */
  lemma DefaultMessageNamesCode(code: Option<string>, message: Option<string>, dev: bool)
    ensures Truthy(code) ==> StartsWith(DefaultMessage(code, message, dev), FallbackPrefix + " (" + code.value + ")")
    ensures !Truthy(code) ==> !StartsWith(DefaultMessage(code, message, dev), FallbackPrefix + " (")
  {
    var r := DefaultMessage(code, message, dev);
    var tail := Tail(message, dev);
    if Truthy(code) {
      var head := FallbackPrefix + " (" + code.value + ")";
      assert r == head + tail;
      assert r[..|head|] == head;
    } else {
      assert r == FallbackPrefix + tail;
      assert r[|FallbackPrefix|] == tail[0];
      assert (FallbackPrefix + " (")[|FallbackPrefix|] == ' ';
    }
  }

  /** The text ends with the raw message when it is truthy in a development build, else with the retry hint. */
  lemma DefaultMessageEnding(code: Option<string>, message: Option<string>, dev: bool)
    ensures Truthy(message) && dev ==> EndsWith(DefaultMessage(code, message, dev), ": " + message.value)
    ensures !(Truthy(message) && dev) ==> EndsWith(DefaultMessage(code, message, dev), RetrySuffix)
  {
    var r := DefaultMessage(code, message, dev);
    var tail := Tail(message, dev);
    assert r == (FallbackPrefix + CodePart(code)) + tail;
    assert r[|r| - |tail|..] == tail;
  }
}
