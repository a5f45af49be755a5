/**
 * How `firebaseApp.ts` builds and checks the Firebase web configuration:
 * every field is the trimmed `EXPO_PUBLIC_FIREBASE_*` environment value if
 * there is one, else the trimmed value from Expo's `extra.firebase`, else
 * the bundled fallback (`measurementId` has no fallback); then three guards
 * reject a missing API key, a missing app id and a malformed API key. The
 * three sources are inputs rather than reads of `process.env` and
 * `Constants`.
 */
module FirebaseConfig {
  import opened AuthTypes

  /** A property read from `process.env` or from `extra.firebase`: missing, a string, or another type. */
  datatype JsValue = Undefined | Str(s: string) | NonString

  /** The characters `String.prototype.trim` removes: ECMAScript WhiteSpace and LineTerminator. */
  predicate IsTrimmable(c: char)
  {
    || c == '\t' || c == '\n' || c == '\U{000B}' || c == '\U{000C}' || c == '\r' || c == ' '
    || c == '\U{00A0}' || c == '\U{1680}' || ('\U{2000}' <= c <= '\U{200A}')
    || c == '\U{2028}' || c == '\U{2029}' || c == '\U{202F}' || c == '\U{205F}'
    || c == '\U{3000}' || c == '\U{FEFF}'
  }

  /** The leading trimmable characters removed: a suffix of `s` that does not start with one. */
  function TrimStart(s: string): (r: string)
    ensures |r| <= |s| && r == s[|s| - |r|..]
    ensures forall i :: 0 <= i < |s| - |r| ==> IsTrimmable(s[i])
    ensures r == [] || !IsTrimmable(r[0])
    decreases |s|
  {
    if |s| > 0 && IsTrimmable(s[0]) then TrimStart(s[1..]) else s
  }

  /** The trailing trimmable characters removed: a prefix of `s` that does not end with one. */
  function TrimEnd(s: string): (r: string)
    ensures |r| <= |s| && r == s[..|r|]
    ensures forall i :: |r| <= i < |s| ==> IsTrimmable(s[i])
    ensures r == [] || !IsTrimmable(r[|r| - 1])
    decreases |s|
  {
    if |s| > 0 && IsTrimmable(s[|s| - 1]) then TrimEnd(s[..|s| - 1]) else s
  }

  /** `s.trim()` */
  function Trim(s: string): string
  {
    TrimEnd(TrimStart(s))
  }

  /**
   * `trim` keeps a contiguous piece of the string that neither starts nor
   * ends with a trimmable character, and everything it removes is trimmable.
   */
  lemma TrimShape(s: string)
    ensures var r, lo := Trim(s), |s| - |TrimStart(s)|;
      && (r == [] || (!IsTrimmable(r[0]) && !IsTrimmable(r[|r| - 1])))
      && 0 <= lo <= |s| - |r| && r == s[lo..lo + |r|]
      && (forall i :: 0 <= i < lo ==> IsTrimmable(s[i]))
      && (forall i :: lo + |r| <= i < |s| ==> IsTrimmable(s[i]))
  {
    var t := TrimStart(s);
    var r := TrimEnd(t);
    var lo := |s| - |t|;
    assert t == s[lo..];
    assert r == t[..|r|];
    assert r == s[lo..lo + |r|];
    forall i | lo + |r| <= i < |s|
      ensures IsTrimmable(s[i])
    {
      assert s[i] == t[i - lo];
    }
    if r != [] {
      assert r[0] == t[0];
    }
  }

  /** A string of trimmable characters only (the empty one included) trims to `""`, and only such a string does. */
  lemma TrimEmptyExactly(s: string)
    ensures Trim(s) == "" <==> forall i :: 0 <= i < |s| ==> IsTrimmable(s[i])
  {
  }

  /** `sanitize`: the trimmed string for a string, undefined for anything else. */
  function Sanitize(v: JsValue): (r: Option<string>)
    ensures r.Some? <==> v.Str?
    ensures v.Str? ==> r.value == Trim(v.s)
  {
    match v
    case Str(s) => Some(Trim(s))
    case _ => None
  }

  /** `sanitize(env.f) ?? sanitize(extra.f) ?? fallback.f` for one field. */
  function ResolveField(env: JsValue, extra: JsValue, fallback: Option<string>): Option<string>
  {
    Coalesce(Coalesce(Sanitize(env), Sanitize(extra)), fallback)
  }

  /** The seven `EXPO_PUBLIC_FIREBASE_*` variables, or the seven properties of `extra.firebase`. */
  datatype Source = Source(apiKey: JsValue, authDomain: JsValue, projectId: JsValue,
                           storageBucket: JsValue, messagingSenderId: JsValue,
                           appId: JsValue, measurementId: JsValue)

  /** The bundled fallback configuration; it has no measurement id. */
  datatype Fallback = Fallback(apiKey: Option<string>, authDomain: Option<string>,
                               projectId: Option<string>, storageBucket: Option<string>,
                               messagingSenderId: Option<string>, appId: Option<string>)

  /** `firebaseConfig` as resolved: every field may still be undefined. */
  datatype Config = Config(apiKey: Option<string>, authDomain: Option<string>,
                           projectId: Option<string>, storageBucket: Option<string>,
                           messagingSenderId: Option<string>, appId: Option<string>,
                           measurementId: Option<string>)

  /** The `firebaseConfig` object literal. */
  function ResolveConfig(env: Source, extra: Source, fallback: Fallback): Config
  {
    Config(
      ResolveField(env.apiKey, extra.apiKey, fallback.apiKey),
      ResolveField(env.authDomain, extra.authDomain, fallback.authDomain),
      ResolveField(env.projectId, extra.projectId, fallback.projectId),
      ResolveField(env.storageBucket, extra.storageBucket, fallback.storageBucket),
      ResolveField(env.messagingSenderId, extra.messagingSenderId, fallback.messagingSenderId),
      ResolveField(env.appId, extra.appId, fallback.appId),
      Coalesce(Sanitize(env.measurementId), Sanitize(extra.measurementId)))
  }

  /** The three errors the module throws while loading. */
  datatype ConfigError = MissingApiKey | MissingAppId | InvalidApiKeyFormat
  {
    function Message(): string
    {
      match this
      case MissingApiKey =>
        "Missing EXPO_PUBLIC_FIREBASE_API_KEY. Update .env and restart with cache clear."
      case MissingAppId =>
        "Missing EXPO_PUBLIC_FIREBASE_APP_ID. Update .env and restart with cache clear."
      case InvalidApiKeyFormat =>
        "Invalid Firebase apiKey format. Ensure you used the Web API key from Firebase console."
    }
  }

  datatype LoadResult = Loaded(config: Config) | Rejected(error: ConfigError)

  /** The prefix every Firebase web API key has. */
  const ApiKeyPrefix := "AIza"

  /**
   * The guards, in order: a falsy API key is reported before a falsy app
   * id, and the key's format is checked only once both are present.
   */
  function Validate(c: Config): (r: LoadResult)
    ensures r == Rejected(MissingApiKey) <==> !Truthy(c.apiKey)
    ensures r == Rejected(MissingAppId) <==> Truthy(c.apiKey) && !Truthy(c.appId)
    ensures r == Rejected(InvalidApiKeyFormat)
        <==> Truthy(c.apiKey) && Truthy(c.appId) && !StartsWith(c.apiKey.value, ApiKeyPrefix)
    ensures r.Loaded? <==> Truthy(c.apiKey) && Truthy(c.appId) && StartsWith(c.apiKey.value, ApiKeyPrefix)
    ensures r.Loaded? ==> r.config == c
  {
    if !Truthy(c.apiKey) then Rejected(MissingApiKey)
    else if !Truthy(c.appId) then Rejected(MissingAppId)
    else if !StartsWith(c.apiKey.value, ApiKeyPrefix) then Rejected(InvalidApiKeyFormat)
    else Loaded(c)
  }

  /** Module load: resolve, then validate. */
  function LoadConfig(env: Source, extra: Source, fallback: Fallback): LoadResult
  {
    Validate(ResolveConfig(env, extra, fallback))
  }

  /**
   * Field precedence: a string in the environment decides the field, else
   * a string in `extra`, else the fallback; a value that is not a string
   * counts as missing.
   */
  lemma ResolveFieldPrecedence(env: JsValue, extra: JsValue, fallback: Option<string>)
    ensures env.Str? ==> ResolveField(env, extra, fallback) == Some(Trim(env.s))
    ensures !env.Str? && extra.Str? ==> ResolveField(env, extra, fallback) == Some(Trim(extra.s))
    ensures !env.Str? && !extra.Str? ==> ResolveField(env, extra, fallback) == fallback
  {
  }

  /**
   * `??` does not skip `""`: an environment value of whitespace only
   * resolves to the empty string and hides both `extra` and the fallback.
   */
  lemma BlankEnvironmentValueWins(s: string, extra: JsValue, fallback: Option<string>)
    requires forall i :: 0 <= i < |s| ==> IsTrimmable(s[i])
    ensures ResolveField(Str(s), extra, fallback) == Some("")
  {
    TrimEmptyExactly(s);
  }

  /**
   * Consequently a blank `EXPO_PUBLIC_FIREBASE_API_KEY` fails loading with
   * the missing-key error even when `extra` or the fallback holds a valid key.
   */
  lemma BlankEnvironmentApiKeyRejected(env: Source, extra: Source, fallback: Fallback)
    requires env.apiKey.Str?
    requires forall i :: 0 <= i < |env.apiKey.s| ==> IsTrimmable(env.apiKey.s[i])
    ensures LoadConfig(env, extra, fallback) == Rejected(MissingApiKey)
  {
    BlankEnvironmentValueWins(env.apiKey.s, extra.apiKey, fallback.apiKey);
  }

  /**
   * `measurementId` is `sanitize(env) ?? sanitize(extra)` with no fallback:
   * the environment string wins, else the `extra` string, else it stays
   * undefined whatever the fallback holds.
   */
  lemma MeasurementIdHasNoFallback(env: Source, extra: Source, fallback: Fallback)
    ensures env.measurementId.Str?
      ==> ResolveConfig(env, extra, fallback).measurementId == Some(Trim(env.measurementId.s))
    ensures !env.measurementId.Str? && extra.measurementId.Str?
      ==> ResolveConfig(env, extra, fallback).measurementId == Some(Trim(extra.measurementId.s))
    ensures !env.measurementId.Str? && !extra.measurementId.Str?
      ==> ResolveConfig(env, extra, fallback).measurementId.None?
  {
  }

  /**
   * A configuration that loads has a non-empty app id and an API key that
   * starts with the Firebase prefix, and every field of it came from the
   * environment, from `extra` or from the fallback, in that order.
   */
  lemma LoadedConfigIsUsable(env: Source, extra: Source, fallback: Fallback)
    requires LoadConfig(env, extra, fallback).Loaded?
    ensures var c := LoadConfig(env, extra, fallback).config;
      && c == ResolveConfig(env, extra, fallback)
      && c.appId.Some? && c.appId.value != ""
      && c.apiKey.Some? && StartsWith(c.apiKey.value, ApiKeyPrefix)
  {
  }
}
