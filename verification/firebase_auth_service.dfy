/**
 * `FirebaseEmailPasswordAuthService`: the email/password implementation of
 * the service contract. The Firebase SDK calls become outcome parameters
 * (what the call resolves or rejects with) and `expo-secure-store` becomes
 * the `store` map of the service object.
 */
module FirebaseAuthService {
  import opened AuthTypes
  import opened ErrorTranslation

  /** The secure-store key under which the Firebase ID token is kept. */
  const TokenKey := "firebase_id_token"

  /** A raw `user.email` as the SDK may hand it over: missing, `null`, or a string. */
  datatype RawEmail = Undefined | Null | Str(s: string)

  /** The part of a Firebase `User` object the service reads. */
  datatype FirebaseUser = FirebaseUser(uid: string, email: RawEmail)

  /** `user.email ?? null`: only a missing or null email becomes null; `""` is kept. */
  function NormalizeEmail(email: RawEmail): (r: Option<string>)
    ensures r.None? <==> !email.Str?
    ensures email.Str? ==> r == Some(email.s)
  {
    match email
    case Str(s) => Some(s)
    case _ => None
  }

  /** `mapFirebaseUser`: no user gives null; otherwise the uid is copied and the email normalised. */
  function MapFirebaseUser(user: Option<FirebaseUser>): (r: Option<AuthUser>)
    ensures r.None? <==> user.None?
    ensures r.Some? ==> r.value.uid == user.value.uid
    ensures r.Some? ==> (r.value.email.None? <==> !user.value.email.Str?)
    ensures r.Some? && user.value.email.Str? ==> r.value.email == Some(user.value.email.s)
  {
    match user
    case None => None
    case Some(u) => Some(AuthUser(u.uid, NormalizeEmail(u.email)))
  }

  /** `throw new Error(mapErrorToMessage(err))`: an Error carries a message and no code. */
  function Translate(err: ThrownError, dev: bool): (e: ThrownError)
    ensures e.code.None? && e.message == Some(MapErrorToMessage(err, dev))
    ensures |e.message.value| > 0
    ensures KnownMessage(err.code).Some? ==> e.message == KnownMessage(err.code)
  {
    ThrownError(None, Some(MapErrorToMessage(err, dev)))
  }

  /** What one sign-in or sign-up leaves behind: the settled promise and the secure store. */
  datatype SessionEffect = SessionEffect(result: Outcome<AuthUser>, store: map<string, string>)

  /**
   * The body shared by `signIn` and `signUp` once the provider call has
   * settled: fetch the ID token, write it under the token key, return the
   * normalised user; the first step that rejects ends the attempt with its
   * translated error.
   */
  function PersistSession(store: map<string, string>, signedIn: Outcome<FirebaseUser>,
                          idToken: Outcome<string>, setItem: Completion, dev: bool): SessionEffect
  {
    match signedIn
    case Fail(e) => SessionEffect(Fail(Translate(e, dev)), store)
    case Ok(user) =>
      match idToken
      case Fail(e) => SessionEffect(Fail(Translate(e, dev)), store)
      case Ok(token) =>
        match setItem
        case Threw(e) => SessionEffect(Fail(Translate(e, dev)), store)
        case Completed =>
          SessionEffect(Ok(AuthUser(user.uid, NormalizeEmail(user.email))), store[TokenKey := token])
  }

  /** What `signOut` leaves behind: the settled promise and the secure store. */
  datatype SignOutEffect = SignOutEffect(result: Completion, store: map<string, string>)

  /** `signOut`: the provider first, then the delete; no try/finally and no translation. */
  function EndSession(store: map<string, string>, providerSignOut: Completion,
                      deleteItem: Completion): SignOutEffect
  {
    match providerSignOut
    case Threw(e) => SignOutEffect(Threw(e), store)
    case Completed =>
      match deleteItem
      case Threw(e) => SignOutEffect(Threw(e), store)
      case Completed => SignOutEffect(Completed, store - {TokenKey})
  }

  /** The error the first rejecting step of a sign-in or sign-up raised, if any. */
  function FirstFailure(signedIn: Outcome<FirebaseUser>, idToken: Outcome<string>,
                        setItem: Completion): Option<ThrownError>
  {
    if signedIn.Fail? then Some(signedIn.err)
    else if idToken.Fail? then Some(idToken.err)
    else if setItem.Threw? then Some(setItem.err)
    else None
  }

  /**
   * A sign-in or sign-up succeeds exactly when every step does; it then
   * stores exactly the provider's token under the token key, returns the
   * user as `mapFirebaseUser` would normalise it, and leaves every other
   * entry of the store as it was.
   */
  lemma PersistSessionSuccess(store: map<string, string>, signedIn: Outcome<FirebaseUser>,
                              idToken: Outcome<string>, setItem: Completion, dev: bool)
    ensures var eff := PersistSession(store, signedIn, idToken, setItem, dev);
      && (eff.result.Ok? <==> FirstFailure(signedIn, idToken, setItem).None?)
      && (eff.result.Ok? ==>
            && TokenKey in eff.store && eff.store[TokenKey] == idToken.value
            && Some(eff.result.value) == MapFirebaseUser(Some(signedIn.value))
            && eff.store.Keys == store.Keys + {TokenKey}
            && forall k :: k in store && k != TokenKey ==> eff.store[k] == store[k])
  {
  }

  /**
   * A sign-in or sign-up that fails rejects with the translation of the
   * first error raised, and leaves the store exactly as it found it.
   */
  lemma PersistSessionFailure(store: map<string, string>, signedIn: Outcome<FirebaseUser>,
                              idToken: Outcome<string>, setItem: Completion, dev: bool)
    requires FirstFailure(signedIn, idToken, setItem).Some?
    ensures var eff := PersistSession(store, signedIn, idToken, setItem, dev);
      && eff.result == Fail(Translate(FirstFailure(signedIn, idToken, setItem).value, dev))
      && eff.store == store
  {
  }

  /**
   * `signOut` removes the token only when both the provider sign-out and
   * the delete complete; a rejection from either is passed on untranslated
   * and the token stays in the store.
   */
  lemma EndSessionOutcome(store: map<string, string>, providerSignOut: Completion, deleteItem: Completion)
    ensures var eff := EndSession(store, providerSignOut, deleteItem);
      && (providerSignOut.Threw? ==> eff.result == providerSignOut && eff.store == store)
      && (providerSignOut.Completed? && deleteItem.Threw? ==> eff.result == deleteItem && eff.store == store)
      && (eff.result.Completed? <==> providerSignOut.Completed? && deleteItem.Completed?)
      && (eff.result.Completed? ==> TokenKey !in eff.store && eff.store == store - {TokenKey})
  {
  }

  class AuthService {
    /** The `expo-secure-store` entries this service writes and deletes. */
    var store: map<string, string>
    /** `__DEV__`: a development build shows raw provider messages in the fallback text. */
    const dev: bool

    constructor(store: map<string, string>, dev: bool)
      ensures this.store == store && this.dev == dev
    {
      this.store := store;
      this.dev := dev;
    }

    /** The steps shared by `signIn` and `signUp` after the provider call. */
    method Persist(signedIn: Outcome<FirebaseUser>, idToken: Outcome<string>, setItem: Completion)
      returns (r: Outcome<AuthUser>)
      modifies this
      ensures SessionEffect(r, store) == PersistSession(old(store), signedIn, idToken, setItem, dev)
    {
      if signedIn.Fail? {
        return Fail(Translate(signedIn.err, dev));
      }
      var user := signedIn.value;
      if idToken.Fail? {
        return Fail(Translate(idToken.err, dev));
      }
      var token := idToken.value;
      if setItem.Threw? {
        return Fail(Translate(setItem.err, dev));
      }
      store := store[TokenKey := token];
      r := Ok(AuthUser(user.uid, NormalizeEmail(user.email)));
    }

    /**
     * `signIn(email, password)`: `signInWithEmailAndPassword` is called with
     * the caller's email and password unchanged; `idToken` and `setItem`
     * are what `getIdToken` and `setItemAsync` settle with.
     */
    method SignIn(email: string, password: string,
                  signInWithEmailAndPassword: (string, string) -> Outcome<FirebaseUser>,
                  idToken: Outcome<string>, setItem: Completion)
      returns (r: Outcome<AuthUser>)
      modifies this
      ensures SessionEffect(r, store)
           == PersistSession(old(store), signInWithEmailAndPassword(email, password), idToken, setItem, dev)
    {
      var signedIn := signInWithEmailAndPassword(email, password);
      r := Persist(signedIn, idToken, setItem);
    }

    /** `signUp(email, password)`: as `signIn`, with `createUserWithEmailAndPassword`. */
    method SignUp(email: string, password: string,
                  createUserWithEmailAndPassword: (string, string) -> Outcome<FirebaseUser>,
                  idToken: Outcome<string>, setItem: Completion)
      returns (r: Outcome<AuthUser>)
      modifies this
      ensures SessionEffect(r, store)
           == PersistSession(old(store), createUserWithEmailAndPassword(email, password), idToken, setItem, dev)
    {
      var created := createUserWithEmailAndPassword(email, password);
      r := Persist(created, idToken, setItem);
    }

    /** `signOut()`: the provider sign-out, then the delete of the token key. */
    method SignOut(providerSignOut: Completion, deleteItem: Completion) returns (r: Completion)
      modifies this
      ensures SignOutEffect(r, store) == EndSession(old(store), providerSignOut, deleteItem)
    {
      if providerSignOut.Threw? {
        return providerSignOut;
      }
      if deleteItem.Threw? {
        return deleteItem;
      }
      store := store - {TokenKey};
      r := Completed;
    }

    /** `getCurrentUser()`: the SDK's current user, normalised like every other user. */
    method GetCurrentUser(currentUser: Option<FirebaseUser>) returns (u: Option<AuthUser>)
      ensures u == MapFirebaseUser(currentUser)
    {
      u := MapFirebaseUser(currentUser);
    }

    /**
     * `onAuthStateChanged(callback)`: each user the SDK pushes reaches the
     * callback through `mapFirebaseUser`, in order, and the disposer handed
     * back is the SDK's own unsubscribe.
     */
    method OnAuthStateChanged(sdkUnsubscribe: Disposer, sdkPushes: seq<Option<FirebaseUser>>)
      returns (stop: Disposer, delivered: seq<Option<AuthUser>>)
      ensures stop == sdkUnsubscribe
      ensures |delivered| == |sdkPushes|
      ensures forall i :: 0 <= i < |sdkPushes| ==> delivered[i] == MapFirebaseUser(sdkPushes[i])
    {
      delivered := seq(|sdkPushes|, i requires 0 <= i < |sdkPushes| => MapFirebaseUser(sdkPushes[i]));
      stop := sdkUnsubscribe;
    }
  }
}
