/**
 * The container driven by the Firebase service, as the application wires
 * them: each container operation starts, awaits the service call with the
 * caller's arguments, and settles with what the service resolved or
 * rejected with. The lemmas follow one operation from the SDK's outcome to
 * the state the screens read and to the secure store.
 */
module AuthFlow {
  import opened AuthTypes
  import opened ErrorTranslation
  import opened FirebaseAuthService
  import opened AuthContext

  /** Mounting `AuthProvider` over the service: read the current user, register the push callback. */
  method Mount(svc: AuthService, currentUser: Option<FirebaseUser>, sdkUnsubscribe: Disposer)
    returns (ctx: AuthProvider)
    ensures fresh(ctx)
    ensures ctx.State() == Initial(MapFirebaseUser(currentUser))
    ensures ctx.subscribed && ctx.unsubscribe == sdkUnsubscribe
  {
    var u := svc.GetCurrentUser(currentUser);
    var stop, _ := svc.OnAuthStateChanged(sdkUnsubscribe, []);
    ctx := new AuthProvider(u, stop);
  }

  /** The container's `signIn(email, password)` over the Firebase service. */
  method SignIn(ctx: AuthProvider, svc: AuthService, email: string, password: string,
                signInWithEmailAndPassword: (string, string) -> Outcome<FirebaseUser>,
                idToken: Outcome<string>, setItem: Completion)
    modifies ctx, svc
    ensures var eff := PersistSession(old(svc.store), signInWithEmailAndPassword(email, password),
                                      idToken, setItem, svc.dev);
      && svc.store == eff.store
      && ctx.State() == Complete(Begin(old(ctx.State())), SignInOp, UserCallResult(eff.result))
    ensures ctx.subscribed == old(ctx.subscribed)
  {
    ctx.StartOperation();
    var r := svc.SignIn(email, password, signInWithEmailAndPassword, idToken, setItem);
    ctx.CompleteSignIn(r);
  }

  /** The container's `signUp(email, password)` over the Firebase service. */
  method SignUp(ctx: AuthProvider, svc: AuthService, email: string, password: string,
                createUserWithEmailAndPassword: (string, string) -> Outcome<FirebaseUser>,
                idToken: Outcome<string>, setItem: Completion)
    modifies ctx, svc
    ensures var eff := PersistSession(old(svc.store), createUserWithEmailAndPassword(email, password),
                                      idToken, setItem, svc.dev);
      && svc.store == eff.store
      && ctx.State() == Complete(Begin(old(ctx.State())), SignUpOp, UserCallResult(eff.result))
    ensures ctx.subscribed == old(ctx.subscribed)
  {
    ctx.StartOperation();
    var r := svc.SignUp(email, password, createUserWithEmailAndPassword, idToken, setItem);
    ctx.CompleteSignUp(r);
  }

  /** The container's `signOut()` over the Firebase service. */
  method SignOut(ctx: AuthProvider, svc: AuthService, providerSignOut: Completion, deleteItem: Completion)
    modifies ctx, svc
    ensures var eff := EndSession(old(svc.store), providerSignOut, deleteItem);
      && svc.store == eff.store
      && ctx.State() == Complete(Begin(old(ctx.State())), SignOutOp, SignOutCallResult(eff.result))
    ensures ctx.subscribed == old(ctx.subscribed)
  {
    ctx.StartOperation();
    var r := svc.SignOut(providerSignOut, deleteItem);
    ctx.CompleteSignOut(r);
  }

  /**
   * A failed sign-in through Firebase shows the translation of the first
   * error raised (never the container's own fallback text, since the
   * service always throws an Error with a message), keeps the user and
   * leaves the store untouched.
   */
  lemma FailedSignInShowsTranslation(s: Session, store: map<string, string>,
                                     signedIn: Outcome<FirebaseUser>, idToken: Outcome<string>,
                                     setItem: Completion, dev: bool)
    requires FirstFailure(signedIn, idToken, setItem).Some?
    ensures var eff := PersistSession(store, signedIn, idToken, setItem, dev);
      var t := Complete(Begin(s), SignInOp, UserCallResult(eff.result));
      && t.error == Some(MapErrorToMessage(FirstFailure(signedIn, idToken, setItem).value, dev))
      && t.user == s.user && !t.isLoading
      && eff.store == store
  {
    PersistSessionFailure(store, signedIn, idToken, setItem, dev);
  }

  /** The rejected `auth/invalid-email` sign-in ends with exactly "The email address is invalid." on screen. */
  lemma InvalidEmailSignIn(s: Session, store: map<string, string>, message: Option<string>,
                           idToken: Outcome<string>, setItem: Completion, dev: bool)
    ensures var eff := PersistSession(store, Fail(ThrownError(Some("auth/invalid-email"), message)),
                                      idToken, setItem, dev);
      Complete(Begin(s), SignInOp, UserCallResult(eff.result)).error
        == Some("The email address is invalid.")
  {
    InvalidEmailMessage(message, dev);
  }

  /**
   * A sign-in that succeeds followed by a sign-out that succeeds leaves the
   * container anonymous, idle and without error, and the store without a
   * token but otherwise as it was before the sign-in.
   */
  lemma SignInThenSignOut(s: Session, store: map<string, string>, user: FirebaseUser,
                          token: string, dev: bool)
    ensures var signIn := PersistSession(store, Ok(user), Ok(token), Completed, dev);
      var signOut := EndSession(signIn.store, Completed, Completed);
      var t := Complete(Begin(Complete(Begin(s), SignInOp, UserCallResult(signIn.result))),
                        SignOutOp, SignOutCallResult(signOut.result));
      && Complete(Begin(s), SignInOp, UserCallResult(signIn.result)).user == MapFirebaseUser(Some(user))
      && t.user.None? && t.error.None? && !t.isLoading
      && TokenKey !in signOut.store
      && signOut.store == store - {TokenKey}
  {
    PersistSessionSuccess(store, Ok(user), Ok(token), Completed, dev);
    EndSessionOutcome(PersistSession(store, Ok(user), Ok(token), Completed, dev).store, Completed, Completed);
  }

  /**
   * When the provider's sign-out rejects, the token stays stored, the user
   * stays signed in, and the container shows the raw, untranslated message,
   * or "Sign out failed" when the rejection carries none.
   */
  lemma FailedProviderSignOutKeepsToken(s: Session, store: map<string, string>,
                                        e: ThrownError, deleteItem: Completion)
    ensures var eff := EndSession(store, Threw(e), deleteItem);
      var t := Complete(Begin(s), SignOutOp, SignOutCallResult(eff.result));
      && eff.store == store
      && (TokenKey in store ==> TokenKey in eff.store && eff.store[TokenKey] == store[TokenKey])
      && t.user == s.user && !t.isLoading
      && (e.message.Some? ==> t.error == e.message)
      && (e.message.None? ==> t.error == Some("Sign out failed"))
  {
    EndSessionOutcome(store, Threw(e), deleteItem);
  }
}
