/**
 * `AuthProvider`: the session state container. Its three state cells
 * (`user`, `isLoading`, `error`) are fields of a class; each of `signIn`,
 * `signUp` and `signOut` is split at its `await` into a `Begin` step (the
 * writes before the service call) and a `Complete` step (the writes of the
 * `try`/`catch`/`finally` once the call has settled). The value of the
 * state is a `Session`, and pure transition functions on it are what the
 * methods are proved against.
 */
module AuthContext {
  import opened AuthTypes

  /** The value of the three state cells. */
  datatype Session = Session(user: Option<AuthUser>, isLoading: bool, error: Option<string>)

  datatype Operation = SignInOp | SignUpOp | SignOutOp

  /** How a service call settled: signed in/up as a user, signed out, or rejected. */
  datatype CallResult = Succeeded(user: Option<AuthUser>) | Failed(err: ThrownError)

  /** A resolved `authService.signIn`/`signUp` yields its user; a rejection its error. */
  function UserCallResult(o: Outcome<AuthUser>): CallResult
  {
    match o
    case Ok(u) => Succeeded(Some(u))
    case Fail(e) => Failed(e)
  }

  /** A resolved `authService.signOut` yields no user. */
  function SignOutCallResult(c: Completion): CallResult
  {
    match c
    case Completed => Succeeded(None)
    case Threw(e) => Failed(e)
  }

  /** The text each operation records when the thrown value has no message. */
  function FallbackError(op: Operation): string
  {
    match op
    case SignInOp => "Sign in failed"
    case SignUpOp => "Sign up failed"
    case SignOutOp => "Sign out failed"
  }

  /** `e?.message ?? '<operation> failed'`: an empty message is kept. */
  function ErrorText(op: Operation, e: ThrownError): string
  {
    match e.message
    case Some(m) => m
    case None => FallbackError(op)
  }

  /** `useState(authService.getCurrentUser())`, `useState(false)`, `useState(null)`. */
  function Initial(currentUser: Option<AuthUser>): Session
  {
    Session(currentUser, false, None)
  }

  /** `setIsLoading(true); setError(null);` */
  function Begin(s: Session): Session
  {
    s.(isLoading := true, error := None)
  }

  /** `setUser(u)` in the `try`, or `setError(...)` in the `catch`; then `setIsLoading(false)`. */
  function Complete(s: Session, op: Operation, r: CallResult): Session
  {
    match r
    case Succeeded(u) => s.(user := u, isLoading := false)
    case Failed(e) => s.(error := Some(ErrorText(op, e)), isLoading := false)
  }

  /** The subscription callback: `setUser(u)`. */
  function Push(s: Session, u: Option<AuthUser>): Session
  {
    s.(user := u)
  }

  /** `isAuthenticated: !!user`, derived from the user and never stored. */
  function Authenticated(s: Session): bool
  {
    s.user.Some?
  }

  /**
   * One whole operation (begin, then completion) from any state: loading
   * is over, a success installs the returned user and leaves no error, and
   * a failure records the thrown message (or the operation's fallback) and
   * leaves the user alone.
   */
  lemma OperationSettles(s: Session, op: Operation, r: CallResult)
    ensures var t := Complete(Begin(s), op, r);
      && !t.isLoading
      && (r.Succeeded? ==> t.user == r.user && t.error.None?)
      && (r.Failed? ==> t.user == s.user && t.error.Some?)
      && (r.Failed? && r.err.message.Some? ==> t.error == r.err.message)
      && (r.Failed? && r.err.message.None? ==> t.error == Some(FallbackError(op)))
  {
  }

  /** A successful sign-out always leaves the container anonymous, whatever it held before. */
  lemma SignOutSuccessIsAnonymous(s: Session)
    ensures !Authenticated(Complete(Begin(s), SignOutOp, SignOutCallResult(Completed)))
  {
  }

  /** A subscription push rewrites only the user: loading and error are untouched. */
  lemma PushTouchesOnlyUser(s: Session, u: Option<AuthUser>)
    ensures Push(s, u).user == u
    ensures Push(s, u).isLoading == s.isLoading && Push(s, u).error == s.error
    ensures Authenticated(Push(s, u)) <==> u.Some?
  {
  }

  /**
   * The accepted race: when two operations overlap, the first to settle
   * already clears `isLoading` although the other is still in flight; the
   * second to settle overwrites the user, and a success settling second
   * does not clear the error the first one's failure recorded (it was
   * cleared when the second began, before that failure).
   */
  lemma OverlappingOperationsRace(s: Session, first: Operation, r1: CallResult,
                                  second: Operation, r2: CallResult)
    ensures !Complete(Begin(Begin(s)), first, r1).isLoading
    ensures var t := Complete(Complete(Begin(Begin(s)), first, r1), second, r2);
      && !t.isLoading
      && (r2.Succeeded? ==> t.user == r2.user)
      && (r2.Failed? ==> t.error == Some(ErrorText(second, r2.err)))
      && (r1.Failed? && r2.Succeeded? ==> t.error == Some(ErrorText(first, r1.err)))
  {
  }

  /** An event seen at rest: a whole operation, or a subscription push. */
  datatype Event = Operated(op: Operation, result: CallResult) | Pushed(user: Option<AuthUser>)

  function Step(s: Session, ev: Event): Session
  {
    match ev
    case Operated(op, r) => Complete(Begin(s), op, r)
    case Pushed(u) => Push(s, u)
  }

  /** The state after a history of events, applied oldest first. */
  function Run(s: Session, history: seq<Event>): Session
    decreases |history|
  {
    if history == [] then s else Step(Run(s, history[..|history| - 1]), history[|history| - 1])
  }

  /** The error the latest operation of a history leaves, or None if there is none. */
  function LatestError(s: Session, history: seq<Event>): Option<string>
    decreases |history|
  {
    if history == [] then s.error
    else match history[|history| - 1]
      case Operated(op, r) => if r.Failed? then Some(ErrorText(op, r.err)) else None
      case Pushed(_) => LatestError(s, history[..|history| - 1])
  }

  /** The user written last in a history: by a successful operation or a push. */
  function LatestUser(s: Session, history: seq<Event>): Option<AuthUser>
    decreases |history|
  {
    if history == [] then s.user
    else match history[|history| - 1]
      case Operated(_, Succeeded(u)) => u
      case Operated(_, Failed(_)) => LatestUser(s, history[..|history| - 1])
      case Pushed(u) => u
  }

  /** Between operations the container is never loading: every operation clears its own flag. */
  lemma {:induction false} AtRestNotLoading(s: Session, history: seq<Event>)
    requires !s.isLoading
    ensures !Run(s, history).isLoading
    decreases |history|
  {
    if history != [] {
      AtRestNotLoading(s, history[..|history| - 1]);
    }
  }

  /**
   * The error is never carried across operations: after any history it is
   * exactly what the latest operation left (pushes do not touch it).
   */
  lemma {:induction false} ErrorIsLatestOperations(s: Session, history: seq<Event>)
    ensures Run(s, history).error == LatestError(s, history)
    decreases |history|
  {
    if history != [] {
      ErrorIsLatestOperations(s, history[..|history| - 1]);
    }
  }

  /** Last writer wins: the user is whatever the latest successful operation or push wrote. */
  lemma {:induction false} UserIsLatestWrite(s: Session, history: seq<Event>)
    ensures Run(s, history).user == LatestUser(s, history)
    decreases |history|
  {
    if history != [] {
      UserIsLatestWrite(s, history[..|history| - 1]);
    }
  }

  class AuthProvider {
    var user: Option<AuthUser>
    var isLoading: bool
    var error: Option<string>
    /** True from the `useEffect` registration until its cleanup has run. */
    var subscribed: bool
    /** The disposer `authService.onAuthStateChanged` returned. */
    const unsubscribe: Disposer

    function State(): Session
      reads this
    {
      Session(user, isLoading, error)
    }

    function IsAuthenticated(): (b: bool)
      reads this
      ensures b == Authenticated(State())
    {
      user.Some?
    }

    /**
     * Mounting: the state starts from the service's current user, not
     * loading and without error, and the push callback is registered.
     */
    constructor(currentUser: Option<AuthUser>, unsubscribe: Disposer)
      ensures State() == Initial(currentUser)
      ensures subscribed && this.unsubscribe == unsubscribe
    {
      user := currentUser;
      isLoading := false;
      error := None;
      subscribed := true;
      this.unsubscribe := unsubscribe;
    }

    /** The writes before `await authService.*(...)`, shared by all three operations. */
    method StartOperation()
      modifies this
      ensures State() == Begin(old(State()))
      ensures isLoading && error.None? && user == old(user)
      ensures subscribed == old(subscribed)
    {
      isLoading := true;
      error := None;
    }

    /** The settled `signIn`: the user on success, the error on failure; never rethrown. */
    method CompleteSignIn(o: Outcome<AuthUser>)
      modifies this
      ensures State() == Complete(old(State()), SignInOp, UserCallResult(o))
      ensures subscribed == old(subscribed)
    {
      match o {
        case Ok(u) => user := Some(u);
        case Fail(e) => error := Some(ErrorText(SignInOp, e));
      }
      isLoading := false;
    }

    /** The settled `signUp`. */
    method CompleteSignUp(o: Outcome<AuthUser>)
      modifies this
      ensures State() == Complete(old(State()), SignUpOp, UserCallResult(o))
      ensures subscribed == old(subscribed)
    {
      match o {
        case Ok(u) => user := Some(u);
        case Fail(e) => error := Some(ErrorText(SignUpOp, e));
      }
      isLoading := false;
    }

    /** The settled `signOut`: no user on success. */
    method CompleteSignOut(c: Completion)
      modifies this
      ensures State() == Complete(old(State()), SignOutOp, SignOutCallResult(c))
      ensures subscribed == old(subscribed)
    {
      match c {
        case Completed => user := None;
        case Threw(e) => error := Some(ErrorText(SignOutOp, e));
      }
      isLoading := false;
    }

    /** The subscription callback; the service calls it only while the registration stands. */
    method OnAuthStateChanged(u: Option<AuthUser>)
      requires subscribed
      modifies this
      ensures State() == Push(old(State()), u)
      ensures subscribed
    {
      user := u;
    }

    /** Unmounting: the effect's cleanup is the service's own unsubscribe; the state is left as it is. */
    method Teardown() returns (dispose: Disposer)
      modifies this
      ensures dispose == unsubscribe
      ensures !subscribed && State() == old(State())
    {
      subscribed := false;
      dispose := unsubscribe;
    }
  }
}
