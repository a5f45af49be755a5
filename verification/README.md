# Email/password authentication core of an Expo app, modelled in Dafny

This project models the three pieces of logic behind the app's Firebase
email/password authentication and proves properties of them.

- **The Firebase service** (`FirebaseEmailPasswordAuthService`):
  - `mapErrorToMessage` translates a provider error into the text shown to
    the user. It has a table of recognised `auth/...` codes and a computed
    fallback.
  - `mapFirebaseUser` normalises the SDK's user into an `AuthUser`.
  - `signIn`, `signUp` and `signOut` keep the Firebase ID token in the
    secure store under `firebase_id_token`.
- **The session container** (`AuthProvider`):
  - It holds three state cells: `user`, `isLoading` and `error`.
    `isAuthenticated` is derived from `user`.
  - Each of its three operations sets the loading flag, clears the error,
    awaits the service and then records the outcome. Failures are
    swallowed into `error`.
  - A subscription callback overwrites only the user.
- **Config loading** (`firebaseApp.ts`):
  - Each field of the Firebase web configuration is resolved by the
    precedence trimmed environment value ?? trimmed Expo `extra` value ??
    bundled fallback. `measurementId` has no fallback.
  - Three guards can reject the result.

## Files and modules

- `auth_types.dfy`, module `AuthTypes`: the shared vocabulary.
  - `AuthUser`, `Option` (for `null`/`undefined`) and `ThrownError` (what
    `e?.code` and `e?.message` see of a thrown value).
  - `Outcome` and `Completion`: a promise that resolves or rejects.
  - `Disposer`, plus JavaScript truthiness and the `??` operator.
- `error_translation.dfy`, module `ErrorTranslation`: `mapErrorToMessage`,
  with the `__DEV__` flag as a parameter.
- `firebase_auth_service.dfy`, module `FirebaseAuthService`:
  - `TokenKey`, `mapFirebaseUser`, and the effect functions
    `PersistSession` and `EndSession`.
  - The class `AuthService`, whose `store` field is the secure store. Its
    methods are proved against the effect functions.
  - Each SDK call is a parameter holding what the call resolves or rejects
    with. The provider call is a function of the email and password, so
    the contracts show that these are passed through unchanged.
- `auth_context.dfy`, module `AuthContext`:
  - The value `Session` and the pure transitions `Initial`, `Begin`,
    `Complete` and `Push`.
  - The class `AuthProvider`. Each operation is split at its `await` into
    `StartOperation` and a `Complete...` step.
  - Lemmas over whole histories of operations and pushes.
- `firebase_config.dfy`, module `FirebaseConfig`: `sanitize` (with
  `String.prototype.trim` over the ECMAScript whitespace set), field
  resolution and validation.
- `auth_flow.dfy`, module `AuthFlow`: the container wired to the Firebase
  service, from the SDK's outcome to the state on screen and the store.

## Model

| member | source | states |
|---|---|---|
| ErrorTranslation.KnownMessage | src/services/auth/FirebaseEmailPasswordAuthService.ts:23-50 | every recognised code's message is a non-empty string |
| ErrorTranslation.MapErrorToMessage | src/services/auth/FirebaseEmailPasswordAuthService.ts:13-55 | total: every error yields a non-empty string; a code with no case yields the default-branch text |
| ErrorTranslation.Tail | src/services/auth/FirebaseEmailPasswordAuthService.ts:53 | the fallback's tail is never empty and starts with `:` (raw message) or `.` (retry hint) |
| ErrorTranslation.KnownCodeTranslated | src/services/auth/FirebaseEmailPasswordAuthService.ts:23-50 | a recognised code always yields its table entry; the raw message and `__DEV__` do not matter |
| ErrorTranslation.CredentialCodesShareMessage | src/services/auth/FirebaseEmailPasswordAuthService.ts:28-30 | `auth/user-not-found` and `auth/wrong-password` give the same message, "Invalid credentials. Please check your email and password." |
| ErrorTranslation.InvalidEmailMessage | src/services/auth/FirebaseEmailPasswordAuthService.ts:26-27 | `auth/invalid-email` gives exactly "The email address is invalid.", whatever the message |
| ErrorTranslation.UnknownCodesFallBack | src/services/auth/FirebaseEmailPasswordAuthService.ts:51-53 | an absent or unrecognised code gives text starting "Authentication failed" |
| ErrorTranslation.DefaultMessageNamesCode | src/services/auth/FirebaseEmailPasswordAuthService.ts:53 | the fallback continues with " (code)" after its prefix if and only if the code is truthy |
| ErrorTranslation.DefaultMessageEnding | src/services/auth/FirebaseEmailPasswordAuthService.ts:53 | the fallback ends with ": message" when the message is truthy in a development build, otherwise with ". Please try again." |
| FirebaseAuthService.NormalizeEmail | src/services/auth/FirebaseEmailPasswordAuthService.ts:10 | `email ?? null`: null exactly when the email is missing or null; a string, even `""`, is kept |
| FirebaseAuthService.MapFirebaseUser | src/services/auth/FirebaseEmailPasswordAuthService.ts:8-11 | no user maps to null and only no user does; otherwise the uid is copied and a missing email becomes null |
| FirebaseAuthService.Translate | src/services/auth/FirebaseEmailPasswordAuthService.ts:67 | the rethrown Error has no code and its message is exactly `mapErrorToMessage(err)`: non-empty, and the table entry for a recognised code |
| FirebaseAuthService.PersistSessionSuccess | src/services/auth/FirebaseEmailPasswordAuthService.ts:58-63 | success exactly when the provider call, `getIdToken` and `setItemAsync` all succeed; the provider's token is then under `firebase_id_token`, the user is `mapFirebaseUser`'s, and every other store entry is unchanged |
| FirebaseAuthService.PersistSessionFailure | src/services/auth/FirebaseEmailPasswordAuthService.ts:59-68 | a failure rejects with the translation of the first error raised and leaves the store as it was |
| FirebaseAuthService.EndSessionOutcome | src/services/auth/FirebaseEmailPasswordAuthService.ts:84-87 | the token is removed only when the provider sign-out and the delete both complete; either rejection passes on untranslated with the token still stored |
| FirebaseAuthService.AuthService.constructor | src/services/auth/FirebaseEmailPasswordAuthService.ts:57 | the service starts over the given store and `__DEV__` flag |
| FirebaseAuthService.AuthService.Persist | src/services/auth/FirebaseEmailPasswordAuthService.ts:59-68 | the token-fetch, store-write and return steps leave the result and store that `PersistSession` gives |
| FirebaseAuthService.AuthService.SignIn | src/services/auth/FirebaseEmailPasswordAuthService.ts:58-69 | `signInWithEmailAndPassword` gets the caller's email and password; the result and new store are `PersistSession` of its outcome |
| FirebaseAuthService.AuthService.SignUp | src/services/auth/FirebaseEmailPasswordAuthService.ts:71-82 | as `SignIn`, with `createUserWithEmailAndPassword` |
| FirebaseAuthService.AuthService.SignOut | src/services/auth/FirebaseEmailPasswordAuthService.ts:84-87 | the result and new store are `EndSession`'s: provider first, then the delete, with no try/finally |
| FirebaseAuthService.AuthService.GetCurrentUser | src/services/auth/FirebaseEmailPasswordAuthService.ts:89-91 | the SDK's current user goes through `mapFirebaseUser` |
| FirebaseAuthService.AuthService.OnAuthStateChanged | src/services/auth/FirebaseEmailPasswordAuthService.ts:93-98 | every push goes through `mapFirebaseUser`, in order; the disposer returned is the SDK's own unsubscribe |
| AuthContext.OperationSettles | src/context/AuthContext.tsx:38-73 | a whole operation ends not loading. Success installs the returned user (null for sign-out) with no error. Failure keeps the user and records the thrown message, or the operation's fallback text when there is none |
| AuthContext.SignOutSuccessIsAnonymous | src/context/AuthContext.tsx:66-67 | a successful sign-out always ends unauthenticated |
| AuthContext.PushTouchesOnlyUser | src/context/AuthContext.tsx:27-29 | a push sets the user (and so `isAuthenticated`) and leaves `isLoading` and `error` untouched |
| AuthContext.OverlappingOperationsRace | src/context/AuthContext.tsx:38-73 | with two operations overlapping, the first to settle clears `isLoading` while the other is pending. The second overwrites the user, and a second-settling success does not clear the first's error |
| AuthContext.AtRestNotLoading | src/context/AuthContext.tsx:46-48 | from a state that is not loading, no history of whole operations and pushes leaves it loading |
| AuthContext.ErrorIsLatestOperations | src/context/AuthContext.tsx:39-45 | after any history, `error` is exactly what the latest operation left; errors never carry over, and pushes do not touch them |
| AuthContext.UserIsLatestWrite | src/context/AuthContext.tsx:27-29 | after any history, `user` is what the latest successful operation or push wrote (last writer wins) |
| AuthContext.AuthProvider.IsAuthenticated | src/context/AuthContext.tsx:35 | `isAuthenticated` is true exactly when there is a user, computed and never stored |
| AuthContext.AuthProvider.constructor | src/context/AuthContext.tsx:22-31 | the initial state is the service's current user, not loading, no error, with the push callback registered |
| AuthContext.AuthProvider.StartOperation | src/context/AuthContext.tsx:39-40 | sets `isLoading` and clears `error` before the service call; the user is unchanged |
| AuthContext.AuthProvider.CompleteSignIn | src/context/AuthContext.tsx:41-48 | the state becomes `Complete` of the sign-in outcome, with the "Sign in failed" fallback |
| AuthContext.AuthProvider.CompleteSignUp | src/context/AuthContext.tsx:53-60 | the state becomes `Complete` of the sign-up outcome, with the "Sign up failed" fallback |
| AuthContext.AuthProvider.CompleteSignOut | src/context/AuthContext.tsx:65-72 | the state becomes `Complete` of the sign-out outcome: null user on success, "Sign out failed" fallback |
| AuthContext.AuthProvider.OnAuthStateChanged | src/context/AuthContext.tsx:27-29 | a push while subscribed sets only the user |
| AuthContext.AuthProvider.Teardown | src/context/AuthContext.tsx:30 | the effect's cleanup is the service's unsubscribe; the registration ends and the state is unchanged |
| FirebaseConfig.TrimStart | src/services/auth/firebaseApp.ts:20 | `trim`'s left half: a suffix not starting with whitespace, all dropped characters whitespace |
| FirebaseConfig.TrimEnd | src/services/auth/firebaseApp.ts:20 | `trim`'s right half: a prefix not ending with whitespace, all dropped characters whitespace |
| FirebaseConfig.TrimShape | src/services/auth/firebaseApp.ts:20 | `trim` keeps a contiguous piece with no whitespace at either end and removes only whitespace |
| FirebaseConfig.TrimEmptyExactly | src/services/auth/firebaseApp.ts:20 | a string trims to `""` if and only if it is all whitespace |
| FirebaseConfig.Sanitize | src/services/auth/firebaseApp.ts:19-21 | `sanitize`: the trimmed string for a string, undefined for anything else |
| FirebaseConfig.ResolveFieldPrecedence | src/services/auth/firebaseApp.ts:24-29 | a field comes from the environment if that holds a string, else from `extra`, else from the fallback |
| FirebaseConfig.BlankEnvironmentValueWins | src/services/auth/firebaseApp.ts:20-29 | a whitespace-only environment value resolves to `""` and hides `extra` and the fallback, because `??` does not skip `""` |
| FirebaseConfig.BlankEnvironmentApiKeyRejected | src/services/auth/firebaseApp.ts:24-36 | a whitespace-only API key in the environment makes loading fail with the missing-API-key error, even if `extra` or the fallback holds a valid key |
| FirebaseConfig.MeasurementIdHasNoFallback | src/services/auth/firebaseApp.ts:30 | `measurementId` is the trimmed environment string if there is one, else the trimmed `extra` string, and stays undefined when neither holds a string (no fallback) |
| FirebaseConfig.Validate | src/services/auth/firebaseApp.ts:34-44 | missing-API-key if and only if the key is falsy. Missing-app-id if and only if the key is present and the app id falsy. Invalid-format if and only if both are present and the key lacks `AIza`. Otherwise it loads the resolved config unchanged |
| FirebaseConfig.LoadedConfigIsUsable | src/services/auth/firebaseApp.ts:23-44 | a config that loads is the resolved one, with a non-empty app id and an API key starting with `AIza` |
| AuthFlow.Mount | src/context/AuthContext.tsx:22-31 | mounting over the service starts from `mapFirebaseUser` of the SDK's current user and keeps the SDK's unsubscribe for teardown |
| AuthFlow.SignIn | src/context/AuthContext.tsx:38-49 | the container's sign-in over the Firebase service: the store is `PersistSession`'s and the state is `Complete(Begin(...))` of its result |
| AuthFlow.SignUp | src/context/AuthContext.tsx:50-61 | as `SignIn`, for sign-up |
| AuthFlow.SignOut | src/context/AuthContext.tsx:62-73 | the container's sign-out over the Firebase service: the store is `EndSession`'s and the state is `Complete(Begin(...))` of its result |
| AuthFlow.FailedSignInShowsTranslation | src/services/auth/FirebaseEmailPasswordAuthService.ts:64-68 | a failed sign-in shows `mapErrorToMessage` of the first error raised, keeps the user and leaves the store untouched |
| AuthFlow.InvalidEmailSignIn | __tests__/FirebaseEmailPasswordAuthService.test.ts:95-100 | a sign-in rejected with `auth/invalid-email` ends with exactly "The email address is invalid." in `error` |
| AuthFlow.SignInThenSignOut | __tests__/FirebaseEmailPasswordAuthService.test.ts:34-69 | a successful sign-in shows the normalised user. A successful sign-out after it leaves no user, no error, not loading, and a store without the token but otherwise as before |
| AuthFlow.FailedProviderSignOutKeepsToken | src/services/auth/FirebaseEmailPasswordAuthService.ts:84-87 | when the provider sign-out rejects, the token stays, the user stays, and `error` is the raw untranslated message, or "Sign out failed" when it has none |

## Notes on the code

- **Sign-out.** `signOut` has no try/finally. When the provider sign-out
  rejects, the token stays stored and the raw error propagates
  (`EndSessionOutcome`, `FailedProviderSignOutKeepsToken`).
- **Error table.** The `switch` on the error code is modelled as a lookup
  table (`Table`). The cases compare against distinct string literals, so
  the two are equivalent.

## Left out

- The Firebase SDK (`signInWithEmailAndPassword`,
  `createUserWithEmailAndPassword`, `signOut`, `onAuthStateChanged`,
  `getIdToken`) and `expo-secure-store` perform network and storage I/O.
  They become outcome parameters and the `store` map. A `setItemAsync` or
  `deleteItemAsync` that rejects is assumed to leave the store unchanged.
- Asynchronous interleaving is not modelled as concurrency. Operations are
  `StartOperation`/`Complete...` steps that a caller may interleave.
  Overlapping operations are covered only by `OverlappingOperationsRace`.
- `__DEV__` console logging, including `mask`, only produces output. It is
  left out, and `__DEV__` is a parameter where it changes the returned
  text.
- `initializeApp`, `getApps`, `getAuth`, and the reads of `process.env`
  and `Constants` are module-level SDK wiring. The three configuration
  sources are inputs instead. When `extra.firebase` is absent, the caller
  passes a `Source` of `Undefined`s.
- `config/firebase` (the bundled fallback) is not part of this model. Each
  of its fields is taken to be a string or missing.
- React plumbing (`createContext`, `useMemo`, `useEffect` scheduling,
  `useAuth`) is left out. The container is an explicitly constructed
  object.
- The `IAuthService` interface has no polymorphic form here. The
  container's completion steps take any service's outcome, and `AuthFlow`
  wires it to the Firebase service.
- Email and password validation and the screens are not part of this
  model. `src/utils/validation.ts` is not part of this model.
- ErrorTranslation.MapErrorToMessage: an error `code` that is not a string
  (a number, say) is not modelled. Codes are strings or absent.
- AuthContext.AuthProvider.OnAuthStateChanged: requires the registration
  to be live. This relies on the SDK's guarantee that no callback arrives
  after unsubscribe; the source itself has no such check.
