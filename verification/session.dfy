/**
  The session store of `AuthProvider`: the signed-in user, the loading flag and the one
  storage key `quantiva_user` that survives a reload. Every transition is a pure function
  from the store's state to its next state; the one-second simulated latency of sign-in and
  sign-up is the gap between `Begin` and the completed transition.
 */
module Session {
  import opened Wrappers
  import JsString

  datatype User = User(id: string, name: string, email: string)

  /** What the storage key can hold: a record written by `JSON.stringify`, or some other text
      that `JSON.parse` rejects (put there by anything other than this store). */
  datatype Record = Saved(user: User) | Unparseable(text: string)

  datatype State = State(user: Option<User>, isLoading: bool, stored: Option<Record>)

  /** Result of the start-up check: it either runs to `setIsLoading(false)` or `JSON.parse`
      throws first, leaving the state exactly as it was. */
  datatype Restored = Restored(state: State) | ParseThrew(state: State)

  datatype Op =
    | SignInOp(email: string, password: string)
    | SignUpOp(name: string, email: string, password: string)
    | SignOutOp

  /** The id every mock user gets. */
  const MockId: string := "1"

  /** The state the provider mounts with, before the start-up check runs. */
  function Initial(stored: Option<Record>): (r: State)
    ensures r.user.None? && r.isLoading && r.stored == stored
  {
    State(None, true, stored)
  }

  /** A slot whose text `JSON.parse` will be asked to read and will reject. The empty string
      is not one: JavaScript treats it as false, so the check skips it. */
  predicate Corrupt(stored: Option<Record>) {
    stored.Some? && stored.value.Unparseable? && stored.value.text != ""
  }

  /** The start-up check. */
  function Restore(s: State): (r: Restored)
    ensures r.state.stored == s.stored
    ensures r.ParseThrew? <==> Corrupt(s.stored)
    ensures r.ParseThrew? ==> r.state == s
    ensures r.Restored? ==> !r.state.isLoading
    ensures r.Restored? && s.stored.Some? && s.stored.value.Saved? ==> r.state.user == Some(s.stored.value.user)
    ensures r.Restored? && !(s.stored.Some? && s.stored.value.Saved?) ==> r.state.user == s.user
  {
    match s.stored
    case None => Restored(s.(isLoading := false))
    case Some(Saved(u)) => Restored(s.(user := Some(u), isLoading := false))
    case Some(Unparseable(text)) =>
      if text == "" then Restored(s.(isLoading := false)) else ParseThrew(s)
  }

  /** `email.split('@')[0]`: the longest prefix of `email` that holds no '@'. */
  function DisplayName(email: string): (name: string)
    ensures |name| <= |email|
    ensures name == email[..|name|]
    ensures '@' !in name
    ensures |name| < |email| ==> email[|name|] == '@'
  {
    JsString.Split(email, '@')[0]
  }

  /** The three facts of `DisplayName` pin the name down: it is the only such prefix. */
  lemma DisplayNameUnique(email: string, p: string)
    requires |p| <= |email| && p == email[..|p|]
    requires '@' !in p
    requires |p| < |email| ==> email[|p|] == '@'
    ensures p == DisplayName(email)
  {
  }

  /** The display names of the examples a reader would try first. */
  lemma DisplayNameExamples()
    ensures DisplayName("trader@x.com") == "trader"
    ensures DisplayName("noatsign") == "noatsign"
    ensures DisplayName("a@b@c") == "a"
    ensures DisplayName("@x.com") == ""
    ensures DisplayName("") == ""
  {
    DisplayNameUnique("trader@x.com", "trader");
    DisplayNameUnique("noatsign", "noatsign");
    DisplayNameUnique("a@b@c", "a");
    DisplayNameUnique("@x.com", "");
  }

  /** The first half of sign-in and sign-up: the loading flag goes up while the simulated call
      is outstanding, and nothing else moves. */
  function Begin(s: State): (r: State)
    ensures r.isLoading
    ensures r.user == s.user && r.stored == s.stored
  {
    s.(isLoading := true)
  }

  /** The store after `u` has been set and written to the slot. */
  function SignedInAs(u: User): (r: State)
    ensures r.user == Some(u) && r.stored == Some(Saved(u)) && !r.isLoading
  {
    State(Some(u), false, Some(Saved(u)))
  }

  /** `signIn` once its delay has elapsed. The password is never read and nothing is rejected. */
  function SignIn(s: State, email: string, password: string): (r: State)
    ensures r.user.Some? && r.user.value.id == MockId && r.user.value.email == email
    ensures r.user.value.name == DisplayName(email)
    ensures r.stored == Some(Saved(r.user.value))
    ensures !r.isLoading
  {
    SignedInAs(User(MockId, DisplayName(email), email))
  }

  /** `signUp` once its delay has elapsed: the given name is kept verbatim. */
  function SignUp(s: State, name: string, email: string, password: string): (r: State)
    ensures r.user == Some(User(MockId, name, email))
    ensures r.stored == Some(Saved(r.user.value))
    ensures !r.isLoading
  {
    SignedInAs(User(MockId, name, email))
  }

  /** `signOut`: forget the user and remove the key; the loading flag is not touched. */
  function SignOut(s: State): (r: State)
    ensures r.user.None? && r.stored.None?
    ensures r.isLoading == s.isLoading
  {
    s.(user := None, stored := None)
  }

  /** Neither sign-in nor sign-up can fail: the result ignores the previous state and the
      password entirely, so the previous session is always replaced. */
  lemma NoFailurePath(s1: State, s2: State, name: string, email: string, p1: string, p2: string)
    ensures SignIn(s1, email, p1) == SignIn(s2, email, p2)
    ensures SignUp(s1, name, email, p1) == SignUp(s2, name, email, p2)
    ensures SignIn(s1, "", p1).user.value.name == ""
  {
  }

  /** Signing out twice leaves the store as signing out once does. */
  lemma SignOutIdempotent(s: State)
    ensures SignOut(SignOut(s)) == SignOut(s)
  {
  }

  /** Every user held in memory is the one in the slot. */
  predicate Persisted(s: State) {
    s.user.Some? ==> s.stored == Some(Saved(s.user.value))
  }

  /** Memory and slot agree exactly: a reload would read back the same session. */
  predicate Synced(s: State) {
    match s.stored
    case None => s.user.None?
    case Some(Saved(u)) => s.user == Some(u)
    case Some(Unparseable(text)) => text == "" && s.user.None?
  }

  /** What holds in every reachable state: the slot backs the user, and once loading is over
      memory and slot agree. */
  predicate Healthy(s: State) {
    Persisted(s) && (!s.isLoading ==> Synced(s))
  }

  function Apply(s: State, op: Op): State {
    match op
    case SignInOp(email, password) => SignIn(Begin(s), email, password)
    case SignUpOp(name, email, password) => SignUp(Begin(s), name, email, password)
    case SignOutOp => SignOut(s)
  }

  function ApplyAll(s: State, ops: seq<Op>): State
    decreases |ops|
  {
    if ops == [] then s else ApplyAll(Apply(s, ops[0]), ops[1..])
  }

  /** A session: mount with whatever the slot holds, run the start-up check, then apply `ops`. */
  function Run(stored: Option<Record>, ops: seq<Op>): State {
    ApplyAll(Restore(Initial(stored)).state, ops)
  }

  lemma RestorePreservesHealthy(s: State)
    requires Healthy(s) && s.isLoading
    ensures Healthy(Restore(s).state)
  {
  }

  lemma ApplyPreservesHealthy(s: State, op: Op)
    requires Healthy(s)
    ensures Healthy(Apply(s, op))
  {
  }

  lemma {:induction false} ApplyAllPreservesHealthy(s: State, ops: seq<Op>)
    requires Healthy(s)
    ensures Healthy(ApplyAll(s, ops))
    decreases |ops|
  {
    if ops != [] {
      ApplyPreservesHealthy(s, ops[0]);
      ApplyAllPreservesHealthy(Apply(s, ops[0]), ops[1..]);
    }
  }

  /** Every state a session reaches is healthy, whatever the slot held at mount. */
  lemma RunIsHealthy(stored: Option<Record>, ops: seq<Op>)
    ensures Healthy(Run(stored, ops))
  {
    RestorePreservesHealthy(Initial(stored));
    ApplyAllPreservesHealthy(Restore(Initial(stored)).state, ops);
  }

  /** Reloading the page reproduces a settled, synced session exactly. */
  lemma RestartReproduces(s: State)
    requires !s.isLoading && Synced(s)
    ensures Restore(Initial(s.stored)) == Restored(s)
  {
  }

  /** Round trip: sign in, reload, and the start-up check restores the same user. */
  lemma SignInSurvivesReload(s: State, email: string, password: string)
    ensures Restore(Initial(SignIn(Begin(s), email, password).stored))
         == Restored(SignIn(Begin(s), email, password))
    ensures Restore(Initial(SignIn(Begin(s), email, password).stored)).state.user.value.name
         == DisplayName(email)
  {
  }

  /** A corrupt slot stalls start-up: the user stays absent and loading never ends, rather than
      falling back to the signed-out state. */
  lemma CorruptSlotStalls(text: string)
    requires text != ""
    ensures Restore(Initial(Some(Unparseable(text)))).ParseThrew?
    ensures Run(Some(Unparseable(text)), []).isLoading
    ensures Run(Some(Unparseable(text)), []).user.None?
  {
  }
}
