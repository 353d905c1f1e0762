/** The signed-in state (`useAuth`): one record, overwritten on every auth
    event from the user's stored document. */
module UseAuth {
  import opened Common
  import ProfileSetup

  /** The fields of `users/{uid}` the hook reads. */
  datatype UserDoc = UserDoc(role: Option<string>, fullName: Option<string>, phoneNumber: Option<string>)

  /** The outcome of `getDoc`: the document's data (`None` for a missing
      document), or an error. */
  datatype Fetch = Fetched(data: Option<UserDoc>) | FetchFailed

  /** What `onAuthStateChanged` reports, with the fetch that follows a sign-in. */
  datatype AuthEvent = SignedOut | SignedIn(uid: string, fetch: Fetch)

  datatype AuthState = AuthState(user: Option<string>, userRole: Option<string>, loading: bool, profileComplete: bool)

  const InitialState := AuthState(None, None, true, false)

  /** The record each event leaves: signed out clears everything; a fetched
      document gives its role (or `"user"` when the role is missing or empty)
      and completeness when both name and number are non-empty; a failed fetch
      keeps the user with no role. Loading is over after every event. */
  function AfterEvent(e: AuthEvent): (s: AuthState)
    ensures !s.loading
    ensures e.SignedOut? ==> s == AuthState(None, None, false, false)
    ensures e.SignedIn? ==> s.user == Some(e.uid)
    ensures e.SignedIn? && e.fetch.FetchFailed? ==> s.userRole == None && !s.profileComplete
    ensures e.SignedIn? && e.fetch.Fetched? ==>
              var d := e.fetch.data;
              s.userRole == Some(if d.Some? && Truthy(d.value.role) then d.value.role.value else "user") &&
              (s.profileComplete <==> d.Some? && Truthy(d.value.fullName) && Truthy(d.value.phoneNumber))
  {
    match e
    case SignedOut => AuthState(None, None, false, false)
    case SignedIn(uid, FetchFailed) => AuthState(Some(uid), None, false, false)
    case SignedIn(uid, Fetched(data)) =>
      var role := if data.Some? && Truthy(data.value.role) then data.value.role.value else "user";
      AuthState(Some(uid), Some(role), false, data.Some? && Truthy(data.value.fullName) && Truthy(data.value.phoneNumber))
  }

  /** One mounted hook. */
  class AuthHook {
    var state: AuthState
    /** The `onAuthStateChanged` listener is live. */
    var listening: bool

    constructor ()
      ensures state == InitialState && listening
    {
      state := InitialState;
      listening := true;
    }

    /** An auth event overwrites the whole record while the listener is live. */
    method OnAuthStateChanged(e: AuthEvent)
      modifies this`state
      ensures state == if listening then AfterEvent(e) else old(state)
    {
      if listening {
        state := AfterEvent(e);
      }
    }

    method Unmount()
      modifies this`listening
      ensures !listening
    {
      listening := false;
    }
  }

  /** A signed-in user is only a role-less user when the fetch failed. */
  lemma RoleOnlyMissingOnError(e: AuthEvent)
    requires e.SignedIn?
    ensures AfterEvent(e).userRole.None? <==> e.fetch.FetchFailed?
  {
  }

  /** The user document after a merged write. */
  function Merge(d: Option<UserDoc>, uid: string, w: UserWrite): (r: UserDoc)
    ensures w.CompleteProfile? && w.uid == uid ==>
              r.fullName == Some(w.fullName) && r.phoneNumber == Some(w.phoneNumber) && r.role == (if d.Some? then d.value.role else None)
    ensures w.SetRole? && w.uid == uid ==> r.role == Some(w.role)
    ensures (w.uid != uid || w.SetNotificationsEnabled? || w.SetPushSubscription?) ==> r == d.GetOr(UserDoc(None, None, None))
  {
    var base := d.GetOr(UserDoc(None, None, None));
    if w.uid != uid then base
    else match w
      case CompleteProfile(_, fullName, phoneNumber) => base.(fullName := Some(fullName), phoneNumber := Some(phoneNumber))
      case SetRole(_, role) => base.(role := Some(role))
      case _ => base
  }

  /** Completing the profile with a number makes the next sign-in complete,
      and keeps the stored role. */
  lemma ProfileSetupCompletes(d: Option<UserDoc>, uid: string, fullName: string, phoneNumber: string)
    requires ProfileSetup.HandleSubmit(fullName, phoneNumber, Some(uid), ProfileSetup.WriteOk).writes != []
    requires phoneNumber != ""
    ensures var after := Merge(d, uid, ProfileSetup.HandleSubmit(fullName, phoneNumber, Some(uid), ProfileSetup.WriteOk).writes[0]);
            AfterEvent(SignedIn(uid, Fetched(Some(after)))).profileComplete &&
            AfterEvent(SignedIn(uid, Fetched(Some(after)))).userRole == AfterEvent(SignedIn(uid, Fetched(d))).userRole
  {
    ProfileSetup.StoredNameNotBlank(fullName, phoneNumber, uid);
  }

  /** Signing out after any sign-in clears the record, whatever the fetch gave. */
  method ScenarioSignInThenOut(uid: string, fetch: Fetch) returns (afterIn: AuthState, afterOut: AuthState)
    ensures afterIn.user == Some(uid) && !afterIn.loading
    ensures afterOut == AuthState(None, None, false, false)
  {
    var hook := new AuthHook();
    hook.OnAuthStateChanged(SignedIn(uid, fetch));
    afterIn := hook.state;
    hook.OnAuthStateChanged(SignedOut);
    afterOut := hook.state;
  }
}
