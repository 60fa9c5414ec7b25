/** The authentication store (src/auth/AuthProvider.tsx): three pieces of
    state, `user`, `isLoading` and `error`, and the handlers that update them.
    Each handler is one sequential step that receives the backend's answer as
    a parameter. The step functions over `AuthState` are the specification;
    class `AuthStore` performs the same updates field by field. */
module AuthProvider {
  import opened Types

  /** `API_CALL_LIMIT`. */
  const ApiCallLimit: int := 20

  const LimitReachedMessage := "API call limit reached"
  const LoginFailedMessage := "Failed to login"
  const RegisterFailedMessage := "Failed to register"
  const LogoutFailedMessage := "Failed to logout"
  const UpdateNameFailedMessage := "Failed to update name"
  const DeleteFailedMessage := "Failed to delete account"

  datatype AuthState = AuthState(user: Option<User>, isLoading: bool, error: Option<string>)

  /** The state before the first session check: no user, loading, no error. */
  const Initial := AuthState(None, true, None)

  /** The new state after a handler, and the error it re-raises to its caller. */
  datatype Handled = Handled(state: AuthState, rethrown: Option<Thrown>)

  /** The new state after `incrementApiCalls`, and the boolean it returns. */
  datatype Counted = Counted(state: AuthState, ok: bool)

  /** The count the store works from: the number itself, or 0 when the
      field is not a number. */
  function CurrentCalls(c: CallCount): (n: int)
    ensures c.Count? ==> n == c.n
    ensures c.NonNumeric? ==> n == 0
  {
    match c
    case Count(n) => n
    case NonNumeric => 0
  }

  /** The `userData` object `checkAuth` builds: the seven declared fields
      of the response, one by one, and nothing else. */
  function CopyDeclaredFields(data: User): (u: User)
    ensures SameDeclaredFields(u, data)
    ensures u.otherFields == map[]
  {
    User(data.id, data.email, data.name, data.isAdmin, data.apiCalls,
         data.createdAt, data.lastActive, map[])
  }

  /** `checkAuth`: GET /auth/me. It does not touch `error`. */
  function CheckAuthStep(s: AuthState, reply: Outcome<User>): (t: AuthState)
    ensures !t.isLoading && t.error == s.error
    ensures reply.Failure? ==> t.user == None
    ensures reply.Success? ==>
              t.user.Some? && SameDeclaredFields(t.user.value, reply.data) && t.user.value.otherFields == map[]
  {
    match reply
    case Success(data) => s.(user := Some(CopyDeclaredFields(data)), isLoading := false)
    case Failure(_) => s.(user := None, isLoading := false)
  }

  /** The shape shared by the five request handlers: set `isLoading`,
      optionally clear `error`, await the backend; on success store
      `newUser`, on failure set `error := failMessage` and re-raise;
      finally clear `isLoading`. */
  function Settle<T>(s: AuthState, clearsError: bool, reply: Outcome<T>, newUser: Option<User>, failMessage: string): (h: Handled)
    ensures !h.state.isLoading
    ensures h.rethrown == (if reply.Failure? then Some(reply.thrown) else None)
    ensures reply.Success? ==> h.state.user == newUser
    ensures reply.Success? ==> h.state.error == (if clearsError then None else s.error)
    ensures reply.Failure? ==> h.state.user == s.user && h.state.error == Some(failMessage)
  {
    var pending := s.(isLoading := true, error := if clearsError then None else s.error);
    match reply
    case Success(_) => Handled(pending.(user := newUser, isLoading := false), None)
    case Failure(e) => Handled(pending.(error := Some(failMessage), isLoading := false), Some(e))
  }

  /** `login`: POST /auth/login; the reply is `response.data.user`. */
  function LoginStep(s: AuthState, data: LoginData, reply: Outcome<User>): (h: Handled)
    ensures !h.state.isLoading
    ensures reply.Success? ==> h.state.user == Some(reply.data) && h.state.error == None && h.rethrown == None
    ensures reply.Failure? ==>
              h.state.user == s.user && h.state.error == Some(LoginFailedMessage) && h.rethrown == Some(reply.thrown)
  {
    Settle(s, true, reply, if reply.Success? then Some(reply.data) else s.user, LoginFailedMessage)
  }

  /** `register`: POST /auth/register; the reply is `response.data.user`. */
  function RegisterStep(s: AuthState, data: RegisterData, reply: Outcome<User>): (h: Handled)
    ensures !h.state.isLoading
    ensures reply.Success? ==> h.state.user == Some(reply.data) && h.state.error == None && h.rethrown == None
    ensures reply.Failure? ==>
              h.state.user == s.user && h.state.error == Some(RegisterFailedMessage) && h.rethrown == Some(reply.thrown)
  {
    Settle(s, true, reply, if reply.Success? then Some(reply.data) else s.user, RegisterFailedMessage)
  }

  /** `logout`: POST /auth/logout. Unlike the other handlers it does not
      clear an earlier error before the request. */
  function LogoutStep(s: AuthState, reply: Outcome<()>): (h: Handled)
    ensures !h.state.isLoading
    ensures reply.Success? ==> h.state.user == None && h.state.error == s.error && h.rethrown == None
    ensures reply.Failure? ==>
              h.state.user == s.user && h.state.error == Some(LogoutFailedMessage) && h.rethrown == Some(reply.thrown)
  {
    Settle(s, false, reply, None, LogoutFailedMessage)
  }

  /** `updateName`: PATCH /auth/updateName with `{ name }`; on success the
      store takes the user record the backend returns, whatever its name. */
  function UpdateNameStep(s: AuthState, name: string, reply: Outcome<User>): (h: Handled)
    ensures !h.state.isLoading
    ensures reply.Success? ==> h.state.user == Some(reply.data) && h.state.error == None && h.rethrown == None
    ensures reply.Failure? ==>
              h.state.user == s.user && h.state.error == Some(UpdateNameFailedMessage) && h.rethrown == Some(reply.thrown)
  {
    Settle(s, true, reply, if reply.Success? then Some(reply.data) else s.user, UpdateNameFailedMessage)
  }

  /** `deleteAccount`: DELETE /auth/delete with `{ data: { userId } }`. */
  function DeleteAccountStep(s: AuthState, userId: string, reply: Outcome<User>): (h: Handled)
    ensures !h.state.isLoading
    ensures reply.Success? ==> h.state.user == None && h.state.error == None && h.rethrown == None
    ensures reply.Failure? ==>
              h.state.user == s.user && h.state.error == Some(DeleteFailedMessage) && h.rethrown == Some(reply.thrown)
  {
    Settle(s, true, reply, None, DeleteFailedMessage)
  }

  /** `incrementApiCalls`: counts one prompt against the signed-in user,
      up to `ApiCallLimit`. It reports whether a user exists, not whether
      the count went up. */
  function IncrementStep(s: AuthState): (c: Counted)
    ensures c.ok <==> s.user.Some?
    ensures s.user.None? ==> c.state == s
    ensures c.state.isLoading == s.isLoading
    ensures s.user.Some? && CurrentCalls(s.user.value.apiCalls) < ApiCallLimit ==>
              && c.state.user == Some(s.user.value.(apiCalls := Count(CurrentCalls(s.user.value.apiCalls) + 1)))
              && c.state.error == s.error
    ensures s.user.Some? && CurrentCalls(s.user.value.apiCalls) >= ApiCallLimit ==>
              c.state.user == s.user && c.state.error == Some(LimitReachedMessage)
  {
    match s.user
    case None => Counted(s, false)
    case Some(prev) =>
      var current := CurrentCalls(prev.apiCalls);
      if current >= ApiCallLimit then
        Counted(s.(error := Some(LimitReachedMessage)), true)
      else
        Counted(s.(user := Some(prev.(apiCalls := Count(current + 1)))), true)
  }

  /** The signed-in user's count as the store reads it, or 0 with no user. */
  function CallsOf(s: AuthState): int
  {
    if s.user.Some? then CurrentCalls(s.user.value.apiCalls) else 0
  }

  /** One call counts exactly one step, and never carries a count that
      starts within the limit past it. */
  lemma IncrementStaysWithinLimit(s: AuthState)
    requires s.user.Some? && CallsOf(s) <= ApiCallLimit
    ensures IncrementStep(s).state.user.Some?
    ensures CallsOf(IncrementStep(s).state) <= ApiCallLimit
    ensures CallsOf(IncrementStep(s).state) == if CallsOf(s) < ApiCallLimit then CallsOf(s) + 1 else CallsOf(s)
  {
  }

  /** The state after `k` consecutive calls to `incrementApiCalls`. */
  function Increments(s: AuthState, k: nat): AuthState
    decreases k
  {
    if k == 0 then s else Increments(IncrementStep(s).state, k - 1)
  }

  /** Any number of calls saturates at the limit: a count that starts at or
      below 20 goes up one per call until it reaches 20 and stays there; a
      count already past the limit is never changed. The user record is
      otherwise untouched. */
  lemma {:induction false} IncrementsSaturate(s: AuthState, k: nat)
    requires s.user.Some?
    decreases k
    ensures Increments(s, k).user.Some?
    ensures Increments(s, k).user.value.(apiCalls := s.user.value.apiCalls) == s.user.value
    ensures CallsOf(Increments(s, k)) ==
              if CallsOf(s) >= ApiCallLimit then CallsOf(s)
              else if CallsOf(s) + k <= ApiCallLimit then CallsOf(s) + k
              else ApiCallLimit
  {
    if k > 0 {
      var t := IncrementStep(s).state;
      IncrementsSaturate(t, k - 1);
    }
  }

  /** The store itself: the three state fields and the handlers that
      assign them in the order the source does. */
  class AuthStore {
    var user: Option<User>
    var isLoading: bool
    var error: Option<string>

    function State(): AuthState
      reads this
    {
      AuthState(user, isLoading, error)
    }

    constructor ()
      ensures State() == Initial
    {
      user := None;
      isLoading := true;
      error := None;
    }

    method CheckAuth(reply: Outcome<User>)
      modifies this
      ensures State() == CheckAuthStep(old(State()), reply)
    {
      match reply {
        case Success(data) => user := Some(CopyDeclaredFields(data));
        case Failure(_) => user := None;
      }
      isLoading := false;
    }

    method Login(data: LoginData, reply: Outcome<User>) returns (rethrown: Option<Thrown>)
      modifies this
      ensures Handled(State(), rethrown) == LoginStep(old(State()), data, reply)
    {
      isLoading := true;
      error := None;
      match reply {
        case Success(u) =>
          user := Some(u);
          rethrown := None;
        case Failure(e) =>
          error := Some(LoginFailedMessage);
          rethrown := Some(e);
      }
      isLoading := false;
    }

    method Register(data: RegisterData, reply: Outcome<User>) returns (rethrown: Option<Thrown>)
      modifies this
      ensures Handled(State(), rethrown) == RegisterStep(old(State()), data, reply)
    {
      isLoading := true;
      error := None;
      match reply {
        case Success(u) =>
          user := Some(u);
          rethrown := None;
        case Failure(e) =>
          error := Some(RegisterFailedMessage);
          rethrown := Some(e);
      }
      isLoading := false;
    }

    method Logout(reply: Outcome<()>) returns (rethrown: Option<Thrown>)
      modifies this
      ensures Handled(State(), rethrown) == LogoutStep(old(State()), reply)
    {
      isLoading := true;
      match reply {
        case Success(_) =>
          user := None;
          rethrown := None;
        case Failure(e) =>
          error := Some(LogoutFailedMessage);
          rethrown := Some(e);
      }
      isLoading := false;
    }

    method UpdateName(name: string, reply: Outcome<User>) returns (rethrown: Option<Thrown>)
      modifies this
      ensures Handled(State(), rethrown) == UpdateNameStep(old(State()), name, reply)
    {
      isLoading := true;
      error := None;
      match reply {
        case Success(u) =>
          user := Some(u);
          rethrown := None;
        case Failure(e) =>
          error := Some(UpdateNameFailedMessage);
          rethrown := Some(e);
      }
      isLoading := false;
    }

    method DeleteAccount(userId: string, reply: Outcome<User>) returns (rethrown: Option<Thrown>)
      modifies this
      ensures Handled(State(), rethrown) == DeleteAccountStep(old(State()), userId, reply)
    {
      isLoading := true;
      error := None;
      match reply {
        case Success(_) =>
          user := None;
          rethrown := None;
        case Failure(e) =>
          error := Some(DeleteFailedMessage);
          rethrown := Some(e);
      }
      isLoading := false;
    }

    method IncrementApiCalls() returns (ok: bool)
      modifies this
      ensures Counted(State(), ok) == IncrementStep(old(State()))
    {
      if user.None? {
        return false;
      }
      var prev := user.value;
      var current := CurrentCalls(prev.apiCalls);
      if current >= ApiCallLimit {
        error := Some(LimitReachedMessage);
      } else {
        user := Some(prev.(apiCalls := Count(current + 1)));
      }
      ok := true;
    }

    /** `updateUser`, which the store exposes as its raw `setUser`. */
    method UpdateUser(u: Option<User>)
      modifies this
      ensures State() == old(State()).(user := u)
    {
      user := u;
    }
  }
}
