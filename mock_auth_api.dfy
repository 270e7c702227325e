/** The offline stand-in for the backend's auth endpoints (src/services/mockAuthApi.ts): `login`
    checks a username and the fixed password and hands out a token ending in the user's id;
    `getCurrentUser` reads the id back from the stored token. A thrown error is a `Failure`
    carrying its HTTP status and message. */
module MockAuthApi {
  import opened Wrappers
  import opened Types
  import opened Text
  import opened Storage
  import opened Seqs

  const MockPassword: string := "yourpassword"
  const TokenPrefix: string := "mock-jwt-token-"

  datatype MockUser = MockUser(id: nat, username: string, email: string, firstName: string,
                               lastName: string, role: UserRole, enabled: bool)

  const MockUsers: seq<MockUser> := [
    MockUser(1, "john.doe", "john.doe@example.com", "John", "Doe", MANAGER, true),
    MockUser(2, "jane.smith", "jane.smith@example.com", "Jane", "Smith", EMPLOYEE, true)
  ]

  datatype ApiError = ApiError(status: nat, message: string)

  /** The `ApiResponse` envelope. */
  datatype Envelope<T> = Envelope(success: bool, message: string, data: T)

  /** The `AuthUser` payload of a successful login. */
  datatype AuthData = AuthData(token: string, tokenType: string, id: nat, username: string,
                               email: string, role: UserRole)

  /** The first mock user whose username matches, ignoring ASCII letter case. */
  function FindByUsername(username: string): (r: Option<MockUser>)
    ensures r.None? <==> forall u :: u in MockUsers ==> Lower(u.username) != Lower(username)
    ensures r.Some? ==> r.value in MockUsers && Lower(r.value.username) == Lower(username)
  {
    FindFirst(MockUsers, (u: MockUser) => Lower(u.username) == Lower(username))
  }

  /** `mockAuthApi.login`. It only answers; storing the token is left to the caller. */
  function Login(username: string, password: string): (r: Result<Envelope<AuthData>, ApiError>)
    ensures r.Failure? <==> FindByUsername(username).None? || password != MockPassword
    ensures r.Failure? ==> r.error == ApiError(401, "Invalid username or password")
    ensures r.Success? ==>
      var u := FindByUsername(username).value;
      r.value == Envelope(true, "Success",
                          AuthData(TokenPrefix + NatToString(u.id), "Bearer", u.id, u.username,
                                   u.email, u.role))
  {
    var user := FindByUsername(username);
    if user.None? || password != MockPassword then
      Failure(ApiError(401, "Invalid username or password"))
    else
      var u := user.value;
      Success(Envelope(true, "Success",
                       AuthData(TokenPrefix + NatToString(u.id), "Bearer", u.id, u.username,
                                u.email, u.role)))
  }

  /** `mockAuthApi.logout`: always succeeds with `data: null`. */
  function Logout(): (r: Envelope<Option<MockUser>>)
    ensures r.success && r.data.None?
  {
    Envelope(true, "Logged out successfully", None)
  }

  /** The user id encoded in a token: `parseInt(token.split('-').pop() || "1")`; `None` is `NaN`. */
  function TokenUserId(token: string): Option<int>
  {
    var tail := LastSegment(token, '-');
    ParseIntAuto(if tail == "" then "1" else tail)
  }

  /** `mockAuthApi.getCurrentUser` over the current local storage. */
  function GetCurrentUser(storage: Store): (r: Result<Envelope<MockUser>, ApiError>)
    ensures !TruthyString(GetItem(storage, "token")) ==>
      r == Failure(ApiError(401, "Not authenticated"))
    ensures r.Success? ==>
      r.value.success && r.value.data in MockUsers &&
      TokenUserId(storage["token"]) == Some(r.value.data.id)
    ensures TruthyString(GetItem(storage, "token")) && r.Failure? ==>
      r.error == ApiError(404, "User not found") &&
      forall u :: u in MockUsers ==> TokenUserId(storage["token"]) != Some(u.id as int)
  {
    var token := GetItem(storage, "token");
    if !TruthyString(token) then Failure(ApiError(401, "Not authenticated"))
    else
      var userId := TokenUserId(token.value);
      match FindFirst(MockUsers, (u: MockUser) => userId == Some(u.id as int))
      case None => Failure(ApiError(404, "User not found"))
      case Some(u) => Success(Envelope(true, "Success", u))
  }

  /** The token of user `id` carries `id` back. */
  lemma TokenUserIdRoundTrip(id: nat)
    ensures TokenUserId(TokenPrefix + NatToString(id)) == Some(id)
  {
    var digits := NatToString(id);
    assert TokenPrefix + digits == "mock-jwt-token" + ['-'] + digits;
    assert '-' !in digits by {
      forall i | 0 <= i < |digits| ensures digits[i] != '-' {
        assert IsDigit(digits[i]);
      }
    }
    LastSegmentAfterSeparator("mock-jwt-token", digits, '-');
    ParseIntAutoOfNatToString(id);
  }

  /** Logging in and storing the returned token under "token" makes `getCurrentUser` answer with
      the same user (the mock ids are distinct). */
  lemma LoginThenCurrentUser(username: string, password: string, storage: Store)
    requires Login(username, password).Success?
    ensures var auth := Login(username, password).value.data;
            var current := GetCurrentUser(storage["token" := auth.token]);
            current.Success? && current.value.data == FindByUsername(username).value &&
            current.value.data.id == auth.id
  {
    var u := FindByUsername(username).value;
    var token := TokenPrefix + NatToString(u.id);
    TokenUserIdRoundTrip(u.id);
    assert GetItem(storage["token" := token], "token") == Some(token);
  }
}
