/** The client session (src/context/AuthContext.tsx): a user slot, a loading flag and the
    `"sprintstride_user"` entry of local storage, changed by the startup restore, `login` and
    `logout`. The transitions are stated as functions on a `Session` value; `AuthProvider` is the
    stateful object whose methods perform them. `JSON.parse` and `JSON.stringify` are parameters. */
module AuthContext {
  import opened Wrappers
  import opened Types
  import opened Text
  import opened Storage
  import opened Seqs

  const UserKey: string := "sprintstride_user"
  const MockPassword: string := "password"

  /** A signed-in user: the profile plus the token it carries. */
  datatype AuthUser = AuthUser(profile: User, token: string)

  /** The two built-in accounts. Their avatar image URLs are left out (`None`): no operation of
      this module reads an avatar, and the long literals only slow the proofs down. */
  const MockUsers: seq<AuthUser> := [
    AuthUser(User("1", "Alex Johnson", "manager@example.com", MANAGER, None, Some("Engineering"),
                  Some("Engineering Manager")), "mock-token-manager"),
    AuthUser(User("2", "Sam Davis", "employee@example.com", EMPLOYEE, None, Some("Development"),
                  Some("Senior Developer")), "mock-token-employee")
  ]

  /** What `JSON.parse` makes of the stored text: it throws, or it yields a user or `null`. */
  datatype Decoded = Unparsable | Decoded(user: Option<AuthUser>)

  datatype Session = Session(user: Option<AuthUser>, isLoading: bool, storage: Store)

  /** The provider's first render: no user, loading. */
  function Initial(storage: Store): Session
  {
    Session(None, true, storage)
  }

  /** `isAuthenticated: !!user`. */
  predicate IsAuthenticated(s: Session)
  {
    s.user.Some?
  }

  /** `isManager: user?.role === UserRole.MANAGER`. */
  predicate IsManager(s: Session)
  {
    s.user.Some? && s.user.value.profile.role == MANAGER
  }

  lemma ManagerIsAuthenticated(s: Session)
    requires IsManager(s)
    ensures IsAuthenticated(s)
  {
  }

  /** The startup effect: a truthy stored entry is parsed into the user slot, an unparsable one is
      removed; loading ends either way. */
  function Restored(s: Session, parse: string -> Decoded): (r: Session)
    ensures !r.isLoading
    ensures !TruthyString(GetItem(s.storage, UserKey)) ==> r.user == s.user && r.storage == s.storage
    ensures TruthyString(GetItem(s.storage, UserKey)) && parse(s.storage[UserKey]).Decoded? ==>
      r.user == parse(s.storage[UserKey]).user && r.storage == s.storage
    ensures TruthyString(GetItem(s.storage, UserKey)) && parse(s.storage[UserKey]).Unparsable? ==>
      r.user == s.user && r.storage == s.storage - {UserKey}
  {
    var stored := GetItem(s.storage, UserKey);
    if TruthyString(stored) then
      match parse(stored.value)
      case Decoded(u) => Session(u, false, s.storage)
      case Unparsable => Session(s.user, false, s.storage - {UserKey})
    else Session(s.user, false, s.storage)
  }

  /** `MOCK_USERS.find(u => u.email.toLowerCase() === email.toLowerCase())`. */
  function FindByEmail(email: string): (r: Option<AuthUser>)
    ensures r.None? <==> forall u :: u in MockUsers ==> Lower(u.profile.email) != Lower(email)
    ensures r.Some? ==> r.value in MockUsers && Lower(r.value.profile.email) == Lower(email)
  {
    FindFirst(MockUsers, (u: AuthUser) => Lower(u.profile.email) == Lower(email))
  }

  /** `login` sets the loading flag before anything else. */
  function LoginStarted(s: Session): (r: Session)
    ensures r.isLoading && r.user == s.user && r.storage == s.storage
  {
    s.(isLoading := true)
  }

  /** The delayed body of `login`: on a known email with the password "password" the user is set
      and stored and the promise resolves to `true`; otherwise it resolves to `false`. Loading ends
      in both cases. */
  function LoginFinished(s: Session, email: string, password: string,
                         stringify: AuthUser -> string): (r: (Session, bool))
    ensures !r.0.isLoading
    ensures r.1 ==> r.0.user.Some? && r.0.user == FindByEmail(email) &&
                    r.0.storage == s.storage[UserKey := stringify(r.0.user.value)]
    ensures !r.1 ==> r.0.user == s.user && r.0.storage == s.storage
  {
    var found := FindByEmail(email);
    if found.Some? && password == MockPassword then
      (Session(found, false, s.storage[UserKey := stringify(found.value)]), true)
    else (s.(isLoading := false), false)
  }

  /** A login succeeds exactly for a mock user's email, in any letter case, with the password
      "password". */
  lemma LoginSucceedsIff(s: Session, email: string, password: string, stringify: AuthUser -> string)
    ensures LoginFinished(s, email, password, stringify).1 <==>
      (exists u :: u in MockUsers && Lower(u.profile.email) == Lower(email)) && password == MockPassword
  {
    if password == MockPassword && exists u :: u in MockUsers && Lower(u.profile.email) == Lower(email) {
      assert FindByEmail(email).Some?;
    }
  }

  /** `logout`: the user slot is cleared and the stored entry removed; nothing else changes. */
  function LoggedOut(s: Session): (r: Session)
    ensures r.user.None? && UserKey !in r.storage
    ensures r.isLoading == s.isLoading
    ensures forall k :: k != UserKey ==> (k in r.storage <==> k in s.storage)
    ensures forall k :: k != UserKey && k in s.storage ==> r.storage[k] == s.storage[k]
  {
    Session(None, s.isLoading, s.storage - {UserKey})
  }

  lemma LogoutIdempotent(s: Session)
    ensures LoggedOut(LoggedOut(s)) == LoggedOut(s)
  {
  }

  /** What a successful login stores is what the next startup restores, provided `JSON.parse`
      inverts `JSON.stringify` (whose output for an object is never empty). */
  lemma LoginSurvivesReload(s: Session, email: string, password: string,
                            stringify: AuthUser -> string, parse: string -> Decoded)
    requires forall u :: stringify(u) != "" && parse(stringify(u)) == Decoded(Some(u))
    requires LoginFinished(s, email, password, stringify).1
    ensures var after := LoginFinished(s, email, password, stringify).0;
            Restored(Initial(after.storage), parse).user == after.user
  {
  }

  class AuthProvider {
    var user: Option<AuthUser>
    var isLoading: bool
    var storage: Store

    function State(): Session
      reads this
    {
      Session(user, isLoading, storage)
    }

    constructor(initialStorage: Store)
      ensures State() == Initial(initialStorage)
    {
      user := None;
      isLoading := true;
      storage := initialStorage;
    }

    /** The mount effect at AuthContext.tsx:46-57. */
    method Restore(parse: string -> Decoded)
      modifies this
      ensures State() == Restored(old(State()), parse)
    {
      if UserKey in storage && storage[UserKey] != "" {
        var decoded := parse(storage[UserKey]);
        if decoded.Decoded? {
          user := decoded.user;
        } else {
          storage := storage - {UserKey};
        }
      }
      isLoading := false;
    }

    /** The synchronous start of `login`. */
    method BeginLogin()
      modifies this
      ensures State() == LoginStarted(old(State()))
    {
      isLoading := true;
    }

    /** The timer callback of `login`, resolving the promise with `ok`. */
    method CompleteLogin(email: string, password: string, stringify: AuthUser -> string)
      returns (ok: bool)
      modifies this
      ensures State() == LoginFinished(old(State()), email, password, stringify).0
      ensures ok == LoginFinished(old(State()), email, password, stringify).1
    {
      ghost var before := State();
      var found := FindByEmail(email);
      if found.Some? && password == MockPassword {
        user := found;
        storage := storage[UserKey := stringify(found.value)];
        ok := true;
      } else {
        ok := false;
      }
      isLoading := false;
      assert State() == LoginFinished(before, email, password, stringify).0;
      assert ok == LoginFinished(before, email, password, stringify).1;
    }

    /** `login` run to completion. */
    method Login(email: string, password: string, stringify: AuthUser -> string) returns (ok: bool)
      modifies this
      ensures State() == LoginFinished(LoginStarted(old(State())), email, password, stringify).0
      ensures ok == LoginFinished(LoginStarted(old(State())), email, password, stringify).1
    {
      BeginLogin();
      ok := CompleteLogin(email, password, stringify);
    }

    method Logout()
      modifies this
      ensures State() == LoggedOut(old(State()))
    {
      user := None;
      storage := storage - {UserKey};
    }
  }
}
