/** The session and navigation logic of the application context: the route
    table whose entries are enabled by permissions and feature flags, and
    the login, logout and session-resume steps that keep the signed-in user,
    the token, the routes, the shared session object and local storage. */
module AppContext {
  import opened JsValues

  /** The permissions the route table asks about (`POLICIES`). */
  datatype Policy = SuperPermission | ListTree | ApproveTree | ListGrower | SendMessages

  /** `user.policy.organization`: absent, null, or an organization with an id. */
  datatype Organization = OrgUndefined | OrgNull | Org(id: Value)

  datatype UserPolicy = UserPolicy(organization: Organization)

  /** A signed-in user; `details` holds the fields the modelled code does not read. */
  datatype User = User(id: Value, policy: UserPolicy, details: Object)

  /** `hasPermission(user, policies)`, defined with the auth model. */
  type Permission = (Option<User>, seq<Policy>) -> bool

  /** Each flag holds when its `process.env` variable is the string 'true'. */
  datatype Flags = Flags(captureMatching: bool, earnings: bool, payments: bool, messaging: bool)

  /** A navigation entry; a group has children and no link. */
  datatype Route = Route(name: string, linkTo: Option<string>, exact: bool, disabled: bool, children: seq<Route>)

  function Leaf(name: string, linkTo: string, disabled: bool): Route
  {
    Route(name, Some(linkTo), false, disabled, [])
  }

  /** `getRoutes(user)`. */
  function GetRoutes(user: Option<User>, hasPermission: Permission, flags: Flags): seq<Route>
  {
    [ Route("Home", Some("/"), true, false, []),
      Leaf("Monitor", "/monitor", true),
      Leaf("Verify", "/verify", !hasPermission(user, [SuperPermission, ListTree, ApproveTree])),
      Leaf("Captures", "/captures", !hasPermission(user, [SuperPermission, ListTree])),
      Leaf("Capture Matching", "/capture-matching",
           !flags.captureMatching || !hasPermission(user, [SuperPermission, ApproveTree])),
      Route("Earnings", None, false, !flags.earnings && !flags.payments,
            [ Leaf("Earnings", "/earnings", !flags.earnings),
              Leaf("Payments", "/payments", !flags.payments) ]),
      Leaf("Growers", "/growers", !hasPermission(user, [SuperPermission, ListGrower])),
      Leaf("Species", "/species",
           !hasPermission(user, [SuperPermission, ListTree]) || user.None?
           || user.value.policy.organization != OrgUndefined),
      Leaf("Settings", "/settings", true),
      Leaf("User Manager", "/user-manager", !hasPermission(user, [SuperPermission])),
      Leaf("Account", "/account", false),
      Leaf("Inbox", "/messaging", !flags.messaging || !hasPermission(user, [SuperPermission, SendMessages])) ]
  }

  function Names(routes: seq<Route>): (names: seq<string>)
    ensures |names| == |routes|
    ensures forall i :: 0 <= i < |routes| ==> names[i] == routes[i].name
  {
    if routes == [] then [] else [routes[0].name] + Names(routes[1..])
  }

  const RouteNames: seq<string> := ["Home", "Monitor", "Verify", "Captures", "Capture Matching", "Earnings",
                                    "Growers", "Species", "Settings", "User Manager", "Account", "Inbox"]

  /** Whoever the user and whatever the flags, the table holds the same
      twelve entries in the same order; Home and Account are always enabled,
      Monitor and Settings always disabled. */
  lemma RouteTableShape(user: Option<User>, hasPermission: Permission, flags: Flags)
    ensures var routes := GetRoutes(user, hasPermission, flags);
      && Names(routes) == RouteNames
      && !routes[0].disabled && !routes[10].disabled
      && routes[1].disabled && routes[8].disabled
  {
  }

  /** The Earnings group is disabled exactly when both of its pages are;
      each page is disabled exactly when its own flag is off. */
  lemma EarningsGroup(user: Option<User>, hasPermission: Permission, flags: Flags)
    ensures var group := GetRoutes(user, hasPermission, flags)[5];
      && group.name == "Earnings" && Names(group.children) == ["Earnings", "Payments"]
      && (group.children[0].disabled <==> !flags.earnings)
      && (group.children[1].disabled <==> !flags.payments)
      && (group.disabled <==> group.children[0].disabled && group.children[1].disabled)
  {
  }

  /** The permission-gated pages are enabled exactly when the user holds one
      of their policies (and, for the flagged ones, the flag is on). */
  lemma PermissionRoutes(user: Option<User>, hasPermission: Permission, flags: Flags)
    ensures var routes := GetRoutes(user, hasPermission, flags);
      && (!routes[2].disabled <==> hasPermission(user, [SuperPermission, ListTree, ApproveTree]))
      && (!routes[3].disabled <==> hasPermission(user, [SuperPermission, ListTree]))
      && (!routes[4].disabled <==> flags.captureMatching && hasPermission(user, [SuperPermission, ApproveTree]))
      && (!routes[6].disabled <==> hasPermission(user, [SuperPermission, ListGrower]))
      && (!routes[9].disabled <==> hasPermission(user, [SuperPermission]))
      && (!routes[11].disabled <==> flags.messaging && hasPermission(user, [SuperPermission, SendMessages]))
  {
  }

  /** Species is enabled only for a present user with the tree-listing
      permission and no organization field at all (not even a null one). */
  lemma SpeciesRoute(user: Option<User>, hasPermission: Permission, flags: Flags)
    ensures var species := GetRoutes(user, hasPermission, flags)[7];
      && species.name == "Species"
      && (!species.disabled <==> user.Some? && user.value.policy.organization == OrgUndefined
                                 && hasPermission(user, [SuperPermission, ListTree]))
  {
  }

  /** `!!user?.policy?.organization?.id`. */
  function UserHasOrg(user: Option<User>): (b: bool)
    ensures b ==> user.Some? && user.value.policy.organization.Org?
    ensures user.Some? && user.value.policy.organization.Org? ==> (b <==> Truthy(user.value.policy.organization.id))
  {
    user.Some? && user.value.policy.organization.Org? && Truthy(user.value.policy.organization.id)
  }

  /** A user who belongs to an organization never gets the Species page. */
  lemma OrgUserWithoutSpecies(user: Option<User>, hasPermission: Permission, flags: Flags)
    requires UserHasOrg(user)
    ensures GetRoutes(user, hasPermission, flags)[7].disabled
  {
  }

  // ---------------------------------------------------------------------------
  // Session

  /** The shared `session` object of the auth model. */
  datatype Session = Session(user: Option<User>, token: Option<string>)

  /** What local storage holds under a key, before JSON encoding. */
  datatype Stored = StoredUser(user: User) | StoredToken(token: string)

  type Storage = map<string, Stored>

  /** The component's user, token and routes, the shared session and local storage. */
  datatype AppState = AppState(user: Option<User>, token: Option<string>, routes: seq<Route>,
                               session: Session, storage: Storage)

  /** The component's state agrees with the shared session. */
  predicate InSync(s: AppState)
  {
    s.user == s.session.user && s.token == s.session.token
  }

  /** `login(newUser, newToken, rememberDetails)`: the user part is updated
      only when the session holds a different user, the token part only when
      the session holds a different token; storage is written only when
      remembering. */
  function LoginStep(s: AppState, newUser: User, newToken: string, remember: bool,
                     hasPermission: Permission, flags: Flags): (r: AppState)
    ensures r.session == Session(Some(newUser), Some(newToken))
    ensures r.user == (if s.session.user != Some(newUser) then Some(newUser) else s.user)
    ensures r.token == (if s.session.token != Some(newToken) then Some(newToken) else s.token)
    ensures r.routes == (if s.session.user != Some(newUser) then GetRoutes(Some(newUser), hasPermission, flags)
                         else s.routes)
    ensures r.storage == s.storage
      + (if remember && s.session.user != Some(newUser) then map["user" := StoredUser(newUser)] else map[])
      + (if remember && s.session.token != Some(newToken) then map["token" := StoredToken(newToken)] else map[])
  {
    var s1 :=
      if s.session.user != Some(newUser) then
        s.(user := Some(newUser),
           session := s.session.(user := Some(newUser)),
           storage := if remember then s.storage["user" := StoredUser(newUser)] else s.storage,
           routes := GetRoutes(Some(newUser), hasPermission, flags))
      else s;
    if s1.session.token != Some(newToken) then
      s1.(session := s1.session.(token := Some(newToken)),
          token := Some(newToken),
          storage := if remember then s1.storage["token" := StoredToken(newToken)] else s1.storage)
    else s1
  }

  /** A second login with the same user and token changes nothing, whether
      or not it asks to remember them. */
  lemma LoginIdempotent(s: AppState, u: User, t: string, remember: bool, remember2: bool,
                        hasPermission: Permission, flags: Flags)
    ensures var s1 := LoginStep(s, u, t, remember, hasPermission, flags);
      LoginStep(s1, u, t, remember2, hasPermission, flags) == s1
  {
  }

  /** Starting in sync, login leaves the component on the new user and token. */
  lemma LoginInSync(s: AppState, u: User, t: string, remember: bool,
                    hasPermission: Permission, flags: Flags)
    requires InSync(s)
    ensures var r := LoginStep(s, u, t, remember, hasPermission, flags);
      InSync(r) && r.user == Some(u) && r.token == Some(t)
  {
  }

  /** The comparison is against the shared session, not the component: when
      the session already holds the user, a component that lost its user
      (say, a fresh mount) does not get it back from login. */
  lemma LoginTrustsSession(s: AppState, u: User, t: string, remember: bool,
                           hasPermission: Permission, flags: Flags)
    requires s.session == Session(Some(u), Some(t)) && s.user == None && s.token == None
    ensures var r := LoginStep(s, u, t, remember, hasPermission, flags);
      r.user == None && r.token == None && !InSync(r)
  {
  }

  /** `logout()`. */
  function LogoutStep(s: AppState, hasPermission: Permission, flags: Flags): (r: AppState)
    ensures r.user == None && r.token == None && r.session == Session(None, None)
    ensures r.routes == GetRoutes(None, hasPermission, flags)
    ensures "user" !in r.storage && "token" !in r.storage
    ensures forall k :: k in s.storage && k != "user" && k != "token" ==> k in r.storage && r.storage[k] == s.storage[k]
    ensures r.storage == s.storage - {"user", "token"}
  {
    AppState(None, None, GetRoutes(None, hasPermission, flags), Session(None, None), s.storage - {"token", "user"})
  }

  /** Logging out twice is logging out once; the state it leaves is in sync,
      so the next login signs the component in. */
  lemma LogoutThenLogin(s: AppState, u: User, t: string, remember: bool,
                        hasPermission: Permission, flags: Flags)
    ensures var out := LogoutStep(s, hasPermission, flags);
      && LogoutStep(out, hasPermission, flags) == out
      && InSync(out)
      && LoginStep(out, u, t, remember, hasPermission, flags).user == Some(u)
  {
    var out := LogoutStep(s, hasPermission, flags);
    assert out.storage - {"token", "user"} == out.storage;
  }

  /** The user stored locally, if any (`JSON.parse(localStorage.getItem('user'))`). */
  function StoredUserOf(storage: Storage): Option<User>
  {
    if "user" in storage && storage["user"].StoredUser? then Some(storage["user"].user) else None
  }

  /** The stored token, if any. */
  function StoredTokenOf(storage: Storage): Option<string>
  {
    if "token" in storage && storage["token"].StoredToken? then Some(storage["token"].token) else None
  }

  /** The credentials `checkSession` resumes with: a stored user and a
      non-empty stored token. */
  function ResumableCredentials(storage: Storage): (c: Option<(User, string)>)
    ensures c.Some? <==> StoredUserOf(storage).Some? && StoredTokenOf(storage).Some? && StoredTokenOf(storage).value != ""
    ensures c.Some? ==> StoredUserOf(storage) == Some(c.value.0) && StoredTokenOf(storage) == Some(c.value.1)
  {
    var u, t := StoredUserOf(storage), StoredTokenOf(storage);
    if t.Some? && t.value != "" && u.Some? then Some((u.value, t.value)) else None
  }

  /** Resuming from storage never writes storage. */
  lemma ResumeKeepsStorage(s: AppState, hasPermission: Permission, flags: Flags)
    requires ResumableCredentials(s.storage).Some?
    ensures var (u, t) := ResumableCredentials(s.storage).value;
      LoginStep(s, u, t, false, hasPermission, flags).storage == s.storage
  {
  }

  // ---------------------------------------------------------------------------
  // The provider component

  /** The application context provider. */
  class AppProvider {
    var user: Option<User>
    var token: Option<string>
    var routes: seq<Route>
    var userHasOrg: bool
    /** The shared session object and local storage, which outlive the component. */
    var session: Session
    var storage: Storage
    const hasPermission: Permission
    const flags: Flags

    function State(): AppState
      reads this
    {
      AppState(user, token, routes, session, storage)
    }

    /** Mounting: no user or token yet, routes for the locally stored user. */
    constructor (storage: Storage, session: Session, hasPermission: Permission, flags: Flags)
      ensures user == None && token == None && !userHasOrg
      ensures routes == GetRoutes(StoredUserOf(storage), hasPermission, flags)
      ensures this.session == session && this.storage == storage
      ensures this.hasPermission == hasPermission && this.flags == flags
    {
      var localUser := StoredUserOf(storage);
      user := None;
      token := None;
      routes := GetRoutes(localUser, hasPermission, flags);
      userHasOrg := false;
      this.session := session;
      this.storage := storage;
      this.hasPermission := hasPermission;
      this.flags := flags;
    }

    method Login(newUser: User, newToken: string, remember: bool)
      modifies this
      ensures State() == LoginStep(old(State()), newUser, newToken, remember, hasPermission, flags)
      ensures userHasOrg == old(userHasOrg)
    {
      if session.user != Some(newUser) {
        user := Some(newUser);
        session := session.(user := Some(newUser));
        if remember {
          storage := storage["user" := StoredUser(newUser)];
        }
        routes := GetRoutes(Some(newUser), hasPermission, flags);
      }
      if session.token != Some(newToken) {
        session := session.(token := Some(newToken));
        token := Some(newToken);
        if remember {
          storage := storage["token" := StoredToken(newToken)];
        }
      }
    }

    method Logout()
      modifies this
      ensures State() == LogoutStep(old(State()), hasPermission, flags)
      ensures userHasOrg == old(userHasOrg)
    {
      user := None;
      token := None;
      routes := GetRoutes(None, hasPermission, flags);
      session := session.(token := None);
      session := session.(user := None);
      storage := storage - {"token"};
      storage := storage - {"user"};
    }

    /** The local part of `checkSession`: with a stored user and token the
        component logs in with them (without remembering) and reports true. */
    method CheckSession() returns (resumed: bool)
      modifies this
      ensures resumed <==> ResumableCredentials(old(storage)).Some?
      ensures resumed ==> State() == LoginStep(old(State()), ResumableCredentials(old(storage)).value.0,
                                                      ResumableCredentials(old(storage)).value.1, false,
                                                      hasPermission, flags)
      ensures !resumed ==> State() == old(State())
      ensures storage == old(storage) && userHasOrg == old(userHasOrg)
    {
      var localToken, localUser := StoredTokenOf(storage), StoredUserOf(storage);
      if localToken.Some? && localToken.value != "" && localUser.Some? {
        Login(localUser.value, localToken.value, false);
        return true;
      }
      return false;
    }

    /** The effect that runs when the user or token changes. */
    method UpdateUserHasOrg()
      modifies this
      ensures userHasOrg == UserHasOrg(user)
      ensures State() == old(State())
    {
      userHasOrg := user.Some? && user.value.policy.organization.Org? && Truthy(user.value.policy.organization.id);
    }
  }
}
