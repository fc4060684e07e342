/**
 * Org-aware authentication: login, token refresh and organisation switch.
 *
 * The database is a `Store` of users, organisations and membership
 * ("Profile") records kept in store order. Each view is a decision over that
 * store: it answers with a token pair or a typed failure and reports one audit
 * event (or none, on the paths where the view raises or returns early).
 * Tokens are JSON Web Tokens (RFC 7519); only their claims are modelled, and
 * decoding an incoming refresh token is a function passed in by the caller.
 */
module Auth {
  import opened Wrappers

  type UserId = string
  type OrgId = string

  datatype User = User(id: UserId, email: string, isActive: bool, lastLogin: Option<int>)
  datatype Org = Org(id: OrgId, name: string)

  /** A membership of one user in one organisation. */
  datatype Profile = Profile(
    id: string,
    user: UserId,
    org: OrgId,
    role: string,
    isOrganizationAdmin: bool,
    isActive: bool)

  /** The database rows the views read: users and organisations by primary key, memberships in store order. */
  datatype Store = Store(users: map<UserId, User>, orgs: map<OrgId, Org>, profiles: seq<Profile>)

  /** Referential integrity of the store: keys are the records' ids, organisation ids
      are non-empty (UUIDs), and every membership points at an existing user and organisation. */
  predicate Consistent(db: Store) {
    && (forall id :: id in db.users ==> db.users[id].id == id)
    && (forall id :: id in db.orgs ==> db.orgs[id].id == id && id != "")
    && (forall i :: 0 <= i < |db.profiles| ==> db.profiles[i].user in db.users && db.profiles[i].org in db.orgs)
  }

  /** Python truthiness of an optional request field: a missing value and "" are both false. */
  predicate Present(s: Option<string>) {
    s.Some? && s.value != ""
  }

  // ---------------------------------------------------------------------------
  // Membership queries
  // ---------------------------------------------------------------------------

  predicate IsActiveProfileOf(p: Profile, u: UserId) {
    p.user == u && p.isActive
  }

  predicate IsActiveMembership(p: Profile, u: UserId, o: OrgId) {
    p.user == u && p.org == o && p.isActive
  }

  /** `Profile.objects.filter(user=u, is_active=True)`, in store order. */
  function ActiveProfiles(ps: seq<Profile>, u: UserId): (r: seq<Profile>)
    ensures |r| <= |ps|
    ensures forall p :: p in r <==> p in ps && IsActiveProfileOf(p, u)
  {
    if ps == [] then []
    else (if IsActiveProfileOf(ps[0], u) then [ps[0]] else []) + ActiveProfiles(ps[1..], u)
  }

  /** `.filter(org_id=o)` applied to a list of profiles, in order. */
  function OfOrg(ps: seq<Profile>, o: OrgId): (r: seq<Profile>)
    ensures forall p :: p in r <==> p in ps && p.org == o
  {
    if ps == [] then []
    else (if ps[0].org == o then [ps[0]] else []) + OfOrg(ps[1..], o)
  }

  /** `Profile.objects.filter(user=u, org_id=o, is_active=True)`, in store order. */
  function ActiveMemberships(ps: seq<Profile>, u: UserId, o: OrgId): (r: seq<Profile>)
    ensures forall p :: p in r <==> p in ps && IsActiveMembership(p, u, o)
  {
    if ps == [] then []
    else (if IsActiveMembership(ps[0], u, o) then [ps[0]] else []) + ActiveMemberships(ps[1..], u, o)
  }

  /** Outcome of Django's `QuerySet.get`. */
  datatype Lookup = NotFound | Found(profile: Profile) | Multiple

  /** `get` on a query's rows: exactly one row, `DoesNotExist`, or `MultipleObjectsReturned`. */
  function Get(rows: seq<Profile>): (r: Lookup)
    ensures r.NotFound? <==> |rows| == 0
    ensures r.Found? ==> rows == [r.profile]
    ensures r.Multiple? <==> |rows| >= 2
  {
    if |rows| == 0 then NotFound
    else if |rows| == 1 then Found(rows[0])
    else Multiple
  }

  /** `Profile.objects.get(user=u, org_id=o, is_active=True)`. */
  function FindActiveMembership(ps: seq<Profile>, u: UserId, o: OrgId): (r: Lookup)
    ensures r.NotFound? <==> forall i :: 0 <= i < |ps| ==> !IsActiveMembership(ps[i], u, o)
    ensures r.Found? ==> r.profile in ps && IsActiveMembership(r.profile, u, o)
  {
    var rows := ActiveMemberships(ps, u, o);
    assert |rows| == 0 <==> forall i :: 0 <= i < |ps| ==> !IsActiveMembership(ps[i], u, o) by {
      if |rows| != 0 {
        assert rows[0] in rows;
      }
    }
    assert |rows| == 1 ==> rows[0] in rows;
    Get(rows)
  }

  /** Number of profiles in `ps` that are active memberships of `u` in `o`. */
  function CountActiveMemberships(ps: seq<Profile>, u: UserId, o: OrgId): nat {
    if ps == [] then 0
    else (if IsActiveMembership(ps[0], u, o) then 1 else 0) + CountActiveMemberships(ps[1..], u, o)
  }

  lemma {:induction false} ActiveMembershipsCount(ps: seq<Profile>, u: UserId, o: OrgId)
    ensures |ActiveMemberships(ps, u, o)| == CountActiveMemberships(ps, u, o)
  {
    if ps != [] {
      ActiveMembershipsCount(ps[1..], u, o);
    }
  }

  lemma {:induction false} CountAtLeastTwo(ps: seq<Profile>, u: UserId, o: OrgId)
    ensures CountActiveMemberships(ps, u, o) >= 2 <==>
      exists i, j :: 0 <= i < j < |ps| && IsActiveMembership(ps[i], u, o) && IsActiveMembership(ps[j], u, o)
  {
    if ps != [] {
      var tail := ps[1..];
      CountAtLeastTwo(tail, u, o);
      CountZero(tail, u, o);
      if CountActiveMemberships(ps, u, o) >= 2 {
        if IsActiveMembership(ps[0], u, o) {
          var j :| 0 <= j < |tail| && IsActiveMembership(tail[j], u, o);
          assert IsActiveMembership(ps[j + 1], u, o);
        } else {
          var i, j :| 0 <= i < j < |tail| && IsActiveMembership(tail[i], u, o) && IsActiveMembership(tail[j], u, o);
          assert IsActiveMembership(ps[i + 1], u, o) && IsActiveMembership(ps[j + 1], u, o);
        }
      }
      if exists i, j :: 0 <= i < j < |ps| && IsActiveMembership(ps[i], u, o) && IsActiveMembership(ps[j], u, o) {
        var i, j :| 0 <= i < j < |ps| && IsActiveMembership(ps[i], u, o) && IsActiveMembership(ps[j], u, o);
        assert IsActiveMembership(tail[j - 1], u, o);
        if i > 0 {
          assert IsActiveMembership(tail[i - 1], u, o);
        }
      }
    }
  }

  lemma {:induction false} CountZero(ps: seq<Profile>, u: UserId, o: OrgId)
    ensures CountActiveMemberships(ps, u, o) == 0 <==> forall i :: 0 <= i < |ps| ==> !IsActiveMembership(ps[i], u, o)
  {
    if ps != [] {
      CountZero(ps[1..], u, o);
      assert forall i :: 1 <= i < |ps| ==> ps[i] == ps[1..][i - 1];
    }
  }

  /** `get` answers `Multiple` exactly when two memberships of the store match and
      `Found` exactly when one does: the found profile is the only matching row. */
  lemma {:induction false} FindActiveMembershipCases(ps: seq<Profile>, u: UserId, o: OrgId)
    ensures FindActiveMembership(ps, u, o).Multiple? <==>
      exists i, j :: 0 <= i < j < |ps| && IsActiveMembership(ps[i], u, o) && IsActiveMembership(ps[j], u, o)
    ensures FindActiveMembership(ps, u, o).Found? ==>
      forall i, j :: 0 <= i < |ps| && 0 <= j < |ps| && IsActiveMembership(ps[i], u, o) && IsActiveMembership(ps[j], u, o) ==> i == j
  {
    ActiveMembershipsCount(ps, u, o);
    CountAtLeastTwo(ps, u, o);
    if FindActiveMembership(ps, u, o).Found? {
      forall i, j | 0 <= i < |ps| && 0 <= j < |ps| && IsActiveMembership(ps[i], u, o) && IsActiveMembership(ps[j], u, o)
        ensures i == j
      {
        if i != j {
          assert false;
        }
      }
    }
  }

  /** On the user's active profiles, `.get(org_id=o)` is the same query as
      `Profile.objects.get(user=u, org_id=o, is_active=True)`. */
  lemma {:induction false} ChainedQueryIsMembershipQuery(ps: seq<Profile>, u: UserId, o: OrgId)
    ensures OfOrg(ActiveProfiles(ps, u), o) == ActiveMemberships(ps, u, o)
  {
    if ps != [] {
      ChainedQueryIsMembershipQuery(ps[1..], u, o);
      var head := if IsActiveProfileOf(ps[0], u) then [ps[0]] else [];
      OfOrgAppend(head, ActiveProfiles(ps[1..], u), o);
    }
  }

  lemma {:induction false} OfOrgAppend(a: seq<Profile>, b: seq<Profile>, o: OrgId)
    ensures OfOrg(a + b, o) == OfOrg(a, o) + OfOrg(b, o)
  {
    if a != [] {
      assert (a + b)[1..] == a[1..] + b;
      OfOrgAppend(a[1..], b, o);
    } else {
      assert a + b == b;
    }
  }

  /** Filtering two stretches of the store joined is filtering each and joining: the
      active profiles keep their store order, and each appears as often as in the store. */
  lemma {:induction false} ActiveProfilesDistributes(a: seq<Profile>, b: seq<Profile>, u: UserId)
    ensures ActiveProfiles(a + b, u) == ActiveProfiles(a, u) + ActiveProfiles(b, u)
  {
    if a != [] {
      assert (a + b)[1..] == a[1..] + b;
      ActiveProfilesDistributes(a[1..], b, u);
    } else {
      assert a + b == b;
    }
  }

  /** `profiles.exists()` / `profiles.first()`: the user's first active membership, if any. */
  function DefaultMembership(ps: seq<Profile>, u: UserId): (r: Option<Profile>)
    ensures r.None? <==> forall p :: p in ps ==> !IsActiveProfileOf(p, u)
    ensures r.Some? ==> r.value in ps && IsActiveProfileOf(r.value, u)
  {
    var active := ActiveProfiles(ps, u);
    assert |active| > 0 ==> active[0] in active;
    if |active| == 0 then None else Some(active[0])
  }

  /** `ps[i]` is the user's active membership that comes first in store order. */
  predicate IsFirstActiveProfile(ps: seq<Profile>, u: UserId, i: int) {
    0 <= i < |ps| && IsActiveProfileOf(ps[i], u) && forall j :: 0 <= j < i ==> !IsActiveProfileOf(ps[j], u)
  }

  /** The default membership is absent exactly when the user has no active membership,
      and otherwise it is the active membership that comes first in store order. */
  lemma {:induction false} DefaultMembershipIsFirst(ps: seq<Profile>, u: UserId)
    ensures DefaultMembership(ps, u).None? <==> forall i :: 0 <= i < |ps| ==> !IsActiveProfileOf(ps[i], u)
    ensures DefaultMembership(ps, u).Some? ==>
      exists i :: IsFirstActiveProfile(ps, u, i) && ps[i] == DefaultMembership(ps, u).value
  {
    if ps != [] {
      var tail := ps[1..];
      DefaultMembershipIsFirst(tail, u);
      assert forall i :: 1 <= i < |ps| ==> ps[i] == tail[i - 1];
      if IsActiveProfileOf(ps[0], u) {
        assert IsFirstActiveProfile(ps, u, 0);
      } else if DefaultMembership(ps, u).Some? {
        var i :| IsFirstActiveProfile(tail, u, i) && tail[i] == DefaultMembership(tail, u).value;
        assert IsFirstActiveProfile(ps, u, i + 1);
      }
    }
  }

  // ---------------------------------------------------------------------------
  // Tokens
  // ---------------------------------------------------------------------------

  /** The role claims copied from a membership when its token is minted. */
  datatype RoleSnapshot = RoleSnapshot(role: string, isOrganizationAdmin: bool)

  /** The claims a token carries: the user, and the organisation and role it is bound to, if any. */
  datatype Claims = Claims(userId: UserId, orgId: Option<OrgId>, snapshot: Option<RoleSnapshot>)

  datatype TokenKind = AccessToken | RefreshToken
  datatype Token = Token(kind: TokenKind, claims: Claims)
  datatype TokenPair = TokenPair(access: Token, refresh: Token)

  /** What decoding the text of a refresh token yields: its claims, or a `TokenError`. */
  datatype Decoded = Valid(claims: Claims) | Invalid | Expired

  function SnapshotOf(p: Profile): RoleSnapshot {
    RoleSnapshot(p.role, p.isOrganizationAdmin)
  }

  /** `OrgAwareRefreshToken.for_user_and_org(user, org, profile)` together with its
      `.access_token`: both tokens carry the same claims. */
  function Mint(u: UserId, p: Option<Profile>): (r: TokenPair)
    ensures BoundTo(r, u, OrgOf(p), if p.Some? then Some(SnapshotOf(p.value)) else None)
  {
    var c := match p
      case None => Claims(u, None, None)
      case Some(m) => Claims(u, Some(m.org), Some(SnapshotOf(m)));
    TokenPair(Token(AccessToken, c), Token(RefreshToken, c))
  }

  /** Both tokens of `t` are of the right kind and carry exactly these claims. */
  predicate BoundTo(t: TokenPair, u: UserId, o: Option<OrgId>, s: Option<RoleSnapshot>) {
    && t.access == Token(AccessToken, Claims(u, o, s))
    && t.refresh == Token(RefreshToken, Claims(u, o, s))
  }

  /** Both tokens carry the same claims, and when they name an organisation the store
      holds an active membership of their user there whose role and admin flag they carry. */
  ghost predicate MintedFromActiveMembership(db: Store, t: TokenPair) {
    var c := t.refresh.claims;
    t.access.claims == c &&
    (c.orgId.Some? ==>
      exists i :: 0 <= i < |db.profiles| && IsActiveMembership(db.profiles[i], c.userId, c.orgId.value)
        && c.snapshot == Some(SnapshotOf(db.profiles[i])))
  }

  // ---------------------------------------------------------------------------
  // Responses and audit events
  // ---------------------------------------------------------------------------

  datatype AuthError =
    | InvalidLogin           // the login serializer rejected the request
    | NoOrgAccess            // login named an organisation the user does not belong to
    | RefreshRequired        // no refresh token in the request
    | InvalidOrExpiredToken  // the refresh token does not decode
    | UserNotFound           // the token's user does not exist
    | UserDisabled           // the token's user is inactive
    | MembershipRevoked      // the token's organisation membership is no longer active
    | OrgIdRequired          // org switch without a target
    | SwitchForbidden        // org switch to an organisation the user does not belong to
    | MultipleMemberships    // `get` raised MultipleObjectsReturned, which no view catches

  /** The HTTP status each failure is answered with: every refusal a view makes itself
      is a client error, and only the uncaught duplicate-membership lookup is a server
      error. */
  function Status(e: AuthError): (r: int)
    ensures 400 <= r < 600
    ensures r == 500 <==> e == MultipleMemberships
    ensures r == 401 <==> e == InvalidOrExpiredToken || e == UserNotFound
  {
    match e
    case InvalidLogin => 400
    case NoOrgAccess => 403
    case RefreshRequired => 400
    case InvalidOrExpiredToken => 401
    case UserNotFound => 401
    case UserDisabled => 403
    case MembershipRevoked => 403
    case OrgIdRequired => 400
    case SwitchForbidden => 403
    case MultipleMemberships => 500
  }

  datatype AuditEvent =
    | LoginSuccess(user: UserId, org: Option<OrgId>)
    | LoginFailure(email: string, reason: string)
    | TokenRefresh(user: UserId, org: Option<OrgId>)
    | TokenRevoked(user: UserId, org: Option<OrgId>, reason: string)
    | OrgSwitch(user: UserId, fromOrg: Option<OrgId>, toOrg: OrgId)
    | PermissionDenied(user: UserId, fromOrg: Option<OrgId>, action: string, resource: string)

  datatype OrgSummary = OrgSummary(id: OrgId, name: string)
  datatype ProfileSummary = ProfileSummary(id: string, role: string, isOrganizationAdmin: bool)

  datatype LoginOk = LoginOk(tokens: TokenPair, user: UserId, currentOrg: Option<OrgSummary>)
  datatype SwitchOk = SwitchOk(tokens: TokenPair, currentOrg: OrgSummary, profile: ProfileSummary)

  /** What a view answers and what it reports to the audit log. */
  datatype Outcome<T> = Outcome(response: Result<T, AuthError>, audit: seq<AuditEvent>)

  // ---------------------------------------------------------------------------
  // The three views as decisions over the store
  // ---------------------------------------------------------------------------

  /** Which membership a login binds: the named organisation's (a hard check), or the
      first active one when none is named (possibly none at all). */
  function ResolveLoginOrg(ps: seq<Profile>, u: UserId, requested: Option<string>): (r: Result<Option<Profile>, AuthError>)
    ensures r.Success? && r.value.Some? ==> r.value.value in ps && IsActiveProfileOf(r.value.value, u)
    ensures r.Success? && r.value.Some? && Present(requested) ==> r.value.value.org == requested.value
    ensures r.Failure? ==> Present(requested) && r.error in {NoOrgAccess, MultipleMemberships}
  {
    if Present(requested) then
      match FindActiveMembership(ps, u, requested.value)
      case Found(p) => Success(Some(p))
      case NotFound => Failure(NoOrgAccess)
      case Multiple => Failure(MultipleMemberships)
    else
      var d := DefaultMembership(ps, u);
      assert d.Some? ==> d.value in ActiveProfiles(ps, u);
      Success(d)
  }

  function OrgOf(p: Option<Profile>): Option<OrgId> {
    match p
    case None => None
    case Some(m) => Some(m.org)
  }

  /** The `current_org` entry of a login response. */
  function CurrentOrg(db: Store, p: Option<Profile>): Option<OrgSummary>
    requires p.Some? ==> p.value.org in db.orgs
  {
    match p
    case None => None
    case Some(m) => Some(OrgSummary(db.orgs[m.org].id, db.orgs[m.org].name))
  }

  /** `LoginView.post`. `verdict` is what the login serializer decided (the
      authenticated user, or a rejection whose error text is `errors`); `email`
      is the request's email field. */
  function LoginOutcome(db: Store, verdict: Option<UserId>, email: Option<string>, errors: string, requested: Option<string>): (r: Outcome<LoginOk>)
    requires Consistent(db)
    requires verdict.Some? ==> verdict.value in db.users
    ensures r.response == Failure(InvalidLogin) <==> verdict.None?
    ensures r.response.Failure? ==> r.response.error in {InvalidLogin, NoOrgAccess, MultipleMemberships}
    ensures r.response.Success? ==>
      var ok := r.response.value;
      && verdict == Some(ok.user)
      && ok.tokens.access.claims == ok.tokens.refresh.claims
      && ok.tokens.refresh.claims.userId == ok.user
      && (Present(requested) ==> ok.tokens.refresh.claims.orgId == Some(requested.value))
      && r.audit == [LoginSuccess(ok.user, ok.tokens.refresh.claims.orgId)]
  {
    match verdict
    case None => Outcome(Failure(InvalidLogin), [LoginFailure(email.GetOr("unknown"), errors)])
    case Some(u) =>
      match ResolveLoginOrg(db.profiles, u, requested)
      case Failure(e) =>
        if e == NoOrgAccess then
          Outcome(Failure(e), [LoginFailure(db.users[u].email, "No access to org " + requested.value)])
        else
          Outcome(Failure(e), [])
      case Success(p) =>
        Outcome(Success(LoginOk(Mint(u, p), u, CurrentOrg(db, p))), [LoginSuccess(u, OrgOf(p))])
  }

  /** `OrgAwareTokenRefreshView.post`. `input` is the request's `refresh` field and
      `decode` the token library's verdict on a token text. */
  function RefreshOutcome(db: Store, input: Option<string>, decode: string -> Decoded): (r: Outcome<TokenPair>)
    ensures r.response.Failure? ==>
      r.response.error in {RefreshRequired, InvalidOrExpiredToken, UserNotFound, UserDisabled, MembershipRevoked, MultipleMemberships}
    ensures r.response.Success? ==>
      && Present(input) && decode(input.value).Valid?
      && var c := decode(input.value).claims;
      && c.userId in db.users && db.users[c.userId].isActive
      && r.response.value.access.claims == r.response.value.refresh.claims
      && r.response.value.refresh.claims.userId == c.userId
      && r.response.value.refresh.claims.orgId == (if Present(c.orgId) then c.orgId else None)
      && r.audit == [TokenRefresh(c.userId, r.response.value.refresh.claims.orgId)]
  {
    if !Present(input) then Outcome(Failure(RefreshRequired), [])
    else
      match decode(input.value)
      case Invalid => Outcome(Failure(InvalidOrExpiredToken), [])
      case Expired => Outcome(Failure(InvalidOrExpiredToken), [])
      case Valid(c) =>
        if c.userId !in db.users then Outcome(Failure(UserNotFound), [])
        else if !db.users[c.userId].isActive then Outcome(Failure(UserDisabled), [])
        else if Present(c.orgId) then
          match FindActiveMembership(db.profiles, c.userId, c.orgId.value)
          case NotFound =>
            Outcome(Failure(MembershipRevoked), [TokenRevoked(c.userId, None, "Membership revoked for org " + c.orgId.value)])
          case Multiple => Outcome(Failure(MultipleMemberships), [])
          case Found(p) => Outcome(Success(Mint(c.userId, Some(p))), [TokenRefresh(c.userId, Some(p.org))])
        else
          Outcome(Success(Mint(c.userId, None)), [TokenRefresh(c.userId, None)])
  }

  /** `OrgSwitchView.post` for the authenticated user `u`, whose current organisation
      (set on the request upstream) is `fromOrg`. */
  function SwitchOutcome(db: Store, u: UserId, fromOrg: Option<OrgId>, requested: Option<string>): (r: Outcome<SwitchOk>)
    requires Consistent(db)
    ensures r.response.Failure? ==> r.response.error in {OrgIdRequired, SwitchForbidden, MultipleMemberships}
    ensures r.response.Success? ==>
      var ok := r.response.value;
      && Present(requested)
      && ok.tokens.access.claims == ok.tokens.refresh.claims
      && ok.tokens.refresh.claims == Claims(u, Some(requested.value), Some(RoleSnapshot(ok.profile.role, ok.profile.isOrganizationAdmin)))
      && ok.currentOrg.id == requested.value
      && r.audit == [OrgSwitch(u, fromOrg, requested.value)]
  {
    if !Present(requested) then Outcome(Failure(OrgIdRequired), [])
    else
      match FindActiveMembership(db.profiles, u, requested.value)
      case NotFound =>
        Outcome(Failure(SwitchForbidden), [PermissionDenied(u, fromOrg, "ORG_SWITCH", "org:" + requested.value)])
      case Multiple => Outcome(Failure(MultipleMemberships), [])
      case Found(p) =>
        var org := db.orgs[p.org];
        Outcome(
          Success(SwitchOk(Mint(u, Some(p)), OrgSummary(org.id, org.name), ProfileSummary(p.id, p.role, p.isOrganizationAdmin))),
          [OrgSwitch(u, fromOrg, p.org)])
  }

  /** The store after a login attempt: a user the serializer accepted gets `last_login`. */
  function Touched(users: map<UserId, User>, verdict: Option<UserId>, now: int): map<UserId, User>
    requires verdict.Some? ==> verdict.value in users
  {
    match verdict
    case None => users
    case Some(u) => users[u := users[u].(lastLogin := Some(now))]
  }

  lemma TouchedKeepsConsistent(db: Store, verdict: Option<UserId>, now: int)
    requires Consistent(db)
    requires verdict.Some? ==> verdict.value in db.users
    ensures Consistent(db.(users := Touched(db.users, verdict, now)))
  {
    var db' := db.(users := Touched(db.users, verdict, now));
    assert db'.users.Keys == db.users.Keys;
  }

  /** Login naming an organisation, by what the chained query `get` answers. */
  lemma LoginOutcomeByLookup(db: Store, u: UserId, email: Option<string>, errors: string, requested: Option<string>)
    requires Consistent(db) && u in db.users && Present(requested)
    ensures var out := LoginOutcome(db, Some(u), email, errors, requested);
      match Get(OfOrg(ActiveProfiles(db.profiles, u), requested.value))
      case NotFound =>
        out == Outcome(Failure(NoOrgAccess), [LoginFailure(db.users[u].email, "No access to org " + requested.value)])
      case Multiple => out == Outcome(Failure(MultipleMemberships), [])
      case Found(p) =>
        && p.org in db.orgs
        && out == Outcome(Success(LoginOk(Mint(u, Some(p)), u, CurrentOrg(db, Some(p)))), [LoginSuccess(u, Some(p.org))])
  {
    ChainedQueryIsMembershipQuery(db.profiles, u, requested.value);
  }

  /** Login naming no organisation binds the first of the user's active profiles, if any. */
  lemma LoginOutcomeByDefault(db: Store, u: UserId, email: Option<string>, errors: string, requested: Option<string>)
    requires Consistent(db) && u in db.users && !Present(requested)
    ensures var active := ActiveProfiles(db.profiles, u);
      var d := if |active| > 0 then Some(active[0]) else None;
      && (d.Some? ==> d.value.org in db.orgs)
      && LoginOutcome(db, Some(u), email, errors, requested)
        == Outcome(Success(LoginOk(Mint(u, d), u, CurrentOrg(db, d))), [LoginSuccess(u, OrgOf(d))])
  {
    var active := ActiveProfiles(db.profiles, u);
    if |active| > 0 {
      assert active[0] in active;
    }
  }

  // ---------------------------------------------------------------------------
  // The views as operations on a stateful service
  // ---------------------------------------------------------------------------

  /** The database and the audit log the views work against. */
  class AuthService {
    var users: map<UserId, User>
    var orgs: map<OrgId, Org>
    var profiles: seq<Profile>
    var log: seq<AuditEvent>

    function Db(): Store
      reads this
    {
      Store(users, orgs, profiles)
    }

    predicate Valid()
      reads this
    {
      Consistent(Db())
    }

    constructor (users: map<UserId, User>, orgs: map<OrgId, Org>, profiles: seq<Profile>)
      requires Consistent(Store(users, orgs, profiles))
      ensures Valid()
      ensures Db() == Store(users, orgs, profiles) && log == []
    {
      this.users := users;
      this.orgs := orgs;
      this.profiles := profiles;
      this.log := [];
    }

    /** `LoginView.post`: records `last_login` for an accepted user before resolving
        the organisation, then mints tokens or refuses. */
    method Login(verdict: Option<UserId>, email: Option<string>, errors: string, requested: Option<string>, now: int)
      returns (r: Result<LoginOk, AuthError>)
      requires Valid()
      requires verdict.Some? ==> verdict.value in users
      modifies this
      ensures Valid()
      ensures r == LoginOutcome(old(Db()), verdict, email, errors, requested).response
      ensures log == old(log) + LoginOutcome(old(Db()), verdict, email, errors, requested).audit
      ensures users == Touched(old(users), verdict, now)
      ensures orgs == old(orgs) && profiles == old(profiles)
    {
      if verdict.None? {
        log := log + [LoginFailure(email.GetOr("unknown"), errors)];
        return Failure(InvalidLogin);
      }
      var u := verdict.value;
      ghost var db0 := Db();
      TouchedKeepsConsistent(db0, verdict, now);
      users := users[u := users[u].(lastLogin := Some(now))];
      assert Db() == db0.(users := Touched(db0.users, verdict, now));

      var active := ActiveProfiles(profiles, u);
      var profile: Option<Profile> := None;
      if Present(requested) {
        LoginOutcomeByLookup(db0, u, email, errors, requested);
        match Get(OfOrg(active, requested.value))
        case NotFound =>
          log := log + [LoginFailure(users[u].email, "No access to org " + requested.value)];
          return Failure(NoOrgAccess);
        case Multiple =>
          return Failure(MultipleMemberships);
        case Found(p) =>
          profile := Some(p);
      } else {
        LoginOutcomeByDefault(db0, u, email, errors, requested);
        if |active| > 0 {
          profile := Some(active[0]);
        }
      }

      var tokens := Mint(u, profile);
      log := log + [LoginSuccess(u, OrgOf(profile))];
      r := Success(LoginOk(tokens, u, CurrentOrg(Db(), profile)));
    }

    /** `OrgAwareTokenRefreshView.post`: re-checks the user and the membership behind
        the token against the store before minting a new pair. */
    method Refresh(input: Option<string>, decode: string -> Decoded) returns (r: Result<TokenPair, AuthError>)
      requires Valid()
      modifies this`log
      ensures Valid()
      ensures r == RefreshOutcome(Db(), input, decode).response
      ensures log == old(log) + RefreshOutcome(Db(), input, decode).audit
    {
      if !Present(input) {
        return Failure(RefreshRequired);
      }
      var decoded := decode(input.value);
      if !decoded.Valid? {
        return Failure(InvalidOrExpiredToken);
      }
      var userId := decoded.claims.userId;
      var orgId := decoded.claims.orgId;
      if userId !in users {
        return Failure(UserNotFound);
      }
      if !users[userId].isActive {
        return Failure(UserDisabled);
      }
      if Present(orgId) {
        match FindActiveMembership(profiles, userId, orgId.value)
        case NotFound =>
          log := log + [TokenRevoked(userId, None, "Membership revoked for org " + orgId.value)];
          return Failure(MembershipRevoked);
        case Multiple =>
          return Failure(MultipleMemberships);
        case Found(p) =>
          var minted := Mint(userId, Some(p));
          log := log + [TokenRefresh(userId, Some(p.org))];
          return Success(minted);
      } else {
        var minted := Mint(userId, None);
        log := log + [TokenRefresh(userId, None)];
        return Success(minted);
      }
    }

    /** `OrgSwitchView.post` for the authenticated user `u`. */
    method SwitchOrg(u: UserId, fromOrg: Option<OrgId>, requested: Option<string>) returns (r: Result<SwitchOk, AuthError>)
      requires Valid()
      modifies this`log
      ensures Valid()
      ensures r == SwitchOutcome(Db(), u, fromOrg, requested).response
      ensures log == old(log) + SwitchOutcome(Db(), u, fromOrg, requested).audit
    {
      if !Present(requested) {
        return Failure(OrgIdRequired);
      }
      var target := requested.value;
      match FindActiveMembership(profiles, u, target)
      case NotFound =>
        log := log + [PermissionDenied(u, fromOrg, "ORG_SWITCH", "org:" + target)];
        return Failure(SwitchForbidden);
      case Multiple =>
        return Failure(MultipleMemberships);
      case Found(p) =>
        var tokens := Mint(u, Some(p));
        log := log + [OrgSwitch(u, fromOrg, p.org)];
        var org := orgs[p.org];
        return Success(SwitchOk(tokens, OrgSummary(org.id, org.name), ProfileSummary(p.id, p.role, p.isOrganizationAdmin)));
    }
  }
}
