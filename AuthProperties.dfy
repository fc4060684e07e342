/**
 * What the login, refresh and org-switch decisions promise, stated over all
 * stores and requests.
 */
module AuthProperties {
  import opened Wrappers
  import opened Auth

  /** `ps[i]` is the only active membership of `u` in `o`. */
  predicate IsOnlyActiveMembership(ps: seq<Profile>, u: UserId, o: OrgId, i: int) {
    0 <= i < |ps| && IsActiveMembership(ps[i], u, o)
    && forall j :: 0 <= j < |ps| && IsActiveMembership(ps[j], u, o) ==> j == i
  }

  /** With a single active membership, `get` finds exactly that profile. */
  lemma FindsOnlyMembership(ps: seq<Profile>, u: UserId, o: OrgId, i: int)
    requires IsOnlyActiveMembership(ps, u, o, i)
    ensures FindActiveMembership(ps, u, o) == Found(ps[i])
  {
    FindActiveMembershipCases(ps, u, o);
    var r := FindActiveMembership(ps, u, o);
    assert !r.NotFound?;
    assert !r.Multiple?;
    var k :| 0 <= k < |ps| && ps[k] == r.profile;
  }

  // ---------------------------------------------------------------------------
  // Login
  // ---------------------------------------------------------------------------

  /** A request the login serializer rejects answers 400 and logs a failure under the
      request's email, or "unknown" when it has none. */
  lemma LoginRejectedByCredentials(db: Store, email: Option<string>, errors: string, requested: Option<string>)
    requires Consistent(db)
    ensures var out := LoginOutcome(db, None, email, errors, requested);
      && out.response == Failure(InvalidLogin) && Status(InvalidLogin) == 400
      && out.audit == [LoginFailure(if email.Some? then email.value else "unknown", errors)]
  {
  }

  /** Login naming an organisation is refused with 403 exactly when the user has no
      active membership there; no token is minted and a login failure is logged. */
  lemma LoginRefusedWithoutMembership(db: Store, u: UserId, email: Option<string>, errors: string, requested: Option<string>)
    requires Consistent(db) && u in db.users
    ensures var out := LoginOutcome(db, Some(u), email, errors, requested);
      out.response == Failure(NoOrgAccess) <==>
        Present(requested) && forall i :: 0 <= i < |db.profiles| ==> !IsActiveMembership(db.profiles[i], u, requested.value)
    ensures var out := LoginOutcome(db, Some(u), email, errors, requested);
      out.response == Failure(NoOrgAccess) ==>
        Status(NoOrgAccess) == 403 && out.audit == [LoginFailure(db.users[u].email, "No access to org " + requested.value)]
  {
  }

  /** Login naming an organisation the user actively belongs to binds both tokens to
      that organisation with that membership's role, and reports it as `current_org`. */
  lemma {:induction false} LoginBindsRequestedOrg(db: Store, u: UserId, email: Option<string>, errors: string, o: OrgId, i: int)
    requires Consistent(db) && u in db.users && o != ""
    requires IsOnlyActiveMembership(db.profiles, u, o, i)
    ensures var out := LoginOutcome(db, Some(u), email, errors, Some(o));
      && out.response.Success?
      && BoundTo(out.response.value.tokens, u, Some(o), Some(SnapshotOf(db.profiles[i])))
      && out.response.value.user == u
      && out.response.value.currentOrg == Some(OrgSummary(o, db.orgs[o].name))
      && out.audit == [LoginSuccess(u, Some(o))]
  {
    FindsOnlyMembership(db.profiles, u, o, i);
  }

  /** Login without an organisation always succeeds. It binds the user's first active
      membership in store order, or, for a user with none, mints tokens with no
      organisation and answers no `current_org`. */
  lemma {:induction false} LoginBindsDefaultOrg(db: Store, u: UserId, email: Option<string>, errors: string, requested: Option<string>)
    requires Consistent(db) && u in db.users && !Present(requested)
    ensures LoginOutcome(db, Some(u), email, errors, requested).response.Success?
    ensures var out := LoginOutcome(db, Some(u), email, errors, requested);
      (forall i :: 0 <= i < |db.profiles| ==> !IsActiveProfileOf(db.profiles[i], u)) ==>
        && BoundTo(out.response.value.tokens, u, None, None)
        && out.response.value.currentOrg == None
        && out.audit == [LoginSuccess(u, None)]
    ensures var out := LoginOutcome(db, Some(u), email, errors, requested);
      (exists i :: 0 <= i < |db.profiles| && IsActiveProfileOf(db.profiles[i], u)) ==>
        exists i :: IsFirstActiveProfile(db.profiles, u, i)
          && BoundTo(out.response.value.tokens, u, Some(db.profiles[i].org), Some(SnapshotOf(db.profiles[i])))
          && out.response.value.currentOrg == Some(OrgSummary(db.profiles[i].org, db.orgs[db.profiles[i].org].name))
          && out.audit == [LoginSuccess(u, Some(db.profiles[i].org))]
  {
    LoginOutcomeByDefault(db, u, email, errors, requested);
    DefaultMembershipIsFirst(db.profiles, u);
    var d := DefaultMembership(db.profiles, u);
    var out := LoginOutcome(db, Some(u), email, errors, requested);
    assert out == Outcome(Success(LoginOk(Mint(u, d), u, CurrentOrg(db, d))), [LoginSuccess(u, OrgOf(d))]);
    if d.Some? {
      var i :| IsFirstActiveProfile(db.profiles, u, i) && db.profiles[i] == d.value;
      var p := db.profiles[i];
      assert CurrentOrg(db, d) == Some(OrgSummary(p.org, db.orgs[p.org].name));
      assert BoundTo(out.response.value.tokens, u, Some(p.org), Some(SnapshotOf(p)));
    }
  }

  // ---------------------------------------------------------------------------
  // Refresh
  // ---------------------------------------------------------------------------

  /** A missing or empty refresh field answers 400 whatever the store and the token
      library would say: nothing is decoded or looked up, nothing is logged. */
  lemma RefreshNeedsToken(db: Store, other: Store, input: Option<string>, decode: string -> Decoded, otherDecode: string -> Decoded)
    requires !Present(input)
    ensures RefreshOutcome(db, input, decode) == Outcome(Failure(RefreshRequired), [])
    ensures RefreshOutcome(db, input, decode) == RefreshOutcome(other, input, otherDecode)
    ensures Status(RefreshRequired) == 400
  {
  }

  /** A token that does not decode, or whose user is missing, answers 401; a token of
      a disabled user answers 403. None of them mints or logs anything. */
  lemma RefreshRejectsSubject(db: Store, text: string, decode: string -> Decoded)
    requires text != ""
    ensures var out := RefreshOutcome(db, Some(text), decode);
      !decode(text).Valid? ==>
        out == Outcome(Failure(InvalidOrExpiredToken), []) && Status(InvalidOrExpiredToken) == 401
    ensures var out := RefreshOutcome(db, Some(text), decode);
      decode(text).Valid? && decode(text).claims.userId !in db.users ==>
        out == Outcome(Failure(UserNotFound), []) && Status(UserNotFound) == 401
    ensures var out := RefreshOutcome(db, Some(text), decode);
      decode(text).Valid? && decode(text).claims.userId in db.users && !db.users[decode(text).claims.userId].isActive ==>
        out == Outcome(Failure(UserDisabled), []) && Status(UserDisabled) == 403
  {
  }

  /** Refresh answers "membership revoked" exactly when the token is bound to an
      organisation in which its (existing, active) user has no active membership,
      and then logs a revocation. The answer depends on nothing else, so it repeats
      on every retry for as long as the membership stays inactive. */
  lemma RefreshRevokedExactlyWithoutMembership(db: Store, text: string, decode: string -> Decoded)
    requires text != ""
    ensures var out := RefreshOutcome(db, Some(text), decode);
      out.response == Failure(MembershipRevoked) <==>
        && decode(text).Valid?
        && var c := decode(text).claims;
        && c.userId in db.users && db.users[c.userId].isActive
        && Present(c.orgId)
        && forall i :: 0 <= i < |db.profiles| ==> !IsActiveMembership(db.profiles[i], c.userId, c.orgId.value)
    ensures var out := RefreshOutcome(db, Some(text), decode);
      out.response == Failure(MembershipRevoked) ==>
        Status(MembershipRevoked) == 403
        && out.audit == [TokenRevoked(decode(text).claims.userId, None, "Membership revoked for org " + decode(text).claims.orgId.value)]
  {
  }

  /** A successful refresh keeps the token's organisation binding (or its absence) and
      takes the role from the membership as it is now in the store, whatever role the
      old token carried. */
  lemma {:induction false} RefreshRebindsFromStore(db: Store, text: string, decode: string -> Decoded)
    requires text != "" && decode(text).Valid?
    requires RefreshOutcome(db, Some(text), decode).response.Success?
    ensures var c := decode(text).claims;
      var t := RefreshOutcome(db, Some(text), decode).response.value;
      if Present(c.orgId) then
        exists i :: IsOnlyActiveMembership(db.profiles, c.userId, c.orgId.value, i)
          && BoundTo(t, c.userId, c.orgId, Some(SnapshotOf(db.profiles[i])))
      else
        BoundTo(t, c.userId, None, None)
    ensures RefreshOutcome(db, Some(text), decode).audit ==
      [TokenRefresh(decode(text).claims.userId, if Present(decode(text).claims.orgId) then decode(text).claims.orgId else None)]
  {
    var c := decode(text).claims;
    if Present(c.orgId) {
      var ps := db.profiles;
      var o := c.orgId.value;
      FindActiveMembershipCases(ps, c.userId, o);
      var p := FindActiveMembership(ps, c.userId, o).profile;
      var i :| 0 <= i < |ps| && ps[i] == p;
      assert IsOnlyActiveMembership(ps, c.userId, o, i);
    }
  }

  // ---------------------------------------------------------------------------
  // Org switch
  // ---------------------------------------------------------------------------

  /** A switch without a target answers 400 and logs nothing. */
  lemma SwitchNeedsTarget(db: Store, u: UserId, fromOrg: Option<OrgId>, requested: Option<string>)
    requires Consistent(db) && !Present(requested)
    ensures SwitchOutcome(db, u, fromOrg, requested) == Outcome(Failure(OrgIdRequired), [])
    ensures Status(OrgIdRequired) == 400
  {
  }

  /** A switch is refused with 403 exactly when the user has no active membership in
      the target, and the refusal is logged with the organisation the user came from. */
  lemma SwitchRefusedWithoutMembership(db: Store, u: UserId, fromOrg: Option<OrgId>, o: OrgId)
    requires Consistent(db) && o != ""
    ensures var out := SwitchOutcome(db, u, fromOrg, Some(o));
      out.response == Failure(SwitchForbidden) <==>
        forall i :: 0 <= i < |db.profiles| ==> !IsActiveMembership(db.profiles[i], u, o)
    ensures var out := SwitchOutcome(db, u, fromOrg, Some(o));
      out.response == Failure(SwitchForbidden) ==>
        Status(SwitchForbidden) == 403 && out.audit == [PermissionDenied(u, fromOrg, "ORG_SWITCH", "org:" + o)]
  {
  }

  /** A switch to an organisation the user actively belongs to binds both tokens to it
      with the membership's role, and answers that membership's id, role and admin flag. */
  lemma {:induction false} SwitchBindsTarget(db: Store, u: UserId, fromOrg: Option<OrgId>, o: OrgId, i: int)
    requires Consistent(db) && o != ""
    requires IsOnlyActiveMembership(db.profiles, u, o, i)
    ensures var out := SwitchOutcome(db, u, fromOrg, Some(o));
      var p := db.profiles[i];
      && out.response.Success?
      && BoundTo(out.response.value.tokens, u, Some(o), Some(SnapshotOf(p)))
      && out.response.value.currentOrg == OrgSummary(o, db.orgs[o].name)
      && out.response.value.profile == ProfileSummary(p.id, p.role, p.isOrganizationAdmin)
      && out.audit == [OrgSwitch(u, fromOrg, o)]
  {
    FindsOnlyMembership(db.profiles, u, o, i);
  }

  // ---------------------------------------------------------------------------
  // Minted tokens and revocation
  // ---------------------------------------------------------------------------

  /** Every token pair any of the three views mints that names an organisation was
      minted from an active membership of its user there, and carries that role. */
  lemma MintedTokensComeFromActiveMemberships(
    db: Store, verdict: Option<UserId>, email: Option<string>, errors: string, requested: Option<string>,
    text: Option<string>, decode: string -> Decoded, u: UserId, fromOrg: Option<OrgId>)
    requires Consistent(db)
    requires verdict.Some? ==> verdict.value in db.users
    ensures var r := LoginOutcome(db, verdict, email, errors, requested).response;
      r.Success? ==> MintedFromActiveMembership(db, r.value.tokens)
    ensures var r := RefreshOutcome(db, text, decode).response;
      r.Success? ==> MintedFromActiveMembership(db, r.value)
    ensures var r := SwitchOutcome(db, u, fromOrg, requested).response;
      r.Success? ==> MintedFromActiveMembership(db, r.value.tokens)
  {
    LoginMintsFromActive(db, verdict, email, errors, requested);
    RefreshMintsFromActive(db, text, decode);
    SwitchMintsFromActive(db, u, fromOrg, requested);
  }

  lemma RefreshMintsFromActive(db: Store, text: Option<string>, decode: string -> Decoded)
    ensures var r := RefreshOutcome(db, text, decode).response;
      r.Success? ==> MintedFromActiveMembership(db, r.value)
  {
    var r := RefreshOutcome(db, text, decode).response;
    if r.Success? && Present(decode(text.value).claims.orgId) {
      var c := decode(text.value).claims;
      FoundIsAtIndex(db.profiles, c.userId, c.orgId.value);
    }
  }

  lemma SwitchMintsFromActive(db: Store, u: UserId, fromOrg: Option<OrgId>, requested: Option<string>)
    requires Consistent(db)
    ensures var r := SwitchOutcome(db, u, fromOrg, requested).response;
      r.Success? ==> MintedFromActiveMembership(db, r.value.tokens)
  {
    if Present(requested) {
      FoundIsAtIndex(db.profiles, u, requested.value);
    }
  }

  lemma FoundIsAtIndex(ps: seq<Profile>, u: UserId, o: OrgId)
    ensures FindActiveMembership(ps, u, o).Found? ==>
      exists i :: 0 <= i < |ps| && ps[i] == FindActiveMembership(ps, u, o).profile && IsActiveMembership(ps[i], u, o)
  {
    var r := FindActiveMembership(ps, u, o);
    if r.Found? {
      var i :| 0 <= i < |ps| && ps[i] == r.profile;
    }
  }

  lemma LoginMintsFromActive(db: Store, verdict: Option<UserId>, email: Option<string>, errors: string, requested: Option<string>)
    requires Consistent(db)
    requires verdict.Some? ==> verdict.value in db.users
    ensures var r := LoginOutcome(db, verdict, email, errors, requested).response;
      r.Success? ==> MintedFromActiveMembership(db, r.value.tokens)
  {
    if verdict.Some? {
      var u := verdict.value;
      var p := ResolveLoginOrg(db.profiles, u, requested);
      if p.Success? && p.value.Some? {
        var m := p.value.value;
        var i :| 0 <= i < |db.profiles| && db.profiles[i] == m;
        assert IsActiveMembership(db.profiles[i], u, m.org);
      }
    }
  }

  /** Deactivating every membership of `u` in `o`, as an administrator does outside the views. */
  function Deactivate(ps: seq<Profile>, u: UserId, o: OrgId): (r: seq<Profile>)
    ensures |r| == |ps|
  {
    if ps == [] then []
    else [if ps[0].user == u && ps[0].org == o then ps[0].(isActive := false) else ps[0]] + Deactivate(ps[1..], u, o)
  }

  lemma {:induction false} DeactivateLeavesNoActiveMembership(ps: seq<Profile>, u: UserId, o: OrgId)
    ensures forall i :: 0 <= i < |ps| ==> !IsActiveMembership(Deactivate(ps, u, o)[i], u, o)
    ensures forall i :: 0 <= i < |ps| ==> Deactivate(ps, u, o)[i].user == ps[i].user && Deactivate(ps, u, o)[i].org == ps[i].org
  {
    if ps != [] {
      DeactivateLeavesNoActiveMembership(ps[1..], u, o);
      forall i | 1 <= i < |ps|
        ensures Deactivate(ps, u, o)[i] == Deactivate(ps[1..], u, o)[i - 1]
      {
      }
    }
  }

  /** The revocation scenario: a user logs in and is bound to an organisation; while
      the membership is active the refresh token renews the same binding (or meets the
      500 of a duplicated membership); once it is deactivated, refreshing that same
      token is refused as revoked. */
  lemma LoginBindingRevokedByDeactivation(
    db: Store, u: UserId, email: Option<string>, errors: string, requested: Option<string>,
    ok: LoginOk, text: string, decode: string -> Decoded)
    requires Consistent(db) && u in db.users && db.users[u].isActive && text != ""
    requires LoginOutcome(db, Some(u), email, errors, requested).response == Success(ok)
    requires ok.tokens.refresh.claims.orgId.Some? && decode(text) == Valid(ok.tokens.refresh.claims)
    ensures var before := RefreshOutcome(db, Some(text), decode).response;
      before.Success? || before == Failure(MultipleMemberships)
    ensures var before := RefreshOutcome(db, Some(text), decode).response;
      before.Success? ==> before.value.refresh.claims.orgId == ok.tokens.refresh.claims.orgId
    ensures var revoked := db.(profiles := Deactivate(db.profiles, u, ok.tokens.refresh.claims.orgId.value));
      RefreshOutcome(revoked, Some(text), decode).response == Failure(MembershipRevoked)
  {
    var c := ok.tokens.refresh.claims;
    var o := c.orgId.value;
    LoginMintsFromActive(db, Some(u), email, errors, requested);
    assert c.userId == u;
    var i :| 0 <= i < |db.profiles| && IsActiveMembership(db.profiles[i], u, o);
    assert db.profiles[i].org in db.orgs;
    assert Present(c.orgId);
    RefreshKeepsActiveBinding(db, text, decode, i);
    var revoked := db.(profiles := Deactivate(db.profiles, u, o));
    DeactivateLeavesNoActiveMembership(db.profiles, u, o);
    RefreshRevokedExactlyWithoutMembership(revoked, text, decode);
  }

  /** A refresh token bound to an organisation where its active user still has an
      active membership is renewed with the same binding, or meets the 500 of a
      duplicated membership; it is never refused as revoked. */
  lemma RefreshKeepsActiveBinding(db: Store, text: string, decode: string -> Decoded, i: int)
    requires text != "" && decode(text).Valid?
    requires var c := decode(text).claims;
      c.userId in db.users && db.users[c.userId].isActive && Present(c.orgId)
      && 0 <= i < |db.profiles| && IsActiveMembership(db.profiles[i], c.userId, c.orgId.value)
    ensures var r := RefreshOutcome(db, Some(text), decode).response;
      r.Success? || r == Failure(MultipleMemberships)
    ensures var r := RefreshOutcome(db, Some(text), decode).response;
      r.Success? ==> r.value.refresh.claims.orgId == decode(text).claims.orgId
  {
    var c := decode(text).claims;
    FindActiveMembershipCases(db.profiles, c.userId, c.orgId.value);
  }
}
