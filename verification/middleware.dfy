/** The page access rules: which paths the middleware runs on, and the decision it takes from
    the path and the session. */
module Middleware {
  import opened Wrappers

  /** The path prefixes of the matcher: each prefix itself and every path below it. */
  const MATCHER_PREFIXES: seq<string> := ["/dashboard", "/member", "/blind", "/schedule"]
  const SIGN_IN_PATH: string := "/auth/sign-in"
  const MEMBER_PREFIX: string := "/member"

  /** The signed-in user, as far as the rules look at it. */
  datatype Session = Session(memberId: string, roleCode: string)

  datatype Decision =
    | RedirectToSignIn(redirectUrl: string)
    | RedirectToProfile(location: string)
    | Next

  predicate StartsWith(s: string, prefix: string)
  {
    |prefix| <= |s| && s[..|prefix|] == prefix
  }

  /** `<prefix>/:path*`: the prefix itself or any path below it. */
  predicate MatcherAccepts(pathname: string)
  {
    exists i :: 0 <= i < |MATCHER_PREFIXES| &&
      (pathname == MATCHER_PREFIXES[i] || StartsWith(pathname, MATCHER_PREFIXES[i] + "/"))
  }

  /** The own-profile path of a member. */
  function ProfilePath(memberId: string): string
  {
    MEMBER_PREFIX + "/" + memberId
  }

  /** The decision for a path the matcher accepted. `adminRoleCode` is the administrator's role
      code. */
  function Decide(pathname: string, session: Option<Session>, adminRoleCode: string): (d: Decision)
    ensures d.RedirectToSignIn? ==> session.None? && Protected(pathname) && d.redirectUrl == pathname
    ensures d.RedirectToProfile? ==>
      && session.Some? && session.value.roleCode != adminRoleCode
      && StartsWith(pathname, MEMBER_PREFIX)
      && d.location == ProfilePath(session.value.memberId)
      && !StartsWith(pathname, d.location)
    ensures session.None? && Protected(pathname) ==> d == RedirectToSignIn(pathname)
  {
    if StartsWith(pathname, MEMBER_PREFIX) && session.None? then RedirectToSignIn(pathname)
    else if StartsWith(pathname, MEMBER_PREFIX) && session.value.roleCode != adminRoleCode
         && !StartsWith(pathname, ProfilePath(session.value.memberId))
    then RedirectToProfile(ProfilePath(session.value.memberId))
    else if StartsWith(pathname, "/blind") && session.None? then RedirectToSignIn(pathname)
    else if StartsWith(pathname, "/dashboard") && session.None? then RedirectToSignIn(pathname)
    else if StartsWith(pathname, "/schedule") && session.None? then RedirectToSignIn(pathname)
    else Next
  }

  /** A request: the middleware runs only on the paths the matcher accepts. */
  function Route(pathname: string, session: Option<Session>, adminRoleCode: string): (d: Decision)
    ensures !MatcherAccepts(pathname) ==> d == Next
    ensures d.RedirectToSignIn? ==> session.None? && d.redirectUrl == pathname
    ensures d.RedirectToProfile? ==> session.Some? && d.location == ProfilePath(session.value.memberId)
  {
    if MatcherAccepts(pathname) then Decide(pathname, session, adminRoleCode) else Next
  }

  predicate Protected(pathname: string)
  {
    StartsWith(pathname, "/dashboard") || StartsWith(pathname, MEMBER_PREFIX)
    || StartsWith(pathname, "/blind") || StartsWith(pathname, "/schedule")
  }

  /** Without a session, a protected path goes to the sign-in page, which is told to come back
      to the same path; any other path passes. */
  lemma SignedOut(pathname: string, adminRoleCode: string)
    ensures Protected(pathname) ==> Decide(pathname, None, adminRoleCode) == RedirectToSignIn(pathname)
    ensures !Protected(pathname) ==> Decide(pathname, None, adminRoleCode) == Next
  {
  }

  /** A member who is not an administrator is sent from any other member path to their own
      profile. */
  lemma OtherProfileRedirects(pathname: string, s: Session, adminRoleCode: string)
    requires StartsWith(pathname, MEMBER_PREFIX) && s.roleCode != adminRoleCode
    requires !StartsWith(pathname, ProfilePath(s.memberId))
    ensures Decide(pathname, Some(s), adminRoleCode) == RedirectToProfile(ProfilePath(s.memberId))
  {
  }

  /** With a session, the only redirect is the own-profile one; an administrator is never
      redirected. */
  lemma SignedInDecisions(pathname: string, s: Session, adminRoleCode: string)
    ensures Decide(pathname, Some(s), adminRoleCode) == Next <==>
      !StartsWith(pathname, MEMBER_PREFIX) || s.roleCode == adminRoleCode
      || StartsWith(pathname, ProfilePath(s.memberId))
    ensures !Decide(pathname, Some(s), adminRoleCode).RedirectToSignIn?
    ensures s.roleCode == adminRoleCode ==> Decide(pathname, Some(s), adminRoleCode) == Next
  {
  }

  lemma StartsWithSelf(s: string)
    ensures StartsWith(s, s)
  {
  }

  /** Following a redirect never leads to another one for the same session: the own profile is
      let through, and the sign-in page is outside the matcher. */
  lemma NoRedirectLoop(pathname: string, session: Option<Session>, adminRoleCode: string)
    ensures match Route(pathname, session, adminRoleCode)
      case RedirectToProfile(location) => Route(location, session, adminRoleCode) == Next
      case RedirectToSignIn(_) => Route(SIGN_IN_PATH, session, adminRoleCode) == Next
      case Next => true
  {
    match Route(pathname, session, adminRoleCode)
    case RedirectToProfile(location) =>
      StartsWithSelf(location);
      assert StartsWith(location, MEMBER_PREFIX) by {
        assert location[..|MEMBER_PREFIX|] == MEMBER_PREFIX;
      }
    case RedirectToSignIn(_) =>
      assert !MatcherAccepts(SIGN_IN_PATH) by {
        forall i | 0 <= i < |MATCHER_PREFIXES|
          ensures SIGN_IN_PATH != MATCHER_PREFIXES[i] && !StartsWith(SIGN_IN_PATH, MATCHER_PREFIXES[i] + "/")
        {
          assert MATCHER_PREFIXES[i][1] != SIGN_IN_PATH[1];
        }
      }
    case Next =>
  }

  /** The own-profile test compares prefixes only: member "1" is let into "/member/12". */
  lemma ProfilePrefixQuirk(roleCode: string, adminRoleCode: string)
    ensures Decide("/member/12", Some(Session("1", roleCode)), adminRoleCode) == Next
  {
    assert "/member/12"[..|ProfilePath("1")|] == ProfilePath("1");
  }

  /** "/members" starts with "/member" but is not under the matcher, so it is never guarded,
      while the rule itself would send a signed-out visitor to sign in. */
  lemma MembersOutsideMatcher(adminRoleCode: string)
    ensures Route("/members", None, adminRoleCode) == Next
    ensures Decide("/members", None, adminRoleCode) == RedirectToSignIn("/members")
  {
    assert !MatcherAccepts("/members") by {
      forall i | 0 <= i < |MATCHER_PREFIXES|
        ensures "/members" != MATCHER_PREFIXES[i] && !StartsWith("/members", MATCHER_PREFIXES[i] + "/")
      {
        var q := MATCHER_PREFIXES[i] + "/";
        if i == 1 {
          assert "/members"[..|q|][7] != q[7];
        } else if |q| <= 8 {
          assert "/members"[..|q|][1] != q[1];
        }
      }
    }
    assert "/members"[..7] == MEMBER_PREFIX;
  }

  /** Every path the matcher accepts is protected, so signed-out visitors never reach it. */
  lemma MatchedPathsAreProtected(pathname: string, adminRoleCode: string)
    requires MatcherAccepts(pathname)
    ensures Route(pathname, None, adminRoleCode) == RedirectToSignIn(pathname)
  {
    var i :| 0 <= i < |MATCHER_PREFIXES| &&
      (pathname == MATCHER_PREFIXES[i] || StartsWith(pathname, MATCHER_PREFIXES[i] + "/"));
    var p := MATCHER_PREFIXES[i];
    if pathname != p {
      assert pathname[..|p|] == (pathname[..|p + "/"|])[..|p|] == p;
    }
    assert StartsWith(pathname, p);
  }
}
