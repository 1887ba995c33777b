/**
 * The front end's route guard: which requests it sees (the matcher) and
 * what it answers (redirect to the login page, redirect home, or pass).
 */
module Middleware {
  import opened Common

  /** What the guard reads from a request: the `auth_token` cookie and the path. */
  datatype Request = Request(authToken: Option<string>, pathname: string)

  datatype Response =
    | Redirect(path: string, redirectedFrom: Option<string>)
    | Next

  const LoginPath := "/auth/login"

  /** `middleware(request)`. */
  function Decide(req: Request): (r: Response)
    ensures r == Redirect(LoginPath, Some(req.pathname)) <==>
      !Truthy(req.authToken) && !IsPrefix(LoginPath, req.pathname)
    ensures r == Redirect("/", None) <==> Truthy(req.authToken) && IsPrefix(LoginPath, req.pathname)
    ensures r.Next? <==> (Truthy(req.authToken) <==> !IsPrefix(LoginPath, req.pathname))
  {
    if !Truthy(req.authToken) && !IsPrefix(LoginPath, req.pathname) then Redirect(LoginPath, Some(req.pathname))
    else if Truthy(req.authToken) && IsPrefix(LoginPath, req.pathname) then Redirect("/", None)
    else Next
  }

  /** A prefix of a path regex in which '.' stands for any character. */
  predicate WildPrefix(p: string, s: string)
  {
    |p| <= |s| && forall i :: 0 <= i < |p| ==> p[i] == '.' || p[i] == s[i]
  }

  /** The prefixes the negative lookahead of `config.matcher` excludes. */
  function MatcherExclusions(): seq<string>
  {
    ["api", "_next/static", "_next/image", "favicon.ico", "auth/login"]
  }

  /** The same list without `auth/login`. */
  function CorrectedExclusions(): seq<string>
  {
    ["api", "_next/static", "_next/image", "favicon.ico"]
  }

  /** `/((?!a|b|...).*)`: a leading '/', then a remainder that starts with none of the exclusions. */
  predicate Matches(exclusions: seq<string>, pathname: string)
  {
    |pathname| >= 1 && pathname[0] == '/' &&
    forall k :: 0 <= k < |exclusions| ==> !WildPrefix(exclusions[k], pathname[1..])
  }

  /** The response the application gives: the guard's answer where the matcher lets it run, otherwise a pass. */
  function Effective(exclusions: seq<string>, req: Request): (r: Response)
    ensures !Matches(exclusions, req.pathname) ==> r.Next?
    ensures Matches(exclusions, req.pathname) ==> r == Decide(req)
  {
    if Matches(exclusions, req.pathname) then Decide(req) else Next
  }

  /** The login page is excluded by the matcher exactly where the guard would test for it. */
  lemma LoginPathsExcluded(pathname: string)
    requires |pathname| >= 1 && pathname[0] == '/'
    ensures IsPrefix(LoginPath, pathname) ==> !Matches(MatcherExclusions(), pathname)
  {
    if IsPrefix(LoginPath, pathname) {
      assert WildPrefix(MatcherExclusions()[4], pathname[1..]) by {
        assert pathname[..11] == "/auth/login";
        forall i | 0 <= i < 10 ensures "auth/login"[i] == pathname[1..][i] {
          assert pathname[1..][i] == pathname[..11][i + 1];
        }
      }
    }
  }

  /** As written: no request is ever redirected home, because the matcher never lets the guard see a login path. */
  lemma RedirectHomeUnreachable(req: Request)
    ensures Effective(MatcherExclusions(), req) != Redirect("/", None)
  {
    if Matches(MatcherExclusions(), req.pathname) {
      LoginPathsExcluded(req.pathname);
    }
  }

  /** The request that shows it: a signed-in visit to the login page passes instead of going home. */
  lemma SignedInLoginPasses(req: Request)
    requires req == Request(Some("abc"), "/auth/login")
    ensures Decide(req) == Redirect("/", None)
    ensures Effective(MatcherExclusions(), req) == Next
  {
    RedirectHomeUnreachable(req);
  }

  /** With the corrected matcher, a signed-in visit to any login path goes home. */
  lemma CorrectedSendsSignedInHome(req: Request)
    requires Truthy(req.authToken) && IsPrefix(LoginPath, req.pathname)
    ensures Effective(CorrectedExclusions(), req) == Redirect("/", None)
  {
    var rest := req.pathname[1..];
    assert req.pathname[..11] == LoginPath;
    assert rest[..10] == "auth/login";
    assert !WildPrefix("api", rest) by { assert rest[0] == 'a' && rest[1] == 'u'; }
    assert !WildPrefix("_next/static", rest) by { assert rest[0] == 'a'; }
    assert !WildPrefix("_next/image", rest) by { assert rest[0] == 'a'; }
    assert !WildPrefix("favicon.ico", rest) by { assert rest[0] == 'a'; }
  }

  /** No redirect loop: following a redirect, with the same cookie, is never redirected again. */
  lemma NoRedirectLoop(exclusions: seq<string>, req: Request)
    requires Effective(exclusions, req).Redirect?
    ensures Effective(exclusions, Request(req.authToken, Effective(exclusions, req).path)).Next?
  {
    var target := Request(req.authToken, Effective(exclusions, req).path);
    if Truthy(req.authToken) {
      assert target.pathname == "/";
      assert !IsPrefix(LoginPath, "/");
    } else {
      assert target.pathname == LoginPath;
      assert IsPrefix(LoginPath, LoginPath);
    }
  }

  /** An unauthenticated request to a login path is never redirected, whichever matcher is used. */
  lemma LoginNeverRedirectsAnonymous(exclusions: seq<string>, req: Request)
    requires !Truthy(req.authToken) && IsPrefix(LoginPath, req.pathname)
    ensures Effective(exclusions, req).Next?
  {
  }

  /** Both matchers still guard every other page: an anonymous visit is sent to the login page with its origin. */
  lemma AnonymousSentToLogin(req: Request)
    requires !Truthy(req.authToken) && Matches(MatcherExclusions(), req.pathname)
    ensures Matches(CorrectedExclusions(), req.pathname)
    ensures Effective(MatcherExclusions(), req) == Redirect(LoginPath, Some(req.pathname))
    ensures Effective(CorrectedExclusions(), req) == Redirect(LoginPath, Some(req.pathname))
  {
    assert forall k :: 0 <= k < 4 ==> CorrectedExclusions()[k] == MatcherExclusions()[k];
    LoginPathsExcluded(req.pathname);
  }
}
