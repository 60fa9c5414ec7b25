/** The shared axios client's response interceptor (src/auth/axios.ts).
    Its one effect, assigning `window.location.href`, is returned as the
    target of a redirect. */
module AxiosClient {
  import opened Types

  const LoginPath := "/login"

  /** JavaScript's `s.includes(sub)`. */
  function Contains(s: string, sub: string): (r: bool)
    ensures r ==> |sub| <= |s|
    ensures sub == [] ==> r
    ensures |sub| <= |s| && s[..|sub|] == sub ==> r
    decreases |s|
  {
    if |s| < |sub| then false
    else s[..|sub|] == sub || Contains(s[1..], sub)
  }

  /** `sub` occurs in `s` at offset `i`, so `s.includes(sub)` holds. */
  lemma {:induction false} ContainsAt(s: string, sub: string, i: nat)
    requires i + |sub| <= |s| && s[i..i + |sub|] == sub
    ensures Contains(s, sub)
    decreases i
  {
    if i > 0 {
      assert s[1..][i - 1..i - 1 + |sub|] == s[i..i + |sub|];
      ContainsAt(s[1..], sub, i - 1);
    }
  }

  /** Conversely, `s.includes(sub)` names an offset where `sub` occurs. */
  lemma {:induction false} ContainsFound(s: string, sub: string) returns (i: nat)
    requires Contains(s, sub)
    ensures i + |sub| <= |s| && s[i..i + |sub|] == sub
    decreases |s|
  {
    if s[..|sub|] == sub {
      i := 0;
    } else {
      var j := ContainsFound(s[1..], sub);
      assert s[1..][j..j + |sub|] == s[j + 1..j + 1 + |sub|];
      i := j + 1;
    }
  }

  /** What the interceptor does with one settled request. */
  datatype Intercepted<+T> = Intercepted(redirect: Option<string>, result: Outcome<T>)

  /** A success passes through; every failure is rejected again as it
      came. A 401 additionally sends the browser to `/login`, unless the
      current path already contains `/login`. */
  function Intercept<T>(result: Outcome<T>, pathname: string): (r: Intercepted<T>)
    ensures r.result == result
    ensures r.redirect.Some? <==>
              result.Failure? && result.thrown.AxiosError? && result.thrown.status == Some(401)
              && !Contains(pathname, LoginPath)
    ensures r.redirect.Some? ==> r.redirect.value == LoginPath
  {
    match result
    case Success(_) => Intercepted(None, result)
    case Failure(e) =>
      if e.AxiosError? && e.status == Some(401) && !Contains(pathname, LoginPath) then
        Intercepted(Some(LoginPath), result)
      else
        Intercepted(None, result)
  }

  /** No 401 redirects from a path with `/login` anywhere in it, such as
      `/login`, `/auth/login` or `/login/reset`. */
  lemma NoRedirectOnLoginPaths<T>(result: Outcome<T>, pathname: string, i: nat)
    requires i + |LoginPath| <= |pathname| && pathname[i..i + |LoginPath|] == LoginPath
    ensures Intercept(result, pathname).redirect.None?
  {
    ContainsAt(pathname, LoginPath, i);
  }

  /** The redirect is idempotent: once it has happened the path is
      `/login`, and a further failure, 401 or not, redirects no more. */
  lemma RedirectIsIdempotent<T>(first: Outcome<T>, pathname: string, second: Outcome<T>)
    requires Intercept(first, pathname).redirect.Some?
    ensures Intercept(second, Intercept(first, pathname).redirect.value).redirect.None?
  {
    NoRedirectOnLoginPaths(second, LoginPath, 0);
  }
}
