/**
 * The request middleware: an allow-list test on the pathname whose result is never acted
 * on — every request is passed through.
 */
module Middleware {

  /** `NextResponse.next()`, the only response this middleware gives. */
  datatype Response = Next

  /** The condition of the `if`: a plain prefix test, or exactly the root. Every path it
      admits is absolute. */
  function IsAllowListed(pathname: string): (allowed: bool)
    ensures allowed ==> 0 < |pathname| && pathname[0] == '/'
  {
    || "/auth" <= pathname
    || "/api" <= pathname
    || "/_next" <= pathname
    || "/favicon.ico" <= pathname
    || "/public" <= pathname
    || pathname == "/"
  }

  /** Extending an allow-listed path other than the root keeps it allow-listed, so for
      instance `/authx` and `/apiary` pass the test. */
  lemma PrefixMatchIsClosedUnderExtension(pathname: string, suffix: string)
    requires IsAllowListed(pathname) && pathname != "/"
    ensures IsAllowListed(pathname + suffix)
  {
    var p := pathname + suffix;
    assert pathname <= p;
  }

  lemma PlainPrefixExamples()
    ensures IsAllowListed("/authx") && IsAllowListed("/apiary")
  {
    assert "/auth" <= "/auth" + "x";
    PrefixMatchIsClosedUnderExtension("/auth", "x");
    PrefixMatchIsClosedUnderExtension("/api", "ary");
  }

  /** The root is matched exactly, not as a prefix: the app's own pages fail the test. */
  lemma RootIsExact()
    ensures IsAllowListed("/")
    ensures !IsAllowListed("/setup") && !IsAllowListed("/profile")
  {
    var setup, profile := "/setup", "/profile";
    assert setup[1] == 's' && profile[1] == 'p' && profile[2] == 'r';
    assert "/auth"[1] == 'a' && "/api"[1] == 'a' && "/_next"[1] == '_' && "/favicon.ico"[1] == 'f';
    assert "/public"[2] == 'u';
  }

  /** `middleware`: both branches pass the request through. */
  function Handle(pathname: string): (r: Response)
    ensures r == Next
  {
    if IsAllowListed(pathname) then Next else Next
  }

  /** So the response does not depend on the path. */
  lemma ResponseIndependentOfPath(p: string, q: string)
    ensures Handle(p) == Handle(q)
  {
  }
}
