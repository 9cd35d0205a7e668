/**
 * The request middleware's routing decision for portal paths. The cookie adapter and the
 * framework response objects are not modelled; the decision is returned as a verdict together
 * with which lookups it made.
 */
module Middleware {
  import opened Wrappers
  import opened Strings
  import opened Backend

  datatype Verdict = PassThrough | RedirectTo(target: string) | Crashed

  /** The verdict, and whether the session and the caller's profile were looked up. */
  datatype Decision = Decision(verdict: Verdict, readsSession: bool, readsProfile: bool)

  const ProtectedPaths: seq<string> := ["/portal/dashboard", "/portal/admin"]

  /** The login page and API routes are let through before any lookup. */
  predicate Skips(path: string) {
    path == "/portal" || StartsWith(path, "/api/")
  }

  /** `prefixes.some(p => path.startsWith(p))` */
  function AnyPrefix(path: string, prefixes: seq<string>): (b: bool)
    ensures b <==> exists k :: 0 <= k < |prefixes| && StartsWith(path, prefixes[k])
  {
    if prefixes == [] then false
    else
      var rest := AnyPrefix(path, prefixes[1..]);
      assert forall k :: 1 <= k < |prefixes| ==> prefixes[k] == prefixes[1..][k - 1];
      StartsWith(path, prefixes[0]) || rest
  }

  /** A path is protected when it starts with one of the protected prefixes. */
  predicate IsProtected(path: string) {
    AnyPrefix(path, ProtectedPaths)
  }

  lemma ProtectedByPrefix(path: string)
    ensures IsProtected(path) <==> StartsWith(path, "/portal/dashboard") || StartsWith(path, "/portal/admin")
  {
    assert ProtectedPaths[0] == "/portal/dashboard" && ProtectedPaths[1] == "/portal/admin";
  }

  /**
   * The decision for `path`, given the session's identity (if any), the profiles table and the
   * outcome of the role read; a failed read yields no data, as a missing profile does.
   */
  function Route(path: string, session: Option<Id>, rows: seq<Profile>, read: Outcome): (d: Decision)
    requires DistinctProfileIds(rows)
    ensures Skips(path) ==> d == Decision(PassThrough, false, false)
    ensures d.readsSession <==> !Skips(path) && IsProtected(path)
    ensures !Skips(path) && !IsProtected(path) ==> d == Decision(PassThrough, false, false)
    ensures d.readsSession && session.None? ==> d == Decision(RedirectTo("/portal"), true, false)
    ensures d.readsProfile <==> d.readsSession && session.Some? && StartsWith(path, "/portal/admin")
    ensures d.readsSession && session.Some? && !StartsWith(path, "/portal/admin") ==> d.verdict == PassThrough
    ensures d.readsProfile ==>
              d.verdict == (if read.Crash? then Crashed
                            else if read.Succeed? && IsAdminProfile(rows, session.value) then PassThrough
                            else RedirectTo("/portal/dashboard"))
  {
    if Skips(path) then Decision(PassThrough, false, false)
    else if !IsProtected(path) then Decision(PassThrough, false, false)
    else if session.None? then Decision(RedirectTo("/portal"), true, false)
    else if !StartsWith(path, "/portal/admin") then Decision(PassThrough, true, false)
    else
      match read
      case Crash => Decision(Crashed, true, true)
      case Fail(_) => Decision(RedirectTo("/portal/dashboard"), true, true)
      case Succeed =>
        var profile := ProfileById(rows, session.value);
        if profile.Some? && profile.value.role == Admin then Decision(PassThrough, true, true)
        else Decision(RedirectTo("/portal/dashboard"), true, true)
  }

  /** The reset-password page is neither skipped nor protected, so it is let through unlooked. */
  lemma ResetPasswordPassesThrough(session: Option<Id>, rows: seq<Profile>, read: Outcome)
    requires DistinctProfileIds(rows)
    ensures Route("/portal/reset-password", session, rows, read) == Decision(PassThrough, false, false)
  {
    var path := "/portal/reset-password";
    ProtectedByPrefix(path);
    assert path[..|"/portal/dashboard"|][8] != "/portal/dashboard"[8];
    assert path[..|"/portal/admin"|][8] != "/portal/admin"[8];
    assert path[..|"/api/"|][1] != "/api/"[1];
  }

  /** Matching is by prefix: a longer name that starts with a protected one is also gated. */
  lemma LongerNamesAreGated(session: Option<Id>, rows: seq<Profile>, read: Outcome)
    requires DistinctProfileIds(rows)
    ensures Route("/portal/administrator", session, rows, read).readsSession
    ensures session.Some? ==> Route("/portal/administrator", session, rows, read).readsProfile
  {
    var path := "/portal/administrator";
    ProtectedByPrefix(path);
    assert path[..|"/portal/admin"|] == "/portal/admin";
    assert path[..|"/api/"|][1] != "/api/"[1];
  }

  /** An authenticated caller reaches the dashboard whatever its role. */
  lemma DashboardForAnyRole(id: Id, rows: seq<Profile>, read: Outcome)
    requires DistinctProfileIds(rows)
    ensures Route("/portal/dashboard", Some(id), rows, read) == Decision(PassThrough, true, false)
  {
    var path := "/portal/dashboard";
    ProtectedByPrefix(path);
    assert path[..|"/portal/dashboard"|] == "/portal/dashboard";
    assert path[..|"/api/"|][1] != "/api/"[1];
    assert path[..|"/portal/admin"|][8] != "/portal/admin"[8];
  }
}
