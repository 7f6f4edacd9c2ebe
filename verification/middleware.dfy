/** The request middleware: public-route bypass, a per-client sliding-window
    rate limiter for `/api/` paths, and the session check that redirects to
    the login page. */
module Middleware {
  import opened Wrappers
  import opened Text
  import opened Seqs

  const RateLimitWindow: int := 60 * 1000
  const MaxRequests: nat := 100
  const PublicRoutes: seq<string> := ["/", "/auth"]

  /** `routes.some(route => pathname === route || pathname.startsWith(route))` */
  predicate SomeRouteMatches(routes: seq<string>, pathname: string)
  {
    |routes| > 0 && (pathname == routes[0] || StartsWith(pathname, routes[0]) || SomeRouteMatches(routes[1..], pathname))
  }

  predicate IsPublicRoute(pathname: string)
  {
    SomeRouteMatches(PublicRoutes, pathname)
  }

  /** Because `"/"` is one of the public routes, every path that begins with a
      slash, and only those, is public. */
  lemma PublicIffRooted(pathname: string)
    ensures IsPublicRoute(pathname) <==> StartsWith(pathname, "/")
  {
    var rest := PublicRoutes[1..];
    assert rest == ["/auth"] && rest[1..] == [];
    assert !SomeRouteMatches(rest[1..], pathname);
    if SomeRouteMatches(rest, pathname) {
      assert StartsWith(pathname, "/auth");
      assert pathname[..1] == pathname[..5][..1];
    }
    if StartsWith(pathname, "/") {
      assert SomeRouteMatches(PublicRoutes, pathname);
    }
  }

  /** The rate limiter is never reached: no path is both non-public and under
      `/api/`. */
  lemma RateLimiterUnreachable(pathname: string)
    ensures !(!IsPublicRoute(pathname) && StartsWith(pathname, "/api/"))
  {
    PublicIffRooted(pathname);
    if StartsWith(pathname, "/api/") {
      assert pathname[..1] == pathname[..5][..1];
    }
  }

  /** The client key: the first entry of `x-forwarded-for`, trimmed, or
      `"Unknown"` when the header is missing or that entry is blank. */
  function ClientKey(forwardedFor: Option<string>): (key: string)
    ensures |key| > 0
    ensures forwardedFor.None? ==> key == "Unknown"
    ensures forwardedFor.Some? && IsBlank(BeforeFirst(forwardedFor.value, ',')) ==> key == "Unknown"
    ensures !IsSpace(key[0])
    ensures !IsSpace(key[|key| - 1])
  {
    match forwardedFor
    case None => "Unknown"
    case Some(header) =>
      var first := Trim(BeforeFirst(header, ','));
      TrimEmptyIffBlank(BeforeFirst(header, ','));
      if first == [] then "Unknown" else
        TrimEdges(BeforeFirst(header, ','));
        first
  }

  /** `key` is written in `header` after blanks only, and no comma comes
      before its end. */
  ghost predicate FirstEntry(header: string, key: string)
  {
    exists k :: MatchAt(header, key, k) && IsBlank(header[..k]) && ',' !in header[..k + |key|]
  }

  /** Unless it is the fallback, the key taken from a present header is its
      first comma-separated entry, trimmed. */
  lemma ClientKeyIsFirstEntry(header: string)
    ensures ClientKey(Some(header)) != "Unknown" ==> FirstEntry(header, ClientKey(Some(header)))
  {
    var b := BeforeFirst(header, ',');
    var ts := TrimStart(b);
    var t := TrimEnd(ts);
    var k := |b| - |ts|;
    TrimStartBlanks(b);
    assert MatchAt(b, t, k) by {
      assert b[k..k + |t|] == ts[..|t|];
    }
    PrefixMatch(header, b, t, k);
    assert ',' !in b[..k + |t|];
    assert FirstEntry(header, t);
  }

  /** A match inside a prefix of `s` is a match in `s`, with the same text
      before it. */
  lemma PrefixMatch(s: string, b: string, t: string, k: int)
    requires StartsWith(s, b) && MatchAt(b, t, k)
    ensures MatchAt(s, t, k) && s[..k] == b[..k] && s[..k + |t|] == b[..k + |t|]
  {
    assert b == s[..|b|];
    assert s[k..k + |t|] == b[k..k + |t|];
  }

  /** The timestamps still inside the window ending at `now`. */
  function Recent(timestamps: seq<int>, now: int): (r: seq<int>)
    ensures forall i :: 0 <= i < |r| ==> now - r[i] < RateLimitWindow
    ensures forall i :: 0 <= i < |timestamps| && now - timestamps[i] < RateLimitWindow ==> timestamps[i] in r
    ensures |r| <= |timestamps|
  {
    Filter(timestamps, t => now - t < RateLimitWindow)
  }

  /** Once a whole window has passed since every stored request, the client
      starts again from nothing. */
  lemma {:induction false} WindowElapsed(timestamps: seq<int>, now: int)
    requires forall i :: 0 <= i < |timestamps| ==> now - timestamps[i] >= RateLimitWindow
    ensures Recent(timestamps, now) == []
  {
    if timestamps != [] {
      WindowElapsed(timestamps[1..], now);
    }
  }

  /** Requests at one instant are all kept. */
  lemma RecentSameInstant(n: nat, now: int)
    ensures Recent(seq(n, _ => now), now) == seq(n, _ => now)
  {
    FilterAll(seq(n, _ => now), t => now - t < RateLimitWindow);
  }

  /** The process-local map from client key to request timestamps. */
  class RateLimiter {
    var requests: map<string, seq<int>>

    /** No client ever has more than the maximum stored. */
    ghost predicate Valid()
      reads this
    {
      forall ip :: ip in requests ==> |requests[ip]| <= MaxRequests
    }

    function Stored(ip: string): seq<int>
      reads this
    {
      if ip in requests then requests[ip] else []
    }

    constructor ()
      ensures requests == map[]
      ensures Valid()
    {
      requests := map[];
    }

    /** Admits a request from `ip` at `now` when fewer than the maximum fall
        in the window; an admitted request stores the pruned list plus `now`,
        a refused one leaves every list as it was. */
    method Admit(ip: string, now: int) returns (allowed: bool)
      requires Valid()
      modifies this
      ensures Valid()
      ensures allowed <==> |Recent(old(Stored(ip)), now)| < MaxRequests
      ensures allowed ==> requests == old(requests)[ip := Recent(old(Stored(ip)), now) + [now]]
      ensures !allowed ==> requests == old(requests)
    {
      if ip !in requests {
        requests := requests[ip := []];
      }
      var timestamps := Recent(requests[ip], now);
      if |timestamps| >= MaxRequests {
        return false;
      }
      timestamps := timestamps + [now];
      requests := requests[ip := timestamps];
      allowed := true;
    }
  }

  /** The outcome of `supabase.auth.getUser()`. */
  datatype AuthOutcome = Authenticated | NoUser | AuthError | AuthThrows

  /** What the middleware answers: pass the request on, refuse it with 429,
      or redirect to the login page `/`. */
  datatype Decision = PassOn | TooManyRequests | RedirectToLogin

  /** The middleware for one request. */
  method Handle(limiter: RateLimiter, pathname: string, forwardedFor: Option<string>, now: int, auth: AuthOutcome)
    returns (d: Decision)
    requires limiter.Valid()
    modifies limiter
    ensures limiter.Valid()
    ensures IsPublicRoute(pathname) ==> d == PassOn && limiter.requests == old(limiter.requests)
    ensures !IsPublicRoute(pathname) && !StartsWith(pathname, "/api/") ==>
      limiter.requests == old(limiter.requests) &&
      (d == PassOn <==> auth == Authenticated) &&
      (d != PassOn ==> d == RedirectToLogin)
    ensures d == TooManyRequests ==> limiter.requests == old(limiter.requests)
  {
    if IsPublicRoute(pathname) {
      return PassOn;
    }
    if StartsWith(pathname, "/api/") {
      var ip := ClientKey(forwardedFor);
      var allowed := limiter.Admit(ip, now);
      if !allowed {
        return TooManyRequests;
      }
    }
    match auth
    case Authenticated => d := PassOn;
    case NoUser => d := RedirectToLogin;
    case AuthError => d := RedirectToLogin;
    case AuthThrows => d := RedirectToLogin;
  }

  /** As deployed, every request leaves the limiter untouched and is never
      refused with 429. */
  method HandleNeverLimits(limiter: RateLimiter, pathname: string, forwardedFor: Option<string>, now: int, auth: AuthOutcome)
    returns (d: Decision)
    requires limiter.Valid()
    modifies limiter
    ensures d != TooManyRequests
    ensures limiter.requests == old(limiter.requests)
  {
    RateLimiterUnreachable(pathname);
    d := Handle(limiter, pathname, forwardedFor, now, auth);
  }

  /** The sliding window: one client's hundred requests at one instant are
      admitted, the next one is refused, and one a full window later is
      admitted again. */
  method RateLimitScenario(ip: string, now: int) returns (hundredth: bool, extra: bool, later: bool)
    ensures hundredth && !extra && later
  {
    var limiter := new RateLimiter();
    var i := 0;
    hundredth := false;
    while i < MaxRequests
      invariant 0 <= i <= MaxRequests
      invariant limiter.Valid()
      invariant limiter.requests == map[ip := seq(i, _ => now)] || (i == 0 && limiter.requests == map[])
      invariant i > 0 ==> hundredth
    {
      RecentSameInstant(i, now);
      assert limiter.Stored(ip) == seq(i, _ => now);
      hundredth := limiter.Admit(ip, now);
      assert seq(i, _ => now) + [now] == seq(i + 1, _ => now);
      i := i + 1;
    }
    RecentSameInstant(MaxRequests, now);
    extra := limiter.Admit(ip, now);
    WindowElapsed(seq(MaxRequests, _ => now), now + RateLimitWindow);
    later := limiter.Admit(ip, now + RateLimitWindow);
  }
}
