/**
 * The edge request gate (`middleware.ts`): classifies the request path,
 * decides between a redirect to the login page, a redirect away from the
 * auth pages and passing the request through, and propagates the session
 * cookies the identity backend rotates. The backend's `getUser` call is an
 * input: whether a user came back, and the `setAll` calls it made.
 */
module Gate {
  import opened Wrappers
  import opened Strings

  /** `protectedRoutes` */
  const ProtectedRoutes: seq<string> := ["/charts"]
  /** `authRoutes` */
  const AuthRoutes: seq<string> := ["/auth"]
  const LoginPath: string := "/auth"
  const DefaultLanding: string := "/charts"
  const RedirectParam: string := "redirectTo"

  /** `routes.some(route => path.startsWith(route))` */
  function SomePrefix(routes: seq<string>, path: string): (b: bool)
    ensures b <==> exists i :: 0 <= i < |routes| && StartsWith(path, routes[i])
  {
    if routes == [] then false
    else StartsWith(path, routes[0]) || SomePrefix(routes[1..], path)
  }

  /** `isProtectedRoute`: with the one listed route, a path is protected exactly when it starts with `/charts`. */
  function IsProtectedRoute(path: string): (b: bool)
    ensures b <==> StartsWith(path, "/charts")
  {
    SomePrefix(ProtectedRoutes, path)
  }

  /** `isAuthRoute`: with the one listed route, a path is an auth route exactly when it starts with `/auth`. */
  function IsAuthRoute(path: string): (b: bool)
    ensures b <==> StartsWith(path, "/auth")
  {
    SomePrefix(AuthRoutes, path)
  }

  /** With the two fixed lists no path is both protected and an auth route. */
  lemma NeverBoth(path: string)
    ensures !(IsProtectedRoute(path) && IsAuthRoute(path))
  {
    assert IsProtectedRoute(path) ==> path[1] == 'c' by {
      if IsProtectedRoute(path) { assert path[..7][1] == 'c'; }
    }
    assert IsAuthRoute(path) ==> path[1] == 'a' by {
      if IsAuthRoute(path) { assert path[..5][1] == 'a'; }
    }
  }

  /** The test is a string prefix, not a path segment. */
  lemma PrefixNotSegment()
    ensures IsProtectedRoute("/chartsX") && IsProtectedRoute("/charts/btc")
    ensures IsAuthRoute("/authority") && !IsProtectedRoute("/chart")
  {
    assert StartsWith("/chartsX", ProtectedRoutes[0]);
    assert StartsWith("/charts/btc", ProtectedRoutes[0]);
    assert StartsWith("/authority", AuthRoutes[0]);
  }

  /** The query string of a URL, as its ordered list of name/value pairs. */
  type Query = seq<(string, string)>

  /** `searchParams.get(name)`: the value of the first pair called `name`. */
  function QueryGet(q: Query, name: string): (r: Option<string>)
    ensures r.None? <==> forall i :: 0 <= i < |q| ==> q[i].0 != name
    ensures r.Some? ==> exists i :: 0 <= i < |q| && q[i] == (name, r.value)
                                 && (forall j :: 0 <= j < i ==> q[j].0 != name)
  {
    if q == [] then None
    else if q[0].0 == name then Some(q[0].1)
    else
      var r := QueryGet(q[1..], name);
      assert r.Some? ==> exists i :: 1 <= i < |q| && q[i] == (name, r.value)
                                     && (forall j :: 0 <= j < i ==> q[j].0 != name) by {
        if r.Some? {
          var i :| 0 <= i < |q[1..]| && q[1..][i] == (name, r.value)
                   && (forall j :: 0 <= j < i ==> q[1..][j].0 != name);
          assert q[i + 1] == (name, r.value);
          assert forall j :: 0 <= j < i + 1 ==> q[j].0 != name by {
            forall j | 0 <= j < i + 1 ensures q[j].0 != name {
              if j > 0 { assert q[j] == q[1..][j - 1]; }
            }
          }
        }
      }
      r
  }

  /** Where a redirect points. */
  datatype Target =
      /** A URL built on the request's origin with this path and query. */
    | Url(path: string, query: Query)
      /** `new URL(reference, request.url)`: a reference resolved against the request URL. */
    | Reference(reference: string)

  /** The gate's choice for one request. */
  datatype Decision = RedirectTo(target: Target) | PassThrough

  /** The reference an authenticated user on an auth page is sent to: `searchParams.get('redirectTo') || '/charts'`. */
  function AfterLoginTarget(q: Query): (r: string)
    ensures r != ""
    ensures QueryGet(q, RedirectParam).Some? && QueryGet(q, RedirectParam).value != "" ==> r == QueryGet(q, RedirectParam).value
    ensures QueryGet(q, RedirectParam) in {None, Some("")} ==> r == DefaultLanding
  {
    match QueryGet(q, RedirectParam)
    case Some(v) => if v != "" then v else DefaultLanding
    case None => DefaultLanding
  }

  /**
   * The decision table, first matching row wins: an anonymous request for a
   * protected path goes to the login page carrying the original path (and
   * nothing else) in `redirectTo`; a signed-in request for an auth page goes
   * to its `redirectTo` value or `/charts`; anything else passes through.
   */
  function Decide(authenticated: bool, pathname: string, query: Query): (d: Decision)
    ensures !authenticated && StartsWith(pathname, "/charts") ==>
      d == RedirectTo(Url("/auth", [("redirectTo", pathname)]))
    ensures authenticated && StartsWith(pathname, "/auth") ==>
      d.RedirectTo? && d.target.Reference? && d.target.reference != ""
      && (QueryGet(query, "redirectTo").Some? && QueryGet(query, "redirectTo").value != "" ==>
            d.target.reference == QueryGet(query, "redirectTo").value)
      && (QueryGet(query, "redirectTo") in {None, Some("")} ==> d.target.reference == "/charts")
    ensures d == PassThrough <==>
      (authenticated || !StartsWith(pathname, "/charts")) && (!authenticated || !StartsWith(pathname, "/auth"))
  {
    if !authenticated && IsProtectedRoute(pathname) then
      RedirectTo(Url(LoginPath, [(RedirectParam, pathname)]))
    else if authenticated && IsAuthRoute(pathname) then
      RedirectTo(Reference(AfterLoginTarget(query)))
    else
      PassThrough
  }

  /** For one path the two redirect rows never compete: which one applies depends on the flag alone. */
  lemma RedirectRowsDisjoint(pathname: string, query: Query)
    ensures Decide(false, pathname, query).RedirectTo? ==> Decide(false, pathname, query).target.Url?
    ensures Decide(true, pathname, query).RedirectTo? ==> Decide(true, pathname, query).target.Reference?
    ensures Decide(false, pathname, query).RedirectTo? ==> Decide(true, pathname, query) == PassThrough
    ensures Decide(true, pathname, query).RedirectTo? ==> Decide(false, pathname, query) == PassThrough
  {
    NeverBoth(pathname);
  }

  /** A cookie the backend asks `setAll` to write. */
  datatype CookieToSet = CookieToSet(name: string, value: string, options: seq<(string, string)>)

  /** The cookies a list of writes leaves, by name: for each name, the last write of it. */
  function Written(cs: seq<CookieToSet>): (m: map<string, CookieToSet>)
    ensures m.Keys == set i | 0 <= i < |cs| :: cs[i].name
  {
    if cs == [] then map[]
    else
      var last := cs[|cs| - 1];
      var prev := cs[..|cs| - 1];
      var m := Written(prev)[last.name := last];
      assert m.Keys == (set i | 0 <= i < |prev| :: prev[i].name) + {last.name};
      assert forall i :: 0 <= i < |prev| ==> prev[i] == cs[i];
      m
  }

  /** A request cookie jar after the writes in `w`: the written values override the old ones. */
  function Overlay(jar: map<string, string>, w: map<string, CookieToSet>): (r: map<string, string>)
    ensures r.Keys == jar.Keys + w.Keys
  {
    map k | k in jar.Keys + w.Keys :: if k in w then w[k].value else jar[k]
  }

  /** One more write updates the written cookies at its name. */
  lemma WrittenSnoc(cs: seq<CookieToSet>, i: nat)
    requires i < |cs|
    ensures Written(cs[..i + 1]) == Written(cs[..i])[cs[i].name := cs[i]]
  {
    assert cs[..i + 1][..i] == cs[..i];
  }

  /** Overlaying one more write is one more update of the jar. */
  lemma OverlayUpdate(jar: map<string, string>, w: map<string, CookieToSet>, c: CookieToSet)
    ensures Overlay(jar, w[c.name := c]) == Overlay(jar, w)[c.name := c.value]
  {
  }

  /** The last write of a name wins. */
  lemma {:induction false} LastWriteWins(cs: seq<CookieToSet>, i: nat)
    requires i < |cs|
    requires forall j :: i < j < |cs| ==> cs[j].name != cs[i].name
    ensures cs[i].name in Written(cs) && Written(cs)[cs[i].name] == cs[i]
  {
    if i < |cs| - 1 {
      LastWriteWins(cs[..|cs| - 1], i);
    }
  }

  /** A name no write mentions keeps its old value in the request jar. */
  lemma UnwrittenKept(jar: map<string, string>, cs: seq<CookieToSet>, name: string)
    requires forall i :: 0 <= i < |cs| ==> cs[i].name != name
    ensures name in Overlay(jar, Written(cs)) <==> name in jar
    ensures name in jar ==> Overlay(jar, Written(cs))[name] == jar[name]
  {
  }

  /** What the gate returns. Set-cookie headers are keyed by cookie name. */
  datatype Response =
    | Redirect(target: Target, setCookies: map<string, CookieToSet>)
      /** `NextResponse.next({ request })`: pass the (updated) request on. */
    | Next(setCookies: map<string, CookieToSet>)

  /**
   * The mutable state of one gate invocation: the request's cookie jar and
   * the pass-through response held in `supabaseResponse`.
   */
  class Exchange {
    var requestCookies: map<string, string>
    var response: Response

    constructor (cookies: map<string, string>)
      ensures requestCookies == cookies && response == Next(map[])
    {
      requestCookies := cookies;
      response := Next(map[]);
    }

    /**
     * The `setAll` adapter: writes every cookie into the request jar, then
     * replaces the pass-through response by a fresh one and writes every
     * cookie, with its options, onto it.
     */
    method SetAll(cs: seq<CookieToSet>)
      modifies this
      ensures requestCookies == Overlay(old(requestCookies), Written(cs))
      ensures response == Next(Written(cs))
    {
      var i := 0;
      while i < |cs|
        invariant i <= |cs|
        invariant requestCookies == Overlay(old(requestCookies), Written(cs[..i]))
      {
        WrittenSnoc(cs, i);
        OverlayUpdate(old(requestCookies), Written(cs[..i]), cs[i]);
        requestCookies := requestCookies[cs[i].name := cs[i].value];
        i := i + 1;
      }
      assert cs[..i] == cs;
      response := Next(map[]);
      i := 0;
      while i < |cs|
        invariant i <= |cs|
        invariant requestCookies == Overlay(old(requestCookies), Written(cs))
        invariant response == Next(Written(cs[..i]))
      {
        WrittenSnoc(cs, i);
        response := Next(response.setCookies[cs[i].name := cs[i]]);
        i := i + 1;
      }
      assert cs[..i] == cs;
    }
  }

  /** What `getUser` reported: whether a user came back, and the `setAll` calls it made, in order. */
  datatype Session = Session(authenticated: bool, setAllCalls: seq<seq<CookieToSet>>)

  /** The request jar after every `setAll` call, in order. */
  function Replayed(jar: map<string, string>, calls: seq<seq<CookieToSet>>): (r: map<string, string>)
    ensures jar.Keys <= r.Keys
  {
    if calls == [] then jar
    else Overlay(Replayed(jar, calls[..|calls| - 1]), Written(calls[|calls| - 1]))
  }

  /** The cookies on the pass-through response: each call starts a fresh response, so only the last call's remain. */
  function ResponseCookies(calls: seq<seq<CookieToSet>>): (m: map<string, CookieToSet>)
    ensures calls == [] ==> m == map[]
    ensures calls != [] ==> m.Keys == set c | c in calls[|calls| - 1] :: c.name
  {
    if calls == [] then map[] else Written(calls[|calls| - 1])
  }

  /** One more `setAll` call overlays its writes on the jar and leaves only its cookies on the response. */
  lemma ReplayedSnoc(jar: map<string, string>, calls: seq<seq<CookieToSet>>, i: nat)
    requires i < |calls|
    ensures Replayed(jar, calls[..i + 1]) == Overlay(Replayed(jar, calls[..i]), Written(calls[i]))
    ensures ResponseCookies(calls[..i + 1]) == Written(calls[i])
  {
    assert calls[..i + 1][..i] == calls[..i];
  }

  /** A cookie written by any call is in the forwarded request jar. */
  lemma {:induction false} ReplayedKeepsWrites(jar: map<string, string>, calls: seq<seq<CookieToSet>>, k: nat, j: nat)
    requires k < |calls| && j < |calls[k]|
    ensures calls[k][j].name in Replayed(jar, calls)
  {
    var prev := calls[..|calls| - 1];
    if k < |calls| - 1 {
      assert prev[k] == calls[k];
      ReplayedKeepsWrites(jar, prev, k, j);
    } else {
      assert calls[k][j].name in Written(calls[k]);
    }
  }

  /**
   * A cookie that only an earlier call writes reaches the page through the
   * request, but not the browser: the last call's fresh response drops it.
   */
  lemma EarlierCallDroppedFromResponse(jar: map<string, string>, calls: seq<seq<CookieToSet>>, k: nat, j: nat)
    requires k < |calls| - 1 && j < |calls[k]|
    requires forall c :: c in calls[|calls| - 1] ==> c.name != calls[k][j].name
    ensures calls[k][j].name in Replayed(jar, calls)
    ensures calls[k][j].name !in ResponseCookies(calls)
  {
    ReplayedKeepsWrites(jar, calls, k, j);
  }

  /**
   * One run of the gate. The redirect responses are built fresh and carry no
   * written cookie; the pass-through response carries the cookies of the
   * last `setAll` call, and the request forwarded with it holds those of
   * every call.
   */
  method Middleware(pathname: string, query: Query, cookies: map<string, string>, session: Session)
    returns (resp: Response, forwarded: map<string, string>)
    ensures forwarded == Replayed(cookies, session.setAllCalls)
    ensures Decide(session.authenticated, pathname, query).RedirectTo? ==>
      resp == Redirect(Decide(session.authenticated, pathname, query).target, map[])
    ensures Decide(session.authenticated, pathname, query) == PassThrough ==>
      resp == Next(ResponseCookies(session.setAllCalls))
  {
    var ex := new Exchange(cookies);
    var calls := session.setAllCalls;
    var i := 0;
    while i < |calls|
      invariant i <= |calls|
      invariant ex.requestCookies == Replayed(cookies, calls[..i])
      invariant ex.response == Next(ResponseCookies(calls[..i]))
    {
      ReplayedSnoc(cookies, calls, i);
      ex.SetAll(calls[i]);
      i := i + 1;
    }
    assert calls[..i] == calls;
    forwarded := ex.requestCookies;
    var authenticated := session.authenticated;
    if !authenticated && IsProtectedRoute(pathname) {
      resp := Redirect(Url(LoginPath, [(RedirectParam, pathname)]), map[]);
      return;
    }
    if authenticated && IsAuthRoute(pathname) {
      resp := Redirect(Reference(AfterLoginTarget(query)), map[]);
      return;
    }
    resp := ex.response;
  }

  /**
   * The assets the matcher refuses, tested on what follows the leading `/`:
   * a start of `_next/static`, `_next/image` or `favicon.ico`, or an end of
   * one of the image extensions (case-sensitive).
   */
  function ExcludedAsset(rest: string): (b: bool)
    ensures b ==> |rest| >= 4
  {
    StartsWith(rest, "_next/static") || StartsWith(rest, "_next/image") || StartsWith(rest, "favicon.ico")
    || EndsWith(rest, ".svg") || EndsWith(rest, ".png") || EndsWith(rest, ".jpg")
    || EndsWith(rest, ".jpeg") || EndsWith(rest, ".gif") || EndsWith(rest, ".webp")
  }

  /** `config.matcher`: the gate runs for a path starting with `/` unless what follows is an excluded asset. */
  function GateRuns(path: string): (b: bool)
    ensures b ==> StartsWith(path, "/")
    ensures path == "/" ==> b
  {
    |path| >= 1 && path[0] == '/' && !ExcludedAsset(path[1..])
  }

  /** A prefix test on what follows the leading `/` is a prefix test on the whole path. */
  lemma PrefixAfterSlash(path: string, p: string)
    requires StartsWith(path, "/")
    ensures StartsWith(path[1..], p) <==> StartsWith(path, "/" + p)
  {
    if StartsWith(path, "/" + p) {
      assert path[1..][..|p|] == path[1..|p| + 1];
    }
    if StartsWith(path[1..], p) {
      assert path[..|p| + 1] == "/" + path[1..][..|p|];
    }
  }

  /** A suffix that does not start with `/` ends what follows the leading `/` iff it ends the path. */
  lemma SuffixAfterSlash(path: string, p: string)
    requires StartsWith(path, "/") && |p| > 0 && p[0] != '/'
    ensures EndsWith(path[1..], p) <==> EndsWith(path, p)
  {
    var rest := path[1..];
    if EndsWith(path, p) {
      assert path[|path| - |p|] == p[0];
      assert rest[|rest| - |p|..] == path[|path| - |p|..];
    }
    if EndsWith(rest, p) {
      assert rest[|rest| - |p|..] == path[|path| - |p|..];
    }
  }

  /** The matcher in terms of the whole path. */
  lemma GateRunsIff(path: string)
    requires StartsWith(path, "/")
    ensures GateRuns(path) <==>
      !(StartsWith(path, "/_next/static") || StartsWith(path, "/_next/image") || StartsWith(path, "/favicon.ico"))
      && !(EndsWith(path, ".svg") || EndsWith(path, ".png") || EndsWith(path, ".jpg")
           || EndsWith(path, ".jpeg") || EndsWith(path, ".gif") || EndsWith(path, ".webp"))
  {
    ExcludedPrefixesOnPath(path);
    ExcludedExtensionsOnPath(path);
  }

  lemma ExcludedPrefixesOnPath(path: string)
    requires StartsWith(path, "/")
    ensures StartsWith(path[1..], "_next/static") <==> StartsWith(path, "/_next/static")
    ensures StartsWith(path[1..], "_next/image") <==> StartsWith(path, "/_next/image")
    ensures StartsWith(path[1..], "favicon.ico") <==> StartsWith(path, "/favicon.ico")
  {
    assert "/" + "_next/static" == "/_next/static";
    assert "/" + "_next/image" == "/_next/image";
    assert "/" + "favicon.ico" == "/favicon.ico";
    PrefixAfterSlash(path, "_next/static");
    PrefixAfterSlash(path, "_next/image");
    PrefixAfterSlash(path, "favicon.ico");
  }

  lemma ExcludedExtensionsOnPath(path: string)
    requires StartsWith(path, "/")
    ensures EndsWith(path[1..], ".svg") <==> EndsWith(path, ".svg")
    ensures EndsWith(path[1..], ".png") <==> EndsWith(path, ".png")
    ensures EndsWith(path[1..], ".jpg") <==> EndsWith(path, ".jpg")
    ensures EndsWith(path[1..], ".jpeg") <==> EndsWith(path, ".jpeg")
    ensures EndsWith(path[1..], ".gif") <==> EndsWith(path, ".gif")
    ensures EndsWith(path[1..], ".webp") <==> EndsWith(path, ".webp")
  {
    SuffixAfterSlash(path, ".svg");
    SuffixAfterSlash(path, ".png");
    SuffixAfterSlash(path, ".jpg");
    SuffixAfterSlash(path, ".jpeg");
    SuffixAfterSlash(path, ".gif");
    SuffixAfterSlash(path, ".webp");
  }

  /** Framework assets and favicon fetches skip the gate, and with it the session call. */
  lemma AssetPrefixesSkipGate()
    ensures !GateRuns("/_next/static/chunks/main.js") && !GateRuns("/favicon.ico")
  {
    assert "/_next/static/chunks/main.js"[1..][..12] == "_next/static";
    assert "/favicon.ico"[1..] == "favicon.ico";
  }

  /** Image fetches skip the gate. */
  lemma ImagesSkipGate()
    ensures !GateRuns("/logo.png") && !GateRuns("/img/hero.webp")
  {
    assert "/logo.png"[1..][4..] == ".png";
    assert "/img/hero.webp"[1..][8..] == ".webp";
  }

  /**
   * A path enters the gate when what follows its `/` starts with neither `_`
   * nor `f` and its last character is none of `g`, `f`, `p` (those that end
   * the image extensions).
   */
  lemma EntersGate(path: string)
    requires |path| >= 2 && path[0] == '/' && path[1] != '_' && path[1] != 'f'
    requires path[|path| - 1] !in {'g', 'f', 'p'}
    ensures GateRuns(path)
  {
    var rest := path[1..];
    assert rest[0] == path[1] && rest[|rest| - 1] == path[|path| - 1];
    FirstCharDiffers(rest, "_next/static");
    FirstCharDiffers(rest, "_next/image");
    FirstCharDiffers(rest, "favicon.ico");
    LastCharDiffers(rest, ".svg");
    LastCharDiffers(rest, ".png");
    LastCharDiffers(rest, ".jpg");
    LastCharDiffers(rest, ".jpeg");
    LastCharDiffers(rest, ".gif");
    LastCharDiffers(rest, ".webp");
  }

  lemma FirstCharDiffers(s: string, p: string)
    requires s != [] && p != [] && s[0] != p[0]
    ensures !StartsWith(s, p)
  {
    if |p| <= |s| {
      assert s[..|p|][0] != p[0];
    }
  }

  lemma LastCharDiffers(s: string, p: string)
    requires s != [] && p != [] && s[|s| - 1] != p[|p| - 1]
    ensures !EndsWith(s, p)
  {
    if |p| <= |s| {
      assert s[|s| - |p|..][|p| - 1] != p[|p| - 1];
    }
  }

  /** Pages enter the gate, and so does an upper-case extension: the test is case-sensitive. */
  lemma PagesEnterGate()
    ensures GateRuns("/charts") && GateRuns("/auth") && GateRuns("/logo.PNG")
  {
    EntersGate("/charts");
    EntersGate("/auth");
    EntersGate("/logo.PNG");
  }
}
