/** The regex router: routes are tried in registration order, the first
    whose pattern matches the request path anywhere serves it, and every
    route strips the server base path that was set when it was added. */
module Handler {
  import opened Outcomes
  import opened Strs
  import opened Regex

  /** A registered route: its compiled pattern, the handler, and the prefix
      http.StripPrefix removes before the handler sees the path. */
  datatype Route<H> = Route(pattern: Pattern, handler: H, strip: string)

  /** What serving a request comes to: a handler (the index of its route)
      sees a path, or the answer is 404 Not Found. */
  datatype Dispatch<H> = Served(route: nat, handler: H, path: string) | NotFound

  /** http.StripPrefix: an empty prefix hands the path over unchanged;
      otherwise the path must start with the prefix, which is removed, and
      a path without it is answered with 404. */
  function StripPrefix<H>(prefix: string, route: nat, handler: H, path: string): (d: Dispatch<H>)
    ensures prefix == "" ==> d == Served(route, handler, path)
    ensures prefix != "" ==> (d.Served? <==> HasPrefix(path, prefix))
    ensures d.Served? ==> d.route == route && d.handler == handler && prefix + d.path == path
  {
    if prefix == "" then Served(route, handler, path)
    else
      var p := TrimPrefix(path, prefix);
      if |p| < |path| then Served(route, handler, p) else NotFound
  }

  /** The index of the first route whose pattern matches the path. */
  function FirstMatch<H>(routes: seq<Route<H>>, path: string): (r: Option<nat>)
    ensures r.Some? ==> r.value < |routes| && Matches(routes[r.value].pattern, path)
    ensures r.Some? ==> forall j :: 0 <= j < r.value ==> !Matches(routes[j].pattern, path)
    ensures r.None? ==> forall j :: 0 <= j < |routes| ==> !Matches(routes[j].pattern, path)
  {
    if |routes| == 0 then None
    else if Matches(routes[0].pattern, path) then Some(0)
    else
      var rest := FirstMatch(routes[1..], path);
      assert forall j :: 1 <= j < |routes| ==> routes[j] == routes[1..][j - 1];
      if rest.None? then None else Some(rest.value + 1)
  }

  /** How the router answers a request path. */
  function Dispatched<H>(routes: seq<Route<H>>, path: string): Dispatch<H> {
    match FirstMatch(routes, path)
    case None => NotFound
    case Some(i) => StripPrefix(routes[i].strip, i, routes[i].handler, path)
  }

  /** A lone ".*" route without a base path serves "/" unchanged. */
  lemma MatchAllServesRoot<H>(h: H)
    ensures Dispatched([Route(MatchAll, h, "")], "/") == Served(0, h, "/")
  {
  }

  /** A path that a route strips but that route does not carry its prefix
      is 404 even though the pattern matched. */
  lemma PrefixMismatchIsNotFound<H>(routes: seq<Route<H>>, path: string, i: nat)
    requires FirstMatch(routes, path) == Some(i)
    requires routes[i].strip != "" && !HasPrefix(path, routes[i].strip)
    ensures Dispatched(routes, path) == NotFound
  {
  }

  class RegexHandler<H> {
    var routes: seq<Route<H>>
    var basePath: string

    /** The zero value &RegexHandler{}. */
    constructor ()
      ensures routes == [] && basePath == ""
    {
      routes := [];
      basePath := "";
    }

    /** SetBasePath: later routes strip path without one trailing "/". */
    method SetBasePath(path: string)
      modifies this
      ensures basePath == TrimSuffix(path, "/")
      ensures routes == old(routes)
    {
      basePath := TrimSuffix(path, "/");
    }

    /** Handle: appends a route that strips the current base path. */
    method Handle(pattern: Pattern, handler: H)
      modifies this
      ensures routes == old(routes) + [Route(pattern, handler, basePath)]
      ensures basePath == old(basePath)
    {
      routes := routes + [Route(pattern, handler, basePath)];
    }

    /** HandleFunc: the same for a handler function. */
    method HandleFunc(pattern: Pattern, handler: H)
      modifies this
      ensures routes == old(routes) + [Route(pattern, handler, basePath)]
      ensures basePath == old(basePath)
    {
      Handle(pattern, handler);
    }

    /** ServeHTTP: the first matching route answers, else 404. */
    method ServeHTTP(path: string) returns (d: Dispatch<H>)
      ensures d == Dispatched(routes, path)
      ensures d.Served? ==> d.route < |routes| && Matches(routes[d.route].pattern, path)
                            && (forall j :: 0 <= j < d.route ==> !Matches(routes[j].pattern, path))
                            && routes[d.route].strip + d.path == path
    {
      var i := 0;
      while i < |routes|
        invariant 0 <= i <= |routes|
        invariant forall j :: 0 <= j < i ==> !Matches(routes[j].pattern, path)
      {
        if Matches(routes[i].pattern, path) {
          d := StripPrefix(routes[i].strip, i, routes[i].handler, path);
          FirstMatchIsFirst(routes, path, i);
          return;
        }
        i := i + 1;
      }
      d := NotFound;
    }
  }

  lemma FirstMatchIsFirst<H>(routes: seq<Route<H>>, path: string, i: nat)
    requires i < |routes| && Matches(routes[i].pattern, path)
    requires forall j :: 0 <= j < i ==> !Matches(routes[j].pattern, path)
    ensures FirstMatch(routes, path) == Some(i)
  {
    var r := FirstMatch(routes, path);
    assert r.Some?;
  }

  /** Registration keeps order, and each route keeps the base path in
      effect when it was added, whatever is set afterwards. */
  method RegistrationExample<H>(a: H, b: H) returns (routes: seq<Route<H>>)
    ensures routes == [Route(Literal("/mail"), a, "/app"), Route(MatchAll, b, "")]
  {
    var h := new RegexHandler<H>();
    h.SetBasePath("/app/");
    assert "/app/"[..4] == "/app";
    h.HandleFunc(Literal("/mail"), a);
    h.SetBasePath("/");
    assert "/"[..0] == "";
    h.Handle(MatchAll, b);
    routes := h.routes;
  }
}
