/**
  The request handler installed on the HTTP server (src/server.rs, `start`):
  a pure decision from the request's method and URI path, and the current
  contents of the two caches, to the response it builds.
*/
module Router {
  import opened Wrappers
  import Watch

  /** The HTTP request method. An `Extension` name is never one of the
      standard method names: "GET" is always `Get`. */
  datatype Method = Get | Head | Post | Put | Delete | Connect | Options | Trace | Patch | Extension(name: string)

  /** A response as the handler builds it: `status` is None when the handler
      leaves the library's default status in place; `headers` are the ones it adds. */
  datatype Response = Response(status: Option<nat>, headers: seq<(string, string)>, body: string)

  const NotFound: nat := 404
  const BcastPrefix: string := "/bcast/"
  const JsonContentType: (string, string) := ("content-type", "text/json")
  const FileNotFoundBody: string := "<h1>404</h1><p>File not found!<p>"
  const PageNotFoundBody: string := "<h1>404</h1><p>Page not found!<p>"

  /** Dataset names served from a cache, and those always served as an empty list. */
  const LiveDatasets: set<string> := {"focus", "nearest"}
  const StaticDatasets: set<string> := {"entries", "event", "groups", "resultsIndv", "resultsTeam"}

  /** A request the handler answers with data: GET on the prefix followed by a known name. */
  predicate IsDatasetRequest(m: Method, path: string)
  {
    m == Get && exists name :: name in LiveDatasets + StaticDatasets && path == BcastPrefix + name
  }

  function Route(m: Method, path: string, focus: string, nearest: string): (r: Response)
    ensures r.status == None ==> r.headers == [JsonContentType]
    ensures r.status != None ==> r.status == Some(NotFound) && r.headers == []
  {
    if m == Get && BcastPrefix <= path then
      var name := path[|BcastPrefix|..];
      if name == "focus" then
        Response(None, [JsonContentType], focus)
      else if name == "nearest" then
        Response(None, [JsonContentType], nearest)
      else if name == "entries" || name == "event" || name == "groups" || name == "resultsIndv" || name == "resultsTeam" then
        Response(None, [JsonContentType], Watch.Placeholder)
      else
        Response(Some(NotFound), [], FileNotFoundBody)
    else
      Response(Some(NotFound), [], PageNotFoundBody)
  }

  /** The text after the prefix is exactly the name that followed it. */
  lemma AfterPrefix(name: string)
    ensures BcastPrefix <= BcastPrefix + name
    ensures (BcastPrefix + name)[|BcastPrefix|..] == name
  {
  }

  /** GET on the focus (nearest) path answers with the focus (nearest) cache,
      as JSON, with the status left at the library default. */
  lemma LiveDatasetsServeCaches(focus: string, nearest: string)
    ensures Route(Get, BcastPrefix + "focus", focus, nearest) == Response(None, [JsonContentType], focus)
    ensures Route(Get, BcastPrefix + "nearest", focus, nearest) == Response(None, [JsonContentType], nearest)
  {
    AfterPrefix("focus");
    AfterPrefix("nearest");
  }

  /** GET on any of the other five datasets answers with the placeholder,
      whatever the caches hold. */
  lemma StaticDatasetsServePlaceholder(name: string, focus: string, nearest: string)
    requires name in StaticDatasets
    ensures Route(Get, BcastPrefix + name, focus, nearest) == Response(None, [JsonContentType], Watch.Placeholder)
  {
    AfterPrefix(name);
  }

  /** Any other name after the prefix is a 404 "File not found". */
  lemma UnknownDatasetIsFileNotFound(name: string, focus: string, nearest: string)
    requires name !in LiveDatasets + StaticDatasets
    ensures Route(Get, BcastPrefix + name, focus, nearest) == Response(Some(NotFound), [], FileNotFoundBody)
  {
    AfterPrefix(name);
  }

  /** A method other than GET, or a path outside the prefix, is a 404 "Page not found". */
  lemma OutsideBcastIsPageNotFound(m: Method, path: string, focus: string, nearest: string)
    requires m != Get || !(BcastPrefix <= path)
    ensures Route(m, path, focus, nearest) == Response(Some(NotFound), [], PageNotFoundBody)
  {
  }

  /** There is no long-poll route: a blocking request is an unknown name. */
  lemma BlockingPathIsFileNotFound(focus: string, nearest: string)
    ensures Route(Get, "/bcast/focus/blocking/3", focus, nearest) == Response(Some(NotFound), [], FileNotFoundBody)
  {
    AfterPrefix("focus/blocking/3");
    assert "/bcast/focus/blocking/3" == BcastPrefix + "focus/blocking/3";
    assert |"focus/blocking/3"| != |"focus"|;
  }

  /** The handler answers with data exactly for GET on a known dataset path;
      every other request is a 404. */
  lemma {:induction false} ServedIffDatasetRequest(m: Method, path: string, focus: string, nearest: string)
    ensures Route(m, path, focus, nearest).status == None <==> IsDatasetRequest(m, path)
  {
    if IsDatasetRequest(m, path) {
      var name :| name in LiveDatasets + StaticDatasets && path == BcastPrefix + name;
      AfterPrefix(name);
    } else if m == Get && BcastPrefix <= path {
      assert path == BcastPrefix + path[|BcastPrefix|..];
    }
  }

  /** The caches are consulted only for the focus and nearest paths: every
      other response is the same whatever the caches hold. */
  lemma CachesReachOnlyLiveDatasets(m: Method, path: string, f1: string, n1: string, f2: string, n2: string)
    requires path != BcastPrefix + "focus" || f1 == f2
    requires path != BcastPrefix + "nearest" || n1 == n2
    ensures Route(m, path, f1, n1) == Route(m, path, f2, n2)
  {
    if m == Get && BcastPrefix <= path {
      assert path == BcastPrefix + path[|BcastPrefix|..];
    }
  }

  /** Before any update, all seven datasets answer with the same placeholder. */
  lemma InitialCachesServePlaceholder(name: string)
    requires name in LiveDatasets + StaticDatasets
    ensures Route(Get, BcastPrefix + name, Watch.Placeholder, Watch.Placeholder).body == Watch.Placeholder
  {
    AfterPrefix(name);
  }
}
