/** The HTTP routes of the API and the handler each one is served by. */
module Routes {
  import opened Wrappers

  datatype Verb = Get | Post

  datatype Handler =
    | Adapters | Info | Load | Unload | State | Models | Unzip | Dir | LoadConfig | SaveConfig
    | OaiModels | OaiCompletions | OaiChatCompletions | OaiEmbeddings

  datatype Route = Route(path: string, verb: Verb, handler: Handler)

  /** The API routes, in the order the router is built. */
  const API_ROUTES: seq<Route> := [
    Route("/api/adapters", Get, Adapters),
    Route("/api/models/info", Get, Info),
    Route("/api/models/load", Post, Load),
    Route("/api/models/unload", Get, Unload),
    Route("/api/models/state", Get, State),
    Route("/api/models/list", Get, Models),
    Route("/api/files/unzip", Post, Unzip),
    Route("/api/files/dir", Post, Dir),
    Route("/api/files/ls", Post, Dir),
    Route("/api/files/config/load", Post, LoadConfig),
    Route("/api/files/config/save", Post, SaveConfig),
    Route("/api/oai/models", Get, OaiModels),
    Route("/api/oai/v1/models", Get, OaiModels),
    Route("/api/oai/completions", Post, OaiCompletions),
    Route("/api/oai/v1/completions", Post, OaiCompletions),
    Route("/api/oai/chat/completions", Post, OaiChatCompletions),
    Route("/api/oai/v1/chat/completions", Post, OaiChatCompletions),
    Route("/api/oai/embeddings", Post, OaiEmbeddings),
    Route("/api/oai/v1/embeddings", Post, OaiEmbeddings)
  ]

  /** The handler of the first route with this path and verb. */
  function Lookup(routes: seq<Route>, path: string, verb: Verb): (r: Option<Handler>)
    ensures r.Some? ==> exists k | 0 <= k < |routes| :: routes[k] == Route(path, verb, r.value)
    ensures r.None? ==> forall k | 0 <= k < |routes| :: routes[k].path != path || routes[k].verb != verb
  {
    if routes == [] then None
    else if routes[0].path == path && routes[0].verb == verb then
      assert routes[0] == Route(path, verb, routes[0].handler);
      Some(routes[0].handler)
    else
      var r := Lookup(routes[1..], path, verb);
      assert forall k | 0 <= k < |routes| - 1 :: routes[1..][k] == routes[k + 1];
      r
  }

  /** No two routes share a path, so which one comes first never matters. */
  lemma RoutesAreDistinct()
    ensures forall i, j | 0 <= i < j < |API_ROUTES| :: API_ROUTES[i].path != API_ROUTES[j].path
  {
  }

  /** In a table of distinct paths, a path's one route decides the lookup for every verb. */
  lemma LookupByPath(routes: seq<Route>, k: nat, verb: Verb)
    requires k < |routes|
    requires forall i, j | 0 <= i < j < |routes| :: routes[i].path != routes[j].path
    ensures Lookup(routes, routes[k].path, verb) == if routes[k].verb == verb then Some(routes[k].handler) else None
  {
  }

  /** Two routes with the same verb and handler are served alike, whatever the verb of the request. */
  lemma SameService(i: nat, j: nat)
    requires i < |API_ROUTES| && j < |API_ROUTES|
    requires API_ROUTES[i].verb == API_ROUTES[j].verb && API_ROUTES[i].handler == API_ROUTES[j].handler
    ensures forall v :: Lookup(API_ROUTES, API_ROUTES[i].path, v) == Lookup(API_ROUTES, API_ROUTES[j].path, v)
    ensures Lookup(API_ROUTES, API_ROUTES[i].path, API_ROUTES[i].verb) == Some(API_ROUTES[i].handler)
  {
    RoutesAreDistinct();
    forall v ensures Lookup(API_ROUTES, API_ROUTES[i].path, v) == Lookup(API_ROUTES, API_ROUTES[j].path, v) {
      LookupByPath(API_ROUTES, i, v);
      LookupByPath(API_ROUTES, j, v);
    }
    LookupByPath(API_ROUTES, i, API_ROUTES[i].verb);
  }

  /** Every OpenAI route under `/api/oai/v1/` is served like its counterpart under `/api/oai/`. */
  lemma OaiV1Aliases(v: Verb)
    ensures Lookup(API_ROUTES, "/api/oai/v1/models", v) == Lookup(API_ROUTES, "/api/oai/models", v)
    ensures Lookup(API_ROUTES, "/api/oai/v1/completions", v) == Lookup(API_ROUTES, "/api/oai/completions", v)
    ensures Lookup(API_ROUTES, "/api/oai/v1/chat/completions", v) == Lookup(API_ROUTES, "/api/oai/chat/completions", v)
    ensures Lookup(API_ROUTES, "/api/oai/v1/embeddings", v) == Lookup(API_ROUTES, "/api/oai/embeddings", v)
    ensures Lookup(API_ROUTES, "/api/oai/v1/embeddings", Post) == Some(OaiEmbeddings)
  {
    assert API_ROUTES[11].path == "/api/oai/models" && API_ROUTES[12].path == "/api/oai/v1/models";
    assert API_ROUTES[13].path == "/api/oai/completions" && API_ROUTES[14].path == "/api/oai/v1/completions";
    assert API_ROUTES[15].path == "/api/oai/chat/completions" && API_ROUTES[16].path == "/api/oai/v1/chat/completions";
    assert API_ROUTES[17].path == "/api/oai/embeddings" && API_ROUTES[18] == Route("/api/oai/v1/embeddings", Post, OaiEmbeddings);
    SameService(12, 11);
    SameService(14, 13);
    SameService(16, 15);
    SameService(18, 17);
  }

  /** Both file-listing paths are served by the directory handler. */
  lemma FileListingAliases(v: Verb)
    ensures Lookup(API_ROUTES, "/api/files/ls", v) == Lookup(API_ROUTES, "/api/files/dir", v)
    ensures Lookup(API_ROUTES, "/api/files/ls", Post) == Some(Dir)
  {
    assert API_ROUTES[7] == Route("/api/files/dir", Post, Dir);
    assert API_ROUTES[8] == Route("/api/files/ls", Post, Dir);
    SameService(8, 7);
  }
}
