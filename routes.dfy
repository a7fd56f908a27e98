/** Router composition of rest.go: the static UI routes (InitStaticRouter,
    rest.go:23-50) and the full router (NewRESTRouter, rest.go:73-79).
    The router is an append-only, ordered list of bindings. */
module Routes {
  import opened Wrappers
  import opened Text
  import Assets

  /** What a path is bound to. */
  datatype Handler =
    | Redirect(target: string, code: int)       // http.RedirectHandler
    | StripPrefix(prefix: string, inner: Handler) // http.StripPrefix
    | EmbeddedFiles                              // http.FileServer(assetFS())
    | NsStats                                    // cbft.NewNsStatsHandler(mgr)
    | NsStatus(server: string)                   // cbft.NewNsStatusHandler(mgr, server)

  /** Route groups added by the REST library on the router it is handed. */
  datatype Mounted =
    | UiPages(staticDir: string, staticETag: string, pages: seq<string>, pageHandler: Handler)
    | RestApi(version: string, staticDir: string, staticETag: string, assets: seq<Assets.AssetSet>)

  datatype Route =
    | Exact(path: string, handler: Handler)
    | Prefix(prefix: string, handler: Handler)
    | Mount(group: Mounted)

  /** gorilla/mux's Router reduced to its bindings, in registration order. */
  class Router {
    var strictSlash: bool
    var routes: seq<Route>

    constructor ()
      ensures !strictSlash && routes == []
    {
      strictSlash := false;
      routes := [];
    }

    method SetStrictSlash(on: bool)
      modifies this
      ensures strictSlash == on && routes == old(routes)
    {
      strictSlash := on;
    }

    /** router.Handle(path, h). */
    method Handle(path: string, h: Handler)
      modifies this
      ensures routes == old(routes) + [Exact(path, h)]
      ensures strictSlash == old(strictSlash)
    {
      routes := routes + [Exact(path, h)];
    }

    /** router.PathPrefix(prefix).Handler(h). */
    method HandlePrefix(prefix: string, h: Handler)
      modifies this
      ensures routes == old(routes) + [Prefix(prefix, h)]
      ensures strictSlash == old(strictSlash)
    {
      routes := routes + [Prefix(prefix, h)];
    }

    /** The bindings a REST-library helper adds to this router. */
    method MountGroup(group: Mounted)
      modifies this
      ensures routes == old(routes) + [Route.Mount(group)]
      ensures strictSlash == old(strictSlash)
    {
      routes := routes + [Route.Mount(group)];
    }
  }

  const StatusFound: int := 302
  const UiEntry: string := "/staticx/index.html"
  const StaticxPrefix: string := "/staticx/"

  /** The UI sections a deep link or refresh may land on. */
  const UiSections: seq<string> := ["/indexes", "/nodes", "/monitor", "/manage", "/logs", "/debug"]

  /** The bindings InitStaticRouter leaves on its router, in order. */
  function StaticRoutes(staticDir: string, staticETag: string): (rs: seq<Route>)
    ensures |rs| == 5
    ensures forall i :: 0 <= i < |rs| ==> (rs[i].Prefix? <==> i == 4) && (rs[i].Mount? <==> i == 3)
    ensures forall i :: 0 <= i < |rs| && rs[i].Exact? ==> rs[i].handler.Redirect? && rs[i].handler.code == StatusFound
  {
    [ Exact("/", Redirect(UiEntry, StatusFound)),
      Exact("/index.html", Redirect(UiEntry, StatusFound)),
      Exact("/static/partials/index/list.html", Redirect("/staticx/partials/index/list.html", StatusFound)),
      Mount(UiPages(staticDir, staticETag, UiSections, Redirect(UiEntry, StatusFound))),
      Prefix(StaticxPrefix, StripPrefix(StaticxPrefix, EmbeddedFiles)) ]
  }

  /** InitStaticRouter: a fresh strict-slash router with the static bindings. */
  method InitStaticRouter(staticDir: string, staticETag: string) returns (router: Router)
    ensures fresh(router) && router.strictSlash
    ensures router.routes == StaticRoutes(staticDir, staticETag)
  {
    router := new Router();
    router.SetStrictSlash(true);
    router.Handle("/", Redirect(UiEntry, StatusFound));
    router.Handle("/index.html", Redirect(UiEntry, StatusFound));
    router.Handle("/static/partials/index/list.html", Redirect("/staticx/partials/index/list.html", StatusFound));
    router.MountGroup(UiPages(staticDir, staticETag, UiSections, Redirect(UiEntry, StatusFound)));
    router.HandlePrefix(StaticxPrefix, StripPrefix(StaticxPrefix, EmbeddedFiles));
  }

  /** NewRESTRouter: the static router, then the REST routes mounted on it
      together with the two asset lookups (myAssetDir, myAsset). The group
      records their order as Assets.LookupOrder, which Assets.LookupOrderIsFirstHit
      ties to the provider order of MyAssetIsFirstHit and MyAssetDirIsFirstHit. `restErr` is the REST library's error. */
  method NewRESTRouter(versionMain: string, staticDir: string, staticETag: string, restErr: Option<string>)
    returns (router: Router, err: Option<string>)
    ensures fresh(router) && router.strictSlash
    ensures router.routes == StaticRoutes(staticDir, staticETag)
                             + [Mount(RestApi(versionMain, staticDir, staticETag, Assets.LookupOrder))]
    ensures err == restErr
  {
    router := InitStaticRouter(staticDir, staticETag);
    router.MountGroup(RestApi(versionMain, staticDir, staticETag, Assets.LookupOrder));
    err := restErr;
  }

  /** The three explicit redirects come first, each a 302 into /staticx/. */
  lemma StaticRedirectsFirst(staticDir: string, staticETag: string)
    ensures var rs := StaticRoutes(staticDir, staticETag);
      rs[0] == Exact("/", Redirect("/staticx/index.html", 302)) &&
      rs[1] == Exact("/index.html", Redirect("/staticx/index.html", 302)) &&
      rs[2] == Exact("/static/partials/index/list.html", Redirect("/staticx/partials/index/list.html", 302))
    ensures forall i :: 0 <= i < |StaticRoutes(staticDir, staticETag)| && StaticRoutes(staticDir, staticETag)[i].Exact? ==>
      var h := StaticRoutes(staticDir, staticETag)[i].handler;
      h.Redirect? && h.code == 302 && HasPrefix(h.target, StaticxPrefix)
  {
  }

  /** The allow-list handed to the REST library is exactly the six sections,
      each answered by a 302 to the UI entry point. */
  lemma UiAllowList(staticDir: string, staticETag: string)
    ensures StaticRoutes(staticDir, staticETag)[3] ==
      Mount(UiPages(staticDir, staticETag,
                    ["/indexes", "/nodes", "/monitor", "/manage", "/logs", "/debug"],
                    Redirect("/staticx/index.html", 302)))
  {
  }

  /** The /staticx/ prefix route is the last static binding and the only prefix one. */
  lemma StaticxLast(staticDir: string, staticETag: string)
    ensures var rs := StaticRoutes(staticDir, staticETag);
      rs[|rs| - 1] == Prefix("/staticx/", StripPrefix("/staticx/", EmbeddedFiles)) &&
      forall i :: 0 <= i < |rs| - 1 ==> !rs[i].Prefix?
  {
  }

  /** The three exact paths InitStaticRouter binds itself are distinct; what
      the REST library's UI group binds is not modelled. */
  lemma StaticExactPathsDistinct(staticDir: string, staticETag: string)
    ensures var rs := StaticRoutes(staticDir, staticETag);
      forall i, j :: 0 <= i < j < |rs| && rs[i].Exact? && rs[j].Exact? ==> rs[i].path != rs[j].path
  {
  }

  /** http.StripPrefix: the path with the prefix removed, if it had it;
      None stands for the not-found reply. An empty prefix returns the
      handler itself, so every path is passed on unchanged. */
  function StripPath(prefix: string, path: string): (r: Option<string>)
    ensures r.Some? <==> HasPrefix(path, prefix)
    ensures r.Some? ==> prefix + r.value == path
    ensures prefix == [] ==> r == Some(path)
  {
    if HasPrefix(path, prefix) then Some(path[|prefix|..]) else None
  }

  /** A request for /staticx/<name> reaches the embedded file server as <name>. */
  lemma StaticxAssetName(name: string)
    ensures StripPath(StaticxPrefix, StaticxPrefix + name) == Some(name)
  {
    assert (StaticxPrefix + name)[..|StaticxPrefix|] == StaticxPrefix;
    assert (StaticxPrefix + name)[|StaticxPrefix|..] == name;
  }
}
