/** The static-asset router `serveStaticAssets`. */
module StaticAssets {
  import opened JsValues
  import opened Paths
  import opened CacheOptions
  import opened Routes

  /** The options object of `serveStaticAssets`. `cacheOptions` is the key the
      documentation names; the router never reads it and resolves `cache` instead.
      The injectable `staticMw` factory is represented by the `Static` record itself. */
  datatype StaticOpts = StaticOpts(
    dirs: Option<seq<string>>,
    version: Option<string>,
    optimize: bool,
    cache: Option<CacheConfig>,
    cacheOptions: Option<CacheConfig>)

  /** Production URL prefix. */
  function ResourcesUrlBase(version: string): string {
    "/resources/" + version
  }

  /** Debug URL prefix. */
  function ResourcesDebugUrlBase(version: string): string {
    "/resources-debug/" + version
  }

  /** Both option checks of `serveStaticAssets` pass. */
  predicate Accepted(opts: StaticOpts) {
    TruthyArray(opts.dirs) && TruthyString(opts.version)
  }

  /** Non-optimized layout: `after` is `before` followed by one production
      binding per directory, in order, each with the resolved cache options. */
  ghost predicate NonOptimizedTable(before: seq<Registration>, after: seq<Registration>,
                                    dirs: seq<string>, version: string, cache: CacheOpts)
  {
    && Extends(before, after)
    && |after| == |before| + |dirs|
    && forall i :: 0 <= i < |dirs| ==>
         after[|before| + i] == Static(ResourcesUrlBase(version), Join(dirs[i], ["public"]), cache)
  }

  /** Optimized layout: `after` is `before` followed by the production binding of
      the merged output, one uncached debug binding per directory in order, and
      the debug css binding of the merged output with the resolved cache options. */
  ghost predicate OptimizedTable(before: seq<Registration>, after: seq<Registration>,
                                 dirs: seq<string>, version: string, cache: CacheOpts)
    requires |dirs| > 0
  {
    && Extends(before, after)
    && |after| == |before| + |dirs| + 2
    && after[|before|] == Static(ResourcesUrlBase(version), Join(dirs[0], ["dist", "public"]), cache)
    && (forall i :: 0 <= i < |dirs| ==>
          after[|before| + 1 + i] == Static(ResourcesDebugUrlBase(version), Join(dirs[i], ["public"]), MaxAge(0)))
    && after[|before| + |dirs| + 1] ==
         Static(ResourcesDebugUrlBase(version) + "/css", Join(dirs[0], ["dist", "public", "css"]), cache)
  }

  /** `serveStaticAssets(app, opts)` on the route table `routes`. */
  function ServeStaticAssets(routes: seq<Registration>, opts: StaticOpts): (r: Run)
    ensures Extends(routes, r.routes)
    // every failure happens before the first `app.use`
    ensures r.thrown.Some? ==> r.routes == routes
    ensures opts.dirs.None? ==> r.thrown == Some(AssertionFailed("dirs"))
    ensures opts.dirs.Some? && !TruthyString(opts.version) ==> r.thrown == Some(AssertionFailed("version"))
    ensures Accepted(opts) && opts.optimize && |opts.dirs.value| == 0 ==> r.thrown == Some(PathNotString)
    ensures r.thrown.None? <==> Accepted(opts) && (opts.optimize ==> |opts.dirs.value| > 0)
    ensures r.thrown.None? && !opts.optimize ==>
              NonOptimizedTable(routes, r.routes, opts.dirs.value, opts.version.value, StaticCacheOptions(opts.cache))
    ensures r.thrown.None? && opts.optimize ==>
              OptimizedTable(routes, r.routes, opts.dirs.value, opts.version.value, StaticCacheOptions(opts.cache))
  {
    if opts.dirs.None? then Run(routes, Some(AssertionFailed("dirs")))
    else if !TruthyString(opts.version) then Run(routes, Some(AssertionFailed("version")))
    else
      var dirs := opts.dirs.value;
      var urlBase := ResourcesUrlBase(opts.version.value);
      var debugUrlBase := ResourcesDebugUrlBase(opts.version.value);
      var cacheOptions := StaticCacheOptions(opts.cache);
      if opts.optimize then
        if |dirs| == 0 then Run(routes, Some(PathNotString))
        else
          var distDir := Join(dirs[0], ["dist", "public"]);
          var withDist := Use(routes, Static(urlBase, distDir, cacheOptions));
          var withDebug := Each(withDist, dirs, dir => Static(debugUrlBase, Join(dir, ["public"]), MaxAge(0)));
          JoinAppend(dirs[0], ["dist", "public"], ["css"]);
          Run(Use(withDebug, Static(debugUrlBase + "/css", Join(distDir, ["css"]), cacheOptions)), None)
      else
        Run(Each(routes, dirs, dir => Static(urlBase, Join(dir, ["public"]), cacheOptions)), None)
  }
  /** A URL under some `/resources-debug/` prefix. */
  predicate UnderDebugPrefix(url: string) {
    |url| >= |"/resources-debug/"| && url[..|"/resources-debug/"|] == "/resources-debug/"
  }

  /** Nothing built on the production prefix lies under a debug prefix. */
  lemma ProductionIsNotDebug(version: string, rest: string)
    ensures !UnderDebugPrefix(ResourcesUrlBase(version) + rest)
  {
    var url := ResourcesUrlBase(version) + rest;
    assert url[10] == '/';
    assert "/resources-debug/"[10] == '-';
  }

  /** Non-optimized mode registers nothing under the debug prefix. */
  lemma NonOptimizedHasNoDebugBinding(routes: seq<Registration>, opts: StaticOpts)
    requires !opts.optimize
    ensures var r := ServeStaticAssets(routes, opts);
            forall i :: |routes| <= i < |r.routes| ==>
              r.routes[i].Static? && !UnderDebugPrefix(r.routes[i].prefix)
  {
    var r := ServeStaticAssets(routes, opts);
    if r.thrown.None? {
      var urlBase := ResourcesUrlBase(opts.version.value);
      ProductionIsNotDebug(opts.version.value, "");
      assert urlBase + "" == urlBase;
      var dirs := opts.dirs.value;
      assert NonOptimizedTable(routes, r.routes, dirs, opts.version.value, StaticCacheOptions(opts.cache));
      forall i | |routes| <= i < |r.routes|
        ensures r.routes[i].Static? && !UnderDebugPrefix(r.routes[i].prefix)
      {
        var k := i - |routes|;
        assert 0 <= k < |dirs|;
        assert r.routes[|routes| + k] == Static(urlBase, Join(dirs[k], ["public"]), StaticCacheOptions(opts.cache));
      }
    }
  }
}
