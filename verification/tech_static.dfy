/** The entry point `configure`, which composes the two routers. */
module TechStatic {
  import opened JsValues
  import opened Paths
  import opened CacheOptions
  import opened Routes
  import opened StaticAssets
  import opened I18nBundles

  /** `configuration.resources`. */
  datatype Resources = Resources(optimize: bool, cache: Option<CacheConfig>)

  /** The configuration object: `AV_VERSION`, `contextUrl` and `resources`. */
  datatype Configuration = Configuration(avVersion: Option<string>, contextUrl: Option<string>, resources: Resources)

  /** The options `configure` passes to `serveStaticAssets`, given what goes
      under the `cache` key and what under the `cacheOptions` key. */
  function StaticOptsOf(configuration: Configuration, dirs: seq<string>,
                        cache: Option<CacheConfig>, cacheOptions: Option<CacheConfig>): StaticOpts {
    StaticOpts(Some(dirs), configuration.avVersion, configuration.resources.optimize, cache, cacheOptions)
  }

  /** The i18n options `configure` passes. */
  function I18nOptsOf(configuration: Configuration, bundles: seq<string>): I18nOpts {
    I18nOpts(Some(bundles), configuration.avVersion, configuration.contextUrl)
  }

  /** The steps of `configure` for given static options: read `dirs[0]`, run the
      synchronous part of `checkOptimizedDir`, register the static bindings, then,
      when `bundles` is given, the i18n redirects. */
  function Compose(routes: seq<Registration>, configuration: Configuration,
                   dirs: Option<seq<string>>, bundles: Option<seq<string>>,
                   cache: Option<CacheConfig>, cacheOptions: Option<CacheConfig>): (r: Run)
    ensures Extends(routes, r.routes)
    // a failing call leaves the table as it found it
    ensures r.thrown.Some? ==> r.routes == routes
    ensures dirs.None? ==> r.thrown == Some(ReadOfUndefined)
    ensures dirs.Some? && configuration.resources.optimize && |dirs.value| == 0 ==> r.thrown == Some(PathNotString)
    ensures r.thrown.None? <==> dirs.Some? && TruthyString(configuration.avVersion)
                                && (configuration.resources.optimize ==> |dirs.value| > 0)
    // the static bindings come first, then the redirects of the given bundles
    ensures r.thrown.None? ==>
              var s := ServeStaticAssets(routes, StaticOptsOf(configuration, dirs.value, cache, cacheOptions));
              && s.thrown.None?
              && Extends(s.routes, r.routes)
              && |r.routes| == |s.routes| + (if bundles.Some? then |bundles.value| else 0)
              && (bundles.Some? ==>
                    forall j :: 0 <= j < |bundles.value| ==>
                      r.routes[|s.routes| + j] ==
                        BundleRedirect(ResourcesUrlBase(configuration.avVersion.value),
                                       ToJsString(configuration.contextUrl), bundles.value[j]))
  {
    if dirs.None? then Run(routes, Some(ReadOfUndefined))
    else if configuration.resources.optimize && First(dirs.value).None? then Run(routes, Some(PathNotString))
    else
      var s := ServeStaticAssets(routes, StaticOptsOf(configuration, dirs.value, cache, cacheOptions));
      if s.thrown.Some? || bundles.None? then s
      else ServeI18nBundles(s.routes, I18nOptsOf(configuration, bundles.value))
  }

  /** `configure(app, configuration, dirs, bundles)` as written. */
  function Configure(routes: seq<Registration>, configuration: Configuration,
                     dirs: Option<seq<string>>, bundles: Option<seq<string>>): (r: Run)
    ensures r.thrown.Some? ==> r.routes == routes
    ensures r.thrown.None? <==> dirs.Some? && TruthyString(configuration.avVersion)
                                && (configuration.resources.optimize ==> |dirs.value| > 0)
    // every static binding carries the default `{ms: 0}` or the debug `{maxAge: 0}`,
    // whatever cache is configured
    ensures forall i :: |routes| <= i < |r.routes| && r.routes[i].Static? ==>
              r.routes[i].cache == Default || r.routes[i].cache == MaxAge(0)
    // redirects are appended only when bundles are given
    ensures bundles.None? ==> forall i :: |routes| <= i < |r.routes| ==> r.routes[i].Static?
  {
    var r := Compose(routes, configuration, dirs, bundles, None, configuration.resources.cache);
    CacheIsDropped(routes, configuration, dirs, bundles);
    r
  }

  /** With no `cache` key, every binding the static router appends carries the
      default `{ms: 0}` or the debug `{maxAge: 0}`. */
  lemma StaticBindingsWithoutCache(routes: seq<Registration>, opts: StaticOpts)
    requires opts.cache.None?
    ensures var s := ServeStaticAssets(routes, opts);
            forall i :: |routes| <= i < |s.routes| ==>
              s.routes[i].Static? && (s.routes[i].cache == Default || s.routes[i].cache == MaxAge(0))
  {
    var s := ServeStaticAssets(routes, opts);
    if s.thrown.None? {
      var ds := opts.dirs.value;
      var v := opts.version.value;
      assert StaticCacheOptions(opts.cache) == Default;
      forall i | |routes| <= i < |s.routes|
        ensures s.routes[i].Static? && (s.routes[i].cache == Default || s.routes[i].cache == MaxAge(0))
      {
        var k := i - |routes|;
        if opts.optimize {
          assert OptimizedTable(routes, s.routes, ds, v, Default);
          assert 0 <= k < |ds| + 2;
          if k == 0 {
            assert s.routes[|routes|].cache == Default;
          } else if k == |ds| + 1 {
            assert s.routes[|routes| + |ds| + 1].cache == Default;
          } else {
            var j := k - 1;
            assert 0 <= j < |ds|;
            assert s.routes[|routes| + 1 + j] == Static(ResourcesDebugUrlBase(v), Join(ds[j], ["public"]), MaxAge(0));
          }
        } else {
          assert NonOptimizedTable(routes, s.routes, ds, v, Default);
          assert 0 <= k < |ds|;
          assert s.routes[|routes| + k] == Static(ResourcesUrlBase(v), Join(ds[k], ["public"]), Default);
        }
      }
    }
  }

  /** The cache clauses of `Configure`: with the configured cache under the unread
      key, no appended static binding carries it. */
  lemma CacheIsDropped(routes: seq<Registration>, configuration: Configuration,
                       dirs: Option<seq<string>>, bundles: Option<seq<string>>)
    ensures var r := Compose(routes, configuration, dirs, bundles, None, configuration.resources.cache);
            && (forall i :: |routes| <= i < |r.routes| && r.routes[i].Static? ==>
                  r.routes[i].cache == Default || r.routes[i].cache == MaxAge(0))
            && (bundles.None? ==> forall i :: |routes| <= i < |r.routes| ==> r.routes[i].Static?)
  {
    var r := Compose(routes, configuration, dirs, bundles, None, configuration.resources.cache);
    if r.thrown.None? {
      var opts := StaticOptsOf(configuration, dirs.value, None, configuration.resources.cache);
      var s := ServeStaticAssets(routes, opts);
      StaticBindingsWithoutCache(routes, opts);
      forall i | |routes| <= i < |r.routes|
        ensures r.routes[i].Static? ==> r.routes[i].cache == Default || r.routes[i].cache == MaxAge(0)
      {
        if i >= |s.routes| {
          var j := i - |s.routes|;
          assert bundles.Some? && 0 <= j < |bundles.value|;
          assert r.routes[|s.routes| + j] ==
                 BundleRedirect(ResourcesUrlBase(configuration.avVersion.value),
                                ToJsString(configuration.contextUrl), bundles.value[j]);
        } else {
          assert r.routes[i] == r.routes[..|s.routes|][i] == s.routes[i];
        }
      }
      if bundles.None? {
        assert r.routes == s.routes;
      }
    }
  }

  /** `configure` with the configured cache passed under the key the router reads. */
  function ConfigureWithCache(routes: seq<Registration>, configuration: Configuration,
                              dirs: Option<seq<string>>, bundles: Option<seq<string>>): (r: Run)
    ensures r.thrown.Some? ==> r.routes == routes
    ensures r.thrown.None? <==> dirs.Some? && TruthyString(configuration.avVersion)
                                && (configuration.resources.optimize ==> |dirs.value| > 0)
    ensures r.thrown.None? ==>
              |r.routes| >= |routes| + |dirs.value| + (if configuration.resources.optimize then 2 else 0)
    // the production bindings, and the debug css binding, carry the configured cache
    ensures r.thrown.None? && !configuration.resources.optimize ==>
              forall i :: |routes| <= i < |routes| + |dirs.value| ==>
                r.routes[i].Static? && r.routes[i].cache == StaticCacheOptions(configuration.resources.cache)
    ensures r.thrown.None? && configuration.resources.optimize ==>
              && r.routes[|routes|].Static?
              && r.routes[|routes|].cache == StaticCacheOptions(configuration.resources.cache)
              && r.routes[|routes| + |dirs.value| + 1].Static?
              && r.routes[|routes| + |dirs.value| + 1].cache == StaticCacheOptions(configuration.resources.cache)
  {
    var r := Compose(routes, configuration, dirs, bundles, configuration.resources.cache, None);
    CacheIsKept(routes, configuration, dirs, bundles);
    r
  }

  /** The cache clauses of `ConfigureWithCache`. */
  lemma CacheIsKept(routes: seq<Registration>, configuration: Configuration,
                    dirs: Option<seq<string>>, bundles: Option<seq<string>>)
    ensures var r := Compose(routes, configuration, dirs, bundles, configuration.resources.cache, None);
            var cache := StaticCacheOptions(configuration.resources.cache);
            && (r.thrown.None? ==>
                  |r.routes| >= |routes| + |dirs.value| + (if configuration.resources.optimize then 2 else 0))
            && (r.thrown.None? && !configuration.resources.optimize ==>
                  forall i :: |routes| <= i < |routes| + |dirs.value| ==>
                    r.routes[i].Static? && r.routes[i].cache == cache)
            && (r.thrown.None? && configuration.resources.optimize ==>
                  && r.routes[|routes|].Static?
                  && r.routes[|routes|].cache == cache
                  && r.routes[|routes| + |dirs.value| + 1].Static?
                  && r.routes[|routes| + |dirs.value| + 1].cache == cache)
  {
    var r := Compose(routes, configuration, dirs, bundles, configuration.resources.cache, None);
    if r.thrown.None? {
      var s := ServeStaticAssets(routes, StaticOptsOf(configuration, dirs.value, configuration.resources.cache, None));
      var ds := dirs.value;
      var v := configuration.avVersion.value;
      var cache := StaticCacheOptions(configuration.resources.cache);
      assert r.routes[..|s.routes|] == s.routes;
      assert forall i :: |routes| <= i < |s.routes| ==> r.routes[i] == r.routes[..|s.routes|][i];
      if configuration.resources.optimize {
        assert OptimizedTable(routes, s.routes, ds, v, cache);
      } else {
        assert NonOptimizedTable(routes, s.routes, ds, v, cache);
        forall i | |routes| <= i < |routes| + |ds|
          ensures r.routes[i].Static? && r.routes[i].cache == cache
        {
          var k := i - |routes|;
          assert 0 <= k < |ds|;
          assert s.routes[|routes| + k] == Static(ResourcesUrlBase(v), Join(ds[k], ["public"]), cache);
        }
      }
    }
  }

  /** The configured cache has no effect on what `configure` registers. */
  lemma ConfigureIgnoresCache(routes: seq<Registration>, configuration: Configuration,
                              dirs: Option<seq<string>>, bundles: Option<seq<string>>)
    ensures Configure(routes, configuration, dirs, bundles)
         == Configure(routes, configuration.(resources := configuration.resources.(cache := None)), dirs, bundles)
  {
  }

  /** A configured cache of 60 seconds: `configure` serves with `{ms: 0}`, where
      passing the cache under `cache` serves with `{maxAge: 60000}`. */
  lemma CacheDroppedExample()
    ensures var configuration :=
              Configuration(Some("1.0"), Some("/portal"), Resources(false, Some(CacheConfig(None, Some(60)))));
            && Configure([], configuration, Some(["app"]), None).routes
                 == [Static("/resources/1.0", "app/public", MsField(0))]
            && ConfigureWithCache([], configuration, Some(["app"]), None).routes
                 == [Static("/resources/1.0", "app/public", MaxAge(60000))]
  {
    var configuration :=
      Configuration(Some("1.0"), Some("/portal"), Resources(false, Some(CacheConfig(None, Some(60)))));
    assert Join("app", ["public"]) == "app/public";
    var asWritten := StaticOptsOf(configuration, ["app"], None, configuration.resources.cache);
    var s1 := ServeStaticAssets([], asWritten).routes;
    assert |s1| == 1 && s1[0] == Static("/resources/1.0", "app/public", MsField(0));
    var withCache := StaticOptsOf(configuration, ["app"], configuration.resources.cache, None);
    var s2 := ServeStaticAssets([], withCache).routes;
    assert |s2| == 1 && s2[0] == Static("/resources/1.0", "app/public", MaxAge(60000));
  }
}
