/** Concrete inputs from the repository's test suite, run through the model. */
module Scenarios {
  import opened JsValues
  import opened CacheOptions
  import opened Routes
  import opened StaticAssets
  import opened I18nBundles

  const TestDirs: seq<string> := [".", "../../node-ui-commons"]

  /** The static options of the test suite, which never set `version`. */
  function TestStaticOpts(optimize: bool, version: Option<string>): StaticOpts {
    StaticOpts(Some(TestDirs), version, optimize, Some(CacheConfig(Some(123456), None)), None)
  }

  /** As the tests call it, without a version, the router throws before registering. */
  lemma StaticTestOptionsLackVersion(optimize: bool)
    ensures ServeStaticAssets([], TestStaticOpts(optimize, None)) == Run([], Some(AssertionFailed("version")))
  {
  }

  /** With a version, optimized mode makes four `app.use` calls for two directories, not one. */
  lemma OptimizedTestScenario()
    ensures var r := ServeStaticAssets([], TestStaticOpts(true, Some("1.0")));
            && r.thrown.None?
            && |r.routes| == 4
            && r.routes[0].prefix == "/resources/1.0"
            && r.routes[1].prefix == "/resources-debug/1.0"
            && r.routes[2].prefix == "/resources-debug/1.0"
            && r.routes[3].prefix == "/resources-debug/1.0/css"
  {
    var r := ServeStaticAssets([], TestStaticOpts(true, Some("1.0")));
    assert OptimizedTable([], r.routes, TestDirs, "1.0", MaxAge(123456));
    assert r.routes[1 + 0].prefix == "/resources-debug/1.0";
    assert r.routes[1 + 1].prefix == "/resources-debug/1.0";
  }

  /** As the tests call it, without a version, the i18n router throws before registering. */
  lemma I18nTestOptionsLackVersion()
    ensures ServeI18nBundles([], I18nOpts(Some(["Portal", "Error"]), None, Some("/portal")))
         == Run([], Some(AssertionFailed("version")))
  {
  }

  /** The registration URL of the Portal bundle under version 1.0. */
  lemma PortalEnPath()
    ensures EnPath("/resources/1.0", "Portal") == "/resources/1.0/i18n/Portal_en.properties"
  {
  }

  /** The redirect target of the Portal bundle under version 1.0 and context "/portal". */
  lemma PortalTarget()
    ensures "/portal" + NoLocalePath("/resources/1.0", "Portal") == "/portal/resources/1.0/i18n/Portal.properties"
  {
  }

  /** With a version, the Portal bundle's handler redirects to the locale-less file. */
  lemma PortalRedirectScenario()
    ensures var r := ServeI18nBundles([], I18nOpts(Some(["Portal"]), Some("1.0"), Some("/portal")));
            && |r.routes| == 1
            && r.routes[0] == Redirect("/resources/1.0/i18n/Portal_en.properties",
                                       "/portal/resources/1.0/i18n/Portal.properties")
  {
    var opts := I18nOpts(Some(["Portal"]), Some("1.0"), Some("/portal"));
    var r := ServeI18nBundles([], opts);
    assert opts.bundles.value[0] == "Portal";
    assert ResourcesUrlBase("1.0") == "/resources/1.0";
    assert r.routes[0 + 0] == BundleRedirect("/resources/1.0", "/portal", "Portal");
    PortalEnPath();
    PortalTarget();
  }
}
