/** The i18n redirect router `serveI18nBundles`. */
module I18nBundles {
  import opened JsValues
  import opened Routes
  import opened StaticAssets

  /** The options object of `serveI18nBundles`. */
  datatype I18nOpts = I18nOpts(bundles: Option<seq<string>>, version: Option<string>, contextUrl: Option<string>)

  const EnSuffix: string := "_en.properties"
  const NoLocaleSuffix: string := ".properties"

  /** The English-suffixed bundle URL a handler is registered at. */
  function EnPath(urlBase: string, bundle: string): string {
    urlBase + "/i18n/" + bundle + EnSuffix
  }

  /** The locale-less bundle URL the handler redirects to, before `contextUrl`. */
  function NoLocalePath(urlBase: string, bundle: string): string {
    urlBase + "/i18n/" + bundle + NoLocaleSuffix
  }

  /** The handler registered for one bundle. */
  function BundleRedirect(urlBase: string, contextUrl: string, bundle: string): Registration {
    Redirect(EnPath(urlBase, bundle), contextUrl + NoLocalePath(urlBase, bundle))
  }

  /** `serveI18nBundles(app, opts)` on the route table `routes`. */
  function ServeI18nBundles(routes: seq<Registration>, opts: I18nOpts): (r: Run)
    ensures Extends(routes, r.routes)
    // both failures happen before the first `app.use`
    ensures r.thrown.Some? ==> r.routes == routes
    ensures opts.bundles.None? ==> r.thrown == Some(AssertionFailed("bundles"))
    ensures opts.bundles.Some? && !TruthyString(opts.version) ==> r.thrown == Some(AssertionFailed("version"))
    ensures r.thrown.None? <==> TruthyArray(opts.bundles) && TruthyString(opts.version)
    // one redirect per bundle, in bundle order, under the production prefix only
    ensures r.thrown.None? ==>
              && |r.routes| == |routes| + |opts.bundles.value|
              && forall i :: 0 <= i < |opts.bundles.value| ==>
                   r.routes[|routes| + i] == Redirect(
                     "/resources/" + opts.version.value + "/i18n/" + opts.bundles.value[i] + "_en.properties",
                     ToJsString(opts.contextUrl) + "/resources/" + opts.version.value + "/i18n/"
                       + opts.bundles.value[i] + ".properties")
  {
    if opts.bundles.None? then Run(routes, Some(AssertionFailed("bundles")))
    else if !TruthyString(opts.version) then Run(routes, Some(AssertionFailed("version")))
    else
      var urlBase := ResourcesUrlBase(opts.version.value);
      var contextUrl := ToJsString(opts.contextUrl);
      Run(Each(routes, opts.bundles.value, bundle => BundleRedirect(urlBase, contextUrl, bundle)), None)
  }

  /** The locale-less file an English-suffixed bundle URL stands for. */
  function StripEnLocale(path: string): string
    requires |path| >= |EnSuffix| && path[|path| - |EnSuffix|..] == EnSuffix
  {
    path[..|path| - |EnSuffix|] + NoLocaleSuffix
  }

  /** Every handler redirects to `contextUrl` followed by its own path with the
      `_en` locale removed. */
  lemma RedirectDropsLocale(urlBase: string, contextUrl: string, bundle: string)
    ensures var reg := BundleRedirect(urlBase, contextUrl, bundle);
            && |reg.path| >= |EnSuffix| && reg.path[|reg.path| - |EnSuffix|..] == EnSuffix
            && reg.target == contextUrl + StripEnLocale(reg.path)
  {
  }

  /** Different bundles are registered at different URLs. */
  lemma EnPathInjective(urlBase: string, b1: string, b2: string)
    requires EnPath(urlBase, b1) == EnPath(urlBase, b2)
    ensures b1 == b2
  {
    var head := urlBase + "/i18n/";
    var p1 := EnPath(urlBase, b1);
    assert p1 == head + b1 + EnSuffix;
    assert p1[|head|..|head| + |b1|] == b1;
    assert EnPath(urlBase, b2) == head + b2 + EnSuffix;
    assert EnPath(urlBase, b2)[|head|..|head| + |b2|] == b2;
  }

  /** No redirect is registered under the debug prefix. */
  lemma NoDebugRedirects(routes: seq<Registration>, opts: I18nOpts)
    ensures var r := ServeI18nBundles(routes, opts);
            forall i :: |routes| <= i < |r.routes| ==>
              r.routes[i].Redirect? && !UnderDebugPrefix(r.routes[i].path)
  {
    var r := ServeI18nBundles(routes, opts);
    if r.thrown.None? {
      var bundles := opts.bundles.value;
      var urlBase := ResourcesUrlBase(opts.version.value);
      forall i | |routes| <= i < |r.routes|
        ensures r.routes[i].Redirect? && !UnderDebugPrefix(r.routes[i].path)
      {
        var k := i - |routes|;
        assert 0 <= k < |bundles|;
        var rest := "/i18n/" + bundles[k] + EnSuffix;
        assert r.routes[|routes| + k].path == urlBase + rest;
        ProductionIsNotDebug(opts.version.value, rest);
      }
    }
  }
}
