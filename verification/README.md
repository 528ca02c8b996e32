# node-tech-static route-table model

A Dafny model of `techStatic.js`, the module that wires an Express application to serve
versioned static assets and locale bundles. Every call the module makes to the host's
`app.use(prefix, handler)` is modelled as appending one `Registration` to a route table
(`seq<Registration>`). A registration is either `Static(prefix, dir, cache)`, the arguments
handed to the static-file middleware factory, or `Redirect(path, target)`, a handler that
redirects every request to `target`. Each operation is a pure function from a route table
and its options to a `Run`: the resulting table, plus the exception thrown, if any.

Modules:

- `JsValues`: optional option fields (`undefined` is `None`) and JavaScript truthiness. `0`
  and `""` are falsy, and an array is always truthy, the empty one included.
- `Paths`: `path.join` as a plain `/`-separated fold.
- `CacheOptions`: the resolver `staticCacheOptions` and its two result shapes. The default
  `{ms: 0}` has no `maxAge` key, unlike `{maxAge: n}`.
- `Routes`: registrations, errors, `app.use`, and `_.each` with one `app.use` per element.
- `StaticAssets`: `serveStaticAssets` in optimized and non-optimized mode.
- `I18nBundles`: `serveI18nBundles`.
- `TechStatic`: `configure`, as written and corrected (see Findings).
- `Scenarios`: inputs from `test/techStaticSpec.js` run through the model.

What the code does, where it is easy to misread or where its tests expect otherwise:

- `serveI18nBundles` registers redirects under the production prefix `/resources/<v>` only.
  It makes one `app.use` call per bundle, and nothing under `/resources-debug/<v>`
  (techStatic.js:112-122).
- The resolver's default is the object `{ms: 0}`, which has no `maxAge` key
  (techStatic.js:72-74). The only `{maxAge: 0}` the code builds is the one for the debug
  bindings (techStatic.js:55-57).
- The option checks are truthiness checks. A present but empty `dirs` or `bundles` array
  passes them (techStatic.js:32, 109).
- In optimized mode `serveStaticAssets` makes `|dirs| + 2` calls. The test at
  test/techStaticSpec.js:54 expects one (`Scenarios.OptimizedTestScenario`).
- The tests never set `version`, so both routers throw at their `version` check
  (`Scenarios.StaticTestOptionsLackVersion`, `Scenarios.I18nTestOptionsLackVersion`).
- With `optimize` set and `dirs` empty, `path.join(undefined, …)` throws a TypeError before
  any `app.use` (techStatic.js:48). In `configure`, `dirs[0]` on an undefined `dirs` throws
  before anything else (techStatic.js:140).

## Model

| member | source | states |
|---|---|---|
| `CacheOptions.StaticCacheOptions` | techStatic.js:71-88 | With no configuration, or with falsy `ms` and `seconds`, the result is the `{ms: 0}` default (no maxAge), and only then. A truthy `ms` gives `{maxAge: ms}` whatever `seconds` holds. A truthy `seconds` alone gives `{maxAge: seconds*1000}`. A resolved maxAge is never zero. |
| `Paths.Join` | techStatic.js:48-53 | The joined path starts with the base and ends with a separator followed by the last segment. |
| `Paths.JoinAppend` | techStatic.js:48-61 | Joining `css` onto the joined `dist/public` directory equals one join of all three segments. |
| `Routes.Each` | techStatic.js:52-58 | The loop keeps every earlier entry and appends exactly one registration per element, in element order. |
| `StaticAssets.ServeStaticAssets` | techStatic.js:30-69 | Only appends. A missing `dirs`, then a falsy `version`, fails with the table unchanged. Optimized mode with no directory fails in `path.join` with the table unchanged. It succeeds exactly when neither case applies. Non-optimized mode appends one production binding per directory, in order, with the resolved cache. Optimized mode appends `|dirs|+2` entries: the `dist/public` production binding, one uncached debug binding per directory, then the debug `css` binding of `dist/public/css`. |
| `StaticAssets.ProductionIsNotDebug` | techStatic.js:35-38 | No URL built on the production prefix lies under `/resources-debug/`. |
| `StaticAssets.NonOptimizedHasNoDebugBinding` | techStatic.js:62-68 | In non-optimized mode every appended entry is a static binding outside the debug prefix. |
| `I18nBundles.ServeI18nBundles` | techStatic.js:107-124 | Only appends. A missing `bundles`, then a falsy `version`, fails with the table unchanged, and it succeeds exactly otherwise. On success it appends one redirect per bundle, in order, at `/resources/<v>/i18n/<b>_en.properties`, targeting `contextUrl + /resources/<v>/i18n/<b>.properties`. |
| `I18nBundles.RedirectDropsLocale` | techStatic.js:117-121 | Each handler's path ends in `_en.properties`. Its target is `contextUrl` followed by that path with the `_en` locale removed. |
| `I18nBundles.EnPathInjective` | techStatic.js:117 | Two bundles registered at the same URL are the same bundle. |
| `I18nBundles.NoDebugRedirects` | techStatic.js:112-122 | Every appended entry is a redirect outside the debug prefix. |
| `TechStatic.Compose` | techStatic.js:138-157 | Only appends, and a failing call leaves the table unchanged. An undefined `dirs` fails at `dirs[0]`. Optimized mode with no directory fails in `checkOptimizedDir`. It succeeds exactly when `dirs` is given, the version is truthy, and optimized mode has a directory. On success the static bindings come first. The bundle redirects follow, in order, only when `bundles` is given. |
| `TechStatic.Configure` | techStatic.js:138-157 | Succeeds under the same conditions and never leaves a partial table. Every appended static binding carries `{ms: 0}` or the debug `{maxAge: 0}`, whatever cache is configured. Without `bundles` nothing but static bindings is appended. |
| `TechStatic.StaticBindingsWithoutCache` | techStatic.js:42-67 | With no `cache` option, every binding `serveStaticAssets` appends is a static binding with `{ms: 0}` or `{maxAge: 0}`. |
| `TechStatic.CacheIsDropped` | techStatic.js:142-147 | The configured cache reaches no appended static binding. |
| `TechStatic.ConfigureIgnoresCache` | techStatic.js:145 | Two configurations that differ only in their cache produce identical runs. |
| `TechStatic.CacheDroppedExample` | techStatic.js:145 | With 60 configured seconds, `configure` registers `{ms: 0}`, while the corrected version registers `{maxAge: 60000}`. |
| `TechStatic.ConfigureWithCache` | techStatic.js:142-147 | Corrected `configure`. The production bindings, and in optimized mode the debug `css` binding, carry the resolved configured cache. |
| `TechStatic.CacheIsKept` | techStatic.js:142-147 | The cache clauses of the corrected `configure`, together with the length bound they need. |
| `Scenarios.StaticTestOptionsLackVersion` | test/techStaticSpec.js:21-31 | The static options of the tests, which have no version, throw the `version` assertion before any registration. |
| `Scenarios.OptimizedTestScenario` | test/techStaticSpec.js:48-58 | Given a version, optimized mode with the tests' two directories makes four registrations, under the production, debug, debug and debug-css prefixes. |
| `Scenarios.I18nTestOptionsLackVersion` | test/techStaticSpec.js:79-83 | The i18n options of the tests, which have no version, throw the `version` assertion before any registration. |
| `Scenarios.PortalRedirectScenario` | test/techStaticSpec.js:91-107 | Given version 1.0, the Portal bundle's only handler is registered at `/resources/1.0/i18n/Portal_en.properties` and redirects to `/portal/resources/1.0/i18n/Portal.properties`. |

## Left out

- `checkOptimizedDir`: the asynchronous `fs.exists` check, and the error thrown from its callback, are filesystem I/O with fire-and-forget timing (techStatic.js:126-136). Only its synchronous part is modelled: `path.join` throwing on an undefined first directory.
- The serving itself: `express.static` or the injected `staticMw` is represented only by the arguments it receives. The redirect handler is represented only by its target string.
- `logger.debug` and `logger.warn` calls: logging only.
- Node's `path.join` normalisation: `Paths.Join` glues segments with `/` and does not drop empty segments or resolve `.` and `..`. For example, the tests' `"."` directory becomes `"./public"`, not `"public"`.
- Numbers are unbounded integers. JavaScript's floating-point `seconds * 1000`, `NaN`, and non-numeric cache fields are not modelled.
- `version` and `contextUrl` are strings or absent. A numeric version is not modelled. A `null` `contextUrl` (which prints as "null") is not modelled; an absent one prints as "undefined".
- `StaticAssets.ServeStaticAssets`: every directory is a string. A non-string entry makes `path.join(dir, "public")` throw inside `_.each` (techStatic.js:53, 64) after the earlier `app.use` calls, leaving a partial table. The model's "fails with the table unchanged" holds only because the type admits strings alone. The same applies to `TechStatic.Compose` and `TechStatic.Configure`.
- `TechStatic.Compose`: `configuration.resources` is always present. A configuration without it throws a TypeError at `configuration.resources.optimize` (techStatic.js:127, reached from 140) before any registration. The model has no such input.
- `Gruntfile.js` and the sinon spy mechanics of the tests: build and test plumbing.

## Findings

| source | as written | input that shows it | evidently intended | confidence | as-written member | corrected member |
|---|---|---|---|---|---|---|
| techStatic.js:145 | `configure` passes the configured cache under the key `cacheOptions`, but `serveStaticAssets` reads `opts.cache` (techStatic.js:42), so the resolver always sees `undefined` and returns `{ms: 0}` | `resources.cache = {seconds: 60}`, `dirs = ["app"]`, `AV_VERSION = "1.0"`, `optimize = false`: the binding gets `{ms: 0}` | the configured cache reaches the resolver, giving `{maxAge: 60000}`. The doc comment at techStatic.js:20-24 names the key `opts.cacheOptions`, the key `configure` passes. The router (techStatic.js:42) and the tests (test/techStaticSpec.js:22) use `cache`. The corrected member therefore changes the key `configure` passes, not the key the router reads | not executed | `TechStatic.CacheDroppedExample` | `TechStatic.ConfigureWithCache` |
