/** The host application's route table, which `app.use` extends by one entry. */
module Routes {
  import opened JsValues
  import opened CacheOptions

  /** One `app.use(prefix, handler)` call. `Static` records the arguments given
      to the static middleware factory; `Redirect` records the URL the handler
      redirects every request to. */
  datatype Registration =
    | Static(prefix: string, dir: string, cache: CacheOpts)
    | Redirect(path: string, target: string)

  /** What a registration call throws. */
  datatype Error =
    | AssertionFailed(option: string)  // `assert.ok` on a falsy option, named here
    | PathNotString                    // `path.join` given `undefined`
    | ReadOfUndefined                  // `dirs[0]` with `dirs` undefined

  /** The route table after a call, and what the call threw, if anything. */
  datatype Run = Run(routes: seq<Registration>, thrown: Option<Error>)

  /** `app.use`: appends one registration. */
  function Use(routes: seq<Registration>, reg: Registration): seq<Registration> {
    routes + [reg]
  }

  /** `after` keeps every entry of `before`, in place, and may add entries at the end. */
  ghost predicate Extends(before: seq<Registration>, after: seq<Registration>) {
    |before| <= |after| && after[..|before|] == before
  }

  /** `_.each(xs, x => app.use(...))`: one registration per element, in order. */
  function Each(routes: seq<Registration>, xs: seq<string>, handler: string -> Registration): (r: seq<Registration>)
    ensures |r| == |routes| + |xs|
    ensures r[..|routes|] == routes
    ensures forall i :: 0 <= i < |xs| ==> r[|routes| + i] == handler(xs[i])
    decreases |xs|
  {
    if |xs| == 0 then routes
    else Each(Use(routes, handler(xs[0])), xs[1..], handler)
  }
}
