/** The part of the HTTP router library that the serving core relies on, as
    values: a router is the sequence of routes registered on it, in order.
    `AddRoute` registers one path and verb, `WithLayer` wraps the routes
    registered so far (and only those) in a middleware, `Merge` appends the
    routes of another router, and `Dispatch` finds the route a request reaches.
    The library refuses to register the same path and verb twice; that is
    the precondition of `AddRoute` and `Merge`. */
module Routing {
  import opened Common

  datatype Verb = Get | Post

  /** `layers` lists the middleware wrapping the route, innermost first. */
  datatype Route<H, L> = Route(path: string, verb: Verb, handler: H, layers: seq<L>)

  type Router<H, L> = seq<Route<H, L>>

  predicate Registered<H, L>(router: Router<H, L>, path: string, verb: Verb) {
    exists i :: 0 <= i < |router| && router[i].path == path && router[i].verb == verb
  }

  /** No path and verb is registered twice. */
  predicate DistinctEndpoints<H, L>(router: Router<H, L>) {
    forall i, j :: 0 <= i < j < |router| ==>
      router[i].path != router[j].path || router[i].verb != router[j].verb
  }

  function AddRoute<H, L>(router: Router<H, L>, path: string, verb: Verb, handler: H): (r: Router<H, L>)
    requires !Registered(router, path, verb)
    ensures DistinctEndpoints(router) ==> DistinctEndpoints(r)
    ensures Registered(r, path, verb)
  {
    var r := router + [Route(path, verb, handler, [])];
    assert r[|router|].path == path && r[|router|].verb == verb;
    r
  }

  /** Wraps every route registered so far in `layer`, which becomes the
      outermost of its layers; what is registered does not change. */
  function WithLayer<H, L>(router: Router<H, L>, layer: L): (r: Router<H, L>)
    ensures |r| == |router|
    ensures forall i :: 0 <= i < |r| ==>
      && r[i].path == router[i].path && r[i].verb == router[i].verb && r[i].handler == router[i].handler
      && |r[i].layers| == |router[i].layers| + 1
      && r[i].layers[..|router[i].layers|] == router[i].layers
      && r[i].layers[|router[i].layers|] == layer
    ensures forall path, verb :: Registered(r, path, verb) <==> Registered(router, path, verb)
  {
    seq(|router|, i requires 0 <= i < |router| => router[i].(layers := router[i].layers + [layer]))
  }

  /** A layer over a single route becomes that route's outermost layer. */
  lemma WithLayerOne<H, L>(route: Route<H, L>, layer: L)
    ensures WithLayer([route], layer) == [route.(layers := route.layers + [layer])]
  {
    var r := WithLayer([route], layer);
    assert r[0].layers == route.layers + [layer];
  }

  /** A layer over two routes becomes the outermost layer of each, in order. */
  lemma WithLayerTwo<H, L>(first: Route<H, L>, second: Route<H, L>, layer: L)
    ensures WithLayer([first, second], layer)
         == [first.(layers := first.layers + [layer]), second.(layers := second.layers + [layer])]
  {
    var r := WithLayer([first, second], layer);
    assert r[0].layers == first.layers + [layer];
    assert r[1].layers == second.layers + [layer];
  }

  function Merge<H, L>(root: Router<H, L>, other: Router<H, L>): Router<H, L>
    requires DistinctEndpoints(root + other)
  {
    root + other
  }

  /** The routers of `routers` merged one after the other into an empty one. */
  function Concat<H, L>(routers: seq<Router<H, L>>): Router<H, L> {
    if routers == [] then [] else Concat(routers[..|routers| - 1]) + routers[|routers| - 1]
  }

  /** The route a request for `path` and `verb` reaches, or `None` when no
      route has that path and verb: the library then answers 404 Not Found for
      an unknown path and 405 Method Not Allowed for a known path under
      another verb. */
  function Dispatch<H, L>(router: Router<H, L>, path: string, verb: Verb): (r: Option<Route<H, L>>)
    ensures r.None? <==> !Registered(router, path, verb)
    ensures r.Some? ==> r.value in router && r.value.path == path && r.value.verb == verb
  {
    if router == [] then None
    else if router[0].path == path && router[0].verb == verb then Some(router[0])
    else
      var rest := Dispatch(router[1..], path, verb);
      assert Registered(router, path, verb) ==> Registered(router[1..], path, verb) by {
        if Registered(router, path, verb) {
          var i :| 0 <= i < |router| && router[i].path == path && router[i].verb == verb;
          assert router[1..][i - 1] == router[i];
        }
      }
      assert Registered(router[1..], path, verb) ==> Registered(router, path, verb) by {
        if Registered(router[1..], path, verb) {
          var i :| 0 <= i < |router[1..]| && router[1..][i].path == path && router[1..][i].verb == verb;
          assert router[i + 1] == router[1..][i];
        }
      }
      rest
  }

  /** When no endpoint is registered twice, a request for a registered route's
      path and verb reaches exactly that route. */
  lemma DispatchFindsRoute<H, L>(router: Router<H, L>, i: int)
    requires DistinctEndpoints(router)
    requires 0 <= i < |router|
    ensures Dispatch(router, router[i].path, router[i].verb) == Some(router[i])
  {
  }

  lemma ConcatPush<H, L>(routers: seq<Router<H, L>>, router: Router<H, L>)
    ensures Concat(routers + [router]) == Concat(routers) + router
  {
  }

  /** Every intermediate result of merging `routers` one by one is free of
      repeated endpoints when the final result is. */
  lemma {:induction false} ConcatPrefixDistinct<H, L>(routers: seq<Router<H, L>>, k: nat)
    requires k <= |routers|
    requires DistinctEndpoints(Concat(routers))
    ensures DistinctEndpoints(Concat(routers[..k]))
    decreases |routers|
  {
    if k == |routers| {
      assert routers[..k] == routers;
    } else {
      var init := routers[..|routers| - 1];
      assert Concat(routers) == Concat(init) + routers[|routers| - 1];
      var a := Concat(init);
      assert DistinctEndpoints(a) by {
        var whole := Concat(routers);
        forall x, y | 0 <= x < y < |a|
          ensures a[x].path != a[y].path || a[x].verb != a[y].verb
        {
          assert a[x] == whole[x] && a[y] == whole[y];
        }
      }
      assert init[..k] == routers[..k];
      ConcatPrefixDistinct(init, k);
    }
  }

  /** One step of the fold: merging the next router into the routers merged
      so far gives the next prefix, and repeats no endpoint. */
  lemma ConcatStep<H, L>(routers: seq<Router<H, L>>, i: nat)
    requires i < |routers|
    requires DistinctEndpoints(Concat(routers))
    ensures Concat(routers[..i + 1]) == Concat(routers[..i]) + routers[i]
    ensures DistinctEndpoints(Concat(routers[..i]) + routers[i])
  {
    var next := routers[..i + 1];
    assert next[..i] == routers[..i] && next[i] == routers[i];
    assert Concat(next) == Concat(routers[..i]) + routers[i];
    ConcatPrefixDistinct(routers, i + 1);
  }
}
