/** The routing table of api/runtime/api.go. Options configure an engine,
    a port and a middleware chain; `NewApi` hands the chain and a callback
    to the engine; `RegisterRouter` records a service's methods by path and
    registers its POST and GET paths with the engine; the callback
    `engineBackHandler` finds the handler of a requested path.

    The engine is seen only through the calls it receives. Middleware
    functions, method handlers and service implementations are known by
    name; what a handler computes is not modelled. */
module RuntimeApi {

  datatype Middleware = Middleware(name: string)

  datatype Handler = Handler(name: string)

  /** The service implementation (`serveImpl`) handlers are called with. */
  datatype Impl = Impl(name: string)

  /** `MethodDesc`: `verb` is its `Method`, the HTTP verb. */
  datatype MethodDesc = MethodDesc(name: string, verb: string, path: string, handler: Handler)

  datatype RouterDesc = RouterDesc(serviceName: string, methods: seq<MethodDesc>)

  /** `routerInfo`: the service's methods by path. */
  datatype RouterInfo = RouterInfo(serviceName: string, serveImpl: Impl, methods: map<string, MethodDesc>)

  /** A call the engine received. `RegisterHandler` is always given the
      Api's `engineBackHandler`, so only the port is recorded. */
  datatype EngineCall =
    | RegisterHandlerCall(port: int)
    | UseCall(middle: seq<Middleware>)
    | PostCall(path: string)
    | GetCall(path: string)
    | RunCall

  /** The `Engine` collaborator, as the record of its calls. */
  class Engine {
    var calls: seq<EngineCall>

    constructor ()
      ensures calls == []
    {
      calls := [];
    }

    method RegisterHandler(port: int)
      modifies this
      ensures calls == old(calls) + [RegisterHandlerCall(port)]
    {
      calls := calls + [RegisterHandlerCall(port)];
    }

    method Use(middle: seq<Middleware>)
      modifies this
      ensures calls == old(calls) + [UseCall(middle)]
    {
      calls := calls + [UseCall(middle)];
    }

    method POST(path: string)
      modifies this
      ensures calls == old(calls) + [PostCall(path)]
    {
      calls := calls + [PostCall(path)];
    }

    method GET(path: string)
      modifies this
      ensures calls == old(calls) + [GetCall(path)]
    {
      calls := calls + [GetCall(path)];
    }

    method Run()
      modifies this
      ensures calls == old(calls) + [RunCall]
    {
      calls := calls + [RunCall];
    }
  }

  /** `apiOptions`; a nil engine is `null`. */
  datatype ApiOptions = ApiOptions(engine: Engine?, port: int, chain: seq<Middleware>)

  /** The options `WithEngine`, `WithPort` and `ChainMiddle` build. */
  datatype ApiOption = WithEngine(en: Engine?) | WithPort(p: int) | ChainMiddle(funcs: seq<Middleware>)

  /** `apply`: what each option's closure does to the options. */
  function Apply(o: ApiOption, ao: ApiOptions): ApiOptions {
    match o
    case WithEngine(en) => ao.(engine := en)
    case WithPort(p) => ao.(port := p)
    case ChainMiddle(funcs) => ao.(chain := ao.chain + funcs)
  }

  /** The zero value `apiOptions{}`. */
  const NoOptions: ApiOptions := ApiOptions(null, 0, [])

  /** The options after applying `opts`, in order, to the zero value.
      `ChainMiddle` appends: the chain holds the functions of all
      `ChainMiddle` options, in order, and nothing else. */
  function Configure(opts: seq<ApiOption>): (ao: ApiOptions)
    ensures ao.chain == Chained(opts)
    decreases |opts|
  {
    if opts == [] then NoOptions
    else
      var n := |opts| - 1;
      ChainedSnoc(opts[..n], opts[n]);
      assert opts[..n] + [opts[n]] == opts;
      Apply(opts[n], Configure(opts[..n]))
  }

  /** `opts[i]` is a `WithPort` and no later option is. */
  predicate LastPortAt(opts: seq<ApiOption>, i: int) {
    0 <= i < |opts| && opts[i].WithPort? && forall j :: i < j < |opts| ==> !opts[j].WithPort?
  }

  /** `opts[i]` is a `WithEngine` and no later option is. */
  predicate LastEngineAt(opts: seq<ApiOption>, i: int) {
    0 <= i < |opts| && opts[i].WithEngine? && forall j :: i < j < |opts| ==> !opts[j].WithEngine?
  }

  /** The last `WithPort` decides the port, 0 without one: a later
      `WithPort` overrides an earlier one. */
  lemma {:induction false} LastPortWins(opts: seq<ApiOption>)
    ensures (forall i :: 0 <= i < |opts| ==> !opts[i].WithPort?) ==> Configure(opts).port == 0
    ensures forall i :: LastPortAt(opts, i) ==> Configure(opts).port == opts[i].p
    decreases |opts|
  {
    if opts != [] {
      var n := |opts| - 1;
      var front := opts[..n];
      LastPortWins(front);
      assert Configure(opts) == Apply(opts[n], Configure(front));
      if forall i :: 0 <= i < |opts| ==> !opts[i].WithPort? {
        forall i | 0 <= i < n ensures !front[i].WithPort? {
          assert front[i] == opts[i];
        }
      }
      forall i | LastPortAt(opts, i) ensures Configure(opts).port == opts[i].p {
        if i < n {
          assert !opts[n].WithPort?;
          forall j | i < j < n ensures !front[j].WithPort? {
            assert front[j] == opts[j];
          }
          assert front[i] == opts[i];
          assert LastPortAt(front, i);
        }
      }
    }
  }

  /** The last `WithEngine` decides the engine, nil without one. */
  lemma {:induction false} LastEngineWins(opts: seq<ApiOption>)
    ensures (forall i :: 0 <= i < |opts| ==> !opts[i].WithEngine?) ==> Configure(opts).engine == null
    ensures forall i :: LastEngineAt(opts, i) ==> Configure(opts).engine == opts[i].en
    decreases |opts|
  {
    if opts != [] {
      var n := |opts| - 1;
      var front := opts[..n];
      LastEngineWins(front);
      assert Configure(opts) == Apply(opts[n], Configure(front));
      if forall i :: 0 <= i < |opts| ==> !opts[i].WithEngine? {
        forall i | 0 <= i < n ensures !front[i].WithEngine? {
          assert front[i] == opts[i];
        }
      }
      forall i | LastEngineAt(opts, i) ensures Configure(opts).engine == opts[i].en {
        if i < n {
          assert !opts[n].WithEngine?;
          forall j | i < j < n ensures !front[j].WithEngine? {
            assert front[j] == opts[j];
          }
          assert front[i] == opts[i];
          assert LastEngineAt(front, i);
        }
      }
    }
  }

  /** The middleware of every `ChainMiddle`, in option order. */
  function Chained(opts: seq<ApiOption>): seq<Middleware>
    decreases |opts|
  {
    if opts == [] then []
    else (if opts[0].ChainMiddle? then opts[0].funcs else []) + Chained(opts[1..])
  }

  lemma {:induction false} ChainedSnoc(opts: seq<ApiOption>, o: ApiOption)
    ensures Chained(opts + [o]) == Chained(opts) + (if o.ChainMiddle? then o.funcs else [])
    decreases |opts|
  {
    if opts != [] {
      assert (opts + [o])[1..] == opts[1..] + [o];
      ChainedSnoc(opts[1..], o);
    } else {
      assert [o][1..] == [];
    }
  }

  /** What `NewApi` asks of the engine: one `Use` per chained middleware, in
      order. */
  function UseEach(chain: seq<Middleware>): seq<EngineCall>
    ensures |UseEach(chain)| == |chain|
    ensures forall i :: 0 <= i < |chain| ==> UseEach(chain)[i] == UseCall([chain[i]])
    decreases |chain|
  {
    if chain == [] then [] else UseEach(chain[..|chain| - 1]) + [UseCall([chain[|chain| - 1]])]
  }

  /** The method table `RegisterRouter` fills: one entry per path. */
  function MethodTable(ms: seq<MethodDesc>): map<string, MethodDesc>
    decreases |ms|
  {
    if ms == [] then map[] else MethodTable(ms[..|ms| - 1])[ms[|ms| - 1].path := ms[|ms| - 1]]
  }

  /** The table has exactly the paths of the descriptors. */
  lemma {:induction false} MethodTablePaths(ms: seq<MethodDesc>)
    ensures forall p :: p in MethodTable(ms) <==> exists i :: 0 <= i < |ms| && ms[i].path == p
    decreases |ms|
  {
    if ms != [] {
      var n := |ms| - 1;
      var front := ms[..n];
      MethodTablePaths(front);
      assert MethodTable(ms) == MethodTable(front)[ms[n].path := ms[n]];
      forall p ensures p in MethodTable(ms) <==> exists i :: 0 <= i < |ms| && ms[i].path == p {
        if p in MethodTable(ms) && p != ms[n].path {
          var i :| 0 <= i < n && front[i].path == p;
          assert ms[i].path == p;
        }
        if exists i :: 0 <= i < |ms| && ms[i].path == p {
          var i :| 0 <= i < |ms| && ms[i].path == p;
          if i < n {
            assert front[i].path == p;
          }
        }
      }
    }
  }

  /** `ms[i]` is the last descriptor with its path. */
  predicate LastWithPath(ms: seq<MethodDesc>, i: int) {
    0 <= i < |ms| && forall j :: i < j < |ms| ==> ms[j].path != ms[i].path
  }

  /** Each path maps to the last descriptor with that path: a later method
      on the same path overwrites an earlier one. */
  lemma {:induction false} MethodTableKeepsLast(ms: seq<MethodDesc>)
    ensures forall i :: LastWithPath(ms, i) ==> ms[i].path in MethodTable(ms) && MethodTable(ms)[ms[i].path] == ms[i]
    decreases |ms|
  {
    if ms != [] {
      var n := |ms| - 1;
      var front := ms[..n];
      MethodTableKeepsLast(front);
      forall i | LastWithPath(ms, i) ensures ms[i].path in MethodTable(ms) && MethodTable(ms)[ms[i].path] == ms[i] {
        if i < n {
          assert ms[n].path != ms[i].path;
          forall j | i < j < n ensures front[j].path != front[i].path {
            assert front[j] == ms[j];
          }
          assert front[i] == ms[i];
          assert LastWithPath(front, i);
        }
      }
    }
  }

  /** The engine calls `RegisterRouter` makes: `POST` for each "POST"
      method, `GET` for each "GET" method, in order. */
  function Registrations(ms: seq<MethodDesc>): seq<EngineCall>
    decreases |ms|
  {
    if ms == [] then []
    else
      var d := ms[|ms| - 1];
      Registrations(ms[..|ms| - 1]) +
        (if d.verb == "POST" then [PostCall(d.path)] else if d.verb == "GET" then [GetCall(d.path)] else [])
  }

  /** How many descriptors use `verb`. */
  function CountVerb(ms: seq<MethodDesc>, verb: string): nat
    decreases |ms|
  {
    if ms == [] then 0 else (if ms[0].verb == verb then 1 else 0) + CountVerb(ms[1..], verb)
  }

  lemma {:induction false} CountVerbSnoc(ms: seq<MethodDesc>, d: MethodDesc, verb: string)
    ensures CountVerb(ms + [d], verb) == CountVerb(ms, verb) + (if d.verb == verb then 1 else 0)
    decreases |ms|
  {
    if ms != [] {
      assert (ms + [d])[1..] == ms[1..] + [d];
      CountVerbSnoc(ms[1..], d, verb);
    } else {
      assert [d][1..] == [];
    }
  }

  /** One engine registration per POST or GET method; every registration is
      the path of such a method under its own verb, and every POST or GET
      method is registered under its verb; other verbs are only recorded in
      the table. */
  lemma {:induction false} RegistrationsFollowVerbs(ms: seq<MethodDesc>)
    ensures |Registrations(ms)| == CountVerb(ms, "POST") + CountVerb(ms, "GET")
    ensures forall c :: c in Registrations(ms) ==>
      exists i :: 0 <= i < |ms| &&
        ((c == PostCall(ms[i].path) && ms[i].verb == "POST") || (c == GetCall(ms[i].path) && ms[i].verb == "GET"))
    ensures forall i :: 0 <= i < |ms| && ms[i].verb == "POST" ==> PostCall(ms[i].path) in Registrations(ms)
    ensures forall i :: 0 <= i < |ms| && ms[i].verb == "GET" ==> GetCall(ms[i].path) in Registrations(ms)
    decreases |ms|
  {
    if ms != [] {
      var n := |ms| - 1;
      RegistrationsFollowVerbs(ms[..n]);
      CountVerbSnoc(ms[..n], ms[n], "POST");
      CountVerbSnoc(ms[..n], ms[n], "GET");
      assert ms[..n] + [ms[n]] == ms;
      forall i | 0 <= i < n
        ensures ms[i].verb == "POST" ==> PostCall(ms[i].path) in Registrations(ms)
        ensures ms[i].verb == "GET" ==> GetCall(ms[i].path) in Registrations(ms)
      {
        assert ms[..n][i] == ms[i];
      }
      forall c | c in Registrations(ms)
        ensures exists i :: 0 <= i < |ms| && ((c == PostCall(ms[i].path) && ms[i].verb == "POST") || (c == GetCall(ms[i].path) && ms[i].verb == "GET"))
      {
        if c in Registrations(ms[..n]) {
          var i :| 0 <= i < n &&
            ((c == PostCall(ms[..n][i].path) && ms[..n][i].verb == "POST") || (c == GetCall(ms[..n][i].path) && ms[..n][i].verb == "GET"));
          assert ms[..n][i] == ms[i];
        } else {
          assert (c == PostCall(ms[n].path) && ms[n].verb == "POST") || (c == GetCall(ms[n].path) && ms[n].verb == "GET");
        }
      }
    }
  }

  /** The descriptors that reach the engine: those whose verb is "POST"
      or "GET", in method order. */
  function Routed(ms: seq<MethodDesc>): seq<MethodDesc>
    decreases |ms|
  {
    if ms == [] then []
    else (if ms[0].verb == "POST" || ms[0].verb == "GET" then [ms[0]] else []) + Routed(ms[1..])
  }

  /** The engine call for a POST or GET descriptor. */
  function RouteOf(d: MethodDesc): EngineCall {
    if d.verb == "POST" then PostCall(d.path) else GetCall(d.path)
  }

  lemma {:induction false} RoutedSnoc(ms: seq<MethodDesc>, d: MethodDesc)
    ensures Routed(ms + [d]) == Routed(ms) + (if d.verb == "POST" || d.verb == "GET" then [d] else [])
    decreases |ms|
  {
    if ms != [] {
      assert (ms + [d])[1..] == ms[1..] + [d];
      RoutedSnoc(ms[1..], d);
    } else {
      assert [d][1..] == [];
    }
  }

  /** The registrations are the routed descriptors, in method order, each
      under its own verb. */
  lemma {:induction false} RegistrationsInMethodOrder(ms: seq<MethodDesc>)
    ensures |Registrations(ms)| == |Routed(ms)|
    ensures forall i :: 0 <= i < |Routed(ms)| ==> Registrations(ms)[i] == RouteOf(Routed(ms)[i])
    decreases |ms|
  {
    if ms != [] {
      var n := |ms| - 1;
      RegistrationsInMethodOrder(ms[..n]);
      RoutedSnoc(ms[..n], ms[n]);
      assert ms[..n] + [ms[n]] == ms;
    }
  }

  const NotFoundMessage: string := "not find register method"

  /** What `engineBackHandler` returns: `(nil, nil)`, the "not find
      register method" error, or whatever the handler returns when called
      with the service implementation (the context and decoder are passed
      through). */
  datatype Dispatch = NilResult | Failed(message: string) | Invoke(handler: Handler, impl: Impl)

  /** Looking a path up in one router. */
  function LookupIn(info: RouterInfo, path: string): (d: Dispatch)
    ensures d == Failed(NotFoundMessage) <==> path !in info.methods
    ensures path in info.methods ==> d == Invoke(info.methods[path].handler, info.serveImpl)
  {
    if path in info.methods then Invoke(info.methods[path].handler, info.serveImpl) else Failed(NotFoundMessage)
  }

  /** The outcomes `engineBackHandler` may have: `(nil, nil)` without
      routers; otherwise the lookup in whichever router Go's map iteration
      visits first. */
  predicate MayDispatch(routers: map<string, RouterInfo>, path: string, d: Dispatch) {
    if routers == map[] then d == NilResult
    else exists name :: name in routers && d == LookupIn(routers[name], path)
  }

  /** With two services, a path registered by one of them may still be
      reported as not found, when the other one is visited first. */
  lemma FirstRouterCanHidePath()
    ensures var login := MethodDesc("Login", "POST", "api/v1/login", Handler("Login"));
      var list := MethodDesc("List", "GET", "api/v1/list", Handler("List"));
      var routers := map["User" := RouterInfo("User", Impl("user"), map[login.path := login]),
                          "Order" := RouterInfo("Order", Impl("order"), map[list.path := list])];
      login.path in routers["User"].methods && MayDispatch(routers, login.path, Failed(NotFoundMessage))
  {
    var login := MethodDesc("Login", "POST", "api/v1/login", Handler("Login"));
    var list := MethodDesc("List", "GET", "api/v1/list", Handler("List"));
    var order := RouterInfo("Order", Impl("order"), map[list.path := list]);
    var routers := map["User" := RouterInfo("User", Impl("user"), map[login.path := login]), "Order" := order];
    assert login.path != list.path;
    assert "Order" in routers && LookupIn(routers["Order"], login.path) == Failed(NotFoundMessage);
  }

  /** `Api`. */
  class Api {
    var opts: ApiOptions
    var routers: map<string, RouterInfo>

    constructor (opts: ApiOptions)
      ensures this.opts == opts && routers == map[]
    {
      this.opts := opts;
      routers := map[];
    }

    /** `Use`: hands middleware to the engine. */
    method Use(middle: seq<Middleware>)
      requires opts.engine != null
      modifies opts.engine
      ensures opts.engine.calls == old(opts.engine.calls) + [UseCall(middle)]
    {
      opts.engine.Use(middle);
    }

    /** The middleware loop of `NewApi`: one `Use` call per chained
        middleware, in order. */
    method UseChain(chain: seq<Middleware>)
      requires opts.engine != null
      modifies opts.engine
      ensures opts.engine.calls == old(opts.engine.calls) + UseEach(chain)
    {
      for i := 0 to |chain|
        invariant opts.engine.calls == old(opts.engine.calls) + UseEach(chain[..i])
      {
        assert chain[..i + 1][..i] == chain[..i];
        Use([chain[i]]);
      }
      assert chain[..|chain|] == chain;
    }

    /** `Run`: starts the engine. */
    method Run()
      requires opts.engine != null
      modifies opts.engine
      ensures opts.engine.calls == old(opts.engine.calls) + [RunCall]
    {
      opts.engine.Run();
    }

    /** `RegisterRouter`: the service's entry becomes a fresh table of its
        methods by path (replacing any earlier entry of the same service
        name, not merging with it), and the engine learns its POST and GET
        paths. */
    method RegisterRouter(rd: RouterDesc, srv: Impl)
      requires opts.engine != null
      modifies this, opts.engine
      ensures opts == old(opts)
      ensures routers == old(routers)[rd.serviceName := RouterInfo(rd.serviceName, srv, MethodTable(rd.methods))]
      ensures opts.engine.calls == old(opts.engine.calls) + Registrations(rd.methods)
    {
      var methods: map<string, MethodDesc> := map[];
      for i := 0 to |rd.methods|
        invariant opts == old(opts) && routers == old(routers)
        invariant methods == MethodTable(rd.methods[..i])
        invariant opts.engine.calls == old(opts.engine.calls) + Registrations(rd.methods[..i])
      {
        var d := rd.methods[i];
        assert rd.methods[..i + 1][..i] == rd.methods[..i];
        methods := methods[d.path := d];
        if d.verb == "POST" {
          opts.engine.POST(d.path);
        } else if d.verb == "GET" {
          opts.engine.GET(d.path);
        }
      }
      assert rd.methods[..|rd.methods|] == rd.methods;
      routers := routers[rd.serviceName := RouterInfo(rd.serviceName, srv, methods)];
    }

    /** `engineBackHandler`: looks the path up in the first router the map
        iteration visits, and only there. */
    method EngineBackHandler(path: string) returns (d: Dispatch)
      ensures MayDispatch(routers, path, d)
    {
      var names := routers.Keys;
      if names != {} {
        var name :| name in names;
        var info := routers[name];
        if path !in info.methods {
          return Failed(NotFoundMessage);
        }
        return Invoke(info.methods[path].handler, info.serveImpl);
      }
      return NilResult;
    }

    /** The lookup as evidently intended: every router is searched, so a
        registered path always reaches a handler of a service that
        registered it, and "not find register method" means no service did. */
    method FindHandler(path: string) returns (d: Dispatch)
      ensures routers == map[] ==> d == NilResult
      ensures d.Invoke? <==> exists name :: name in routers && path in routers[name].methods
      ensures d.Invoke? ==> exists name :: name in routers && d == LookupIn(routers[name], path)
      ensures routers != map[] && !d.Invoke? ==> d == Failed(NotFoundMessage)
    {
      var left := routers.Keys;
      while left != {}
        invariant left <= routers.Keys
        invariant forall name :: name in routers && name !in left ==> path !in routers[name].methods
        decreases left
      {
        var name :| name in left;
        var info := routers[name];
        if path in info.methods {
          return Invoke(info.methods[path].handler, info.serveImpl);
        }
        left := left - {name};
      }
      if routers == map[] {
        return NilResult;
      }
      return Failed(NotFoundMessage);
    }
  }

  /** The loop at the head of `NewApi`: each option, in order, applied to
      the zero value. */
  method ApplyOptions(opt: seq<ApiOption>) returns (opts: ApiOptions)
    ensures opts == Configure(opt)
  {
    opts := NoOptions;
    for i := 0 to |opt|
      invariant opts == Configure(opt[..i])
    {
      assert opt[..i + 1][..i] == opt[..i];
      opts := Apply(opt[i], opts);
    }
    assert opt[..|opt|] == opt;
  }

  /** `NewApi`: applies the options in order, hands every chained
      middleware to the engine one `Use` call at a time, in order, then
      registers the callback exactly once with the configured port. A nil
      engine would panic, so one must be configured. */
  method NewApi(opt: seq<ApiOption>) returns (a: Api)
    requires Configure(opt).engine != null
    modifies Configure(opt).engine
    ensures fresh(a) && a.opts == Configure(opt) && a.routers == map[]
    ensures Configure(opt).engine.calls ==
      old(Configure(opt).engine.calls) + UseEach(Configure(opt).chain) + [RegisterHandlerCall(Configure(opt).port)]
  {
    var opts := ApplyOptions(opt);
    a := new Api(opts);
    a.UseChain(opts.chain);
    assert opts.engine.calls == old(opts.engine.calls) + UseEach(opts.chain);
    a.opts.engine.RegisterHandler(a.opts.port);
  }
}
