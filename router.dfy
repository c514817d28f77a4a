/**
 * The route table and dispatcher of the `bone` HTTP layer.
 *
 * Resource classes declare their routes through decorators that write into a
 * metadata store; a `RouteHandler` reads that store once, building an ordered
 * list of patterns, and then answers every request with the first pattern whose
 * verb and matcher accept it, or hands the request on to `next`.
 *
 * The regular-expression matcher (`Pattern.regexp(...).exec`), the resource
 * classes' actions, `Buffer.from` and `JSON.stringify` are collaborators whose
 * code is not part of this model; they enter as function-valued parameters.
 */
module Router {
  import opened Wrappers

  newtype byte = x: int | 0 <= x < 256

  // ---------------------------------------------------------------------------
  // Metadata store

  /** Identity of a `Resource` subclass. */
  type ResourceId = nat

  /**
   * A resource class as the table builder sees it: its identity and the own
   * property names of its prototype, in enumeration order
   * (`Object.getOwnPropertyNames(r.prototype)`, which includes "constructor").
   */
  datatype ResourceClass = ResourceClass(id: ResourceId, ownProps: seq<string>)

  /** What a decorator writes metadata on: the class itself or its prototype. */
  datatype Target = ClassTarget(resource: ResourceId) | PrototypeTarget(resource: ResourceId)

  /** A metadata entry is keyed by metadata name, target and optional property key. */
  datatype MetaKey = MetaKey(name: string, target: Target, prop: Option<string>)

  type MetaStore = map<MetaKey, string>

  const PathKey := "path"
  const MethodKey := "method"
  const ConstructorProp := "constructor"

  /** `getOwnMetadata(name, target, prop)`: absent entries read as `undefined`. */
  function Lookup(store: MetaStore, key: MetaKey): (v: Option<string>)
    ensures v.Some? <==> key in store
    ensures v.Some? ==> v.value == store[key]
  {
    if key in store then Some(store[key]) else None
  }

  /** `${v}` inside a template literal: `undefined` prints as "undefined". */
  function Interpolate(v: Option<string>): string
  {
    match v
    case Some(s) => s
    case None => "undefined"
  }

  // ---------------------------------------------------------------------------
  // Route table

  /** The metadata a pattern carries: resource class, recorded verb, action name. */
  datatype Route = Route(resource: ResourceId, verb: Option<string>, action: string)

  /** A compiled pattern: its route template and the route it stands for. */
  datatype Pattern = Pattern(template: string, meta: Route)

  /** The properties of a prototype that become routes: all but "constructor", in order. */
  function Routable(props: seq<string>): (r: seq<string>)
    ensures |r| <= |props|
    ensures forall k :: k in r <==> k in props && k != ConstructorProp
  {
    if props == [] then []
    else
      var last := props[|props| - 1];
      Routable(props[..|props| - 1]) + (if last != ConstructorProp then [last] else [])
  }

  /** The pattern the constructor pushes for property `k` of resource `r`. */
  function PatternFor(apiPath: string, r: ResourceClass, k: string, store: MetaStore): Pattern
  {
    var resourcePath := Lookup(store, MetaKey(PathKey, ClassTarget(r.id), None));
    var methodPath := Lookup(store, MetaKey(PathKey, PrototypeTarget(r.id), Some(k)));
    var methodType := Lookup(store, MetaKey(MethodKey, PrototypeTarget(r.id), Some(k)));
    Pattern(apiPath + Interpolate(resourcePath) + Interpolate(methodPath), Route(r.id, methodType, k))
  }

  /** The patterns pushed by the inner loop over the property names `props` of `r`. */
  function PropPatterns(apiPath: string, r: ResourceClass, props: seq<string>, store: MetaStore): seq<Pattern>
  {
    if props == [] then []
    else
      var k := props[|props| - 1];
      PropPatterns(apiPath, r, props[..|props| - 1], store)
        + (if k != ConstructorProp then [PatternFor(apiPath, r, k, store)] else [])
  }

  /** The table built from the resource list `rs`: each resource's patterns, in list order. */
  function Table(apiPath: string, rs: seq<ResourceClass>, store: MetaStore): seq<Pattern>
  {
    if rs == [] then []
    else PropPatterns(apiPath, rs[0], rs[0].ownProps, store) + Table(apiPath, rs[1..], store)
  }

  /** Filtering out "constructor" distributes over concatenation, so relative order is kept. */
  lemma {:induction false} RoutableAppend(a: seq<string>, b: seq<string>)
    ensures Routable(a + b) == Routable(a) + Routable(b)
    decreases |b|
  {
    if b == [] {
      assert a + b == a;
    } else {
      var b' := b[..|b| - 1];
      assert (a + b)[..|a + b| - 1] == a + b';
      RoutableAppend(a, b');
    }
  }

  /**
   * A resource contributes exactly one pattern per routable property, in
   * property order, carrying that property's template and metadata.
   */
  lemma {:induction false} PropPatternsMatchRoutable(apiPath: string, r: ResourceClass, props: seq<string>, store: MetaStore)
    ensures |PropPatterns(apiPath, r, props, store)| == |Routable(props)|
    ensures forall j :: 0 <= j < |Routable(props)| ==>
              PropPatterns(apiPath, r, props, store)[j] == PatternFor(apiPath, r, Routable(props)[j], store)
    decreases |props|
  {
    if props != [] {
      PropPatternsMatchRoutable(apiPath, r, props[..|props| - 1], store);
    }
  }

  /** The table of a concatenated resource list is the concatenation of the tables. */
  lemma {:induction false} TableAppend(apiPath: string, a: seq<ResourceClass>, b: seq<ResourceClass>, store: MetaStore)
    ensures Table(apiPath, a + b, store) == Table(apiPath, a, store) + Table(apiPath, b, store)
    decreases |a|
  {
    if a == [] {
      assert a + b == b;
    } else {
      assert (a + b)[0] == a[0];
      assert (a + b)[1..] == a[1..] + b;
      TableAppend(apiPath, a[1..], b, store);
    }
  }

  /**
   * Every routable property of every listed resource has its pattern in the
   * table, and every pattern in the table is the pattern of such a property.
   */
  lemma {:induction false} TableEntries(apiPath: string, rs: seq<ResourceClass>, store: MetaStore)
    ensures forall i, k :: 0 <= i < |rs| && k in rs[i].ownProps && k != ConstructorProp ==>
              PatternFor(apiPath, rs[i], k, store) in Table(apiPath, rs, store)
    ensures forall p :: p in Table(apiPath, rs, store) ==>
              exists i :: 0 <= i < |rs| && p.meta.action in Routable(rs[i].ownProps) &&
                          p == PatternFor(apiPath, rs[i], p.meta.action, store)
    decreases |rs|
  {
    if rs != [] {
      var r := rs[0];
      var rest := rs[1..];
      TableEntries(apiPath, rest, store);
      PropPatternsMatchRoutable(apiPath, r, r.ownProps, store);
      var ps := PropPatterns(apiPath, r, r.ownProps, store);
      forall i, k | 0 <= i < |rs| && k in rs[i].ownProps && k != ConstructorProp
        ensures PatternFor(apiPath, rs[i], k, store) in Table(apiPath, rs, store)
      {
        if i == 0 {
          var ks := Routable(r.ownProps);
          assert k in ks;
          var j :| 0 <= j < |ks| && ks[j] == k;
          assert ps[j] == PatternFor(apiPath, r, k, store);
        } else {
          assert rest[i - 1] == rs[i];
        }
      }
      forall p | p in Table(apiPath, rs, store)
        ensures exists i :: 0 <= i < |rs| && p.meta.action in Routable(rs[i].ownProps) &&
                            p == PatternFor(apiPath, rs[i], p.meta.action, store)
      {
        if p in ps {
          var j :| 0 <= j < |ps| && ps[j] == p;
          assert Routable(r.ownProps)[j] in Routable(r.ownProps);
        } else {
          var i :| 0 <= i < |rest| && p.meta.action in Routable(rest[i].ownProps) &&
                   p == PatternFor(apiPath, rest[i], p.meta.action, store);
          assert rs[i + 1] == rest[i];
        }
      }
    }
  }

  // ---------------------------------------------------------------------------
  // Dispatch

  /** The parts of an incoming request the dispatcher reads. */
  datatype Request = Request(verb: string, pathname: string)

  /** The response state the dispatcher writes. */
  datatype Response = Response(status: int, headers: map<string, string>, body: Option<seq<byte>>)

  /** A JavaScript value, classified as `typeof` sees it. */
  datatype JsValue =
    | Undefined
    | Null
    | Boolean(b: bool)
    | Number(n: real)
    | Str(s: string)
    | Object(ref: nat)      // arrays and plain objects alike
    | Function(ref: nat)

  /** What constructing the resource and awaiting its action produced. */
  datatype Invocation =
    | Returned(value: JsValue, response: Response)
    | Threw(error: JsValue, response: Response)

  /** How `handle` ended: the route ran (and returned or threw), or `next()` was returned. */
  datatype Outcome =
    | Handled(route: Route, args: seq<string>, response: Response)
    | Raised(route: Route, error: JsValue, response: Response)
    | CalledNext(response: Response)

  /** `Pattern.regexp(template, ...).exec(pathname)`: the match array, or no match. */
  type Matcher = (string, string) -> Option<seq<string>>

  /** `new route.type(cnx)[route.action](...args)`, awaited, with its effect on the response. */
  type Invoker = (Route, seq<string>, Request, Response) -> Invocation

  const ContentType := "Content-Type"
  const TextPlain := "text/plain"
  const OK := 200

  /** Pattern `p` handles the request: its recorded verb is the request's and its matcher accepts. */
  predicate Accepts(p: Pattern, req: Request, exec: Matcher)
  {
    p.meta.verb == Some(req.verb) && exec(p.template, req.pathname).Some?
  }

  /** The index of the first pattern that accepts the request, if any. */
  function FirstMatch(ps: seq<Pattern>, req: Request, exec: Matcher): (r: Option<nat>)
    ensures r.Some? ==> r.value < |ps| && Accepts(ps[r.value], req, exec)
    ensures r.Some? ==> forall j :: 0 <= j < r.value ==> !Accepts(ps[j], req, exec)
    ensures r.None? <==> forall j :: 0 <= j < |ps| ==> !Accepts(ps[j], req, exec)
    decreases |ps|
  {
    if ps == [] then None
    else if Accepts(ps[0], req, exec) then Some(0)
    else
      match FirstMatch(ps[1..], req, exec)
      case None => None
      case Some(i) => Some(i + 1)
  }

  /** `params.slice(1)`: the captures without the whole-match element. */
  function Arguments(params: seq<string>): (args: seq<string>)
    ensures |args| == if |params| == 0 then 0 else |params| - 1
    ensures forall k :: 0 <= k < |args| ==> args[k] == params[k + 1]
  {
    if |params| == 0 then [] else params[1..]
  }

  /** The response after the action returned `v` (it was `resp` at that moment). */
  function Respond(v: JsValue, resp: Response, utf8: string -> seq<byte>, json: JsValue -> string): (r: Response)
    ensures r.status == OK
    ensures r.headers - {ContentType} == resp.headers - {ContentType}
    ensures v.Str? ==> r.body == Some(utf8(v.s)) && ContentType in r.headers &&
                       r.headers[ContentType] == (if ContentType in resp.headers then resp.headers[ContentType] else TextPlain)
    ensures v.Object? ==> r.body == Some(utf8(json(v))) && ContentType in r.headers && r.headers[ContentType] == TextPlain
    ensures !v.Str? && !v.Object? ==> r.headers == resp.headers && r.body == resp.body
  {
    var resp := resp.(status := OK);
    match v
    case Str(s) =>
      var headers := if ContentType in resp.headers then resp.headers else resp.headers[ContentType := TextPlain];
      resp.(headers := headers, body := Some(utf8(s)))
    case Object(_) =>
      resp.(headers := resp.headers[ContentType := TextPlain], body := Some(utf8(json(v))))
    case _ => resp
  }

  /** The specification of `handle`: what one request does, given the table `ps`. */
  function Dispatch(ps: seq<Pattern>, req: Request, resp: Response, exec: Matcher, invoke: Invoker,
                    utf8: string -> seq<byte>, json: JsValue -> string): (out: Outcome)
    ensures out.CalledNext? <==> forall j :: 0 <= j < |ps| ==> !Accepts(ps[j], req, exec)
    ensures out.CalledNext? ==> out.response == resp
    ensures !out.CalledNext? ==>
              var i := FirstMatch(ps, req, exec).value;
              var args := Arguments(exec(ps[i].template, req.pathname).value);
              && out.route == ps[i].meta
              && (out.Handled? <==> invoke(ps[i].meta, args, req, resp).Returned?)
              && (out.Handled? ==> out.args == args && out.response.status == OK)
              && (out.Handled? ==>
                    var v := invoke(ps[i].meta, args, req, resp);
                    out.response == Respond(v.value, v.response, utf8, json))
              && (out.Raised? ==>
                    out.error == invoke(ps[i].meta, args, req, resp).error &&
                    out.response == invoke(ps[i].meta, args, req, resp).response)
  {
    match FirstMatch(ps, req, exec)
    case None => CalledNext(resp)
    case Some(i) =>
      var route := ps[i].meta;
      var args := Arguments(exec(ps[i].template, req.pathname).value);
      match invoke(route, args, req, resp)
      case Threw(e, r) => Raised(route, e, r)
      case Returned(v, r) => Handled(route, args, Respond(v, r, utf8, json))
  }

  /**
   * Table order decides: a request is never handled by a pattern when an
   * earlier pattern also accepts it.
   */
  lemma EarlierPatternWins(ps: seq<Pattern>, req: Request, resp: Response, exec: Matcher, invoke: Invoker,
                           utf8: string -> seq<byte>, json: JsValue -> string, i: nat)
    requires i < |ps| && Accepts(ps[i], req, exec)
    ensures FirstMatch(ps, req, exec).Some? && FirstMatch(ps, req, exec).value <= i
    ensures !Dispatch(ps, req, resp, exec, invoke, utf8, json).CalledNext?
  {
  }

  /**
   * The matcher is consulted only for patterns whose verb is the request's:
   * matchers that agree on those patterns give the same dispatch.
   */
  lemma {:induction false} MatcherOnlyForSameVerb(ps: seq<Pattern>, req: Request, e1: Matcher, e2: Matcher)
    requires forall j :: 0 <= j < |ps| && ps[j].meta.verb == Some(req.verb) ==>
               e1(ps[j].template, req.pathname) == e2(ps[j].template, req.pathname)
    ensures FirstMatch(ps, req, e1) == FirstMatch(ps, req, e2)
    ensures FirstMatch(ps, req, e1).Some? ==>
              var i := FirstMatch(ps, req, e1).value;
              e1(ps[i].template, req.pathname) == e2(ps[i].template, req.pathname)
    decreases |ps|
  {
    if ps != [] {
      MatcherOnlyForSameVerb(ps[1..], req, e1, e2);
    }
  }

  // ---------------------------------------------------------------------------
  // The handler

  class RouteHandler {
    /** The table, in registration order; fixed once the constructor returns. */
    var patterns: seq<Pattern>

    /** Builds the table: one pattern per own non-constructor prototype property of each resource. */
    constructor (store: MetaStore, apiPath: string := "/", resources: seq<ResourceClass> := [])
      ensures patterns == Table(apiPath, resources, store)
    {
      var ps: seq<Pattern> := [];
      var i := 0;
      while i < |resources|
        invariant 0 <= i <= |resources|
        invariant ps == Table(apiPath, resources[..i], store)
      {
        ps := AddResource(ps, apiPath, resources[i], store);
        assert resources[..i + 1] == resources[..i] + [resources[i]];
        TableAppend(apiPath, resources[..i], [resources[i]], store);
        i := i + 1;
      }
      assert resources[..i] == resources;
      patterns := ps;
    }

    /** The inner loop of the constructor: pushes the pattern of each routable property of `r`. */
    static method AddResource(ps: seq<Pattern>, apiPath: string, r: ResourceClass, store: MetaStore)
      returns (ps': seq<Pattern>)
      ensures ps' == ps + PropPatterns(apiPath, r, r.ownProps, store)
    {
      var props := r.ownProps;
      ps' := ps;
      var j := 0;
      while j < |props|
        invariant 0 <= j <= |props|
        invariant ps' == ps + PropPatterns(apiPath, r, props[..j], store)
      {
        var k := props[j];
        if k != ConstructorProp {
          ps' := ps' + [PatternFor(apiPath, r, k, store)];
        }
        assert props[..j + 1][..j] == props[..j];
        j := j + 1;
      }
      assert props[..j] == props;
    }

    /** `handle(cnx, next)`: scans the table in order and runs the first route that accepts. */
    method Handle(req: Request, resp: Response, exec: Matcher, invoke: Invoker,
                  utf8: string -> seq<byte>, json: JsValue -> string) returns (out: Outcome)
      ensures out == Dispatch(patterns, req, resp, exec, invoke, utf8, json)
    {
      var i := 0;
      while i < |patterns|
        invariant 0 <= i <= |patterns|
        invariant forall j :: 0 <= j < i ==> !Accepts(patterns[j], req, exec)
      {
        var route := patterns[i].meta;
        if route.verb == Some(req.verb) {
          var params := exec(patterns[i].template, req.pathname);
          if params.Some? {
            var args := Arguments(params.value);
            match invoke(route, args, req, resp) {
              case Threw(e, r) =>
                out := Raised(route, e, r);
              case Returned(result, r) =>
                var response := r.(status := OK);
                if result.Str? {
                  if ContentType !in response.headers {
                    response := response.(headers := response.headers[ContentType := TextPlain]);
                  }
                  response := response.(body := Some(utf8(result.s)));
                } else if result.Object? {
                  response := response.(headers := response.headers[ContentType := TextPlain]);
                  response := response.(body := Some(utf8(json(result))));
                }
                out := Handled(route, args, response);
            }
            return;
          }
        }
        i := i + 1;
      }
      out := CalledNext(resp);
    }
  }

  // ---------------------------------------------------------------------------
  // Decorators

  /** The argument a decorator is called with, by `typeof`. */
  datatype DecoratorArg =
    | ObjectArg(target: Target, key: Option<string>)  // a prototype (used bare on a method); never a class, whose typeof is 'function'
    | FunctionArg(target: Target)                     // a class constructor (used bare on a class)
    | StringArg(path: string)                         // a path (used as a factory)
    | OtherArg                                        // undefined, a number, a boolean or a symbol; null is not modelled

  /** A decorator returned by a factory call such as `route('/users')` or `route.get('/:id')`. */
  datatype Decorator = ClassPath(path: string) | MethodRoute(verb: string, path: string)

  /** What calling a decorator did: wrote metadata, returned a decorator, or threw. */
  datatype Decoration =
    | Recorded(store: MetaStore)
    | Factory(decorator: Decorator)
    | TypeError(message: string)

  const InvalidArgument := "Invalid argument for route decorator"
  const DefaultPath := "/"
  const DefaultMethod := "GET"

  /** Applying a decorator to `(target, key)` defines its metadata there and nowhere else. */
  function Decorate(d: Decorator, target: Target, key: Option<string>, store: MetaStore): (s: MetaStore)
    ensures Lookup(s, MetaKey(PathKey, target, key)) == Some(d.path)
    ensures d.MethodRoute? ==> Lookup(s, MetaKey(MethodKey, target, key)) == Some(d.verb)
    ensures forall mk :: mk != MetaKey(PathKey, target, key) && (d.ClassPath? || mk != MetaKey(MethodKey, target, key)) ==>
              Lookup(s, mk) == Lookup(store, mk)
  {
    match d
    case ClassPath(p) => store[MetaKey(PathKey, target, key) := p]
    case MethodRoute(m, p) => store[MetaKey(MethodKey, target, key) := m][MetaKey(PathKey, target, key) := p]
  }

  /** `route(target)`, the class decorator. */
  function RouteDecorator(arg: DecoratorArg, store: MetaStore): (d: Decoration)
    ensures d.TypeError? <==> !arg.ObjectArg? && !arg.StringArg?
    ensures d.TypeError? ==> d.message == InvalidArgument
    ensures arg.StringArg? ==> d == Factory(ClassPath(arg.path))
    ensures arg.ObjectArg? ==> d.Recorded? && d.store == Decorate(ClassPath(DefaultPath), arg.target, None, store)
  {
    match arg
    case ObjectArg(target, _) => Recorded(Decorate(ClassPath(DefaultPath), target, None, store))
    case StringArg(path) => Factory(ClassPath(path))
    case _ => TypeError(InvalidArgument)
  }

  /** `methodDecorator(method, target, key)`, behind `route.method` and the verb helpers. */
  function MethodDecorator(verb: string, arg: DecoratorArg, store: MetaStore): (d: Decoration)
    ensures d.TypeError? <==> !arg.ObjectArg? && !arg.StringArg?
    ensures d.TypeError? ==> d.message == InvalidArgument
    ensures arg.StringArg? ==> d == Factory(MethodRoute(verb, arg.path))
    ensures arg.ObjectArg? ==>
              && d.Recorded?
              && d.store == Decorate(MethodRoute(DefaultMethod, DefaultPath), arg.target, arg.key, store)
              && Lookup(d.store, MetaKey(MethodKey, arg.target, arg.key)) == Some(DefaultMethod)
              && Lookup(d.store, MetaKey(PathKey, arg.target, arg.key)) == Some(DefaultPath)
  {
    match arg
    case ObjectArg(target, key) => Recorded(Decorate(MethodRoute(DefaultMethod, DefaultPath), target, key, store))
    case StringArg(path) => Factory(MethodRoute(verb, path))
    case _ => TypeError(InvalidArgument)
  }

  /** `route.get`. */
  function RouteGet(arg: DecoratorArg, store: MetaStore): (d: Decoration)
    ensures arg.StringArg? ==> d == Factory(MethodRoute("GET", arg.path))
    ensures arg.ObjectArg? ==> d == Recorded(Decorate(MethodRoute(DefaultMethod, DefaultPath), arg.target, arg.key, store))
    ensures !arg.StringArg? && !arg.ObjectArg? ==> d == TypeError(InvalidArgument)
  {
    MethodDecorator("GET", arg, store)
  }

  /** `route.put`; used bare it records the same as `route.get`. */
  function RoutePut(arg: DecoratorArg, store: MetaStore): (d: Decoration)
    ensures arg.StringArg? ==> d == Factory(MethodRoute("PUT", arg.path))
    ensures !arg.StringArg? ==> d == RouteGet(arg, store)
  {
    MethodDecorator("PUT", arg, store)
  }

  /** `route.post`; used bare it records the same as `route.get`. */
  function RoutePost(arg: DecoratorArg, store: MetaStore): (d: Decoration)
    ensures arg.StringArg? ==> d == Factory(MethodRoute("POST", arg.path))
    ensures !arg.StringArg? ==> d == RouteGet(arg, store)
  {
    MethodDecorator("POST", arg, store)
  }

  /** `route.detete` (so spelled), the DELETE helper; used bare it records the same as `route.get`. */
  function RouteDetete(arg: DecoratorArg, store: MetaStore): (d: Decoration)
    ensures arg.StringArg? ==> d == Factory(MethodRoute("DELETE", arg.path))
    ensures !arg.StringArg? ==> d == RouteGet(arg, store)
  {
    MethodDecorator("DELETE", arg, store)
  }

  /**
   * A method decorated with `route.method(m, p)` (or a verb helper called with
   * path `p`) is routed under verb `m` at the resource's path followed by `p`.
   */
  lemma DecoratedMethodPattern(apiPath: string, r: ResourceClass, k: string, m: string, p: string, store: MetaStore)
    ensures var s := Decorate(MethodRoute(m, p), PrototypeTarget(r.id), Some(k), store);
            var pat := PatternFor(apiPath, r, k, s);
            && pat.meta == Route(r.id, Some(m), k)
            && pat.template == apiPath + Interpolate(Lookup(store, MetaKey(PathKey, ClassTarget(r.id), None))) + p
  {
    var s := Decorate(MethodRoute(m, p), PrototypeTarget(r.id), Some(k), store);
    assert MetaKey(PathKey, ClassTarget(r.id), None) != MetaKey(PathKey, PrototypeTarget(r.id), Some(k));
    assert MetaKey(PathKey, ClassTarget(r.id), None) != MetaKey(MethodKey, PrototypeTarget(r.id), Some(k));
  }
}
