/**
 * The request dispatch of `Lynq\Router\Node`: URL normalisation, route lookup,
 * redirect, the authguard chain, controller construction, the 404 answer and the
 * final render.
 *
 * The pure functions here (`AppRouteSpec`, `RouterSpec`) say what one call does to
 * the whole state; the class `Node` runs the same steps imperatively and is proved
 * to agree with them. Everything the router hands to code outside this file
 * (`Program::redirect`, `Program::render`, guard models, `Controller`, the legacy
 * registry, `die()`, `http_response_code`) is a recorded `Effect` on a `Runtime`.
 */
module Router {
  import opened Wrappers
  import opened PhpValues

  /** Used when a route has no `namespace` key. */
  const DefaultNamespace: string := "\\Api\\Controllers\\"

  const NotFoundMessage: string := "The controller does not exist"

  /** The body placed in the render basket for an unmapped URL. */
  const NotFoundBody: Value := Arr(map["error" := Str(NotFoundMessage)])

  /** The logical URL when the query parameter `lynqQueryUrl` is absent. */
  const RootUrl: string := "/"

  /**
   * One entry of the route table, as `Routes::getPath` returns it: the five entries
   * the router reads, each `None` when the key is missing or holds null, and the set
   * of every key the PHP array holds, null-valued ones included. A field is `Some`
   * only when its key is in `keys`.
   */
  datatype RouteDescriptor = RouteDescriptor(
    path: Option<string>,
    controller: Option<string>,
    controllerNamespace: Option<string>,  // the `namespace` key
    authguard: Option<seq<string>>,
    redirectTo: Option<string>,
    keys: set<string>)

  /** The configuration object handed to `router`; only `routerPath` is read. */
  datatype AppConfig = AppConfig(routerPath: string)

  /** What the router does that is visible outside `Node`, in order. */
  datatype Effect =
    | Redirect(target: string)                           // Program::redirect
    | GuardCall(guard: string, pathArg: Option<string>)  // (new \Api\Models\<guard>)->canActivate(pathArg)
    | Die                                                // die()
    | StoreRoute(route: RouteDescriptor)                 // $legacy->set('routerPath', ...)
    | Construct(className: string, routerArg: Value)     // new Controller(new $class, $this->_router)
    | Render                                             // Program::render()
    | Echo(text: string)                                 // echo

  /**
   * Everything one dispatch can change: the properties of the `Node` object, the
   * HTTP response code, the render basket's `result`, the effect trace and whether
   * the PHP process has stopped.
   */
  datatype State = State(
    props: map<string, Value>,
    status: int,
    basket: Value,
    trace: seq<Effect>,
    halted: bool)

  /**
   * The inputs of one request: `$_GET['lynqQueryUrl']` (None when unset or null),
   * the route table, the answer of each guard's `canActivate`, and whether
   * `Program::redirect` ends the process (its body is not part of this model).
   */
  datatype Request = Request(
    query: Option<string>,
    table: map<string, RouteDescriptor>,
    canActivate: (string, Option<string>) -> bool,
    redirectExits: bool)

  /** `rtrim($s, '/')`. */
  function TrimTrailingSlashes(s: string): (r: string)
    ensures |r| <= |s| && r == s[..|r|]
    ensures r == [] || r[|r| - 1] != '/'
    ensures forall j :: |r| <= j < |s| ==> s[j] == '/'
    decreases |s|
  {
    if |s| > 0 && s[|s| - 1] == '/' then TrimTrailingSlashes(s[..|s| - 1]) else s
  }

  /** The URL the router looks up: the query value or "/", right-trimmed of "/" unless it is "/". */
  function NormalizeUrl(query: Option<string>): (url: string)
    ensures query.None? ==> url == RootUrl
    ensures query == Some(RootUrl) ==> url == RootUrl
    ensures query.Some? && query.value != RootUrl ==> url == TrimTrailingSlashes(query.value)
    ensures url != RootUrl ==> url == [] || url[|url| - 1] != '/'
  {
    var raw := query.GetOr(RootUrl);
    if raw != RootUrl then TrimTrailingSlashes(raw) else RootUrl
  }

  /** `Routes::getPath($url)`, taken to be an exact-match lookup. */
  function Lookup(table: map<string, RouteDescriptor>, url: string): Option<RouteDescriptor> {
    if url in table then Some(table[url]) else None
  }

  /** A descriptor with no keys at all: PHP's `[]`. */
  predicate IsEmptyArray(d: RouteDescriptor) {
    d.keys == {}
  }

  /** PHP's `$routerPath == null`, which also holds of an empty array. */
  predicate LooselyNull(found: Option<RouteDescriptor>) {
    found.None? || IsEmptyArray(found.value)
  }

  /** The guards to run: none when `authguard` is not set. */
  function Guards(d: RouteDescriptor): seq<string> {
    d.authguard.GetOr([])
  }

  /** The index of the first guard whose `canActivate` is false, if any. */
  function FirstDenied(guards: seq<string>, pathArg: Option<string>, canActivate: (string, Option<string>) -> bool): (k: Option<nat>)
    ensures k.Some? ==> k.value < |guards| && !canActivate(guards[k.value], pathArg)
    ensures k.Some? ==> forall j :: 0 <= j < k.value ==> canActivate(guards[j], pathArg)
    ensures k.None? <==> forall j :: 0 <= j < |guards| ==> canActivate(guards[j], pathArg)
    decreases |guards|
  {
    if guards == [] then None
    else
      match FirstDenied(guards[..|guards| - 1], pathArg, canActivate)
      case Some(k) => Some(k)
      case None => if canActivate(guards[|guards| - 1], pathArg) then None else Some(|guards| - 1)
  }

  /** The guard calls made for `guards`, in list order, each with the route's `path`. */
  function GuardCalls(guards: seq<string>, pathArg: Option<string>): (es: seq<Effect>)
    ensures |es| == |guards|
    ensures forall j {:trigger es[j]} :: 0 <= j < |guards| ==> es[j] == GuardCall(guards[j], pathArg)
    decreases |guards|
  {
    if guards == [] then []
    else GuardCalls(guards[..|guards| - 1], pathArg) + [GuardCall(guards[|guards| - 1], pathArg)]
  }

  /** `$routerPath['controller']`: a string, or null when the key is missing. */
  function ControllerValue(d: RouteDescriptor): Value {
    if d.controller.Some? then Str(d.controller.value) else Null
  }

  /** `($routerPath['namespace'] ?? '\Api\Controllers\') . $this->aleph`; null concatenates as "". */
  function ClassName(d: RouteDescriptor): string {
    d.controllerNamespace.GetOr(DefaultNamespace) + d.controller.GetOr("")
  }

  /** `$this->$key ?? null`. */
  function PropGet(props: map<string, Value>, key: string): Value {
    if key in props then props[key] else Null
  }

  /**
   * `$v[0] = $x`. An array takes the entry; null (an unset property) and false
   * become a new array. A string has its character at offset 0 replaced by the
   * first character of `$x` when `$x` is a non-empty string. The remaining cases
   * are PHP errors, which are not modelled; they leave `$v` as it was.
   */
  function AssignAtZero(v: Value, x: Value): (r: Value)
    ensures v.Arr? ==> r == Arr(v.entries["0" := x])
    ensures v.Null? || v == Bool(false) ==> r == Arr(map["0" := x])
    ensures v.Str? && x.Str? && x.s != [] ==>
      && r.Str? && |r.s| == (if v.s == [] then 1 else |v.s|)
      && r.s[0] == x.s[0] && (v.s != [] ==> r.s[1..] == v.s[1..])
  {
    match v
    case Arr(m) => Arr(m["0" := x])
    case Null => Arr(map["0" := x])
    case Bool(b) => if b then v else Arr(map["0" := x])
    case Str(t) => if x.Str? && x.s != [] then Str([x.s[0]] + (if t == [] then [] else t[1..])) else v
    case _ => v
  }

  function ConfigValue(config: AppConfig): Value {
    Obj(map["routerPath" := Str(config.routerPath)])
  }

  const MissingFileLead: string := "The file "
  const MissingFileTail: string := "was not found at the specified destination <br><h2>Check the routerPath variable in config.php<h2>"

  /** The text echoed when the router file is missing (the source has no space before "was"). */
  function MissingFileMessage(routerPath: string): string {
    MissingFileLead + routerPath + MissingFileTail
  }

  /** The trace of the `authguard` loop: the calls made, then `die()` if one guard refused. */
  function GuardPhase(guards: seq<string>, pathArg: Option<string>, canActivate: (string, Option<string>) -> bool): seq<Effect> {
    match FirstDenied(guards, pathArg, canActivate)
    case Some(k) => GuardCalls(guards[..k + 1], pathArg) + [Die]
    case None => GuardCalls(guards, pathArg)
  }

  /** The effects of `redirectTo`: one `Program::redirect` when it is set. */
  function RedirectEvents(d: RouteDescriptor): seq<Effect> {
    if d.redirectTo.Some? then [Redirect(d.redirectTo.value)] else []
  }

  /** `$this->_router` once `_router[0]` holds the controller name. */
  function RouterArg(props: map<string, Value>, d: RouteDescriptor): Value {
    AssignAtZero(PropGet(props, "_router"), ControllerValue(d))
  }

  /** The effects after a passed guard chain: the legacy store, the controller, the render. */
  function ControllerTail(props: map<string, Value>, d: RouteDescriptor): seq<Effect> {
    [StoreRoute(d), Construct(ClassName(d), RouterArg(props, d)), Render]
  }

  /** The answer for an unmapped URL: status 404, the error body, one render. */
  function NotFound(s: State): State {
    s.(status := 404, basket := NotFoundBody, trace := s.trace + [Render])
  }

  /** The dispatch of a URL that resolved to `d`. */
  function Dispatch(s: State, req: Request, d: RouteDescriptor): State {
    if d.redirectTo.Some? && req.redirectExits then
      s.(trace := s.trace + RedirectEvents(d), halted := true)
    else
      var guards := GuardPhase(Guards(d), d.path, req.canActivate);
      if FirstDenied(Guards(d), d.path, req.canActivate).Some? then
        s.(trace := s.trace + RedirectEvents(d) + guards, halted := true)
      else
        s.(props := s.props["aleph" := ControllerValue(d)]["_router" := RouterArg(s.props, d)],
           trace := s.trace + RedirectEvents(d) + guards + ControllerTail(s.props, d))
  }

  /** The effect of one `_appRoute()` on the state. */
  function AppRouteSpec(s: State, req: Request): (s': State)
    ensures |s.trace| <= |s'.trace| && s'.trace[..|s.trace|] == s.trace
  {
    var found := Lookup(req.table, NormalizeUrl(req.query));
    if LooselyNull(found) then NotFound(s) else Dispatch(s, req, found.value)
  }

  /** The effect of one `router($config)`; whether the router file exists is an input. */
  function RouterSpec(s: State, config: AppConfig, routerFileExists: bool, req: Request): (s': State)
    ensures |s.trace| <= |s'.trace| && s'.trace[..|s.trace|] == s.trace
  {
    var s1 := s.(props := s.props["_appConfig" := ConfigValue(config)]);
    if routerFileExists then AppRouteSpec(s1, req)
    else s1.(trace := s1.trace + [Echo(MissingFileMessage(config.routerPath))])
  }

  /** The properties of `Node` as declared, before any call. */
  const InitialProps: map<string, Value> := map[
    "_route" := Arr(map["0" := Str("aleph"), "1" := Str("beth"), "2" := Str("gimmel"),
                        "3" := Str("daleth"), "4" := Str("hey")]),
    "router" := Arr(map[]),
    "_appConfig" := Null,
    "aleph" := Null]

  lemma FirstDeniedStillNone(guards: seq<string>, i: nat, pathArg: Option<string>, canActivate: (string, Option<string>) -> bool)
    requires i < |guards| && canActivate(guards[i], pathArg)
    requires FirstDenied(guards[..i], pathArg, canActivate).None?
    ensures FirstDenied(guards[..i + 1], pathArg, canActivate).None?
  {
    assert guards[..i + 1][..i] == guards[..i];
  }

  lemma FirstDeniedFound(guards: seq<string>, i: nat, pathArg: Option<string>, canActivate: (string, Option<string>) -> bool)
    requires i < |guards| && !canActivate(guards[i], pathArg)
    requires FirstDenied(guards[..i], pathArg, canActivate).None?
    ensures FirstDenied(guards, pathArg, canActivate) == Some(i)
  {
    forall j | 0 <= j < i ensures canActivate(guards[j], pathArg) {
      assert guards[..i][j] == guards[j];
    }
  }

  /** The guard phase when guard i is the first to refuse. */
  lemma GuardPhaseAtRefusal(guards: seq<string>, i: nat, pathArg: Option<string>, canActivate: (string, Option<string>) -> bool)
    requires i < |guards| && !canActivate(guards[i], pathArg)
    requires FirstDenied(guards[..i], pathArg, canActivate).None?
    ensures GuardPhase(guards, pathArg, canActivate) == GuardCalls(guards[..i + 1], pathArg) + [Die]
  {
    FirstDeniedFound(guards, i, pathArg, canActivate);
  }

  /** The guard phase when no guard refuses. */
  lemma GuardPhaseAllPass(guards: seq<string>, pathArg: Option<string>, canActivate: (string, Option<string>) -> bool)
    requires FirstDenied(guards[..|guards|], pathArg, canActivate).None?
    ensures GuardPhase(guards, pathArg, canActivate) == GuardCalls(guards[..|guards|], pathArg)
  {
    assert guards[..|guards|] == guards;
  }

  lemma GuardCallsStep(guards: seq<string>, i: nat, pathArg: Option<string>)
    requires i < |guards|
    ensures GuardCalls(guards[..i + 1], pathArg) == GuardCalls(guards[..i], pathArg) + [GuardCall(guards[i], pathArg)]
  {
    assert guards[..i + 1][..i] == guards[..i];
  }

  /** The process-wide side of one PHP request, as far as the router touches it. */
  class Runtime {
    var status: int
    var basket: Value
    var trace: seq<Effect>
    var halted: bool

    constructor ()
      ensures status == 200 && basket == Null && trace == [] && !halted
    {
      status, basket, trace, halted := 200, Null, [], false;
    }

    /** `Program::redirect($target)`; `exits` says whether it ends the process. */
    method IssueRedirect(target: string, exits: bool)
      modifies this
      ensures trace == old(trace) + [Redirect(target)] && halted == (old(halted) || exits)
      ensures status == old(status) && basket == old(basket)
    {
      trace := trace + [Redirect(target)];
      halted := halted || exits;
    }

    /** `(new $modelClass)->canActivate($pathArg)`, answered by `canActivate`. */
    method CallGuard(guard: string, pathArg: Option<string>, canActivate: (string, Option<string>) -> bool) returns (allowed: bool)
      modifies this
      ensures allowed == canActivate(guard, pathArg)
      ensures trace == old(trace) + [GuardCall(guard, pathArg)]
      ensures status == old(status) && basket == old(basket) && halted == old(halted)
    {
      trace := trace + [GuardCall(guard, pathArg)];
      allowed := canActivate(guard, pathArg);
    }

    /** `die()`. */
    method Exit()
      modifies this
      ensures trace == old(trace) + [Die] && halted
      ensures status == old(status) && basket == old(basket)
    {
      trace := trace + [Die];
      halted := true;
    }

    /** `$legacy->set('routerPath', $route)`. */
    method StoreRoute(route: RouteDescriptor)
      modifies this
      ensures trace == old(trace) + [Effect.StoreRoute(route)]
      ensures status == old(status) && basket == old(basket) && halted == old(halted)
    {
      trace := trace + [Effect.StoreRoute(route)];
    }

    /** `new Controller(new $className, $routerArg)`. */
    method ConstructController(className: string, routerArg: Value)
      modifies this
      ensures trace == old(trace) + [Construct(className, routerArg)]
      ensures status == old(status) && basket == old(basket) && halted == old(halted)
    {
      trace := trace + [Construct(className, routerArg)];
    }

    /** `http_response_code($code)`. */
    method SetResponseCode(code: int)
      modifies this
      ensures status == code
      ensures trace == old(trace) && basket == old(basket) && halted == old(halted)
    {
      status := code;
    }

    /** `$basket->result = $v`. */
    method SetBasketResult(v: Value)
      modifies this
      ensures basket == v
      ensures trace == old(trace) && status == old(status) && halted == old(halted)
    {
      basket := v;
    }

    /** `Program::render()`. */
    method RenderResponse()
      modifies this
      ensures trace == old(trace) + [Render]
      ensures status == old(status) && basket == old(basket) && halted == old(halted)
    {
      trace := trace + [Render];
    }

    /** `echo $text`. */
    method EchoText(text: string)
      modifies this
      ensures trace == old(trace) + [Echo(text)]
      ensures status == old(status) && basket == old(basket) && halted == old(halted)
    {
      trace := trace + [Echo(text)];
    }
  }

  function Snapshot(node: Node, rt: Runtime): State
    reads node, rt
  {
    State(node.props, rt.status, rt.basket, rt.trace, rt.halted)
  }

  /** `Lynq\Router\Node`; `props` holds every property, declared or dynamic. */
  class Node {
    var props: map<string, Value>

    constructor ()
      ensures props == InitialProps
      ensures Get("aleph") == Null && Get("_appConfig") == Null && Get("_router") == Null
      ensures forall key :: key !in InitialProps ==> Get(key) == Null
    {
      props := InitialProps;
    }

    /** `get($key)`. */
    function Get(key: string): Value
      reads this
    {
      PropGet(props, key)
    }

    /** `set($key, $value)`: afterwards `get` returns `value` for `key` and is unchanged elsewhere. */
    method Set(key: string, value: Value)
      modifies this
      ensures Get(key) == value
      ensures forall k :: k != key ==> Get(k) == old(Get(k))
      ensures props == old(props)[key := value]
    {
      props := props[key := value];
    }

    /** `router($config)`: store the configuration, then route if the router file exists. */
    method Router(config: AppConfig, routerFileExists: bool, rt: Runtime, req: Request)
      requires !rt.halted
      modifies this, rt
      ensures Snapshot(this, rt) == RouterSpec(old(Snapshot(this, rt)), config, routerFileExists, req)
    {
      props := props["_appConfig" := ConfigValue(config)];
      if routerFileExists {
        AppRoute(rt, req);
      } else {
        rt.EchoText(MissingFileMessage(config.routerPath));
      }
    }

    /**
     * The `authguard` loop of `_appRoute()`: guards run from index 0 upward and
     * the first one that answers false ends the process.
     */
    method RunAuthguards(rt: Runtime, guards: seq<string>, pathArg: Option<string>,
                         canActivate: (string, Option<string>) -> bool) returns (allowed: bool)
      requires !rt.halted
      modifies rt
      ensures allowed == FirstDenied(guards, pathArg, canActivate).None?
      ensures rt.trace == old(rt.trace) + GuardPhase(guards, pathArg, canActivate)
      ensures rt.halted == !allowed
      ensures rt.status == old(rt.status) && rt.basket == old(rt.basket)
    {
      ghost var t0 := rt.trace;
      for i := 0 to |guards|
        invariant rt.trace == t0 + GuardCalls(guards[..i], pathArg)
        invariant FirstDenied(guards[..i], pathArg, canActivate).None?
        invariant !rt.halted && rt.status == old(rt.status) && rt.basket == old(rt.basket)
      {
        var ok := rt.CallGuard(guards[i], pathArg, canActivate);
        GuardCallsStep(guards, i, pathArg);
        assert rt.trace == t0 + GuardCalls(guards[..i + 1], pathArg);
        if !ok {
          rt.Exit();
          GuardPhaseAtRefusal(guards, i, pathArg, canActivate);
          FirstDeniedFound(guards, i, pathArg, canActivate);
          return false;
        }
        FirstDeniedStillNone(guards, i, pathArg, canActivate);
      }
      GuardPhaseAllPass(guards, pathArg, canActivate);
      assert guards[..|guards|] == guards;
      return true;
    }

    /** `_appRoute()`. */
    method AppRoute(rt: Runtime, req: Request)
      requires !rt.halted
      modifies this, rt
      ensures Snapshot(this, rt) == AppRouteSpec(old(Snapshot(this, rt)), req)
    {
      ghost var s0 := Snapshot(this, rt);
      var url := NormalizeUrl(req.query);
      var found := Lookup(req.table, url);
      if !LooselyNull(found) {
        var d := found.value;
        ghost var redirect := if d.redirectTo.Some? then [Redirect(d.redirectTo.value)] else [];
        if d.redirectTo.Some? {
          rt.IssueRedirect(d.redirectTo.value, req.redirectExits);
          if rt.halted {
            assert Snapshot(this, rt) == s0.(trace := s0.trace + redirect, halted := true);
            return;
          }
        }
        assert rt.trace == s0.trace + redirect && !rt.halted;
        ghost var guardTrace := GuardPhase(Guards(d), d.path, req.canActivate);
        ghost var denied := FirstDenied(Guards(d), d.path, req.canActivate).Some?;
        if d.authguard.Some? {
          var allowed := RunAuthguards(rt, d.authguard.value, d.path, req.canActivate);
          if !allowed {
            assert Snapshot(this, rt) == s0.(trace := s0.trace + redirect + guardTrace, halted := true);
            return;
          }
        }
        assert !denied && rt.trace == s0.trace + redirect + guardTrace;
        ControllerAndRender(rt, d);
      } else {
        rt.SetResponseCode(404);
        rt.SetBasketResult(NotFoundBody);
        rt.RenderResponse();
      }
    }

    /** The end of `_appRoute()` once every guard has passed. */
    method ControllerAndRender(rt: Runtime, d: RouteDescriptor)
      modifies this, rt
      ensures var a := ControllerValue(d);
              var routerArg := AssignAtZero(old(Get("_router")), a);
              && props == old(props)["aleph" := a]["_router" := routerArg]
              && rt.trace == old(rt.trace) + [StoreRoute(d), Construct(ClassName(d), routerArg), Render]
      ensures rt.status == old(rt.status) && rt.basket == old(rt.basket) && rt.halted == old(rt.halted)
    {
      var a := ControllerValue(d);
      props := props["aleph" := a];
      var routerArg := AssignAtZero(Get("_router"), a);
      props := props["_router" := routerArg];
      rt.StoreRoute(d);
      rt.ConstructController(ClassName(d), routerArg);
      rt.RenderResponse();
    }
  }
}
