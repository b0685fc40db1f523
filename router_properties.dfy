/**
 * What one dispatch guarantees, stated over `AppRouteSpec` and `RouterSpec`
 * (which `Node.AppRoute` and `Node.Router` are proved to implement).
 */
module RouterProperties {
  import opened Wrappers
  import opened PhpValues
  import opened Router

  /** The effects one `_appRoute()` adds to the trace. */
  function Emitted(s: State, req: Request): seq<Effect> {
    AppRouteSpec(s, req).trace[|s.trace|..]
  }

  /** How often `e` occurs in `es`. */
  function Count(e: Effect, es: seq<Effect>): nat {
    if es == [] then 0 else (if es[0] == e then 1 else 0) + Count(e, es[1..])
  }

  /** The names of the guards called in `es`, in order. */
  function CalledGuards(es: seq<Effect>): seq<string> {
    if es == [] then []
    else (if es[0].GuardCall? then [es[0].guard] else []) + CalledGuards(es[1..])
  }

  /** The route `req` resolves to, when it resolves to one. */
  predicate Resolves(req: Request, d: RouteDescriptor) {
    var found := Lookup(req.table, NormalizeUrl(req.query));
    !LooselyNull(found) && found.value == d
  }

  lemma {:induction false} CountAppend(e: Effect, a: seq<Effect>, b: seq<Effect>)
    ensures Count(e, a + b) == Count(e, a) + Count(e, b)
  {
    if a == [] {
      assert a + b == b;
    } else {
      assert (a + b)[1..] == a[1..] + b;
      CountAppend(e, a[1..], b);
    }
  }

  lemma {:induction false} CountAbsent(e: Effect, es: seq<Effect>)
    requires forall j :: 0 <= j < |es| ==> es[j] != e
    ensures Count(e, es) == 0
  {
    if es != [] {
      CountAbsent(e, es[1..]);
    }
  }

  lemma {:induction false} CalledGuardsAppend(a: seq<Effect>, b: seq<Effect>)
    ensures CalledGuards(a + b) == CalledGuards(a) + CalledGuards(b)
  {
    if a == [] {
      assert a + b == b;
    } else {
      assert (a + b)[1..] == a[1..] + b;
      CalledGuardsAppend(a[1..], b);
    }
  }

  lemma {:induction false} CalledGuardsNone(es: seq<Effect>)
    requires forall j :: 0 <= j < |es| ==> !es[j].GuardCall?
    ensures CalledGuards(es) == []
  {
    if es != [] {
      CalledGuardsNone(es[1..]);
    }
  }

  /** Every guard call in `es` is given `pathArg`. */
  predicate GuardArgs(es: seq<Effect>, pathArg: Option<string>) {
    forall j :: 0 <= j < |es| && es[j].GuardCall? ==> es[j].pathArg == pathArg
  }

  lemma GuardArgsAppend(a: seq<Effect>, b: seq<Effect>, pathArg: Option<string>)
    requires GuardArgs(a, pathArg) && GuardArgs(b, pathArg)
    ensures GuardArgs(a + b, pathArg)
  {
    forall j | 0 <= j < |a + b| && (a + b)[j].GuardCall?
      ensures (a + b)[j].pathArg == pathArg
    {
      if j >= |a| {
        assert (a + b)[j] == b[j - |a|];
      }
    }
  }

  /** Nothing in `es` builds a controller or renders. */
  predicate NoOutput(es: seq<Effect>) {
    forall j :: 0 <= j < |es| ==> !es[j].Construct? && es[j] != Render
  }

  /** Every effect in `es` is a redirect. */
  predicate OnlyRedirects(es: seq<Effect>) {
    forall j :: 0 <= j < |es| ==> es[j].Redirect?
  }

  lemma NoOutputAppend(a: seq<Effect>, b: seq<Effect>)
    requires NoOutput(a) && NoOutput(b)
    ensures NoOutput(a + b)
  {
    forall j | 0 <= j < |a + b|
      ensures !(a + b)[j].Construct? && (a + b)[j] != Render
    {
      if j >= |a| {
        assert (a + b)[j] == b[j - |a|];
      }
    }
  }

  /** Redirects, then guard calls, then `die()`: no output, and exactly the listed guards called. */
  lemma DeniedEvents(redirect: seq<Effect>, guards: seq<string>, pathArg: Option<string>)
    requires OnlyRedirects(redirect)
    ensures var es := redirect + GuardCalls(guards, pathArg) + [Die];
            && NoOutput(es) && Count(Render, es) == 0
            && CalledGuards(es) == guards
  {
    var calls := GuardCalls(guards, pathArg);
    NoOutputAppend(redirect, calls);
    NoOutputAppend(redirect + calls, [Die]);
    CountAbsent(Render, redirect + calls + [Die]);
    GuardCallsNameGuards(guards, pathArg);
    CalledGuardsNone(redirect);
    CalledGuardsNone([Die]);
    CalledGuardsAppend(redirect, calls);
    CalledGuardsAppend(redirect + calls, [Die]);
  }

  /** Redirects, then guard calls, then effects other than a render, then one render: one render in all. */
  lemma AllowedEvents(redirect: seq<Effect>, guards: seq<string>, pathArg: Option<string>, front: seq<Effect>)
    requires OnlyRedirects(redirect)
    requires forall j :: 0 <= j < |front| ==> front[j] != Render
    ensures NoOutput(redirect + GuardCalls(guards, pathArg))
    ensures Count(Render, redirect + GuardCalls(guards, pathArg) + front + [Render]) == 1
  {
    var head := redirect + GuardCalls(guards, pathArg);
    NoOutputAppend(redirect, GuardCalls(guards, pathArg));
    CountAbsent(Render, head);
    CountAbsent(Render, front);
    CountAppend(Render, head, front);
    CountAppend(Render, head + front, [Render]);
    assert Count(Render, [Render]) == 1 + Count(Render, []);
  }

  /** Redirects, a guard phase, then a tail with no guard calls: the phase's guards, each with `pathArg`. */
  lemma DispatchGuards(redirect: seq<Effect>, phase: seq<Effect>, tail: seq<Effect>, pathArg: Option<string>)
    requires OnlyRedirects(redirect) && GuardArgs(phase, pathArg)
    requires forall j :: 0 <= j < |tail| ==> !tail[j].GuardCall?
    ensures CalledGuards(redirect + phase + tail) == CalledGuards(phase)
    ensures GuardArgs(redirect + phase + tail, pathArg)
  {
    CalledGuardsNone(redirect);
    CalledGuardsNone(tail);
    CalledGuardsAppend(redirect, phase);
    CalledGuardsAppend(redirect + phase, tail);
    GuardArgsAppend(redirect, phase, pathArg);
    GuardArgsAppend(redirect + phase, tail, pathArg);
  }

  /** The guard-call trace names exactly the guards it was built from, in order. */
  lemma {:induction false} GuardCallsNameGuards(guards: seq<string>, pathArg: Option<string>)
    ensures CalledGuards(GuardCalls(guards, pathArg)) == guards
    decreases |guards|
  {
    if guards != [] {
      var init := guards[..|guards| - 1];
      GuardCallsNameGuards(init, pathArg);
      CalledGuardsAppend(GuardCalls(init, pathArg), [GuardCall(guards[|guards| - 1], pathArg)]);
      assert init + [guards[|guards| - 1]] == guards;
    }
  }

  /** Normalising an already normalised URL changes nothing. */
  lemma NormalizeIdempotent(query: Option<string>)
    ensures NormalizeUrl(Some(NormalizeUrl(query))) == NormalizeUrl(query)
  {
    var url := NormalizeUrl(query);
    if url != RootUrl {
      assert url == [] || url[|url| - 1] != '/';
      assert TrimTrailingSlashes(url) == url;
    }
  }

  /** A URL made only of slashes, other than "/" itself, normalises to the empty string ("//" gives ""). */
  lemma NormalizeOnlySlashes(s: string)
    requires s != RootUrl
    requires forall j :: 0 <= j < |s| ==> s[j] == '/'
    ensures NormalizeUrl(Some(s)) == ""
  {
  }

  /** Normalisation only removes trailing slashes: it keeps a prefix of the input and folds no case. */
  lemma NormalizeKeepsPrefix(s: string)
    ensures var url := NormalizeUrl(Some(s));
            |url| <= |s| && url == s[..|url|] && forall j :: |url| <= j < |s| ==> s[j] == '/'
  {
  }

  /** An unmapped URL gives 404 and the error body, calls no guard, builds no controller, and renders once. */
  lemma UnmappedRouteIs404(s: State, req: Request)
    requires LooselyNull(Lookup(req.table, NormalizeUrl(req.query)))
    ensures var s' := AppRouteSpec(s, req);
            && s'.status == 404
            && s'.basket == Arr(map["error" := Str("The controller does not exist")])
            && s'.props == s.props && s'.halted == s.halted
            && Emitted(s, req) == [Render]
            && CalledGuards(Emitted(s, req)) == []
            && forall j :: 0 <= j < |Emitted(s, req)| ==> !Emitted(s, req)[j].Construct?
  {
    assert (s.trace + [Render])[|s.trace|..] == [Render];
    CalledGuardsNone([Render]);
  }

  /** A route with `redirectTo` issues the redirect before anything else, in particular before any guard. */
  lemma RedirectPrecedesGuards(s: State, req: Request, d: RouteDescriptor)
    requires Resolves(req, d) && d.redirectTo.Some?
    ensures var es := Emitted(s, req);
            && |es| > 0 && es[0] == Redirect(d.redirectTo.value)
            && (forall j :: 0 <= j < |es| && es[j].GuardCall? ==> 0 < j)
            && (req.redirectExits ==> es == [Redirect(d.redirectTo.value)] && AppRouteSpec(s, req).halted)
  {
    var redirect := [Redirect(d.redirectTo.value)];
    var s' := AppRouteSpec(s, req);
    if req.redirectExits {
      assert s'.trace == s.trace + redirect;
    } else {
      var rest := s'.trace[|s.trace| + 1..];
      assert s'.trace == s.trace + redirect + rest;
    }
    assert Emitted(s, req)[0] == s'.trace[|s.trace|];
  }

  /** How many guards run: up to and including the first refusal, or all of them. */
  function GuardsRun(d: RouteDescriptor, req: Request): nat {
    match FirstDenied(Guards(d), d.path, req.canActivate)
    case Some(k) => k + 1
    case None => |Guards(d)|
  }

  /** What follows the guard phase: nothing after a refusal, else the controller tail. */
  function ControllerEvents(s: State, req: Request, d: RouteDescriptor): seq<Effect> {
    if FirstDenied(Guards(d), d.path, req.canActivate).Some? then [] else ControllerTail(s.props, d)
  }

  lemma SuffixAfter(t: seq<Effect>, x: seq<Effect>)
    ensures (t + x)[|t|..] == x
  {
  }

  /** The new state when guard k refuses. */
  lemma DeniedState(s: State, req: Request, d: RouteDescriptor, k: nat)
    requires Resolves(req, d) && !(d.redirectTo.Some? && req.redirectExits)
    requires FirstDenied(Guards(d), d.path, req.canActivate) == Some(k)
    ensures k < |Guards(d)|
    ensures AppRouteSpec(s, req)
            == s.(trace := s.trace + (RedirectEvents(d) + GuardCalls(Guards(d)[..k + 1], d.path) + [Die]), halted := true)
  {
  }

  /** The new state when every guard passes. */
  lemma AllowedState(s: State, req: Request, d: RouteDescriptor)
    requires Resolves(req, d) && !(d.redirectTo.Some? && req.redirectExits)
    requires FirstDenied(Guards(d), d.path, req.canActivate).None?
    ensures AppRouteSpec(s, req)
            == s.(props := s.props["aleph" := ControllerValue(d)]["_router" := RouterArg(s.props, d)],
                  trace := s.trace + (RedirectEvents(d) + GuardCalls(Guards(d), d.path) + ControllerTail(s.props, d)))
  {
  }

  /** The trace of a resolved route whose redirect, if any, does not end the process. */
  lemma EmittedForRoute(s: State, req: Request, d: RouteDescriptor)
    requires Resolves(req, d) && !(d.redirectTo.Some? && req.redirectExits)
    ensures Emitted(s, req) == RedirectEvents(d) + GuardPhase(Guards(d), d.path, req.canActivate) + ControllerEvents(s, req, d)
  {
    match FirstDenied(Guards(d), d.path, req.canActivate)
    case Some(k) =>
      DeniedState(s, req, d, k);
      SuffixAfter(s.trace, RedirectEvents(d) + GuardCalls(Guards(d)[..k + 1], d.path) + [Die]);
      assert RedirectEvents(d) + GuardCalls(Guards(d)[..k + 1], d.path) + [Die]
          == RedirectEvents(d) + GuardPhase(Guards(d), d.path, req.canActivate) + [];
    case None =>
      AllowedState(s, req, d);
      SuffixAfter(s.trace, RedirectEvents(d) + GuardCalls(Guards(d), d.path) + ControllerTail(s.props, d));
  }

  /** The guard phase calls the guards up to the first refusal, in order, each with `pathArg`. */
  lemma GuardPhaseCalls(guards: seq<string>, pathArg: Option<string>, canActivate: (string, Option<string>) -> bool)
    ensures var n := match FirstDenied(guards, pathArg, canActivate)
                     case Some(k) => k + 1
                     case None => |guards|;
            n <= |guards| && CalledGuards(GuardPhase(guards, pathArg, canActivate)) == guards[..n]
    ensures GuardArgs(GuardPhase(guards, pathArg, canActivate), pathArg)
  {
    match FirstDenied(guards, pathArg, canActivate)
    case Some(k) =>
      GuardCallsNameGuards(guards[..k + 1], pathArg);
      CalledGuardsNone([Die]);
      CalledGuardsAppend(GuardCalls(guards[..k + 1], pathArg), [Die]);
    case None =>
      GuardCallsNameGuards(guards, pathArg);
      assert guards[..|guards|] == guards;
  }

  /**
   * Guards are called strictly in list order from index 0, stopping after the first
   * refusal, and each is given the route's `path` entry, not the request URL.
   */
  lemma GuardsRunInListOrder(s: State, req: Request, d: RouteDescriptor)
    requires Resolves(req, d) && !(d.redirectTo.Some? && req.redirectExits)
    ensures GuardsRun(d, req) <= |Guards(d)|
    ensures CalledGuards(Emitted(s, req)) == Guards(d)[..GuardsRun(d, req)]
    ensures GuardArgs(Emitted(s, req), d.path)
  {
    var redirect := RedirectEvents(d);
    var phase := GuardPhase(Guards(d), d.path, req.canActivate);
    var tail := ControllerEvents(s, req, d);
    EmittedForRoute(s, req, d);
    GuardPhaseCalls(Guards(d), d.path, req.canActivate);
    DispatchGuards(redirect, phase, tail, d.path);
  }

  /**
   * When guard k refuses, the process stops: guards after k are never called, no
   * controller is built, nothing is rendered and the node and response are untouched.
   */
  lemma DeniedGuardTerminates(s: State, req: Request, d: RouteDescriptor, k: nat)
    requires Resolves(req, d) && !(d.redirectTo.Some? && req.redirectExits)
    requires FirstDenied(Guards(d), d.path, req.canActivate) == Some(k)
    ensures var s' := AppRouteSpec(s, req);
            && s'.halted
            && s'.props == s.props && s'.status == s.status && s'.basket == s.basket
    ensures var es := Emitted(s, req);
            && |es| > 0 && es[|es| - 1] == Die
            && CalledGuards(es) == Guards(d)[..k + 1]
            && Count(Render, es) == 0
            && forall j :: 0 <= j < |es| ==> !es[j].Construct?
  {
    var es := RedirectEvents(d) + GuardCalls(Guards(d)[..k + 1], d.path) + [Die];
    DeniedState(s, req, d, k);
    SuffixAfter(s.trace, es);
    DeniedEvents(RedirectEvents(d), Guards(d)[..k + 1], d.path);
  }

  /**
   * When every guard passes (or there are none), the controller class built is the
   * namespace (default `\Api\Controllers\`) followed by the controller name, `aleph`
   * holds the controller name, and so does `_router[0]` when `_router` is unset, false
   * or an array; a string `_router` instead gets the name's first character at offset 0.
   */
  lemma PassedGuardsBuildController(s: State, req: Request, d: RouteDescriptor)
    requires Resolves(req, d) && !(d.redirectTo.Some? && req.redirectExits)
    requires FirstDenied(Guards(d), d.path, req.canActivate).None?
    ensures var s' := AppRouteSpec(s, req);
            && s'.halted == s.halted
            && PropGet(s'.props, "aleph") == ControllerValue(d)
            && s'.status == s.status && s'.basket == s.basket
    ensures var r0 := PropGet(s.props, "_router");
            var r1 := PropGet(AppRouteSpec(s, req).props, "_router");
            && (r0.Null? || r0 == Bool(false) || r0.Arr? ==> r1.Arr? && Index(r1.entries, "0") == ControllerValue(d))
            && (r0.Str? && d.controller.Some? && d.controller.value != [] ==> r1.Str? && r1.s[0] == d.controller.value[0])
    ensures var es := Emitted(s, req);
            && |es| >= 2
            && es[|es| - 2].Construct?
            && es[|es| - 2].className == d.controllerNamespace.GetOr("\\Api\\Controllers\\") + d.controller.GetOr("")
            && es[|es| - 2].routerArg == PropGet(AppRouteSpec(s, req).props, "_router")
            && (forall j :: 0 <= j < |es| - 2 ==> !es[j].Construct?)
            && es[|es| - 1] == Render
  {
    var head := RedirectEvents(d) + GuardCalls(Guards(d), d.path);
    var es := head + ControllerTail(s.props, d);
    AllowedState(s, req, d);
    SuffixAfter(s.trace, es);
    AllowedEvents(RedirectEvents(d), Guards(d), d.path, []);
    forall j | 0 <= j < |es| - 2
      ensures !es[j].Construct?
    {
      if j < |head| {
        assert es[j] == head[j];
      }
    }
  }

  /** Every run that does not stop the process renders exactly once; a stopped run never renders. */
  lemma RenderOnceUnlessTerminated(s: State, req: Request)
    requires !s.halted
    ensures Count(Render, Emitted(s, req)) == if AppRouteSpec(s, req).halted then 0 else 1
  {
    var found := Lookup(req.table, NormalizeUrl(req.query));
    if LooselyNull(found) {
      UnmappedRouteIs404(s, req);
      assert Count(Render, [Render]) == 1 + Count(Render, []);
    } else {
      var d := found.value;
      var redirect := RedirectEvents(d);
      if d.redirectTo.Some? && req.redirectExits {
        RedirectPrecedesGuards(s, req, d);
        CountAbsent(Render, redirect);
      } else {
        match FirstDenied(Guards(d), d.path, req.canActivate)
        case Some(k) =>
          DeniedGuardTerminates(s, req, d, k);
        case None =>
          var front := [StoreRoute(d), Construct(ClassName(d), RouterArg(s.props, d))];
          AllowedState(s, req, d);
          assert ControllerTail(s.props, d) == front + [Render];
          SuffixAfter(s.trace, redirect + GuardCalls(Guards(d), d.path) + (front + [Render]));
          assert redirect + GuardCalls(Guards(d), d.path) + (front + [Render])
              == redirect + GuardCalls(Guards(d), d.path) + front + [Render];
          AllowedEvents(redirect, Guards(d), d.path, front);
      }
    }
  }

  /** Without the router file, `router` only stores the configuration and echoes the message: no lookup, no render. */
  lemma MissingRouterFileSkipsDispatch(s: State, config: AppConfig, req: Request)
    ensures var s' := RouterSpec(s, config, false, req);
            && s'.props == s.props["_appConfig" := Obj(map["routerPath" := Str(config.routerPath)])]
            && s'.trace == s.trace + [Echo(MissingFileLead + config.routerPath + MissingFileTail)]
            && s'.status == s.status && s'.basket == s.basket && s'.halted == s.halted
  {
  }

  /** With the router file present, `router` stores the configuration and then dispatches. */
  lemma PresentRouterFileDispatches(s: State, config: AppConfig, req: Request)
    ensures RouterSpec(s, config, true, req) == AppRouteSpec(s.(props := s.props["_appConfig" := ConfigValue(config)]), req)
  {
  }

  /** `GET /person/` with the table `{"/person": PersonController}` builds `\Api\Controllers\PersonController`. */
  lemma PersonRouteExample(s: State, canActivate: (string, Option<string>) -> bool)
    requires "_router" !in s.props
    ensures var d := RouteDescriptor(Some("/person"), Some("PersonController"), None, None, None, {"path", "controller"});
            var req := Request(Some("/person/"), map["/person" := d], canActivate, false);
            Emitted(s, req) == [StoreRoute(d), Construct("\\Api\\Controllers\\PersonController", Arr(map["0" := Str("PersonController")])), Render]
  {
    var d := RouteDescriptor(Some("/person"), Some("PersonController"), None, None, None, {"path", "controller"});
    var req := Request(Some("/person/"), map["/person" := d], canActivate, false);
    assert NormalizeUrl(req.query) == "/person";
    assert ClassName(d) == "\\Api\\Controllers\\PersonController";
    assert AssignAtZero(PropGet(s.props, "_router"), ControllerValue(d)) == Arr(map["0" := Str("PersonController")]);
    var s' := AppRouteSpec(s, req);
    assert s'.trace == s.trace + [StoreRoute(d), Construct(ClassName(d), Arr(map["0" := Str("PersonController")])), Render];
  }

  /**
   * A route entry whose only key holds null is not PHP-null: it is dispatched, with
   * null in `aleph` and `_router[0]` and the bare default namespace as the class.
   */
  lemma NullControllerEntryDispatches(s: State, canActivate: (string, Option<string>) -> bool)
    requires "_router" !in s.props
    ensures var d := RouteDescriptor(None, None, None, None, None, {"controller"});
            var req := Request(Some("/x"), map["/x" := d], canActivate, false);
            var s' := AppRouteSpec(s, req);
            && s'.status == s.status && s'.halted == s.halted
            && PropGet(s'.props, "aleph") == Null
            && Emitted(s, req) == [StoreRoute(d), Construct("\\Api\\Controllers\\", Arr(map["0" := Null])), Render]
  {
    var d := RouteDescriptor(None, None, None, None, None, {"controller"});
    var req := Request(Some("/x"), map["/x" := d], canActivate, false);
    assert NormalizeUrl(req.query) == "/x";
    assert ClassName(d) == "\\Api\\Controllers\\";
    var s' := AppRouteSpec(s, req);
    assert s'.trace == s.trace + [StoreRoute(d), Construct(ClassName(d), Arr(map["0" := Null])), Render];
  }

  /** With guards `[AuthGuard, AdminGuard]` and AuthGuard refusing, AdminGuard is never asked and the process stops. */
  lemma RefusingFirstGuardExample(s: State, canActivate: (string, Option<string>) -> bool)
    requires !canActivate("AuthGuard", Some("admin"))
    ensures var d := RouteDescriptor(Some("admin"), Some("AdminController"), None, Some(["AuthGuard", "AdminGuard"]), None, {"path", "controller", "authguard"});
            var req := Request(Some("/admin"), map["/admin" := d], canActivate, false);
            Emitted(s, req) == [GuardCall("AuthGuard", Some("admin")), Die] && AppRouteSpec(s, req).halted
  {
    var guards := ["AuthGuard", "AdminGuard"];
    assert guards[..0] == [];
    FirstDeniedFound(guards, 0, Some("admin"), canActivate);
    var d := RouteDescriptor(Some("admin"), Some("AdminController"), None, Some(guards), None, {"path", "controller", "authguard"});
    var req := Request(Some("/admin"), map["/admin" := d], canActivate, false);
    assert NormalizeUrl(req.query) == "/admin";
    assert guards[..1] == ["AuthGuard"];
    var s' := AppRouteSpec(s, req);
    assert s'.trace == s.trace + [GuardCall("AuthGuard", Some("admin")), Die];
  }
}
