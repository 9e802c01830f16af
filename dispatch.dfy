/**
 * The `to` dispatcher as a function of the handle's state: input
 * normalisation, the choice of handler, parent-first re-entry, the handler
 * call, the no-op stamp, and `navigate` with its cached navigator map.
 */
module Dispatcher {
  import opened Wrappers
  import opened Strings
  import opened Handlers
  import opened Controllers
  import opened Routes
  import opened Navigators

  /** The first argument of `to`: a path (or navigator name) with an optional subroute, or a location object. */
  datatype Input =
    | Path(route: string, subroute: Option<string>)
    | Location(pathname: string, hash: Option<string>)

  /** The browser location, as plain fields. */
  datatype Browser = Browser(pathname: string, hash: string, href: string)

  /** What is fixed for one handle: the controllers and `options.rootPath`. */
  datatype Env = Env(controllers: Controller, rootPath: string)

  /** What a dispatch can change: the table's stamps, the navigator cache, the location, and the handlers called so far. */
  datatype State = State(routes: Table, navigators: Option<map<string, NavTarget>>, location: Browser, trace: seq<HandlerId>)

  /** How a call to `to` ends: normally, with the TypeError of stamping a string entry, or out of call stack. */
  datatype Status = Completed | TypeError | StackOverflow

  datatype Outcome = Outcome(state: State, status: Status)

  /** The choice made before any handler runs, with the table as stamped so far. */
  datatype Plan = Run(handler: Handler, parentFirst: bool, table: Table) | Throws

  /**
   * The route and subroute of a call: a location object gives its pathname
   * and its hash with the first '#' removed, or no subroute for an empty hash.
   */
  function Normalize(input: Input): (r: (string, Option<string>))
    ensures input.Path? ==> r == (input.route, input.subroute)
    ensures input.Location? ==> r.0 == input.pathname
    ensures input.Location? ==> (r.1.Some? <==> input.hash.Some? && input.hash.value != "")
    ensures input.Location? && r.1.Some? ==> r.1.value == RemoveFirst(input.hash.value, '#')
    ensures input.Location? && r.1.Some? && input.hash.value[0] == '#' ==> r.1.value == input.hash.value[1..]
  {
    match input
    case Path(route, subroute) => (route, subroute)
    case Location(pathname, hash) =>
      (pathname, if hash.Some? && hash.value != "" then Some(RemoveFirst(hash.value, '#')) else None)
  }

  /** What `assignHandler` puts in `handler` for a truthy `handler` property. */
  function EndpointHandler(ctrl: Controller, ep: Endpoint, current: Handler): Handler
  {
    match ep
    case Ref(path) => ResolveRef(ctrl, path, current)
    case Fn(h) => h
  }

  /** `subroutes['#' + subroute]` when `subroute` is a non-empty string and that value is truthy. */
  function MatchedSubroute(subs: seq<(string, Subroute)>, subroute: Option<string>): (r: Option<Subroute>)
    ensures r.Some? <==>
      && subroute.Some? && subroute.value != ""
      && 0 <= KeyIndex(subs, "#" + subroute.value) && SubrouteTruthy(subs[KeyIndex(subs, "#" + subroute.value)].1)
    ensures r.Some? ==> r.value == subs[KeyIndex(subs, "#" + subroute.value)].1
    ensures r.Some? ==> subroute.Some? && subroute.value != "" && ("#" + subroute.value, r.value) in subs
    ensures r.Some? ==> SubrouteTruthy(r.value)
  {
    if subroute.None? || subroute.value == "" then None
    else
      var j := KeyIndex(subs, "#" + subroute.value);
      if 0 <= j && SubrouteTruthy(subs[j].1) then Some(subs[j].1) else None
  }

  /**
   * The handler a matched subroute assigns, directly or through its own
   * `handler` property; `None` when it assigns none.
   */
  function SubrouteHandler(ctrl: Controller, sub: Subroute, current: Handler): Option<Handler>
  {
    match sub
    case SubFn(id) => Some(User(id))
    case SubRef(path) => Some(ResolveRef(ctrl, path, current))
    case SubConfig(handler, _) =>
      if handler.Some? && EndpointTruthy(handler.value) then Some(EndpointHandler(ctrl, handler.value, current))
      else None
  }

  /**
   * The handler chosen for `routePath`, whether the parent route must run
   * first, and the table after the stamp made before the call.
   */
  function Resolve(ctrl: Controller, t: Table, route: string, routePath: string, subroute: Option<string>): (p: Plan)
    ensures p.Run? ==> Erase(p.table) == Erase(t)
    ensures Lookup(t, routePath).None? ==> p == Run(Fallback(route), false, t)
    ensures p.Throws? <==> Lookup(t, routePath).Some? && Lookup(t, routePath).value.Reference?
    ensures p.Run? && p.parentFirst ==> p.table == t && Lookup(t, routePath).value.Config?
  {
    var fallback := Fallback(route);
    match Lookup(t, routePath)
    case None => Run(fallback, false, t)
    case Some(entry) =>
      match entry
      case Reference(_) => Throws
      case Direct(id, _) => Run(User(id), false, SetHandler(t, routePath, User(id)))
      case Config(handler, _, subs) =>
        match MatchedSubroute(subs, subroute)
        case Some(sub) =>
          var h := SubrouteHandler(ctrl, sub, fallback);
          if h.Some? then Run(h.value, true, t) else Run(fallback, false, t)
        case None =>
          if handler.Some? && EndpointTruthy(handler.value) then
            var h := EndpointHandler(ctrl, handler.value, fallback);
            Run(h, false, SetHandler(t, routePath, h))
          else Run(fallback, false, t)
  }

  /** `(hash ? hash : '')`. */
  function HashText(hash: Option<string>): string
  {
    if hash.Some? then hash.value else ""
  }

  /** The navigator map `navigate` uses: the cached one, or a freshly built one. */
  function NavigatorsOf(s: State): map<string, NavTarget>
  {
    if s.navigators.Some? then s.navigators.value else NavigatorMap(s.routes)
  }

  /**
   * One call `to(input)` with `depth` frames of call stack left. Every nested
   * call takes a frame; none left is a stack overflow.
   */
  function Dispatch(env: Env, s: State, input: Input, depth: nat): (o: Outcome)
    decreases depth, 1
  {
    if depth == 0 then Outcome(s, StackOverflow)
    else
      var (route, subroute) := Normalize(input);
      DispatchPath(env, s, route, StripRoot(route, env.rootPath), subroute, depth)
  }

  /**
   * The rest of `to` once the route, its table path and the subroute are
   * known: choose the handler, run the parent route first if asked, call
   * the handler, and stamp the entry with the no-op.
   */
  function DispatchPath(env: Env, s: State, route: string, routePath: string, subroute: Option<string>, depth: nat): (o: Outcome)
    requires depth > 0
    decreases depth, 0
  {
    match Resolve(env.controllers, s.routes, route, routePath, subroute)
    case Throws => Outcome(s, TypeError)
    case Run(handler, parentFirst, stamped) =>
      var s1 := s.(routes := stamped);
      var o1 := if parentFirst then Dispatch(env, s1, Path(route, None), depth - 1) else Outcome(s1, Completed);
      if o1.status != Completed then o1
      else
        var o2 := Invoke(env, o1.state, handler, depth - 1);
        if o2.status != Completed then o2
        else Outcome(o2.state.(routes := Consume(o2.state.routes, routePath)), Completed)
  }

  /** Calling `handler(go, target)`. */
  function Invoke(env: Env, s: State, handler: Handler, depth: nat): (o: Outcome)
    decreases depth, 3
  {
    match handler
    case Noop => Outcome(s, Completed)
    case User(id) => Outcome(s.(trace := s.trace + [id]), Completed)
    case Fallback(route) => Navigate(env, s, route, depth)
  }

  /**
   * `navigate(name, go)`: build and cache the navigator map if there is none,
   * then dispatch in place when already at the target path, or redirect.
   */
  function Navigate(env: Env, s: State, name: string, depth: nat): (o: Outcome)
    decreases depth, 2
  {
    var navs := NavigatorsOf(s);
    var s1 := s.(navigators := Some(navs));
    if name !in navs then Outcome(s1, Completed)
    else
      var target := navs[name];
      if s.location.pathname == env.rootPath + target.pathname then
        var o := Dispatch(env, s1, Location(target.pathname, target.hash), depth);
        if o.status == Completed && target.hash.Some? && target.hash.value != "" then
          Outcome(o.state.(location := o.state.location.(hash := target.hash.value)), Completed)
        else o
      else
        Outcome(s1.(location := s1.location.(href := env.rootPath + target.pathname + HashText(target.hash))), Completed)
  }

  /**
   * What a dispatch never changes, and how it may change the rest: the
   * table keeps its entries (only stamps change), handlers are only ever
   * appended, the browser stays on its page, and the navigator cache is
   * only ever filled with the map of the table.
   */
  predicate Frame(s: State, t: State)
  {
    && Erase(t.routes) == Erase(s.routes)
    && s.trace <= t.trace
    && t.location.pathname == s.location.pathname
    && (t.navigators == s.navigators || (s.navigators.None? && t.navigators == Some(NavigatorMap(s.routes))))
  }

  lemma FrameTrans(s: State, t: State, u: State)
    requires Frame(s, t) && Frame(t, u)
    ensures Frame(s, u)
  {
    NavigatorMapDependsOnShape(t.routes, s.routes);
  }

  /** Every call of `to` stays within the frame. */
  lemma {:induction false} DispatchFrame(env: Env, s: State, input: Input, depth: nat)
    ensures Frame(s, Dispatch(env, s, input, depth).state)
    ensures Erase(Dispatch(env, s, input, depth).state.routes) == Erase(s.routes)
    decreases depth, 1
  {
    if depth > 0 {
      var (route, subroute) := Normalize(input);
      DispatchPathFrame(env, s, route, StripRoot(route, env.rootPath), subroute, depth);
    }
  }

  lemma {:induction false} DispatchPathFrame(env: Env, s: State, route: string, routePath: string, subroute: Option<string>, depth: nat)
    requires depth > 0
    ensures Frame(s, DispatchPath(env, s, route, routePath, subroute, depth).state)
    ensures Erase(DispatchPath(env, s, route, routePath, subroute, depth).state.routes) == Erase(s.routes)
    decreases depth, 0
  {
    match Resolve(env.controllers, s.routes, route, routePath, subroute)
    case Throws =>
    case Run(handler, parentFirst, stamped) =>
      var s1 := s.(routes := stamped);
      NavigatorMapDependsOnShape(stamped, s.routes);
      assert Frame(s, s1);
      var o1 := if parentFirst then Dispatch(env, s1, Path(route, None), depth - 1) else Outcome(s1, Completed);
      var o2 := Invoke(env, o1.state, handler, depth - 1);
      DispatchSteps(env, s, route, routePath, subroute, depth, handler, parentFirst, s1, o1, o2);
      if parentFirst {
        DispatchFrame(env, s1, Path(route, None), depth - 1);
      }
      FrameTrans(s, s1, o1.state);
      InvokeFrame(env, o1.state, handler, depth - 1);
      FrameTrans(s, o1.state, o2.state);
      var last := o2.state.(routes := Consume(o2.state.routes, routePath));
      NavigatorMapDependsOnShape(last.routes, o2.state.routes);
      assert Frame(o2.state, last);
      FrameTrans(s, o2.state, last);
  }

  /** A handler call stays within the frame. */
  lemma {:induction false} InvokeFrame(env: Env, s: State, handler: Handler, depth: nat)
    ensures Frame(s, Invoke(env, s, handler, depth).state)
    ensures Erase(Invoke(env, s, handler, depth).state.routes) == Erase(s.routes)
    decreases depth, 3
  {
    match handler
    case Noop =>
    case User(id) =>
    case Fallback(route) => NavigateFrame(env, s, route, depth);
  }

  /** `navigate` stays within the frame and leaves the navigator map cached. */
  lemma {:induction false} NavigateFrame(env: Env, s: State, name: string, depth: nat)
    ensures Frame(s, Navigate(env, s, name, depth).state)
    ensures Navigate(env, s, name, depth).state.navigators == Some(NavigatorsOf(s))
    decreases depth, 2
  {
    var navs := NavigatorsOf(s);
    var s1 := s.(navigators := Some(navs));
    assert Frame(s, s1);
    if name in navs {
      var target := navs[name];
      if s.location.pathname == env.rootPath + target.pathname {
        var o := Dispatch(env, s1, Location(target.pathname, target.hash), depth);
        DispatchFrame(env, s1, Location(target.pathname, target.hash), depth);
        FrameTrans(s, s1, o.state);
        if o.status == Completed && target.hash.Some? && target.hash.value != "" {
          assert Frame(o.state, o.state.(location := o.state.location.(hash := target.hash.value)));
        }
      } else {
        assert Frame(s1, s1.(location := s1.location.(href := env.rootPath + target.pathname + HashText(target.hash))));
      }
    }
  }

  /**
   * The steps of a dispatch that resolved to a handler, one outcome at a
   * time: the parent-first call, the handler call, then the no-op stamp.
   */
  lemma DispatchSteps(env: Env, s: State, route: string, routePath: string, subroute: Option<string>, depth: nat,
                      handler: Handler, parentFirst: bool, s1: State, o1: Outcome, o2: Outcome)
    requires depth > 0
    requires Resolve(env.controllers, s.routes, route, routePath, subroute) == Run(handler, parentFirst, s1.routes)
    requires s1 == s.(routes := s1.routes)
    requires o1 == if parentFirst then Dispatch(env, s1, Path(route, None), depth - 1) else Outcome(s1, Completed)
    requires o2 == Invoke(env, o1.state, handler, depth - 1)
    ensures o1.status != Completed ==> DispatchPath(env, s, route, routePath, subroute, depth) == o1
    ensures o1.status == Completed && o2.status != Completed ==> DispatchPath(env, s, route, routePath, subroute, depth) == o2
    ensures o1.status == Completed && o2.status == Completed ==>
      DispatchPath(env, s, route, routePath, subroute, depth) == Outcome(o2.state.(routes := Consume(o2.state.routes, routePath)), Completed)
  {
  }

  /** Lines 200-205 of `to`: call the handler, then, if it returned, stamp the entry with the no-op. */
  function AfterCall(env: Env, s: State, handler: Handler, routePath: string, depth: nat): Outcome
  {
    var o := Invoke(env, s, handler, depth);
    if o.status != Completed then o else Outcome(o.state.(routes := Consume(o.state.routes, routePath)), Completed)
  }

  /** A dispatch that resolved to a handler ends as its parent-first call, or as the handler call and stamp after it. */
  lemma PathOutcome(env: Env, s: State, route: string, routePath: string, subroute: Option<string>, depth: nat,
                    handler: Handler, parentFirst: bool, s1: State, o1: Outcome, t: State, status: Status)
    requires depth > 0
    requires Resolve(env.controllers, s.routes, route, routePath, subroute) == Run(handler, parentFirst, s1.routes)
    requires s1 == s.(routes := s1.routes)
    requires o1 == if parentFirst then Dispatch(env, s1, Path(route, None), depth - 1) else Outcome(s1, Completed)
    requires o1.status != Completed ==> Outcome(t, status) == o1
    requires o1.status == Completed ==> Outcome(t, status) == AfterCall(env, o1.state, handler, routePath, depth - 1)
    ensures Outcome(t, status) == DispatchPath(env, s, route, routePath, subroute, depth)
  {
    DispatchSteps(env, s, route, routePath, subroute, depth, handler, parentFirst, s1, o1, Invoke(env, o1.state, handler, depth - 1));
  }
}
