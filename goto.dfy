/**
 * The handle returned by `go(routes, controllers, options)`: the route table
 * it stamps in place, the navigator cache, the browser location it reads and
 * writes, and the `to` method, each operation proved to do what the
 * functional model in module Dispatcher says.
 */
module GoTo {
  import opened Wrappers
  import opened Strings
  import opened Handlers
  import opened Controllers
  import opened Routes
  import opened Navigators
  import opened Options
  import opened Dispatcher
  import opened DispatchProperties

  /** A supplied `rootPath`, if any, must be a string for `to` to strip it. */
  predicate RootPathIsString(options: Option<OptionMap>)
  {
    IsUndefined(Supplied(options), "rootPath") || Supplied(options)["rootPath"].Str?
  }

  class Go {
    var routes: Table
    const controllers: Controller
    const options: OptionMap
    const rootPath: string
    var navigators: Option<map<string, NavTarget>>
    var location: Browser
    /** The user functions called so far, in order. */
    var trace: seq<HandlerId>

    /** What stays fixed over the handle's life. */
    function Fixed(): Env
    {
      Env(controllers, rootPath)
    }

    /** The handle's state, as the functional model sees it. */
    function Current(): State
      reads this
    {
      State(routes, navigators, location, trace)
    }

    /** The cached navigator map, once there is one, belongs to the current table. */
    ghost predicate Valid()
      reads this
    {
      CacheFresh(Current())
    }

    /**
     * `go(routes, controllers, options)`: defaults are filled in, nothing is
     * dispatched yet and no navigator map is built.
     */
    constructor (routes: Table, controllers: Controller, options: Option<OptionMap>, location: Browser)
      requires RootPathIsString(options)
      ensures Valid()
      ensures this.routes == routes && this.controllers == controllers && this.location == location
      ensures navigators.None? && trace == []
      ensures forall k :: k in this.options <==> k in Supplied(options) || k in DefaultKeys(|Defaults|)
      ensures "rootPath" in this.options && "bindHashClicks" in this.options
      ensures this.options["rootPath"] == Str(rootPath)
      ensures rootPath == if IsUndefined(Supplied(options), "rootPath") then "" else Supplied(options)["rootPath"].s
      ensures IsUndefined(Supplied(options), "bindHashClicks") ==> this.options["bindHashClicks"] == Bool(true)
      ensures forall k :: k in Supplied(options) && !IsUndefined(Supplied(options), k) ==> this.options[k] == Supplied(options)[k]
    {
      var opts := ApplyDefaults(options);
      this.routes := routes;
      this.controllers := controllers;
      this.options := opts;
      this.rootPath := opts["rootPath"].s;
      this.navigators := None;
      this.location := location;
      this.trace := [];
    }

    /**
     * `to(input)` with `depth` frames of call stack left: resolve the
     * handler, run the parent route first when a subroute asks for it, call
     * the handler, then stamp the entry with the no-op.
     */
    method To(input: Input, depth: nat) returns (status: Status)
      modifies this
      ensures Outcome(Current(), status) == Dispatch(Fixed(), old(Current()), input, depth)
      ensures old(Valid()) ==> Valid()
      decreases depth, 1
    {
      ghost var s0 := Current();
      if Valid() {
        CacheStaysFresh(Fixed(), s0, input, depth);
      }
      if depth == 0 {
        return StackOverflow;
      }
      var (route, subroute) := Normalize(input);
      status := Proceed(route, StripRoot(route, rootPath), subroute, depth);
    }

    /**
     * The body of `to` past input normalisation: resolve the handler, run
     * the parent route first when a subroute asks for it, call the handler,
     * then stamp the entry with the no-op.
     */
    method Proceed(route: string, routePath: string, subroute: Option<string>, depth: nat) returns (status: Status)
      requires depth > 0
      modifies this
      ensures Outcome(Current(), status) == DispatchPath(Fixed(), old(Current()), route, routePath, subroute, depth)
      decreases depth, 0
    {
      ghost var s0 := Current();
      var handler, runParentRouteFirst, thrown := AssignHandler(route, routePath, subroute);
      if thrown {
        return TypeError;
      }
      ghost var s1 := Current();
      status := RunParentFirst(route, runParentRouteFirst, depth - 1);
      ghost var o1 := Outcome(Current(), status);
      if status == Completed {
        status := CallAndConsume(handler, routePath, depth - 1);
      }
      PathOutcome(Fixed(), s0, route, routePath, subroute, depth, handler, runParentRouteFirst, s1, o1, Current(), status);
    }

    /** Lines 194-197 of `to`: dispatch the parent route first when asked to. */
    method RunParentFirst(route: string, runParentRouteFirst: bool, depth: nat) returns (status: Status)
      modifies this
      ensures Outcome(Current(), status)
           == if runParentRouteFirst then Dispatch(Fixed(), old(Current()), Path(route, None), depth)
              else Outcome(old(Current()), Completed)
      decreases depth, 2
    {
      status := Completed;
      if runParentRouteFirst {
        status := To(Path(route, None), depth);
      }
    }

    /** Lines 200-205 of `to`: call the handler, then stamp the entry with the no-op. */
    method CallAndConsume(handler: Handler, routePath: string, depth: nat) returns (status: Status)
      modifies this
      ensures Outcome(Current(), status) == AfterCall(Fixed(), old(Current()), handler, routePath, depth)
      decreases depth, 4
    {
      status := Call(handler, depth);
      if status != Completed {
        return;
      }
      routes := Consume(routes, routePath);
    }

    /**
     * The handler `to` settles on before calling it, with the stamp it writes
     * on the entry first; `thrown` when the entry is a string, whose stamp
     * is a TypeError.
     */
    method AssignHandler(route: string, routePath: string, subroute: Option<string>)
      returns (handler: Handler, runParentRouteFirst: bool, thrown: bool)
      modifies this
      ensures thrown ==> Resolve(controllers, old(routes), route, routePath, subroute).Throws? && routes == old(routes)
      ensures !thrown ==> Resolve(controllers, old(routes), route, routePath, subroute) == Run(handler, runParentRouteFirst, routes)
      ensures navigators == old(navigators) && location == old(location) && trace == old(trace)
    {
      handler := Fallback(route);
      runParentRouteFirst := false;
      thrown := false;
      var endPoint := Lookup(routes, routePath);
      if endPoint.Some? {
        match endPoint.value {
          case Reference(_) =>
            thrown := true;
          case Direct(id, _) =>
            handler := User(id);
            routes := SetHandler(routes, routePath, handler);
          case Config(own, _, subs) =>
            var sub := MatchedSubroute(subs, subroute);
            if sub.Some? {
              var chosen := SubrouteHandler(controllers, sub.value, handler);
              if chosen.Some? {
                handler := chosen.value;
                runParentRouteFirst := true;
              }
            } else if own.Some? && EndpointTruthy(own.value) {
              handler := EndpointHandler(controllers, own.value, handler);
              routes := SetHandler(routes, routePath, handler);
            }
        }
      }
    }

    /** `handler(go, target)`: a user function is recorded, the fallback navigates. */
    method Call(handler: Handler, depth: nat) returns (status: Status)
      modifies this
      ensures Outcome(Current(), status) == Invoke(Fixed(), old(Current()), handler, depth)
      decreases depth, 3
    {
      match handler {
        case Noop =>
          status := Completed;
        case User(id) =>
          trace := trace + [id];
          status := Completed;
        case Fallback(route) =>
          status := Navigate(route, depth);
      }
    }

    /**
     * `navigate(name, go)`: build and cache the navigator map when there is
     * none, then dispatch in place (and set the hash) when already at the
     * navigator's path, or assign `location.href`.
     */
    method Navigate(name: string, depth: nat) returns (status: Status)
      modifies this
      ensures Outcome(Current(), status) == Dispatcher.Navigate(Fixed(), old(Current()), name, depth)
      decreases depth, 2
    {
      if navigators.None? {
        var built := BuildNavigators();
        navigators := Some(built);
      }
      var navs := navigators.value;
      status := Completed;
      if name in navs {
        var target := navs[name];
        if location.pathname == rootPath + target.pathname {
          status := To(Location(target.pathname, target.hash), depth);
          if status == Completed && target.hash.Some? && target.hash.value != "" {
            location := location.(hash := target.hash.value);
          }
        } else {
          location := location.(href := rootPath + target.pathname + HashText(target.hash));
        }
      }
    }

    /** The nested for-in loops of `navigate` that fill `map`. */
    method BuildNavigators() returns (m: map<string, NavTarget>)
      ensures m == NavigatorMap(routes)
    {
      var table := routes;
      m := map[];
      for i := 0 to |table|
        invariant m == Collect(Declarations(table[..i]))
      {
        var (key, entry) := table[i];
        ghost var own := Declarations(table[..i]) + OwnDecl(key, entry);
        CollectExtend(Declarations(table[..i]), OwnDecl(key, entry));
        DeclarationsStep(table, i);
        if entry.Config? && entry.navigator != "" {
          m := m[entry.navigator := NavTarget(key, None)];
        }
        if entry.Config? {
          m := AddSubrouteNavigators(m, key, entry.subroutes, own);
        } else {
          CollectExtend(own, []);
        }
      }
      assert table[..|table|] == table;
    }
  }

  /** The inner for-in loop of `navigate`, over the subroutes of route `key`. */
  method AddSubrouteNavigators(m0: map<string, NavTarget>, key: string, subs: seq<(string, Subroute)>, ghost done: seq<Declaration>)
    returns (m: map<string, NavTarget>)
    requires m0 == Collect(done)
    ensures m == Collect(done + SubrouteDecls(key, subs))
  {
    m := m0;
    assert done + SubrouteDecls(key, subs[..0]) == done;
    for j := 0 to |subs|
      invariant m == Collect(done + SubrouteDecls(key, subs[..j]))
    {
      var (subKey, sub) := subs[j];
      assert subs[..j + 1][..j] == subs[..j];
      CollectExtend(done + SubrouteDecls(key, subs[..j]), SubrouteDecl(key, subs[j]));
      assert done + SubrouteDecls(key, subs[..j + 1]) == done + SubrouteDecls(key, subs[..j]) + SubrouteDecl(key, subs[j]);
      if sub.SubConfig? && sub.navigator != "" {
        m := m[sub.navigator := NavTarget(key, Some(DropFirst(subKey)))];
      }
    }
    assert subs[..|subs|] == subs;
  }
}
