/**
 * What the dispatcher promises, stated over the functional model of `to`:
 * fallback on a miss, at-most-once top-level handlers (for handlers that do
 * not re-enter `to` on their own path), re-run direct
 * functions, parent-first subroutes, the navigator round trip, and the
 * navigator cache.
 */
module DispatchProperties {
  import opened Wrappers
  import opened Strings
  import opened Handlers
  import opened Controllers
  import opened Routes
  import opened Navigators
  import opened Dispatcher

  /** The table path a call looks up: its route with the root path stripped. */
  function RoutePath(env: Env, input: Input): string
  {
    StripRoot(Normalize(input).0, env.rootPath)
  }

  /** The cached navigator map, when there is one, is the map of the current table. */
  predicate CacheFresh(s: State)
  {
    s.navigators.Some? ==> s.navigators.value == NavigatorMap(s.routes)
  }

  /** A dispatch with stack left is the dispatch of its normalised route. */
  lemma DispatchUnfolds(env: Env, s: State, input: Input, depth: nat)
    requires depth > 0
    ensures Dispatch(env, s, input, depth)
         == DispatchPath(env, s, Normalize(input).0, RoutePath(env, input), Normalize(input).1, depth)
  {
  }

  /**
   * No entry for the path: the only handler called is the fallback, which
   * navigates with the route as given (root path not stripped), and the call
   * itself stamps nothing.
   */
  lemma MissFallsBackToNavigate(env: Env, s: State, input: Input, depth: nat)
    requires Lookup(s.routes, RoutePath(env, input)).None?
    ensures Dispatch(env, s, input, depth + 1) == Navigate(env, s, Normalize(input).0, depth)
  {
    DispatchUnfolds(env, s, input, depth + 1);
    var route := Normalize(input).0;
    var o2 := Navigate(env, s, route, depth);
    NavigateFrame(env, s, route, depth);
    SameShapeLookup(o2.state.routes, s.routes, RoutePath(env, input));
    assert o2.state.(routes := o2.state.routes) == o2.state;
  }

  /**
   * A path with no entry that is not a navigator name either: nothing runs,
   * the table and location stay as they are, and only the navigator map is
   * cached.
   */
  lemma MissEverywhereChangesOnlyCache(env: Env, s: State, input: Input, depth: nat)
    requires Lookup(s.routes, RoutePath(env, input)).None?
    requires Normalize(input).0 !in NavigatorsOf(s)
    ensures Dispatch(env, s, input, depth + 1) == Outcome(s.(navigators := Some(NavigatorsOf(s))), Completed)
  {
    MissFallsBackToNavigate(env, s, input, depth);
  }

  /** A bare dot-path string as a top-level entry throws before any handler runs, and changes nothing. */
  lemma StringEntryThrows(env: Env, s: State, input: Input, depth: nat)
    requires Lookup(s.routes, RoutePath(env, input)).Some? && Lookup(s.routes, RoutePath(env, input)).value.Reference?
    ensures Dispatch(env, s, input, depth + 1) == Outcome(s, TypeError)
  {
  }

  /** After any completed dispatch of a path that has an entry, that entry's `.handler` is the no-op. */
  lemma EntryConsumedAfterDispatch(env: Env, s: State, input: Input, depth: nat)
    requires Lookup(s.routes, RoutePath(env, input)).Some?
    requires Dispatch(env, s, input, depth).status == Completed
    ensures Lookup(Dispatch(env, s, input, depth).state.routes, RoutePath(env, input)).Some?
    ensures Consumed(Lookup(Dispatch(env, s, input, depth).state.routes, RoutePath(env, input)).value)
  {
    if depth == 0 {
      assert false;
    }
    DispatchUnfolds(env, s, input, depth);
    EntryConsumedAfterPath(env, s, Normalize(input).0, RoutePath(env, input), Normalize(input).1, depth);
  }

  /** The same, past input normalisation. */
  lemma EntryConsumedAfterPath(env: Env, s: State, route: string, routePath: string, subroute: Option<string>, depth: nat)
    requires depth > 0
    requires Lookup(s.routes, routePath).Some?
    requires DispatchPath(env, s, route, routePath, subroute, depth).status == Completed
    ensures Lookup(DispatchPath(env, s, route, routePath, subroute, depth).state.routes, routePath).Some?
    ensures Consumed(Lookup(DispatchPath(env, s, route, routePath, subroute, depth).state.routes, routePath).value)
  {
    match Resolve(env.controllers, s.routes, route, routePath, subroute)
    case Throws =>
      assert false;
    case Run(handler, parentFirst, stamped) =>
      var s1 := s.(routes := stamped);
      var o1 := if parentFirst then Dispatch(env, s1, Path(route, None), depth - 1) else Outcome(s1, Completed);
      var o2 := Invoke(env, o1.state, handler, depth - 1);
      DispatchSteps(env, s, route, routePath, subroute, depth, handler, parentFirst, s1, o1, o2);
      DispatchPathFrame(env, s, route, routePath, subroute, depth);
      SameShapeLookup(o2.state.routes, s.routes, routePath);
  }

  /**
   * A structured entry dispatched without a matching subroute calls the
   * handler its `handler` property resolves to, once, and is left consumed.
   */
  lemma StructuredEntryRunsItsHandler(env: Env, s: State, input: Input, depth: nat, h: Handler)
    requires Lookup(s.routes, RoutePath(env, input)).Some?
    requires
      var entry := Lookup(s.routes, RoutePath(env, input)).value;
      && entry.Config?
      && MatchedSubroute(entry.subroutes, Normalize(input).1).None?
      && entry.handler.Some? && EndpointTruthy(entry.handler.value)
      && EndpointHandler(env.controllers, entry.handler.value, Fallback(Normalize(input).0)) == h
    requires h.User? || h.Noop?
    ensures Dispatch(env, s, input, depth + 1)
         == Outcome(s.(routes := SetHandler(s.routes, RoutePath(env, input), Noop), trace := s.trace + Calls(h)), Completed)
  {
    var (route, subroute) := Normalize(input);
    var routePath := RoutePath(env, input);
    var stamped := SetHandler(s.routes, routePath, h);
    assert Resolve(env.controllers, s.routes, route, routePath, subroute) == Run(h, false, stamped);
    var s1 := s.(routes := stamped);
    var o2 := Invoke(env, s1, h, depth);
    assert o2 == Outcome(s1.(trace := s.trace + Calls(h)), Completed);
    SameShapeLookup(stamped, s.routes, routePath);
    SetHandlerTwice(s.routes, routePath, h, Noop);
    assert Consume(stamped, routePath) == SetHandler(s.routes, routePath, Noop);
  }

  /**
   * The window in at-most-once: until the handler returns, the entry holds
   * the handler itself, not the no-op. A handler that re-enters `to` on its
   * own path before returning finds the entry in that state, and the handler
   * runs again.
   */
  lemma ReentryRunsAgain(env: Env, s: State, input: Input, depth: nat, h: Handler)
    requires Lookup(s.routes, RoutePath(env, input)).Some?
    requires
      var entry := Lookup(s.routes, RoutePath(env, input)).value;
      && entry.Config?
      && MatchedSubroute(entry.subroutes, Normalize(input).1).None?
      && entry.handler.Some? && EndpointTruthy(entry.handler.value)
      && EndpointHandler(env.controllers, entry.handler.value, Fallback(Normalize(input).0)) == h
    requires h.User?
    ensures Dispatch(env, s.(routes := SetHandler(s.routes, RoutePath(env, input), h)), input, depth + 1).state.trace
         == s.trace + [h.id]
  {
    var routePath := RoutePath(env, input);
    var mid := s.(routes := SetHandler(s.routes, routePath, h));
    SameShapeLookup(mid.routes, s.routes, routePath);
    StructuredEntryRunsItsHandler(env, mid, input, depth, h);
  }

  /**
   * A structured entry already stamped with the no-op, dispatched without a
   * matching subroute, runs nothing and changes nothing.
   */
  lemma ConsumedEntryRunsNothing(env: Env, s: State, input: Input, depth: nat)
    requires Lookup(s.routes, RoutePath(env, input)).Some?
    requires Lookup(s.routes, RoutePath(env, input)).value.Config?
    requires Lookup(s.routes, RoutePath(env, input)).value.handler == Some(Fn(Noop))
    requires MatchedSubroute(Lookup(s.routes, RoutePath(env, input)).value.subroutes, Normalize(input).1).None?
    ensures Dispatch(env, s, input, depth + 1) == Outcome(s, Completed)
  {
    DispatchUnfolds(env, s, input, depth + 1);
    var routePath := RoutePath(env, input);
    SetHandlerSame(s.routes, routePath, Noop);
    assert s.(routes := s.routes) == s;
  }

  /**
   * At most once: once a structured entry's dispatch (with no matching
   * subroute) has completed, dispatching it again calls no handler.
   */
  lemma StructuredHandlerRunsOnce(env: Env, s: State, input: Input, depth: nat, again: nat)
    requires Lookup(s.routes, RoutePath(env, input)).Some?
    requires Lookup(s.routes, RoutePath(env, input)).value.Config?
    requires MatchedSubroute(Lookup(s.routes, RoutePath(env, input)).value.subroutes, Normalize(input).1).None?
    requires Dispatch(env, s, input, depth).status == Completed
    ensures Dispatch(env, Dispatch(env, s, input, depth).state, input, again + 1) == Dispatch(env, s, input, depth)
  {
    var o := Dispatch(env, s, input, depth);
    var routePath := RoutePath(env, input);
    EntryConsumedAfterDispatch(env, s, input, depth);
    DispatchFrame(env, s, input, depth);
    SameShapeLookup(o.state.routes, s.routes, routePath);
    ConsumedEntryRunsNothing(env, o.state, input, again);
  }

  /**
   * A direct function entry runs on every dispatch: its `.handler` stamp is
   * written but never read.
   */
  lemma DirectFunctionRunsEveryTime(env: Env, s: State, input: Input, depth: nat, id: HandlerId, stamp: Option<Handler>)
    requires Lookup(s.routes, RoutePath(env, input)) == Some(Direct(id, stamp))
    ensures Dispatch(env, s, input, depth + 1)
         == Outcome(s.(routes := SetHandler(s.routes, RoutePath(env, input), Noop), trace := s.trace + [id]), Completed)
    ensures Lookup(Dispatch(env, s, input, depth + 1).state.routes, RoutePath(env, input)) == Some(Direct(id, Some(Noop)))
  {
    DispatchUnfolds(env, s, input, depth + 1);
    var routePath := RoutePath(env, input);
    var stamped := SetHandler(s.routes, routePath, User(id));
    SameShapeLookup(stamped, s.routes, routePath);
    SetHandlerTwice(s.routes, routePath, User(id), Noop);
  }

  /**
   * The parent-first case: the path has a structured entry, the call's
   * subroute matches one that assigns `User(child)`, and the entry's own
   * `handler` resolves to `parent`, a user function or the no-op.
   */
  predicate ParentFirst(env: Env, s: State, input: Input, parent: Handler, child: HandlerId)
  {
    var found := Lookup(s.routes, RoutePath(env, input));
    var fallback := Fallback(Normalize(input).0);
    && found.Some? && found.value.Config?
    && MatchedSubroute(found.value.subroutes, Normalize(input).1).Some?
    && SubrouteHandler(env.controllers, MatchedSubroute(found.value.subroutes, Normalize(input).1).value, fallback) == Some(User(child))
    && found.value.handler.Some? && EndpointTruthy(found.value.handler.value)
    && EndpointHandler(env.controllers, found.value.handler.value, fallback) == parent
    && (parent.User? || parent.Noop?)
  }

  /**
   * Parent first: with a subroute that assigns `User(child)`, the parent's
   * handler (fresh, or already the no-op) runs strictly before the
   * subroute's, each once, and the parent entry ends up consumed.
   */
  lemma ParentRunsBeforeSubroute(env: Env, s: State, input: Input, depth: nat, parent: Handler, child: HandlerId)
    requires ParentFirst(env, s, input, parent, child)
    ensures Dispatch(env, s, input, depth + 2)
         == Outcome(s.(routes := SetHandler(s.routes, RoutePath(env, input), Noop),
                       trace := s.trace + Calls(parent) + [child]), Completed)
  {
    var route := Normalize(input).0;
    var routePath := RoutePath(env, input);
    var parentCall := Path(route, None);
    assert Normalize(parentCall) == (route, None);
    assert RoutePath(env, parentCall) == routePath;
    StructuredEntryRunsItsHandler(env, s, parentCall, depth, parent);
    var consumed := SetHandler(s.routes, routePath, Noop);
    var afterParent := s.(routes := consumed, trace := s.trace + Calls(parent));
    assert Dispatch(env, s, parentCall, depth + 1) == Outcome(afterParent, Completed);
    var child' := Invoke(env, afterParent, User(child), depth + 1);
    assert child'.state.trace == s.trace + Calls(parent) + [child];
    SameShapeLookup(consumed, s.routes, routePath);
    SetHandlerTwice(s.routes, routePath, Noop, Noop);
    assert Consume(consumed, routePath) == consumed;
  }

  /** After a parent-first dispatch, the next one finds the parent consumed and the subroute unchanged. */
  lemma ParentConsumed(env: Env, s: State, input: Input, depth: nat, parent: Handler, child: HandlerId)
    requires ParentFirst(env, s, input, parent, child)
    ensures ParentFirst(env, Dispatch(env, s, input, depth + 2).state, input, Noop, child)
  {
    var routePath := RoutePath(env, input);
    ParentRunsBeforeSubroute(env, s, input, depth, parent, child);
    var first := Dispatch(env, s, input, depth + 2).state;
    SameShapeLookup(first.routes, s.routes, routePath);
    var entry := Lookup(s.routes, routePath).value;
    assert Lookup(first.routes, routePath).value == Stamp(entry, Noop);
  }

  /**
   * Subroute entries are never stamped: after a parent-first dispatch, the
   * same dispatch again runs the subroute's handler once more and the
   * parent's no-op.
   */
  lemma SubrouteRunsAgain(env: Env, s: State, input: Input, depth: nat, again: nat, parent: Handler, child: HandlerId)
    requires ParentFirst(env, s, input, parent, child)
    ensures
      var first := Dispatch(env, s, input, depth + 2).state;
      Dispatch(env, first, input, again + 2) == Outcome(first.(trace := first.trace + [child]), Completed)
  {
    var routePath := RoutePath(env, input);
    ParentRunsBeforeSubroute(env, s, input, depth, parent, child);
    ParentConsumed(env, s, input, depth, parent, child);
    var first := Dispatch(env, s, input, depth + 2).state;
    ParentRunsBeforeSubroute(env, first, input, again, Noop, child);
    SetHandlerTwice(s.routes, routePath, Noop, Noop);
    assert first.(routes := SetHandler(first.routes, routePath, Noop)) == first;
    assert first.trace + Calls(Noop) + [child] == first.trace + [child];
  }

  /**
   * A string handler that leads nowhere in the controllers falls back to
   * navigating with the route: when the route is no navigator name, nothing
   * runs and nothing throws; the entry is still consumed.
   */
  lemma UnresolvedReferenceRunsNothing(env: Env, s: State, input: Input, depth: nat)
    requires Lookup(s.routes, RoutePath(env, input)).Some?
    requires
      var entry := Lookup(s.routes, RoutePath(env, input)).value;
      && entry.Config? && entry.handler.Some? && entry.handler.value.Ref? && entry.handler.value.path != ""
      && Walk(env.controllers, Split(entry.handler.value.path, '.')).Namespace?
      && MatchedSubroute(entry.subroutes, Normalize(input).1).None?
    requires Normalize(input).0 !in NavigatorsOf(s)
    ensures Dispatch(env, s, input, depth + 1)
         == Outcome(s.(routes := SetHandler(s.routes, RoutePath(env, input), Noop),
                       navigators := Some(NavigatorsOf(s))), Completed)
  {
    var (route, subroute) := Normalize(input);
    var routePath := RoutePath(env, input);
    var entry := Lookup(s.routes, routePath).value;
    assert ResolveRef(env.controllers, entry.handler.value.path, Fallback(route)) == Fallback(route);
    var stamped := SetHandler(s.routes, routePath, Fallback(route));
    assert Resolve(env.controllers, s.routes, route, routePath, subroute) == Run(Fallback(route), false, stamped);
    var s1 := s.(routes := stamped);
    NavigatorMapDependsOnShape(stamped, s.routes);
    assert NavigatorsOf(s1) == NavigatorsOf(s);
    assert Invoke(env, s1, Fallback(route), depth) == Outcome(s1.(navigators := Some(NavigatorsOf(s))), Completed);
    SameShapeLookup(stamped, s.routes, routePath);
    SetHandlerTwice(s.routes, routePath, Fallback(route), Noop);
    assert Consume(stamped, routePath) == SetHandler(s.routes, routePath, Noop);
  }

  /**
   * A navigator whose path is elsewhere assigns `href = rootPath + pathname +
   * hash`, the hash appended as stored (without '#'), and runs nothing.
   */
  lemma NavigatorRedirects(env: Env, s: State, input: Input, depth: nat)
    requires Lookup(s.routes, RoutePath(env, input)).None?
    requires Normalize(input).0 in NavigatorsOf(s)
    requires s.location.pathname != env.rootPath + NavigatorsOf(s)[Normalize(input).0].pathname
    ensures
      var target := NavigatorsOf(s)[Normalize(input).0];
      Dispatch(env, s, input, depth + 1)
      == Outcome(s.(navigators := Some(NavigatorsOf(s)),
                    location := s.location.(href := env.rootPath + target.pathname + HashText(target.hash))), Completed)
  {
    MissFallsBackToNavigate(env, s, input, depth);
  }

  /**
   * Navigator round trip: at the navigator's own path, a top-level navigator
   * dispatches that route in place; its handler runs and the location is not
   * touched.
   */
  lemma NavigatorRunsRouteInPlace(env: Env, s: State, input: Input, depth: nat, id: HandlerId)
    requires Lookup(s.routes, RoutePath(env, input)).None?
    requires Normalize(input).0 in NavigatorsOf(s)
    requires
      var target := NavigatorsOf(s)[Normalize(input).0];
      var path := StripRoot(target.pathname, env.rootPath);
      && target.hash.None?
      && s.location.pathname == env.rootPath + target.pathname
      && Lookup(s.routes, path).Some? && Lookup(s.routes, path).value.Config?
      && MatchedSubroute(Lookup(s.routes, path).value.subroutes, None).None?
      && Lookup(s.routes, path).value.handler.Some?
      && EndpointTruthy(Lookup(s.routes, path).value.handler.value)
      && EndpointHandler(env.controllers, Lookup(s.routes, path).value.handler.value, Fallback(target.pathname)) == User(id)
    ensures
      var path := StripRoot(NavigatorsOf(s)[Normalize(input).0].pathname, env.rootPath);
      Dispatch(env, s, input, depth + 2)
      == Outcome(s.(routes := SetHandler(s.routes, path, Noop),
                    navigators := Some(NavigatorsOf(s)),
                    trace := s.trace + [id]), Completed)
  {
    MissFallsBackToNavigate(env, s, input, depth + 1);
    var name := Normalize(input).0;
    var target := NavigatorsOf(s)[name];
    var s1 := s.(navigators := Some(NavigatorsOf(s)));
    var inPlace := Location(target.pathname, target.hash);
    assert Normalize(inPlace) == (target.pathname, None);
    StructuredEntryRunsItsHandler(env, s1, inPlace, depth, User(id));
    var path := StripRoot(target.pathname, env.rootPath);
    assert Dispatch(env, s1, inPlace, depth + 1)
        == Outcome(s1.(routes := SetHandler(s.routes, path, Noop), trace := s.trace + [id]), Completed);
    assert Navigate(env, s, name, depth + 1) == Dispatch(env, s1, inPlace, depth + 1);
  }

  /**
   * At the navigator's own path, a subroute navigator's hash is written to
   * `location.hash` once the in-place dispatch has completed.
   */
  lemma NavigatorSetsHash(env: Env, s: State, input: Input, depth: nat)
    requires Lookup(s.routes, RoutePath(env, input)).None?
    requires Normalize(input).0 in NavigatorsOf(s)
    requires
      var target := NavigatorsOf(s)[Normalize(input).0];
      && target.hash.Some? && target.hash.value != ""
      && s.location.pathname == env.rootPath + target.pathname
    requires Dispatch(env, s, input, depth + 1).status == Completed
    ensures Dispatch(env, s, input, depth + 1).state.location.hash == NavigatorsOf(s)[Normalize(input).0].hash.value
  {
    MissFallsBackToNavigate(env, s, input, depth);
  }

  /**
   * Navigator round trip for a subroute navigator: at the navigator's own
   * path, the in-place dispatch of `{pathname, hash}` reaches the declaring
   * subroute, so the parent's handler runs, then the subroute's, the parent
   * entry is consumed, and the hash is written to `location.hash`.
   */
  lemma NavigatorRunsSubrouteInPlace(env: Env, s: State, input: Input, depth: nat, parent: Handler, child: HandlerId)
    requires Lookup(s.routes, RoutePath(env, input)).None?
    requires Normalize(input).0 in NavigatorsOf(s)
    requires
      var target := NavigatorsOf(s)[Normalize(input).0];
      && target.hash.Some? && target.hash.value != "" && '#' !in target.hash.value
      && s.location.pathname == env.rootPath + target.pathname
      && ParentFirst(env, s.(navigators := Some(NavigatorsOf(s))), Location(target.pathname, target.hash), parent, child)
    ensures
      var target := NavigatorsOf(s)[Normalize(input).0];
      Dispatch(env, s, input, depth + 3)
      == Outcome(s.(routes := SetHandler(s.routes, StripRoot(target.pathname, env.rootPath), Noop),
                    navigators := Some(NavigatorsOf(s)),
                    trace := s.trace + Calls(parent) + [child],
                    location := s.location.(hash := target.hash.value)), Completed)
  {
    var target := NavigatorsOf(s)[Normalize(input).0];
    var s1 := s.(navigators := Some(NavigatorsOf(s)));
    var inPlace := Location(target.pathname, target.hash);
    assert RemoveFirst(target.hash.value, '#') == target.hash.value;
    MissFallsBackToNavigate(env, s, input, depth + 2);
    ParentRunsBeforeSubroute(env, s1, inPlace, depth, parent, child);
  }

  /**
   * The navigator map is built at most once per handle and then kept, and
   * it always agrees with the table, whose stamps it never reads.
   */
  lemma CacheStaysFresh(env: Env, s: State, input: Input, depth: nat)
    requires CacheFresh(s)
    ensures CacheFresh(Dispatch(env, s, input, depth).state)
    ensures s.navigators.Some? ==> Dispatch(env, s, input, depth).state.navigators == s.navigators
  {
    DispatchFrame(env, s, input, depth);
    NavigatorMapDependsOnShape(Dispatch(env, s, input, depth).state.routes, s.routes);
  }
}
