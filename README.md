# go.to dispatcher, modelled in Dafny

go.to is a small client-side route dispatcher. `go(routes, controllers, options)`
returns a handle whose `to` method does the following:

- takes a path (with an optional subroute), a location-like `{pathname, hash}`,
  or a navigator name;
- strips `options.rootPath`;
- looks the path up in the route table;
- picks a handler.

A table entry takes one of three shapes:

- a function;
- a dot-path string into the controllers tree;
- a `{handler, navigator, subroutes}` object.

A matched subroute (`subroutes['#name']`) that assigns a handler makes the
parent path run first. After the handler returns, the top-level entry's
`.handler` is stamped with a no-op, so a structured entry's own handler fires
at most once, provided it does not re-enter `to` on the same path before it
returns (until then the entry holds the handler itself). A path with no entry
falls back to `navigate`, which does two things:

- builds and caches a map from every `navigator` name to its route and subroute;
- then either dispatches that route in place or assigns `location.href`.

The project has two layers:

- **A functional specification** (`dispatch.dfy`, module `Dispatcher`). Four
  mutually recursive functions, `Dispatch`, `DispatchPath`, `Invoke` and
  `Navigate`, state what one call of `to` does to the handle's state. That
  state is the route table, the navigator cache, the browser location, and the
  trace of user functions called so far.
  - `depth` is the call stack that is left. Entering `to` with none left is
    a `StackOverflow` status. The parent-first `to(route)` and the handler
    call each take one frame. `navigate` runs on the handler's frame, so the
    fallback → `navigate` → in-place `go.to` chain costs one frame in all.
  - Stamping a bare string entry is the strict-mode `TypeError` status.
- **The handle itself** (`goto.dfy`, class `GoTo.Go`). Its fields are the ones
  the source mutates. Its methods `To`, `Proceed`, `AssignHandler`,
  `RunParentFirst`, `CallAndConsume`, `Call`, `Navigate` and
  `BuildNavigators` follow the source's statements: closure
  variables reassigned, entries stamped in place, nested for-in loops that fill
  the navigator map. Each method is proved equal to the specification function
  for the same step.

The properties the dispatcher promises are lemmas about the specification,
mostly in `dispatch_props.dfy`:

- fallback on a miss;
- at-most-once structured handlers, for handlers that do not re-enter `to` on their own path;
- a re-entrant dispatch of the same path, before the handler returns, runs it again;
- direct functions re-run every time;
- parent first, with subroutes re-running;
- the navigator round trip and redirect;
- a navigator cache that is built once and always agrees with the table.

Two smaller pieces are also modelled:

- Option defaulting is the for-in loop `Options.ApplyDefaults`.
- The href split used for hash-link binding is `HashLinks.HashLink`.

Handlers are opaque. `User(id)` is a function from the table or the
controllers, and calling it appends `id` to the trace. `Noop` is the
`function(){}` stamp. `Fallback(route)` is the default handler of one `to`
call, which calls `navigate(route, go)`.

JavaScript truthiness is written out: the empty string is the only falsy value
a table, endpoint, subroute or navigator can hold in this model.

### Behaviour of go.to.js the model keeps

- **A top-level string entry throws.** The file runs under `"use strict"`
  (go.to.js:3). `routes[routePath].handler = handler` (go.to.js:167) then
  assigns a property on a string primitive, which is a TypeError, so no
  handler runs (`StringEntryThrows`).
- **An unresolvable dot path resolves to the current `handler`.** That is
  the `navigate` fallback (go.to.js:81-84, 104). It does nothing only when
  the route is not a navigator name either
  (`UnresolvedReferenceRunsNothing`).
- **Parent-first re-dispatches the whole parent path.** It calls
  `to.call(this, route)` (go.to.js:196), which may itself navigate, and
  which stamps the parent entry.
- **A redirect inserts no '#'.** The href is `rootPath + pathname + hash`,
  with the hash as stored (go.to.js:140).

## Model

| member | source | states |
|---|---|---|
| Options.ApplyDefaults | go.to.js:14-20 | an undefined `rootPath`/`bindHashClicks` becomes `''`/`true`; every supplied option that is not undefined, falsy ones included, is kept; the keys are exactly the supplied ones plus the two defaults |
| GoTo.Go.constructor | go.to.js:6-20 | a new handle holds the given table and location, no navigator cache, an empty trace, and the defaulted options, whose `rootPath` is the one `to` strips |
| Strings.IndexOf | go.to.js:29-30 | `indexOf` is -1 exactly when the character is absent, and otherwise the position of its first occurrence |
| Strings.IndexOfAfter | go.to.js:29-30 | in `a + c + b` with no `c` in `a`, the first `c` is at `|a|` |
| Strings.RemoveFirst | go.to.js:61 | `replace('#', '')` removes only the first '#' and leaves a string without one unchanged |
| Strings.StripRoot | go.to.js:75-78 | when `rootPath` is a prefix of the route, the route is `rootPath` followed by the result; otherwise the result is the route unchanged |
| Strings.DropFirst | go.to.js:120 | `substring(1)` is the string without its first character, and empty for the empty string |
| Strings.Split | go.to.js:90 | `split('.')` returns at least one part, no part holds the separator, and joining the parts gives back the string |
| Strings.SplitJoin | go.to.js:90 | splitting undoes joining, for parts without the separator |
| Controllers.Member | go.to.js:92 | one step of the `reduce`: the member, or `{}` when undefined; stated by `WalkFromEmpty` and `MissingSegmentFallsBack` |
| Controllers.Walk | go.to.js:90-95 | the `reduce` over the path segments; stated by `WalkAppend`, `WalkFromEmpty`, `MissingSegmentFallsBack` and `ResolvesAction` |
| Controllers.ResolveRef | go.to.js:99-105 | a dot path whose walk ends at a function resolves to exactly that function; a walk ending anywhere else resolves to the currently assigned handler |
| Controllers.WalkAppend | go.to.js:90-95 | the `reduce` over the segments of `a + b` is the reduce over `b`, started from where `a` ends |
| Controllers.WalkFromEmpty | go.to.js:92 | once the walk falls back to `{}`, it stays at `{}` |
| Controllers.MissingSegmentFallsBack | go.to.js:87-105 | a missing segment anywhere in the path ends the walk at `{}` and resolves to the current handler, without failing |
| Controllers.ResolvesAction | go.to.js:87-105 | a dot path made of member names that lead to a function resolves to that function, whatever handler is current |
| Routes.KeyIndex | go.to.js:164 | the key's first position in for-in order, or -1 exactly when the key is absent |
| Routes.Lookup | go.to.js:164-165 | `routes[routePath]` as a condition: present exactly when the key exists and its entry is truthy |
| Routes.SetHandler | go.to.js:167 | `routes[key].handler = h` stamps only the entry under `key` and leaves every entry's shape and every other entry unchanged |
| Routes.Stamp | go.to.js:167 | `entry.handler = h`: a function or structured entry takes the stamp, a string primitive cannot; stated through `SetHandler`, `Consume` and `StringEntryThrows` |
| Routes.Consume | go.to.js:203-205 | the entry under `routePath`, if truthy, gets the no-op stamp; every other entry is unchanged, stamp included; the shape is kept; with no entry nothing changes at all |
| Routes.SameShapeLookup | go.to.js:164 | stamps never change where a key is, whether its entry is truthy, or the entry's shape |
| Routes.SetHandlerTwice | go.to.js:203-205 | a second stamp replaces the first one completely |
| Routes.SetHandlerSame | go.to.js:186-190 | stamping an entry with the handler it already holds changes nothing |
| Navigators.CollectDomain | go.to.js:113-124 | a name is in the navigator map exactly when some route or subroute declares it |
| Navigators.Collect | go.to.js:113-124 | the map after the `map[name] = target` assignments in order; stated by `CollectDomain`, `CollectLastWins` and `LastAssignment` |
| Navigators.Declarations | go.to.js:113-124 | the assignments of the nested for-in loops in order; stated by `DeclarationsAppend`, `DeclarationsAround` and `DeclarationsIgnoreHandlers` |
| Navigators.NavigatorMap | go.to.js:112-126 | the map `navigate` caches; stated by `TopLevelNavigator`, `SubrouteNavigator`, `NavigatorMapDependsOnShape` and `GoTo.Go.BuildNavigators` |
| Navigators.CollectLastWins | go.to.js:113-124 | the last assignment of a name decides its target |
| Navigators.SubrouteDeclsAppend | go.to.js:118-122 | the inner loop over two runs of subroutes makes the assignments of the first run, then those of the second |
| Navigators.DeclarationsAppend | go.to.js:113-124 | the outer loop over two runs of routes makes the assignments of the first run, then those of the second |
| Navigators.DeclarationsAround | go.to.js:113-124 | the assignments are those of the earlier routes, then route `i`'s, then the later routes' |
| Navigators.SubrouteDeclsAround | go.to.js:118-122 | the subroute assignments are those before subroute `k`, then `k`'s, then those after |
| Navigators.LastAssignment | go.to.js:113-124 | an assignment that no later one overrides decides the name's target |
| Navigators.TopLevelNavigator | go.to.js:114-116 | a top-level navigator maps to `{pathname: key, hash: null}` unless a later assignment reuses its name |
| Navigators.SubrouteNavigator | go.to.js:117-122 | a subroute navigator maps to `{pathname: key, hash: subroute key minus its first character}` unless a later assignment reuses its name |
| Navigators.DeclarationsIgnoreHandlers | go.to.js:113-124 | building the map never reads a `.handler` property |
| Navigators.NavigatorMapDependsOnShape | go.to.js:112-126 | tables that differ only in their stamps have the same navigator map |
| HashLinks.HashLink | go.to.js:28-31 | a link is bound only when its hash is non-empty and its pathname is the current one; it then splits at the first '#' |
| HashLinks.LinkToCurrentPage | go.to.js:28-35 | a link to a fragment of the current page is bound to exactly that path and fragment |
| HashLinks.LinkToOtherPage | go.to.js:28-31 | a link to another page is not bound |
| Dispatcher.Normalize | go.to.js:60-63 | a path passes unchanged; a location gives its pathname, plus its hash with the first '#' removed (a hash without '#' is kept whole), or no subroute for an empty hash |
| Dispatcher.MatchedSubroute | go.to.js:170-173 | a subroute matches exactly when the subroute is a non-empty string and `subroutes['#' + name]` is present and truthy; the match is that entry |
| Dispatcher.EndpointHandler | go.to.js:148-154 | a function `handler` property is taken as is, a string one is resolved through the controllers; stated through `Resolve`, `StructuredEntryRunsItsHandler` and `UnresolvedReferenceRunsNothing` |
| Dispatcher.SubrouteHandler | go.to.js:173-183 | a function or string subroute assigns its handler, a structured one its truthy `handler` property, otherwise none; stated through `Resolve` and `ParentRunsBeforeSubroute` |
| Dispatcher.Resolve | go.to.js:146-192 | no entry means the fallback with no stamp; a string entry, and only a string entry, throws; parent-first happens only for a structured entry and leaves it unstamped; stamping never changes the table's shape |
| Dispatcher.Dispatch | go.to.js:57-210 | one call of `to` on the handle's state; stated by the frame lemmas and every `DispatchProperties` lemma, and implemented by `GoTo.Go.To` |
| Dispatcher.DispatchPath | go.to.js:163-205 | `to` past normalisation: choice, parent-first call, handler call, stamp; stated by `DispatchPathFrame` and `EntryConsumedAfterPath`, implemented by `GoTo.Go.Proceed` |
| Dispatcher.Invoke | go.to.js:200 | `handler(this, target)`: a user function is recorded, the no-op does nothing, the fallback navigates; stated by `InvokeFrame`, implemented by `GoTo.Go.Call` |
| Dispatcher.AfterCall | go.to.js:199-205 | the handler call followed by the no-op stamp; stated through `EntryConsumedAfterPath` and `Routes.Consume`, implemented by `GoTo.Go.CallAndConsume` |
| Dispatcher.Navigate | go.to.js:108-142 | `navigate(name, go)`; stated by `NavigateFrame`, `MissFallsBackToNavigate`, `NavigatorRedirects` and the in-place navigator lemmas, implemented by `GoTo.Go.Navigate` |
| Dispatcher.DispatchFrame | go.to.js:57-210 | a call of `to` changes only stamps, appends to the trace, keeps `location.pathname`, and either keeps the navigator cache or fills an empty one with the table's map |
| Dispatcher.DispatchPathFrame | go.to.js:163-205 | the same, for the steps after normalisation |
| Dispatcher.InvokeFrame | go.to.js:81-84 | the same, for one handler call |
| Dispatcher.NavigateFrame | go.to.js:108-142 | the same, for `navigate`, which also always leaves the map cached |
| DispatchProperties.MissFallsBackToNavigate | go.to.js:81-84 | with no entry, `to` does exactly what `navigate` does with the unstripped route, and stamps nothing itself |
| DispatchProperties.MissEverywhereChangesOnlyCache | go.to.js:129 | a path that is neither an entry nor a navigator name only caches the navigator map |
| DispatchProperties.StringEntryThrows | go.to.js:164-167 | a bare string entry throws before any handler runs, and changes nothing |
| DispatchProperties.EntryConsumedAfterDispatch | go.to.js:203-205 | after any completed dispatch of a path with an entry, the entry's `.handler` is the no-op, whether or not its own handler ran |
| DispatchProperties.EntryConsumedAfterPath | go.to.js:163-205 | the same, stated past normalisation |
| DispatchProperties.StructuredEntryRunsItsHandler | go.to.js:186-190 | a structured entry without a matching subroute calls its resolved handler once and is left consumed |
| DispatchProperties.ReentryRunsAgain | go.to.js:186-205 | until the handler returns, its entry holds the handler itself, so a dispatch of the same path in that window runs the handler again |
| DispatchProperties.ConsumedEntryRunsNothing | go.to.js:186-190 | a consumed structured entry runs nothing and changes nothing |
| DispatchProperties.StructuredHandlerRunsOnce | go.to.js:186-205 | once a structured entry's dispatch has completed, dispatching it again calls no handler |
| DispatchProperties.DirectFunctionRunsEveryTime | go.to.js:152-154 | a function entry is called on every dispatch; its stamp is written and never read |
| DispatchProperties.ParentRunsBeforeSubroute | go.to.js:170-200 | with a matching subroute, the parent's handler runs strictly before the subroute's, each once, and the parent entry ends up consumed |
| DispatchProperties.ParentConsumed | go.to.js:195-205 | after a parent-first dispatch the parent is the no-op and the subroute is unchanged |
| DispatchProperties.SubrouteRunsAgain | go.to.js:170-200 | subroute entries are never stamped, so the same dispatch again runs the subroute's handler once more |
| DispatchProperties.UnresolvedReferenceRunsNothing | go.to.js:99-105 | a dot-path handler that leads nowhere falls back to navigating; for a route that is no navigator name, nothing runs and nothing throws, and the entry is still consumed |
| DispatchProperties.NavigatorRedirects | go.to.js:139-141 | a navigator whose path is elsewhere sets `href` to `rootPath + pathname + hash` and runs nothing |
| DispatchProperties.NavigatorRunsRouteInPlace | go.to.js:131-133 | at the navigator's own path, a top-level navigator dispatches its route in place, runs its handler, and leaves the location alone |
| DispatchProperties.NavigatorSetsHash | go.to.js:133-136 | at the navigator's own path, a subroute navigator's hash is written to `location.hash` once the in-place dispatch has completed |
| DispatchProperties.NavigatorRunsSubrouteInPlace | go.to.js:131-136 | at the navigator's own path, a subroute navigator's in-place dispatch reaches its subroute: the parent's handler runs, then the subroute's, the parent entry is consumed, and `location.hash` is set to the hash |
| DispatchProperties.CacheStaysFresh | go.to.js:112-126 | the navigator map is built at most once and then kept, and it always agrees with the table |
| GoTo.Go.To | go.to.js:57-78 | the handle's new state and the call's status are exactly those of `Dispatch`; a fresh cache stays fresh |
| GoTo.Go.Proceed | go.to.js:163-205 | the state and status after handler choice, parent-first call, handler call and stamp are exactly those of `DispatchPath` |
| GoTo.Go.RunParentFirst | go.to.js:194-197 | when `runParentRouteFirst` is set, the new state and status are those of dispatching the route with no subroute; otherwise nothing changes |
| GoTo.Go.CallAndConsume | go.to.js:199-205 | the new state and status are those of `AfterCall`: the handler call, then the no-op stamp if the call returned |
| GoTo.Go.AssignHandler | go.to.js:146-192 | the closure's `handler` and `runParentRouteFirst`, and the stamp written, are those `Resolve` plans; a string entry throws with the table unchanged |
| GoTo.Go.Call | go.to.js:81-84 | calling the handler does what `Invoke` says |
| GoTo.Go.Navigate | go.to.js:108-142 | filling the cache, then dispatching in place or redirecting, does what `Dispatcher.Navigate` says |
| GoTo.Go.BuildNavigators | go.to.js:109-125 | the nested for-in loops build exactly the table's navigator map |
| GoTo.AddSubrouteNavigators | go.to.js:117-123 | the inner for-in loop adds exactly the subroutes' assignments, in order |

## Left out

- jQuery hash-link binding (go.to.js:23-39): DOM enumeration and click wiring are not modelled. Only the href split is modelled (`HashLinks.HashLink`).
- Handler bodies: user functions are opaque identifiers recorded in a trace. A handler that throws is not modelled, and neither is the body of a handler that calls `.to` itself; only the table state such a nested call sees is stated (`ReentryRunsAgain`). At-most-once therefore holds only for handlers that do not re-enter `to` on their own path.
- Shared entry objects: the table holds entries as values, so one object under two keys, or one object that is both a top-level entry and a subroute, is two independent entries here. The `.handler` stamp, and with it at-most-once, holds per key in the model and per object in the source.
- The `target` argument (go.to.js:65): it only reaches the opaque handlers, so it is dropped.
- The browser: `location` is a plain record. The page reload after assigning `href` is not modelled, and neither is the browser adding '#' when `hash` is set.
- `this`: `to` is modelled as always called on its own handle. A detached call with another `this` is not modelled.
- The call stack: its real size is unknown, so it is the `depth` parameter. Running out of it is the `StackOverflow` status.
- GoTo.Go.constructor: requires a string `rootPath` when one is supplied. With any other value, `rootPath.length` and the prefix test behave in JavaScript-specific ways that are not modelled.
- GoTo.Go.constructor: the options are returned as a new map. The source fills the caller's options object in place, so that aliasing is not modelled.
- A missing `controllers` argument is not modelled. The controllers tree is always an object.
- JavaScript object quirks are not modelled: prototype-inherited names during the dot-path walk or the table lookup, members of function objects, string leaves in the controllers tree, and truthy values other than strings, functions and objects (which make `assignHandler` throw).
- Unique keys: JavaScript objects have unique keys and the table sequence does not enforce this. With a repeated key, lookup uses the first occurrence.
