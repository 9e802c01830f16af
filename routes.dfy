/**
 * The route table: its three entry shapes, JavaScript truthiness of entries,
 * key lookup in enumeration order, and the in-place `.handler` stamp.
 */
module Routes {
  import opened Wrappers
  import opened Handlers

  /** The value of a `handler` property: a dot path or a function. */
  datatype Endpoint = Ref(path: string) | Fn(fn: Handler)

  /** A value under `subroutes['#name']`. */
  datatype Subroute =
    | SubFn(id: HandlerId)
    | SubRef(path: string)
    | SubConfig(handler: Option<Endpoint>, navigator: string)  // navigator "" = none

  /**
   * A value in the route table. `Direct` is a function object, whose `stamp`
   * is the `.handler` property the dispatcher writes on it and never reads;
   * `Reference` is a bare dot-path string; `Config` is a
   * `{handler, navigator, subroutes}` object (navigator "" = none, no
   * subroutes = an empty sequence).
   */
  datatype Entry =
    | Direct(id: HandlerId, stamp: Option<Handler>)
    | Reference(path: string)
    | Config(handler: Option<Endpoint>, navigator: string, subroutes: seq<(string, Subroute)>)

  /** The routes object, as its keys and values in for-in order. */
  type Table = seq<(string, Entry)>

  /** The position of `key` among the keys, or -1; the first one if repeated. */
  function KeyIndex<V>(kvs: seq<(string, V)>, key: string): (i: int)
    ensures -1 <= i < |kvs|
    ensures 0 <= i ==> kvs[i].0 == key && forall j :: 0 <= j < i ==> kvs[j].0 != key
    ensures i < 0 ==> forall j :: 0 <= j < |kvs| ==> kvs[j].0 != key
  {
    if |kvs| == 0 then -1
    else if kvs[0].0 == key then 0
    else
      var k := KeyIndex(kvs[1..], key);
      if k < 0 then -1 else k + 1
  }

  /** Only the empty string is falsy among the values a table can hold. */
  predicate EntryTruthy(e: Entry)
  {
    !(e.Reference? && e.path == "")
  }

  predicate EndpointTruthy(ep: Endpoint)
  {
    !(ep.Ref? && ep.path == "")
  }

  predicate SubrouteTruthy(s: Subroute)
  {
    !(s.SubRef? && s.path == "")
  }

  /** `routes[key]` used as a condition: the entry when it is present and truthy. */
  function Lookup(t: Table, key: string): (r: Option<Entry>)
    ensures r.Some? <==> 0 <= KeyIndex(t, key) && EntryTruthy(t[KeyIndex(t, key)].1)
    ensures r.Some? ==> (key, r.value) in t && EntryTruthy(r.value)
  {
    var i := KeyIndex(t, key);
    if 0 <= i && EntryTruthy(t[i].1) then Some(t[i].1) else None
  }

  /** `entry.handler = h`. A string primitive cannot take it (a TypeError in strict mode). */
  function Stamp(e: Entry, h: Handler): Entry
  {
    match e
    case Direct(id, _) => Direct(id, Some(h))
    case Config(_, nav, subs) => Config(Some(Fn(h)), nav, subs)
    case Reference(_) => e
  }

  /** An entry whose `.handler` is the no-op stamp. */
  predicate Consumed(e: Entry)
  {
    (e.Direct? && e.stamp == Some(Noop)) || (e.Config? && e.handler == Some(Fn(Noop)))
  }

  /** An entry with its `.handler` property cleared: what the dispatcher never changes. */
  function Shape(e: Entry): Entry
  {
    match e
    case Direct(id, _) => Direct(id, None)
    case Config(_, nav, subs) => Config(None, nav, subs)
    case Reference(_) => e
  }

  /** The whole table with every `.handler` property cleared. */
  function Erase(t: Table): (r: Table)
    ensures |r| == |t|
    ensures forall i :: 0 <= i < |t| ==> r[i] == (t[i].0, Shape(t[i].1))
  {
    seq(|t|, i requires 0 <= i < |t| => (t[i].0, Shape(t[i].1)))
  }

  /** `routes[key].handler = h` on the entry under `key`, if there is one. */
  function SetHandler(t: Table, key: string, h: Handler): (r: Table)
    ensures Erase(r) == Erase(t)
    ensures |r| == |t|
    ensures forall j :: 0 <= j < |t| && j != KeyIndex(t, key) ==> r[j] == t[j]
    ensures 0 <= KeyIndex(t, key) ==> r[KeyIndex(t, key)] == (key, Stamp(t[KeyIndex(t, key)].1, h))
  {
    var i := KeyIndex(t, key);
    if i < 0 then t else t[i := (key, Stamp(t[i].1, h))]
  }

  /**
   * `if (routes[key]) { routes[key].handler = function(){}; }`: mark the entry
   * as run.
   */
  function Consume(t: Table, key: string): (r: Table)
    ensures Erase(r) == Erase(t)
    ensures |r| == |t|
    ensures forall j :: 0 <= j < |t| && j != KeyIndex(t, key) ==> r[j] == t[j]
    ensures Lookup(t, key).Some? ==> r[KeyIndex(t, key)] == (key, Stamp(t[KeyIndex(t, key)].1, Noop))
    ensures Lookup(t, key).Some? && !Lookup(t, key).value.Reference? ==> Consumed(Lookup(r, key).value)
    ensures Lookup(t, key).None? ==> r == t
  {
    if Lookup(t, key).Some? then SetHandler(t, key, Noop) else t
  }

  /** Two tables of the same shape agree on where every key is and whether it is truthy. */
  lemma SameShapeLookup(a: Table, b: Table, key: string)
    requires Erase(a) == Erase(b)
    ensures KeyIndex(a, key) == KeyIndex(b, key)
    ensures Lookup(a, key).Some? <==> Lookup(b, key).Some?
    ensures Lookup(a, key).Some? ==> Shape(Lookup(a, key).value) == Shape(Lookup(b, key).value)
  {
    var i, j := KeyIndex(a, key), KeyIndex(b, key);
    assert forall k :: 0 <= k < |a| ==> a[k].0 == Erase(a)[k].0 == b[k].0;
    if 0 <= i {
      assert Erase(a)[i] == Erase(b)[i];
    }
  }

  /** Stamping the same entry twice leaves only the second stamp. */
  lemma SetHandlerTwice(t: Table, key: string, first: Handler, second: Handler)
    ensures SetHandler(SetHandler(t, key, first), key, second) == SetHandler(t, key, second)
  {
    SameShapeLookup(SetHandler(t, key, first), t, key);
  }

  /** Stamping an entry with the handler it already holds changes nothing. */
  lemma SetHandlerSame(t: Table, key: string, h: Handler)
    requires 0 <= KeyIndex(t, key) && Stamp(t[KeyIndex(t, key)].1, h) == t[KeyIndex(t, key)].1
    ensures SetHandler(t, key, h) == t
  {
  }
}
