/**
 * The controllers tree and the dot-path lookup into it
 * (`mapStringToEndPoint` and `mapStringToHandler`).
 */
module Controllers {
  import opened Strings
  import opened Handlers

  /** A controller is a function or an object of named members. */
  datatype Controller =
    | Action(id: HandlerId)
    | Namespace(members: map<string, Controller>)

  /** The empty object `{}` that stands in for a missing member. */
  const Empty: Controller := Namespace(map[])

  /**
   * One step of the `reduce`: the member `name` of `c`, or `{}` when it is
   * undefined. A function has no members of its own in this model.
   */
  function Member(c: Controller, name: string): Controller
  {
    if c.Namespace? && name in c.members then c.members[name] else Empty
  }

  /** `names.reduce(Member, c)`. */
  function Walk(c: Controller, names: seq<string>): Controller
    decreases |names|
  {
    if |names| == 0 then c else Walk(Member(c, names[0]), names[1..])
  }

  /**
   * `mapStringToHandler(path)`: the function the dot path leads to, or the
   * currently assigned handler `current` when it leads anywhere else.
   */
  function ResolveRef(ctrl: Controller, path: string, current: Handler): (h: Handler)
    ensures Walk(ctrl, Split(path, '.')).Action? ==> h == User(Walk(ctrl, Split(path, '.')).id)
    ensures h != current ==> h.User? && Walk(ctrl, Split(path, '.')) == Action(h.id)
    ensures Walk(ctrl, Split(path, '.')).Namespace? ==> h == current
  {
    match Walk(ctrl, Split(path, '.'))
    case Action(id) => User(id)
    case Namespace(_) => current
  }

  /** Walking a concatenated path is walking its two halves in turn. */
  lemma {:induction false} WalkAppend(c: Controller, a: seq<string>, b: seq<string>)
    ensures Walk(c, a + b) == Walk(Walk(c, a), b)
    decreases |a|
  {
    if |a| > 0 {
      assert (a + b)[1..] == a[1..] + b;
      WalkAppend(Member(c, a[0]), a[1..], b);
    } else {
      assert a + b == b;
    }
  }

  /** Once the walk has fallen back to `{}`, it stays there. */
  lemma {:induction false} WalkFromEmpty(names: seq<string>)
    ensures Walk(Empty, names) == Empty
    decreases |names|
  {
    if |names| > 0 {
      WalkFromEmpty(names[1..]);
    }
  }

  /**
   * A missing segment anywhere along the path does not fail: the walk ends
   * in `{}` and the reference resolves to the current handler.
   */
  lemma MissingSegmentFallsBack(ctrl: Controller, path: string, current: Handler, k: nat)
    requires k < |Split(path, '.')|
    requires Member(Walk(ctrl, Split(path, '.')[..k]), Split(path, '.')[k]) == Empty
    ensures Walk(ctrl, Split(path, '.')) == Empty
    ensures ResolveRef(ctrl, path, current) == current
  {
    var names := Split(path, '.');
    assert names == names[..k] + [names[k]] + names[k + 1..];
    WalkAppend(ctrl, names[..k] + [names[k]], names[k + 1..]);
    WalkAppend(ctrl, names[..k], [names[k]]);
    WalkFromEmpty(names[k + 1..]);
  }

  /**
   * A dot path spelled from member names that lead to a function resolves to
   * that function, whatever handler is current.
   */
  lemma ResolvesAction(ctrl: Controller, names: seq<string>, id: HandlerId, current: Handler)
    requires |names| >= 1
    requires forall n :: n in names ==> '.' !in n
    requires Walk(ctrl, names) == Action(id)
    ensures ResolveRef(ctrl, Join(names, '.'), current) == User(id)
  {
    SplitJoin(names, '.');
  }
}
