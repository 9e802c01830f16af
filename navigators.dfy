/**
 * The navigator map built by `navigate`: every `navigator` name in the route
 * table, top-level and subroute, mapped to the location it stands for.
 */
module Navigators {
  import opened Wrappers
  import opened Strings
  import opened Routes

  /** `{pathname, hash}`; `hash` is `null` for a top-level navigator. */
  datatype NavTarget = NavTarget(pathname: string, hash: Option<string>)

  /** One `map[name] = target` assignment of the build. */
  type Declaration = (string, NavTarget)

  /** What a subroute `sub` under route `key` assigns: its hash is the subroute key minus its first character. */
  function SubrouteDecl(key: string, sub: (string, Subroute)): seq<Declaration>
  {
    if sub.1.SubConfig? && sub.1.navigator != "" then [(sub.1.navigator, NavTarget(key, Some(DropFirst(sub.0))))]
    else []
  }

  /** The assignments of the inner for-in loop over `subs`, in order. */
  function SubrouteDecls(key: string, subs: seq<(string, Subroute)>): seq<Declaration>
    decreases |subs|
  {
    if |subs| == 0 then []
    else SubrouteDecls(key, subs[..|subs| - 1]) + SubrouteDecl(key, subs[|subs| - 1])
  }

  /** What the entry's own `navigator` assigns: the route key, no hash. */
  function OwnDecl(key: string, e: Entry): seq<Declaration>
  {
    if e.Config? && e.navigator != "" then [(e.navigator, NavTarget(key, None))] else []
  }

  /** The assignments made for one route entry. */
  function EntryDecls(key: string, e: Entry): seq<Declaration>
  {
    OwnDecl(key, e) + (if e.Config? then SubrouteDecls(key, e.subroutes) else [])
  }

  /** The assignments of the outer for-in loop over the whole table, in order. */
  function Declarations(t: Table): seq<Declaration>
    decreases |t|
  {
    if |t| == 0 then []
    else Declarations(t[..|t| - 1]) + EntryDecls(t[|t| - 1].0, t[|t| - 1].1)
  }

  /** The map after performing the assignments `d` in order on `{}`. */
  function Collect(d: seq<Declaration>): map<string, NavTarget>
    decreases |d|
  {
    if |d| == 0 then map[]
    else Collect(d[..|d| - 1])[d[|d| - 1].0 := d[|d| - 1].1]
  }

  /** The map `navigate` caches on `go.navigators`. */
  function NavigatorMap(t: Table): map<string, NavTarget>
  {
    Collect(Declarations(t))
  }

  /** Performing one more assignment, or none. */
  lemma CollectExtend(d: seq<Declaration>, extra: seq<Declaration>)
    requires |extra| <= 1
    ensures |extra| == 0 ==> Collect(d + extra) == Collect(d)
    ensures |extra| == 1 ==> Collect(d + extra) == Collect(d)[extra[0].0 := extra[0].1]
  {
    if |extra| == 0 {
      assert d + extra == d;
    } else {
      assert (d + extra)[..|d|] == d;
    }
  }

  /** One more entry adds its own assignments at the end. */
  lemma DeclarationsSnoc(t: Table, x: (string, Entry))
    ensures Declarations(t + [x]) == Declarations(t) + EntryDecls(x.0, x.1)
  {
    assert (t + [x])[..|t|] == t;
  }

  /** The outer loop's assignments grow by one entry's at a time. */
  lemma DeclarationsStep(t: Table, i: nat)
    requires i < |t|
    ensures Declarations(t[..i + 1]) == Declarations(t[..i]) + EntryDecls(t[i].0, t[i].1)
    ensures Declarations(t[..i + 1])
         == Declarations(t[..i]) + OwnDecl(t[i].0, t[i].1) + (if t[i].1.Config? then SubrouteDecls(t[i].0, t[i].1.subroutes) else [])
  {
    assert t[..i + 1] == t[..i] + [t[i]];
    DeclarationsSnoc(t[..i], t[i]);
  }

  /** Whether some assignment in `d` is for name `n`. */
  predicate Declares(d: seq<Declaration>, n: string)
  {
    exists i :: 0 <= i < |d| && d[i].0 == n
  }

  /** A name is in the map exactly when some assignment is for it. */
  lemma {:induction false} CollectDomain(d: seq<Declaration>, n: string)
    ensures n in Collect(d) <==> Declares(d, n)
    decreases |d|
  {
    if |d| > 0 {
      var front := d[..|d| - 1];
      CollectDomain(front, n);
      if Declares(front, n) {
        var i :| 0 <= i < |front| && front[i].0 == n;
        assert d[i].0 == n;
      }
      if Declares(d, n) && d[|d| - 1].0 != n {
        var i :| 0 <= i < |d| && d[i].0 == n;
        assert front[i].0 == n;
      }
    }
  }

  /** Later assignments overwrite earlier ones: the last one for a name wins. */
  lemma {:induction false} CollectLastWins(d: seq<Declaration>, i: nat)
    requires i < |d|
    requires forall j :: i < j < |d| ==> d[j].0 != d[i].0
    ensures d[i].0 in Collect(d) && Collect(d)[d[i].0] == d[i].1
    decreases |d|
  {
    if i < |d| - 1 {
      CollectLastWins(d[..|d| - 1], i);
    }
  }

  lemma {:induction false} SubrouteDeclsAppend(key: string, a: seq<(string, Subroute)>, b: seq<(string, Subroute)>)
    ensures SubrouteDecls(key, a + b) == SubrouteDecls(key, a) + SubrouteDecls(key, b)
    decreases |b|
  {
    if |b| == 0 {
      assert a + b == a;
    } else {
      var front, last := b[..|b| - 1], b[|b| - 1];
      assert (a + b)[..|a + b| - 1] == a + front;
      assert (a + b)[|a + b| - 1] == last;
      SubrouteDeclsAppend(key, a, front);
      Assoc(SubrouteDecls(key, a), SubrouteDecls(key, front), SubrouteDecl(key, last));
    }
  }

  lemma Assoc<T>(x: seq<T>, y: seq<T>, z: seq<T>)
    ensures x + y + z == x + (y + z)
  {
  }

  lemma {:induction false} DeclarationsAppend(a: Table, b: Table)
    ensures Declarations(a + b) == Declarations(a) + Declarations(b)
    decreases |b|
  {
    if |b| == 0 {
      assert a + b == a;
    } else {
      var front, last := b[..|b| - 1], b[|b| - 1];
      assert b == front + [last];
      assert a + b == (a + front) + [last];
      DeclarationsAppend(a, front);
      DeclarationsSnoc(a + front, last);
      DeclarationsSnoc(front, last);
      Assoc(Declarations(a), Declarations(front), EntryDecls(last.0, last.1));
    }
  }

  /** The declarations of a table, split around its entry `i`. */
  lemma DeclarationsAround(t: Table, i: nat)
    requires i < |t|
    ensures Declarations(t) == Declarations(t[..i]) + EntryDecls(t[i].0, t[i].1) + Declarations(t[i + 1..])
  {
    assert t == t[..i + 1] + t[i + 1..];
    DeclarationsAppend(t[..i + 1], t[i + 1..]);
    DeclarationsStep(t, i);
  }

  lemma DeclaresConcat(a: seq<Declaration>, b: seq<Declaration>, n: string)
    ensures Declares(a + b, n) <==> Declares(a, n) || Declares(b, n)
  {
    if Declares(a + b, n) {
      var i :| 0 <= i < |a + b| && (a + b)[i].0 == n;
      if i >= |a| {
        assert b[i - |a|].0 == n;
      }
    }
    if Declares(a, n) {
      var i :| 0 <= i < |a| && a[i].0 == n;
      assert (a + b)[i].0 == n;
    }
    if Declares(b, n) {
      var i :| 0 <= i < |b| && b[i].0 == n;
      assert (a + b)[|a| + i].0 == n;
    }
  }

  /** An assignment that no later one overrides decides the name's target. */
  lemma LastAssignment(before: seq<Declaration>, x: Declaration, after: seq<Declaration>)
    requires !Declares(after, x.0)
    ensures x.0 in Collect(before + [x] + after) && Collect(before + [x] + after)[x.0] == x.1
  {
    var d := before + [x] + after;
    forall j | |before| < j < |d| ensures d[j].0 != x.0 {
      assert d[j] == after[j - |before| - 1];
    }
    CollectLastWins(d, |before|);
  }

  lemma Regroup<T>(p: seq<T>, o: seq<T>, e: seq<T>, x: T, l: seq<T>, a: seq<T>)
    ensures p + (o + (e + [x] + l)) + a == (p + o + e) + [x] + (l + a)
  {
  }

  /** The subroute assignments, split around subroute `k`. */
  lemma SubrouteDeclsAround(key: string, subs: seq<(string, Subroute)>, k: nat)
    requires k < |subs|
    ensures SubrouteDecls(key, subs)
         == SubrouteDecls(key, subs[..k]) + SubrouteDecl(key, subs[k]) + SubrouteDecls(key, subs[k + 1..])
  {
    assert subs == subs[..k] + [subs[k]] + subs[k + 1..];
    SubrouteDeclsAppend(key, subs[..k] + [subs[k]], subs[k + 1..]);
    SubrouteDeclsAppend(key, subs[..k], [subs[k]]);
    assert [subs[k]][..0] == [];
  }

  /**
   * A top-level `navigator` maps to `{pathname: key, hash: null}`, unless a
   * later assignment (one of the entry's own subroutes or a later entry)
   * reuses the name.
   */
  lemma TopLevelNavigator(t: Table, i: nat)
    requires i < |t| && t[i].1.Config? && t[i].1.navigator != ""
    requires !Declares(SubrouteDecls(t[i].0, t[i].1.subroutes), t[i].1.navigator)
    requires !Declares(Declarations(t[i + 1..]), t[i].1.navigator)
    ensures t[i].1.navigator in NavigatorMap(t)
    ensures NavigatorMap(t)[t[i].1.navigator] == NavTarget(t[i].0, None)
  {
    var key, e := t[i].0, t[i].1;
    var x := (e.navigator, NavTarget(key, None));
    var subs, after := SubrouteDecls(key, e.subroutes), Declarations(t[i + 1..]);
    DeclarationsAround(t, i);
    assert EntryDecls(key, e) == [x] + subs;
    Assoc(Declarations(t[..i]), [x] + subs, after);
    Assoc([x], subs, after);
    Assoc(Declarations(t[..i]), [x], subs + after);
    DeclaresConcat(subs, after, x.0);
    LastAssignment(Declarations(t[..i]), x, subs + after);
  }

  /**
   * A subroute `navigator` maps to `{pathname: key, hash: subroute key
   * without its first character}`, unless a later assignment reuses the name.
   */
  lemma SubrouteNavigator(t: Table, i: nat, k: nat)
    requires i < |t| && t[i].1.Config? && k < |t[i].1.subroutes|
    requires t[i].1.subroutes[k].1.SubConfig? && t[i].1.subroutes[k].1.navigator != ""
    requires !Declares(SubrouteDecls(t[i].0, t[i].1.subroutes[k + 1..]), t[i].1.subroutes[k].1.navigator)
    requires !Declares(Declarations(t[i + 1..]), t[i].1.subroutes[k].1.navigator)
    ensures t[i].1.subroutes[k].1.navigator in NavigatorMap(t)
    ensures NavigatorMap(t)[t[i].1.subroutes[k].1.navigator]
         == NavTarget(t[i].0, Some(DropFirst(t[i].1.subroutes[k].0)))
  {
    var key, e := t[i].0, t[i].1;
    var subs := e.subroutes;
    var x := (subs[k].1.navigator, NavTarget(key, Some(DropFirst(subs[k].0))));
    var later, after := SubrouteDecls(key, subs[k + 1..]), Declarations(t[i + 1..]);
    DeclarationsAround(t, i);
    SubrouteDeclsAround(key, subs, k);
    var prior, own, earlier := Declarations(t[..i]), OwnDecl(key, e), SubrouteDecls(key, subs[..k]);
    assert SubrouteDecl(key, subs[k]) == [x];
    assert SubrouteDecls(key, subs) == earlier + [x] + later;
    assert EntryDecls(key, e) == own + (earlier + [x] + later);
    assert Declarations(t) == prior + (own + (earlier + [x] + later)) + after;
    Regroup(prior, own, earlier, x, later, after);
    var before := prior + own + earlier;
    DeclaresConcat(later, after, x.0);
    LastAssignment(before, x, later + after);
  }

  /** Building the map reads no `.handler` property, so stamping never changes it. */
  lemma {:induction false} DeclarationsIgnoreHandlers(t: Table)
    ensures Declarations(Erase(t)) == Declarations(t)
    decreases |t|
  {
    if |t| > 0 {
      var e := Erase(t);
      assert e[..|t| - 1] == Erase(t[..|t| - 1]);
      assert e[|t| - 1] == (t[|t| - 1].0, Shape(t[|t| - 1].1));
      assert EntryDecls(t[|t| - 1].0, Shape(t[|t| - 1].1)) == EntryDecls(t[|t| - 1].0, t[|t| - 1].1);
      DeclarationsIgnoreHandlers(t[..|t| - 1]);
    }
  }

  /** Tables of the same shape have the same navigator map. */
  lemma NavigatorMapDependsOnShape(a: Table, b: Table)
    requires Erase(a) == Erase(b)
    ensures NavigatorMap(a) == NavigatorMap(b)
  {
    DeclarationsIgnoreHandlers(a);
    DeclarationsIgnoreHandlers(b);
  }
}
