/**
 * How an anchor's `href` is split when hash clicks are bound: the part
 * before the first '#' and the part after it.
 */
module HashLinks {
  import opened Wrappers
  import opened Strings

  /**
   * `Some((pathname, hash))` when the anchor gets a click handler that calls
   * `to(pathname, hash)`: its hash is non-empty and its pathname is the
   * current location's.
   */
  function HashLink(href: string, current: string): (r: Option<(string, string)>)
    ensures r.Some? ==> r.value.0 == current && |r.value.1| > 0
    ensures r.Some? && '#' in href ==> href == r.value.0 + "#" + r.value.1 && '#' !in r.value.0
  {
    var i := IndexOf(href, '#');
    if i < 0 then
      // `substring(-1 + 1)` is the whole href and `substring(0, -1)` is ''.
      if |href| > 0 && "" == current then Some(("", href)) else None
    else
      var hash, pathname := href[i + 1..], href[..i];
      assert href == pathname + "#" + hash;
      if |hash| > 0 && pathname == current then Some((pathname, hash)) else None
  }

  /** A link to a fragment of the current page is bound to exactly that path and fragment. */
  lemma LinkToCurrentPage(pathname: string, fragment: string)
    requires '#' !in pathname && |fragment| > 0
    ensures HashLink(pathname + "#" + fragment, pathname) == Some((pathname, fragment))
  {
    IndexOfAfter(pathname, '#', fragment);
    var href := pathname + "#" + fragment;
    assert href[..|pathname|] == pathname;
    assert href[|pathname| + 1..] == fragment;
  }

  /** A link to a fragment of another page is left alone. */
  lemma LinkToOtherPage(pathname: string, fragment: string, current: string)
    requires '#' !in pathname && pathname != current
    ensures HashLink(pathname + "#" + fragment, current).None?
  {
    IndexOfAfter(pathname, '#', fragment);
    var href := pathname + "#" + fragment;
    assert href[..|pathname|] == pathname;
  }
}
