/** Option defaulting at construction: a for-in over the defaults. */
module Options {
  import opened Wrappers

  /** The JavaScript values an option can hold. */
  datatype Value = Undefined | Null | Bool(b: bool) | Num(n: int) | Str(s: string) | Object

  type OptionMap = map<string, Value>

  /** `defaultOptions`, in for-in order. */
  const Defaults: seq<(string, Value)> := [("rootPath", Str("")), ("bindHashClicks", Bool(true))]

  /** `options || {}`: a missing options argument is an empty object. */
  function Supplied(options: Option<OptionMap>): OptionMap
  {
    if options.Some? then options.value else map[]
  }

  /** `typeof opts[k] === 'undefined'`. */
  predicate IsUndefined(opts: OptionMap, k: string)
  {
    k !in opts || opts[k] == Undefined
  }

  /** The keys of the first `n` defaults. */
  function DefaultKeys(n: nat): set<string>
    requires n <= |Defaults|
  {
    set j | 0 <= j < n :: Defaults[j].0
  }

  /**
   * Fills every default whose option is undefined and leaves every other
   * option, including falsy ones such as `''`, `false` or `null`, as supplied.
   */
  method ApplyDefaults(options: Option<OptionMap>) returns (opts: OptionMap)
    ensures forall k :: k in opts <==> k in Supplied(options) || k in DefaultKeys(|Defaults|)
    ensures forall k :: k in Supplied(options) && !IsUndefined(Supplied(options), k) ==> opts[k] == Supplied(options)[k]
    ensures forall k :: k in Supplied(options) && k !in DefaultKeys(|Defaults|) ==> opts[k] == Supplied(options)[k]
    ensures "rootPath" in opts && "bindHashClicks" in opts
    ensures IsUndefined(Supplied(options), "rootPath") ==> opts["rootPath"] == Str("")
    ensures IsUndefined(Supplied(options), "bindHashClicks") ==> opts["bindHashClicks"] == Bool(true)
  {
    var given := Supplied(options);
    opts := given;
    for i := 0 to |Defaults|
      invariant forall k :: k in opts <==> k in given || k in DefaultKeys(i)
      invariant forall k :: k in given && !IsUndefined(given, k) ==> opts[k] == given[k]
      invariant forall k :: k in given && k !in DefaultKeys(i) ==> opts[k] == given[k]
      invariant forall j :: 0 <= j < i && IsUndefined(given, Defaults[j].0) ==> opts[Defaults[j].0] == Defaults[j].1
    {
      var (option, default) := Defaults[i];
      assert DefaultKeys(i + 1) == DefaultKeys(i) + {option};
      if IsUndefined(opts, option) {
        opts := opts[option := default];
      }
    }
    assert Defaults[0].0 == "rootPath" && Defaults[1].0 == "bindHashClicks";
    assert "rootPath" in DefaultKeys(|Defaults|) && "bindHashClicks" in DefaultKeys(|Defaults|);
  }
}
