/** The dynamically typed selector engine: memoizers over argument vectors of
    `flow::any`, modelled over a value type `V` (arguments) and `R` (results).
    Two strategies are provided: a single-entry cache judged by per-position
    equality checks, and an unbounded map keyed by concatenated key strings.
    A selector binds its input selectors' outputs into a bundle, in order, and
    hands the bundle to a memoized function. */
module DynamicReselect {
  import opened Outcomes
  import opened Bundles

  /** The single-entry cache: the last argument bundle and the last result.
      The result is `None` while it is still the empty, default-constructed
      `flow::any`. */
  datatype Slot<V, R> = Slot(lastArgs: seq<V>, lastResult: Option<R>)

  /** The cache a fresh single-entry memoizer starts from. */
  function EmptySlot<V, R>(): Slot<V, R>
  {
    Slot([], None)
  }

  /** The outcome of one call of a memoized function: what it returns, the
      cache afterwards, and whether the combining function ran. */
  datatype Step<C, T> = Step(result: Result<T>, cache: C, recomputed: bool)

  /** One call of the single-entry memoizer on `args` from cache `slot`: an
      arity error when the bundle has the cached arity but not the checks'
      arity, a hit when it has the cached arity and every position is judged
      equal, and otherwise a miss that overwrites the slot. */
  function SingleEntryStep<V, R>(checks: seq<(V, V) -> bool>, func: seq<V> -> R,
                                 slot: Slot<V, R>, args: seq<V>): Step<Slot<V, R>, Option<R>>
  {
    if |slot.lastArgs| == |args| && |args| != |checks| then
      Step(Err(DefaultArityMismatch), slot, false)
    else if |slot.lastArgs| == |args| && AllEqual(checks, args, slot.lastArgs) then
      Step(Ok(slot.lastResult), slot, false)
    else
      Step(Ok(Some(func(args))), Slot(args, Some(func(args))), true)
  }

  /** How many equality checks the short-circuiting comparison evaluates:
      up to and including the first mismatch, or all of them. */
  function Comparisons<V>(checks: seq<(V, V) -> bool>, args: seq<V>, last: seq<V>): nat
    requires |args| <= |checks| && |args| <= |last|
  {
    var k := FirstMismatch(checks, args, last);
    if k < |args| then k + 1 else k
  }

  /** One call of the map memoizer on `args` with table `table`: an arity
      error when the bundle's arity differs from the key functions', a hit
      when the bundle's key is present, and otherwise a miss that inserts
      the new result under that key. */
  function MapStep<V, R>(keys: seq<V -> string>, func: seq<V> -> R,
                         table: map<string, R>, args: seq<V>): Step<map<string, R>, R>
  {
    if |args| != |keys| then
      Step(Err(MapArityMismatch), table, false)
    else
      var key := Key(keys, args);
      if key in table then Step(Ok(table[key]), table, false)
      else Step(Ok(func(args)), table[key := func(args)], true)
  }

  /** The single-entry memoizer: the mutable closure `default_memoize`
      builds around `func`. */
  class SingleEntryMemo<V, R> {
    const checks: seq<(V, V) -> bool>
    const func: seq<V> -> R
    var lastArgs: seq<V>
    var lastResult: Option<R>
    /** How many times `func` has run. */
    ghost var recomputations: nat
    /** How many equality checks the most recent call evaluated. */
    ghost var comparisons: nat

    function Cache(): Slot<V, R>
      reads this
    {
      Slot(lastArgs, lastResult)
    }

    constructor (checks: seq<(V, V) -> bool>, func: seq<V> -> R)
      ensures this.checks == checks && this.func == func
      ensures Cache() == EmptySlot() && recomputations == 0 && comparisons == 0
    {
      this.checks := checks;
      this.func := func;
      lastArgs := [];
      lastResult := None;
      recomputations := 0;
      comparisons := 0;
    }

    method Call(args: seq<V>) returns (r: Result<Option<R>>)
      modifies this
      ensures var s := SingleEntryStep(checks, func, old(Cache()), args);
              r == s.result && Cache() == s.cache &&
              recomputations == old(recomputations) + (if s.recomputed then 1 else 0)
      ensures comparisons == if |old(lastArgs)| == |args| == |checks|
                             then Comparisons(checks, args, old(lastArgs)) else 0
    {
      comparisons := 0;
      if |lastArgs| == |args| {
        if |args| != |checks| {
          return Err(DefaultArityMismatch);
        }
        var allEqual := true;
        var i := 0;
        ghost var probes := 0;
        while i < |args|
          invariant 0 <= i <= |args|
          invariant allEqual && probes == i
          invariant forall j :: 0 <= j < i ==> checks[j](args[j], lastArgs[j])
        {
          var argEqual := checks[i](args[i], lastArgs[i]);
          probes := probes + 1;
          if !argEqual {
            allEqual := false;
            break;
          }
          i := i + 1;
        }
        comparisons := probes;
        FirstMismatchAllEqual(checks, args, lastArgs);
        if allEqual {
          assert FirstMismatch(checks, args, lastArgs) == |args|;
          return Ok(lastResult);
        }
        assert FirstMismatch(checks, args, lastArgs) == i;
      }
      var newResult := func(args);
      lastArgs := args;
      lastResult := Some(newResult);
      recomputations := recomputations + 1;
      r := Ok(lastResult);
    }
  }

  /** The map memoizer: the mutable closure `map_memoize` builds around
      `func`, owning an unbounded string-keyed result table. */
  class MapMemo<V, R> {
    const keys: seq<V -> string>
    const func: seq<V> -> R
    var resultMap: map<string, R>
    /** How many times `func` has run. */
    ghost var recomputations: nat

    constructor (keys: seq<V -> string>, func: seq<V> -> R)
      ensures this.keys == keys && this.func == func
      ensures resultMap == map[] && recomputations == 0
    {
      this.keys := keys;
      this.func := func;
      resultMap := map[];
      recomputations := 0;
    }

    method Call(args: seq<V>) returns (r: Result<R>)
      modifies this
      ensures var s := MapStep(keys, func, old(resultMap), args);
              r == s.result && resultMap == s.cache &&
              recomputations == old(recomputations) + (if s.recomputed then 1 else 0)
    {
      if |args| != |keys| {
        return Err(MapArityMismatch);
      }
      var key := "";
      for i := 0 to |args|
        invariant key == Key(keys[..i], args)
      {
        assert keys[..i + 1][..i] == keys[..i];
        key := key + keys[i](args[i]);
      }
      assert keys[..|args|] == keys;
      if key in resultMap {
        return Ok(resultMap[key]);
      }
      var newResult := func(args);
      resultMap := resultMap[key := newResult];
      recomputations := recomputations + 1;
      r := Ok(newResult);
    }
  }

  /** A memoization strategy before it is given a combining function: what
      `default_memoize(equality_checks)` and `map_memoize(keys)` return. */
  datatype Strategy<!V> =
    | DefaultMemoize(checks: seq<(V, V) -> bool>)
    | MapMemoize(keys: seq<V -> string>)

  /** A memoized combining function: one of the two memoizer objects. */
  datatype Memoized<V, R> = SingleEntry(single: SingleEntryMemo<V, R>) | Keyed(keyed: MapMemo<V, R>)
  {
    /** The object holding the cache. */
    function Target(): object
    {
      match this
      case SingleEntry(m) => m
      case Keyed(m) => m
    }
  }

  /** Applies a strategy to a combining function, giving a memoized function
      with a cache of its own that starts empty. */
  method Memoize<V, R>(strategy: Strategy<V>, func: seq<V> -> R) returns (m: Memoized<V, R>)
    ensures fresh(m.Target())
    ensures strategy.DefaultMemoize? ==>
              m.SingleEntry? && m.single.checks == strategy.checks && m.single.func == func &&
              m.single.Cache() == EmptySlot() && m.single.recomputations == 0
    ensures strategy.MapMemoize? ==>
              m.Keyed? && m.keyed.keys == strategy.keys && m.keyed.func == func &&
              m.keyed.resultMap == map[] && m.keyed.recomputations == 0
  {
    match strategy
    case DefaultMemoize(checks) =>
      var single := new SingleEntryMemo(checks, func);
      m := SingleEntry(single);
    case MapMemoize(keys) =>
      var keyed := new MapMemo(keys, func);
      m := Keyed(keyed);
  }

  /** Binds the input selectors' outputs into a parameter bundle, applying
      each selector to the state once, in order. */
  method BindParams<S, V>(selectors: seq<S -> V>, state: S) returns (params: seq<V>)
    ensures |params| == |selectors|
    ensures forall i :: 0 <= i < |selectors| ==> params[i] == selectors[i](state)
  {
    params := [];
    for i := 0 to |selectors|
      invariant |params| == i
      invariant forall j :: 0 <= j < i ==> params[j] == selectors[j](state)
    {
      var param := selectors[i](state);
      params := params + [param];
    }
  }

  /** A map memoizer's result as the `flow::any` a selector returns. */
  function Lift<R>(r: Result<R>): Result<Option<R>>
  {
    match r
    case Ok(v) => Ok(Some(v))
    case Err(e) => Err(e)
  }

  /** A selector: input selectors bound to a memoized function. */
  class Selector<S, V, R> {
    const selectors: seq<S -> V>
    const memo: Memoized<V, R>

    /** `create_selector_creator(memo)(selectors, func)`: the combining
        function is already inside `memo`. */
    constructor (memo: Memoized<V, R>, selectors: seq<S -> V>)
      ensures this.memo == memo && this.selectors == selectors
    {
      this.memo := memo;
      this.selectors := selectors;
    }

    /** Derives a value from `state`: binds the bundle, then calls the
        memoized function on it. */
    method Select(state: S) returns (r: Result<Option<R>>)
      modifies memo.Target()
      ensures memo.SingleEntry? ==>
                var m := memo.single;
                var s := SingleEntryStep(m.checks, m.func, old(m.Cache()), Bind(selectors, state));
                r == s.result && m.Cache() == s.cache &&
                m.recomputations == old(m.recomputations) + (if s.recomputed then 1 else 0)
      ensures memo.Keyed? ==>
                var m := memo.keyed;
                var s := MapStep(m.keys, m.func, old(m.resultMap), Bind(selectors, state));
                r == Lift(s.result) && m.resultMap == s.cache &&
                m.recomputations == old(m.recomputations) + (if s.recomputed then 1 else 0)
    {
      var params := BindParams(selectors, state);
      assert params == Bind(selectors, state);
      match memo
      case SingleEntry(m) =>
        r := m.Call(params);
      case Keyed(m) =>
        var v := m.Call(params);
        r := Lift(v);
    }
  }

  /** `create_selector(selectors, func, memoize)`: a selector over a fresh
      memoized copy of `func`. */
  method CreateSelector<S, V, R>(selectors: seq<S -> V>, func: seq<V> -> R, strategy: Strategy<V>)
    returns (sel: Selector<S, V, R>)
    ensures fresh(sel) && fresh(sel.memo.Target()) && sel.selectors == selectors
    ensures strategy.DefaultMemoize? ==>
              sel.memo.SingleEntry? && sel.memo.single.checks == strategy.checks &&
              sel.memo.single.func == func &&
              sel.memo.single.Cache() == EmptySlot() && sel.memo.single.recomputations == 0
    ensures strategy.MapMemoize? ==>
              sel.memo.Keyed? && sel.memo.keyed.keys == strategy.keys &&
              sel.memo.keyed.func == func &&
              sel.memo.keyed.resultMap == map[] && sel.memo.keyed.recomputations == 0
  {
    var memo := Memoize(strategy, func);
    sel := new Selector(memo, selectors);
  }
}
