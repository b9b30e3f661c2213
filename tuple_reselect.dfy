/** The statically typed selector engine: memoizers over `std::tuple`
    bundles, modelled as sequences whose length is the tuple's arity. The
    iteration helper `for_each_in_tuple` is a left fold over positions; the
    visitor closures that write `key` and `all_args_are_equal` by reference
    become the fold's accumulator. */
module TupleReselect {
  import opened Bundles

  // ---------------------------------------------------------------- for_each_in_tuple

  /** Visits positions `i`, `i + 1`, ..., `|t| - 1` of one tuple. */
  function ForEach1<A, Acc>(t: seq<A>, f: (Acc, A) -> Acc, acc: Acc, i: nat): Acc
    requires i <= |t|
    decreases |t| - i
  {
    if i == |t| then acc else ForEach1(t, f, f(acc, t[i]), i + 1)
  }

  /** Visits the index-aligned elements of two tuples; the first one's arity
      bounds the iteration. */
  function ForEach2<A, B, Acc>(t: seq<A>, s: seq<B>, f: (Acc, A, B) -> Acc, acc: Acc, i: nat): Acc
    requires i <= |t| <= |s|
    decreases |t| - i
  {
    if i == |t| then acc else ForEach2(t, s, f, f(acc, t[i], s[i]), i + 1)
  }

  /** Visits the index-aligned elements of three tuples; the first one's
      arity bounds the iteration. */
  function ForEach3<A, B, C, Acc>(t: seq<A>, s: seq<B>, x: seq<C>, f: (Acc, A, B, C) -> Acc, acc: Acc, i: nat): Acc
    requires i <= |t| <= |s| && |t| <= |x|
    decreases |t| - i
  {
    if i == |t| then acc else ForEach3(t, s, x, f, f(acc, t[i], s[i], x[i]), i + 1)
  }

  /** The visitor of `map_memoize`: appends the key string of one argument. */
  function KeyVisitor<V>(key: string, keyFunc: V -> string, arg: V): string
  {
    key + keyFunc(arg)
  }

  /** The visitor of `default_memoize`: evaluates one equality check and
      clears the flag when it fails; it never stops the iteration. */
  function EqualityVisitor<V>(allEqual: bool, arg: V, lastArg: V, check: (V, V) -> bool): bool
  {
    if !check(arg, lastArg) then false else allEqual
  }

  /** Folding the key visitor from position `i` on, starting from the key of
      the first `i` positions, gives the key of the whole bundle. */
  lemma {:induction false} KeyFold<V>(keys: seq<V -> string>, args: seq<V>, i: nat)
    requires i <= |keys| <= |args|
    ensures ForEach2(keys, args, KeyVisitor, Key(keys[..i], args), i) == Key(keys, args)
    decreases |keys| - i
  {
    if i < |keys| {
      assert keys[..i + 1][..i] == keys[..i];
      KeyFold(keys, args, i + 1);
    } else {
      assert keys[..i] == keys;
    }
  }

  /** Folding the equality visitor from position `i` on keeps the flag
      exactly when it was set and every remaining position is judged equal. */
  lemma {:induction false} EqualityFold<V>(checks: seq<(V, V) -> bool>, args: seq<V>, last: seq<V>, acc: bool, i: nat)
    requires i <= |args| <= |last| && |args| <= |checks|
    ensures ForEach3(args, last, checks, EqualityVisitor, acc, i) ==
            (acc && forall j :: i <= j < |args| ==> checks[j](args[j], last[j]))
    decreases |args| - i
  {
    if i < |args| {
      EqualityFold(checks, args, last, EqualityVisitor(acc, args[i], last[i], checks[i]), i + 1);
    }
  }

  // ---------------------------------------------------------------- memoizer steps

  /** The single-entry cache; it starts as the default-constructed tuple and
      result, not as an empty state. */
  datatype Slot<V, R> = Slot(lastArgs: seq<V>, lastResult: R)

  /** The outcome of one call: what it returns, the cache afterwards, and
      whether the combining function ran. No error is possible: arities are
      fixed by the tuple types. */
  datatype Step<C, T> = Step(result: T, cache: C, recomputed: bool)

  /** One call of the single-entry memoizer: a hit when every position is
      judged equal to the cached one, otherwise a miss that overwrites the
      slot. */
  function DefaultStep<V, R>(checks: seq<(V, V) -> bool>, func: seq<V> -> R,
                             slot: Slot<V, R>, args: seq<V>): Step<Slot<V, R>, R>
    requires |args| <= |slot.lastArgs| && |args| <= |checks|
  {
    if AllEqual(checks, args, slot.lastArgs) then Step(slot.lastResult, slot, false)
    else Step(func(args), Slot(args, func(args)), true)
  }

  /** One call of the map memoizer: a hit when the bundle's key is present,
      otherwise a miss that inserts the new result under that key. */
  function MapStep<V, R>(keys: seq<V -> string>, func: seq<V> -> R,
                         table: map<string, R>, args: seq<V>): Step<map<string, R>, R>
    requires |keys| <= |args|
  {
    var key := Key(keys, args);
    if key in table then Step(table[key], table, false)
    else Step(func(args), table[key := func(args)], true)
  }

  // ---------------------------------------------------------------- memoizers

  /** The closure `default_memoize` builds around `func`; `arity` is the
      number of elements of its `Args...` tuple. */
  class TupleDefaultMemo<V, R> {
    const checks: seq<(V, V) -> bool>
    const func: seq<V> -> R
    const arity: nat
    var lastArgs: seq<V>
    var lastResult: R
    /** How many times `func` has run. */
    ghost var recomputations: nat

    ghost predicate Valid()
      reads this
    {
      |lastArgs| == arity <= |checks|
    }

    function Cache(): Slot<V, R>
      reads this
    {
      Slot(lastArgs, lastResult)
    }

    /** `defaultArgs` and `defaultResult` are the values of `Args()` and
        `T()`, which the cache starts from. */
    constructor (checks: seq<(V, V) -> bool>, func: seq<V> -> R, defaultArgs: seq<V>, defaultResult: R)
      requires |defaultArgs| <= |checks|
      ensures Valid()
      ensures this.checks == checks && this.func == func && arity == |defaultArgs|
      ensures Cache() == Slot(defaultArgs, defaultResult) && recomputations == 0
    {
      this.checks := checks;
      this.func := func;
      arity := |defaultArgs|;
      lastArgs := defaultArgs;
      lastResult := defaultResult;
      recomputations := 0;
    }

    method Call(args: seq<V>) returns (r: R)
      requires Valid() && |args| == arity
      modifies this
      ensures Valid()
      ensures var s := DefaultStep(checks, func, old(Cache()), args);
              r == s.result && Cache() == s.cache &&
              recomputations == old(recomputations) + (if s.recomputed then 1 else 0)
    {
      var allArgsAreEqual := ForEach3(args, lastArgs, checks, EqualityVisitor, true, 0);
      EqualityFold(checks, args, lastArgs, true, 0);
      if allArgsAreEqual {
        return lastResult;
      }
      var newResult := func(args);
      lastArgs := args;
      lastResult := newResult;
      recomputations := recomputations + 1;
      r := lastResult;
    }
  }

  /** The closure `map_memoize` builds around `func`; the key tuple may be
      shorter than the `Args...` tuple, whose arity is `arity`. */
  class TupleMapMemo<V, R> {
    const keys: seq<V -> string>
    const func: seq<V> -> R
    const arity: nat
    var resultMap: map<string, R>
    /** How many times `func` has run. */
    ghost var recomputations: nat

    constructor (keys: seq<V -> string>, func: seq<V> -> R, arity: nat)
      requires |keys| <= arity
      ensures this.keys == keys && this.func == func && this.arity == arity
      ensures resultMap == map[] && recomputations == 0
    {
      this.keys := keys;
      this.func := func;
      this.arity := arity;
      resultMap := map[];
      recomputations := 0;
    }

    method Call(args: seq<V>) returns (r: R)
      requires |keys| <= arity && |args| == arity
      modifies this
      ensures var s := MapStep(keys, func, old(resultMap), args);
              r == s.result && resultMap == s.cache &&
              recomputations == old(recomputations) + (if s.recomputed then 1 else 0)
    {
      var key := ForEach2(keys, args, KeyVisitor, "", 0);
      assert keys[..0] == [];
      KeyFold(keys, args, 0);
      if key in resultMap {
        return resultMap[key];
      }
      var newResult := func(args);
      resultMap := resultMap[key := newResult];
      recomputations := recomputations + 1;
      r := newResult;
    }
  }

  /** A strategy before it is given a combining function, with the types'
      defaults and arity made explicit. */
  datatype Strategy<!V, R> =
    | DefaultMemoize(checks: seq<(V, V) -> bool>, defaultArgs: seq<V>, defaultResult: R)
    | MapMemoize(keys: seq<V -> string>, arity: nat)
  {
    predicate WellTyped()
    {
      match this
      case DefaultMemoize(checks, defaultArgs, _) => |defaultArgs| <= |checks|
      case MapMemoize(keys, arity) => |keys| <= arity
    }
  }

  /** A memoized combining function: one of the two memoizer objects. */
  datatype Memoized<V, R> = SingleEntry(single: TupleDefaultMemo<V, R>) | Keyed(keyed: TupleMapMemo<V, R>)
  {
    function Target(): object
    {
      match this
      case SingleEntry(m) => m
      case Keyed(m) => m
    }

    /** The arity of the bundles the memoized function takes. */
    function Arity(): nat
    {
      match this
      case SingleEntry(m) => m.arity
      case Keyed(m) => m.arity
    }

    ghost predicate Valid()
      reads Target()
    {
      match this
      case SingleEntry(m) => m.Valid()
      case Keyed(m) => |m.keys| <= m.arity
    }
  }

  /** Applies a strategy to a combining function, giving a memoized function
      with a cache of its own. */
  method Memoize<V, R>(strategy: Strategy<V, R>, func: seq<V> -> R) returns (m: Memoized<V, R>)
    requires strategy.WellTyped()
    ensures fresh(m.Target()) && m.Valid()
    ensures strategy.DefaultMemoize? ==>
              m.SingleEntry? && m.single.checks == strategy.checks && m.single.func == func &&
              m.Arity() == |strategy.defaultArgs| &&
              m.single.Cache() == Slot(strategy.defaultArgs, strategy.defaultResult) &&
              m.single.recomputations == 0
    ensures strategy.MapMemoize? ==>
              m.Keyed? && m.keyed.keys == strategy.keys && m.keyed.func == func &&
              m.Arity() == strategy.arity &&
              m.keyed.resultMap == map[] && m.keyed.recomputations == 0
  {
    match strategy
    case DefaultMemoize(checks, defaultArgs, defaultResult) =>
      var single := new TupleDefaultMemo(checks, func, defaultArgs, defaultResult);
      m := SingleEntry(single);
    case MapMemoize(keys, arity) =>
      var keyed := new TupleMapMemo(keys, func, arity);
      m := Keyed(keyed);
  }

  /** `copy_params_result`: writes `selectors[i](state)` into position `i`
      of the parameter tuple, for every position, in order. */
  method CopyParamsResult<S, V>(params: array<V>, selectors: seq<S -> V>, state: S)
    requires params.Length <= |selectors|
    modifies params
    ensures forall i :: 0 <= i < params.Length ==> params[i] == selectors[i](state)
    ensures params[..] == Bind(selectors[..params.Length], state)
  {
    for i := 0 to params.Length
      invariant forall j :: 0 <= j < i ==> params[j] == selectors[j](state)
    {
      params[i] := selectors[i](state);
    }
    assert params[..] == Bind(selectors[..params.Length], state);
  }

  /** A selector over tuples: input selectors bound to a memoized function.
      `V(0)` stands for the default-constructible parameter tuple. Only the
      first `memo.Arity()` selectors are ever applied; a longer selector
      tuple is accepted and its extra selectors are never called. */
  class TupleSelector<S, V(0), R> {
    const selectors: seq<S -> V>
    const memo: Memoized<V, R>

    constructor (memo: Memoized<V, R>, selectors: seq<S -> V>)
      ensures this.memo == memo && this.selectors == selectors
    {
      this.memo := memo;
      this.selectors := selectors;
    }

    /** Derives a value from `state`: default-constructs the parameter tuple,
        fills it from the input selectors, and calls the memoized function. */
    method Select(state: S) returns (r: R)
      requires memo.Valid() && memo.Arity() <= |selectors|
      modifies memo.Target()
      ensures memo.Valid()
      ensures memo.SingleEntry? ==>
                var m := memo.single;
                var s := DefaultStep(m.checks, m.func, old(m.Cache()), Bind(selectors[..memo.Arity()], state));
                r == s.result && m.Cache() == s.cache &&
                m.recomputations == old(m.recomputations) + (if s.recomputed then 1 else 0)
      ensures memo.Keyed? ==>
                var m := memo.keyed;
                var s := MapStep(m.keys, m.func, old(m.resultMap), Bind(selectors[..memo.Arity()], state));
                r == s.result && m.resultMap == s.cache &&
                m.recomputations == old(m.recomputations) + (if s.recomputed then 1 else 0)
    {
      var params := new V[memo.Arity()];
      CopyParamsResult(params, selectors, state);
      match memo
      case SingleEntry(m) =>
        r := m.Call(params[..]);
      case Keyed(m) =>
        r := m.Call(params[..]);
    }
  }

  /** `create_selector(selectors, func, memoize)`. */
  method CreateSelector<S, V(0), R>(selectors: seq<S -> V>, func: seq<V> -> R, strategy: Strategy<V, R>)
    returns (sel: TupleSelector<S, V, R>)
    requires strategy.WellTyped()
    requires strategy.DefaultMemoize? ==> |strategy.defaultArgs| <= |selectors|
    requires strategy.MapMemoize? ==> strategy.arity <= |selectors|
    ensures fresh(sel) && fresh(sel.memo.Target()) && sel.selectors == selectors
    ensures sel.memo.Valid() && sel.memo.Arity() <= |sel.selectors|
    ensures strategy.DefaultMemoize? ==>
              sel.memo.SingleEntry? && sel.memo.single.checks == strategy.checks &&
              sel.memo.single.func == func &&
              sel.memo.single.Cache() == Slot(strategy.defaultArgs, strategy.defaultResult) &&
              sel.memo.single.recomputations == 0
    ensures strategy.MapMemoize? ==>
              sel.memo.Keyed? && sel.memo.keyed.keys == strategy.keys &&
              sel.memo.keyed.func == func &&
              sel.memo.keyed.resultMap == map[] && sel.memo.keyed.recomputations == 0
  {
    var memo := Memoize(strategy, func);
    sel := new TupleSelector(memo, selectors);
  }
}
