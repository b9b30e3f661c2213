/** The selector scenario of the example program: a root state with an id
    and a nested sub id, two input selectors, the product as combining
    function, and six derivations over changing states. */
module ReselectExample {
  import opened Outcomes
  import opened Bundles
  import opened DynamicReselect

  datatype SubState = SubState(subId: int)
  datatype RootState = RootState(id: int, subState: SubState)

  function IdSelector(state: RootState): int
  {
    state.id
  }

  function SubIdSelector(state: RootState): int
  {
    state.subState.subId
  }

  /** `id * sub_id` of the first two parameters; a shorter bundle, on which
      the source's `params.at` throws, gives 0. */
  function Multiply(params: seq<int>): int
  {
    if |params| >= 2 then params[0] * params[1] else 0
  }

  function IntEquals(left: int, right: int): bool
  {
    left == right
  }

  /** Decimal digits of a natural number, most significant first. */
  function NatString(n: nat): (s: string)
    ensures |s| > 0 && forall i :: 0 <= i < |s| ==> '0' <= s[i] <= '9'
  {
    if n < 10 then ["0123456789"[n]]
    else NatString(n / 10) + ["0123456789"[n % 10]]
  }

  /** The key function of the example: the decimal form of an integer, as
      `std::to_string` writes it. */
  function DecimalString(n: int): (s: string)
    ensures |s| > 0 && (s[0] == '-' <==> n < 0)
    ensures forall i :: 0 < i < |s| ==> '0' <= s[i] <= '9'
  {
    if n < 0 then "-" + NatString(-n) else NatString(n)
  }

  /** Both selectors applied to a state give its id and sub id, in order. */
  lemma BindPair(selectors: seq<RootState -> int>, state: RootState)
    requires selectors == [IdSelector, SubIdSelector]
    ensures Bind(selectors, state) == [state.id, state.subState.subId]
  {
    var b := Bind(selectors, state);
    assert |b| == 2 && b[0] == state.id && b[1] == state.subState.subId;
  }

  /** The key of a two-position bundle under decimal keys is the two decimal
      forms, concatenated. */
  lemma DecimalKey(a: int, b: int)
    ensures Key([DecimalString, DecimalString], [a, b]) == DecimalString(a) + DecimalString(b)
  {
    var keys := [DecimalString, DecimalString];
    var args := [a, b];
    assert keys[..1] == [DecimalString] && keys[..1][..0] == [];
    calc {
      Key(keys, args);
      Key(keys[..1], args) + DecimalString(b);
      Key(keys[..1][..0], args) + DecimalString(a) + DecimalString(b);
      DecimalString(a) + DecimalString(b);
    }
  }

  /** One derivation of the example's map-memoized selector: the bundle's
      key is the two decimal forms concatenated; a present key is a hit, an
      absent one stores the product. */
  method SelectByKey(sel: Selector<RootState, int, int>, state: RootState, ghost key: string)
    returns (r: Result<Option<int>>)
    requires sel.memo.Keyed? && sel.selectors == [IdSelector, SubIdSelector]
    requires sel.memo.keyed.keys == [DecimalString, DecimalString] && sel.memo.keyed.func == Multiply
    requires key == DecimalString(state.id) + DecimalString(state.subState.subId)
    modifies sel.memo.Target()
    ensures var m := sel.memo.keyed;
            if key in old(m.resultMap)
            then r == Ok(Some(old(m.resultMap)[key])) && m.resultMap == old(m.resultMap) &&
                 m.recomputations == old(m.recomputations)
            else r == Ok(Some(state.id * state.subState.subId)) &&
                 m.resultMap == old(m.resultMap)[key := state.id * state.subState.subId] &&
                 m.recomputations == old(m.recomputations) + 1
  {
    BindPair(sel.selectors, state);
    DecimalKey(state.id, state.subState.subId);
    r := sel.Select(state);
  }

  /** The scenario as written: map memoize with decimal keys. The six
      derivations give 8, 10, 10, 50, 50, 8; only the first, second and
      fourth run the combining function, and the last is a hit on the first
      entry. */
  method MapMemoizeExample() returns (results: seq<Result<Option<int>>>, ghost recomputations: nat, ghost entries: nat)
    ensures results == [Ok(Some(8)), Ok(Some(10)), Ok(Some(10)), Ok(Some(50)), Ok(Some(50)), Ok(Some(8))]
    ensures recomputations == 3 && entries == 3
  {
    var keys := [DecimalString, DecimalString];
    var multiplySelector := CreateSelector([IdSelector, SubIdSelector], Multiply, MapMemoize(keys));
    var m := multiplySelector.memo.keyed;

    var rootState := RootState(2, SubState(4));
    var result1 := SelectByKey(multiplySelector, rootState, "24");
    assert m.resultMap == map["24" := 8];

    rootState := rootState.(subState := SubState(5));
    var result2 := SelectByKey(multiplySelector, rootState, "25");
    assert m.resultMap == map["24" := 8, "25" := 10];

    rootState := rootState.(subState := SubState(5));
    var result3 := SelectByKey(multiplySelector, rootState, "25");

    rootState := rootState.(id := 10);
    var result4 := SelectByKey(multiplySelector, rootState, "105");
    assert m.resultMap == map["24" := 8, "25" := 10, "105" := 50];

    var result5 := SelectByKey(multiplySelector, rootState, "105");

    rootState := rootState.(id := 2, subState := SubState(4));
    var result6 := SelectByKey(multiplySelector, rootState, "24");

    results := [result1, result2, result3, result4, result5, result6];
    recomputations := m.recomputations;
    entries := |m.resultMap|;
  }

  /** One derivation of the example's default-memoized selector: a state
      whose id and sub id equal the cached bundle's is a hit, any other
      overwrites the slot with the new bundle and product. */
  method SelectBySlot(sel: Selector<RootState, int, int>, state: RootState) returns (r: Result<Option<int>>)
    requires sel.memo.SingleEntry? && sel.selectors == [IdSelector, SubIdSelector]
    requires sel.memo.single.checks == [IntEquals, IntEquals] && sel.memo.single.func == Multiply
    requires |sel.memo.single.lastArgs| == 2
    modifies sel.memo.Target()
    ensures var m := sel.memo.single;
            var bundle := [state.id, state.subState.subId];
            if bundle == old(m.lastArgs)
            then r == Ok(old(m.lastResult)) && m.Cache() == old(m.Cache()) &&
                 m.recomputations == old(m.recomputations)
            else r == Ok(Some(state.id * state.subState.subId)) &&
                 m.Cache() == Slot(bundle, Some(state.id * state.subState.subId)) &&
                 m.recomputations == old(m.recomputations) + 1
  {
    BindPair(sel.selectors, state);
    var m := sel.memo.single;
    var bundle := [state.id, state.subState.subId];
    if bundle != m.lastArgs {
      var i :| 0 <= i < 2 && bundle[i] != m.lastArgs[i];
      assert !m.checks[i](bundle[i], m.lastArgs[i]);
    }
    r := sel.Select(state);
  }

  /** The same scenario with the commented-out alternative, default memoize
      with integer equality: the last derivation is a miss, since only the
      immediately preceding bundle is remembered, so the combining function
      runs four times: three runs precede the last derivation and the last
      is the fourth. */
  method DefaultMemoizeExample() returns (results: seq<Result<Option<int>>>,
                                           ghost runsBeforeLast: nat, ghost recomputations: nat)
    ensures results == [Ok(Some(8)), Ok(Some(10)), Ok(Some(10)), Ok(Some(50)), Ok(Some(50)), Ok(Some(8))]
    ensures runsBeforeLast == 3 && recomputations == 4
  {
    var equalityChecks := [IntEquals, IntEquals];
    var selectors := [IdSelector, SubIdSelector];
    var multiplySelector := CreateSelector(selectors, Multiply, DefaultMemoize(equalityChecks));
    var m := multiplySelector.memo.single;

    var rootState := RootState(2, SubState(4));
    BindPair(selectors, rootState);
    var result1 := multiplySelector.Select(rootState);
    assert m.Cache() == Slot([2, 4], Some(8));

    rootState := rootState.(subState := SubState(5));
    var result2 := SelectBySlot(multiplySelector, rootState);
    var result3 := SelectBySlot(multiplySelector, rootState);

    rootState := rootState.(id := 10);
    var result4 := SelectBySlot(multiplySelector, rootState);
    var result5 := SelectBySlot(multiplySelector, rootState);

    rootState := rootState.(id := 2, subState := SubState(4));
    runsBeforeLast := m.recomputations;
    var result6 := SelectBySlot(multiplySelector, rootState);

    results := [result1, result2, result3, result4, result5, result6];
    recomputations := m.recomputations;
  }
}
