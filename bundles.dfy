/** Parameter bundles: the ordered argument sequence handed to a memoized
    function, and the three things the memoizers compute from one — positional
    equality against the cached bundle, the position of the first mismatch,
    and the concatenated string key. Tuples of the statically typed version
    and `std::vector<flow::any>` of the dynamically typed one are both modelled
    as sequences. */
module Bundles {

  /** The bundle a selector binds: position i holds `selectors[i](state)`. */
  function Bind<S, V>(selectors: seq<S -> V>, state: S): seq<V>
  {
    seq(|selectors|, i requires 0 <= i < |selectors| => selectors[i](state))
  }

  /** Every position of `args` is judged equal to the same position of `last`
      by the equality check of that position. */
  predicate AllEqual<V>(checks: seq<(V, V) -> bool>, args: seq<V>, last: seq<V>)
    requires |args| <= |checks| && |args| <= |last|
  {
    forall i :: 0 <= i < |args| ==> checks[i](args[i], last[i])
  }

  /** The first position whose equality check fails, or `|args|` when none
      does: the number of positions a short-circuiting scan finds equal. */
  function FirstMismatch<V>(checks: seq<(V, V) -> bool>, args: seq<V>, last: seq<V>): (k: nat)
    requires |args| <= |checks| && |args| <= |last|
    ensures k <= |args|
    ensures forall i :: 0 <= i < k ==> checks[i](args[i], last[i])
    ensures k < |args| ==> !checks[k](args[k], last[k])
    decreases |args|
  {
    if |args| == 0 then 0
    else if !checks[0](args[0], last[0]) then 0
    else 1 + FirstMismatch(checks[1..], args[1..], last[1..])
  }

  /** A short-circuiting scan finds all positions equal exactly when no
      position mismatches. */
  lemma FirstMismatchAllEqual<V>(checks: seq<(V, V) -> bool>, args: seq<V>, last: seq<V>)
    requires |args| <= |checks| && |args| <= |last|
    ensures FirstMismatch(checks, args, last) == |args| <==> AllEqual(checks, args, last)
  {
    var k := FirstMismatch(checks, args, last);
    if k < |args| {
      assert !checks[k](args[k], last[k]);
    }
  }

  /** The cache key of a bundle: `keys[i](args[i])` for each key function, in
      position order, concatenated with no separator. Positions of `args`
      beyond `|keys|` do not take part. */
  function Key<V>(keys: seq<V -> string>, args: seq<V>): string
    requires |keys| <= |args|
  {
    if |keys| == 0 then ""
    else Key(keys[..|keys| - 1], args) + keys[|keys| - 1](args[|keys| - 1])
  }

  /** Keys are built left to right: the key of the first j positions is a
      prefix of the whole key, followed by the remaining key strings. */
  lemma {:induction false} KeyPrefix<V>(keys: seq<V -> string>, args: seq<V>, j: nat)
    requires j <= |keys| <= |args|
    ensures Key(keys[..j], args) <= Key(keys, args)
  {
    if j < |keys| {
      var n := |keys|;
      assert keys[..n - 1][..j] == keys[..j];
      KeyPrefix(keys[..n - 1], args, j);
    } else {
      assert keys[..j] == keys;
    }
  }

  /** Only the first `|keys|` arguments determine the key. */
  lemma {:induction false} KeyIgnoresExtraArgs<V>(keys: seq<V -> string>, args: seq<V>, other: seq<V>)
    requires |keys| <= |args| && |keys| <= |other|
    requires args[..|keys|] == other[..|keys|]
    ensures Key(keys, args) == Key(keys, other)
  {
    if |keys| > 0 {
      var n := |keys|;
      assert args[..n - 1] == args[..n][..n - 1] && other[..n - 1] == other[..n][..n - 1];
      assert args[n - 1] == args[..n][n - 1] && other[n - 1] == other[..n][n - 1];
      KeyIgnoresExtraArgs(keys[..n - 1], args, other);
    }
  }

  /** The concatenated key is not injective: with identity key functions the
      bundles ("1", "23") and ("12", "3") share the key "123". */
  lemma KeyCollision()
    ensures var id := (s: string) => s;
            ["1", "23"] != ["12", "3"] &&
            Key([id, id], ["1", "23"]) == Key([id, id], ["12", "3"]) == "123"
  {
    var id := (s: string) => s;
    assert [id, id][..1] == [id];
    assert Key([id], ["1", "23"]) == "1";
    assert Key([id], ["12", "3"]) == "12";
  }
}
