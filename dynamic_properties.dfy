/** What the dynamically typed memoizers promise, stated over the step
    functions that specify their `Call` methods. */
module DynamicProperties {
  import opened Outcomes
  import opened Bundles
  import opened DynamicReselect

  // ---------------------------------------------------------------- default_memoize

  /** The arity error: thrown exactly when the bundle has the cached arity
      but not the arity of the equality checks; nothing runs and the cache
      is left as it was. */
  lemma SingleEntryArityError<V, R>(checks: seq<(V, V) -> bool>, func: seq<V> -> R,
                                    slot: Slot<V, R>, args: seq<V>)
    ensures var s := SingleEntryStep(checks, func, slot, args);
            (s.result.Err? <==> |slot.lastArgs| == |args| && |args| != |checks|) &&
            (s.result.Err? ==> s.result.error == DefaultArityMismatch && s.cache == slot && !s.recomputed)
  {
  }

  /** A hit happens exactly when the bundle has the cached arity (which is
      also the checks' arity) and every position is judged equal; it returns
      the cached result, leaves the cache alone and does not run `func`. */
  lemma SingleEntryHit<V, R>(checks: seq<(V, V) -> bool>, func: seq<V> -> R,
                             slot: Slot<V, R>, args: seq<V>)
    ensures var s := SingleEntryStep(checks, func, slot, args);
            (s.result.Ok? && !s.recomputed <==>
               |slot.lastArgs| == |args| == |checks| && AllEqual(checks, args, slot.lastArgs)) &&
            (s.result.Ok? && !s.recomputed ==> s.result.value == slot.lastResult && s.cache == slot)
  {
  }

  /** A miss runs `func` once on the new bundle, overwrites the single slot
      with that bundle and result, and returns the result. A single position
      judged unequal is enough for a miss. */
  lemma SingleEntryMiss<V, R>(checks: seq<(V, V) -> bool>, func: seq<V> -> R,
                              slot: Slot<V, R>, args: seq<V>, i: nat)
    requires |slot.lastArgs| == |args| == |checks|
    requires i < |args| && !checks[i](args[i], slot.lastArgs[i])
    ensures var s := SingleEntryStep(checks, func, slot, args);
            s.recomputed && s.result == Ok(Some(func(args))) &&
            s.cache == Slot(args, Some(func(args)))
  {
  }

  /** The comparison stops at the first unequal position: when position 0
      already differs, exactly one check is evaluated and the call misses. */
  lemma {:induction false} SingleEntryShortCircuit<V, R>(checks: seq<(V, V) -> bool>, func: seq<V> -> R,
                                                         slot: Slot<V, R>, args: seq<V>)
    requires |slot.lastArgs| == |args| == |checks| > 0
    requires !checks[0](args[0], slot.lastArgs[0])
    ensures Comparisons(checks, args, slot.lastArgs) == 1
    ensures SingleEntryStep(checks, func, slot, args).recomputed
  {
    assert FirstMismatch(checks, args, slot.lastArgs) == 0;
  }

  /** The scan evaluates the checks up to the first mismatch and no
      further; it evaluates all of them exactly on a hit. */
  lemma SingleEntryComparisons<V>(checks: seq<(V, V) -> bool>, args: seq<V>, last: seq<V>)
    requires |args| == |checks| == |last|
    ensures Comparisons(checks, args, last) <= |args|
    ensures Comparisons(checks, args, last) == |args| <==>
              AllEqual(checks, args, last) || FirstMismatch(checks, args, last) == |args| - 1
    ensures !AllEqual(checks, args, last) ==>
              Comparisons(checks, args, last) == FirstMismatch(checks, args, last) + 1
  {
    FirstMismatchAllEqual(checks, args, last);
  }

  /** On a fresh memoizer, a first call with a non-empty bundle always runs
      `func`, even when its arity differs from the checks' arity: the arity
      error is only raised once the cached bundle has the same arity. */
  lemma {:induction false} SingleEntryFirstCall<V, R>(checks: seq<(V, V) -> bool>, func: seq<V> -> R, args: seq<V>)
    requires |args| > 0
    ensures var s := SingleEntryStep(checks, func, EmptySlot(), args);
            s.recomputed && s.result == Ok(Some(func(args))) &&
            s.cache == Slot(args, Some(func(args)))
    ensures |args| != |checks| ==>
              var s := SingleEntryStep(checks, func, EmptySlot(), args);
              SingleEntryStep(checks, func, s.cache, args).result == Err(DefaultArityMismatch)
  {
  }

  /** A zero-length call on a fresh memoizer without checks is a vacuous hit:
      it returns the empty default result and does not run `func`. */
  lemma SingleEntryEmptyBundle<V, R>(func: seq<V> -> R)
    ensures var s := SingleEntryStep([], func, EmptySlot<V, R>(), []);
            s.result == Ok(None) && !s.recomputed && s.cache == EmptySlot()
  {
  }

  /** Miss then hit: after a successful call on a bundle whose positions
      each compare equal to themselves, repeating the call returns the same
      result without running `func` again. */
  lemma SingleEntryRepeatHits<V, R>(checks: seq<(V, V) -> bool>, func: seq<V> -> R,
                                    slot: Slot<V, R>, args: seq<V>)
    requires |args| == |checks|
    requires forall i :: 0 <= i < |args| ==> checks[i](args[i], args[i])
    ensures var s1 := SingleEntryStep(checks, func, slot, args);
            var s2 := SingleEntryStep(checks, func, s1.cache, args);
            s1.result.Ok? && !s2.recomputed && s2.result == s1.result && s2.cache == s1.cache
  {
    var s1 := SingleEntryStep(checks, func, slot, args);
    if s1.recomputed {
      assert s1.cache.lastArgs == args;
      assert AllEqual(checks, args, s1.cache.lastArgs);
    }
  }

  /** Single-entry narrowness: calling with X, then with a Y judged unequal
      to X, then with X again runs `func` three times, since only the
      immediately preceding bundle is remembered. */
  lemma {:induction false} SingleEntryForgets<V, R>(checks: seq<(V, V) -> bool>, func: seq<V> -> R,
                                                    x: seq<V>, y: seq<V>, i: nat, j: nat)
    requires |x| == |y| == |checks| > 0
    requires i < |y| && !checks[i](y[i], x[i])
    requires j < |x| && !checks[j](x[j], y[j])
    ensures var s1 := SingleEntryStep(checks, func, EmptySlot(), x);
            var s2 := SingleEntryStep(checks, func, s1.cache, y);
            var s3 := SingleEntryStep(checks, func, s2.cache, x);
            s1.recomputed && s2.recomputed && s3.recomputed &&
            s3.result == Ok(Some(func(x))) && s3.cache == Slot(x, Some(func(x)))
  {
    var s1 := SingleEntryStep(checks, func, EmptySlot(), x);
    assert s1.cache.lastArgs == x;
    SingleEntryMiss(checks, func, s1.cache, y, i);
    var s2 := SingleEntryStep(checks, func, s1.cache, y);
    SingleEntryMiss(checks, func, s2.cache, x, j);
  }

  /** The slot holds the result of `func` on the cached bundle, or is still
      the fresh empty slot. */
  ghost predicate SlotCoherent<V, R>(func: seq<V> -> R, slot: Slot<V, R>)
  {
    slot.lastResult == Some(func(slot.lastArgs)) || slot == EmptySlot()
  }

  /** Cache coherence: every call keeps the slot coherent, and a value it
      returns is `func` of the bundle itself or of the cached bundle the
      checks judged equal to it; the only other outcome is the empty result
      of the vacuous zero-length hit. */
  lemma SingleEntryCoherent<V, R>(checks: seq<(V, V) -> bool>, func: seq<V> -> R,
                                  slot: Slot<V, R>, args: seq<V>)
    requires SlotCoherent(func, slot)
    ensures var s := SingleEntryStep(checks, func, slot, args);
            SlotCoherent(func, s.cache) &&
            (s.result.Ok? ==>
               s.result.value == Some(func(args)) ||
               (|args| == |checks| == |slot.lastArgs| && AllEqual(checks, args, slot.lastArgs) &&
                s.result.value == Some(func(slot.lastArgs))) ||
               (args == [] && s.result.value == None))
  {
  }

  // ---------------------------------------------------------------- map_memoize

  /** The arity error: thrown exactly when the bundle's arity differs from
      the key functions', before any lookup or insertion. */
  lemma MapArityError<V, R>(keys: seq<V -> string>, func: seq<V> -> R,
                            table: map<string, R>, args: seq<V>)
    ensures var s := MapStep(keys, func, table, args);
            (s.result.Err? <==> |args| != |keys|) &&
            (s.result.Err? ==> s.result.error == MapArityMismatch && s.cache == table && !s.recomputed)
  {
  }

  /** Lookup: when the bundle's key is present the stored value is returned
      and nothing changes; otherwise `func` runs once and its result is
      stored under the key and returned. */
  lemma MapLookup<V, R>(keys: seq<V -> string>, func: seq<V> -> R,
                        table: map<string, R>, args: seq<V>)
    requires |args| == |keys|
    ensures var s := MapStep(keys, func, table, args);
            var key := Key(keys, args);
            (key in table ==> s.result == Ok(table[key]) && s.cache == table && !s.recomputed) &&
            (key !in table ==> s.result == Ok(func(args)) && s.cache == table[key := func(args)] && s.recomputed)
  {
  }

  /** The table only grows: no entry is ever removed or overwritten, at most
      one is added, and after a successful call the bundle's key maps to the
      value returned. */
  lemma MapGrows<V, R>(keys: seq<V -> string>, func: seq<V> -> R,
                       table: map<string, R>, args: seq<V>)
    ensures var s := MapStep(keys, func, table, args);
            table.Keys <= s.cache.Keys &&
            (forall k :: k in table ==> s.cache[k] == table[k]) &&
            |s.cache| <= |table| + 1 &&
            (s.result.Ok? ==> Key(keys, args) in s.cache && s.cache[Key(keys, args)] == s.result.value)
  {
    var s := MapStep(keys, func, table, args);
    if s.recomputed {
      var key := Key(keys, args);
      assert s.cache.Keys == table.Keys + {key};
    }
  }

  /** Unbounded recall: calling with X, then with a Y of a different key,
      then with X again runs `func` only twice; the third call returns the
      first call's result. */
  lemma {:induction false} MapRecalls<V, R>(keys: seq<V -> string>, func: seq<V> -> R,
                                            table: map<string, R>, x: seq<V>, y: seq<V>)
    requires |x| == |y| == |keys|
    requires Key(keys, x) !in table && Key(keys, y) !in table
    requires Key(keys, x) != Key(keys, y)
    ensures var s1 := MapStep(keys, func, table, x);
            var s2 := MapStep(keys, func, s1.cache, y);
            var s3 := MapStep(keys, func, s2.cache, x);
            s1.recomputed && s2.recomputed && !s3.recomputed &&
            s3.result == s1.result == Ok(func(x)) && |s3.cache| == |table| + 2
  {
    var s1 := MapStep(keys, func, table, x);
    var s2 := MapStep(keys, func, s1.cache, y);
    assert s2.cache[Key(keys, x)] == func(x);
    assert s1.cache.Keys == table.Keys + {Key(keys, x)};
    assert s2.cache.Keys == s1.cache.Keys + {Key(keys, y)};
  }

  /** Every entry of the table is `func` of some bundle with that key. */
  ghost predicate TableCoherent<V(!new), R>(keys: seq<V -> string>, func: seq<V> -> R, table: map<string, R>)
  {
    forall k :: k in table ==>
      exists b: seq<V> :: |b| == |keys| && Key(keys, b) == k && table[k] == func(b)
  }

  /** Cache coherence: every call keeps the table coherent, and a value it
      returns is `func` of some bundle whose key equals the argument
      bundle's key. */
  lemma MapCoherent<V(!new), R>(keys: seq<V -> string>, func: seq<V> -> R,
                          table: map<string, R>, args: seq<V>)
    requires TableCoherent(keys, func, table)
    ensures var s := MapStep(keys, func, table, args);
            TableCoherent(keys, func, s.cache) &&
            (s.result.Ok? ==>
               exists b: seq<V> :: |b| == |keys| && Key(keys, b) == Key(keys, args) && s.result.value == func(b))
  {
    var s := MapStep(keys, func, table, args);
    if s.result.Ok? {
      var key := Key(keys, args);
      if key in table {
        assert exists b: seq<V> :: |b| == |keys| && Key(keys, b) == key && table[key] == func(b);
      } else {
        assert |args| == |keys| && Key(keys, args) == key && s.result.value == func(args);
        forall k | k in s.cache
          ensures exists b: seq<V> :: |b| == |keys| && Key(keys, b) == k && s.cache[k] == func(b)
        {
          if k == key {
            assert Key(keys, args) == k && s.cache[k] == func(args);
          } else {
            assert k in table && s.cache[k] == table[k];
          }
        }
      }
    }
  }

  /** Keys without a separator collide: with identity key functions, after a
      call on ("1", "23") a call on ("12", "3") is a hit that returns the
      result computed for ("1", "23"), not `func` of its own bundle. */
  lemma MapKeyCollision()
    ensures var id := (s: string) => s;
            var firstLength := (b: seq<string>) => if |b| > 0 then |b[0]| else 0;
            var s1 := MapStep([id, id], firstLength, map[], ["1", "23"]);
            var s2 := MapStep([id, id], firstLength, s1.cache, ["12", "3"]);
            !s2.recomputed && s2.result == Ok(1) && firstLength(["12", "3"]) == 2
  {
    KeyCollision();
  }
}
