/** What the statically typed engine promises: the visiting order of the
    tuple iteration, and the behaviour of the two memoizers, stated over
    the step functions that specify their `Call` methods. */
module TupleProperties {
  import opened Bundles
  import opened TupleReselect

  // ---------------------------------------------------------------- for_each_in_tuple

  /** Visitors that only record what they are shown, in order. */
  function Record1<A>(log: seq<A>, a: A): seq<A>
  {
    log + [a]
  }

  function Record2<A, B>(log: seq<(A, B)>, a: A, b: B): seq<(A, B)>
  {
    log + [(a, b)]
  }

  function Record3<A, B, C>(log: seq<(A, B, C)>, a: A, b: B, c: C): seq<(A, B, C)>
  {
    log + [(a, b, c)]
  }

  /** The one-tuple iteration shows the visitor positions `i` to `|t| - 1`,
      each once, in increasing order. */
  lemma {:induction false} ForEach1Visits<A>(t: seq<A>, log: seq<A>, i: nat)
    requires i <= |t|
    ensures ForEach1(t, Record1, log, i) == log + t[i..]
    decreases |t| - i
  {
    if i < |t| {
      ForEach1Visits(t, Record1(log, t[i]), i + 1);
      assert [t[i]] + t[i + 1..] == t[i..];
    }
  }

  /** The two-tuple iteration shows the visitor the index-aligned pairs at
      positions `i` to `|t| - 1`, each once, in increasing order. */
  lemma {:induction false} ForEach2Visits<A, B>(t: seq<A>, s: seq<B>, log: seq<(A, B)>, i: nat)
    requires i <= |t| <= |s|
    ensures var r := ForEach2(t, s, Record2, log, i);
            |r| == |log| + |t| - i && r[..|log|] == log &&
            forall j :: i <= j < |t| ==> r[|log| + j - i] == (t[j], s[j])
    decreases |t| - i
  {
    if i < |t| {
      var log' := Record2(log, t[i], s[i]);
      ForEach2Visits(t, s, log', i + 1);
      var r := ForEach2(t, s, Record2, log', i + 1);
      assert r[..|log'|] == log';
      assert r[..|log|] == log'[..|log|];
    }
  }

  /** The three-tuple iteration shows the visitor the index-aligned triples
      at positions `i` to `|t| - 1`, each once, in increasing order. */
  lemma {:induction false} ForEach3Visits<A, B, C>(t: seq<A>, s: seq<B>, x: seq<C>, log: seq<(A, B, C)>, i: nat)
    requires i <= |t| <= |s| && |t| <= |x|
    ensures var r := ForEach3(t, s, x, Record3, log, i);
            |r| == |log| + |t| - i && r[..|log|] == log &&
            forall j :: i <= j < |t| ==> r[|log| + j - i] == (t[j], s[j], x[j])
    decreases |t| - i
  {
    if i < |t| {
      var log' := Record3(log, t[i], s[i], x[i]);
      ForEach3Visits(t, s, x, log', i + 1);
      var r := ForEach3(t, s, x, Record3, log', i + 1);
      assert r[..|log'|] == log';
      assert r[..|log|] == log'[..|log|];
    }
  }

  /** No early exit: the comparison of `default_memoize` hands every
      position's (argument, cached argument, check) triple to the visitor,
      whether or not an earlier position already failed, and its flag is
      set exactly when every check holds. */
  lemma EqualityScanVisitsAll<V>(checks: seq<(V, V) -> bool>, args: seq<V>, last: seq<V>)
    requires |args| <= |last| && |args| <= |checks|
    ensures var r := ForEach3(args, last, checks, Record3, [], 0);
            |r| == |args| && forall j :: 0 <= j < |args| ==> r[j] == (args[j], last[j], checks[j])
    ensures ForEach3(args, last, checks, EqualityVisitor, true, 0) == AllEqual(checks, args, last)
  {
    ForEach3Visits(args, last, checks, [], 0);
    EqualityFold(checks, args, last, true, 0);
  }

  // ---------------------------------------------------------------- default_memoize

  /** A hit happens exactly when every position is judged equal to the
      cached one; it returns the cached result and leaves the cache alone.
      A miss runs `func` once and overwrites the slot with the bundle and
      its result. */
  lemma TupleDefaultHitOrMiss<V, R>(checks: seq<(V, V) -> bool>, func: seq<V> -> R,
                                    slot: Slot<V, R>, args: seq<V>)
    requires |args| == |slot.lastArgs| <= |checks|
    ensures var s := DefaultStep(checks, func, slot, args);
            (!s.recomputed <==> AllEqual(checks, args, slot.lastArgs)) &&
            (!s.recomputed ==> s.result == slot.lastResult && s.cache == slot) &&
            (s.recomputed ==> s.result == func(args) && s.cache == Slot(args, func(args)))
  {
  }

  /** The cache starts from the default-constructed bundle and result: a
      first call whose arguments all compare equal to the defaults returns
      the default result without running `func`. */
  lemma TupleDefaultInitialHit<V, R>(checks: seq<(V, V) -> bool>, func: seq<V> -> R,
                                     defaultArgs: seq<V>, defaultResult: R, args: seq<V>)
    requires |args| == |defaultArgs| <= |checks|
    requires AllEqual(checks, args, defaultArgs)
    ensures var s := DefaultStep(checks, func, Slot(defaultArgs, defaultResult), args);
            !s.recomputed && s.result == defaultResult
  {
  }

  /** The default start can return a value `func` never produced: with
      integer equality, defaults (0, 0) and result 0, a first call on (0, 0)
      returns 0 although `func` of (0, 0) is 1. */
  lemma TupleDefaultStaleStart()
    ensures var intEquals := (a: int, b: int) => a == b;
            var plusOne := (p: seq<int>) => if |p| == 2 then p[0] + p[1] + 1 else 0;
            var s := DefaultStep([intEquals, intEquals], plusOne, Slot([0, 0], 0), [0, 0]);
            !s.recomputed && s.result == 0 && plusOne([0, 0]) == 1
  {
    var intEquals := (a: int, b: int) => a == b;
    assert AllEqual([intEquals, intEquals], [0, 0], [0, 0]);
  }

  /** Miss then hit: after a call on a bundle whose positions each compare
      equal to themselves, repeating the call returns the same result
      without running `func` again. */
  lemma TupleDefaultRepeatHits<V, R>(checks: seq<(V, V) -> bool>, func: seq<V> -> R,
                                     slot: Slot<V, R>, args: seq<V>)
    requires |args| == |slot.lastArgs| <= |checks|
    requires forall i :: 0 <= i < |args| ==> checks[i](args[i], args[i])
    ensures var s1 := DefaultStep(checks, func, slot, args);
            var s2 := DefaultStep(checks, func, s1.cache, args);
            !s2.recomputed && s2.result == s1.result && s2.cache == s1.cache
  {
    var s1 := DefaultStep(checks, func, slot, args);
    if s1.recomputed {
      assert AllEqual(checks, args, s1.cache.lastArgs);
    }
  }

  /** Single-entry narrowness: from a cache that X misses, X, then a Y
      judged unequal to X, then X again runs `func` three times. */
  lemma {:induction false} TupleDefaultForgets<V, R>(checks: seq<(V, V) -> bool>, func: seq<V> -> R,
                                                     slot: Slot<V, R>, x: seq<V>, y: seq<V>, i: nat, j: nat)
    requires |x| == |y| == |slot.lastArgs| <= |checks|
    requires !AllEqual(checks, x, slot.lastArgs)
    requires i < |y| && !checks[i](y[i], x[i])
    requires j < |x| && !checks[j](x[j], y[j])
    ensures var s1 := DefaultStep(checks, func, slot, x);
            var s2 := DefaultStep(checks, func, s1.cache, y);
            var s3 := DefaultStep(checks, func, s2.cache, x);
            s1.recomputed && s2.recomputed && s3.recomputed &&
            s3.result == func(x) && s3.cache == Slot(x, func(x))
  {
    var s1 := DefaultStep(checks, func, slot, x);
    var s2 := DefaultStep(checks, func, s1.cache, y);
    assert !AllEqual(checks, y, s1.cache.lastArgs);
    assert !AllEqual(checks, x, s2.cache.lastArgs);
  }

  /** The slot holds the result of `func` on the cached bundle, or is still
      the default-constructed bundle and result it started as. */
  ghost predicate DefaultSlotCoherent<V, R>(func: seq<V> -> R, defaults: Slot<V, R>, slot: Slot<V, R>)
  {
    slot.lastResult == func(slot.lastArgs) || slot == defaults
  }

  /** Cache coherence: every call keeps the slot coherent, and a value it
      returns is `func` of the bundle itself, `func` of the cached bundle
      the checks judged equal to it, or the default result of a slot still
      at its defaults (the stale start of `TupleDefaultStaleStart`). */
  lemma TupleDefaultCoherent<V, R>(checks: seq<(V, V) -> bool>, func: seq<V> -> R,
                                   defaults: Slot<V, R>, slot: Slot<V, R>, args: seq<V>)
    requires |args| == |slot.lastArgs| <= |checks|
    requires DefaultSlotCoherent(func, defaults, slot)
    ensures var s := DefaultStep(checks, func, slot, args);
            DefaultSlotCoherent(func, defaults, s.cache) &&
            (s.result == func(args) ||
             (AllEqual(checks, args, slot.lastArgs) && s.result == func(slot.lastArgs)) ||
             (slot == defaults && AllEqual(checks, args, slot.lastArgs) && s.result == defaults.lastResult))
  {
  }

  // ---------------------------------------------------------------- map_memoize

  /** Lookup: a present key returns the stored value and changes nothing;
      an absent key runs `func` once and stores and returns its result. */
  lemma TupleMapLookup<V, R>(keys: seq<V -> string>, func: seq<V> -> R,
                             table: map<string, R>, args: seq<V>)
    requires |keys| <= |args|
    ensures var s := MapStep(keys, func, table, args);
            var key := Key(keys, args);
            (key in table ==> s.result == table[key] && s.cache == table && !s.recomputed) &&
            (key !in table ==> s.result == func(args) && s.cache == table[key := func(args)] && s.recomputed)
  {
  }

  /** The table only grows, entries are never overwritten, and after every
      call the bundle's key maps to the value returned. */
  lemma TupleMapGrows<V, R>(keys: seq<V -> string>, func: seq<V> -> R,
                            table: map<string, R>, args: seq<V>)
    requires |keys| <= |args|
    ensures var s := MapStep(keys, func, table, args);
            table.Keys <= s.cache.Keys &&
            (forall k :: k in table ==> s.cache[k] == table[k]) &&
            |s.cache| <= |table| + 1 &&
            Key(keys, args) in s.cache && s.cache[Key(keys, args)] == s.result
  {
    var s := MapStep(keys, func, table, args);
    if s.recomputed {
      assert s.cache.Keys == table.Keys + {Key(keys, args)};
    }
  }

  /** Unbounded recall: X, then a Y of a different key, then X again runs
      `func` only twice, and the third call returns the first's result. */
  lemma {:induction false} TupleMapRecalls<V, R>(keys: seq<V -> string>, func: seq<V> -> R,
                                                 table: map<string, R>, x: seq<V>, y: seq<V>)
    requires |keys| <= |x| && |keys| <= |y|
    requires Key(keys, x) !in table && Key(keys, y) !in table
    requires Key(keys, x) != Key(keys, y)
    ensures var s1 := MapStep(keys, func, table, x);
            var s2 := MapStep(keys, func, s1.cache, y);
            var s3 := MapStep(keys, func, s2.cache, x);
            s1.recomputed && s2.recomputed && !s3.recomputed &&
            s3.result == s1.result == func(x) && |s3.cache| == |table| + 2
  {
    var s1 := MapStep(keys, func, table, x);
    var s2 := MapStep(keys, func, s1.cache, y);
    assert s2.cache[Key(keys, x)] == func(x);
    assert s1.cache.Keys == table.Keys + {Key(keys, x)};
    assert s2.cache.Keys == s1.cache.Keys + {Key(keys, y)};
  }

  /** The key is built from the key tuple's positions only: when it is
      shorter than the argument tuple, two bundles that agree on its
      positions share one entry, and the second is a hit that returns the
      first one's result. */
  lemma TupleMapIgnoresExtraArgs<V, R>(keys: seq<V -> string>, func: seq<V> -> R,
                                       table: map<string, R>, x: seq<V>, y: seq<V>)
    requires |keys| <= |x| && |keys| <= |y|
    requires x[..|keys|] == y[..|keys|]
    ensures var s1 := MapStep(keys, func, table, x);
            var s2 := MapStep(keys, func, s1.cache, y);
            !s2.recomputed && s2.result == s1.result && s2.cache == s1.cache
  {
    KeyIgnoresExtraArgs(keys, x, y);
  }

  /** Every entry of the table is `func` of some bundle of the memoizer's
      arity with that key. */
  ghost predicate KeyedTableCoherent<V(!new), R>(keys: seq<V -> string>, func: seq<V> -> R,
                                                 arity: nat, table: map<string, R>)
    requires |keys| <= arity
  {
    forall k :: k in table ==>
      exists b: seq<V> :: |b| == arity && Key(keys, b) == k && table[k] == func(b)
  }

  /** Cache coherence: every call keeps the table coherent, and the value
      it returns is `func` of some bundle of the same arity whose key equals
      the argument bundle's key. */
  lemma TupleMapCoherent<V(!new), R>(keys: seq<V -> string>, func: seq<V> -> R, arity: nat,
                                     table: map<string, R>, args: seq<V>)
    requires |keys| <= arity && |args| == arity
    requires KeyedTableCoherent(keys, func, arity, table)
    ensures var s := MapStep(keys, func, table, args);
            KeyedTableCoherent(keys, func, arity, s.cache) &&
            exists b: seq<V> :: |b| == arity && Key(keys, b) == Key(keys, args) && s.result == func(b)
  {
    var s := MapStep(keys, func, table, args);
    var key := Key(keys, args);
    if key in table {
      assert exists b: seq<V> :: |b| == arity && Key(keys, b) == key && table[key] == func(b);
    } else {
      assert |args| == arity && Key(keys, args) == key && s.result == func(args);
      forall k | k in s.cache
        ensures exists b: seq<V> :: |b| == arity && Key(keys, b) == k && s.cache[k] == func(b)
      {
        if k == key {
          assert Key(keys, args) == k && s.cache[k] == func(args);
        } else {
          assert k in table && s.cache[k] == table[k];
        }
      }
    }
  }
}
