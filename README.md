# Memoized selectors of flowcpp, in Dafny

This project models the memoized-selector engine of flowcpp, a C++ port of the
"reselect" pattern. A *selector* derives a value from a state: it applies each
input selector to the state, collects the outputs, in order, into a
*parameter bundle*, and hands the bundle to a *memoized* combining function.
The memoizer either returns a cached result (a hit) or runs the combining
function and caches its result (a miss). There are two caching strategies:

- `default_memoize`: a single slot holding the last bundle and the last
  result, judged by one equality check per position;
- `map_memoize`: an unbounded table from a string key to a result, where the
  key is each position's key string concatenated, with no separator.

The engine exists twice, and both are modelled:

- `main.cpp` works on `std::vector<flow::any>`. It is modelled in module
  `DynamicReselect`, with its properties in `DynamicProperties`. The example
  scenario `reselect_example` is module `ReselectExample`.
- `include/flowcpp/reselect.hpp` works on `std::tuple`. It is modelled in
  module `TupleReselect`, with its properties in `TupleProperties`.
- The counter reducer of `main.cpp` is module `Counter`.
- Module `Bundles` holds what both versions share: positional equality, the
  first mismatch, the concatenated key and the binding of a bundle.
- Module `Outcomes` holds the option and result types and the two arity
  errors.

The shape of the model:

- Each memoizer is a class that owns its cache fields. Its `Call` method is
  proved against a step function (`SingleEntryStep`, `MapStep`,
  `DefaultStep`). That function gives the result, the new cache, and whether
  the combining function ran. A ghost field `recomputations` counts the runs.
  It stands in for the source's "recompute" logging.
- Equality checks, key functions, input selectors and the combining function
  are Dafny function values.
- Values are type parameters. The empty `flow::any` that a fresh single-entry
  memoizer holds as its last result is `None`.
- The strategies have no common interface to dispatch on. A datatype
  `Memoized` therefore holds one memoizer object or the other, and a selector
  calls whichever it holds.
- `for_each_in_tuple` is a left fold over positions. The visitor closures
  that write `key` and `all_args_are_equal` by reference become the fold's
  accumulator.

Behaviours of the code that the model keeps, and that a user of reselect
might not expect:

- The arity check of `main.cpp`'s `default_memoize` only runs when the
  bundle's length equals the cached bundle's length. A first non-empty call
  whose length differs from the number of checks is therefore a plain miss,
  not an error. The error only comes on the next call of that length
  (`SingleEntryFirstCall`).
- A zero-length first call with no checks is a vacuous hit. It returns the
  empty result and does not run the combining function
  (`SingleEntryEmptyBundle`).
- The tuple version's single slot starts from the default-constructed tuple
  and result. A first call equal to those defaults returns the default result,
  which the combining function may never produce (`TupleDefaultStaleStart`).
- The tuple version compares every position and has no early exit
  (`EqualityScanVisitsAll`). The vector version stops at the first mismatch
  (`SingleEntryShortCircuit`).
- Map keys have no separator, so distinct bundles can collide. A collision
  returns the other bundle's result (`KeyCollision`, `MapKeyCollision`). The
  tuple version iterates over the key tuple, so arguments beyond it take no
  part in the key (`TupleMapIgnoresExtraArgs`).

## Model

| member | source | states |
|---|---|---|
| `Counter.Multiplier` | main.cpp:45-56 | the sign is -1 exactly for `decrement` and 1 for every other type, `thunk` included |
| `Counter.Reduce` | main.cpp:44-61 | a `decrement` subtracts the payload from the counter; every other type adds it |
| `Counter.ReduceAllAddsNetChange` | main.cpp:44-61 | reducing a list of actions one after the other adds the sum of their signed payloads |
| `Counter.DecrementUndoesIncrement` | main.cpp:47-59 | a decrement with the same payload restores the state an increment changed |
| `Counter.ReduceCommutes` | main.cpp:58-60 | the order in which two actions are reduced does not matter |
| `Counter.ThunkActsAsIncrement` | main.cpp:54-59 | a `thunk` action reaching the reducer acts as an increment (the multiplier stays 1) |
| `Bundles.FirstMismatch` | main.cpp:106-113 | the first position whose check fails: all positions before it are judged equal, and it is not |
| `Bundles.FirstMismatchAllEqual` | main.cpp:106-115 | the scan finds no mismatch exactly when every position is judged equal |
| `Bundles.Key` | main.cpp:139-142 | the cache key: each key function applied to the argument at its position, in position order, concatenated with no separator; arguments beyond the key functions take no part |
| `Bundles.KeyPrefix` | main.cpp:139-142 | the key is built left to right: the key of the first j positions is a prefix of the whole key |
| `Bundles.KeyIgnoresExtraArgs` | include/flowcpp/reselect.hpp:68-71 | only the arguments at the key functions' positions determine the key |
| `Bundles.KeyCollision` | main.cpp:139-142 | concatenation without a separator is not injective: ("1","23") and ("12","3") share the key "123" |
| `DynamicReselect.SingleEntryStep` | main.cpp:100-125 | one call of the single-entry memoizer: the arity error when the bundle has the cached length but not the checks' count, a hit returning the cached result when every position is judged equal, otherwise a run of the function that overwrites the slot |
| `DynamicReselect.MapStep` | main.cpp:133-154 | one call of the map memoizer: the arity error when the bundle and key functions differ in length, a hit returning the stored value when the key is present, otherwise a run of the function whose result is stored under the key |
| `DynamicReselect.SingleEntryMemo.constructor` | main.cpp:95-98 | a fresh memoizer holds an empty bundle, an empty result and has run nothing |
| `DynamicReselect.SingleEntryMemo.Call` | main.cpp:100-125 | result and new slot are those of `SingleEntryStep`; the run count grows by one exactly on a miss; the number of checks evaluated is up to and including the first mismatch |
| `DynamicReselect.MapMemo.constructor` | main.cpp:130-132 | a fresh memoizer has an empty table |
| `DynamicReselect.MapMemo.Call` | main.cpp:133-154 | the key built by the loop is the concatenated key; result and new table are those of `MapStep`; the run count grows by one exactly on a miss |
| `DynamicReselect.Memoize` | main.cpp:174-180 | applying a strategy to the combining function gives a fresh memoizer with an empty cache |
| `DynamicReselect.BindParams` | main.cpp:160-165 | the bundle has one position per input selector, and position i is selector i applied to the state |
| `DynamicReselect.Selector.constructor` | main.cpp:158-159 | the selector keeps the memoized function and the input selectors |
| `DynamicReselect.Selector.Select` | main.cpp:160-167 | the result and new cache are those of the memoizer's step on the bound bundle |
| `DynamicReselect.CreateSelector` | main.cpp:171-183 | a new selector owns a fresh memoizer of its own, with an empty cache |
| `DynamicProperties.SingleEntryArityError` | main.cpp:101-104 | the error is thrown exactly when the bundle has the cached length but not the checks' count; nothing runs and the cache is unchanged |
| `DynamicProperties.SingleEntryHit` | main.cpp:101-118 | a hit happens exactly when the lengths agree and every position is judged equal; it returns the cached result and changes nothing |
| `DynamicProperties.SingleEntryMiss` | main.cpp:107-124 | one position judged unequal is a miss: the function runs and the slot becomes the new bundle and its result |
| `DynamicProperties.SingleEntryShortCircuit` | main.cpp:107-112 | when position 0 differs, exactly one check is evaluated and the call misses |
| `DynamicProperties.SingleEntryComparisons` | main.cpp:106-113 | the checks evaluated are those up to the first mismatch, or all of them when there is none |
| `DynamicProperties.SingleEntryFirstCall` | main.cpp:97-104 | a first non-empty call always runs the function, even with the wrong arity; the error comes only on the next call of that length |
| `DynamicProperties.SingleEntryEmptyBundle` | main.cpp:97-118 | a zero-length first call with no checks returns the empty result without running the function |
| `DynamicProperties.SingleEntryRepeatHits` | main.cpp:100-124 | after a call, repeating it with a bundle equal to itself returns the same result without running the function |
| `DynamicProperties.SingleEntryForgets` | main.cpp:121-124 | X, then a Y unequal to X, then X runs the function three times |
| `DynamicProperties.SingleEntryCoherent` | main.cpp:100-125 | a result is the function applied to the bundle itself or to the cached bundle judged equal to it; the slot stays coherent |
| `DynamicProperties.MapArityError` | main.cpp:135-137 | the error is thrown exactly when the lengths of bundle and keys differ, before any lookup or insertion |
| `DynamicProperties.MapLookup` | main.cpp:144-153 | a present key returns its value and changes nothing; an absent one stores and returns the function's result |
| `DynamicProperties.MapGrows` | main.cpp:151-153 | the table only grows, by at most one entry, never overwrites, and maps the key to the value returned |
| `DynamicProperties.MapRecalls` | main.cpp:132-154 | X, then Y with a different key, then X runs the function twice; the third call returns the first call's result |
| `DynamicProperties.MapCoherent` | main.cpp:139-153 | a result is the function applied to some bundle with the same key; the table stays coherent |
| `DynamicProperties.MapKeyCollision` | main.cpp:139-149 | with identity keys, ("12","3") after ("1","23") is a hit that returns the result computed for ("1","23") |
| `ReselectExample.BindPair` | main.cpp:198-206 | binding the id and sub-id selectors gives the bundle (id, sub id) |
| `ReselectExample.IdSelector` | main.cpp:198-201 | the first input selector: the root state's id |
| `ReselectExample.SubIdSelector` | main.cpp:203-206 | the second input selector: the nested sub id |
| `ReselectExample.Multiply` | main.cpp:208-213 | the combining function: the product of parameters 0 and 1; a bundle shorter than two gives 0, where `params.at` throws |
| `ReselectExample.IntEquals` | main.cpp:220-222 | the example's equality check: integer equality |
| `ReselectExample.DecimalString` | main.cpp:228-230 | the example's key function: a non-empty decimal form, led by a minus sign exactly when the integer is negative, all other characters digits |
| `ReselectExample.DecimalKey` | main.cpp:228-231 | the example's key of (a, b) is the decimal forms of a and b concatenated |
| `ReselectExample.SelectByKey` | main.cpp:232-235 | one derivation under map memoize hits on a present key and otherwise stores id times sub id |
| `ReselectExample.MapMemoizeExample` | main.cpp:215-256 | the six derivations give 8, 10, 10, 50, 50, 8, with 3 runs and 3 entries |
| `ReselectExample.SelectBySlot` | main.cpp:219-225 | one derivation under default memoize with integer equality hits exactly on an equal bundle |
| `ReselectExample.DefaultMemoizeExample` | main.cpp:219-256 | with default memoize the same derivations give the same values; 3 runs precede the last derivation and 4 follow it, so the last is a miss |
| `TupleReselect.ForEach1` | include/flowcpp/reselect.hpp:9-20 | the one-tuple `for_each_in_tuple`: the visitor applied to positions i to the end, in order, threading its accumulator |
| `TupleReselect.ForEach2` | include/flowcpp/reselect.hpp:22-33 | the two-tuple `for_each_in_tuple`: the visitor applied to index-aligned pairs, bounded by the first tuple |
| `TupleReselect.ForEach3` | include/flowcpp/reselect.hpp:35-46 | the three-tuple `for_each_in_tuple`: the visitor applied to index-aligned triples, bounded by the first tuple |
| `TupleReselect.KeyVisitor` | include/flowcpp/reselect.hpp:69-71 | the key visitor: appends the key string of one argument to the key |
| `TupleReselect.EqualityVisitor` | include/flowcpp/reselect.hpp:102-107 | the equality visitor: clears the flag when one check fails and never stops the iteration |
| `TupleReselect.DefaultStep` | include/flowcpp/reselect.hpp:98-120 | one call of the tuple single-entry memoizer: a hit returning the cached result when every check holds, otherwise a run of the function that overwrites the slot |
| `TupleReselect.MapStep` | include/flowcpp/reselect.hpp:66-83 | one call of the tuple map memoizer: a hit returning the stored value when the key is present, otherwise a run of the function whose result is stored under the key |
| `TupleReselect.KeyFold` | include/flowcpp/reselect.hpp:68-71 | folding the key visitor over the key tuple builds the concatenated key |
| `TupleReselect.EqualityFold` | include/flowcpp/reselect.hpp:100-107 | folding the equality visitor leaves the flag set exactly when every check holds |
| `TupleReselect.TupleDefaultMemo.constructor` | include/flowcpp/reselect.hpp:91-96 | the slot starts as the default-constructed bundle and result |
| `TupleReselect.TupleDefaultMemo.Call` | include/flowcpp/reselect.hpp:98-120 | the fold's flag is positional equality; result and new slot are those of `DefaultStep` |
| `TupleReselect.TupleMapMemo.constructor` | include/flowcpp/reselect.hpp:62-65 | a fresh memoizer has an empty table |
| `TupleReselect.TupleMapMemo.Call` | include/flowcpp/reselect.hpp:66-83 | the folded key is the concatenated key; result and new table are those of `MapStep` |
| `TupleReselect.Memoize` | include/flowcpp/reselect.hpp:153-159 | applying a strategy gives a fresh memoizer whose cache starts as the strategy says |
| `TupleReselect.CopyParamsResult` | include/flowcpp/reselect.hpp:124-134 | every position i of the parameter tuple is overwritten with selector i applied to the state |
| `TupleReselect.TupleSelector.constructor` | include/flowcpp/reselect.hpp:136-138 | the selector keeps the memoized function and the input selectors |
| `TupleReselect.TupleSelector.Select` | include/flowcpp/reselect.hpp:139-143 | the result and new cache are those of the memoizer's step on the bundle bound by the first arity-many selectors, `Bind(selectors[..memo.Arity()], state)`; a longer selector tuple is accepted |
| `TupleReselect.CreateSelector` | include/flowcpp/reselect.hpp:147-162 | a new selector owns a fresh memoizer of its own; the selector tuple may be longer than the argument tuple |
| `TupleProperties.ForEach1Visits` | include/flowcpp/reselect.hpp:9-20 | the visitor sees the positions from I on, each once, in increasing order |
| `TupleProperties.ForEach2Visits` | include/flowcpp/reselect.hpp:22-33 | the visitor sees the index-aligned pairs from I on, each once, in increasing order |
| `TupleProperties.ForEach3Visits` | include/flowcpp/reselect.hpp:35-46 | the visitor sees the index-aligned triples from I on, each once, in increasing order |
| `TupleProperties.EqualityScanVisitsAll` | include/flowcpp/reselect.hpp:100-107 | every position's check is handed to the visitor, with no early exit; the flag is positional equality |
| `TupleProperties.TupleDefaultHitOrMiss` | include/flowcpp/reselect.hpp:100-119 | a hit happens exactly when all checks hold and changes nothing; a miss overwrites the slot with the bundle and its result |
| `TupleProperties.TupleDefaultInitialHit` | include/flowcpp/reselect.hpp:95-114 | a first call equal to the defaults returns the default result without running the function |
| `TupleProperties.TupleDefaultStaleStart` | include/flowcpp/reselect.hpp:95-114 | that default result need not be the function's value: defaults (0,0) and 0 are returned for a function giving 1 |
| `TupleProperties.TupleDefaultRepeatHits` | include/flowcpp/reselect.hpp:98-120 | repeating a call with a bundle equal to itself returns the same result without running the function |
| `TupleProperties.TupleDefaultForgets` | include/flowcpp/reselect.hpp:116-119 | X, then a Y unequal to X, then X runs the function three times |
| `TupleProperties.TupleDefaultCoherent` | include/flowcpp/reselect.hpp:93-120 | the slot stays coherent; a result is the function applied to the bundle, or to the cached bundle judged equal to it, or the default result of a slot still at its defaults |
| `TupleProperties.TupleMapLookup` | include/flowcpp/reselect.hpp:73-82 | a present key returns its value and changes nothing; an absent one stores and returns the function's result |
| `TupleProperties.TupleMapGrows` | include/flowcpp/reselect.hpp:80-82 | the table only grows, never overwrites, and after every call maps the key to the value returned |
| `TupleProperties.TupleMapRecalls` | include/flowcpp/reselect.hpp:66-83 | X, then Y with a different key, then X runs the function twice |
| `TupleProperties.TupleMapIgnoresExtraArgs` | include/flowcpp/reselect.hpp:68-71 | bundles that agree on the key tuple's positions share one entry |
| `TupleProperties.TupleMapCoherent` | include/flowcpp/reselect.hpp:66-83 | the table stays coherent; a result is the function applied to some bundle of the same arity with the same key |

## Left out

- `include/flowcpp/thunk_middleware.hpp` is not part of this model. It is store middleware with no algorithm of its own.
- `simple_example`, `thunk_middleware_example`, `logging_middleware`, `to_string(counter_action_type)` and `main` (main.cpp:63-82, 260-305) are left out. They are console output and calls into a store that is not part of this model.
- The "use cache" and "recompute" console output and the `RESELECT_DEBUG` switch are left out. The ghost `recomputations` counters record what that output reports.
- `flow::any` downcasts, and faults raised by input selectors or the combining function, are left out. Those functions are total Dafny functions, so a call never faults. The example's `Multiply` returns 0 on a bundle shorter than two, where the source's `params.at` throws.
- Integer overflow of `id * sub_id` and of the counter is left out. Integers are unbounded.
- The reducer reads only an action's type and payload. The `meta` and `error` fields are not modelled.
- Copying a `std::function` that holds a cache is not modelled. Memoizers are objects, and a selector refers to its memoizer.
- Key functions are opaque `V -> string` parameters. `std::to_string` appears only in the example, as `DecimalString`.
- `TupleReselect.TupleDefaultMemo.Call` and `TupleReselect.TupleMapMemo.Call` require the bundle's length to equal the memoizer's arity. `TupleDefaultMemo.Call` also requires the equality-check tuple to be at least that long, and `TupleMapMemo.Call` requires the key tuple to be at most that long. `TupleReselect.TupleSelector.Select` requires at least arity-many selectors. The C++ tuple types enforce these at compile time.
- `create_selector_creator` also receives the combining function, which it does not use. The model's selector constructor does not take it.
