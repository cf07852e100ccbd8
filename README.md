# Mixed batching strategy

This project models marathon's mixed batching strategy and proves properties of the model. Each call to `process` removes one batch of tests from the shared pending queue. The batch is chosen by three tiers, in a fixed order of precedence:

1. **Class grouping.** The first queued test with no isolate-matching and no union-matching meta-property picks a class name. The batch is every queued test of that class that is just as unannotated.
2. **Union grouping.** Otherwise, the first test with a union-matching meta-property picks a key: the `"value"` entry of its first union-matching property. The batch is every queued test that has some union-matching property carrying that same key.
3. **Fallback.** Otherwise the head of the queue is polled on its own.

The batch is removed from the queue with `removeAll` (or `poll`), so the queue changes in place. The model also covers the configuration the strategy is built from: the closed family of four batching-strategy configurations, the `type` names they are registered under, and their defaults.

Layout:

- `wrappers.dfy`: `Option`, standing for Kotlin's nullable types.
- `sequences.dfy`: Kotlin's `find` and `filter`, with their specifications and the lemmas about them:
  - partition into two filters;
  - order preservation, as a subsequence;
  - congruence and cons steps.
- `regexes.dfy`: `Regex`.
  - It is a class, because Kotlin's `Regex` compares by identity.
  - Its whole-string match is kept uninterpreted.
- `strategy_config.dfy`:
  - the sealed `BatchingStrategyConfiguration` as a datatype;
  - the `type` discriminator registry.
- `tests.dfy`: `Test`, `MetaProperty`, `TestBatch`.
- `test_queues.dfy`: the part of `java.util.Queue` the strategy uses, for a queue that behaves as a list. It is a class holding a `seq`, with `removeAll` and `poll` as methods. It also defines removal by test identity, for comparison.
- `mixed_batching.dfy`:
  - `Select`, which states what one call does to a snapshot of the queue;
  - the tier lemmas;
  - the strategy class, whose `Process` method changes a `TestQueue` in place, proved against `Select`;
  - `equals`/`hashCode`.

Source paths below are relative to the repository root.

## Data model

- `StrategyConfig.BatchingStrategyConfiguration` is the sealed class at configuration/src/main/kotlin/com/malinskiy/marathon/config/strategy/BatchingStrategyConfiguration.kt:19-36. It has one constructor per variant:
  - `FixedSize`, with the defaults of lines 20-26;
  - `Mixed`, with the two optional patterns of lines 28-31;
  - `ClassName` and `Isolate`, the objects of lines 33 and 35.
- `StrategyConfig.MixedBatchingStrategyConfiguration` is the `Mixed` variant, the type the strategy's constructor takes (core/src/main/kotlin/com/malinskiy/marathon/execution/strategy/impl/batching/MixedBatchingStrategy.kt:13).
- `Tests.Test`, `Tests.MetaProperty` and `Tests.TestBatch` are the values imported at MixedBatchingStrategy.kt:7-9. Their own source files are not part of this model:
  - `Test` holds the class name that `toClassName()` gives, the method name and the meta-properties;
  - `MetaProperty` holds the name the patterns match (lines 52 and 56) and the values read at lines 37 and 41;
  - `TestBatch` holds the list of tests `process` returns.

## Model

| member | source | states |
|---|---|---|
| Sequences.Find | core/src/main/kotlin/com/malinskiy/marathon/execution/strategy/impl/batching/MixedBatchingStrategy.kt:16-19 | `find` gives no element exactly when no element satisfies the predicate. Otherwise it gives an element that satisfies it, with no earlier element satisfying it. |
| Sequences.FindFirstAt | core/src/main/kotlin/com/malinskiy/marathon/execution/strategy/impl/batching/MixedBatchingStrategy.kt:32-35 | When position `i` is the first that satisfies the predicate, `find` gives the element at `i`. |
| Sequences.Filter | core/src/main/kotlin/com/malinskiy/marathon/execution/strategy/impl/batching/MixedBatchingStrategy.kt:22-27 | `filter` keeps an element exactly when it was in the input and satisfies the predicate. It is never longer than its input. |
| Sequences.FilterMultiset | core/src/main/kotlin/com/malinskiy/marathon/execution/strategy/impl/batching/MixedBatchingStrategy.kt:38-42 | `filter` keeps every occurrence of an accepted element and none of a rejected one. |
| Sequences.FilterAll | core/src/main/kotlin/com/malinskiy/marathon/execution/strategy/impl/batching/MixedBatchingStrategy.kt:38-42 | Filtering a list whose every element is accepted gives the list back. |
| Sequences.FilterNone | core/src/main/kotlin/com/malinskiy/marathon/execution/strategy/impl/batching/MixedBatchingStrategy.kt:38-42 | Filtering with a predicate that holds of no element gives the empty list. |
| Sequences.FilterCons | core/src/main/kotlin/com/malinskiy/marathon/execution/strategy/impl/batching/MixedBatchingStrategy.kt:22-27 | Filtering `x` followed by `s` is `x` followed by the filtered `s` when `x` is accepted, and just the filtered `s` otherwise. |
| Sequences.FilterIsSubsequence | core/src/main/kotlin/com/malinskiy/marathon/execution/strategy/impl/batching/MixedBatchingStrategy.kt:22 | A filtered list is an order-preserving subsequence of its input. |
| Sequences.FilterPartition | core/src/main/kotlin/com/malinskiy/marathon/execution/strategy/impl/batching/MixedBatchingStrategy.kt:22-28 | Filtering with a predicate and with its negation together gives every element of the input exactly as often as it occurs there. |
| Sequences.FilterCongruent | core/src/main/kotlin/com/malinskiy/marathon/execution/strategy/impl/batching/MixedBatchingStrategy.kt:22-27 | Two predicates that agree on every element of the list filter it alike. |
| TestQueues.Without | core/src/main/kotlin/com/malinskiy/marathon/execution/strategy/impl/batching/MixedBatchingStrategy.kt:28 | What `removeAll` leaves: an element remains exactly when it was queued and is in no removed group. |
| TestQueues.WithoutIdentities | core/src/main/kotlin/com/malinskiy/marathon/execution/strategy/impl/batching/MixedBatchingStrategy.kt:28 | What `removeAll` leaves if tests are equal by class and method: a test remains exactly when it was queued and no removed test has its identity. |
| TestQueues.RemovalByIdentityAgrees | core/src/main/kotlin/com/malinskiy/marathon/execution/strategy/impl/batching/MixedBatchingStrategy.kt:28 | When the removed tests are queued and no two queued tests share an identity, removal by identity leaves the same queue as removal by whole-test equality. |
| TestQueues.IdentityCollision | core/src/main/kotlin/com/malinskiy/marathon/execution/strategy/impl/batching/MixedBatchingStrategy.kt:28 | Removing a test by identity also removes every other test with the same identity. |
| TestQueues.TestQueue.constructor | core/src/main/kotlin/com/malinskiy/marathon/execution/strategy/impl/batching/MixedBatchingStrategy.kt:15 | A queue holding the given tests, head first. |
| TestQueues.TestQueue.RemoveAll | core/src/main/kotlin/com/malinskiy/marathon/execution/strategy/impl/batching/MixedBatchingStrategy.kt:43 | `removeAll` of a set removes every queued element equal to a member of the set. Of a list-backed queue it keeps the rest in order. |
| TestQueues.TestQueue.Poll | core/src/main/kotlin/com/malinskiy/marathon/execution/strategy/impl/batching/MixedBatchingStrategy.kt:47 | `poll` returns and removes the head. On an empty queue it returns null and the queue stays empty. |
| Regexes.Regex.constructor | configuration/src/main/kotlin/com/malinskiy/marathon/config/strategy/BatchingStrategyConfiguration.kt:29-30 | A configured pattern keeps its source text and the whole-string match it decides. |
| StrategyConfig.TypeOf | configuration/src/main/kotlin/com/malinskiy/marathon/config/strategy/BatchingStrategyConfiguration.kt:19-36 | Every configuration is exactly one of the four variants: fixed-size, mixed, class-name, isolate. |
| StrategyConfig.TypeName | configuration/src/main/kotlin/com/malinskiy/marathon/config/strategy/BatchingStrategyConfiguration.kt:14-17 | The name a variant is registered under is one of the four registered names. |
| StrategyConfig.TypeForName | configuration/src/main/kotlin/com/malinskiy/marathon/config/strategy/BatchingStrategyConfiguration.kt:8-18 | Looking up a `type` value gives a variant registered under that name. It gives none exactly when no variant is registered under it. |
| StrategyConfig.TypeNameRegistry | configuration/src/main/kotlin/com/malinskiy/marathon/config/strategy/BatchingStrategyConfiguration.kt:8-18 | A `type` value selects a variant exactly when that variant is registered under that name. Lookup and registration are each other's inverse. |
| StrategyConfig.TypeNamesDistinct | configuration/src/main/kotlin/com/malinskiy/marathon/config/strategy/BatchingStrategyConfiguration.kt:14-17 | No two variants are registered under the same name. |
| StrategyConfig.RecognisedNames | configuration/src/main/kotlin/com/malinskiy/marathon/config/strategy/BatchingStrategyConfiguration.kt:13-18 | Exactly the four names `fixed-size`, `isolate`, `class-name` and `mixed` select a variant. |
| StrategyConfig.FixedSizeDefaults | configuration/src/main/kotlin/com/malinskiy/marathon/config/strategy/BatchingStrategyConfiguration.kt:20-26 | A fixed-size configuration given only its size has no duration, percentile or time limit, and a last-mile length of 0. |
| StrategyConfig.SingletonConfigurations | configuration/src/main/kotlin/com/malinskiy/marathon/config/strategy/BatchingStrategyConfiguration.kt:33-35 | Any two class-name configurations are equal, and any two isolate configurations are equal. |
| MixedBatching.PatternMatches | core/src/main/kotlin/com/malinskiy/marathon/execution/strategy/impl/batching/MixedBatchingStrategy.kt:52 | An absent pattern matches no name (`?: false`). |
| MixedBatching.CheckNeedIsolate | core/src/main/kotlin/com/malinskiy/marathon/execution/strategy/impl/batching/MixedBatchingStrategy.kt:51-53 | Without an isolate pattern no meta-property needs isolation. With one, exactly the meta-properties whose name it matches do. |
| MixedBatching.CheckNeedUnion | core/src/main/kotlin/com/malinskiy/marathon/execution/strategy/impl/batching/MixedBatchingStrategy.kt:55-57 | Without a union pattern no meta-property needs union. With one, exactly the meta-properties whose name it matches do. |
| MixedBatching.IsUnannotated | core/src/main/kotlin/com/malinskiy/marathon/execution/strategy/impl/batching/MixedBatchingStrategy.kt:17-18 | The tier-1 test (`all { !isolate && !union }`) is exactly a test with no isolate-matching and no union-matching property. A test with no meta-properties is one. |
| MixedBatching.ValueEntry | core/src/main/kotlin/com/malinskiy/marathon/execution/strategy/impl/batching/MixedBatchingStrategy.kt:37 | `values["value"]` is null exactly when the entry is absent, and is the entry otherwise. |
| MixedBatching.InUnionGroup | core/src/main/kotlin/com/malinskiy/marathon/execution/strategy/impl/batching/MixedBatchingStrategy.kt:40-41 | A member of a union group has a union-matching property, so it is never a tier-1 test. |
| MixedBatching.Select | core/src/main/kotlin/com/malinskiy/marathon/execution/strategy/impl/batching/MixedBatchingStrategy.kt:15-47 | A call gives no batch exactly on an empty queue. Tier 1 is chosen only when some test is unannotated, and any other tier only when none is. |
| MixedBatching.RemoveFilteredGroup | core/src/main/kotlin/com/malinskiy/marathon/execution/strategy/impl/batching/MixedBatchingStrategy.kt:22-28 | After `removeAll(group.toSet())` of a group filtered from the queue, exactly the tests the filter rejected remain, in queue order. |
| MixedBatching.GroupSplitsQueue | core/src/main/kotlin/com/malinskiy/marathon/execution/strategy/impl/batching/MixedBatchingStrategy.kt:38-43 | A group filtered around a queued pivot is non-empty. The group and the rest partition the queue as multisets, and both keep queue order. |
| MixedBatching.SelectPartitions | core/src/main/kotlin/com/malinskiy/marathon/execution/strategy/impl/batching/MixedBatchingStrategy.kt:15-47 | A call produces no batch only on an empty queue. Otherwise the batch is non-empty, and batch plus remaining queue hold every original test exactly as often as before, each in queue order. |
| MixedBatching.ClassNameTier | core/src/main/kotlin/com/malinskiy/marathon/execution/strategy/impl/batching/MixedBatchingStrategy.kt:16-29 | When `q[i]` is the first unannotated test, tier 1 is taken. The batch contains `q[i]` and is exactly the queued unannotated tests of its class, and none of them remains. |
| MixedBatching.UnionTier | core/src/main/kotlin/com/malinskiy/marathon/execution/strategy/impl/batching/MixedBatchingStrategy.kt:32-44 | When no test is unannotated and `q[i]`'s property `k` is the first union-matching property of the first test with one, tier 2 is taken. The batch contains `q[i]` and is exactly the queued tests with a union-matching property whose `"value"` equals property `k`'s (absent matching absent), and none of them remains. |
| MixedBatching.SelectTier | core/src/main/kotlin/com/malinskiy/marathon/execution/strategy/impl/batching/MixedBatchingStrategy.kt:16-47 | On a non-empty queue three things hold. Tier 1 is taken iff some test is unannotated. Tier 2 is taken iff none is and some test has a union-matching property, so the inner `find` never fails. The fallback is taken iff every test has an isolate-matching and no union-matching property, and it then takes exactly the head and leaves the tail. |
| MixedBatching.WithoutPatternsGroupsByClassName | core/src/main/kotlin/com/malinskiy/marathon/execution/strategy/impl/batching/MixedBatchingStrategy.kt:51-57 | With both patterns absent nothing matches, and every call is plain class-name grouping. Batch and rest are the queued tests of the head's class and of other classes, each in order. |
| MixedBatching.SingleClassTier | core/src/main/kotlin/com/malinskiy/marathon/execution/strategy/impl/batching/MixedBatchingStrategy.kt:16-29 | When all unannotated tests share one class, tier 1 takes exactly the unannotated tests and leaves exactly the annotated ones, in queue order. |
| MixedBatching.UnionIntegrityExample | core/src/main/kotlin/com/malinskiy/marathon/execution/strategy/impl/batching/MixedBatchingStrategy.kt:16-44 | Three union-tagged tests interleaved with two unannotated tests of one class: the first call takes the two unannotated tests, and the second takes the three tagged tests together. |
| MixedBatching.InterleavedFirstCall | core/src/main/kotlin/com/malinskiy/marathon/execution/strategy/impl/batching/MixedBatchingStrategy.kt:16-29 | The first call of that example takes the two unannotated tests and leaves the three tagged ones in order. |
| MixedBatching.UnannotatedOfInterleaving | core/src/main/kotlin/com/malinskiy/marathon/execution/strategy/impl/batching/MixedBatchingStrategy.kt:22-27 | In the interleaved queue of the example above, the unannotated filter picks the two unannotated tests. |
| MixedBatching.AnnotatedOfInterleaving | core/src/main/kotlin/com/malinskiy/marathon/execution/strategy/impl/batching/MixedBatchingStrategy.kt:28 | In that queue, what tier 1 leaves is the three tagged tests, in order. |
| MixedBatching.WholeUnionGroup | core/src/main/kotlin/com/malinskiy/marathon/execution/strategy/impl/batching/MixedBatchingStrategy.kt:32-44 | A queue whose every test carries exactly one union-matching annotation is taken whole by tier 2, leaving nothing. |
| MixedBatching.IsolationExclusionExample | core/src/main/kotlin/com/malinskiy/marathon/execution/strategy/impl/batching/MixedBatchingStrategy.kt:16-47 | An isolate-tagged test ahead of two unannotated tests of one class is left out of their batch, and the next call then takes it on its own. |
| MixedBatching.IsolatedLeftOut | core/src/main/kotlin/com/malinskiy/marathon/execution/strategy/impl/batching/MixedBatchingStrategy.kt:16-29 | The first call of that example takes the two unannotated tests and leaves only the isolated one. |
| MixedBatching.IdentityCollisionLosesTest | core/src/main/kotlin/com/malinskiy/marathon/execution/strategy/impl/batching/MixedBatchingStrategy.kt:22-28 | Take an unannotated test and an annotated test with the same class and method. Tier 1 batches the first alone and keeps the second. Removing that batch by identity would remove the second as well. |
| MixedBatching.JavaStringHash | core/src/main/kotlin/com/malinskiy/marathon/execution/strategy/impl/batching/MixedBatchingStrategy.kt:69 | `String.hashCode` as the JVM computes it, with 32-bit wrap-around. It is congruent modulo 2^32 to the documented sum of each character times 31 to the power of its distance from the end. |
| MixedBatching.PolynomialAppend | core/src/main/kotlin/com/malinskiy/marathon/execution/strategy/impl/batching/MixedBatchingStrategy.kt:69 | That documented sum obeys the JVM loop: appending a character multiplies it by 31 and adds the character. |
| MixedBatching.WrapInt32 | core/src/main/kotlin/com/malinskiy/marathon/execution/strategy/impl/batching/MixedBatchingStrategy.kt:69 | Kotlin `Int` arithmetic wraps: the result is an `Int` congruent to the exact value modulo 2^32. |
| MixedBatching.MixedBatchingStrategy.constructor | core/src/main/kotlin/com/malinskiy/marathon/execution/strategy/impl/batching/MixedBatchingStrategy.kt:13 | A strategy holding the given mixed configuration. |
| MixedBatching.MixedBatchingStrategy.Process | core/src/main/kotlin/com/malinskiy/marathon/execution/strategy/impl/batching/MixedBatchingStrategy.kt:15-48 | `process` returns `Select`'s batch and leaves its remaining queue in place. It returns no batch exactly on an empty queue. Otherwise the batch is non-empty and it plus the queue afterwards equal the queue before, as multisets. |
| MixedBatching.MixedBatchingStrategy.Equals | core/src/main/kotlin/com/malinskiy/marathon/execution/strategy/impl/batching/MixedBatchingStrategy.kt:59-66 | A strategy equals itself (line 60) and never equals null (line 61). |
| MixedBatching.MixedBatchingStrategy.HashCode | core/src/main/kotlin/com/malinskiy/marathon/execution/strategy/impl/batching/MixedBatchingStrategy.kt:68-70 | The hash is the documented `String.hashCode` of the class's canonical name, wrapped to 32 bits. |
| MixedBatching.StrategiesAllEqual | core/src/main/kotlin/com/malinskiy/marathon/execution/strategy/impl/batching/MixedBatchingStrategy.kt:59-70 | Any two mixed strategies are equal both ways, whatever their configurations, and have the same hash code. |
| MixedBatching.EqualsOnlyStrategies | core/src/main/kotlin/com/malinskiy/marathon/execution/strategy/impl/batching/MixedBatchingStrategy.kt:59-66 | A strategy equals an object exactly when the object is a non-null `MixedBatchingStrategy`. |

## Left out

- `toClassName()` is a field of `Test` (`className`). Its definition is not part of this model.
- `Test` equality, which `removeAll` relies on, is modelled as datatype equality of class name, method name and meta-properties. The source's `Test` class is not part of this model.
  - If tests are instead equal by identity, that is by class and method, `removeAll` also removes an unbatched test that shares an identity with a batched one. `MixedBatching.IdentityCollisionLosesTest` shows such a case.
  - So under identity equality, the partition stated by `SelectPartitions` and `Process` holds only for queues in which no two tests share an identity. `TestQueues.RemovalByIdentityAgrees` proves that on such queues the two removals coincide.
- The queue is modelled as a sequence iterated from its head, as a list-backed `java.util.Queue` such as `LinkedList` or `ArrayDeque` behaves. So `find`, `toList()` and `poll()` all start at `items[0]`, and `removeAll` keeps the order of what remains.
  - `java.util.Queue` itself promises neither: a `PriorityQueue` iterates in heap order and may reorder on removal.
  - The concrete queue the caller passes is not part of this model.
  - The order claims (`Subsequence` in `SelectPartitions`, queue order in the tier lemmas and `RemoveFilteredGroup`) and `poll` taking the first element `find` would see depend on this.
- `Regex.matches` belongs to the platform's regular-expression engine and is an uninterpreted predicate carried by each `Regex` object.
- The `analytics` and `testBundleIdentifier` parameters of `process` are never read by this strategy and are dropped.
- Concurrent access to the shared queue by several device workers is not modelled. A single sequential call is modelled.
- MixedBatching.MixedBatchingStrategy.Process: on an empty queue the source returns a batch holding one null element. The model returns `None` and leaves the queue empty, because a `Test` cannot be null here.
- The Boolean result of `removeAll` is ignored by the source and not modelled.
- MixedBatching.JavaStringHash works on Unicode code points. `String.hashCode` works on UTF-16 code units. The two agree on the all-ASCII canonical class name the hash is taken of.
- Reading the configuration file, environment substitution, Jackson (de)serialization and path resolution are I/O and library plumbing. Only the resulting values and the `type` name registry are modelled.
- The fixed-size, isolate and class-name strategies' own behaviour is not part of this model. Only their configuration shapes are.
- `percentile` (a `Double`) and `timeLimit` (an `Instant`) are carried as opaque values and never computed with.
- `toString` and the Jackson annotations are not modelled.
