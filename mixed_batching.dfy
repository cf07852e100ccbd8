/**
 The mixed batching strategy. Each call removes one batch from the pending
 queue, choosing it by three tiers in a fixed order:
   1. the first test with no isolate- or union-matching meta-property picks a
      class name, and the batch is every such unannotated test of that class;
   2. otherwise the first test with a union-matching meta-property picks a
      key, the `"value"` entry of its first union-matching property, and the
      batch is every test with a union-matching property carrying that key;
   3. otherwise the head of the queue is the batch on its own.
 `Select` states the outcome of one call on a snapshot of the queue;
 `MixedBatchingStrategy.Process` performs it on a `TestQueue` in place.
 */
module MixedBatching {
  import opened Wrappers
  import opened Sequences
  import opened Regexes
  import opened StrategyConfig
  import opened Tests
  import opened TestQueues

  /** `pattern?.matches(name) ?: false`: an absent pattern matches nothing. */
  predicate PatternMatches(pattern: Option<Regex>, name: string)
    ensures pattern.None? ==> !PatternMatches(pattern, name)
  {
    match pattern
    case None => false
    case Some(r) => r.Matches(name)
  }

  /** Whether `mt` asks for its test to run alone. */
  predicate CheckNeedIsolate(cnf: MixedBatchingStrategyConfiguration, mt: MetaProperty)
    ensures cnf.isolateAnnotationName.None? ==> !CheckNeedIsolate(cnf, mt)
    ensures cnf.isolateAnnotationName.Some? ==>
              (CheckNeedIsolate(cnf, mt) <==> cnf.isolateAnnotationName.value.Matches(mt.name))
  {
    PatternMatches(cnf.isolateAnnotationName, mt.name)
  }

  /** Whether `mt` asks for its test to run together with its union group. */
  predicate CheckNeedUnion(cnf: MixedBatchingStrategyConfiguration, mt: MetaProperty)
    ensures cnf.unionAnnotationName.None? ==> !CheckNeedUnion(cnf, mt)
    ensures cnf.unionAnnotationName.Some? ==>
              (CheckNeedUnion(cnf, mt) <==> cnf.unionAnnotationName.value.Matches(mt.name))
  {
    PatternMatches(cnf.unionAnnotationName, mt.name)
  }

  /** No meta-property of `t` matches either pattern. */
  predicate IsUnannotated(cnf: MixedBatchingStrategyConfiguration, t: Test)
    ensures IsUnannotated(cnf, t) <==> !HasIsolateProperty(cnf, t) && !HasUnionProperty(cnf, t)
    ensures t.metaProperties == [] ==> IsUnannotated(cnf, t)
  {
    forall mp :: mp in t.metaProperties ==> !CheckNeedIsolate(cnf, mp) && !CheckNeedUnion(cnf, mp)
  }

  predicate HasUnionProperty(cnf: MixedBatchingStrategyConfiguration, t: Test) {
    exists mp :: mp in t.metaProperties && CheckNeedUnion(cnf, mp)
  }

  predicate HasIsolateProperty(cnf: MixedBatchingStrategyConfiguration, t: Test) {
    exists mp :: mp in t.metaProperties && CheckNeedIsolate(cnf, mp)
  }

  /** `values["value"]`, null when the entry is absent. */
  function ValueEntry(mp: MetaProperty): (r: Option<string>)
    ensures r.None? <==> "value" !in mp.values
    ensures r.Some? ==> r.value == mp.values["value"]
  {
    if "value" in mp.values then Some(mp.values["value"]) else None
  }

  /** Membership of the tier-1 group of class `className`. */
  predicate InClassGroup(cnf: MixedBatchingStrategyConfiguration, className: string, t: Test) {
    t.className == className && IsUnannotated(cnf, t)
  }

  /** Membership of the tier-2 group of union key `key`. */
  predicate InUnionGroup(cnf: MixedBatchingStrategyConfiguration, key: Option<string>, t: Test)
    ensures InUnionGroup(cnf, key, t) ==> HasUnionProperty(cnf, t) && !IsUnannotated(cnf, t)
  {
    exists mp :: mp in t.metaProperties && CheckNeedUnion(cnf, mp) && ValueEntry(mp) == key
  }

  function FirstUnannotated(cnf: MixedBatchingStrategyConfiguration, q: seq<Test>): Option<Test> {
    Find(q, t => IsUnannotated(cnf, t))
  }

  function FirstWithUnion(cnf: MixedBatchingStrategyConfiguration, q: seq<Test>): Option<Test> {
    Find(q, t => HasUnionProperty(cnf, t))
  }

  function FirstUnionProperty(cnf: MixedBatchingStrategyConfiguration, t: Test): Option<MetaProperty> {
    Find(t.metaProperties, mp => CheckNeedUnion(cnf, mp))
  }

  /** The tier-1 batch: every queued test in the group of `className`. */
  function ClassGroup(cnf: MixedBatchingStrategyConfiguration, q: seq<Test>, className: string): seq<Test> {
    Filter(q, t => InClassGroup(cnf, className, t))
  }

  /** What tier 1 leaves in the queue. */
  function ClassRest(cnf: MixedBatchingStrategyConfiguration, q: seq<Test>, className: string): seq<Test> {
    Filter(q, t => !InClassGroup(cnf, className, t))
  }

  /** The tier-2 batch: every queued test in the group of `key`. */
  function UnionGroup(cnf: MixedBatchingStrategyConfiguration, q: seq<Test>, key: Option<string>): seq<Test> {
    Filter(q, t => InUnionGroup(cnf, key, t))
  }

  /** What tier 2 leaves in the queue. */
  function UnionRest(cnf: MixedBatchingStrategyConfiguration, q: seq<Test>, key: Option<string>): seq<Test> {
    Filter(q, t => !InUnionGroup(cnf, key, t))
  }

  /** `group.toSet()`. */
  function AsSet(s: seq<Test>): set<Test> {
    set t | t in s
  }

  /** Which of the three tiers produced a batch. */
  datatype Tier = ByClassName | ByUnion | Polled

  /** The outcome of one call: the batch and what is left in the queue. */
  datatype Selection = Selection(tier: Tier, batch: seq<Test>, remaining: seq<Test>)

  /** One call on the queue snapshot `q`. `None` stands for the call on an
      empty queue, where `poll()` yields null and the batch holds a null. */
  function Select(cnf: MixedBatchingStrategyConfiguration, q: seq<Test>): (r: Option<Selection>)
    ensures r.None? <==> q == []
    ensures r.Some? && r.value.tier == ByClassName ==> exists t :: t in q && IsUnannotated(cnf, t)
    ensures r.Some? && r.value.tier != ByClassName ==> forall t :: t in q ==> !IsUnannotated(cnf, t)
  {
    match FirstUnannotated(cnf, q)
    case Some(noAnnotationTest) =>
      var className := noAnnotationTest.className;
      Some(Selection(ByClassName, ClassGroup(cnf, q, className), ClassRest(cnf, q, className)))
    case None =>
      var unionTest := FirstWithUnion(cnf, q);
      var property := if unionTest.Some? then FirstUnionProperty(cnf, unionTest.value) else None;
      if property.Some? then
        var key := ValueEntry(property.value);
        Some(Selection(ByUnion, UnionGroup(cnf, q, key), UnionRest(cnf, q, key)))
      else if q == [] then None
      else Some(Selection(Polled, [q[0]], q[1..]))
  }

  /** `removeAll` of a group filtered from `q` leaves exactly the elements
      the filter rejects. */
  lemma {:induction false} RemoveFilteredGroup(q: seq<Test>, p: Test -> bool, notP: Test -> bool)
    requires forall x :: notP(x) == !p(x)
    ensures Without(q, AsSet(Filter(q, p))) == Filter(q, notP)
  {
    var group := AsSet(Filter(q, p));
    FilterCongruent(q, t => t !in group, notP);
  }

  /** A group filtered from `q` around a member `pivot` of `q` is non-empty,
      and the group and the rest partition `q`, both in the order of `q`. */
  lemma {:induction false} GroupSplitsQueue(q: seq<Test>, p: Test -> bool, notP: Test -> bool, pivot: Test)
    requires forall x :: notP(x) == !p(x)
    requires pivot in q && p(pivot)
    ensures Filter(q, p) != []
    ensures multiset(Filter(q, p)) + multiset(Filter(q, notP)) == multiset(q)
    ensures Subsequence(Filter(q, p), q)
    ensures Subsequence(Filter(q, notP), q)
  {
    assert pivot in Filter(q, p);
    FilterPartition(q, p, notP);
    FilterIsSubsequence(q, p);
    FilterIsSubsequence(q, notP);
  }

  /** No batch is produced only from an empty queue; from any other queue the
      batch is non-empty, and batch and remaining queue together hold
      exactly the tests of `q`, each as often as before, in the order of `q`. */
  lemma SelectPartitions(cnf: MixedBatchingStrategyConfiguration, q: seq<Test>)
    ensures Select(cnf, q).None? <==> q == []
    ensures Select(cnf, q).Some? ==>
              var sel := Select(cnf, q).value;
              && sel.batch != []
              && multiset(sel.batch) + multiset(sel.remaining) == multiset(q)
              && Subsequence(sel.batch, q)
              && Subsequence(sel.remaining, q)
  {
    var noAnnotationTest := FirstUnannotated(cnf, q);
    if noAnnotationTest.Some? {
      var pivot := noAnnotationTest.value;
      GroupSplitsQueue(q, t => InClassGroup(cnf, pivot.className, t), t => !InClassGroup(cnf, pivot.className, t), pivot);
      return;
    }
    var unionTest := FirstWithUnion(cnf, q);
    var property := if unionTest.Some? then FirstUnionProperty(cnf, unionTest.value) else None;
    if property.Some? {
      var key := ValueEntry(property.value);
      assert property.value in unionTest.value.metaProperties;
      GroupSplitsQueue(q, t => InUnionGroup(cnf, key, t), t => !InUnionGroup(cnf, key, t), unionTest.value);
    } else if q != [] {
      assert q == [q[0]] + q[1..];
      SubsequenceReflexive(q[1..]);
    }
  }

  /** Tier 1. When `q[i]` is the first test with no isolate- or
      union-matching meta-property, the batch is every queued test of its
      class that is equally unannotated, `q[i]` among them, and none of those
      remains in the queue. */
  lemma ClassNameTier(cnf: MixedBatchingStrategyConfiguration, q: seq<Test>, i: nat)
    requires i < |q| && IsUnannotated(cnf, q[i])
    requires forall j :: 0 <= j < i ==> !IsUnannotated(cnf, q[j])
    ensures Select(cnf, q).Some?
    ensures var sel := Select(cnf, q).value;
            && sel.tier == ByClassName
            && q[i] in sel.batch
            && (forall t :: t in sel.batch <==> t in q && t.className == q[i].className && IsUnannotated(cnf, t))
            && (forall t :: t in sel.remaining ==> !(t.className == q[i].className && IsUnannotated(cnf, t)))
  {
    FindFirstAt(q, t => IsUnannotated(cnf, t), i);
  }

  /** Tier 2. When no queued test is unannotated, `q[i]` is the first test
      with a union-matching property and `k` indexes the first such property
      of `q[i]`, the batch is every queued test with some union-matching
      property whose `"value"` entry equals that of property `k` (an absent
      entry equals an absent one), `q[i]` among them, and none of those
      remains in the queue. */
  lemma UnionTier(cnf: MixedBatchingStrategyConfiguration, q: seq<Test>, i: nat, k: nat)
    requires forall t :: t in q ==> !IsUnannotated(cnf, t)
    requires i < |q| && forall j :: 0 <= j < i ==> !HasUnionProperty(cnf, q[j])
    requires k < |q[i].metaProperties| && CheckNeedUnion(cnf, q[i].metaProperties[k])
    requires forall j :: 0 <= j < k ==> !CheckNeedUnion(cnf, q[i].metaProperties[j])
    ensures Select(cnf, q).Some?
    ensures var sel := Select(cnf, q).value;
            var key := ValueEntry(q[i].metaProperties[k]);
            && sel.tier == ByUnion
            && q[i] in sel.batch
            && (forall t :: t in sel.batch <==> t in q && InUnionGroup(cnf, key, t))
            && (forall t :: t in sel.remaining ==> !InUnionGroup(cnf, key, t))
  {
    var mps := q[i].metaProperties;
    assert mps[k] in mps;
    assert FirstUnannotated(cnf, q).None?;
    FindFirstAt(q, t => HasUnionProperty(cnf, t), i);
    FindFirstAt(mps, mp => CheckNeedUnion(cnf, mp), k);
    assert InUnionGroup(cnf, ValueEntry(mps[k]), q[i]);
  }

  /** Which tier a call on a non-empty queue takes. Tier 1 exactly when some
      test is unannotated; tier 2 exactly when none is and some test has a
      union-matching property, so tier 2 never falls through to the fallback;
      the fallback exactly when every test has an isolate-matching property
      and none a union-matching one, and then it takes the head alone. */
  lemma SelectTier(cnf: MixedBatchingStrategyConfiguration, q: seq<Test>)
    requires q != []
    ensures Select(cnf, q).Some?
    ensures var sel := Select(cnf, q).value;
            && (sel.tier == ByClassName <==> exists t :: t in q && IsUnannotated(cnf, t))
            && (sel.tier == ByUnion <==>
                  (forall t :: t in q ==> !IsUnannotated(cnf, t)) &&
                  (exists t :: t in q && HasUnionProperty(cnf, t)))
            && (sel.tier == Polled <==>
                  forall t :: t in q ==> HasIsolateProperty(cnf, t) && !HasUnionProperty(cnf, t))
            && (sel.tier == Polled ==> sel.batch == [q[0]] && sel.remaining == q[1..])
  {
    SelectPartitions(cnf, q);
    var sel := Select(cnf, q).value;
    match FirstUnannotated(cnf, q)
    case Some(pivot) =>
      assert pivot in q;
    case None =>
      var unionTest := FirstWithUnion(cnf, q);
      if unionTest.Some? {
        assert unionTest.value in q;
        assert HasUnionProperty(cnf, unionTest.value);
        assert FirstUnionProperty(cnf, unionTest.value).Some?;
        assert !(forall t :: t in q ==> !HasUnionProperty(cnf, t));
      } else {
        forall t | t in q
          ensures HasIsolateProperty(cnf, t) && !HasUnionProperty(cnf, t)
        {
          assert !IsUnannotated(cnf, t);
        }
      }
  }

  /** With neither pattern configured nothing is annotated, so every call
      takes tier 1 and the strategy is plain class-name grouping: the batch
      is every queued test of the head's class, in queue order. */
  lemma WithoutPatternsGroupsByClassName(cnf: MixedBatchingStrategyConfiguration, q: seq<Test>)
    requires cnf.isolateAnnotationName.None? && cnf.unionAnnotationName.None?
    requires q != []
    ensures Select(cnf, q).Some?
    ensures var sel := Select(cnf, q).value;
            && sel.tier == ByClassName
            && sel.batch == Filter(q, (t: Test) => t.className == q[0].className)
            && sel.remaining == Filter(q, (t: Test) => t.className != q[0].className)
  {
    assert IsUnannotated(cnf, q[0]);
    ClassNameTier(cnf, q, 0);
    var className := q[0].className;
    FilterCongruent(q, t => InClassGroup(cnf, className, t), (t: Test) => t.className == className);
    FilterCongruent(q, t => !InClassGroup(cnf, className, t), (t: Test) => t.className != className);
  }

  /** When every unannotated test in the queue is of one class, tier 1 takes
      all the unannotated tests, in queue order, and leaves exactly the
      annotated ones, in queue order: an annotated test is never pulled into
      a class-name batch. */
  lemma SingleClassTier(cnf: MixedBatchingStrategyConfiguration, q: seq<Test>, i: nat)
    requires i < |q| && IsUnannotated(cnf, q[i])
    requires forall t :: t in q && IsUnannotated(cnf, t) ==> t.className == q[i].className
    ensures Select(cnf, q) == Some(Selection(ByClassName,
                                             Filter(q, t => IsUnannotated(cnf, t)),
                                             Filter(q, t => !IsUnannotated(cnf, t))))
  {
    var className := q[i].className;
    assert exists t :: t in q && IsUnannotated(cnf, t);
    var pivot := FirstUnannotated(cnf, q).value;
    assert pivot in q && IsUnannotated(cnf, pivot);
    FilterCongruent(q, t => InClassGroup(cnf, className, t), t => IsUnannotated(cnf, t));
    FilterCongruent(q, t => !InClassGroup(cnf, className, t), t => !IsUnannotated(cnf, t));
  }

  /** Three tests carrying one union-matching annotation with the same
      `"value"` entry, interleaved with two unannotated tests of one class:
      the first call takes the two unannotated tests, the second the whole
      union group. */
  lemma UnionIntegrityExample(cnf: MixedBatchingStrategyConfiguration, tag: MetaProperty,
                              a1: Test, a2: Test, a3: Test, b1: Test, b2: Test)
    requires CheckNeedUnion(cnf, tag)
    requires a1.metaProperties == a2.metaProperties == a3.metaProperties == [tag]
    requires b1.metaProperties == b2.metaProperties == [] && b1.className == b2.className
    ensures Select(cnf, [a1, b1, a2, b2, a3]) == Some(Selection(ByClassName, [b1, b2], [a1, a2, a3]))
    ensures Select(cnf, [a1, a2, a3]) == Some(Selection(ByUnion, [a1, a2, a3], []))
  {
    OnlyTagMatches(cnf, tag, a1);
    OnlyTagMatches(cnf, tag, a2);
    OnlyTagMatches(cnf, tag, a3);
    InterleavedFirstCall(cnf, a1, a2, a3, b1, b2);
    WholeUnionGroup(cnf, tag, [a1, a2, a3]);
  }

  /** The first call of the example above: tier 1 on the class of b1. */
  lemma InterleavedFirstCall(cnf: MixedBatchingStrategyConfiguration,
                             a1: Test, a2: Test, a3: Test, b1: Test, b2: Test)
    requires !IsUnannotated(cnf, a1) && !IsUnannotated(cnf, a2) && !IsUnannotated(cnf, a3)
    requires IsUnannotated(cnf, b1) && IsUnannotated(cnf, b2) && b1.className == b2.className
    ensures Select(cnf, [a1, b1, a2, b2, a3]) == Some(Selection(ByClassName, [b1, b2], [a1, a2, a3]))
  {
    SingleClassTier(cnf, [a1, b1, a2, b2, a3], 1);
    UnannotatedOfInterleaving(cnf, a1, a2, a3, b1, b2);
    AnnotatedOfInterleaving(cnf, a1, a2, a3, b1, b2);
  }

  lemma OnlyTagMatches(cnf: MixedBatchingStrategyConfiguration, tag: MetaProperty, t: Test)
    requires CheckNeedUnion(cnf, tag) && t.metaProperties == [tag]
    ensures !IsUnannotated(cnf, t)
  {
    assert tag in t.metaProperties;
  }

  lemma UnannotatedOfInterleaving(cnf: MixedBatchingStrategyConfiguration,
                                  a1: Test, a2: Test, a3: Test, b1: Test, b2: Test)
    requires !IsUnannotated(cnf, a1) && !IsUnannotated(cnf, a2) && !IsUnannotated(cnf, a3)
    requires IsUnannotated(cnf, b1) && IsUnannotated(cnf, b2)
    ensures Filter([a1, b1, a2, b2, a3], t => IsUnannotated(cnf, t)) == [b1, b2]
  {
    var p := t => IsUnannotated(cnf, t);
    FilterCons(a3, [], p);
    FilterCons(b2, [a3], p);
    FilterCons(a2, [b2, a3], p);
    FilterCons(b1, [a2, b2, a3], p);
    FilterCons(a1, [b1, a2, b2, a3], p);
  }

  lemma AnnotatedOfInterleaving(cnf: MixedBatchingStrategyConfiguration,
                                a1: Test, a2: Test, a3: Test, b1: Test, b2: Test)
    requires !IsUnannotated(cnf, a1) && !IsUnannotated(cnf, a2) && !IsUnannotated(cnf, a3)
    requires IsUnannotated(cnf, b1) && IsUnannotated(cnf, b2)
    ensures Filter([a1, b1, a2, b2, a3], t => !IsUnannotated(cnf, t)) == [a1, a2, a3]
  {
    var p := t => !IsUnannotated(cnf, t);
    FilterCons(a3, [], p);
    FilterCons(b2, [a3], p);
    FilterCons(a2, [b2, a3], p);
    FilterCons(b1, [a2, b2, a3], p);
    FilterCons(a1, [b1, a2, b2, a3], p);
  }

  /** A queue of tests that each carry exactly the one union-matching
      annotation `tag` is taken whole by tier 2. */
  lemma WholeUnionGroup(cnf: MixedBatchingStrategyConfiguration, tag: MetaProperty, q: seq<Test>)
    requires CheckNeedUnion(cnf, tag)
    requires q != [] && forall t :: t in q ==> t.metaProperties == [tag]
    ensures Select(cnf, q) == Some(Selection(ByUnion, q, []))
  {
    assert tag in [tag];
    assert forall t :: t in q ==> !IsUnannotated(cnf, t) && InUnionGroup(cnf, ValueEntry(tag), t);
    UnionTier(cnf, q, 0, 0);
    FilterAll(q, t => InUnionGroup(cnf, ValueEntry(tag), t));
    FilterNone(q, t => !InUnionGroup(cnf, ValueEntry(tag), t));
  }

  /** One isolate-annotated test ahead of two unannotated tests of one
      class: the first call takes the two unannotated tests and leaves the
      isolated one, which the second call takes on its own. */
  lemma IsolationExclusionExample(cnf: MixedBatchingStrategyConfiguration, tag: MetaProperty,
                                  c: Test, b1: Test, b2: Test)
    requires CheckNeedIsolate(cnf, tag) && !CheckNeedUnion(cnf, tag) && c.metaProperties == [tag]
    requires b1.metaProperties == b2.metaProperties == [] && b1.className == b2.className
    ensures Select(cnf, [c, b1, b2]) == Some(Selection(ByClassName, [b1, b2], [c]))
    ensures Select(cnf, [c]) == Some(Selection(Polled, [c], []))
  {
    assert tag in c.metaProperties;
    IsolatedLeftOut(cnf, c, b1, b2);
    // Second call: c carries no union property, so it is polled.
    SelectTier(cnf, [c]);
  }

  /** The first call of the example above: c is left out of the class batch. */
  lemma IsolatedLeftOut(cnf: MixedBatchingStrategyConfiguration, c: Test, b1: Test, b2: Test)
    requires !IsUnannotated(cnf, c)
    requires IsUnannotated(cnf, b1) && IsUnannotated(cnf, b2) && b1.className == b2.className
    ensures Select(cnf, [c, b1, b2]) == Some(Selection(ByClassName, [b1, b2], [c]))
  {
    var q := [c, b1, b2];
    SingleClassTier(cnf, q, 1);
    assert Filter(q, t => IsUnannotated(cnf, t)) == [b1, b2] by {
      var p := t => IsUnannotated(cnf, t);
      FilterCons(b2, [], p);
      FilterCons(b1, [b2], p);
      FilterCons(c, [b1, b2], p);
    }
    assert Filter(q, t => !IsUnannotated(cnf, t)) == [c] by {
      var p := t => !IsUnannotated(cnf, t);
      FilterCons(b2, [], p);
      FilterCons(b1, [b2], p);
      FilterCons(c, [b1, b2], p);
    }
  }

  /** `String.hashCode` of the JVM, computed as the JVM does: `h = 31 * h + c`
      over the characters, wrapping to 32 bits. It agrees, modulo 2^32, with
      the documented value `s[0]*31^(n-1) + s[1]*31^(n-2) + ... + s[n-1]`. */
  function JavaStringHash(s: string): (r: int32)
    ensures (r as int - HashPolynomial(s)) % 0x1_0000_0000 == 0
    decreases |s|
  {
    if s == [] then 0
    else
      var init, c := s[..|s| - 1], s[|s| - 1];
      var h := JavaStringHash(init);
      assert init + [c] == s;
      PolynomialAppend(init, c);
      CongruentStep(WrapInt32(31 * h as int + c as int) as int, 31 * h as int + c as int,
                    h as int, HashPolynomial(init), c as int);
      WrapInt32(31 * h as int + c as int)
  }

  /** The documented value of `String.hashCode`, without wrap-around. */
  ghost function HashPolynomial(s: string): int
  {
    if s == [] then 0 else s[0] as int * Power31(|s| - 1) + HashPolynomial(s[1..])
  }

  ghost function Power31(n: nat): int
  {
    if n == 0 then 1 else 31 * Power31(n - 1)
  }

  /** Appending a character multiplies the polynomial by 31 and adds the
      character: the polynomial is what the JVM's loop computes. */
  lemma {:induction false} PolynomialAppend(s: string, c: char)
    ensures HashPolynomial(s + [c]) == 31 * HashPolynomial(s) + c as int
    decreases |s|
  {
    if s == [] {
      assert s + [c] == [c];
      assert [c][1..] == [];
    } else {
      var t := s[1..];
      assert (s + [c])[1..] == t + [c];
      PolynomialAppend(t, c);
      assert Power31(|s|) == 31 * Power31(|s| - 1);
      calc {
        HashPolynomial(s + [c]);
        s[0] as int * Power31(|s|) + HashPolynomial(t + [c]);
        s[0] as int * (31 * Power31(|s| - 1)) + 31 * HashPolynomial(t) + c as int;
        31 * (s[0] as int * Power31(|s| - 1) + HashPolynomial(t)) + c as int;
        31 * HashPolynomial(s) + c as int;
      }
    }
  }

  lemma CongruentStep(r: int, x: int, h: int, p: int, c: int)
    requires (r - x) % 0x1_0000_0000 == 0 && (h - p) % 0x1_0000_0000 == 0
    requires x == 31 * h + c
    ensures (r - (31 * p + c)) % 0x1_0000_0000 == 0
  {
    var m := 0x1_0000_0000;
    var k1, k2 := (r - x) / m, (h - p) / m;
    assert r - x == m * k1;
    assert h - p == m * k2;
    assert r - (31 * p + c) == m * (k1 + 31 * k2);
  }

  /** Why the partition depends on distinct identities when tests are equal
      by identity rather than as whole values: `b` shares `a`'s class and
      method but carries a matching annotation. Tier 1 batches `a` alone and
      keeps `b`, yet removing the batch by identity takes `b` out as well, so
      `b` ends up neither in the batch nor in the queue. */
  lemma IdentityCollisionLosesTest(cnf: MixedBatchingStrategyConfiguration, a: Test, b: Test)
    requires Identity(a) == Identity(b)
    requires IsUnannotated(cnf, a) && !IsUnannotated(cnf, b)
    ensures Select(cnf, [a, b]) == Some(Selection(ByClassName, [a], [b]))
    ensures WithoutIdentities([a, b], AsSet([a])) == []
  {
    var q := [a, b];
    SingleClassTier(cnf, q, 0);
    assert Filter(q, t => IsUnannotated(cnf, t)) == [a] by {
      var p := t => IsUnannotated(cnf, t);
      FilterCons(b, [], p);
      FilterCons(a, [b], p);
    }
    assert Filter(q, t => !IsUnannotated(cnf, t)) == [b] by {
      var p := t => !IsUnannotated(cnf, t);
      FilterCons(b, [], p);
      FilterCons(a, [b], p);
    }
    assert AsSet([a]) == {a};
    IdentityCollision(a, b);
  }

  /** Two's-complement truncation to 32 bits. */
  function WrapInt32(x: int): (r: int32)
    ensures (r as int - x) % 0x1_0000_0000 == 0
  {
    ((x + 0x8000_0000) % 0x1_0000_0000 - 0x8000_0000) as int32
  }

  /** The canonical name of the strategy class: its package and its simple name. */
  const PackageName: string := "com.malinskiy.marathon.execution.strategy.impl.batching"
  const CanonicalName: string := PackageName + "." + "MixedBatchingStrategy"

  class MixedBatchingStrategy {
    const cnf: MixedBatchingStrategyConfiguration

    constructor (cnf: MixedBatchingStrategyConfiguration)
      ensures this.cnf == cnf
    {
      this.cnf := cnf;
    }

    /** Removes one batch from `queue`, as `Select` describes. On an empty
        queue the source returns a batch holding null; here that is `None`,
        and the queue is left empty. */
    method Process(queue: TestQueue) returns (batch: Option<TestBatch>)
      modifies queue
      ensures match Select(cnf, old(queue.items))
              case None => batch == None && queue.items == old(queue.items)
              case Some(sel) => batch == Some(TestBatch(sel.batch)) && queue.items == sel.remaining
      ensures batch.None? <==> old(queue.items) == []
      ensures batch.Some? ==>
                && batch.value.tests != []
                && multiset(batch.value.tests) + multiset(queue.items) == multiset(old(queue.items))
    {
      SelectPartitions(cnf, queue.items);
      var noAnnotationTest := FirstUnannotated(cnf, queue.items);
      if noAnnotationTest.Some? {
        var classNameSelector := noAnnotationTest.value.className;
        var classNameTestGroup := ClassGroup(cnf, queue.items, classNameSelector);
        RemoveFilteredGroup(queue.items, t => InClassGroup(cnf, classNameSelector, t),
                            t => !InClassGroup(cnf, classNameSelector, t));
        queue.RemoveAll(AsSet(classNameTestGroup));
        return Some(TestBatch(classNameTestGroup));
      }
      var unionAnnotationTest := FirstWithUnion(cnf, queue.items);
      if unionAnnotationTest.Some? {
        var metaProperty := FirstUnionProperty(cnf, unionAnnotationTest.value);
        if metaProperty.Some? {
          var unionKey := ValueEntry(metaProperty.value);
          var unionTestGroup := UnionGroup(cnf, queue.items, unionKey);
          RemoveFilteredGroup(queue.items, t => InUnionGroup(cnf, unionKey, t), t => !InUnionGroup(cnf, unionKey, t));
          queue.RemoveAll(AsSet(unionTestGroup));
          return Some(TestBatch(unionTestGroup));
        }
      }
      var head := queue.Poll();
      batch := if head.None? then None else Some(TestBatch([head.value]));
    }

    /** Equal to every `MixedBatchingStrategy`, whatever its configuration,
        and to nothing else. */
    predicate Equals(other: object?)
      ensures this == other ==> Equals(other)
      ensures other == null ==> !Equals(other)
    {
      if this == other then true
      else if other == null || !(other is MixedBatchingStrategy) then false
      else true
    }

    /** The hash of the class's canonical name, the same for every instance. */
    function HashCode(): (r: int32)
      ensures (r as int - HashPolynomial(CanonicalName)) % 0x1_0000_0000 == 0
    {
      JavaStringHash(CanonicalName)
    }
  }

  /** Any two mixed strategies are equal, whatever their configurations, and
      equal strategies have equal hash codes, as `equals` and `hashCode` must
      agree. */
  lemma StrategiesAllEqual(a: MixedBatchingStrategy, b: MixedBatchingStrategy)
    ensures a.Equals(b) && b.Equals(a)
    ensures a.HashCode() == b.HashCode()
  {
  }

  /** A strategy is never equal to null or to an object of another class. */
  lemma EqualsOnlyStrategies(a: MixedBatchingStrategy, other: object?)
    ensures a.Equals(other) <==> other != null && other is MixedBatchingStrategy
  {
  }
}
