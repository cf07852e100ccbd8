/**
 The pending queue: the part of `java.util.Queue` the strategy uses, for a
 queue that behaves as a list. Iteration (`find`, `toList`) runs from the
 head, and `poll` removes that same head; `removeAll` removes every element
 equal to a member of the given collection and keeps the rest in their
 order. A queue such as `PriorityQueue`, which iterates in another order,
 is not covered.
 */
module TestQueues {
  import opened Wrappers
  import opened Sequences
  import opened Tests

  /** `s` without every element that is in `elements`. */
  function Without(s: seq<Test>, elements: set<Test>): (r: seq<Test>)
    ensures forall t :: t in r <==> t in s && t !in elements
  {
    Filter(s, t => t !in elements)
  }

  /** The identities of the tests in `elements`. */
  function Identities(elements: set<Test>): set<(string, string)> {
    set u | u in elements :: Identity(u)
  }

  /** `s` without every element whose identity is that of a member of
      `elements`: what `removeAll` leaves when tests are equal by identity. */
  function WithoutIdentities(s: seq<Test>, elements: set<Test>): (r: seq<Test>)
    ensures forall t :: t in r <==> t in s && forall u :: u in elements ==> Identity(u) != Identity(t)
  {
    Filter(s, t => Identity(t) !in Identities(elements))
  }

  /** When the elements to remove are queued and no two queued tests share an
      identity, removing by identity and removing by equality of whole tests
      leave the same queue. */
  lemma RemovalByIdentityAgrees(s: seq<Test>, elements: set<Test>)
    requires forall u :: u in elements ==> u in s
    requires IdentitiesDistinct(s)
    ensures WithoutIdentities(s, elements) == Without(s, elements)
  {
    forall t | t in s
      ensures (Identity(t) !in Identities(elements)) == (t !in elements)
    {
      if Identity(t) in Identities(elements) {
        var u :| u in elements && Identity(u) == Identity(t);
        assert u == t;
      }
    }
    FilterCongruent(s, t => Identity(t) !in Identities(elements), t => t !in elements);
  }

  /** Removing a test by identity also removes a different test that shares
      its identity. */
  lemma IdentityCollision(a: Test, b: Test)
    requires Identity(a) == Identity(b)
    ensures WithoutIdentities([a, b], {a}) == []
  {
    assert Identity(a) in Identities({a});
    FilterNone([a, b], t => Identity(t) !in Identities({a}));
  }

  class TestQueue {
    /** The queued tests, head first. */
    var items: seq<Test>

    constructor (tests: seq<Test>)
      ensures items == tests
    {
      items := tests;
    }

    method RemoveAll(elements: set<Test>)
      modifies this
      ensures items == Without(old(items), elements)
    {
      items := Without(items, elements);
    }

    method Poll() returns (head: Option<Test>)
      modifies this
      ensures old(items) == [] ==> head == None && items == []
      ensures old(items) != [] ==> head == Some(old(items)[0]) && items == old(items)[1..]
    {
      if items == [] {
        head := None;
      } else {
        head := Some(items[0]);
        items := items[1..];
      }
    }
  }
}
