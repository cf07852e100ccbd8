/** The values that flow through the pending queue. */
module Tests {

  /** An annotation or marker on a test: its name and its named values
      (for example `{"value": "groupA"}`). */
  datatype MetaProperty = MetaProperty(name: string, values: map<string, string>)

  /** One test case. `className` is the fully qualified class name that
      `toClassName()` gives (package and class). */
  datatype Test = Test(className: string, methodName: string, metaProperties: seq<MetaProperty>)

  /** What names a test independently of its annotations: its class and method. */
  function Identity(t: Test): (string, string) {
    (t.className, t.methodName)
  }

  /** No two different tests of `s` share an identity. */
  predicate IdentitiesDistinct(s: seq<Test>) {
    forall a, b :: a in s && b in s && Identity(a) == Identity(b) ==> a == b
  }

  /** The tests handed to one device as a unit, in order. */
  datatype TestBatch = TestBatch(tests: seq<Test>)
}
