/**
 * mytest/table.go: a builder of table-driven test cases. `Add` and
 * `AddParallel` append a case to the receiver's list and return the
 * receiver, so calls chain.
 */
module TestTable {

  /** One case: its name, whether it runs in parallel, and its data. */
  datatype TestCase<T> = TestCase(name: string, parallel: bool, data: T)

  class Tests<T> {
    var cases: seq<TestCase<T>>

    /** NewTests: no cases yet. */
    constructor ()
      ensures cases == []
    {
      cases := [];
    }

    /** Add: appends a sequential case at the end and returns the receiver. */
    method Add(name: string, data: T) returns (r: Tests<T>)
      modifies this
      ensures r == this
      ensures cases == old(cases) + [TestCase(name, false, data)]
    {
      cases := cases + [TestCase(name, false, data)];
      return this;
    }

    /** AddParallel: appends a parallel case at the end and returns the receiver. */
    method AddParallel(name: string, data: T) returns (r: Tests<T>)
      modifies this
      ensures r == this
      ensures cases == old(cases) + [TestCase(name, true, data)]
    {
      cases := cases + [TestCase(name, true, data)];
      return this;
    }
  }

  /**
   * Chained calls accumulate on one list, in call order, earlier cases
   * untouched: `NewTests(t).Add("a", 1).AddParallel("b", 2).Add("c", 3)`.
   */
  method ChainedCases() returns (cases: seq<TestCase<int>>)
    ensures cases == [TestCase("a", false, 1), TestCase("b", true, 2), TestCase("c", false, 3)]
  {
    var t := new Tests<int>();
    var t1 := t.Add("a", 1);
    var t2 := t1.AddParallel("b", 2);
    var t3 := t2.Add("c", 3);
    cases := t.cases;
  }
}
