/**
 * myptr/ptr.go: `Ref` returns a pointer to a copy of its argument. A Go
 * pointer to a T is a `Cell` holding one value.
 */
module Ptr {

  /** A heap cell holding a value of type T. */
  class Cell<T> {
    var value: T

    constructor (v: T)
      ensures value == v
    {
      value := v;
    }
  }

  /**
   * Ref: a freshly allocated cell holding `v`; nothing allocated before is
   * modified.
   */
  method Ref<T>(v: T) returns (p: Cell<T>)
    ensures fresh(p) && p.value == v
  {
    p := new Cell(v);
  }

  /**
   * `Ref(42)` dereferences to 42, and writing through it leaves the
   * caller's variable and an earlier cell unchanged.
   */
  method RefCopies() returns (value: int, deref: int, other: int)
    ensures value == 42 && deref == 43 && other == 7
  {
    var earlier := Ref(7);
    value := 42;
    var p := Ref(value);
    assert p.value == 42;
    p.value := 43;
    deref := p.value;
    other := earlier.value;
  }
}
