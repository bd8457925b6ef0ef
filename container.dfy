/** fill_container (mbptr12/container.h): push the objects a creator
    returns onto a container until the creator returns zero.  The creator's
    i-th call (counting from 0) returns gen(i); the container is a vector
    whose push_back appends. */
module Container {

  /** A std::vector-like container: push_back appends at the end. */
  class Vector<T> {
    var elems: seq<T>

    constructor (initial: seq<T>)
      ensures elems == initial
    {
      elems := initial;
    }

    method PushBack(a: T)
      modifies this
      ensures elems == old(elems) + [a]
    {
      elems := elems + [a];
    }
  }

  /** The index of the first call, from call i on, whose result is zero:
      the call that stops the loop. */
  function FirstZeroFrom<T(==)>(gen: nat -> T, zero: T, i: nat, stop: nat): (k: nat)
    requires i <= stop && gen(stop) == zero
    ensures i <= k <= stop && gen(k) == zero
    ensures forall c: nat :: i <= c < k ==> gen(c) != zero
    decreases stop - i
  {
    if gen(i) == zero then i else FirstZeroFrom(gen, zero, i + 1, stop)
  }

  /** The number of objects the creator returns before its first zero;
      `stop` is the index of some call that returns zero. */
  function FirstZero<T(==)>(gen: nat -> T, zero: T, stop: nat): (k: nat)
    requires gen(stop) == zero
    ensures k <= stop && gen(k) == zero
    ensures forall c: nat :: c < k ==> gen(c) != zero
  {
    FirstZeroFrom(gen, zero, 0, stop)
  }

  /** The objects fill_container appends: the creator's results before its
      first zero, in the order they were produced. */
  function Produced<T(==)>(gen: nat -> T, zero: T, stop: nat): (r: seq<T>)
    requires gen(stop) == zero
  {
    seq(FirstZero(gen, zero, stop), i requires 0 <= i => gen(i))
  }

  /** The appended objects are the creator's results in order, none of
      them zero, and there are as many as the calls before the first
      zero. */
  lemma {:induction false} ProducedFacts<T>(gen: nat -> T, zero: T, stop: nat)
    requires gen(stop) == zero
    ensures |Produced(gen, zero, stop)| == FirstZero(gen, zero, stop)
    ensures forall i :: 0 <= i < |Produced(gen, zero, stop)| ==>
              Produced(gen, zero, stop)[i] == gen(i) && Produced(gen, zero, stop)[i] != zero
    ensures zero !in Produced(gen, zero, stop)
  {
  }

  /** fill_container: the container keeps what it held and gains, in
      order, every object the creator returns before its first zero; that
      zero is not appended.  `stop` is the index of some call that returns
      zero, which the loop needs in order to end. */
  method FillContainer<T(==)>(gen: nat -> T, zero: T, ghost stop: nat, container: Vector<T>)
    requires gen(stop) == zero
    modifies container
    ensures container.elems == old(container.elems) + Produced(gen, zero, stop)
  {
    ghost var k := FirstZero(gen, zero, stop);
    var calls: nat := 0;
    var a := gen(calls);
    calls := calls + 1;
    while a != zero
      invariant 1 <= calls <= k + 1
      invariant a == gen(calls - 1)
      invariant container.elems == old(container.elems) + seq(calls - 1, i requires 0 <= i => gen(i))
      decreases k + 1 - calls
    {
      container.PushBack(a);
      assert seq(calls, i requires 0 <= i => gen(i)) == seq(calls - 1, i requires 0 <= i => gen(i)) + [gen(calls - 1)];
      a := gen(calls);
      calls := calls + 1;
    }
  }
}
