/**
  The ring of nConsumer.c: a fixed buffer, a write index, a read index and a count, seen as the
  queue of its contents.
*/
module Ring {
  datatype Ring<T> = Ring(buffer: seq<T>, inIdx: nat, outIdx: nat, count: nat) {
    ghost predicate Valid() {
      && |buffer| > 0
      && outIdx < |buffer|
      && count <= |buffer|
      && inIdx == (outIdx + count) % |buffer|
    }

    /** The stored items, oldest first: slots outIdx, outIdx + 1, ... modulo the size. */
    ghost function Contents(): seq<T>
      requires Valid()
    {
      seq(count, i requires 0 <= i < count => buffer[(outIdx + i) % |buffer|])
    }

    function Put(x: T): Ring<T>
      requires inIdx < |buffer|
    {
      Ring(buffer[inIdx := x], (inIdx + 1) % |buffer|, outIdx, count + 1)
    }

    function Get(): Ring<T>
      requires 0 < |buffer| && 0 < count
    {
      Ring(buffer, inIdx, (outIdx + 1) % |buffer|, count - 1)
    }
  }

  /** One wrap of an index that is less than twice the size. */
  lemma ModOnce(x: nat, b: nat)
    requires x < 2 * b
    ensures x % b == if x < b then x else x - b
  {
    if x >= b {
      assert x == 1 * b + (x - b);
      assert x / b == 1;
    }
  }

  lemma AllModOnce(b: nat)
    requires b > 0
    ensures forall x {:trigger x % b} :: 0 <= x < 2 * b ==> x % b == if x < b then x else x - b
  {
    forall x | 0 <= x < 2 * b
      ensures x % b == if x < b then x else x - b
    {
      ModOnce(x, b);
    }
  }

  /** Writing at the write index appends to the queue. */
  lemma PutAppends<T>(r: Ring<T>, x: T)
    requires r.Valid() && r.count < |r.buffer|
    ensures r.Put(x).Valid() && r.Put(x).Contents() == r.Contents() + [x]
  {
    AllModOnce(|r.buffer|);
    var r' := r.Put(x);
    assert r'.Valid();
    assert |r'.Contents()| == |r.Contents() + [x]|;
    forall i | 0 <= i < r'.count
      ensures r'.Contents()[i] == (r.Contents() + [x])[i]
    {
    }
  }

  /** Reading at the read index removes the oldest item. */
  lemma GetRemovesOldest<T>(r: Ring<T>)
    requires r.Valid() && r.count > 0
    ensures r.Get().Valid() && r.Contents() == [r.buffer[r.outIdx]] + r.Get().Contents()
  {
    AllModOnce(|r.buffer|);
    var r' := r.Get();
    assert r'.Valid();
    forall i | 0 <= i < r.count
      ensures r.Contents()[i] == ([r.buffer[r.outIdx]] + r'.Contents())[i]
    {
    }
  }

  /** The globals buffer, in, out and count, updated in place. */
  class RingBuffer<T> {
    const buffer: array<T>
    var inIdx: nat
    var outIdx: nat
    var count: nat

    ghost predicate Valid()
      reads this, buffer
    {
      Abs().Valid()
    }

    function Abs(): Ring<T>
      reads this, buffer
    {
      Ring(buffer[..], inIdx, outIdx, count)
    }

    constructor (size: nat, blank: T)
      requires size > 0
      ensures Valid() && fresh(buffer)
      ensures Abs() == Ring(seq(size, _ => blank), 0, 0, 0)
    {
      buffer := new T[size](_ => blank);
      inIdx, outIdx, count := 0, 0, 0;
      new;
      assert buffer[..] == seq(size, _ => blank);
    }

    /** Lines 33 to 35: store, advance, count. */
    method Put(x: T)
      requires Valid() && count < buffer.Length
      modifies this, buffer
      ensures Valid() && Abs() == old(Abs()).Put(x)
      ensures Abs().Contents() == old(Abs().Contents()) + [x]
    {
      PutAppends(Abs(), x);
      buffer[inIdx] := x;
      inIdx := (inIdx + 1) % buffer.Length;
      count := count + 1;
    }

    /** Lines 56 to 58: load, advance, count. */
    method Get() returns (x: T)
      requires Valid() && count > 0
      modifies this
      ensures Valid() && Abs() == old(Abs()).Get() && x == old(buffer[outIdx])
      ensures old(Abs().Contents()) == [x] + Abs().Contents()
    {
      GetRemovesOldest(Abs());
      x := buffer[outIdx];
      outIdx := (outIdx + 1) % buffer.Length;
      count := count - 1;
    }
  }
}
