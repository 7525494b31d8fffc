/**
 The call stack and the block stack of the monitor: two instances of one growable array, made by the
 macros of monitor/include/{call,block}_stack.h and the functions of monitor/src/{call,block}_stack.c.
 Pointers into the array are offsets, so growing the array does not invalidate them.
 */
module GrowableStack {

  const CALL_STACK_EXTEND_SIZE: nat := 512
  const BLOCK_STACK_EXTEND_SIZE: nat := 4096

  class Stack<T(0)> {
    const extendSize: nat
    var data: array<T>
    /** Offset of the top element; -1, the invalid pointer before the first element, when empty. */
    var top: int
    /** How many blocks of extendSize elements the array is made of. */
    ghost var chunks: nat

    ghost predicate Valid()
      reads this
    {
      && extendSize > 0 && chunks > 0 && data.Length == chunks * extendSize > 0
      && -1 <= top < data.Length
    }

    ghost function Contents(): seq<T>
      requires Valid()
      reads this, data
    {
      data[..top + 1]
    }

    constructor (extendSize: nat)
      requires extendSize > 0
      ensures Valid() && fresh(data)
      ensures this.extendSize == extendSize && data.Length == extendSize
      ensures Contents() == []
    {
      this.extendSize := extendSize;
      data := new T[extendSize];
      top := -1;
      chunks := 1;
    }

    predicate IsEmpty()
      reads this
    {
      top < 0
    }

    /** The pointer that a frame saves, as the number of elements up to and including the top one. */
    function TopPtr(): int
      reads this
    {
      top + 1
    }

    method Extend()
      requires Valid()
      modifies this`data, this`chunks
      ensures Valid() && fresh(data)
      ensures data.Length == old(data.Length) + extendSize && chunks == old(chunks) + 1
      ensures Contents() == old(Contents())
    {
      var size := data.Length + extendSize;
      var smaller, bigger := data, new T[size];
      for i := 0 to smaller.Length
        invariant data == smaller && chunks == old(chunks) && bigger[..i] == smaller[..i]
      {
        bigger[i] := smaller[i];
      }
      assert bigger[..top + 1] == bigger[..smaller.Length][..top + 1] == smaller[..top + 1];
      assert (chunks + 1) * extendSize == chunks * extendSize + extendSize;
      data, chunks := bigger, chunks + 1;
    }

    method Push(v: T)
      requires Valid()
      modifies this, data
      ensures Valid() && (data == old(data) || fresh(data))
      ensures data == old(data) <==> old(top) < old(data.Length) - 1
      ensures Contents() == old(Contents()) + [v]
    {
      if top >= data.Length - 1 {
        Extend();
      }
      top := top + 1;
      data[top] := v;
    }

    method Pop() returns (v: T)
      requires Valid() && !IsEmpty()
      modifies this`top
      ensures Valid()
      ensures old(Contents()) == Contents() + [v]
    {
      v := data[top];
      top := top - 1;
    }

    /** Go back to a height saved earlier, dropping everything pushed since. */
    method RestoreTop(sp: nat)
      requires Valid() && sp <= TopPtr()
      modifies this`top
      ensures Valid()
      ensures Contents() == old(Contents())[..sp]
    {
      top := sp - 1;
    }
  }
}
