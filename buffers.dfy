/** The scratch buffers an entry renders into. `bytes.Buffer` and the buffer
    pool are library code; they are modelled only as far as the core uses them:
    a buffer holds the text written so far, and a pool hands out a buffer it
    holds, or a new empty one, and takes buffers back. */
module Buffers {

  /** `bytes.Buffer`. Text is kept as characters, not UTF-8 bytes. */
  class Buffer {
    var content: string

    constructor ()
      ensures content == []
    {
      content := [];
    }

    method Reset()
      modifies this
      ensures content == []
    {
      content := [];
    }

    method WriteString(s: string)
      modifies this
      ensures content == old(content) + s
    {
      content := content + s;
    }

    method WriteByte(c: char)
      modifies this
      ensures content == old(content) + [c]
    {
      content := content + [c];
    }
  }

  /** A `BufferPool`: `Get` hands out the most recently returned buffer, or a
      new one when it holds none; `Put` takes a buffer back. */
  class BufferPool {
    var free: seq<Buffer>

    constructor ()
      ensures free == []
    {
      free := [];
    }

    method Get() returns (b: Buffer)
      modifies this
      ensures old(free) == [] ==> fresh(b) && b.content == [] && free == []
      ensures old(free) != [] ==> b == old(free)[|old(free)| - 1] && free == old(free)[..|old(free)| - 1]
    {
      if free == [] {
        b := new Buffer();
      } else {
        b := free[|free| - 1];
        free := free[..|free| - 1];
      }
    }

    method Put(b: Buffer)
      modifies this
      ensures free == old(free) + [b]
    {
      free := free + [b];
    }
  }

  /** The pool after one buffer was borrowed and given back emptied: the
      most recently returned buffer (or a new one, when the pool held none) is
      back on top, empty, and every other buffer keeps its content. */
  twostate predicate LentAndReturned(pool: BufferPool)
    reads pool, pool.free
  {
    |pool.free| > 0 &&
    (old(pool.free) != [] ==> pool.free == old(pool.free)) &&
    (old(pool.free) == [] ==> |pool.free| == 1 && fresh(pool.free[0])) &&
    pool.free[|pool.free| - 1].content == [] &&
    (forall b :: b in old(pool.free) && b != pool.free[|pool.free| - 1] ==> b.content == old(b.content))
  }

  /** The pool and every buffer in it are as they were. */
  twostate predicate Untouched(pool: BufferPool)
    reads pool, pool.free
  {
    pool.free == old(pool.free) && (forall b :: b in pool.free ==> b.content == old(b.content))
  }
}
