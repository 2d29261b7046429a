/**
 * The kernel's byte FIFO (kfifo) as the driver uses it: a bounded byte
 * queue. `put` stores as much of its argument as fits in the free space and
 * returns the count stored; `get` removes up to the requested count from the
 * front and returns what it removed.
 */
module Kfifo {
  import opened Wire

  datatype PutResult = PutResult(fifo: seq<byte>, stored: nat)

  datatype GetResult = GetResult(out: seq<byte>, fifo: seq<byte>)

  function Min(a: int, b: int): int { if a <= b then a else b }

  /** kfifo_put / kfifo_in into a FIFO of capacity `size`. */
  function Put(fifo: seq<byte>, data: seq<byte>, size: nat): (r: PutResult)
    requires |fifo| <= size
    ensures r.stored <= |data| && r.fifo == fifo + data[..r.stored]
    ensures |r.fifo| <= size
    ensures r.stored < |data| ==> |r.fifo| == size
  {
    var n := Min(|data|, size - |fifo|);
    PutResult(fifo + data[..n], n)
  }

  /** kfifo_get / kfifo_out of at most `n` bytes. */
  function Get(fifo: seq<byte>, n: nat): (r: GetResult)
    ensures r.out + r.fifo == fifo
    ensures |r.out| <= n
    ensures |r.out| < n ==> r.fifo == []
  {
    var k := Min(n, |fifo|);
    GetResult(fifo[..k], fifo[k..])
  }

  /** A put that fits stores everything. */
  lemma PutFits(fifo: seq<byte>, data: seq<byte>, size: nat)
    requires |fifo| + |data| <= size
    ensures Put(fifo, data, size) == PutResult(fifo + data, |data|)
  {
    assert data[..|data|] == data;
  }

  /** The queue is first-in first-out: what was queued before a put comes
      out first, and the put bytes follow it. */
  lemma PutThenGet(fifo: seq<byte>, data: seq<byte>, size: nat)
    requires |fifo| <= size
    ensures Get(Put(fifo, data, size).fifo, |fifo|).out == fifo
    ensures Get(Put(fifo, data, size).fifo, |fifo|).fifo == data[..Put(fifo, data, size).stored]
  {
    var p := Put(fifo, data, size);
    assert p.fifo[..|fifo|] == fifo;
  }
}
