/** Reference-counted buffer chains (buffer.c, refbase.c). */
module BufferChain {

  const UINT32: nat := 0x1_0000_0000

  newtype int8 = x: int | -128 <= x < 128

  class Buffer {
    var refcount: int
    var size: nat
    const buf: array<int8>
    var next: Buffer?
    /** When the buffer was made: links only ever lead to younger buffers. */
    ghost const stamp: nat

    /** `buffer_create`: nobody refers to the new buffer yet. */
    constructor (capacity: nat, ghost time: nat)
      ensures refcount == 0 && size == 0 && next == null && stamp == time
      ensures buf.Length == capacity && fresh(buf)
    {
      refcount, size, next, stamp := 0, 0, null, time;
      buf := new int8[capacity];
    }
  }

  /** `chain` is everything from `b` on, in the order of the links. */
  ghost predicate IsChain(b: Buffer?, chain: seq<Buffer>)
    reads chain
    decreases |chain|
  {
    if chain == [] then b == null else b == chain[0] && IsChain(b.next, chain[1..])
  }

  lemma ChainHead(b: Buffer?, chain: seq<Buffer>)
    requires IsChain(b, chain)
    ensures b == null <==> chain == []
    ensures b != null ==> b == chain[0] && IsChain(b.next, chain[1..]) && forall c :: c in chain[1..] ==> c in chain
  {
  }

  // ---------------------------------------------------------------- reading

  /** The bytes of a chain, one buffer after another. */
  ghost function Bytes(chain: seq<Buffer>): seq<int8>
    requires forall b :: b in chain ==> b.size <= b.buf.Length
    reads chain, set b | b in chain :: b.buf
    decreases |chain|
  {
    if chain == [] then [] else chain[0].buf[..chain[0].size] + Bytes(chain[1..])
  }

  /** What can be read from position `pos` of the first buffer on. */
  ghost function Available(chain: seq<Buffer>, pos: nat): seq<int8>
    requires forall b :: b in chain ==> b.size <= b.buf.Length
    requires chain != [] ==> pos <= chain[0].size
    reads chain, set b | b in chain :: b.buf
  {
    if chain == [] then [] else Bytes(chain)[pos..]
  }

  /** What remains of `s` after the first `n` elements. */
  function After<T>(s: seq<T>, n: nat): (r: seq<T>)
    requires n <= |s|
    ensures |r| == |s| - n
  {
    s[n..]
  }

  /** What overwriting the first `n` elements of `was` leaves. */
  function Overlaid<T>(s: seq<T>, n: nat, was: seq<T>): (r: seq<T>)
    requires n <= |s| && n <= |was|
    ensures |r| == |was| && (forall i :: 0 <= i < |r| ==> r[i] == if i < n then s[i] else was[i])
  {
    s[..n] + was[n..]
  }

  lemma NothingAvailable(pos: nat)
    ensures Available([], pos) == []
  {
  }

  /** Reading `n` bytes on, within the first buffer or over its end into the next one. */
  lemma ReadOn(chain: seq<Buffer>, pos: nat, n: nat, all: seq<int8>, done: nat)
    requires forall b :: b in chain ==> b.size <= b.buf.Length
    requires chain != [] && pos + n <= chain[0].size
    requires done <= |all| && Available(chain, pos) == After(all, done)
    ensures done + n <= |all|
    ensures all[done..done + n] == chain[0].buf[pos..pos + n]
    ensures After(all, done + n) ==
            if pos + n >= chain[0].size then Available(chain[1..], 0) else Available(chain, pos + n)
  {
    var first := chain[0].buf[..chain[0].size];
    assert Bytes(chain) == first + Bytes(chain[1..]);
    assert all[done..done + n] == After(all, done)[..n] == first[pos..pos + n];
    assert After(all, done + n) == Bytes(chain)[pos + n..];
  }

  /** One `memcpy` of the loop below: the next `n` bytes of `all`. */
  method Memcpy(out: array<int8>, done: nat, from: array<int8>, start: nat, n: nat,
                ghost all: seq<int8>, ghost was: seq<int8>)
    requires done + n <= out.Length && start + n <= from.Length && out != from && done + n <= |all|
    requires |was| == out.Length && out[..] == Overlaid(all, done, was)
    requires all[done..done + n] == from[start..start + n]
    modifies out
    ensures out[..] == Overlaid(all, done + n, was)
  {
    ghost var half := Overlaid(all, done, was);
    forall i | 0 <= i < n {
      out[done + i] := from[start + i];
    }
    forall k | 0 <= k < out.Length ensures out[k] == Overlaid(all, done + n, was)[k] {
      if done <= k < done + n {
        assert from[start..start + n][k - done] == all[done..done + n][k - done];
      } else {
        assert out[k] == half[k];
      }
    }
  }

  /**
  What a read of `size` bytes is served from: the chain from `pos` on or, when `pos` is beyond the bytes in use of the
  first buffer, whatever its memory holds there.
  */
  ghost function Source(chain: seq<Buffer>, pos: nat, size: nat): seq<int8>
    requires forall b :: b in chain ==> b.size <= b.buf.Length
    requires chain != [] && chain[0].size < pos ==> pos + size <= chain[0].buf.Length
    reads chain, set b | b in chain :: b.buf
  {
    if Beyond(chain, pos) then chain[0].buf[pos..pos + size] else Available(chain, pos)
  }

  ghost predicate Beyond(chain: seq<Buffer>, pos: nat)
    reads chain
  {
    chain != [] && chain[0].size < pos
  }

  /**
  `buffer_read` succeeds exactly when the chain holds enough bytes from `pos` on, and then delivers exactly that slice
  of the concatenated chain; otherwise it delivers all there is and fails. Beyond the bytes in use of the first buffer
  the unsigned difference wraps around: there it succeeds with stale memory, if that is inside the buffer.
  */
  method Read(b: Buffer?, ghost chain: seq<Buffer>, pos: nat, out: array<int8>, size: nat) returns (ret: int)
    requires IsChain(b, chain)
    requires forall c :: c in chain ==> c.size <= c.buf.Length < UINT32 && c.buf != out
    requires b != null && b.size < pos ==> pos + size <= b.buf.Length
    requires size <= out.Length
    modifies out
    ensures ret == if size <= |old(Source(chain, pos, size))| then 0 else -1
    ensures var all := old(Source(chain, pos, size));
            out[..] == Overlaid(all, if size <= |all| then size else |all|, old(out[..]))
  {
    hide Bytes, Available, Overlaid, IsChain, After;
    ChainHead(b, chain);
    ghost var all, was := Source(chain, pos, size), out[..];
    StartReading(all, was);
    ghost var rest, beyond := chain, Beyond(chain, pos);
    var cur := b;
    var p: nat, done: nat, left: nat := pos, 0, size;
    while left != 0
      invariant IsChain(cur, rest)
      invariant forall c :: c in rest ==> c.size <= c.buf.Length < UINT32 && c.buf != out
      invariant rest == [] <==> cur == null
      invariant cur != null ==> cur == rest[0]
      invariant done + left == size && done <= |all|
      invariant if beyond then left == 0 || (cur == b && p == pos && done == 0)
                else (cur != null ==> p <= cur.size) && Available(rest, p) == After(all, done)
      invariant out[..] == Overlaid(all, done, was)
      decreases |rest|, left
    {
      if cur == null {
        NothingAvailable(p);
        return -1;
      }
      ChainHead(cur, rest);
      var copySize := Uint32Minus(cur.size, p);
      copySize := if copySize > left then left else copySize;
      if beyond {
        assert all[0..size] == cur.buf[pos..pos + size];
      } else {
        ReadOn(rest, p, copySize, all, done);
      }
      Memcpy(out, done, cur.buf, p, copySize, all, was);
      done, left, p := done + copySize, left - copySize, p + copySize;
      if p >= cur.size {
        p, cur, rest := 0, cur.next, rest[1..];
        ChainHead(cur, rest);
      }
    }
    return 0;
  }

  /** Subtraction on 32 bits. */
  function Uint32Minus(a: nat, b: nat): (r: nat)
    requires a < UINT32 && b < UINT32
    ensures r == if b <= a then a - b else UINT32 - (b - a)
  {
    (a - b) % UINT32
  }

  lemma StartReading<T>(all: seq<T>, was: seq<T>)
    ensures After(all, 0) == all && Overlaid(all, 0, was) == was
  {
  }
}
