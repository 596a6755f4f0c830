/** Bytes, and packets of bytes one after the other. */
module Bytes {
  type Byte = x: int | 0 <= x < 256

  function Concat(ps: seq<seq<Byte>>): seq<Byte> {
    if ps == [] then [] else ps[0] + Concat(ps[1..])
  }

  lemma {:induction false} ConcatLast(ps: seq<seq<Byte>>, p: seq<Byte>)
    ensures Concat(ps + [p]) == Concat(ps) + p
  {
    if ps == [] {
      assert ps + [p] == [p] && [p][1..] == [] && p + [] == p && [] + p == p;
    } else {
      assert (ps + [p])[1..] == ps[1..] + [p];
      ConcatLast(ps[1..], p);
      assert ps[0] + (Concat(ps[1..]) + p) == ps[0] + Concat(ps[1..]) + p;
    }
  }
}

/** The fixed-size circular buffer of a control connection. */
module RingBuffer {
  import opened Bytes

  /** Where element number `i` is, counted from `cur`. */
  function Pos(size: nat, cur: nat, i: nat): (p: nat)
    requires cur < size && i <= size
    ensures p < size
  {
    if cur + i >= size then cur + i - size else cur + i
  }

  ghost function Slice(s: seq<Byte>, cur: nat, len: nat): (r: seq<Byte>)
    requires cur < |s| && len <= |s|
    ensures |r| == len && forall i :: 0 <= i < len ==> r[i] == s[Pos(|s|, cur, i)]
  {
    seq(len, i requires 0 <= i < len => s[Pos(|s|, cur, i)])
  }

  /** Bytes written just past the contents, wherever that is, are added to them. */
  lemma Appended(a: seq<Byte>, b: seq<Byte>, cur: nat, len: nat, s: seq<Byte>)
    requires cur < |a| == |b| && len + |s| <= |a|
    requires forall k :: 0 <= k < |s| ==> b[Pos(|a|, Pos(|a|, cur, len), k)] == s[k]
    requires forall k :: 0 <= k < len ==> b[Pos(|a|, cur, k)] == a[Pos(|a|, cur, k)]
    ensures Slice(b, cur, len + |s|) == Slice(a, cur, len) + s
  {
    forall k | 0 <= k < len + |s| ensures Slice(b, cur, len + |s|)[k] == (Slice(a, cur, len) + s)[k] {
      if k >= len {
        assert Pos(|a|, Pos(|a|, cur, len), k - len) == Pos(|a|, cur, k);
        assert b[Pos(|a|, Pos(|a|, cur, len), k - len)] == s[k - len];
      }
    }
  }

  function Min(a: nat, b: nat): nat { if a < b then a else b }

  class CpBuffer {
    const buf: array<Byte>
    var curIdx: nat
    var length: nat

    ghost predicate Valid()
      reads this
    {
      curIdx < buf.Length && length <= buf.Length
    }

    ghost function Contents(): (s: seq<Byte>)
      requires Valid()
      reads this, buf
      ensures |s| == length
    {
      Slice(buf[..], curIdx, length)
    }

    constructor (size: nat)
      requires size > 0
      ensures Valid() && fresh(buf) && buf.Length == size && Contents() == []
    {
      buf := new Byte[size];
      curIdx, length := 0, 0;
    }

    method GetFree() returns (n: nat)
      requires Valid()
      ensures n == buf.Length - |Contents()|
    {
      n := buf.Length - length;
    }

    method At(idx: nat) returns (b: Byte)
      requires Valid() && idx < length
      ensures b == Contents()[idx]
    {
      var p := curIdx + idx;
      if p >= buf.Length {
        p := p - buf.Length;
      }
      b := buf[p];
    }

    /** Drop bytes from the front. */
    method Consume(amount: nat)
      requires Valid() && amount <= length
      modifies this
      ensures Valid() && Contents() == old(Contents())[amount..]
    {
      curIdx := curIdx + amount;
      if curIdx >= buf.Length {
        curIdx := curIdx - buf.Length;
      }
      length := length - amount;
      assert forall i :: 0 <= i < length ==> Contents()[i] == old(Contents())[amount + i];
    }

    method TrimTo(newLength: nat)
      requires Valid() && newLength <= length
      modifies this
      ensures Valid() && Contents() == old(Contents())[..newLength]
    {
      length := newLength;
    }

    method Reset()
      requires Valid()
      modifies this
      ensures Valid() && Contents() == []
    {
      curIdx, length := 0, 0;
    }

    /** How many bytes from element `i` on lie side by side. Just past the contents, and so in an empty buffer, it is
        instead how far it is to the end of the array, which is never zero. */
    method GetContiguousLength(i: nat) returns (n: nat)
      requires Valid() && i <= length
      ensures i + n <= length <==> i < length
      ensures i < length ==> n == Min(length - i, buf.Length - Pos(buf.Length, curIdx, i))
      ensures i < length ==> buf[Pos(buf.Length, curIdx, i)..Pos(buf.Length, curIdx, i) + n] == Contents()[i..i + n]
      ensures i == length ==> n == buf.Length - Pos(buf.Length, curIdx, i)
    {
      var ptr := Pos(buf.Length, curIdx, i);
      var eidx := curIdx + length;
      if eidx >= buf.Length {
        eidx := eidx - buf.Length;
      }
      n := if eidx > ptr then eidx - ptr else buf.Length - ptr;
      if i < length {
        ghost var x, y := buf[ptr..ptr + n], Contents()[i..i + n];
        forall k | 0 <= k < n ensures x[k] == y[k] { }
      }
    }

    /** Copy bytes out; they stay in the buffer. */
    method Extract(index: nat, len: nat) returns (dest: seq<Byte>)
      requires Valid() && index + len <= length
      ensures dest == Contents()[index..index + len]
    {
      var p := Pos(buf.Length, curIdx, index);
      if p + len > buf.Length {
        var half := buf.Length - p;
        dest := buf[p..p + half] + buf[..len - half];
      } else {
        dest := buf[p..p + len];
      }
      forall k | 0 <= k < len ensures dest[k] == Contents()[index + k] { }
    }

    /** Write bytes into the array from a position on. */
    method CopyIn(pos: nat, s: seq<Byte>)
      requires pos + |s| <= buf.Length
      modifies buf
      ensures forall k :: 0 <= k < |s| ==> buf[pos + k] == s[k]
      ensures forall k :: 0 <= k < pos || pos + |s| <= k < buf.Length ==> buf[k] == old(buf[k])
    {
      for i := 0 to |s|
        invariant forall k :: 0 <= k < i ==> buf[pos + k] == s[k]
        invariant forall k :: 0 <= k < pos || pos + i <= k < buf.Length ==> buf[k] == old(buf[k])
      {
        buf[pos + i] := s[i];
      }
    }

    /** Add bytes for which there is room, wrapping around if need be. */
    method Append(s: seq<Byte>)
      requires Valid() && |s| <= buf.Length - length
      modifies this, buf
      ensures Valid() && Contents() == old(Contents()) + s
    {
      var index := curIdx + length;
      if index >= buf.Length {
        index := index - buf.Length;
      }
      ghost var before := buf[..];
      ghost var len0 := length;
      length := length + |s|;
      var max := buf.Length - index;
      var n := Min(max, |s|);
      CopyIn(index, s[..n]);
      if |s| > max {
        CopyIn(0, s[max..]);
      }
      forall k | 0 <= k < |s| ensures buf[Pos(buf.Length, index, k)] == s[k] {
        if k >= max {
          assert buf[0 + (k - max)] == s[max..][k - max];
        } else {
          assert buf[index + k] == s[..n][k];
        }
      }
      Appended(before, buf[..], curIdx, len0, s);
    }

    /** Read once from a stream that has `avail` ready: at most as much as fits without wrapping, and never more than
        `limit`. Returns how much was read. */
    method Fill(avail: seq<Byte>, limit: nat) returns (r: nat)
      requires Valid()
      modifies this, buf
      ensures Valid() && r <= |avail| && Contents() == old(Contents()) + avail[..r]
      ensures r == 0 ==> avail == [] || limit == 0 || old(length) == buf.Length
    {
      var pos := curIdx + length;
      if pos >= buf.Length {
        pos := pos - buf.Length;
      }
      var maxCount := Min(Min(buf.Length - pos, buf.Length - length), limit);
      r := Min(maxCount, |avail|);
      ghost var before := buf[..];
      ghost var s := avail[..r];
      CopyIn(pos, avail[..r]);
      forall k | 0 <= k < |s| ensures buf[Pos(buf.Length, pos, k)] == s[k] { assert buf[pos + k] == s[k]; }
      Appended(before, buf[..], curIdx, length, s);
      length := length + r;
    }

    /** Read until the buffer holds at least `rlength`, or nothing more is there. */
    method FillTo(avail: seq<Byte>, rlength: nat) returns (ok: bool, n: nat)
      requires Valid() && rlength <= buf.Length
      modifies this, buf
      ensures Valid() && n <= |avail| && Contents() == old(Contents()) + avail[..n]
      ensures ok ==> length >= rlength
      ensures !ok ==> n == |avail| && length < rlength
    {
      n := 0;
      assert avail[..0] == [];
      while length < rlength
        invariant Valid() && n <= |avail| && Contents() == old(Contents()) + avail[..n]
        decreases |avail| - n
      {
        var r := Fill(avail[n..], buf.Length);
        assert avail[..n] + avail[n..][..r] == avail[..n + r];
        n := n + r;
        if r == 0 {
          return false, n;
        }
      }
      ok := true;
    }
  }
}
