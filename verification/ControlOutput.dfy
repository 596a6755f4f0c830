/** The sending side of a control connection: packets that the socket does not take at once are queued. */
module ControlOutput {
  import opened Bytes

  /** What a write returns: how much was taken, that nothing can be taken now, or that the connection is broken. */
  datatype Write = Took(n: nat) | WouldBlock | Broken

  const OUT_OF_MEMORY: Byte := 53

  predicate Possible(w: Write, size: nat) {
    w.Took? ==> w.n <= size
  }

  lemma OneLeft(before: seq<Byte>, pkt: seq<Byte>, k: nat)
    requires k <= |pkt|
    ensures Concat([pkt]) == pkt && before + pkt[..k] + pkt[k..] == before + pkt
  {
    assert Concat([pkt]) == pkt + [];
  }

  lemma MoreUnsent(outbuf: seq<seq<Byte>>, index: nat, pkt: seq<Byte>)
    requires index <= |Concat(outbuf)|
    ensures index <= |Concat(outbuf + [pkt])| && Concat(outbuf + [pkt])[index..] == Concat(outbuf)[index..] + pkt
  {
    ConcatLast(outbuf, pkt);
  }

  class Sender {
    var outbuf: seq<seq<Byte>>
    var outpktIndex: nat
    var badConnClose: bool
    var oomClose: bool

    // all that the socket has taken, and all that was to be sent
    ghost var taken: seq<Byte>
    ghost var queued: seq<Byte>

    /** What has not been sent yet. */
    ghost function Unsent(): seq<Byte>
      requires outpktIndex <= |Concat(outbuf)|
      reads this
    {
      Concat(outbuf)[outpktIndex..]
    }

    ghost predicate Valid()
      reads this
    {
      && (outbuf == [] ==> outpktIndex == 0)
      && (outbuf != [] ==> outpktIndex <= |outbuf[0]|)
      && outpktIndex <= |Concat(outbuf)|
      && taken + Unsent() == queued && (oomClose ==> badConnClose)
    }

    constructor ()
      ensures Valid() && taken == [] && queued == []
    {
      outbuf, outpktIndex, badConnClose, oomClose := [], 0, false, false;
      taken, queued := [], [];
    }

    /** What the socket takes of a packet before it has to be queued. */
    ghost function AtOnce(pkt: seq<Byte>, w: Write): seq<Byte>
      requires Possible(w, |pkt|)
      reads this
    {
      if outbuf == [] && w.Took? then pkt[..w.n] else []
    }

    /** What comes of a packet: it is to be sent, or the connection is broken, or there is no memory to queue it. In the
        last case the connection is given up at once if nothing was queued before, and otherwise when that has been
        sent. */
    twostate predicate Handed(pkt: seq<Byte>, w: Write, exhausted: bool, ok: bool)
      requires Possible(w, |pkt|)
      reads this
    {
      var lost := exhausted && !(old(outbuf) == [] && w == Took(|pkt|)) && !(old(outbuf) == [] && w.Broken?);
      && (ok <==> !(old(outbuf) == [] && (w.Broken? || lost)))
      && taken == old(taken) + old(AtOnce(pkt, w)) && taken <= old(queued) + pkt
      && (ok ==> Valid() && queued == old(queued) + (if lost then [] else pkt))
      && (lost ==> badConnClose && oomClose)
      && (!lost ==> badConnClose == old(badConnClose) && oomClose == old(oomClose))
    }

    /** Send a packet held by the caller: whatever is not taken at once is copied. */
    method QueueBytes(pkt: seq<Byte>, w: Write, exhausted: bool) returns (ok: bool)
      requires Valid() && Possible(w, |pkt|)
      modifies this
      ensures Handed(pkt, w, exhausted, ok)
    {
      if outbuf == [] {
        ok := BytesNow(pkt, w, exhausted);
      } else {
        ok := Later(pkt, w, exhausted);
      }
    }

    /** Send a packet that is handed over: it is queued whole, together with how much of it was taken. */
    method QueueVector(pkt: seq<Byte>, w: Write, exhausted: bool) returns (ok: bool)
      requires Valid() && Possible(w, |pkt|)
      modifies this
      ensures Handed(pkt, w, exhausted, ok)
    {
      if outbuf == [] {
        ok := VectorNow(pkt, w, exhausted);
      } else {
        ok := Later(pkt, w, exhausted);
      }
    }

    /** Queue a packet after others. */
    method Later(pkt: seq<Byte>, ghost w: Write, exhausted: bool) returns (ok: bool)
      requires Valid() && Possible(w, |pkt|) && outbuf != []
      modifies this
      ensures Handed(pkt, w, exhausted, ok)
    {
      ok := true;
      if exhausted {
        badConnClose, oomClose := true, true;
        return;
      }
      MoreUnsent(outbuf, outpktIndex, pkt);
      outbuf := outbuf + [pkt];
      queued := queued + pkt;
    }

    /** Write, and copy the rest. */
    method BytesNow(pkt: seq<Byte>, w: Write, exhausted: bool) returns (ok: bool)
      requires Valid() && Possible(w, |pkt|) && outbuf == []
      modifies this
      ensures Handed(pkt, w, exhausted, ok)
    {
      if w.Broken? {
        return false;
      }
      var at := if w.Took? then w.n else 0;
      OneLeft(taken, pkt, at);
      taken := taken + pkt[..at];
      if w == Took(|pkt|) {
        queued := queued + pkt;
        return true;
      }
      if exhausted {
        badConnClose, oomClose := true, true;
        return false;
      }
      OneLeft([], pkt[at..], 0);
      outbuf := [pkt[at..]];
      queued := queued + pkt;
      ok := true;
    }

    /** Write, and queue the whole with how much of it was taken. */
    method VectorNow(pkt: seq<Byte>, w: Write, exhausted: bool) returns (ok: bool)
      requires Valid() && Possible(w, |pkt|) && outbuf == []
      modifies this
      ensures Handed(pkt, w, exhausted, ok)
    {
      outpktIndex := 0;
      if w.Broken? {
        return false;
      }
      var at := if w.Took? then w.n else 0;
      OneLeft(taken, pkt, at);
      taken := taken + pkt[..at];
      if w == Took(|pkt|) {
        queued := queued + pkt;
        return true;
      }
      outpktIndex := at;
      if exhausted {
        badConnClose, oomClose := true, true;
        return false;
      }
      outbuf := [pkt];
      queued := queued + pkt;
      ok := true;
    }

    /** The socket can take more: go on with the first packet. Returns whether the connection is finished. When it is
        given up for want of memory, the last thing to send is one byte that says so. */
    method SendData(w: Write) returns (finished: bool)
      requires Valid() && (outbuf == [] ==> badConnClose)
      requires Possible(w, if outbuf == [] then 1 else |outbuf[0]| - outpktIndex)
      modifies this
      ensures Valid() && old(taken) <= taken && badConnClose == old(badConnClose) && oomClose == old(oomClose)
      ensures old(outbuf) != [] ==> queued == old(queued)
      ensures old(outbuf) != [] && w.Took? ==>
                taken == old(taken) + old(outbuf[0])[old(outpktIndex)..old(outpktIndex) + w.n]
      ensures old(outbuf) != [] && !w.Took? ==>
                taken == old(taken) && outbuf == old(outbuf) && outpktIndex == old(outpktIndex)
      ensures old(outbuf) == [] ==> taken == old(taken) + (if oomClose && w == Took(1) then [OUT_OF_MEMORY] else [])
      ensures finished <==> old(outbuf) == [] || w.Broken? || (outbuf == [] && badConnClose && !oomClose)
      ensures finished && !w.Broken? ==> outbuf == [] && taken == queued
    {
      if outbuf == [] {
        if oomClose && w == Took(1) {
          taken, queued := taken + [OUT_OF_MEMORY], queued + [OUT_OF_MEMORY];
        }
        return true;
      }
      if !w.Took? {
        return w.Broken?;
      }
      var pkt := outbuf[0];
      ghost var rest := Concat(outbuf[1..]);
      ghost var part := pkt[outpktIndex..outpktIndex + w.n];
      assert Concat(outbuf) == pkt + rest;
      assert Unsent() == part + (pkt[outpktIndex + w.n..] + rest);
      taken := taken + part;
      outpktIndex := outpktIndex + w.n;
      if outpktIndex == |pkt| {
        outbuf := outbuf[1..];
        outpktIndex := 0;
        if oomClose {
          return false;
        }
        if outbuf == [] && badConnClose {
          return true;
        }
      }
      finished := false;
    }
  }
}
