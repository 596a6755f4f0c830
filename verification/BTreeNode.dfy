/**
  The arrays inside one B-tree node, and the loops that search and shift them.
 */
module BTreeNode {
  import opened BTreeModel

  /** A septnode as it lies in memory: N values, N handle pointers (null past the last value) and
      N + 1 child pointers, N being 2 * half. */
  datatype Sept = Sept(prio: seq<int>, hn: seq<Ref>, children: seq<Ref>, parent: Ref)

  ghost predicate Sized(n: Sept, half: nat) {
    |n.prio| == 2 * half && |n.hn| == 2 * half && |n.children| == 2 * half + 1
  }

  /** The memory of a node holds `ks`, `hs` and `cs`, and nothing after them. */
  ghost predicate Has(n: Sept, half: nat, ks: seq<int>, hs: seq<Ref>, cs: seq<Ref>) {
    && Sized(n, half)
    && |ks| <= 2 * half && |hs| == |ks| && |cs| == |ks| + 1
    && (forall k :: 0 <= k < |ks| ==> n.prio[k] == ks[k])
    && (forall k :: 0 <= k < |ks| ==> n.hn[k] == hs[k] != Null)
    && (forall k :: 0 <= k <= |ks| ==> n.children[k] == cs[k])
    && (forall k :: |ks| <= k < 2 * half ==> n.hn[k] == Null)
  }

  function Init(n: Sept): (r: Sept)
    ensures |r.prio| == |n.prio| && |r.hn| == |n.hn| && |r.children| == |n.children| && r.parent == Null
    ensures (forall k :: 0 <= k < |r.hn| ==> r.hn[k] == Null)
            && (forall k :: 0 <= k < |r.children| ==> r.children[k] == Null)
  {
    Sept(n.prio, seq(|n.hn|, _ => Null), seq(|n.children|, _ => Null), Null)
  }

  /** Count the values of a node, from the back. */
  method NumVals(n: Sept, half: nat, ghost ks: seq<int>, ghost hs: seq<Ref>, ghost cs: seq<Ref>) returns (c: nat)
    requires Has(n, half, ks, hs, cs)
    ensures c == |ks|
  {
    var i := 2 * half - 1;
    while i >= 0
      invariant |ks| - 1 <= i < 2 * half
    {
      if n.hn[i] != Null {
        return i + 1;
      }
      i := i - 1;
    }
    return 0;
  }

  /** Binary search among the values of a node: either `p` is one of them, or it belongs before
      the value number `j`. The search runs over all N slots and treats an empty one as larger. */
  method FindSlot(n: Sept, half: nat, last: nat, p: int, ghost ks: seq<int>, ghost hs: seq<Ref>, ghost cs: seq<Ref>)
    returns (found: bool, j: nat)
    requires Has(n, half, ks, hs, cs) && Sorted(ks) && |ks| <= last <= 2 * half
    ensures found ==> p in ks
    ensures !found ==> j <= |ks| && (forall k :: 0 <= k < j ==> ks[k] < p) && (forall k :: j <= k < |ks| ==> p < ks[k])
  {
    var min, max := 0, last - 1;
    while min <= max
      invariant 0 <= min <= max + 1 <= last && min <= |ks|
      invariant forall k :: 0 <= k < min ==> ks[k] < p
      invariant forall k :: max < k < |ks| ==> p < ks[k]
      decreases max - min
    {
      var i := (min + max) / 2;
      assert i < |ks| ==> n.prio[i] == ks[i] && n.hn[i] == hs[i];
      if n.hn[i] == Null || p < n.prio[i] {
        max := i - 1;
      } else if n.prio[i] == p {
        return true, i;
      } else {
        min := i + 1;
      }
    }
    return false, max + 1;
  }

  /** `r` is `s` with `x` put in before element number `j`. */
  ghost predicate IsIns<T(!new)>(s: seq<T>, j: nat, x: T, r: seq<T>) {
    && j <= |s| && |r| == |s| + 1 && r[j] == x
    && (forall k :: 0 <= k < j ==> r[k] == s[k])
    && (forall k :: j < k < |r| ==> r[k] == s[k-1])
  }

  ghost predicate AllIns(j: nat, p: int, h: Ref, right: Ref, ks: seq<int>, hs: seq<Ref>, cs: seq<Ref>,
                         kk: seq<int>, hh: seq<Ref>, cc: seq<Ref>) {
    IsIns(ks, j, p, kk) && IsIns(hs, j, h, hh) && IsIns(cs, j + 1, right, cc)
  }

  ghost predicate Slot(ks: seq<int>, j: nat, p: int) {
    j <= |ks| && (forall k :: 0 <= k < j ==> ks[k] < p) && (forall k :: j <= k < |ks| ==> p < ks[k])
  }

  /** Up to `i` the node is as it was, and after that, up to `n`, as it is to be. */
  ghost predicate Raised(half: nat, n: nat, i: nat, prio: seq<int>, hn: seq<Ref>, kids: seq<Ref>,
                         ks: seq<int>, hs: seq<Ref>, cs: seq<Ref>, kk: seq<int>, hh: seq<Ref>, cc: seq<Ref>) {
    && i <= n < 2 * half && |prio| == |hn| == 2 * half && |kids| == 2 * half + 1
    && n <= |ks| == |hs| && |cs| == |kk| == |hh| == |ks| + 1 && |cc| == |ks| + 2
    && (forall k :: 0 <= k < i ==> prio[k] == ks[k])
    && (forall k :: 0 <= k < i ==> hn[k] == hs[k] != Null)
    && (forall k :: 0 <= k <= i ==> kids[k] == cs[k])
    && (forall k :: i < k <= n ==> prio[k] == kk[k])
    && (forall k :: i < k <= n ==> hn[k] == hh[k] != Null)
    && (forall k :: i + 1 < k <= n + 1 ==> kids[k] == cc[k])
    && (forall k :: n < k < 2 * half ==> hn[k] == Null)
  }

  lemma RaiseOne(half: nat, n: nat, i: nat, prio: seq<int>, hn: seq<Ref>, kids: seq<Ref>, j: nat, p: int, h: Ref,
                 right: Ref, ks: seq<int>, hs: seq<Ref>, cs: seq<Ref>, kk: seq<int>, hh: seq<Ref>, cc: seq<Ref>)
    requires Raised(half, n, i, prio, hn, kids, ks, hs, cs, kk, hh, cc) && 0 < i && j < i
    requires AllIns(j, p, h, right, ks, hs, cs, kk, hh, cc)
    ensures Raised(half, n, i - 1, prio[i := prio[i-1]], hn[i := hn[i-1]], kids[i+1 := kids[i]], ks, hs, cs, kk, hh, cc)
  {
  }

  lemma RaiseDone(half: nat, n: nat, prio: seq<int>, hn: seq<Ref>, kids: seq<Ref>, j: nat, p: int, h: Ref, right: Ref,
                  ks: seq<int>, hs: seq<Ref>, cs: seq<Ref>, kk: seq<int>, hh: seq<Ref>, cc: seq<Ref>, parent: Ref)
    requires Raised(half, n, j, prio, hn, kids, ks, hs, cs, kk, hh, cc) && h != Null
    requires AllIns(j, p, h, right, ks, hs, cs, kk, hh, cc)
    ensures Has(Sept(prio[j := p], hn[j := h], kids[j := cs[j]][j+1 := right], parent), half, kk[..n+1], hh[..n+1],
                cc[..n+2])
  {
  }

  /** Insert into a node that has room, shifting the larger values right. */
  method InsertValue(n: Sept, half: nat, count: nat, p: int, h: Ref, left: Ref, right: Ref,
                     ghost j: nat, ghost ks: seq<int>, ghost hs: seq<Ref>, ghost cs: seq<Ref>,
                     ghost kk: seq<int>, ghost hh: seq<Ref>, ghost cc: seq<Ref>)
    returns (r: Sept)
    requires Has(n, half, ks, hs, cs) && count == |ks| < 2 * half && Slot(ks, j, p) && cs[j] == left && h != Null
    requires AllIns(j, p, h, right, ks, hs, cs, kk, hh, cc)
    ensures r.parent == n.parent
    ensures Has(r, half, kk, hh, cc)
  {
    var prio, hn, kids := n.prio, n.hn, n.children;
    var pos := count;
    while pos > 0 && !(prio[pos-1] < p)
      invariant j <= pos <= count && Raised(half, count, pos, prio, hn, kids, ks, hs, cs, kk, hh, cc)
    {
      assert prio[pos-1] == ks[pos-1];
      RaiseOne(half, count, pos, prio, hn, kids, j, p, h, right, ks, hs, cs, kk, hh, cc);
      prio, hn, kids := prio[pos := prio[pos-1]], hn[pos := hn[pos-1]], kids[pos+1 := kids[pos]];
      pos := pos - 1;
    }
    assert pos > 0 ==> prio[pos-1] == ks[pos-1];
    assert pos == j;
    RaiseDone(half, count, prio, hn, kids, j, p, h, right, ks, hs, cs, kk, hh, cc, n.parent);
    r := Sept(prio[pos := p], hn[pos := h], kids[pos := left][pos+1 := right], n.parent);
    assert kk[..count+1] == kk && hh[..count+1] == hh && cc[..count+2] == cc;
  }

  /** Split a full node around its middle while inserting `p`: `n` keeps the lower half, the
      fresh node `m` takes the upper half and the middle value is handed back to go up. */
  method SplitFull(n: Sept, spare: Sept, half: nat, p: int, h: Ref, left: Ref, right: Ref,
                   ghost j: nat, ghost ks: seq<int>, ghost hs: seq<Ref>, ghost cs: seq<Ref>,
                   ghost kk: seq<int>, ghost hh: seq<Ref>, ghost cc: seq<Ref>)
    returns (r: Sept, m: Sept, op: int, oh: Ref)
    requires Has(n, half, ks, hs, cs) && |ks| == 2 * half && half > 0 && Slot(ks, j, p) && cs[j] == left && h != Null
    requires Sized(spare, half) && (forall k :: 0 <= k < 2 * half ==> spare.hn[k] == Null)
    requires AllIns(j, p, h, right, ks, hs, cs, kk, hh, cc)
    ensures r.parent == m.parent == n.parent
    ensures op == kk[half] && oh == hh[half]
    ensures Has(r, half, kk[..half], hh[..half], cc[..half+1])
    ensures Has(m, half, kk[half+1..], hh[half+1..], cc[half+1..])
  {
    r, m := MoveUpperHalf(n, spare, half, ks, hs, cs);
    if p < r.prio[half-1] {
      op, oh := r.prio[half-1], r.hn[half-1];
      m := m.(children := m.children[0 := r.children[half]]);
      UpperAs(m, half, j, p, h, right, ks, hs, cs, kk, hh, cc);
      r := InsertLower(r, half, p, h, left, right, j, ks, hs, cs, kk, hh, cc);
    } else if p < m.prio[0] {
      op, oh := p, h;
      r := r.(children := r.children[half := left]);
      m := m.(children := m.children[0 := right]);
      LowerAs(r, half, j, p, h, right, ks, hs, cs, kk, hh, cc);
      UpperAs(m, half, j, p, h, right, ks, hs, cs, kk, hh, cc);
    } else {
      op, oh := m.prio[0], m.hn[0];
      LowerAs(r, half, j, p, h, right, ks, hs, cs, kk, hh, cc);
      m := InsertUpper(m, half, p, h, left, right, j, ks, hs, cs, kk, hh, cc);
    }
  }

  /** The lower half, if the new value does not belong there. */
  lemma LowerAs(r: Sept, half: nat, j: nat, p: int, h: Ref, right: Ref,
                ks: seq<int>, hs: seq<Ref>, cs: seq<Ref>, kk: seq<int>, hh: seq<Ref>, cc: seq<Ref>)
    requires |ks| == |hs| == 2 * half && |cs| == 2 * half + 1 && Has(r, half, ks[..half], hs[..half], cs[..half+1])
    requires AllIns(j, p, h, right, ks, hs, cs, kk, hh, cc) && half <= j
    ensures Has(r, half, kk[..half], hh[..half], cc[..half+1])
  {
    assert kk[..half] == ks[..half] && hh[..half] == hs[..half] && cc[..half+1] == cs[..half+1];
  }

  /** The upper half, if the new value does not belong there. */
  lemma UpperAs(m: Sept, half: nat, j: nat, p: int, h: Ref, right: Ref,
                ks: seq<int>, hs: seq<Ref>, cs: seq<Ref>, kk: seq<int>, hh: seq<Ref>, cc: seq<Ref>)
    requires |ks| == |hs| == 2 * half && |cs| == 2 * half + 1 && Sized(m, half)
    requires forall k :: 0 <= k < half ==> m.prio[k] == ks[half+k] && m.hn[k] == hs[half+k] != Null
    requires forall k :: 1 <= k <= half ==> m.children[k] == cs[half+k]
    requires forall k :: half <= k < 2 * half ==> m.hn[k] == Null
    requires AllIns(j, p, h, right, ks, hs, cs, kk, hh, cc) && j <= half && m.children[0] == cc[half+1]
    ensures Has(m, half, kk[half+1..], hh[half+1..], cc[half+1..])
  {
    var a, b, c := kk[half+1..], hh[half+1..], cc[half+1..];
    forall k | 0 <= k < half ensures m.prio[k] == a[k] && m.hn[k] == b[k] != Null {
      assert a[k] == kk[half+1+k] == ks[half+k] && b[k] == hh[half+1+k] == hs[half+k];
    }
    forall k | 0 <= k <= half ensures m.children[k] == c[k] {
      assert c[k] == cc[half+1+k];
      assert k > 0 ==> cc[half+1+k] == cs[half+k];
    }
  }

  method MoveUpperHalf(n: Sept, spare: Sept, half: nat, ghost ks: seq<int>, ghost hs: seq<Ref>, ghost cs: seq<Ref>)
    returns (r: Sept, m: Sept)
    requires Has(n, half, ks, hs, cs) && |ks| == 2 * half && half > 0
    requires Sized(spare, half) && (forall k :: 0 <= k < 2 * half ==> spare.hn[k] == Null)
    ensures r.parent == m.parent == n.parent
    ensures Has(r, half, ks[..half], hs[..half], cs[..half+1]) && Sized(m, half)
    ensures forall k :: 0 <= k < half ==> m.prio[k] == ks[half+k] && m.hn[k] == hs[half+k]
    ensures forall k :: 1 <= k <= half ==> m.children[k] == cs[half+k]
    ensures forall k :: half <= k < 2 * half ==> m.hn[k] == Null
  {
    var prio, hn, kids := spare.prio, spare.hn, spare.children;
    var left := n.hn;
    for i := half to 2 * half
      invariant |prio| == |hn| == |left| == 2 * half && |kids| == 2 * half + 1
      invariant forall k :: 0 <= k < half || i <= k < 2 * half ==> left[k] == hs[k]
      invariant forall k :: half <= k < i ==> left[k] == Null
      invariant forall k :: 0 <= k < i - half ==> prio[k] == ks[half+k]
      invariant forall k :: 0 <= k < i - half ==> hn[k] == hs[half+k]
      invariant forall k :: 1 <= k <= i - half ==> kids[k] == cs[half+k]
      invariant forall k :: i - half <= k < 2 * half ==> hn[k] == Null
    {
      prio, hn, kids := prio[i-half := n.prio[i]], hn[i-half := left[i]], kids[i-half+1 := n.children[i+1]];
      left := left[i := Null];
    }
    r, m := n.(hn := left), Sept(prio, hn, kids, n.parent);
  }

  method InsertLower(n: Sept, half: nat, p: int, h: Ref, left: Ref, right: Ref,
                     ghost j: nat, ghost ks: seq<int>, ghost hs: seq<Ref>, ghost cs: seq<Ref>,
                     ghost kk: seq<int>, ghost hh: seq<Ref>, ghost cc: seq<Ref>)
    returns (r: Sept)
    requires half > 0 && |ks| == |hs| == 2 * half && |cs| == 2 * half + 1 && h != Null
    requires Has(n, half, ks[..half], hs[..half], cs[..half+1]) && Slot(ks, j, p) && cs[j] == left && p < ks[half-1]
    requires AllIns(j, p, h, right, ks, hs, cs, kk, hh, cc)
    ensures r.parent == n.parent
    ensures Has(r, half, kk[..half], hh[..half], cc[..half+1])
  {
    var prio, hn, kids := n.prio, n.hn, n.children;
    var i := half - 1;
    while i > 0 && p < prio[i-1]
      invariant j <= i < half && Raised(half, half - 1, i, prio, hn, kids, ks, hs, cs, kk, hh, cc)
    {
      RaiseOne(half, half - 1, i, prio, hn, kids, j, p, h, right, ks, hs, cs, kk, hh, cc);
      prio, hn, kids := prio[i := prio[i-1]], hn[i := hn[i-1]], kids[i+1 := kids[i]];
      i := i - 1;
    }
    assert i == j;
    RaiseDone(half, half - 1, prio, hn, kids, j, p, h, right, ks, hs, cs, kk, hh, cc, n.parent);
    r := Sept(prio[i := p], hn[i := h], kids[i := left][i+1 := right], n.parent);
  }

  method InsertUpper(n: Sept, half: nat, p: int, h: Ref, left: Ref, right: Ref,
                     ghost j: nat, ghost ks: seq<int>, ghost hs: seq<Ref>, ghost cs: seq<Ref>,
                     ghost kk: seq<int>, ghost hh: seq<Ref>, ghost cc: seq<Ref>)
    returns (m: Sept)
    requires half > 0 && |ks| == |hs| == 2 * half && |cs| == 2 * half + 1 && h != Null
    requires Sized(n, half) && Slot(ks, j, p) && cs[j] == left && ks[half] < p
             && (forall k :: 0 <= k < 2 * half ==> hs[k] != Null)
    requires forall k :: 0 <= k < half ==> n.prio[k] == ks[half+k] && n.hn[k] == hs[half+k]
    requires forall k :: 1 <= k <= half ==> n.children[k] == cs[half+k]
    requires forall k :: half <= k < 2 * half ==> n.hn[k] == Null
    requires AllIns(j, p, h, right, ks, hs, cs, kk, hh, cc)
    ensures m.parent == n.parent
    ensures Has(m, half, kk[half+1..], hh[half+1..], cc[half+1..])
  {
    var prio, hn, kids := n.prio, n.hn, n.children;
    var i := 0;
    while i < half - 1 && prio[i+1] < p
      invariant i + half < j && Lowered(half, i, prio, hn, kids, ks, hs, cs, kk, hh, cc)
    {
      LowerOne(half, i, prio, hn, kids, j, p, h, right, ks, hs, cs, kk, hh, cc);
      prio, hn, kids := prio[i := prio[i+1]], hn[i := hn[i+1]], kids[i := kids[i+1]];
      i := i + 1;
    }
    assert i + half + 1 == j;
    LowerDone(half, i, prio, hn, kids, j, p, h, right, ks, hs, cs, kk, hh, cc, n.parent);
    m := Sept(prio[i := p], hn[i := h], kids[i := left][i+1 := right], n.parent);
  }

  /** Before `i` the node is as it is to be, and from there on as it was. */
  ghost predicate Lowered(half: nat, i: nat, prio: seq<int>, hn: seq<Ref>, kids: seq<Ref>,
                          ks: seq<int>, hs: seq<Ref>, cs: seq<Ref>, kk: seq<int>, hh: seq<Ref>, cc: seq<Ref>) {
    && i < half && |prio| == |hn| == 2 * half && |kids| == 2 * half + 1
    && |ks| == |hs| == 2 * half && |cs| == |kk| == |hh| == 2 * half + 1 && |cc| == 2 * half + 2
    && (forall k :: 0 <= k < i ==> prio[k] == kk[half+1+k])
    && (forall k :: 0 <= k < i ==> hn[k] == hh[half+1+k] != Null)
    && (forall k :: 0 <= k < i ==> kids[k] == cc[half+1+k])
    && (forall k :: i <= k < half ==> prio[k] == ks[half+k])
    && (forall k :: i <= k < half ==> hn[k] == hs[half+k] != Null)
    && (forall k :: i < k <= half ==> kids[k] == cs[half+k])
    && (forall k :: half <= k < 2 * half ==> hn[k] == Null)
  }

  lemma LowerDone(half: nat, i: nat, prio: seq<int>, hn: seq<Ref>, kids: seq<Ref>, j: nat, p: int, h: Ref, right: Ref,
                  ks: seq<int>, hs: seq<Ref>, cs: seq<Ref>, kk: seq<int>, hh: seq<Ref>, cc: seq<Ref>, parent: Ref)
    requires Lowered(half, i, prio, hn, kids, ks, hs, cs, kk, hh, cc) && i + half + 1 == j && h != Null
    requires AllIns(j, p, h, right, ks, hs, cs, kk, hh, cc)
    ensures Has(Sept(prio[i := p], hn[i := h], kids[i := cs[j]][i+1 := right], parent),
                half, kk[half+1..], hh[half+1..], cc[half+1..])
  {
    var m := Sept(prio[i := p], hn[i := h], kids[i := cs[j]][i+1 := right], parent);
    var a, b, c := kk[half+1..], hh[half+1..], cc[half+1..];
    forall k | 0 <= k < half ensures m.prio[k] == a[k] && m.hn[k] == b[k] != Null {
      assert a[k] == kk[half+1+k] && b[k] == hh[half+1+k];
    }
    forall k | 0 <= k <= half ensures m.children[k] == c[k] {
      assert c[k] == cc[half+1+k];
    }
  }

  lemma LowerOne(half: nat, i: nat, prio: seq<int>, hn: seq<Ref>, kids: seq<Ref>, j: nat, p: int, h: Ref, right: Ref,
                 ks: seq<int>, hs: seq<Ref>, cs: seq<Ref>, kk: seq<int>, hh: seq<Ref>, cc: seq<Ref>)
    requires Lowered(half, i, prio, hn, kids, ks, hs, cs, kk, hh, cc) && i + 1 < half && i + 1 + half < j
    requires AllIns(j, p, h, right, ks, hs, cs, kk, hh, cc)
    ensures Lowered(half, i + 1, prio[i := prio[i+1]], hn[i := hn[i+1]], kids[i := kids[i+1]], ks, hs, cs, kk, hh, cc)
  {
    var prio', hn', kids' := prio[i := prio[i+1]], hn[i := hn[i+1]], kids[i := kids[i+1]];
    forall k | 0 <= k < i + 1
      ensures prio'[k] == kk[half+1+k] && hn'[k] == hh[half+1+k] != Null && kids'[k] == cc[half+1+k]
    {
      if k < i {
        assert prio[k] == kk[half+1+k] && hn[k] == hh[half+1+k] && kids[k] == cc[half+1+k];
      } else {
        assert prio[i+1] == ks[half+(i+1)] && hn[i+1] == hs[half+(i+1)] && kids[i+1] == cs[half+(i+1)];
      }
    }
  }

  /** Remove value number `at` from a leaf, shifting the later ones left until the first empty slot;
      returns how many are left. */
  method DeleteValue(n: Sept, half: nat, at: nat, ghost ks: seq<int>, ghost hs: seq<Ref>, ghost cs: seq<Ref>)
    returns (r: Sept, count: nat)
    requires Has(n, half, ks, hs, cs) && at < |ks|
    ensures r.parent == n.parent && count == |ks| - 1
    ensures Has(r, half, Del(ks, at), Del(hs, at), cs[..|ks|])
  {
    var prio, hn := n.prio, n.hn;
    var i := at;
    while i < 2 * half - 1
      invariant at <= i < |ks| && Shifted(n, half, at, i, prio, hn)
    {
      prio, hn := prio[i := prio[i+1]], hn[i := hn[i+1]];
      if hn[i] == Null {
        break;
      }
      i := i + 1;
    }
    r := n.(prio := prio, hn := hn[2 * half - 1 := Null]);
    count := i;
    ShiftDone(n, half, at, r, ks, hs, cs);
  }

  /** From `at` to `i` the values have moved left by one. */
  ghost predicate Shifted(n: Sept, half: nat, at: nat, i: nat, prio: seq<int>, hn: seq<Ref>) {
    && |prio| == |hn| == |n.prio| == |n.hn| == 2 * half && at <= i < 2 * half
    && (forall k :: 0 <= k < at || i <= k < 2 * half ==> prio[k] == n.prio[k])
    && (forall k :: 0 <= k < at || i <= k < 2 * half ==> hn[k] == n.hn[k])
    && (forall k :: at <= k < i ==> prio[k] == n.prio[k+1])
    && (forall k :: at <= k < i ==> hn[k] == n.hn[k+1])
  }

  lemma ShiftDone(n: Sept, half: nat, at: nat, r: Sept, ks: seq<int>, hs: seq<Ref>, cs: seq<Ref>)
    requires Has(n, half, ks, hs, cs) && at < |ks| && r == n.(prio := r.prio, hn := r.hn)
             && |r.prio| == |r.hn| == 2 * half
    requires forall k :: 0 <= k < |ks| - 1 ==> r.prio[k] == n.prio[if k < at then k else k + 1]
    requires forall k :: 0 <= k < |ks| - 1 ==> r.hn[k] == n.hn[if k < at then k else k + 1]
    requires forall k :: |ks| - 1 <= k < 2 * half ==> r.hn[k] == Null
    ensures Has(r, half, Del(ks, at), Del(hs, at), cs[..|ks|])
  {
  }

  /** Append `p`/`h` and then everything `m` holds to `n`. */
  method AppendAll(n: Sept, m: Sept, half: nat, count: nat, p: int, h: Ref,
                   ghost ks: seq<int>, ghost hs: seq<Ref>, ghost cs: seq<Ref>,
                   ghost mks: seq<int>, ghost mhs: seq<Ref>, ghost mcs: seq<Ref>)
    returns (r: Sept)
    requires Has(n, half, ks, hs, cs) && count == |ks| && Has(m, half, mks, mhs, mcs) && |ks| + 1 + |mks| <= 2 * half
             && h != Null
    ensures r.parent == n.parent
    ensures Has(r, half, ks + [p] + mks, hs + [h] + mhs, cs + mcs)
  {
    var prio, hn, kids := n.prio[count := p], n.hn[count := h], n.children;
    var ri := 0;
    while m.hn[ri] != Null
      invariant 0 <= ri <= |mks| && |prio| == |hn| == 2 * half && |kids| == 2 * half + 1
      invariant forall k :: 0 <= k < count + 1 + ri ==> prio[k] == (ks + [p] + mks)[k]
      invariant forall k :: 0 <= k < count + 1 + ri ==> hn[k] == (hs + [h] + mhs)[k]
      invariant forall k :: 0 <= k < count + 1 + ri ==> kids[k] == (cs + mcs)[k]
      invariant forall k :: count + 1 + ri <= k < 2 * half ==> hn[k] == Null
      decreases |mks| - ri
    {
      var at := count + 1 + ri;
      prio, hn, kids := prio[at := m.prio[ri]], hn[at := m.hn[ri]], kids[at := m.children[ri]];
      ri := ri + 1;
    }
    r := Sept(prio, hn, kids[count + 1 + ri := m.children[ri]], n.parent);
  }

  /** Remove value number `at` together with the kid after it. */
  method DeleteWithKid(n: Sept, half: nat, at: nat, ghost ks: seq<int>, ghost hs: seq<Ref>, ghost cs: seq<Ref>)
    returns (r: Sept)
    requires Has(n, half, ks, hs, cs) && at < |ks|
    ensures r.parent == n.parent
    ensures Has(r, half, Del(ks, at), Del(hs, at), Del(cs, at + 1))
  {
    var prio, hn, kids := n.prio, n.hn, n.children;
    for i := at to 2 * half - 1
      invariant |prio| == |hn| == 2 * half && |kids| == 2 * half + 1
      invariant forall k :: 0 <= k < at || i <= k < 2 * half ==> prio[k] == n.prio[k] && hn[k] == n.hn[k]
      invariant forall k :: 0 <= k <= at || i < k <= 2 * half ==> kids[k] == n.children[k]
      invariant forall k :: at <= k < i ==> prio[k] == n.prio[k+1]
      invariant forall k :: at <= k < i ==> hn[k] == n.hn[k+1]
      invariant forall k :: at < k <= i ==> kids[k] == n.children[k+1]
    {
      prio, hn, kids := prio[i := prio[i+1]], hn[i := hn[i+1]], kids[i+1 := kids[i+2]];
    }
    r := Sept(prio, hn[2 * half - 1 := Null], kids, n.parent);
  }

  /** Remove the first value and the first kid. */
  method DropFirst(n: Sept, half: nat, ghost ks: seq<int>, ghost hs: seq<Ref>, ghost cs: seq<Ref>) returns (r: Sept)
    requires Has(n, half, ks, hs, cs) && |ks| > 0
    ensures r.parent == n.parent && Has(r, half, ks[1..], hs[1..], cs[1..])
  {
    var prio, hn, kids := n.prio, n.hn, n.children;
    for i := 1 to 2 * half
      invariant |prio| == |hn| == 2 * half && |kids| == 2 * half + 1
      invariant forall k :: 0 <= k < i - 1 ==> prio[k] == n.prio[k+1]
      invariant forall k :: 0 <= k < i - 1 ==> hn[k] == n.hn[k+1]
      invariant forall k :: 0 <= k < i - 1 ==> kids[k] == n.children[k+1]
      invariant forall k :: i - 1 <= k < 2 * half ==> prio[k] == n.prio[k] && hn[k] == n.hn[k]
      invariant forall k :: i - 1 <= k <= 2 * half ==> kids[k] == n.children[k]
    {
      prio, hn, kids := prio[i-1 := prio[i]], hn[i-1 := hn[i]], kids[i-1 := kids[i]];
    }
    r := Sept(prio, hn[2 * half - 1 := Null], kids[2 * half - 1 := kids[2 * half]], n.parent);
  }

  /** Insert a value and a kid in front of all others. */
  method Prepend(n: Sept, half: nat, count: nat, p: int, h: Ref, kid: Ref,
                 ghost ks: seq<int>, ghost hs: seq<Ref>, ghost cs: seq<Ref>) returns (r: Sept)
    requires Has(n, half, ks, hs, cs) && count == |ks| < 2 * half && h != Null
    ensures r.parent == n.parent && Has(r, half, [p] + ks, [h] + hs, [kid] + cs)
  {
    var prio, hn, kids := n.prio, n.hn, n.children[count + 1 := n.children[count]];
    for i := count downto 0
      invariant |prio| == |hn| == 2 * half && |kids| == 2 * half + 1
      invariant forall k :: 0 <= k <= i ==> kids[k] == cs[k]
      invariant forall k :: 0 <= k < i ==> prio[k] == ks[k] && hn[k] == hs[k]
      invariant forall k :: i < k <= count ==> prio[k] == ks[k-1]
      invariant forall k :: i < k <= count ==> hn[k] == hs[k-1]
      invariant forall k :: i < k <= count + 1 ==> kids[k] == cs[k-1]
      invariant forall k :: count < k < 2 * half ==> hn[k] == Null
    {
      prio, hn, kids := prio[i+1 := prio[i]], hn[i+1 := hn[i]], kids[i+1 := kids[i]];
    }
    r := Sept(prio[0 := p], hn[0 := h], kids[0 := kid], n.parent);
  }

  /** Append one value and one kid. */
  function AppendOne(n: Sept, half: nat, count: nat, p: int, h: Ref, kid: Ref): (r: Sept)
    requires Sized(n, half) && count < 2 * half && h != Null
    ensures r.parent == n.parent
    ensures forall ks, hs, cs :: Has(n, half, ks, hs, cs) && |ks| == count ==>
              Has(r, half, ks + [p], hs + [h], cs + [kid])
  {
    n.(hn := n.hn[count := h], prio := n.prio[count := p], children := n.children[count + 1 := kid])
  }

  /** Replace value number `at`. */
  function ReplaceAt(n: Sept, half: nat, at: nat, p: int, h: Ref): (r: Sept)
    requires Sized(n, half) && at < 2 * half && h != Null
    ensures r.parent == n.parent
    ensures forall ks, hs, cs :: Has(n, half, ks, hs, cs) && at < |ks| ==> Has(r, half, ks[at := p], hs[at := h], cs)
  {
    n.(hn := n.hn[at := h], prio := n.prio[at := p])
  }

  /** Clear the last value. */
  function DropLast(n: Sept, half: nat, count: nat): (r: Sept)
    requires Sized(n, half) && 0 < count <= 2 * half
    ensures r.parent == n.parent
    ensures forall ks, hs, cs :: Has(n, half, ks, hs, cs) && |ks| == count ==>
              Has(r, half, ks[..count-1], hs[..count-1], cs[..count])
  {
    n.(hn := n.hn[count - 1 := Null])
  }

  /** Move the first value of `nr` to the end of `nl`, by way of value number 0 of their parent `np`. */
  method LendFirst(nl: Sept, np: Sept, nr: Sept, half: nat, count: nat,
                   ghost ks: seq<int>, ghost hs: seq<Ref>, ghost cs: seq<Ref>, ghost pks: seq<int>, ghost phs: seq<Ref>,
                   ghost pcs: seq<Ref>, ghost rks: seq<int>, ghost rhs: seq<Ref>, ghost rcs: seq<Ref>)
    returns (a: Sept, b: Sept, d: Sept)
    requires Has(nl, half, ks, hs, cs) && count == |ks| < 2 * half && Has(np, half, pks, phs, pcs) && |pks| > 0
    requires Has(nr, half, rks, rhs, rcs) && |rks| > 0
    ensures a.parent == nl.parent && Has(a, half, ks + [pks[0]], hs + [phs[0]], cs + [rcs[0]])
    ensures b.parent == np.parent && Has(b, half, pks[0 := rks[0]], phs[0 := rhs[0]], pcs)
    ensures d.parent == nr.parent && Has(d, half, rks[1..], rhs[1..], rcs[1..])
  {
    a := AppendOne(nl, half, count, np.prio[0], np.hn[0], nr.children[0]);
    b := ReplaceAt(np, half, 0, nr.prio[0], nr.hn[0]);
    d := DropFirst(nr, half, rks, rhs, rcs);
  }

  /** Move the last value of `nl` to the front of `nr`, by way of value number `i` of their parent `np`. */
  method LendLast(nl: Sept, np: Sept, nr: Sept, half: nat, i: nat, lcount: nat, count: nat,
                  ghost ks: seq<int>, ghost hs: seq<Ref>, ghost cs: seq<Ref>, ghost pks: seq<int>, ghost phs: seq<Ref>,
                  ghost pcs: seq<Ref>, ghost rks: seq<int>, ghost rhs: seq<Ref>, ghost rcs: seq<Ref>)
    returns (a: Sept, b: Sept, d: Sept)
    requires Has(nl, half, ks, hs, cs) && lcount == |ks| > 0 && Has(np, half, pks, phs, pcs) && i < |pks|
    requires Has(nr, half, rks, rhs, rcs) && count == |rks| < 2 * half
    ensures a.parent == nl.parent && Has(a, half, ks[..lcount-1], hs[..lcount-1], cs[..lcount])
    ensures b.parent == np.parent && Has(b, half, pks[i := ks[lcount-1]], phs[i := hs[lcount-1]], pcs)
    ensures d.parent == nr.parent && Has(d, half, [pks[i]] + rks, [phs[i]] + rhs, [cs[lcount]] + rcs)
  {
    d := Prepend(nr, half, count, np.prio[i], np.hn[i], nl.children[lcount], rks, rhs, rcs);
    b := ReplaceAt(np, half, i, nl.prio[lcount-1], nl.hn[lcount-1]);
    a := DropLast(nl, half, lcount);
  }
}
