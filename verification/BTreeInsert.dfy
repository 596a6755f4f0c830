/**
  One round of an insertion: a full node is split, and its middle value is to go into the parent.
 */
module BTreeInsert {
  import opened BTreeModel
  import opened BTreeNode
  import opened BTreeOccupancy
  import opened BTreeMemory

  /** `p`/`h` is on its way into node `s`, between the kids `left` and `right`; the set will then
      hold `final`, for which `alloced` slots suffice. */
  ghost predicate Placing(t: Tree, half: nat, s: Ref, j: nat, p: int, h: Ref, left: Ref, right: Ref,
                          final: map<int, Ref>, alloced: int) {
    && Struct(t, right) && Pending(t, s, j, p, h, right) && NodeOK(t, s) && t.nodes[s].kids[j] == left
    && Filled(t, half, s) && |t.nodes[s].keys| <= 2 * half && (s != t.root ==> |t.nodes[s].keys| >= half)
    && final == t.contents[p := h] && |final| <= alloced
  }

  /** The split can go ahead: there is a spare node, and a second one if the root is to be split. */
  lemma ReadyToSplit(t: Tree, half: nat, s: Ref, j: nat, p: int, h: Ref, left: Ref, right: Ref,
                     final: map<int, Ref>, alloced: int, needed: int, septs: int)
    requires Placing(t, half, s, j, p, h, left, right, final, alloced) && |t.nodes[s].keys| == 2 * half
    requires alloced < 1 + needed * half && needed <= septs
    ensures var t1 := InsertAt(t, s, j, p, h, right);
            && Struct(t1, Null) && Filled(t1, half, s) && NodeOK(t1, s) && t1.contents == final
            && |t.nodes| + (if s == t.root then 1 else 0) < septs
  {
    var t1 := InsertAt(t, s, j, p, h, right);
    InsertAtStruct(t, s, j, p, h, right);
    FilledInsert(t, half, s, j, p, h, right);
    SpareForSplit(t1, half, s, alloced, needed, septs);
    assert t1.nodes.Keys == t.nodes.Keys;
    assert |t1.nodes| == |t1.nodes.Keys| == |t.nodes.Keys| == |t.nodes|;
    assert NodeOK(t1, s);
  }

  ghost function NewLinks(hpar: map<Ref, Ref>, s: Ref, r: Ref, h: Ref, lower: bool, upper: seq<Ref>): map<Ref, Ref> {
    SetLinks(if lower then hpar[h := s] else hpar, upper, r)
  }

  lemma LinksAfterSplit(t: Tree, half: nat, s: Ref, j: nat, p: int, h: Ref, right: Ref, r: Ref)
    requires s in t.nodes && NodeOK(t, s) && |t.nodes[s].keys| == 2 * half && Pending(t, s, j, p, h, right)
    requires NodeOK(InsertAt(t, s, j, p, h, right), s) && Injective(InsertAt(t, s, j, p, h, right).contents)
    ensures var t1 := InsertAt(t, s, j, p, h, right);
            SplitLinks(t1, s, half, r, NewLinks(t.hpar, s, r, h, p < t1.nodes[s].keys[half], t1.nodes[s].hs[half+1..]))
  {
    var t1 := InsertAt(t, s, j, p, h, right);
    var v := t1.nodes[s];
    DistinctHandles(t1, s);
    forall k | 0 <= k < |v.hs| ensures v.hs[k] in t.hpar && (k != j ==> t.hpar[v.hs[k]] == s) {
      assert KeyOK(t1, s, k);
    }
    assert j < half <==> p < v.keys[half] by { assert v.keys[j] == p; }
    assert v.hs[j] == h;
    UpperHandles(v.hs, half);
    LinksCases(t1, half, s, j, h, r, t.hpar);
  }

  lemma LinksCases(t1: Tree, half: nat, s: Ref, j: nat, h: Ref, r: Ref, hpar: map<Ref, Ref>)
    requires s in t1.nodes && |t1.nodes[s].keys| == |t1.nodes[s].hs| == 2 * half + 1 && j <= 2 * half
             && t1.nodes[s].hs[j] == h
    requires h in hpar && t1.hpar == hpar[h := s]
    requires var hs := t1.nodes[s].hs;
             && (forall k :: 0 <= k < |hs| ==> hs[k] in hpar && (k != j ==> hpar[hs[k]] == s))
             && (forall k :: 0 <= k < |hs| ==> (hs[k] in hs[half+1..] <==> k > half))
    ensures SplitLinks(t1, s, half, r, NewLinks(hpar, s, r, h, j < half, t1.nodes[s].hs[half+1..]))
  {
    var hs := t1.nodes[s].hs;
    var upper := hs[half+1..];
    var hp := NewLinks(hpar, s, r, h, j < half, upper);
    forall x | x in upper ensures x in hpar && t1.hpar[x] == s {
      var i :| 0 <= i < |upper| && upper[i] == x;
      assert hs[half+1+i] == x;
    }
    forall k | 0 <= k < half && hs[k] in hp ensures hp[hs[k]] == s { assert hs[k] !in upper; }
    forall k | half < k < |hs| && hs[k] in hp ensures hp[hs[k]] == r { assert hs[k] in upper; }
  }

  lemma DistinctHandles(t: Tree, s: Ref)
    requires s in t.nodes && NodeOK(t, s) && Injective(t.contents)
    ensures forall a, b :: 0 <= a < b < |t.nodes[s].hs| ==> t.nodes[s].hs[a] != t.nodes[s].hs[b]
  {
    var v := t.nodes[s];
    forall a, b | 0 <= a < b < |v.hs| ensures v.hs[a] != v.hs[b] { assert KeyOK(t, s, a) && KeyOK(t, s, b); }
  }

  lemma UpperHandles(hs: seq<Ref>, half: nat)
    requires half < |hs| && forall a, b :: 0 <= a < b < |hs| ==> hs[a] != hs[b]
    ensures forall k :: 0 <= k < |hs| ==> (hs[k] in hs[half+1..] <==> k > half)
  {
    forall k | half < k < |hs| ensures hs[k] in hs[half+1..] { assert hs[half+1..][k-half-1] == hs[k]; }
  }

  ghost predicate Overfull(t: Tree, half: nat, s: Ref, final: map<int, Ref>, alloced: int) {
    && half >= 1 && Struct(t, Null) && Filled(t, half, s) && s in t.nodes && NodeOK(t, s)
    && |t.nodes[s].keys| == 2 * half + 1
    && t.contents == final && |final| <= alloced
  }

  lemma MiddleOut(t: Tree, half: nat, s: Ref, r: Ref, hp: map<Ref, Ref>)
    requires CanSplit(t, s, half, r, hp)
    ensures SplitAt(t, s, half, r, hp).contents[t.nodes[s].keys[half] := t.nodes[s].hs[half]] == t.contents
  {
    assert KeyOK(t, s, half);
  }

  /** Splitting a node below the root leaves its middle value to be placed in the parent. */
  lemma SplitPlaced(t: Tree, half: nat, s: Ref, r: Ref, hp: map<Ref, Ref>, final: map<int, Ref>, alloced: int)
    returns (k: nat)
    requires Overfull(t, half, s, final, alloced) && CanSplit(t, s, half, r, hp) && s != t.root
    ensures var t2, q := SplitAt(t, s, half, r, hp), t.nodes[s].parent;
            && Placing(t2, half, q, k, t.nodes[s].keys[half], t.nodes[s].hs[half], s, r, final, alloced)
            && t2.nodes[q].level == t.nodes[s].level + 1
            && t.root in t.nodes && t2.nodes[t.root].level == t.nodes[t.root].level
  {
    var t2, q := SplitAt(t, s, half, r, hp), t.nodes[s].parent;
    assert UpOK(t, s);
    k :| 0 <= k < |t.nodes[q].kids| && t.nodes[q].kids[k] == s;
    assert NodeOK(t, q);
    SplitAtStruct(t, s, half, r, hp);
    SplitAtPending(t, s, half, r, hp, q, k);
    FilledSplit(t, half, s, r, hp, q);
    MiddleOut(t, half, s, r, hp);
    assert NodeOK(t2, q);
    ParentOf(t, q, s);
    assert NodeFilled(t, half, q);
  }

  /** Splitting the root leaves its middle value to be placed in a new, still empty root. */
  lemma RootPlaced(t: Tree, half: nat, s: Ref, r: Ref, hp: map<Ref, Ref>, q: Ref, final: map<int, Ref>, alloced: int)
    requires Overfull(t, half, s, final, alloced) && CanSplit(t, s, half, r, hp) && s == t.root
    requires q !in t.nodes && q != r && q != Null
    ensures var mid, midh := t.nodes[s].keys[half], t.nodes[s].hs[half];
            Placing(GrowRoot(SplitAt(t, s, half, r, hp), mid, r, q), half, q, 0, mid, midh, s, r, final, alloced)
  {
    var mid, midh := t.nodes[s].keys[half], t.nodes[s].hs[half];
    var t2 := SplitAt(t, s, half, r, hp);
    SplitAtStruct(t, s, half, r, hp);
    SplitAtRoot(t, s, half, r, hp);
    FilledSplit(t, half, s, r, hp, q);
    MiddleOut(t, half, s, r, hp);
    var t3 := GrowRoot(t2, mid, r, q);
    GrowRootStruct(t2, mid, midh, r, q);
    FilledGrow(t2, half, mid, r, q);
    assert NodeOK(t3, q);
  }

  /** The first level of an insertion: the value goes into the leaf the search ended in. */
  lemma LeafPlaced(t: Tree, half: nat, path: seq<Ref>, at: seq<nat>, p: int, h: Ref, j: nat, alloced: int)
    requires Struct(t, Null) && Route(t, path, at, p) && t.nodes[path[|path|-1]].level == 0
    requires Slot(t.nodes[path[|path|-1]].keys, j, p) && p !in t.contents
    requires h != Null && h in t.hpar && (forall x :: x in t.contents ==> t.contents[x] != h)
    requires Filled(t, half, path[|path|-1]) && |t.contents| < alloced
    requires |t.nodes[path[|path|-1]].keys| <= 2 * half
    requires path[|path|-1] != t.root ==> |t.nodes[path[|path|-1]].keys| >= half
    ensures Placing(Admit(t, path, p), half, path[|path|-1], j, p, h, Null, Null, t.contents[p := h], alloced)
  {
    var t' := Admit(t, path, p);
    var leaf := path[|path|-1];
    AdmitStruct(t, path, at, p);
    assert NodeOK(t, leaf) && NodeOK(t', leaf);
    assert Filled(t', half, leaf) by {
      forall id | id in t'.nodes && id != leaf ensures NodeFilled(t', half, id) { assert NodeFilled(t, half, id); }
    }
    assert |t.contents[p := h]| == |t.contents| + 1;
  }

  /** The last level: the value goes into a node that has room for it. */
  lemma Placed(t: Tree, half: nat, s: Ref, j: nat, p: int, h: Ref, left: Ref, right: Ref, final: map<int, Ref>,
               alloced: int)
    requires Placing(t, half, s, j, p, h, left, right, final, alloced) && |t.nodes[s].keys| < 2 * half
    ensures var t' := InsertAt(t, s, j, p, h, right);
            Struct(t', Null) && Filled(t', half, Null) && t'.contents == final
  {
    var t' := InsertAt(t, s, j, p, h, right);
    InsertAtStruct(t, s, j, p, h, right);
    FilledInsert(t, half, s, j, p, h, right);
    assert Filled(t', half, Null) by {
      forall id | id in t'.nodes ensures NodeFilled(t', half, id) { assert id != s ==> NodeFilled(t', half, id); }
    }
  }

  /** Tree and memory after a split, taken together; `t1` is the tree with the value already in `s`. */
  lemma SplitDone(nodes: map<Ref, Sept>, reserve: Ref, free: seq<Ref>, half: nat, t: Tree, t1: Tree,
                  s: Ref, j: nat, p: int, h: Ref, right: Ref, r: Ref, lower: Sept, upper: Sept, hp: map<Ref, Ref>)
    requires half >= 1 && s in t.nodes && NodeOK(t, s) && Pending(t, s, j, p, h, right) && |t.nodes[s].keys| == 2 * half
    requires t1 == InsertAt(t, s, j, p, h, right) && NodeOK(t1, s) && Injective(t1.contents) && Null !in t.nodes
    requires HalvesWritten(half, t1.nodes[s], lower, upper)
    requires hp == NewLinks(t.hpar, s, r, h, p < t1.nodes[s].keys[half], t1.nodes[s].hs[half+1..])
    requires Null !in nodes && Holds(nodes, half, t) && FreeList(nodes, half, reserve, free)
    requires r != Null && r !in t.nodes && (forall x :: x in free ==> x !in t.nodes && x != r)
    ensures CanSplit(t1, s, half, r, hp) && |SplitAt(t1, s, half, r, hp).nodes| == |t.nodes| + 1
    ensures Mem(SetParents(nodes[s := lower][r := upper], upper.children[..half+1], r), hp, reserve, free, half,
                SplitAt(t1, s, half, r, hp))
  {
    LinksAfterSplit(t, half, s, j, p, h, right, r);
    MemSplit(nodes, reserve, free, half, t, t1, s, r, lower, upper, hp);
    assert |t1.nodes| == |t.nodes| by { assert t1.nodes.Keys == t.nodes.Keys; }
    SplitCard(t1, s, half, r);
  }

  // ---------------------------------------------------------------- the same in memory

  /** Take a node from the reserve and clear it. */
  method TakeSpare(half: nat, nodes: map<Ref, Sept>, reserve: Ref, ghost free: seq<Ref>)
    returns (r: Ref, nodes': map<Ref, Sept>, reserve': Ref)
    requires FreeList(nodes, half, reserve, free) && |free| > 0
    ensures r == free[0] && r in nodes && r != Null && nodes' == nodes[r := Init(nodes[r])] && Sized(nodes[r], half)
    ensures FreeList(nodes, half, reserve', free[1..]) && r !in free[1..]
  {
    FreePop(nodes, nodes, half, reserve, free);
    r := reserve;
    reserve' := nodes[r].parent;
    nodes' := nodes[r := Init(nodes[r])];
  }

  /** Write the two halves of the full node `s`, with `p` put in its place, to `s` and to the spare
      node `r`. */
  method WriteHalves(half: nat, nodes: map<Ref, Sept>, s: Ref, r: Ref, p: int, h: Ref, left: Ref, right: Ref,
                     ghost j: nat, ghost ks: seq<int>, ghost hs: seq<Ref>, ghost cs: seq<Ref>,
                     ghost kk: seq<int>, ghost hh: seq<Ref>, ghost cc: seq<Ref>)
    returns (nodes': map<Ref, Sept>, op: int, oh: Ref, upperHs: seq<Ref>, ghost lower: Sept, ghost upper: Sept)
    requires half >= 1 && Null !in nodes && s in nodes && r in nodes && Has(nodes[s], half, ks, hs, cs)
             && |ks| == 2 * half
    requires Sized(nodes[r], half) && (forall k :: 0 <= k < 2 * half ==> nodes[r].hn[k] == Null)
    requires Slot(ks, j, p) && cs[j] == left && h != Null && (right != Null ==> right in nodes)
    requires forall k :: 0 <= k < |cs| && cs[k] != Null ==> cs[k] in nodes
    requires AllIns(j, p, h, right, ks, hs, cs, kk, hh, cc)
    ensures |upper.children| == 2 * half + 1 && lower.parent == upper.parent == nodes[s].parent
    ensures nodes' == SetParents(nodes[s := lower][r := upper], upper.children[..half+1], r)
    ensures op == kk[half] && oh == hh[half] && upperHs == hh[half+1..]
    ensures Has(lower, half, kk[..half], hh[..half], cc[..half+1])
    ensures Has(upper, half, kk[half+1..], hh[half+1..], cc[half+1..])
  {
    var a, b;
    a, b, op, oh := SplitFull(nodes[s], nodes[r], half, p, h, left, right, j, ks, hs, cs, kk, hh, cc);
    lower, upper := a, b;
    assert b.children[..half+1] == cc[half+1..];
    nodes' := Reparent(nodes[s := a][r := b], b.children[..half+1], r);
    upperHs := b.hn[..half];
    assert upperHs == hh[half+1..];
  }

  method SplitMemory(half: nat, nodes: map<Ref, Sept>, hpar: map<Ref, Ref>, reserve: Ref, ghost free: seq<Ref>,
                     s: Ref, p: int, h: Ref, left: Ref, right: Ref,
                     ghost j: nat, ghost ks: seq<int>, ghost hs: seq<Ref>, ghost cs: seq<Ref>,
                     ghost kk: seq<int>, ghost hh: seq<Ref>, ghost cc: seq<Ref>)
    returns (nodes': map<Ref, Sept>, hpar': map<Ref, Ref>, reserve': Ref, r: Ref, op: int, oh: Ref, ghost lower: Sept,
             ghost upper: Sept)
    requires half >= 1 && Null !in nodes && FreeList(nodes, half, reserve, free) && |free| > 0
    requires s in nodes && s !in free && Has(nodes[s], half, ks, hs, cs) && |ks| == 2 * half
    requires Slot(ks, j, p) && cs[j] == left && h != Null && h in hpar && (right != Null ==> right in nodes)
    requires forall k :: 0 <= k < |hs| ==> hs[k] in hpar
    requires forall k :: 0 <= k < |cs| && cs[k] != Null ==> cs[k] in nodes
    requires AllIns(j, p, h, right, ks, hs, cs, kk, hh, cc)
    ensures r == free[0] && r != Null && FreeList(nodes, half, reserve', free[1..]) && r !in free[1..]
    ensures |upper.children| == 2 * half + 1 && lower.parent == upper.parent == nodes[s].parent
    ensures nodes' == SetParents(nodes[s := lower][r := upper], upper.children[..half+1], r)
    ensures op == kk[half] && oh == hh[half] && hpar' == NewLinks(hpar, s, r, h, p < op, hh[half+1..])
    ensures Has(lower, half, kk[..half], hh[..half], cc[..half+1])
    ensures Has(upper, half, kk[half+1..], hh[half+1..], cc[half+1..])
  {
    r, nodes', reserve' := TakeSpare(half, nodes, reserve, free);
    var us;
    nodes', op, oh, us, lower, upper := WriteHalves(half, nodes', s, r, p, h, left, right, j, ks, hs, cs, kk, hh, cc);
    assert nodes[r := Init(nodes[r])][s := lower][r := upper] == nodes[s := lower][r := upper];
    hpar' := if p < op then hpar[h := s] else hpar;
    hpar' := Relink(hpar', us, r);
  }

  /** Split the full node `s`, with `p` put in its place: `s` keeps the lower half, the spare node `r`
      takes the upper half, and the middle value is left out. */
  method SplitNode(half: nat, nodes: map<Ref, Sept>, hpar: map<Ref, Ref>, reserve: Ref, ghost free: seq<Ref>,
                   ghost t: Tree, ghost t1: Tree, s: Ref, ghost j: nat, p: int, h: Ref, left: Ref, right: Ref)
    returns (nodes': map<Ref, Sept>, hpar': map<Ref, Ref>, reserve': Ref, r: Ref, op: int, oh: Ref)
    requires half >= 1 && Mem(nodes, hpar, reserve, free, half, t) && |free| > 0
    requires s in t.nodes && NodeOK(t, s) && Pending(t, s, j, p, h, right) && |t.nodes[s].keys| == 2 * half
    requires t.nodes[s].kids[j] == left && Null !in t.nodes
    requires t1 == InsertAt(t, s, j, p, h, right) && NodeOK(t1, s) && Injective(t1.contents)
    ensures CanSplit(t1, s, half, r, hpar') && op == t1.nodes[s].keys[half] && oh == t1.nodes[s].hs[half]
    ensures r == free[0] && Mem(nodes', hpar', reserve', free[1..], half, SplitAt(t1, s, half, r, hpar'))
    ensures |SplitAt(t1, s, half, r, hpar').nodes| == |t.nodes| + 1
  {
    ghost var v, w := t.nodes[s], t1.nodes[s];
    KidsInMemory(nodes, half, t, s);
    assert right != Null ==> HoldsAt(nodes, half, t, right);
    ghost var lo, hi;
    nodes', hpar', reserve', r, op, oh, lo, hi :=
      SplitMemory(half, nodes, hpar, reserve, free, s, p, h, left, right, j, v.keys, v.hs, v.kids, w.keys, w.hs,
                  w.kids);
    SplitDone(nodes, reserve', free[1..], half, t, t1, s, j, p, h, right, r, lo, hi, hpar');
  }

  /** Put a fresh root above the two halves of the old one. */
  method GrowMemory(half: nat, nodes: map<Ref, Sept>, hpar: map<Ref, Ref>, reserve: Ref, ghost free: seq<Ref>,
                    ghost t: Tree, ghost key: int, s: Ref, r: Ref)
    returns (nodes': map<Ref, Sept>, reserve': Ref, q: Ref)
    requires half >= 1 && Mem(nodes, hpar, reserve, free, half, t) && |free| > 0
    requires s == t.root && s in t.nodes && r in t.nodes && s != r
    ensures q == free[0] && q !in t.nodes && q != Null
            && Mem(nodes', hpar, reserve', free[1..], half, GrowRoot(t, key, r, q))
    ensures |GrowRoot(t, key, r, q).nodes| == |t.nodes| + 1
  {
    assert HoldsAt(nodes, half, t, s) && HoldsAt(nodes, half, t, r);
    q, nodes', reserve' := TakeSpare(half, nodes, reserve, free);
    var top := nodes'[q].(children := nodes'[q].children[0 := s]);
    nodes' := nodes'[q := top][s := nodes'[s].(parent := q)][r := nodes'[r].(parent := q)];
    HoldsGrown(half, nodes, nodes', t, key, r, q);
    FreeFrame(nodes, nodes', half, reserve', free[1..]);
    GrowCard(t, key, r, q);
  }

  lemma HoldsGrown(half: nat, nodes: map<Ref, Sept>, nodes': map<Ref, Sept>, t: Tree, key: int, r: Ref, q: Ref)
    requires half >= 1 && Holds(nodes, half, t) && t.root in t.nodes && r in t.nodes && q !in t.nodes && t.root != r
    requires nodes'.Keys >= nodes.Keys + {q} && Has(nodes'[q], half, [], [], [t.root]) && nodes'[q].parent == Null
    requires forall id :: id in t.nodes && id in nodes ==>
               nodes'[id] == if id == t.root || id == r then nodes[id].(parent := q) else nodes[id]
    ensures Holds(nodes', half, GrowRoot(t, key, r, q))
  {
    var t' := GrowRoot(t, key, r, q);
    forall id | id in t'.nodes ensures HoldsAt(nodes', half, t', id) {
      assert id != q ==> HoldsAt(nodes, half, t, id);
    }
  }

  lemma GrowCard(t: Tree, key: int, r: Ref, q: Ref)
    requires t.root in t.nodes && r in t.nodes && q !in t.nodes
    ensures |GrowRoot(t, key, r, q).nodes| == |t.nodes| + 1
  {
    assert GrowRoot(t, key, r, q).nodes.Keys == t.nodes.Keys + {q};
  }

  /** One round of the loop that carries a value towards the root: split the full node `s` and leave
      the middle value to be placed one level up. */
  method SplitUp(half: nat, nodes: map<Ref, Sept>, hpar: map<Ref, Ref>, root: Ref, reserve: Ref, ghost free: seq<Ref>,
                 ghost t: Tree, s: Ref, ghost j: nat, p: int, h: Ref, left: Ref, right: Ref, ghost final: map<int, Ref>,
                 ghost alloced: int, ghost needed: int, ghost septs: int)
    returns (nodes': map<Ref, Sept>, hpar': map<Ref, Ref>, root': Ref, reserve': Ref, ghost free': seq<Ref>,
             ghost t': Tree, up: Ref, ghost k: nat, op: int, oh: Ref, r: Ref)
    requires half >= 1 && Mem(nodes, hpar, reserve, free, half, t) && t.root == root && |free| + |t.nodes| == septs
    requires Placing(t, half, s, j, p, h, left, right, final, alloced) && |t.nodes[s].keys| == 2 * half
    requires alloced < 1 + needed * half && needed <= septs
    ensures Mem(nodes', hpar', reserve', free', half, t') && t'.root == root' && |free'| + |t'.nodes| == septs
    ensures Placing(t', half, up, k, op, oh, s, r, final, alloced)
    ensures || (up == root' && |t'.nodes[up].keys| == 0)
            || (root' == root && t'.nodes[up].level == t.nodes[s].level + 1
                && t'.nodes[root].level == t.nodes[root].level)
  {
    ghost var t1 := InsertAt(t, s, j, p, h, right);
    ReadyToSplit(t, half, s, j, p, h, left, right, final, alloced, needed, septs);
    nodes', hpar', reserve', r, op, oh := SplitNode(half, nodes, hpar, reserve, free, t, t1, s, j, p, h, left, right);
    free', t' := free[1..], SplitAt(t1, s, half, r, hpar');
    root' := root;
    assert HoldsAt(nodes', half, t', s);
    assert UpOK(t1, s);
    if nodes'[s].parent == Null {
      ghost var q := free'[0];
      RootPlaced(t1, half, s, r, hpar', q, final, alloced);
      nodes', reserve', up := GrowMemory(half, nodes', hpar', reserve', free', t', op, s, r);
      free', t' := free'[1..], GrowRoot(t', op, r, up);
      root' := up;
      k := 0;
    } else {
      up := nodes'[s].parent;
      k := SplitPlaced(t1, half, s, r, hpar', final, alloced);
    }
  }

  lemma MemInsert(half: nat, nodes: map<Ref, Sept>, hpar: map<Ref, Ref>, reserve: Ref, free: seq<Ref>, t: Tree,
                  s: Ref, j: nat, p: int, h: Ref, right: Ref, n: Sept)
    requires Mem(nodes, hpar, reserve, free, half, t) && s in t.nodes && NodeOK(t, s) && j <= |t.nodes[s].keys|
    requires s in nodes && Shows(n, half, InsertAt(t, s, j, p, h, right).nodes[s])
    ensures Mem(nodes[s := n], hpar[h := s], reserve, free, half, InsertAt(t, s, j, p, h, right))
  {
    var t' := InsertAt(t, s, j, p, h, right);
    forall id | id in t'.nodes ensures HoldsAt(nodes[s := n], half, t', id) {
      assert id != s ==> HoldsAt(nodes, half, t, id);
    }
    FreeFrame(nodes, nodes[s := n], half, reserve, free);
  }

  lemma MemAdmit(half: nat, nodes: map<Ref, Sept>, hpar: map<Ref, Ref>, reserve: Ref, free: seq<Ref>, t: Tree,
                 path: seq<Ref>, p: int)
    requires Mem(nodes, hpar, reserve, free, half, t)
    ensures Mem(nodes, hpar, reserve, free, half, Admit(t, path, p))
    ensures |Admit(t, path, p).nodes| == |t.nodes|
  {
    var t' := Admit(t, path, p);
    forall id | id in t'.nodes ensures HoldsAt(nodes, half, t', id) { assert HoldsAt(nodes, half, t, id); }
    assert t'.nodes.Keys == t.nodes.Keys;
  }

  /** Put `p`/`h` into node `s`, which has room for it. */
  method Finish(half: nat, nodes: map<Ref, Sept>, hpar: map<Ref, Ref>, ghost reserve: Ref, ghost free: seq<Ref>,
                ghost t: Tree, s: Ref, count: nat, ghost j: nat, p: int, h: Ref, left: Ref, right: Ref,
                ghost final: map<int, Ref>, ghost alloced: int)
    returns (nodes': map<Ref, Sept>, hpar': map<Ref, Ref>, ghost t': Tree)
    requires half >= 1 && Mem(nodes, hpar, reserve, free, half, t)
    requires Placing(t, half, s, j, p, h, left, right, final, alloced) && HoldsAt(nodes, half, t, s)
             && count == |t.nodes[s].keys| < 2 * half
    ensures Mem(nodes', hpar', reserve, free, half, t') && t'.root == t.root && |t'.nodes| == |t.nodes|
    ensures Struct(t', Null) && Filled(t', half, Null) && t'.contents == final
  {
    t' := InsertAt(t, s, j, p, h, right);
    ghost var v, w := t.nodes[s], t'.nodes[s];
    Placed(t, half, s, j, p, h, left, right, final, alloced);
    var n := InsertValue(nodes[s], half, count, p, h, left, right, j, v.keys, v.hs, v.kids, w.keys, w.hs, w.kids);
    MemInsert(half, nodes, hpar, reserve, free, t, s, j, p, h, right, n);
    nodes', hpar' := nodes[s := n], hpar[h := s];
    assert t'.nodes.Keys == t.nodes.Keys;
  }

  /** Put `p`/`h` into the leaf `leaf`, splitting full nodes on the way up. Spare nodes never run
      out, and the result is a filled tree with exactly one more value. */
  method Place(half: nat, nodes: map<Ref, Sept>, hpar: map<Ref, Ref>, root: Ref, reserve: Ref, ghost free: seq<Ref>,
               ghost t: Tree, leaf: Ref, ghost at: nat, p: int, h: Ref, ghost final: map<int, Ref>,
               ghost alloced: int, ghost needed: int, ghost septs: int)
    returns (nodes': map<Ref, Sept>, hpar': map<Ref, Ref>, root': Ref, reserve': Ref, ghost free': seq<Ref>,
             ghost t': Tree)
    requires half >= 1 && Mem(nodes, hpar, reserve, free, half, t) && t.root == root && |free| + |t.nodes| == septs
    requires Placing(t, half, leaf, at, p, h, Null, Null, final, alloced)
    requires alloced < 1 + needed * half && needed <= septs
    ensures Mem(nodes', hpar', reserve', free', half, t') && t'.root == root' && |free'| + |t'.nodes| == septs
    ensures Struct(t', Null) && Filled(t', half, Null) && t'.contents == final
  {
    nodes', hpar', root', reserve', free', t' := nodes, hpar, root, reserve, free, t;
    var s, pv, hv, left, right := leaf, p, h, Null, Null;
    ghost var j := at;
    assert HoldsAt(nodes', half, t', s);
    var count := NumVals(nodes'[s], half, t'.nodes[s].keys, t'.nodes[s].hs, t'.nodes[s].kids);
    while count == 2 * half
      invariant Mem(nodes', hpar', reserve', free', half, t') && t'.root == root' && |free'| + |t'.nodes| == septs
      invariant Placing(t', half, s, j, pv, hv, left, right, final, alloced) && count == |t'.nodes[s].keys|
      invariant HoldsAt(nodes', half, t', s)
      decreases if count == 2 * half then t'.nodes[root'].level - t'.nodes[s].level + 1 else 0
    {
      var up, r;
      nodes', hpar', root', reserve', free', t', up, j, pv, hv, r :=
        SplitUp(half, nodes', hpar', root', reserve', free', t', s, j, pv, hv, left, right, final, alloced, needed,
                septs);
      s, left, right := up, s, r;
      assert HoldsAt(nodes', half, t', s);
      count := NumVals(nodes'[s], half, t'.nodes[s].keys, t'.nodes[s].hs, t'.nodes[s].kids);
    }
    nodes', hpar', t' :=
      Finish(half, nodes', hpar', reserve', free', t', s, count, j, pv, hv, left, right, final, alloced);
  }

  /** Go down from the root to where `p` is, or to the leaf and the place in it where `p` belongs. */
  method Search(half: nat, nodes: map<Ref, Sept>, root: Ref, ghost t: Tree, p: int)
    returns (found: bool, leaf: Ref, j: nat, ghost path: seq<Ref>, ghost at: seq<nat>)
    requires half >= 1 && Holds(nodes, half, t) && Struct(t, Null) && t.root == root != Null
    ensures found <==> p in t.contents
    ensures !found ==>
              Route(t, path, at, p) && leaf == path[|path|-1] && t.nodes[leaf].level == 0
              && Slot(t.nodes[leaf].keys, j, p)
  {
    leaf := root;
    path, at := [root], [];
    NotMissedAtRoot(t, p);
    LeafTest(t, nodes, half, leaf);
    while nodes[leaf].children[0] != Null
      invariant Route(t, path, at, p) && leaf == path[|path|-1] && NotMissed(t, leaf, p)
      invariant HoldsAt(nodes, half, t, leaf) && NodeOK(t, leaf)
      invariant nodes[leaf].children[0] == Null <==> t.nodes[leaf].level == 0
      decreases t.nodes[leaf].level
    {
      ghost var v := t.nodes[leaf];
      found, j := FindSlot(nodes[leaf], half, 2 * half, p, v.keys, v.hs, v.kids);
      if found {
        KeyInContents(t, leaf, p);
        return;
      }
      NotMissedBelow(t, leaf, j, p);
      RouteExtend(t, path, at, p, j, v.kids[j]);
      leaf := nodes[leaf].children[j];
      path, at := path + [leaf], at + [j];
      LeafTest(t, nodes, half, leaf);
    }
    ghost var v := t.nodes[leaf];
    var count := NumVals(nodes[leaf], half, v.keys, v.hs, v.kids);
    found, j := FindSlot(nodes[leaf], half, count, p, v.keys, v.hs, v.kids);
    NotMissedInLeaf(t, leaf, p);
    if found {
      KeyInContents(t, leaf, p);
    }
  }

  ghost function Seedling(t: Tree, r: Ref): Tree {
    t.(nodes := map[r := View([], [], [Null], Null, 0, {})], root := r)
  }

  /** Start a tree with an empty leaf as its root. */
  method StartTree(half: nat, nodes: map<Ref, Sept>, reserve: Ref, ghost free: seq<Ref>, ghost t: Tree)
    returns (r: Ref, nodes': map<Ref, Sept>, reserve': Ref)
    requires half >= 1 && Mem(nodes, t.hpar, reserve, free, half, t) && |free| > 0 && Struct(t, Null) && t.root == Null
    ensures r != Null && Struct(Seedling(t, r), Null)
    ensures Mem(nodes', t.hpar, reserve', free[1..], half, Seedling(t, r))
  {
    NothingStored(t);
    r, nodes', reserve' := TakeSpare(half, nodes, reserve, free);
    ghost var t' := Seedling(t, r);
    assert NodeOK(t', r) && UpOK(t', r) && HoldsAt(nodes', half, t', r);
    FreeFrame(nodes, nodes', half, reserve', free[1..]);
  }

  ghost predicate RoomInLeaf(t: Tree, half: nat, leaf: Ref) {
    && leaf in t.nodes && Filled(t, half, leaf) && |t.nodes[leaf].keys| <= 2 * half
    && (leaf != t.root ==> |t.nodes[leaf].keys| >= half)
  }

  lemma FilledLeaf(t: Tree, half: nat, leaf: Ref)
    requires Filled(t, half, Null) && leaf in t.nodes && Null !in t.nodes
    ensures RoomInLeaf(t, half, leaf)
  {
    assert NodeFilled(t, half, leaf);
  }

  /** Insert the handle `h` with value `p`, unless the value is present already. */
  method InsertHandle(half: nat, nodes: map<Ref, Sept>, hpar: map<Ref, Ref>, root: Ref, reserve: Ref,
                      ghost free: seq<Ref>, ghost t: Tree, h: Ref, p: int, ghost alloced: int, ghost needed: int,
                      ghost septs: int)
    returns (inserted: bool, nodes': map<Ref, Sept>, hpar': map<Ref, Ref>, root': Ref, reserve': Ref,
             ghost free': seq<Ref>, ghost t': Tree)
    requires half >= 1 && Mem(nodes, hpar, reserve, free, half, t) && t.root == root && |free| + |t.nodes| == septs
    requires Struct(t, Null) && Filled(t, half, Null)
    requires |t.contents| < alloced < 1 + needed * half && needed <= septs && (root == Null ==> |free| > 0)
    requires h != Null && h in hpar && forall x :: x in t.contents ==> t.contents[x] != h
    ensures Mem(nodes', hpar', reserve', free', half, t') && t'.root == root' && |free'| + |t'.nodes| == septs
    ensures Struct(t', Null) && Filled(t', half, Null)
    ensures inserted <==> p !in t.contents
    ensures t'.contents == if inserted then t.contents[p := h] else t.contents
  {
    nodes', hpar', root', reserve', free', t' := nodes, hpar, root, reserve, free, t;
    if root == Null {
      NothingStored(t);
      root', nodes', reserve' := StartTree(half, nodes, reserve, free, t);
      free', t' := free[1..], Seedling(t, root');
    }
    var found, leaf, j;
    ghost var path, at;
    found, leaf, j, path, at := Search(half, nodes', root', t', p);
    if found {
      return false, nodes', hpar', root', reserve', free', t';
    }
    if root != Null { FilledLeaf(t, half, leaf); }
    LeafPlaced(t', half, path, at, p, h, j, alloced);
    MemAdmit(half, nodes', hpar', reserve', free', t', path, p);
    t' := Admit(t', path, p);
    nodes', hpar', root', reserve', free', t' :=
      Place(half, nodes', hpar', root', reserve', free', t', leaf, j, p, h, t.contents[p := h], alloced, needed, septs);
    inserted := true;
  }
}
