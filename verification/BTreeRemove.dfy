/**
  Taking a value out of the tree: the leaf that loses a value borrows one from a sibling or merges
  with it, and merging may leave the parent short in turn.
 */
module BTreeRemove {
  import opened BTreeModel
  import opened BTreeNode
  import opened BTreeOccupancy
  import opened BTreeMemory

  /** The tree is in order but for `s`, which may be one value short. */
  ghost predicate Short(t: Tree, half: nat, s: Ref, final: map<int, Ref>) {
    && half >= 2 && Struct(t, Null) && s in t.nodes && NodeOK(t, s) && Filled(t, half, s)
    && |t.nodes[s].keys| <= 2 * half
    && |t.nodes[s].keys| + 1 >= (if s == t.root then (if t.nodes[s].level > 0 then 2 else 0) else half)
    && t.contents == final
  }

  ghost predicate Done(t: Tree, half: nat, final: map<int, Ref>) {
    Struct(t, Null) && Filled(t, half, Null) && t.contents == final
  }

  // ---------------------------------------------------------------- moving a value between siblings

  /** Kids `i` and `i + 1` of `p` seen as one node. */
  ghost function Joined(t: Tree, p: Ref, i: nat): View
    requires p in t.nodes && i < |t.nodes[p].keys| == |t.nodes[p].hs| && |t.nodes[p].kids| == |t.nodes[p].keys| + 1
    requires t.nodes[p].kids[i] in t.nodes && t.nodes[p].kids[i+1] in t.nodes
             && t.nodes[p].kids[i] != t.nodes[p].kids[i+1]
  {
    var v, lv, rv := t.nodes[p], t.nodes[t.nodes[p].kids[i]], t.nodes[t.nodes[p].kids[i+1]];
    View(lv.keys + [v.keys[i]] + rv.keys, lv.hs + [v.hs[i]] + rv.hs, lv.kids + rv.kids, p, lv.level,
         lv.rng + {v.keys[i]} + rv.rng)
  }

  ghost predicate CanShare(t: Tree, p: Ref, i: nat, pos: nat) {
    && Struct(t, Null) && p in t.nodes && NodeOK(t, p) && t.nodes[p].level > 0 && i < |t.nodes[p].keys|
    && KidOK(t, p, i) && KidOK(t, p, i + 1)
    && NodeOK(t, t.nodes[p].kids[i]) && NodeOK(t, t.nodes[p].kids[i+1])
    && t.nodes[p].kids[i] != t.nodes[p].kids[i+1]
    && pos < |t.nodes[t.nodes[p].kids[i]].keys| + 1 + |t.nodes[t.nodes[p].kids[i+1]].keys|
  }

  /** Redistribute the values of two neighbouring kids so that the left one keeps the first `pos`. */
  ghost function Share(t: Tree, p: Ref, i: nat, pos: nat, hp: map<Ref, Ref>): Tree
    requires CanShare(t, p, i, pos)
  {
    var l, r := t.nodes[p].kids[i], t.nodes[p].kids[i+1];
    var w := Joined(t, p, i);
    var t1 := MergeAt(t, p, i, SetLinks(t.hpar, [t.nodes[p].hs[i]] + t.nodes[r].hs, l));
    var t2 := SplitAt(t1, l, pos, r, hp);
    InsertAt(t2, p, i, w.keys[pos], w.hs[pos], r)
  }

  /** The handle links after sharing, the middle entry aside. */
  ghost predicate ShareLinks(t: Tree, p: Ref, i: nat, pos: nat, hp: map<Ref, Ref>)
    requires CanShare(t, p, i, pos)
  {
    var w := Joined(t, p, i);
    && (forall h :: h in t.hpar ==> h in hp)
    && (forall h :: h in t.hpar && h !in w.hs ==> hp[h] == t.hpar[h])
    && (forall k :: 0 <= k < pos && w.hs[k] in hp ==> hp[w.hs[k]] == t.nodes[p].kids[i])
    && (forall k :: pos < k < |w.hs| && w.hs[k] in hp ==> hp[w.hs[k]] == t.nodes[p].kids[i+1])
  }

  lemma HandleAt(t: Tree, id: Ref, h: Ref)
    requires id in t.nodes && NodeOK(t, id) && h in t.nodes[id].hs
    ensures h in t.hpar && t.hpar[h] == id
  {
    var k :| 0 <= k < |t.nodes[id].hs| && t.nodes[id].hs[k] == h;
    assert KeyOK(t, id, k);
  }

  lemma MergeLinksHold(t: Tree, p: Ref, i: nat, hp: map<Ref, Ref>)
    requires p in t.nodes && NodeOK(t, p) && i < |t.nodes[p].keys|
    requires t.nodes[p].kids[i] in t.nodes && t.nodes[p].kids[i+1] in t.nodes && NodeOK(t, t.nodes[p].kids[i+1])
    requires hp == SetLinks(t.hpar, [t.nodes[p].hs[i]] + t.nodes[t.nodes[p].kids[i+1]].hs, t.nodes[p].kids[i])
    ensures MergeLinks(t, p, i, hp)
  {
    var v := t.nodes[p];
    var r := v.kids[i+1];
    var moved := [v.hs[i]] + t.nodes[r].hs;
    assert moved[0] == v.hs[i];
    forall k | 0 <= k < |t.nodes[r].hs| ensures t.nodes[r].hs[k] in moved { assert moved[k+1] == t.nodes[r].hs[k]; }
    forall h | h in moved && h != v.hs[i] ensures h in t.hpar && t.hpar[h] == r {
      HandleAt(t, r, h);
    }
  }

  lemma ShareSplitLinks(t: Tree, p: Ref, i: nat, pos: nat, hp: map<Ref, Ref>)
    requires CanShare(t, p, i, pos) && ShareLinks(t, p, i, pos, hp)
    ensures var l, r := t.nodes[p].kids[i], t.nodes[p].kids[i+1];
            var t1 := MergeAt(t, p, i, SetLinks(t.hpar, [t.nodes[p].hs[i]] + t.nodes[r].hs, l));
            SplitLinks(t1, l, pos, r, hp)
  {
    var l, r := t.nodes[p].kids[i], t.nodes[p].kids[i+1];
    var w := Joined(t, p, i);
    var moved := [t.nodes[p].hs[i]] + t.nodes[r].hs;
    var hp1 := SetLinks(t.hpar, moved, l);
    forall h | h in t.hpar && hp1[h] != l ensures h !in w.hs {
      if h in t.nodes[l].hs { HandleAt(t, l, h); }
    }
  }

  ghost function Merged(t: Tree, p: Ref, i: nat): Tree
    requires p in t.nodes && i < |t.nodes[p].keys| == |t.nodes[p].hs| && |t.nodes[p].kids| == |t.nodes[p].keys| + 1
    requires t.nodes[p].kids[i] in t.nodes && t.nodes[p].kids[i+1] in t.nodes
  {
    var l, r := t.nodes[p].kids[i], t.nodes[p].kids[i+1];
    MergeAt(t, p, i, SetLinks(t.hpar, [t.nodes[p].hs[i]] + t.nodes[r].hs, l))
  }

  lemma MergedStruct(t: Tree, p: Ref, i: nat, pos: nat)
    requires CanShare(t, p, i, pos)
    ensures var t1, l := Merged(t, p, i), t.nodes[p].kids[i];
            && Struct(t1, Null) && l in t1.nodes && t1.nodes[l] == Joined(t, p, i) && NodeOK(t1, l)
            && p in t1.nodes && NodeOK(t1, p) && t1.nodes[p].level > 0
            && i < |t1.nodes[p].kids| && t1.nodes[p].kids[i] == l && t1.contents == t.contents
  {
    var l, r := t.nodes[p].kids[i], t.nodes[p].kids[i+1];
    var hp1 := SetLinks(t.hpar, [t.nodes[p].hs[i]] + t.nodes[r].hs, l);
    MergeLinksHold(t, p, i, hp1);
    var t1 := MergeAt(t, p, i, hp1);
    MergeAtStruct(t, p, i, hp1);
    assert NodeOK(t1, l) && NodeOK(t1, p);
  }

  /** Splitting a node and handing its middle entry straight back to the parent. */
  lemma SplitBack(t: Tree, l: Ref, pos: nat, r: Ref, hp: map<Ref, Ref>, p: Ref, i: nat)
    requires Struct(t, Null) && CanSplit(t, l, pos, r, hp) && p in t.nodes && NodeOK(t, p) && t.nodes[p].level > 0
    requires i < |t.nodes[p].kids| && t.nodes[p].kids[i] == l
    ensures p != l && p != r
            && |SplitNodes(t, l, pos, r)[p].hs| == |SplitNodes(t, l, pos, r)[p].keys| == |t.nodes[p].keys|
    ensures |SplitNodes(t, l, pos, r)[p].kids| == |t.nodes[p].kids|
    ensures var t3 := InsertAt(SplitAt(t, l, pos, r, hp), p, i, t.nodes[l].keys[pos], t.nodes[l].hs[pos], r);
            Struct(t3, Null) && t3.contents == t.contents
  {
    ParentOf(t, p, l);
    var t2 := SplitAt(t, l, pos, r, hp);
    SplitAtStruct(t, l, pos, r, hp);
    SplitAtPending(t, l, pos, r, hp, p, i);
    assert NodeOK(t2, p);
    InsertAtStruct(t2, p, i, t.nodes[l].keys[pos], t.nodes[l].hs[pos], r);
    assert KeyOK(t, l, pos);
  }

  /** Sharing keeps the structure and the contents. */
  lemma ShareStruct(t: Tree, p: Ref, i: nat, pos: nat, hp: map<Ref, Ref>)
    requires CanShare(t, p, i, pos) && ShareLinks(t, p, i, pos, hp)
    ensures Struct(Share(t, p, i, pos, hp), Null) && Share(t, p, i, pos, hp).contents == t.contents
  {
    var l, r := t.nodes[p].kids[i], t.nodes[p].kids[i+1];
    MergedStruct(t, p, i, pos);
    ShareSplitLinks(t, p, i, pos, hp);
    SplitBack(Merged(t, p, i), l, pos, r, hp, p, i);
  }

  ghost predicate ShareView(t: Tree, p: Ref, i: nat, pos: nat, t3: Tree)
    requires CanShare(t, p, i, pos)
  {
    var l, r, w := t.nodes[p].kids[i], t.nodes[p].kids[i+1], Joined(t, p, i);
    && t3.nodes.Keys == t.nodes.Keys
    && (var v := t3.nodes[p]; v.keys == t.nodes[p].keys[i := w.keys[pos]] && v.hs == t.nodes[p].hs[i := w.hs[pos]]
                              && v.kids == t.nodes[p].kids && v.parent == t.nodes[p].parent
                              && v.level == t.nodes[p].level)
    && (var v := t3.nodes[l];
        v.keys == w.keys[..pos] && v.hs == w.hs[..pos] && v.kids == w.kids[..pos+1] && v.parent == p)
    && (var v := t3.nodes[r];
        v.keys == w.keys[pos+1..] && v.hs == w.hs[pos+1..] && v.kids == w.kids[pos+1..] && v.parent == p)
    && (forall id :: id in t.nodes && id != p && id != l && id != r ==>
          t3.nodes[id] == if w.level > 0 && id in w.kids[pos+1..] then t.nodes[id].(parent := r)
                          else if w.level > 0 && id in t.nodes[r].kids then t.nodes[id].(parent := l)
                          else t.nodes[id])
  }

  lemma InsDel<T>(s: seq<T>, i: nat, x: T)
    requires i < |s|
    ensures Ins(Del(s, i), i, x) == s[i := x]
  {
  }

  /** The parent is not among the kids of its kids. */
  lemma ParentApart(t: Tree, p: Ref, i: nat, pos: nat)
    requires CanShare(t, p, i, pos)
    ensures p !in Joined(t, p, i).kids && p != t.nodes[p].kids[i] && p != t.nodes[p].kids[i+1]
    ensures t.nodes[p].kids[i] !in Joined(t, p, i).kids && t.nodes[p].kids[i+1] !in Joined(t, p, i).kids
  {
    var l, w := t.nodes[p].kids[i], Joined(t, p, i);
    MergedStruct(t, p, i, pos);
    var t1 := Merged(t, p, i);
    ParentOf(t1, p, l);
    if w.level > 0 && p in w.kids { ParentOf(t1, l, p); }
    if w.level > 0 && l in w.kids { ParentOf(t1, l, l); }
    if w.level > 0 && t.nodes[p].kids[i+1] in w.kids { ParentOf(t1, l, t.nodes[p].kids[i+1]); }
    assert w.level == 0 ==> forall k :: 0 <= k < |w.kids| ==> w.kids[k] == Null;
  }

  lemma ShareNodes(t: Tree, p: Ref, i: nat, pos: nat, hp: map<Ref, Ref>)
    requires CanShare(t, p, i, pos)
    ensures ShareView(t, p, i, pos, Share(t, p, i, pos, hp))
    ensures Share(t, p, i, pos, hp).root == t.root
    ensures Share(t, p, i, pos, hp).hpar == hp[Joined(t, p, i).hs[pos] := p]
  {
    var w := Joined(t, p, i);
    ParentApart(t, p, i, pos);
    InsDel(t.nodes[p].keys, i, w.keys[pos]);
    InsDel(t.nodes[p].hs, i, w.hs[pos]);
    InsDel(t.nodes[p].kids, i + 1, t.nodes[p].kids[i+1]);
  }

  ghost predicate OthersKept(nodes: map<Ref, Sept>, nodes': map<Ref, Sept>, t: Tree, t3: Tree, p: Ref, l: Ref, r: Ref)
    requires t3.nodes.Keys == t.nodes.Keys && nodes'.Keys == nodes.Keys
  {
    forall id :: id in nodes && id != p && id != l && id != r ==>
                   nodes'[id] == if id in t.nodes then nodes[id].(parent := t3.nodes[id].parent) else nodes[id]
  }

  /** Memory after sharing: the three nodes rewritten, every other node as it was but for a kid that
      changed parents. */
  lemma ShareMem(half: nat, nodes: map<Ref, Sept>, nodes': map<Ref, Sept>, hpar: map<Ref, Ref>, reserve: Ref,
                 free: seq<Ref>, t: Tree, p: Ref, i: nat, pos: nat, hp: map<Ref, Ref>, t3: Tree)
    requires Mem(nodes, hpar, reserve, free, half, t) && CanShare(t, p, i, pos) && ShareView(t, p, i, pos, t3)
    requires nodes'.Keys == nodes.Keys && t3.hpar == hp
    requires var l, r := t.nodes[p].kids[i], t.nodes[p].kids[i+1];
             && p in nodes && Shows(nodes'[p], half, t3.nodes[p])
             && l in nodes && Shows(nodes'[l], half, t3.nodes[l])
             && r in nodes && Shows(nodes'[r], half, t3.nodes[r])
             && OthersKept(nodes, nodes', t, t3, p, l, r)
    ensures Mem(nodes', hp, reserve, free, half, t3) && |t3.nodes| == |t.nodes|
  {
    var l, r := t.nodes[p].kids[i], t.nodes[p].kids[i+1];
    forall id | id in t3.nodes ensures HoldsAt(nodes', half, t3, id) {
      if id != p && id != l && id != r {
        assert HoldsAt(nodes, half, t, id);
      }
    }
    FreeFrame(nodes, nodes', half, reserve, free);
    assert |t3.nodes.Keys| == |t.nodes.Keys|;
  }

  /** When one value moves, at most one kid changes parents. */
  lemma MovedKid(t: Tree, p: Ref, i: nat, pos: nat, t3: Tree, id: Ref)
    requires CanShare(t, p, i, pos) && ShareView(t, p, i, pos, t3)
    requires id in t.nodes && id != p && id != t.nodes[p].kids[i] && id != t.nodes[p].kids[i+1]
    ensures pos == |t.nodes[t.nodes[p].kids[i]].keys| + 1 ==>
              t3.nodes[id].parent == if id == t.nodes[t.nodes[p].kids[i+1]].kids[0] then t.nodes[p].kids[i]
              else t.nodes[id].parent
    ensures pos == |t.nodes[t.nodes[p].kids[i]].keys| - 1 ==>
              t3.nodes[id].parent == if id == t.nodes[t.nodes[p].kids[i]].kids[pos+1] then t.nodes[p].kids[i+1]
              else t.nodes[id].parent
  {
    var l, r, w := t.nodes[p].kids[i], t.nodes[p].kids[i+1], Joined(t, p, i);
    var lk, rk := t.nodes[l].kids, t.nodes[r].kids;
    assert w.kids == lk + rk;
    if w.level > 0 {
      MergeDistinct(t, l, r);
      if id in rk { ParentOf(t, r, id); }
      if id in lk { ParentOf(t, l, id); }
      assert pos == |t.nodes[l].keys| + 1 ==> w.kids[pos+1..] == rk[1..];
      assert pos == |t.nodes[l].keys| - 1 ==> w.kids[pos+1..] == [lk[pos+1]] + rk;
    }
  }

  // ---------------------------------------------------------------- borrowing

  lemma JoinedRight(t: Tree, p: Ref, i: nat, pos: nat)
    requires CanShare(t, p, i, pos) && pos == |t.nodes[t.nodes[p].kids[i]].keys| + 1
    ensures var v, lv, rv, w := t.nodes[p], t.nodes[t.nodes[p].kids[i]], t.nodes[t.nodes[p].kids[i+1]], Joined(t, p, i);
            && w.keys[..pos] == lv.keys + [v.keys[i]] && w.keys[pos] == rv.keys[0] && w.keys[pos+1..] == rv.keys[1..]
            && w.hs[..pos] == lv.hs + [v.hs[i]] && w.hs[pos] == rv.hs[0] && w.hs[pos+1..] == rv.hs[1..]
            && w.kids[..pos+1] == lv.kids + [rv.kids[0]] && w.kids[pos+1..] == rv.kids[1..]
  {
  }

  lemma JoinedLeft(t: Tree, p: Ref, i: nat, pos: nat)
    requires CanShare(t, p, i, pos) && pos == |t.nodes[t.nodes[p].kids[i]].keys| - 1
    ensures var v, lv, rv, w := t.nodes[p], t.nodes[t.nodes[p].kids[i]], t.nodes[t.nodes[p].kids[i+1]], Joined(t, p, i);
            && w.keys[..pos] == lv.keys[..pos] && w.keys[pos] == lv.keys[pos]
            && w.keys[pos+1..] == [v.keys[i]] + rv.keys
            && w.hs[..pos] == lv.hs[..pos] && w.hs[pos] == lv.hs[pos] && w.hs[pos+1..] == [v.hs[i]] + rv.hs
            && w.kids[..pos+1] == lv.kids[..pos+1] && w.kids[pos+1..] == [lv.kids[pos+1]] + rv.kids
  {
  }

  /** Every handle of the joined node is linked to the node it is in. */
  lemma JoinedLinks(t: Tree, p: Ref, i: nat, pos: nat)
    requires CanShare(t, p, i, pos)
    ensures var l, r, w, n :=
              t.nodes[p].kids[i], t.nodes[p].kids[i+1], Joined(t, p, i), |t.nodes[t.nodes[p].kids[i]].keys|;
            && (forall k :: 0 <= k < |w.hs| ==> w.hs[k] in t.hpar)
            && (forall k :: 0 <= k < |w.hs| ==> t.hpar[w.hs[k]] == if k < n then l else if k == n then p else r)
            && (forall a, b :: 0 <= a < b < |w.hs| ==> w.hs[a] != w.hs[b])
  {
    var l, r, w, n := t.nodes[p].kids[i], t.nodes[p].kids[i+1], Joined(t, p, i), |t.nodes[t.nodes[p].kids[i]].keys|;
    forall k | 0 <= k < |w.hs|
      ensures w.hs[k] in t.hpar && t.hpar[w.hs[k]] == if k < n then l else if k == n then p else r
    {
      if k < n { assert KeyOK(t, l, k); } else if k == n { assert KeyOK(t, p, i); }
      else { assert KeyOK(t, r, k - n - 1); }
    }
    MergedStruct(t, p, i, pos);
    var t1 := Merged(t, p, i);
    forall a, b | 0 <= a < b < |w.hs| ensures w.hs[a] != w.hs[b] { assert KeyOK(t1, l, a) && KeyOK(t1, l, b); }
  }

  /** Links after moving one value to the left (`pos` is one past the left kid's) or to the right. */
  lemma BorrowLinks(t: Tree, p: Ref, i: nat, pos: nat, hp: map<Ref, Ref>)
    requires CanShare(t, p, i, pos)
    requires var l, r, n := t.nodes[p].kids[i], t.nodes[p].kids[i+1], |t.nodes[t.nodes[p].kids[i]].keys|;
             || (pos == n + 1 && hp == t.hpar[t.nodes[p].hs[i] := l])
             || (pos == n - 1 && hp == t.hpar[t.nodes[p].hs[i] := r])
    ensures ShareLinks(t, p, i, pos, hp)
  {
    JoinedLinks(t, p, i, pos);
    var w, n := Joined(t, p, i), |t.nodes[t.nodes[p].kids[i]].keys|;
    assert w.hs[n] == t.nodes[p].hs[i];
  }

  lemma BorrowFilled(t: Tree, half: nat, s: Ref, p: Ref, i: nat, pos: nat, t3: Tree)
    requires half >= 2 && CanShare(t, p, i, pos) && ShareView(t, p, i, pos, t3) && t3.root == t.root
             && Filled(t, half, s)
    requires p != s && p != t.nodes[p].kids[i] && p != t.nodes[p].kids[i+1] && t.root != t.nodes[p].kids[i]
             && t.root != t.nodes[p].kids[i+1]
    requires s == t.nodes[p].kids[i] || s == t.nodes[p].kids[i+1]
    requires half <= pos <= 2 * half && |Joined(t, p, i).keys| - 2 * half <= pos + 1 <= |Joined(t, p, i).keys| - half
    ensures Filled(t3, half, Null)
  {
    var l, r := t.nodes[p].kids[i], t.nodes[p].kids[i+1];
    forall id | id in t3.nodes ensures NodeFilled(t3, half, id) {
      assert id != s ==> NodeFilled(t, half, id);
    }
  }

  /** A kid that moves between siblings, if there is one, is a node of its own. */
  lemma MovedInMemory(half: nat, nodes: map<Ref, Sept>, t: Tree, p: Ref, i: nat, pos: nat, c: Ref)
    requires CanShare(t, p, i, pos) && Holds(nodes, half, t) && c in Joined(t, p, i).kids
    ensures c != Null ==> c in t.nodes && c in nodes && c != p && c != t.nodes[p].kids[i] && c != t.nodes[p].kids[i+1]
  {
    ParentApart(t, p, i, pos);
    MergedStruct(t, p, i, pos);
    var l, w := t.nodes[p].kids[i], Joined(t, p, i);
    if c != Null {
      var k :| 0 <= k < |w.kids| && w.kids[k] == c;
      assert w.level > 0 ==> KidOK(Merged(t, p, i), l, k);
      assert HoldsAt(nodes, half, t, c);
    }
  }

  function Rewrite(nodes: map<Ref, Sept>, l: Ref, a: Sept, p: Ref, b: Sept, r: Ref, d: Sept, c: Ref,
                   np: Ref): (m: map<Ref, Sept>)
    requires l in nodes && p in nodes && r in nodes
    ensures m.Keys == nodes.Keys
  {
    (if c in nodes then nodes[c := nodes[c].(parent := np)] else nodes)[l := a][p := b][r := d]
  }

  lemma RewriteOthers(half: nat, nodes: map<Ref, Sept>, t: Tree, p: Ref, i: nat, pos: nat, t3: Tree,
                      a: Sept, b: Sept, d: Sept, c: Ref, np: Ref)
    requires Holds(nodes, half, t) && CanShare(t, p, i, pos) && ShareView(t, p, i, pos, t3) && Null !in nodes
    requires var l, r, n := t.nodes[p].kids[i], t.nodes[p].kids[i+1], |t.nodes[t.nodes[p].kids[i]].keys|;
             || (pos == n + 1 && c == t.nodes[r].kids[0] && np == l)
             || (pos == n - 1 && c == t.nodes[l].kids[n] && np == r)
    requires c != Null ==> c in t.nodes && c != p && c != t.nodes[p].kids[i] && c != t.nodes[p].kids[i+1]
    requires p in nodes && t.nodes[p].kids[i] in nodes && t.nodes[p].kids[i+1] in nodes
    ensures var l, r := t.nodes[p].kids[i], t.nodes[p].kids[i+1];
            var nodes' := Rewrite(nodes, l, a, p, b, r, d, c, np);
            OthersKept(nodes, nodes', t, t3, p, l, r)
  {
    var l, r := t.nodes[p].kids[i], t.nodes[p].kids[i+1];
    var nodes' := Rewrite(nodes, l, a, p, b, r, d, c, np);
    forall id | id in nodes && id != p && id != l && id != r
      ensures nodes'[id] == if id in t.nodes then nodes[id].(parent := t3.nodes[id].parent) else nodes[id]
    {
      if id in t.nodes {
        MovedKid(t, p, i, pos, t3, id);
        assert HoldsAt(nodes, half, t, id);
      }
    }
  }

  /** The left kid takes the separating value of the parent, which takes the right kid's first. */
  method BorrowRight(half: nat, nodes: map<Ref, Sept>, hpar: map<Ref, Ref>, ghost reserve: Ref, ghost free: seq<Ref>,
                     ghost t: Tree, p: Ref, l: Ref, count: nat)
    returns (nodes': map<Ref, Sept>, hpar': map<Ref, Ref>, ghost t': Tree)
    requires half >= 2 && Mem(nodes, hpar, reserve, free, half, t) && CanShare(t, p, 0, count + 1)
             && t.nodes[p].kids[0] == l
    requires count == |t.nodes[l].keys| < 2 * half && |t.nodes[t.nodes[p].kids[1]].keys| > 0
    ensures t' == Share(t, p, 0, count + 1, hpar[t.nodes[p].hs[0] := l])
    ensures Mem(nodes', hpar', reserve, free, half, t') && |t'.nodes| == |t.nodes|
  {
    assert HoldsAt(nodes, half, t, p) && HoldsAt(nodes, half, t, l) && HoldsAt(nodes, half, t, t.nodes[p].kids[1]);
    ghost var pos := count + 1;
    var r := nodes[p].children[1];
    ghost var v, lv, rv := t.nodes[p], t.nodes[l], t.nodes[r];
    var c := nodes[r].children[0];
    var a, b, d := LendFirst(nodes[l], nodes[p], nodes[r], half, count,
                             lv.keys, lv.hs, lv.kids, v.keys, v.hs, v.kids, rv.keys, rv.hs, rv.kids);
    hpar' := hpar[nodes[p].hn[0] := l][nodes[r].hn[0] := p];
    nodes' := Rewrite(nodes, l, a, p, b, r, d, c, l);
    t' := Share(t, p, 0, pos, hpar[v.hs[0] := l]);
    ShareNodes(t, p, 0, pos, hpar[v.hs[0] := l]);
    JoinedRight(t, p, 0, pos);
    BorrowMem(half, nodes, hpar, reserve, free, t, p, 0, pos, t', a, b, d, c, l);
  }

  /** Three nodes rewritten as they should be, and the moved kid's parent set: memory holds the tree
      after sharing. */
  lemma BorrowMem(half: nat, nodes: map<Ref, Sept>, hpar: map<Ref, Ref>, reserve: Ref, free: seq<Ref>, t: Tree,
                  p: Ref, i: nat, pos: nat, t3: Tree, a: Sept, b: Sept, d: Sept, c: Ref, np: Ref)
    requires half >= 2 && Mem(nodes, hpar, reserve, free, half, t) && CanShare(t, p, i, pos)
             && ShareView(t, p, i, pos, t3)
    requires var l, r, n := t.nodes[p].kids[i], t.nodes[p].kids[i+1], |t.nodes[t.nodes[p].kids[i]].keys|;
             || (pos == n + 1 && c == t.nodes[r].kids[0] && np == l)
             || (pos == n - 1 && c == t.nodes[l].kids[n] && np == r)
    requires p in nodes && t.nodes[p].kids[i] in nodes && t.nodes[p].kids[i+1] in nodes
    requires var v, w := t.nodes[p], Joined(t, p, i);
             && Has(a, half, w.keys[..pos], w.hs[..pos], w.kids[..pos+1]) && a.parent == p
             && Has(b, half, v.keys[i := w.keys[pos]], v.hs[i := w.hs[pos]], v.kids) && b.parent == v.parent
             && Has(d, half, w.keys[pos+1..], w.hs[pos+1..], w.kids[pos+1..]) && d.parent == p
    ensures var l, r := t.nodes[p].kids[i], t.nodes[p].kids[i+1];
            && Mem(Rewrite(nodes, l, a, p, b, r, d, c, np), t3.hpar, reserve, free, half, t3)
            && |t3.nodes| == |t.nodes|
  {
    var l, r, w := t.nodes[p].kids[i], t.nodes[p].kids[i+1], Joined(t, p, i);
    var nodes' := Rewrite(nodes, l, a, p, b, r, d, c, np);
    ParentApart(t, p, i, pos);
    assert c in w.kids by {
      assert pos < |t.nodes[l].keys| ==> w.kids[pos+1] == c;
      assert pos > |t.nodes[l].keys| ==> w.kids[pos] == c;
    }
    MovedInMemory(half, nodes, t, p, i, pos, c);
    RewriteOthers(half, nodes, t, p, i, pos, t3, a, b, d, c, np);
    ShareMem(half, nodes, nodes', hpar, reserve, free, t, p, i, pos, t3.hpar, t3);
  }

  /** The right kid takes the separating value of the parent, which takes the left kid's last. */
  method BorrowLeft(half: nat, nodes: map<Ref, Sept>, hpar: map<Ref, Ref>, ghost reserve: Ref, ghost free: seq<Ref>,
                    ghost t: Tree, p: Ref, i: nat, l: Ref, r: Ref, lcount: nat, count: nat)
    returns (nodes': map<Ref, Sept>, hpar': map<Ref, Ref>, ghost t': Tree)
    requires half >= 2 && Mem(nodes, hpar, reserve, free, half, t) && lcount > 0 && CanShare(t, p, i, lcount - 1)
    requires t.nodes[p].kids[i] == l && t.nodes[p].kids[i+1] == r
    requires lcount == |t.nodes[l].keys| <= 2 * half && count == |t.nodes[r].keys| < 2 * half
    ensures t' == Share(t, p, i, lcount - 1, hpar[t.nodes[p].hs[i] := r])
    ensures Mem(nodes', hpar', reserve, free, half, t') && |t'.nodes| == |t.nodes|
  {
    assert HoldsAt(nodes, half, t, p) && HoldsAt(nodes, half, t, l) && HoldsAt(nodes, half, t, r);
    ghost var pos := lcount - 1;
    ghost var v, lv, rv := t.nodes[p], t.nodes[l], t.nodes[r];
    var c := nodes[l].children[lcount];
    var a, b, d := LendLast(nodes[l], nodes[p], nodes[r], half, i, lcount, count,
                            lv.keys, lv.hs, lv.kids, v.keys, v.hs, v.kids, rv.keys, rv.hs, rv.kids);
    hpar' := hpar[nodes[p].hn[i] := r][nodes[l].hn[lcount-1] := p];
    nodes' := Rewrite(nodes, l, a, p, b, r, d, c, r);
    t' := Share(t, p, i, pos, hpar[v.hs[i] := r]);
    ShareNodes(t, p, i, pos, hpar[v.hs[i] := r]);
    JoinedLeft(t, p, i, pos);
    BorrowMem(half, nodes, hpar, reserve, free, t, p, i, pos, t', a, b, d, c, r);
  }

  // ---------------------------------------------------------------- merging in memory

  lemma HoldsMerge(nodes: map<Ref, Sept>, half: nat, t: Tree, p: Ref, i: nat, hp: map<Ref, Ref>, a: Sept, b: Sept,
                   kids: seq<Ref>, nodes': map<Ref, Sept>)
    requires Holds(nodes, half, t) && CanMerge(t, p, i, hp) && Null !in t.nodes
    requires var l, r, w := t.nodes[p].kids[i], t.nodes[p].kids[i+1], MergeNodes(t, p, i);
             && l != r && p != l && p != r && kids == t.nodes[r].kids && l !in kids && p !in kids && r !in kids
             && Shows(a, half, w[l]) && Shows(b, half, w[p])
             && nodes'.Keys == nodes.Keys && p in nodes && l in nodes && r in nodes && nodes'[l] == a && nodes'[p] == b
             && forall id :: id in nodes && id != p && id != l && id != r ==>
                  nodes'[id] == if id in kids then nodes[id].(parent := l) else nodes[id]
    ensures Holds(nodes', half, MergeAt(t, p, i, hp))
  {
    var t' := MergeAt(t, p, i, hp);
    var l, r := t.nodes[p].kids[i], t.nodes[p].kids[i+1];
    assert t.nodes[r].level == 0 ==> forall k :: 0 <= k < |kids| ==> kids[k] == Null;
    forall id | id in t'.nodes ensures HoldsAt(nodes', half, t', id) {
      if id != p && id != l {
        assert HoldsAt(nodes, half, t, id);
      }
    }
  }

  lemma MergeCard(t: Tree, p: Ref, i: nat)
    requires p in t.nodes && i < |t.nodes[p].keys| == |t.nodes[p].hs| && |t.nodes[p].kids| == |t.nodes[p].keys| + 1
    requires t.nodes[p].kids[i] in t.nodes && t.nodes[p].kids[i+1] in t.nodes
    ensures |MergeNodes(t, p, i)| == |t.nodes| - 1
  {
    var r := t.nodes[p].kids[i+1];
    assert MergeNodes(t, p, i).Keys == t.nodes.Keys - {r};
  }

  lemma KidsApartFromNode(t: Tree, r: Ref)
    requires r in t.nodes && NodeOK(t, r) && Null !in t.nodes
    ensures forall x :: x in t.nodes[r].kids && x != Null ==>
              x in t.nodes && t.nodes[x].parent == r && t.nodes[x].level < t.nodes[r].level
  {
    forall x | x in t.nodes[r].kids && x != Null
      ensures x in t.nodes && t.nodes[x].parent == r && t.nodes[x].level < t.nodes[r].level {
      var k :| 0 <= k < |t.nodes[r].kids| && t.nodes[r].kids[k] == x;
      assert t.nodes[r].level > 0 ==> KidOK(t, r, k);
    }
  }

  /** Merge kid `i + 1` of `p` into kid `i` and put it in the reserve. */
  method MergeMemory(half: nat, nodes: map<Ref, Sept>, hpar: map<Ref, Ref>, reserve: Ref, ghost free: seq<Ref>,
                     ghost t: Tree, p: Ref, i: nat, l: Ref, r: Ref, lcount: nat, rcount: nat)
    returns (nodes': map<Ref, Sept>, hpar': map<Ref, Ref>)
    requires Mem(nodes, hpar, reserve, free, half, t) && CanShare(t, p, i, 0) && p in nodes && l in nodes && r in nodes
    requires t.nodes[p].kids[i] == l && t.nodes[p].kids[i+1] == r
    requires lcount == |t.nodes[l].keys| && rcount == |t.nodes[r].keys| && lcount + 1 + rcount <= 2 * half
    ensures Mem(nodes', hpar', r, [r] + free, half, Merged(t, p, i)) && |Merged(t, p, i).nodes| == |t.nodes| - 1
  {
    assert HoldsAt(nodes, half, t, p) && HoldsAt(nodes, half, t, l) && HoldsAt(nodes, half, t, r);
    ghost var v, lv, rv := t.nodes[p], t.nodes[l], t.nodes[r];
    KidsInMemory(nodes, half, t, r);
    KidsInMemory(nodes, half, t, p);
    KidsApartFromNode(t, r);
    ParentApart(t, p, i, 0);
    var a := AppendAll(nodes[l], nodes[r], half, lcount, nodes[p].prio[i], nodes[p].hn[i],
                       lv.keys, lv.hs, lv.kids, rv.keys, rv.hs, rv.kids);
    var b := DeleteWithKid(nodes[p], half, i, v.keys, v.hs, v.kids);
    var kids, moved := nodes[r].children[..rcount+1], [nodes[p].hn[i]] + nodes[r].hn[..rcount];
    assert kids == rv.kids && moved == [v.hs[i]] + rv.hs;
    nodes' := Reparent(nodes, kids, l);
    nodes' := nodes'[l := a][p := b][r := nodes[r].(parent := reserve)];
    hpar' := Relink(hpar, moved, l);
    MergeMem(half, nodes, hpar, reserve, free, t, p, i, a, b, nodes', hpar');
  }

  lemma MergeMem(half: nat, nodes: map<Ref, Sept>, hpar: map<Ref, Ref>, reserve: Ref, free: seq<Ref>, t: Tree,
                 p: Ref, i: nat, a: Sept, b: Sept, nodes': map<Ref, Sept>, hpar': map<Ref, Ref>)
    requires Mem(nodes, hpar, reserve, free, half, t) && CanShare(t, p, i, 0)
    requires var v, l, r := t.nodes[p], t.nodes[p].kids[i], t.nodes[p].kids[i+1];
             && p in nodes && l in nodes && r in nodes && p != l && p != r && l != r
             && l !in t.nodes[r].kids && p !in t.nodes[r].kids && r !in t.nodes[r].kids
             && nodes' == SetParents(nodes, t.nodes[r].kids, l)[l := a][p := b][r := nodes[r].(parent := reserve)]
             && hpar' == SetLinks(hpar, [v.hs[i]] + t.nodes[r].hs, l)
             && Shows(a, half, Joined(t, p, i)) && b.parent == v.parent
             && Has(b, half, Del(v.keys, i), Del(v.hs, i), Del(v.kids, i + 1))
    ensures Mem(nodes', hpar', t.nodes[p].kids[i+1], [t.nodes[p].kids[i+1]] + free, half, Merged(t, p, i))
    ensures |Merged(t, p, i).nodes| == |t.nodes| - 1
  {
    var l, r := t.nodes[p].kids[i], t.nodes[p].kids[i+1];
    assert HoldsAt(nodes, half, t, r);
    MergeLinksHold(t, p, i, hpar');
    HoldsMerge(nodes, half, t, p, i, hpar', a, b, t.nodes[r].kids, nodes');
    KidsApartFromNode(t, r);
    FreeFrame(nodes, nodes', half, reserve, free);
    FreePush(nodes', half, reserve, free, r, nodes'[r]);
    assert nodes'[r := nodes'[r]] == nodes';
    MergeCard(t, p, i);
  }

  // ---------------------------------------------------------------- restoring occupancy

  ghost predicate ShortKid(t: Tree, half: nat, s: Ref, p: Ref, i: nat, final: map<int, Ref>) {
    && Short(t, half, s, final) && s != t.root && |t.nodes[s].keys| + 1 == half
    && CanShare(t, p, i, 0) && (s == t.nodes[p].kids[i] || s == t.nodes[p].kids[i+1])
  }

  /** The neighbours of a short kid hold enough, and none of them is the root. */
  lemma Neighbours(t: Tree, half: nat, s: Ref, p: Ref, i: nat, final: map<int, Ref>)
    requires ShortKid(t, half, s, p, i, final)
    ensures var l, r := t.nodes[p].kids[i], t.nodes[p].kids[i+1];
            && l != t.root && r != t.root && p != l && p != r && NodeFilled(t, half, p)
            && (l != s ==> NodeFilled(t, half, l)) && (r != s ==> NodeFilled(t, half, r))
  {
    ParentApart(t, p, i, 0);
    assert UpOK(t, t.root);
    assert NodeFilled(t, half, p);
    var l, r := t.nodes[p].kids[i], t.nodes[p].kids[i+1];
    assert l != s ==> NodeFilled(t, half, l);
    assert r != s ==> NodeFilled(t, half, r);
  }

  /** After a merge only the parent can be short; if it has lost its last value it was the root, and
      the merged node takes its place. */
  lemma MergedShort(t: Tree, half: nat, s: Ref, p: Ref, i: nat, final: map<int, Ref>)
    requires ShortKid(t, half, s, p, i, final)
    requires |t.nodes[t.nodes[p].kids[i]].keys| + 1 + |t.nodes[t.nodes[p].kids[i+1]].keys| <= 2 * half
    ensures var t1 := Merged(t, p, i);
            && p in t1.nodes && t1.root == t.root && |t1.nodes[p].keys| == |t.nodes[p].keys| - 1
            && t1.nodes[p].parent == t.nodes[p].parent
            && Struct(t1, Null) && Filled(t1, half, p) && NodeOK(t1, p) && t1.nodes[p].level > 0 && t1.contents == final
            && (p != t.root ==> |t1.nodes[p].keys| + 1 >= half) && |t1.nodes[p].keys| <= 2 * half
            && t1.nodes[p].kids[i] == t.nodes[p].kids[i] && t.nodes[p].kids[i] in t1.nodes
            && t1.nodes[t.nodes[p].kids[i]].parent == p
  {
    Neighbours(t, half, s, p, i, final);
    MergedStruct(t, p, i, 0);
    var t1 := Merged(t, p, i);
    forall id | id in t1.nodes && id != p ensures NodeFilled(t1, half, id) {
      assert id != s ==> NodeFilled(t, half, id);
    }
  }

  lemma ShortOrDone(t: Tree, half: nat, p: Ref, final: map<int, Ref>)
    requires half >= 2 && Struct(t, Null) && Filled(t, half, p) && p in t.nodes && NodeOK(t, p) && t.nodes[p].level > 0
             && t.contents == final
    requires (p != t.root ==> |t.nodes[p].keys| + 1 >= half) && 0 < |t.nodes[p].keys| <= 2 * half
    ensures Short(t, half, p, final)
    ensures p == t.root || |t.nodes[p].keys| >= half ==> Done(t, half, final)
  {
    if p == t.root || |t.nodes[p].keys| >= half {
      forall id | id in t.nodes ensures NodeFilled(t, half, id) { assert id != p ==> NodeFilled(t, half, id); }
    }
  }

  lemma CollapsedDone(t: Tree, half: nat, final: map<int, Ref>)
    requires half >= 2 && Struct(t, Null) && t.root in t.nodes && Filled(t, half, t.root) && t.nodes[t.root].keys == []
    requires t.nodes[t.root].level > 0 && t.contents == final
    ensures |t.nodes[t.root].kids| == 1 && t.nodes[t.root].kids[0] in t.nodes && Done(CollapseRoot(t), half, final)
    ensures |CollapseRoot(t).nodes| == |t.nodes| - 1
  {
    CollapseRootStruct(t);
    var t' := CollapseRoot(t);
    forall id | id in t'.nodes ensures NodeFilled(t', half, id) { assert NodeFilled(t, half, id); }
    assert t'.nodes.Keys == t.nodes.Keys - {t.root};
  }

  /** The merged node becomes the root; the old root goes to the reserve. */
  method CollapseMemory(half: nat, nodes: map<Ref, Sept>, hpar: map<Ref, Ref>, reserve: Ref, ghost free: seq<Ref>,
                        ghost t: Tree, p: Ref, l: Ref)
    returns (nodes': map<Ref, Sept>)
    requires Mem(nodes, hpar, reserve, free, half, t) && p == t.root && p in t.nodes && |t.nodes[p].kids| == 1
    requires t.nodes[p].kids[0] == l && l in t.nodes && l != p && p != Null
    ensures Mem(nodes', hpar, p, [p] + free, half, CollapseRoot(t))
  {
    assert HoldsAt(nodes, half, t, p) && HoldsAt(nodes, half, t, l);
    ghost var t' := CollapseRoot(t);
    nodes' := nodes[p := nodes[p].(parent := reserve)];
    FreePush(nodes, half, reserve, free, p, nodes'[p]);
    nodes' := nodes'[l := nodes'[l].(parent := Null)];
    FreeFrame(nodes[p := nodes[p].(parent := reserve)], nodes', half, p, [p] + free);
    forall id | id in t'.nodes ensures HoldsAt(nodes', half, t', id) { assert HoldsAt(nodes, half, t, id); }
  }

  /** Moving one value over makes up for the one that is missing. */
  lemma SharedDone(t: Tree, half: nat, s: Ref, p: Ref, i: nat, pos: nat, hp: map<Ref, Ref>, final: map<int, Ref>,
                   t': Tree)
    requires ShortKid(t, half, s, p, i, final) && CanShare(t, p, i, pos)
    requires var l, r := t.nodes[p].kids[i], t.nodes[p].kids[i+1];
             && |t.nodes[l].keys| + 1 + |t.nodes[r].keys| > 2 * half
             && ((s == l && pos == |t.nodes[l].keys| + 1 && hp == t.hpar[t.nodes[p].hs[i] := l])
                 || (s == r && pos == |t.nodes[l].keys| - 1 && hp == t.hpar[t.nodes[p].hs[i] := r]))
    requires t' == Share(t, p, i, pos, hp)
    ensures Done(t', half, final) && t'.root == t.root
  {
    Neighbours(t, half, s, p, i, final);
    BorrowLinks(t, p, i, pos, hp);
    ShareStruct(t, p, i, pos, hp);
    ShareNodes(t, p, i, pos, hp);
    BorrowFilled(t, half, s, p, i, pos, Share(t, p, i, pos, hp));
  }

  /** A merge, the removal of an emptied root, and whether the parent is now to be looked at. */
  method MergeStep(half: nat, nodes: map<Ref, Sept>, hpar: map<Ref, Ref>, root: Ref, reserve: Ref, ghost free: seq<Ref>,
                   ghost t: Tree, ghost s: Ref, p: Ref, i: nat, l: Ref, r: Ref, lcount: nat, rcount: nat,
                   ghost final: map<int, Ref>)
    returns (nodes': map<Ref, Sept>, hpar': map<Ref, Ref>, root': Ref, reserve': Ref, ghost free': seq<Ref>,
             ghost t': Tree, finished: bool, count: nat)
    requires Mem(nodes, hpar, reserve, free, half, t) && t.root == root && ShortKid(t, half, s, p, i, final)
    requires t.nodes[p].kids[i] == l && t.nodes[p].kids[i+1] == r
    requires lcount == |t.nodes[l].keys| && rcount == |t.nodes[r].keys| && lcount + 1 + rcount <= 2 * half
    ensures Mem(nodes', hpar', reserve', free', half, t') && t'.root == root'
            && |free'| + |t'.nodes| == |free| + |t.nodes|
    ensures if finished then Done(t', half, final)
            else Short(t', half, p, final) && count == |t'.nodes[p].keys| < half && |t'.nodes| < |t.nodes|
  {
    assert HoldsAt(nodes, half, t, p) && HoldsAt(nodes, half, t, l) && HoldsAt(nodes, half, t, r);
    MergedShort(t, half, s, p, i, final);
    nodes', hpar' := MergeMemory(half, nodes, hpar, reserve, free, t, p, i, l, r, lcount, rcount);
    root', reserve', free', t' := root, r, [r] + free, Merged(t, p, i);
    assert HoldsAt(nodes', half, t', p);
    if nodes'[p].hn[0] == Null {
      assert |t'.nodes[p].keys| == 0;
      CollapsedDone(t', half, final);
      nodes' := CollapseMemory(half, nodes', hpar', reserve', free', t', p, l);
      root', reserve', free', t' := l, p, [p] + free', CollapseRoot(t');
      return nodes', hpar', root', reserve', free', t', true, 0;
    }
    count := NumVals(nodes'[p], half, t'.nodes[p].keys, t'.nodes[p].hs, t'.nodes[p].kids);
    ShortOrDone(t', half, p, final);
    finished := count >= half;
  }

  /** A short node that is not the root has a sibling on the left, or else on the right. */
  lemma HasSibling(t: Tree, half: nat, s: Ref, final: map<int, Ref>) returns (j: nat)
    requires Short(t, half, s, final) && s != t.root && |t.nodes[s].keys| < half
    ensures var p := t.nodes[s].parent;
            && p in t.nodes && NodeOK(t, p) && t.nodes[p].level > 0 && 0 < |t.nodes[p].keys| <= 2 * half
            && j < |t.nodes[p].kids| && t.nodes[p].kids[j] == s
            && (j > 0 ==> ShortKid(t, half, s, p, j - 1, final)) && (j == 0 ==> ShortKid(t, half, s, p, 0, final))
  {
    assert UpOK(t, s);
    var p := t.nodes[s].parent;
    j :| 0 <= j < |t.nodes[p].kids| && t.nodes[p].kids[j] == s;
    assert NodeOK(t, p);
    ParentOf(t, p, s);
    assert NodeFilled(t, half, p);
    var i := if j > 0 then j - 1 else 0;
    assert KidOK(t, p, i) && KidOK(t, p, i + 1);
    assert NodeOK(t, t.nodes[p].kids[i]) && NodeOK(t, t.nodes[p].kids[i+1]);
  }

  lemma RootDone(t: Tree, half: nat, s: Ref, final: map<int, Ref>)
    requires Short(t, half, s, final) && s == t.root
    ensures |t.nodes[s].keys| > 0 ==> Done(t, half, final)
    ensures |t.nodes[s].keys| == 0 ==>
              && t.nodes[s].level == 0 && |t.nodes| == 1 && Done(t.(nodes := map[], root := Null), half, final)
  {
    if |t.nodes[s].keys| > 0 {
      forall id | id in t.nodes ensures NodeFilled(t, half, id) { assert id != s ==> NodeFilled(t, half, id); }
    } else {
      EmptyRoot(t);
      assert |t.nodes| == |t.nodes.Keys|;
    }
  }

  lemma CanBorrow(t: Tree, half: nat, s: Ref, p: Ref, i: nat, final: map<int, Ref>)
    requires ShortKid(t, half, s, p, i, final)
    requires |t.nodes[t.nodes[p].kids[i]].keys| + 1 + |t.nodes[t.nodes[p].kids[i+1]].keys| > 2 * half
    ensures var l, r := t.nodes[p].kids[i], t.nodes[p].kids[i+1];
            && half >= 2 && |t.nodes[l].keys| <= 2 * half && |t.nodes[r].keys| <= 2 * half
            && (s == l ==> |t.nodes[r].keys| > 0 && CanShare(t, p, i, |t.nodes[l].keys| + 1))
            && (s == r ==> |t.nodes[l].keys| > 0 && CanShare(t, p, i, |t.nodes[l].keys| - 1))
  {
    Neighbours(t, half, s, p, i, final);
  }

  method TakeFromRight(half: nat, nodes: map<Ref, Sept>, hpar: map<Ref, Ref>, ghost reserve: Ref, ghost free: seq<Ref>,
                       ghost t: Tree, p: Ref, s: Ref, count: nat, ghost final: map<int, Ref>)
    returns (nodes': map<Ref, Sept>, hpar': map<Ref, Ref>, ghost t': Tree)
    requires Mem(nodes, hpar, reserve, free, half, t) && ShortKid(t, half, s, p, 0, final) && t.nodes[p].kids[0] == s
    requires count == |t.nodes[s].keys| && count + 1 + |t.nodes[t.nodes[p].kids[1]].keys| > 2 * half
    ensures Mem(nodes', hpar', reserve, free, half, t') && t'.root == t.root && |t'.nodes| == |t.nodes|
            && Done(t', half, final)
  {
    CanBorrow(t, half, s, p, 0, final);
    nodes', hpar', t' := BorrowRight(half, nodes, hpar, reserve, free, t, p, s, count);
    SharedDone(t, half, s, p, 0, count + 1, hpar[t.nodes[p].hs[0] := s], final, t');
  }

  method TakeFromLeft(half: nat, nodes: map<Ref, Sept>, hpar: map<Ref, Ref>, ghost reserve: Ref, ghost free: seq<Ref>,
                      ghost t: Tree, p: Ref, i: nat, l: Ref, s: Ref, lcount: nat, count: nat,
                      ghost final: map<int, Ref>)
    returns (nodes': map<Ref, Sept>, hpar': map<Ref, Ref>, ghost t': Tree)
    requires Mem(nodes, hpar, reserve, free, half, t) && ShortKid(t, half, s, p, i, final)
    requires t.nodes[p].kids[i] == l && t.nodes[p].kids[i+1] == s && lcount == |t.nodes[l].keys|
             && count == |t.nodes[s].keys|
    requires lcount + 1 + count > 2 * half
    ensures Mem(nodes', hpar', reserve, free, half, t') && t'.root == t.root && |t'.nodes| == |t.nodes|
            && Done(t', half, final)
  {
    CanBorrow(t, half, s, p, i, final);
    nodes', hpar', t' := BorrowLeft(half, nodes, hpar, reserve, free, t, p, i, l, s, lcount, count);
    SharedDone(t, half, s, p, i, lcount - 1, hpar[t.nodes[p].hs[i] := s], final, t');
  }

  /** Merge with the sibling on the right, or borrow from it. */
  method RepopFromRight(half: nat, nodes: map<Ref, Sept>, hpar: map<Ref, Ref>, root: Ref, reserve: Ref,
                        ghost free: seq<Ref>, ghost t: Tree, p: Ref, s: Ref, count: nat, ghost final: map<int, Ref>)
    returns (nodes': map<Ref, Sept>, hpar': map<Ref, Ref>, root': Ref, reserve': Ref, ghost free': seq<Ref>,
             ghost t': Tree, finished: bool, count': nat)
    requires Mem(nodes, hpar, reserve, free, half, t) && t.root == root
    requires ShortKid(t, half, s, p, 0, final) && t.nodes[p].kids[0] == s && count == |t.nodes[s].keys|
    ensures Mem(nodes', hpar', reserve', free', half, t') && t'.root == root'
            && |free'| + |t'.nodes| == |free| + |t.nodes|
    ensures if finished then Done(t', half, final)
            else Short(t', half, p, final) && count' == |t'.nodes[p].keys| < half && |t'.nodes| < |t.nodes|
  {
    var r := (assert HoldsAt(nodes, half, t, p); nodes[p].children[1]);
    assert HoldsAt(nodes, half, t, r);
    var rcount := NumVals(nodes[r], half, t.nodes[r].keys, t.nodes[r].hs, t.nodes[r].kids);
    if rcount + count + 1 <= 2 * half {
      nodes', hpar', root', reserve', free', t', finished, count' :=
        MergeStep(half, nodes, hpar, root, reserve, free, t, s, p, 0, s, r, count, rcount, final);
    } else {
      nodes', hpar', t' := TakeFromRight(half, nodes, hpar, reserve, free, t, p, s, count, final);
      root', reserve', free', finished, count' := root, reserve, free, true, count;
    }
  }

  /** Merge with the sibling on the left, or borrow from it. */
  method RepopFromLeft(half: nat, nodes: map<Ref, Sept>, hpar: map<Ref, Ref>, root: Ref, reserve: Ref,
                       ghost free: seq<Ref>, ghost t: Tree, p: Ref, i: nat, s: Ref, count: nat,
                       ghost final: map<int, Ref>)
    returns (nodes': map<Ref, Sept>, hpar': map<Ref, Ref>, root': Ref, reserve': Ref, ghost free': seq<Ref>,
             ghost t': Tree, finished: bool, count': nat)
    requires Mem(nodes, hpar, reserve, free, half, t) && t.root == root
    requires ShortKid(t, half, s, p, i, final) && t.nodes[p].kids[i+1] == s && count == |t.nodes[s].keys|
    ensures Mem(nodes', hpar', reserve', free', half, t') && t'.root == root'
            && |free'| + |t'.nodes| == |free| + |t.nodes|
    ensures if finished then Done(t', half, final)
            else Short(t', half, p, final) && count' == |t'.nodes[p].keys| < half && |t'.nodes| < |t.nodes|
  {
    var l := (assert HoldsAt(nodes, half, t, p); nodes[p].children[i]);
    assert HoldsAt(nodes, half, t, l);
    var lcount := NumVals(nodes[l], half, t.nodes[l].keys, t.nodes[l].hs, t.nodes[l].kids);
    if lcount + count + 1 <= 2 * half {
      nodes', hpar', root', reserve', free', t', finished, count' :=
        MergeStep(half, nodes, hpar, root, reserve, free, t, s, p, i, l, s, lcount, count, final);
    } else {
      nodes', hpar', t' := TakeFromLeft(half, nodes, hpar, reserve, free, t, p, i, l, s, lcount, count, final);
      root', reserve', free', finished, count' := root, reserve, free, true, count;
    }
  }

  /** One attempt to make up for the missing value of `s`. */
  method RepopStep(half: nat, nodes: map<Ref, Sept>, hpar: map<Ref, Ref>, root: Ref, reserve: Ref, ghost free: seq<Ref>,
                   ghost t: Tree, s: Ref, count: nat, ghost final: map<int, Ref>)
    returns (nodes': map<Ref, Sept>, hpar': map<Ref, Ref>, root': Ref, reserve': Ref, ghost free': seq<Ref>,
             ghost t': Tree, finished: bool, p: Ref, count': nat)
    requires Mem(nodes, hpar, reserve, free, half, t) && t.root == root
    requires Short(t, half, s, final) && count == |t.nodes[s].keys| < half && s in nodes && nodes[s].parent != Null
    ensures Mem(nodes', hpar', reserve', free', half, t') && t'.root == root'
            && |free'| + |t'.nodes| == |free| + |t.nodes|
    ensures if finished then Done(t', half, final)
            else Short(t', half, p, final) && count' == |t'.nodes[p].keys| < half && |t'.nodes| < |t.nodes|
  {
    assert HoldsAt(nodes, half, t, s);
    assert s == t.root ==> UpOK(t, s);
    p := nodes[s].parent;
    ghost var j := HasSibling(t, half, s, final);
    assert HoldsAt(nodes, half, t, p);
    if nodes[p].children[0] == s {
      assert j == 0;
      nodes', hpar', root', reserve', free', t', finished, count' :=
        RepopFromRight(half, nodes, hpar, root, reserve, free, t, p, s, count, final);
    } else {
      var i := 1;
      while i < 2 * half && nodes[p].children[i] != s
        invariant 1 <= i <= j
      {
        i := i + 1;
      }
      assert i == j;
      nodes', hpar', root', reserve', free', t', finished, count' :=
        RepopFromLeft(half, nodes, hpar, root, reserve, free, t, p, i - 1, s, count, final);
    }
  }

  /** Restore the occupancy of `s0`, and of its ancestors as merging makes them short. */
  method Repop(half: nat, nodes: map<Ref, Sept>, hpar: map<Ref, Ref>, root: Ref, reserve: Ref, ghost free: seq<Ref>,
               ghost t: Tree, s0: Ref, count0: nat, ghost final: map<int, Ref>)
    returns (nodes': map<Ref, Sept>, hpar': map<Ref, Ref>, root': Ref, reserve': Ref, ghost free': seq<Ref>,
             ghost t': Tree)
    requires Mem(nodes, hpar, reserve, free, half, t) && t.root == root
    requires Short(t, half, s0, final) && count0 == |t.nodes[s0].keys| < half
    ensures Mem(nodes', hpar', reserve', free', half, t') && t'.root == root'
            && |free'| + |t'.nodes| == |free| + |t.nodes|
    ensures Done(t', half, final)
  {
    nodes', hpar', root', reserve', free', t' := nodes, hpar, root, reserve, free, t;
    var s, count := s0, count0;
    while true
      invariant Mem(nodes', hpar', reserve', free', half, t') && t'.root == root'
                && |free'| + |t'.nodes| == |free| + |t.nodes|
      invariant Short(t', half, s, final) && count == |t'.nodes[s].keys| < half
      decreases |t'.nodes|
    {
      assert HoldsAt(nodes', half, t', s);
      if nodes'[s].parent == Null {
        assert s == root' by { assert UpOK(t', s); }
        RootDone(t', half, s, final);
        if nodes'[s].hn[0] == Null {
          FreePush(nodes', half, reserve', free', s, nodes'[s].(parent := reserve'));
          nodes' := nodes'[s := nodes'[s].(parent := reserve')];
          root', reserve', free', t' := Null, s, [s] + free', t'.(nodes := map[], root := Null);
        }
        return;
      }
      var finished;
      nodes', hpar', root', reserve', free', t', finished, s, count :=
        RepopStep(half, nodes', hpar', root', reserve', free', t', s, count, final);
      if finished {
        return;
      }
    }
  }

  // ---------------------------------------------------------------- taking the value out

  lemma ShortAfter(t: Tree, t': Tree, half: nat, leaf: Ref)
    requires half >= 2 && Struct(t, Null) && Filled(t, half, Null) && Struct(t', Null) && t'.root == t.root
             && t'.nodes.Keys == t.nodes.Keys
    requires leaf in t.nodes && t.nodes[leaf].level == t'.nodes[leaf].level == 0
             && |t'.nodes[leaf].keys| + 1 == |t.nodes[leaf].keys|
    requires forall id :: id in t.nodes && id != leaf ==> |t'.nodes[id].keys| == |t.nodes[id].keys|
    ensures Short(t', half, leaf, t'.contents)
    ensures |t'.nodes[leaf].keys| >= half ==> Done(t', half, t'.contents)
  {
    assert NodeOK(t', leaf) && NodeFilled(t, half, leaf);
    forall id | id in t'.nodes && id != leaf ensures NodeFilled(t', half, id) { assert NodeFilled(t, half, id); }
    if |t'.nodes[leaf].keys| >= half {
      forall id | id in t'.nodes ensures NodeFilled(t', half, id) { assert id != leaf ==> NodeFilled(t', half, id); }
    }
  }

  /** Remove value number `i` of the leaf `s`. */
  method CutLeaf(half: nat, nodes: map<Ref, Sept>, ghost hpar: map<Ref, Ref>, ghost reserve: Ref, ghost free: seq<Ref>,
                 ghost t: Tree, s: Ref, i: nat)
    returns (nodes': map<Ref, Sept>, count: nat, ghost t': Tree)
    requires half >= 2 && Mem(nodes, hpar, reserve, free, half, t) && Struct(t, Null) && Filled(t, half, Null)
    requires s in t.nodes && t.nodes[s].level == 0 && i < |t.nodes[s].keys|
    ensures Mem(nodes', hpar, reserve, free, half, t') && t'.root == t.root && |t'.nodes| == |t.nodes|
    ensures t'.contents == t.contents - {t.nodes[s].keys[i]}
    ensures Short(t', half, s, t'.contents) && count == |t'.nodes[s].keys|
            && (count >= half ==> Done(t', half, t'.contents))
  {
    assert HoldsAt(nodes, half, t, s) && NodeOK(t, s);
    ghost var v := t.nodes[s];
    var n;
    n, count := DeleteValue(nodes[s], half, i, v.keys, v.hs, v.kids);
    nodes' := nodes[s := n];
    t' := LeafDelete(t, s, i);
    LeafDeleteStruct(t, s, i);
    ShortAfter(t, t', half, s);
    forall id | id in t'.nodes ensures HoldsAt(nodes', half, t', id) { assert HoldsAt(nodes, half, t, id); }
    FreeFrame(nodes, nodes', half, reserve, free);
    assert |t'.nodes.Keys| == |t.nodes.Keys|;
  }

  lemma TakeMem(half: nat, nodes: map<Ref, Sept>, hpar: map<Ref, Ref>, reserve: Ref, free: seq<Ref>, t: Tree,
                s: Ref, i: nat, path: seq<Ref>, n: Sept, m: Sept)
    requires Mem(nodes, hpar, reserve, free, half, t) && CanTake(t, s, i, path) && s in nodes && path[|path|-1] in nodes
    requires s != path[|path|-1]
    requires var lv := t.nodes[path[|path|-1]];
             && Has(n, half, t.nodes[s].keys[i := lv.keys[0]], t.nodes[s].hs[i := lv.hs[0]], t.nodes[s].kids)
             && n.parent == t.nodes[s].parent
             && Has(m, half, lv.keys[1..], lv.hs[1..], lv.kids[1..]) && m.parent == lv.parent
    ensures Mem(nodes[s := n][path[|path|-1] := m], hpar[t.nodes[path[|path|-1]].hs[0] := s], reserve, free, half,
                TakeSuccessor(t, s, i, path))
    ensures |TakeSuccessor(t, s, i, path).nodes| == |t.nodes|
  {
    var leaf := path[|path|-1];
    var t' := TakeSuccessor(t, s, i, path);
    var nodes' := nodes[s := n][leaf := m];
    forall id | id in t'.nodes ensures HoldsAt(nodes', half, t', id) {
      assert id != s && id != leaf ==> HoldsAt(nodes, half, t, id);
    }
    FreeFrame(nodes, nodes', half, reserve, free);
    assert t'.nodes.Keys == t.nodes.Keys;
  }

  lemma SuccessorTaken(half: nat, nodes: map<Ref, Sept>, hpar: map<Ref, Ref>, reserve: Ref, free: seq<Ref>, t: Tree,
                       s: Ref, i: nat, path: seq<Ref>, n: Sept, m: Sept)
    requires half >= 2 && Mem(nodes, hpar, reserve, free, half, t) && Struct(t, Null) && Filled(t, half, Null)
    requires CanTake(t, s, i, path) && s in nodes && path[|path|-1] in nodes && s != path[|path|-1]
    requires Has(n, half, t.nodes[s].keys[i := t.nodes[path[|path|-1]].keys[0]],
                 t.nodes[s].hs[i := t.nodes[path[|path|-1]].hs[0]], t.nodes[s].kids) && n.parent == t.nodes[s].parent
    requires var lv := t.nodes[path[|path|-1]];
             Has(m, half, lv.keys[1..], lv.hs[1..], lv.kids[1..]) && m.parent == lv.parent
    ensures var leaf, t' := path[|path|-1], TakeSuccessor(t, s, i, path);
            && Mem(nodes[s := n][leaf := m], hpar[t.nodes[leaf].hs[0] := s], reserve, free, half, t')
            && t'.root == t.root && |t'.nodes| == |t.nodes| && t'.contents == t.contents - {t.nodes[s].keys[i]}
            && Short(t', half, leaf, t'.contents) && |t'.nodes[leaf].keys| == |t.nodes[leaf].keys| - 1
            && (|t'.nodes[leaf].keys| >= half ==> Done(t', half, t'.contents))
  {
    TakeSuccessorStruct(t, s, i, path);
    TakeMem(half, nodes, hpar, reserve, free, t, s, i, path, n, m);
    ShortAfter(t, TakeSuccessor(t, s, i, path), half, path[|path|-1]);
  }

  /** Down the leftmost kids from the kid after value number `i` of `s`. */
  method LeftmostLeaf(half: nat, nodes: map<Ref, Sept>, ghost t: Tree, s: Ref, i: nat)
    returns (leaf: Ref, ghost path: seq<Ref>)
    requires Holds(nodes, half, t) && AllNodes(t) && Null !in t.nodes && s in t.nodes && NodeOK(t, s)
             && t.nodes[s].level > 0
    requires i < |t.nodes[s].keys| && HoldsAt(nodes, half, t, s)
    ensures LeftPath(t, s, i, path) && leaf == path[|path|-1] && t.nodes[leaf].level == 0 && s != leaf
  {
    leaf := nodes[s].children[i+1];
    path := [leaf];
    assert KidOK(t, s, i + 1);
    LeafTest(t, nodes, half, leaf);
    while nodes[leaf].children[0] != Null
      invariant LeftPath(t, s, i, path) && leaf == path[|path|-1] && HoldsAt(nodes, half, t, leaf) && NodeOK(t, leaf)
      invariant nodes[leaf].children[0] == Null <==> t.nodes[leaf].level == 0
      decreases t.nodes[leaf].level
    {
      assert KidOK(t, leaf, 0);
      leaf := nodes[leaf].children[0];
      path := path + [leaf];
      LeafTest(t, nodes, half, leaf);
    }
  }

  /** Replace value number `i` of the inner node `s` by its successor, taken out of its leaf. */
  method CutInner(half: nat, nodes: map<Ref, Sept>, hpar: map<Ref, Ref>, ghost reserve: Ref, ghost free: seq<Ref>,
                  ghost t: Tree, s: Ref, i: nat)
    returns (nodes': map<Ref, Sept>, hpar': map<Ref, Ref>, leaf: Ref, count: nat, ghost t': Tree)
    requires half >= 2 && Mem(nodes, hpar, reserve, free, half, t) && Struct(t, Null) && Filled(t, half, Null)
    requires s in t.nodes && t.nodes[s].level > 0 && i < |t.nodes[s].keys|
    ensures Mem(nodes', hpar', reserve, free, half, t') && t'.root == t.root && |t'.nodes| == |t.nodes|
    ensures t'.contents == t.contents - {t.nodes[s].keys[i]}
    ensures Short(t', half, leaf, t'.contents) && count == |t'.nodes[leaf].keys|
            && (count >= half ==> Done(t', half, t'.contents))
  {
    assert HoldsAt(nodes, half, t, s) && NodeOK(t, s);
    ghost var path;
    leaf, path := LeftmostLeaf(half, nodes, t, s, i);
    assert HoldsAt(nodes, half, t, leaf) && NodeOK(t, leaf) && NodeFilled(t, half, leaf);
    ghost var v, lv := t.nodes[s], t.nodes[leaf];
    var n := ReplaceAt(nodes[s], half, i, nodes[leaf].prio[0], nodes[leaf].hn[0]);
    hpar' := hpar[nodes[leaf].hn[0] := s];
    var m;
    m, count := DeleteValue(nodes[leaf], half, 0, lv.keys, lv.hs, lv.kids);
    assert Del(lv.keys, 0) == lv.keys[1..] && Del(lv.hs, 0) == lv.hs[1..] && lv.kids[..|lv.keys|] == lv.kids[1..];
    nodes' := nodes[s := n][leaf := m];
    t' := TakeSuccessor(t, s, i, path);
    SuccessorTaken(half, nodes, hpar, reserve, free, t, s, i, path, n, m);
  }

  /** Take the handle `h`, which carries the value `p`, out of the tree. */
  method RemoveHandle(half: nat, nodes: map<Ref, Sept>, hpar: map<Ref, Ref>, root: Ref, reserve: Ref,
                      ghost free: seq<Ref>, ghost t: Tree, h: Ref, ghost p: int)
    returns (nodes': map<Ref, Sept>, hpar': map<Ref, Ref>, root': Ref, reserve': Ref, ghost free': seq<Ref>,
             ghost t': Tree)
    requires half >= 2 && Mem(nodes, hpar, reserve, free, half, t) && t.root == root && Struct(t, Null)
             && Filled(t, half, Null)
    requires p in t.contents && t.contents[p] == h
    ensures Mem(nodes', hpar', reserve', free', half, t') && t'.root == root'
            && |free'| + |t'.nodes| == |free| + |t.nodes|
    ensures Done(t', half, t.contents - {p})
  {
    ghost var id, k := StoredKey(t, p);
    var s := hpar[h];
    assert HoldsAt(nodes, half, t, s);
    var i := 0;
    while nodes[s].hn[i] != h
      invariant 0 <= i <= k
      decreases k - i
    {
      i := i + 1;
    }
    assert KeyOK(t, s, i);
    LeafTest(t, nodes, half, s);
    nodes', hpar', root', reserve', free', t' := nodes, hpar, root, reserve, free, t;
    var count;
    if nodes[s].children[0] == Null {
      nodes', count, t' := CutLeaf(half, nodes, hpar, reserve, free, t, s, i);
    } else {
      nodes', hpar', s, count, t' := CutInner(half, nodes, hpar, reserve, free, t, s, i);
    }
    if count < half {
      nodes', hpar', root', reserve', free', t' :=
        Repop(half, nodes', hpar', root', reserve', free', t', s, count, t'.contents);
    }
  }
}
