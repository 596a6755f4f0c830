/**
  How full the nodes are, and how many nodes a given number of values can occupy.
 */
module BTreeOccupancy {
  import opened BTreeModel

  ghost predicate NodeFilled(t: Tree, half: nat, id: Ref)
    requires id in t.nodes
  {
    |t.nodes[id].keys| <= 2 * half && |t.nodes[id].keys| >= (if id == t.root then 1 else half)
  }

  /** Every node but `ex` holds at most N values, and at least N/2 unless it is the root, which is
      never empty. */
  ghost predicate Filled(t: Tree, half: nat, ex: Ref) {
    forall id {:trigger NodeFilled(t, half, id)} :: id in t.nodes && id != ex ==> NodeFilled(t, half, id)
  }

  ghost function KeysIn(t: Tree, s: set<Ref>): set<int>
    requires AllStored(t)
  {
    set p | p in t.contents && (assert Stored(t, p); t.hpar[t.contents[p]] in s)
  }

  ghost function Elements(s: seq<int>): (r: set<int>)
    ensures forall x :: x in r <==> x in s
  {
    if s == [] then {} else {s[0]} + Elements(s[1..])
  }

  lemma {:induction false} SortedCount(s: seq<int>)
    requires Sorted(s)
    ensures |Elements(s)| == |s|
  {
    if s != [] {
      SortedCount(s[1..]);
      assert s[0] !in s[1..];
    }
  }

  lemma KeysInNode(t: Tree, x: Ref)
    requires AllNodes(t) && AllStored(t) && x in t.nodes
    ensures KeysIn(t, {x}) == Elements(t.nodes[x].keys) && |KeysIn(t, {x})| == |t.nodes[x].keys|
  {
    var ks := t.nodes[x].keys;
    assert NodeOK(t, x);
    SortedCount(ks);
    forall p | p in KeysIn(t, {x}) ensures p in ks { assert Stored(t, p); }
    forall p | p in ks ensures p in KeysIn(t, {x}) {
      var k :| 0 <= k < |ks| && ks[k] == p;
      assert KeyOK(t, x, k);
    }
  }

  lemma KeysInAdd(t: Tree, s: set<Ref>, x: Ref)
    requires AllNodes(t) && AllStored(t) && x in t.nodes && x !in s
    ensures |KeysIn(t, s + {x})| == |KeysIn(t, s)| + |t.nodes[x].keys|
  {
    KeysInNode(t, x);
    assert KeysIn(t, s + {x}) == KeysIn(t, s) + KeysIn(t, {x});
    assert KeysIn(t, s) !! KeysIn(t, {x});
  }

  lemma {:induction false} AtLeastHalf(t: Tree, half: nat, s: set<Ref>)
    requires AllNodes(t) && AllStored(t) && s <= t.nodes.Keys && forall id :: id in s ==> |t.nodes[id].keys| >= half
    ensures |KeysIn(t, s)| >= |s| * half
    decreases |s|
  {
    if s != {} {
      var x :| x in s;
      AtLeastHalf(t, half, s - {x});
      KeysInAdd(t, s - {x}, x);
      assert s - {x} + {x} == s;
      CardRemove(s, x);
      assert |s| * half == |s - {x}| * half + half;
    }
  }

  lemma Subset(t: Tree, s: set<Ref>)
    requires AllStored(t)
    ensures |KeysIn(t, s)| <= |t.contents|
  {
    var a, b := KeysIn(t, s), t.contents.Keys;
    assert a <= b;
    assert b == a + (b - a);
  }

  lemma CardRemove(s: set<Ref>, x: Ref)
    requires x in s
    ensures |s - {x}| == |s| - 1
  {
  }

  lemma AllButOne(t: Tree, half: nat, s: set<Ref>, x: Ref)
    requires AllNodes(t) && AllStored(t) && s <= t.nodes.Keys && x in s
    requires forall id :: id in s && id != x ==> |t.nodes[id].keys| >= half
    ensures |KeysIn(t, s)| >= (|s| - 1) * half + |t.nodes[x].keys|
  {
    CardRemove(s, x);
    AtLeastHalf(t, half, s - {x});
    KeysInAdd(t, s - {x}, x);
    assert s - {x} + {x} == s;
  }

  /** A filled tree of m nodes holds at least 1 + (m - 1) * N/2 values. */
  lemma NodeBound(t: Tree, half: nat)
    requires Struct(t, Null) && Filled(t, half, Null) && t.root != Null
    ensures 1 + (|t.nodes| - 1) * half <= |t.contents|
  {
    assert forall id :: id in t.nodes ==> NodeFilled(t, half, id);
    AllButOne(t, half, t.nodes.Keys, t.root);
    Subset(t, t.nodes.Keys);
  }

  /** When node `s` is to be split, one more node (two, if `s` is the root) still keeps the bound. */
  lemma RoomToSplit(t: Tree, half: nat, s: Ref)
    requires Struct(t, Null) && Filled(t, half, s) && s in t.nodes && |t.nodes[s].keys| == 2 * half + 1
    ensures 1 + (|t.nodes| + (if s == t.root then 1 else 0)) * half <= |t.contents|
  {
    var all := t.nodes.Keys;
    Subset(t, all);
    assert forall id :: id in all && id != s ==> NodeFilled(t, half, id);
    if s == t.root {
      AllButOne(t, half, all, s);
      assert (|all| + 1) * half == (|all| - 1) * half + 2 * half;
    } else {
      InnerRoom(t, half, s);
    }
  }

  lemma InnerRoom(t: Tree, half: nat, s: Ref)
    requires AllNodes(t) && AllStored(t) && t.root in t.nodes && s in t.nodes && s != t.root
    requires |t.nodes[s].keys| == 2 * half + 1 && |t.nodes[t.root].keys| >= 1
    requires forall id :: id in t.nodes && id != s && id != t.root ==> |t.nodes[id].keys| >= half
    ensures |KeysIn(t, t.nodes.Keys)| >= |t.nodes| * half + 2
  {
    var all := t.nodes.Keys;
    AllButOne(t, half, all - {s}, t.root);
    CardRemove(all, s);
    KeysInAdd(t, all - {s}, s);
    assert all - {s} + {s} == all;
    assert |all| * half == (|all| - 2) * half + 2 * half;
  }

  lemma Cancel(a: int, b: int, half: nat)
    requires a * half < b * half
    ensures a < b
  {
  }

  lemma FilledInsert(t: Tree, half: nat, s: Ref, j: nat, key: int, h: Ref, right: Ref)
    requires Filled(t, half, s) && s in t.nodes && j <= |t.nodes[s].keys| == |t.nodes[s].hs|
    requires |t.nodes[s].kids| == |t.nodes[s].keys| + 1
    ensures Filled(InsertAt(t, s, j, key, h, right), half, s)
  {
    var t' := InsertAt(t, s, j, key, h, right);
    forall id | id in t'.nodes && id != s ensures NodeFilled(t', half, id) { assert NodeFilled(t, half, id); }
  }

  /** Both halves of a node of N + 1 values are at least half full, so the split leaves at most the
      parent to be looked at next. */
  lemma FilledSplit(t: Tree, half: nat, s: Ref, r: Ref, hp: map<Ref, Ref>, q: Ref)
    requires Filled(t, half, s) && CanSplit(t, s, half, r, hp) && |t.nodes[s].keys| == 2 * half + 1 && half >= 1
             && r != t.root
    ensures Filled(SplitAt(t, s, half, r, hp), half, q)
  {
    var t' := SplitAt(t, s, half, r, hp);
    forall id | id in t'.nodes ensures NodeFilled(t', half, id) {
      assert id in t.nodes && id != s ==> NodeFilled(t, half, id);
    }
  }

  lemma FilledGrow(t: Tree, half: nat, key: int, right: Ref, q: Ref)
    requires Filled(t, half, q) && t.root in t.nodes && right in t.nodes && q !in t.nodes
    requires |t.nodes[t.root].keys| >= half
    ensures Filled(GrowRoot(t, key, right, q), half, q)
  {
    var t' := GrowRoot(t, key, right, q);
    forall id | id in t'.nodes && id != q ensures NodeFilled(t', half, id) { assert NodeFilled(t, half, id); }
  }

  /** Enough spare nodes remain for the split that is due. */
  lemma SpareForSplit(t: Tree, half: nat, s: Ref, alloced: int, needed: int, septs: int)
    requires Struct(t, Null) && Filled(t, half, s) && s in t.nodes && |t.nodes[s].keys| == 2 * half + 1
    requires |t.contents| <= alloced < 1 + needed * half && needed <= septs
    ensures |t.nodes| + (if s == t.root then 1 else 0) < septs
  {
    RoomToSplit(t, half, s);
    Cancel(|t.nodes| + (if s == t.root then 1 else 0), needed, half);
  }
}
