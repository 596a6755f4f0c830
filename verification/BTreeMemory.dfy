/**
  Nodes in memory, linked by pointers: what it means for memory to hold a tree, the chain of spare
  nodes, and the way down to the leaf where a value belongs. Septnode memory is a map and a pointer
  is a key of that map.
 */
module BTreeMemory {
  import opened BTreeModel
  import opened BTreeNode

  ghost predicate Shows(n: Sept, half: nat, v: View) {
    Has(n, half, v.keys, v.hs, v.kids) && n.parent == v.parent
  }

  /** Memory holds the tree `t`. */
  ghost predicate Holds(nodes: map<Ref, Sept>, half: nat, t: Tree) {
    forall id {:trigger HoldsAt(nodes, half, t, id)} :: id in t.nodes ==> HoldsAt(nodes, half, t, id)
  }

  ghost predicate HoldsAt(nodes: map<Ref, Sept>, half: nat, t: Tree, id: Ref)
    requires id in t.nodes
  {
    id in nodes && Shows(nodes[id], half, t.nodes[id])
  }

  lemma HoldsFrame(nodes: map<Ref, Sept>, nodes': map<Ref, Sept>, half: nat, t: Tree)
    requires Holds(nodes, half, t)
    requires forall id :: id in t.nodes && id in nodes ==> id in nodes' && nodes'[id] == nodes[id]
    ensures Holds(nodes', half, t)
  {
    forall id | id in t.nodes ensures HoldsAt(nodes', half, t, id) { assert HoldsAt(nodes, half, t, id); }
  }

  /** The nodes of `free`, in order, are chained through their parent pointers from `r` on. */
  ghost predicate Chain(nodes: map<Ref, Sept>, r: Ref, free: seq<Ref>)
    decreases |free|
  {
    if free == [] then r == Null
    else r == free[0] && r != Null && r in nodes && Chain(nodes, nodes[r].parent, free[1..])
  }

  ghost predicate FreeList(nodes: map<Ref, Sept>, half: nat, reserve: Ref, free: seq<Ref>) {
    && Chain(nodes, reserve, free)
    && (forall x :: x in free ==> x in nodes && Sized(nodes[x], half))
    && (forall i, j :: 0 <= i < j < |free| ==> free[i] != free[j])
  }

  lemma {:induction false} ChainFrame(nodes: map<Ref, Sept>, nodes': map<Ref, Sept>, r: Ref, free: seq<Ref>)
    requires Chain(nodes, r, free) && forall x :: x in free && x in nodes ==> x in nodes' && nodes'[x] == nodes[x]
    ensures Chain(nodes', r, free)
    decreases |free|
  {
    if free != [] {
      ChainFrame(nodes, nodes', nodes[r].parent, free[1..]);
    }
  }

  lemma FreeFrame(nodes: map<Ref, Sept>, nodes': map<Ref, Sept>, half: nat, reserve: Ref, free: seq<Ref>)
    requires FreeList(nodes, half, reserve, free)
    requires forall x :: x in free && x in nodes ==> x in nodes' && nodes'[x] == nodes[x]
    ensures FreeList(nodes', half, reserve, free)
  {
    ChainFrame(nodes, nodes', reserve, free);
  }

  lemma FreePush(nodes: map<Ref, Sept>, half: nat, reserve: Ref, free: seq<Ref>, s: Ref, n: Sept)
    requires FreeList(nodes, half, reserve, free) && s !in free && s != Null && Sized(n, half) && n.parent == reserve
    ensures FreeList(nodes[s := n], half, s, [s] + free)
  {
    FreeFrame(nodes, nodes[s := n], half, reserve, free);
    assert ([s] + free)[1..] == free;
  }

  /** Taking the first spare node, whatever then becomes of its memory. */
  lemma FreePop(nodes: map<Ref, Sept>, nodes': map<Ref, Sept>, half: nat, reserve: Ref, free: seq<Ref>)
    requires FreeList(nodes, half, reserve, free) && free != []
    requires forall x :: x in free && x != free[0] && x in nodes ==> x in nodes' && nodes'[x] == nodes[x]
    ensures reserve == free[0] && reserve in nodes && Sized(nodes[reserve], half)
    ensures FreeList(nodes', half, nodes[reserve].parent, free[1..])
  {
    assert forall x :: x in free[1..] ==> x in free && x != free[0];
    ChainFrame(nodes, nodes', nodes[reserve].parent, free[1..]);
  }

  /** Memory, handle links and spare nodes agree with the tree. */
  ghost predicate Mem(nodes: map<Ref, Sept>, hpar: map<Ref, Ref>, reserve: Ref, free: seq<Ref>, half: nat, t: Tree) {
    && Null !in nodes && Holds(nodes, half, t) && t.hpar == hpar
    && FreeList(nodes, half, reserve, free) && (forall x :: x in free ==> x !in t.nodes)
  }

  /** How many spare and used nodes there must be for the slots allocated so far. */
  ghost predicate Counters(half: nat, alloced: int, septs: int, needed: int, next: int) {
    && 0 <= needed <= septs && next == 1 + needed * half
    && 0 <= alloced < next && (needed > 0 ==> alloced >= next - half)
  }

  lemma CountersUp(half: nat, alloced: int, septs: int, needed: int, next: int)
    requires half >= 1 && 0 <= needed && next == 1 + needed * half && 0 <= alloced == next
    ensures septs > needed ==> Counters(half, alloced, septs, needed + 1, next + half)
  {
    assert (needed + 1) * half == needed * half + half;
  }

  lemma CountersDown(half: nat, alloced: int, septs: int, needed: int, next: int)
    requires half >= 1 && Counters(half, alloced + 1, septs, needed, next) && alloced >= 0 && alloced < next - half
    ensures Counters(half, alloced, septs, needed - 1, next - half)
    ensures needed - 1 < septs - 1 ==> Counters(half, alloced, septs - 1, needed - 1, next - half)
  {
    assert (needed - 1) * half == needed * half - half;
  }

  function SetParents(nodes: map<Ref, Sept>, kids: seq<Ref>, p: Ref): map<Ref, Sept> {
    map id | id in nodes :: if id in kids then nodes[id].(parent := p) else nodes[id]
  }

  function SetLinks(hpar: map<Ref, Ref>, hs: seq<Ref>, p: Ref): map<Ref, Ref> {
    map h | h in hpar :: if h in hs then p else hpar[h]
  }

  /** Point the non-null `kids` to parent `p`. */
  method Reparent(nodes: map<Ref, Sept>, kids: seq<Ref>, p: Ref) returns (m: map<Ref, Sept>)
    requires Null !in nodes && forall k :: 0 <= k < |kids| && kids[k] != Null ==> kids[k] in nodes
    ensures m == SetParents(nodes, kids, p)
  {
    m := nodes;
    for k := 0 to |kids|
      invariant m == SetParents(nodes, kids[..k], p)
    {
      assert kids[..k+1] == kids[..k] + [kids[k]];
      if kids[k] != Null {
        m := m[kids[k] := m[kids[k]].(parent := p)];
      }
    }
    assert kids[..|kids|] == kids;
  }

  /** Point the handles `hs` to node `p`. */
  method Relink(hpar: map<Ref, Ref>, hs: seq<Ref>, p: Ref) returns (m: map<Ref, Ref>)
    requires forall k :: 0 <= k < |hs| ==> hs[k] in hpar
    ensures m == SetLinks(hpar, hs, p)
  {
    m := hpar;
    for k := 0 to |hs|
      invariant m == SetLinks(hpar, hs[..k], p)
    {
      assert hs[..k+1] == hs[..k] + [hs[k]];
      m := m[hs[k] := p];
    }
    assert hs[..|hs|] == hs;
  }

  // ---------------------------------------------------------------- the way down to a leaf

  /** `path` goes from the root towards where `p` belongs; `at` says which kid was taken. */
  ghost predicate Route(t: Tree, path: seq<Ref>, at: seq<nat>, p: int) {
    && |path| > 0 && |at| == |path| - 1 && path[0] == t.root
    && (forall k :: 0 <= k < |path| ==> path[k] in t.nodes)
    && (forall k :: 0 <= k < |at| ==> RouteStep(t, path[k], at[k], path[k+1], p))
  }

  ghost predicate RouteStep(t: Tree, id: Ref, j: nat, kid: Ref, p: int) {
    && id in t.nodes && t.nodes[id].level > 0
    && Slot(t.nodes[id].keys, j, p) && j < |t.nodes[id].kids| && t.nodes[id].kids[j] == kid
  }

  /** If `p` is stored at all, it is stored at `cur` or below. */
  ghost predicate NotMissed(t: Tree, cur: Ref, p: int)
    requires cur in t.nodes
  {
    p in t.contents ==>
      && Stored(t, p) && p in t.nodes[cur].rng
      && t.nodes[t.hpar[t.contents[p]]].level <= t.nodes[cur].level
  }

  lemma {:induction false} RootRange(t: Tree, id: Ref, p: int)
    requires Struct(t, Null) && id in t.nodes && p in t.nodes[id].rng
    ensures p in t.nodes[t.root].rng
    decreases t.nodes[t.root].level - t.nodes[id].level
  {
    if id != t.root {
      assert UpOK(t, id);
      var q := t.nodes[id].parent;
      var i :| 0 <= i < |t.nodes[q].kids| && t.nodes[q].kids[i] == id;
      assert NodeOK(t, q) && KidOK(t, q, i);
      RootRange(t, q, p);
    }
  }

  lemma StoredKey(t: Tree, p: int) returns (id: Ref, k: nat)
    requires Struct(t, Null) && p in t.contents
    ensures Stored(t, p) && id == t.hpar[t.contents[p]] && id in t.nodes && NodeOK(t, id)
    ensures k < |t.nodes[id].keys| && t.nodes[id].keys[k] == p && t.nodes[id].hs[k] == t.contents[p]
            && p in t.nodes[id].rng
  {
    assert Stored(t, p);
    id := t.hpar[t.contents[p]];
    k :| 0 <= k < |t.nodes[id].keys| == |t.nodes[id].hs| && t.nodes[id].keys[k] == p
         && t.nodes[id].hs[k] == t.contents[p];
    assert NodeOK(t, id) && KeyOK(t, id, k);
  }

  lemma KeyInContents(t: Tree, id: Ref, p: int)
    requires id in t.nodes && NodeOK(t, id) && p in t.nodes[id].keys
    ensures p in t.contents
  {
    var k :| 0 <= k < |t.nodes[id].keys| && t.nodes[id].keys[k] == p;
    assert KeyOK(t, id, k);
  }

  lemma NothingStored(t: Tree)
    requires Struct(t, Null) && t.root == Null
    ensures t.contents == map[]
  {
    forall x ensures x !in t.contents {
      if x in t.contents { StoredSomewhere(t, x); }
    }
  }

  lemma NotMissedAtRoot(t: Tree, p: int)
    requires Struct(t, Null) && t.root != Null
    ensures NotMissed(t, t.root, p)
  {
    if p in t.contents {
      var id, k := StoredKey(t, p);
      RootRange(t, id, p);
    }
  }

  /** Going to the kid that encloses `p` does not lose it. */
  lemma NotMissedBelow(t: Tree, cur: Ref, j: nat, p: int)
    requires Struct(t, Null) && cur in t.nodes && t.nodes[cur].level > 0 && NotMissed(t, cur, p)
    requires Slot(t.nodes[cur].keys, j, p) && NodeOK(t, cur)
    ensures t.nodes[cur].kids[j] in t.nodes && NotMissed(t, t.nodes[cur].kids[j], p)
    ensures t.nodes[t.nodes[cur].kids[j]].level + 1 == t.nodes[cur].level
  {
    assert KidOK(t, cur, j);
    if p in t.contents {
      var id, k := StoredKey(t, p);
      if t.nodes[id].level == t.nodes[cur].level {
        SameNode(t, id, cur, p);
      } else {
        KeyBelow(t, cur, id, p);
        var i :| 0 <= i < |t.nodes[cur].kids| && t.nodes[cur].kids[i] in t.nodes
                 && p in t.nodes[t.nodes[cur].kids[i]].rng;
        assert KidOK(t, cur, i);
        SlotUnique(t.nodes[cur].keys, i, j, p);
      }
    }
  }

  lemma SlotUnique(ks: seq<int>, i: nat, j: nat, p: int)
    requires Slot(ks, j, p) && i <= |ks| && Sorted(ks)
    requires (i > 0 ==> ks[i-1] < p) && (i < |ks| ==> p < ks[i])
    ensures i == j
  {
  }

  /** In a leaf the search is over. */
  lemma NotMissedInLeaf(t: Tree, cur: Ref, p: int)
    requires Struct(t, Null) && cur in t.nodes && t.nodes[cur].level == 0 && NotMissed(t, cur, p)
    ensures p in t.contents ==> p in t.nodes[cur].keys
  {
    if p in t.contents {
      var id, k := StoredKey(t, p);
      SameNode(t, id, cur, p);
    }
  }

  /** A node is a leaf exactly when its first child pointer is null. */
  lemma LeafTest(t: Tree, nodes: map<Ref, Sept>, half: nat, id: Ref)
    requires AllNodes(t) && Holds(nodes, half, t) && id in t.nodes && Null !in t.nodes
    ensures HoldsAt(nodes, half, t, id) && NodeOK(t, id)
    ensures nodes[id].children[0] == Null <==> t.nodes[id].level == 0
  {
    assert HoldsAt(nodes, half, t, id) && NodeOK(t, id);
    if t.nodes[id].level > 0 {
      assert KidOK(t, id, 0);
    }
  }

  lemma RouteExtend(t: Tree, path: seq<Ref>, at: seq<nat>, p: int, j: nat, kid: Ref)
    requires Route(t, path, at, p) && RouteStep(t, path[|path|-1], j, kid, p) && kid in t.nodes
    ensures Route(t, path + [kid], at + [j], p)
  {
  }

  // ---------------------------------------------------------------- admitting a new value

  ghost function Admit(t: Tree, path: seq<Ref>, p: int): Tree {
    t.(nodes := map id | id in t.nodes :: if id in path then t.nodes[id].(rng := t.nodes[id].rng + {p})
       else t.nodes[id])
  }

  lemma AdmitKid(t: Tree, path: seq<Ref>, at: seq<nat>, p: int, id: Ref, k: nat)
    requires Struct(t, Null) && Route(t, path, at, p) && id in t.nodes && NodeOK(t, id) && t.nodes[id].level > 0
    requires k < |t.nodes[id].kids|
    ensures KidOK(Admit(t, path, p), id, k)
  {
    assert KidOK(t, id, k);
    var c := t.nodes[id].kids[k];
    if c in path {
      var i :| 0 <= i < |path| && path[i] == c;
      assert i > 0 by { assert UpOK(t, t.root); }
      assert RouteStep(t, path[i-1], at[i-1], path[i], p);
      assert NodeOK(t, path[i-1]) && KidOK(t, path[i-1], at[i-1]);
      assert path[i-1] in path && path[i-1] == id;
    }
  }

  lemma AdmitAll(t: Tree, path: seq<Ref>, at: seq<nat>, p: int)
    requires Struct(t, Null) && Route(t, path, at, p)
    ensures AllNodes(Admit(t, path, p)) && AllStored(Admit(t, path, p))
  {
    var t' := Admit(t, path, p);
    forall id | id in t'.nodes ensures NodeOK(t', id) {
      assert NodeOK(t, id);
      forall k | 0 <= k < |t.nodes[id].keys| ensures KeyOK(t', id, k) { assert KeyOK(t, id, k); }
      if t.nodes[id].level > 0 {
        forall k | 0 <= k < |t.nodes[id].kids| ensures KidOK(t', id, k) { AdmitKid(t, path, at, p, id, k); }
      }
    }
    forall x | x in t'.contents ensures Stored(t', x) { assert Stored(t, x); StoredFrame(t, t', x); }
  }

  lemma AdmitStruct(t: Tree, path: seq<Ref>, at: seq<nat>, p: int)
    requires Struct(t, Null) && Route(t, path, at, p)
    ensures Struct(Admit(t, path, p), Null)
  {
    AdmitAll(t, path, at, p);
    var t' := Admit(t, path, p);
    assert AllUp(t', Null) by {
      forall id | id in t'.nodes ensures UpOK(t', id) { assert UpOK(t, id); }
    }
  }

  // ---------------------------------------------------------------- memory after a split

  lemma SplitMoved(t: Tree, s: Ref, half: nat, r: Ref)
    requires s in t.nodes && NodeOK(t, s) && Null !in t.nodes && r !in t.nodes && half < |t.nodes[s].keys|
    ensures s !in t.nodes[s].kids[half+1..] && (r != Null ==> r !in t.nodes[s].kids[half+1..])
    ensures t.nodes[s].level == 0 ==> forall k :: 0 <= k < |t.nodes[s].kids| ==> t.nodes[s].kids[k] == Null
  {
    var v := t.nodes[s];
    if v.level > 0 {
      forall x | x in v.kids[half+1..] ensures x in t.nodes && x != s { ParentOf(t, s, x); }
    }
  }

  lemma KidsInMemory(nodes: map<Ref, Sept>, half: nat, t: Tree, s: Ref)
    requires Holds(nodes, half, t) && s in t.nodes && NodeOK(t, s)
    ensures HoldsAt(nodes, half, t, s)
    ensures forall k :: 0 <= k < |t.nodes[s].kids| && t.nodes[s].kids[k] != Null ==>
              t.nodes[s].kids[k] in t.nodes && t.nodes[s].kids[k] in nodes
    ensures forall k :: 0 <= k < |t.nodes[s].hs| ==> t.nodes[s].hs[k] in t.hpar
  {
    var v := t.nodes[s];
    assert HoldsAt(nodes, half, t, s);
    forall k | 0 <= k < |v.kids| && v.kids[k] != Null ensures v.kids[k] in t.nodes && v.kids[k] in nodes {
      assert v.level > 0 ==> KidOK(t, s, k);
      assert v.kids[k] in t.nodes ==> HoldsAt(nodes, half, t, v.kids[k]);
    }
    forall k | 0 <= k < |v.hs| ensures v.hs[k] in t.hpar { assert KeyOK(t, s, k); }
  }

  ghost predicate HalvesWritten(half: nat, v: View, lower: Sept, upper: Sept) {
    && |v.keys| == 2 * half + 1 == |v.hs| && |v.kids| == 2 * half + 2
    && Has(lower, half, v.keys[..half], v.hs[..half], v.kids[..half+1]) && lower.parent == v.parent
    && Has(upper, half, v.keys[half+1..], v.hs[half+1..], v.kids[half+1..]) && upper.parent == v.parent
  }

  /** Once the two halves are written and the moved kids point to the new node, memory holds the
      split tree. Here `t1` is `t` with the value already put into `s`. */
  lemma HoldsSplit(nodes: map<Ref, Sept>, half: nat, t: Tree, t1: Tree, s: Ref, r: Ref, lower: Sept, upper: Sept,
                   hp: map<Ref, Ref>)
    requires forall id :: id in t.nodes && id != s ==> HoldsAt(nodes, half, t, id)
    requires CanSplit(t1, s, half, r, hp) && Null !in t.nodes
    requires t1.nodes.Keys == t.nodes.Keys && forall id :: id in t.nodes && id != s ==> t1.nodes[id] == t.nodes[id]
    requires HalvesWritten(half, t1.nodes[s], lower, upper)
    ensures Holds(SetParents(nodes[s := lower][r := upper], upper.children[..half+1], r), half,
                  SplitAt(t1, s, half, r, hp))
  {
    var v := t1.nodes[s];
    var moved := upper.children[..half+1];
    assert moved == v.kids[half+1..];
    var t2 := SplitAt(t1, s, half, r, hp);
    var nodes' := SetParents(nodes[s := lower][r := upper], moved, r);
    SplitMoved(t1, s, half, r);
    forall id | id in t2.nodes ensures HoldsAt(nodes', half, t2, id) {
      if id != s && id != r {
        assert HoldsAt(nodes, half, t, id);
      }
    }
  }

  lemma MemSplit(nodes: map<Ref, Sept>, reserve: Ref, free: seq<Ref>, half: nat, t: Tree,
                 t1: Tree, s: Ref, r: Ref, lower: Sept, upper: Sept, hp: map<Ref, Ref>)
    requires Null !in nodes && Holds(nodes, half, t) && FreeList(nodes, half, reserve, free)
    requires (forall x :: x in free ==> x !in t.nodes && x != r)
    requires CanSplit(t1, s, half, r, hp) && Null !in t.nodes
    requires t1.nodes.Keys == t.nodes.Keys && forall id :: id in t.nodes && id != s ==> t1.nodes[id] == t.nodes[id]
    requires HalvesWritten(half, t1.nodes[s], lower, upper)
    ensures var nodes' := SetParents(nodes[s := lower][r := upper], upper.children[..half+1], r);
            Mem(nodes', hp, reserve, free, half, SplitAt(t1, s, half, r, hp))
  {
    var nodes' := SetParents(nodes[s := lower][r := upper], upper.children[..half+1], r);
    assert forall id :: id in t.nodes ==> HoldsAt(nodes, half, t, id);
    HoldsSplit(nodes, half, t, t1, s, r, lower, upper, hp);
    var moved := upper.children[..half+1];
    assert moved == t1.nodes[s].kids[half+1..];
    forall x | x in free ensures x !in moved {
      if x in moved {
        if t1.nodes[s].level > 0 { ParentOf(t1, s, x); }
      }
    }
    FreeFrame(nodes, nodes', half, reserve, free);
  }

  /** Links of handles that are not in the tree do not matter. */
  lemma StructLinks(t: Tree, h: Ref, x: Ref)
    requires Struct(t, Null) && forall p :: p in t.contents ==> t.contents[p] != h
    ensures Struct(t.(hpar := t.hpar[h := x]), Null)
  {
    var t' := t.(hpar := t.hpar[h := x]);
    forall id | id in t'.nodes ensures NodeOK(t', id) {
      assert NodeOK(t, id);
      forall k | 0 <= k < |t.nodes[id].keys| ensures t.nodes[id].hs[k] != h {
        assert KeyOK(t, id, k);
        var p := t.nodes[id].keys[k];
        assert p in t.contents && t.contents[p] != h;
      }
      if t.nodes[id].level > 0 {
        forall k | 0 <= k < |t.nodes[id].kids| ensures KidFrame(t, t', t.nodes[id].kids[k]) { assert KidOK(t, id, k); }
      }
      NodeFrame(t, t', id);
    }
    forall id | id in t'.nodes ensures UpOK(t', id) { assert UpOK(t, id); }
    forall p | p in t'.contents ensures Stored(t', p) { assert Stored(t, p); StoredFrame(t, t', p); }
  }
}
