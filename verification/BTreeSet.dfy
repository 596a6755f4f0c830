/**
  The sorted set: a B-tree whose nodes come from a reserve that grows with the number of allocated
  handles, so that insertion never has to allocate.
 */
module BTreeSet {
  import opened BTreeModel
  import opened BTreeNode
  import opened BTreeOccupancy
  import opened BTreeMemory
  import opened BTreeInsert
  import opened BTreeRemove

  /** Memory, links and reserve agree with the tree. */
  ghost predicate InStore(half: nat, nodes: map<Ref, Sept>, hpar: map<Ref, Ref>, root: Ref, reserve: Ref,
                          free: seq<Ref>, t: Tree, septs: int) {
    half >= 2 && Mem(nodes, hpar, reserve, free, half, t) && t.root == root && |free| + |t.nodes| == septs
  }

  /** The tree is in order, filled, and no larger than the slots allocated. */
  ghost predicate InOrder(half: nat, t: Tree, alloced: int) {
    Struct(t, Null) && Filled(t, half, Null) && |t.contents| <= alloced
  }

  /** A sound set. */
  ghost predicate Sound(half: nat, nodes: map<Ref, Sept>, hpar: map<Ref, Ref>, root: Ref, reserve: Ref, free: seq<Ref>,
                        t: Tree, alloced: int, septs: int, needed: int, next: int) {
    && InStore(half, nodes, hpar, root, reserve, free, t, septs)
    && Counters(half, alloced, septs, needed, next) && InOrder(half, t, alloced)
  }

  lemma Resize(half: nat, t: Tree, alloced: int, alloced': int)
    requires InOrder(half, t, alloced) && |t.contents| <= alloced'
    ensures InOrder(half, t, alloced')
  {
  }

  /** Slots allocated bound the nodes in use, so the reserve holds what is needed beyond them. */
  lemma SpareNode(half: nat, t: Tree, alloced: int, needed: int, septs: int, spares: int)
    requires Struct(t, Null) && Filled(t, half, Null) && |t.contents| <= alloced < 1 + needed * half && needed >= 0
    requires spares + |t.nodes| == septs
    ensures spares >= septs - needed && (t.root == Null ==> spares == septs)
    ensures alloced > 0 ==> needed > 0
  {
    if t.root != Null {
      NodeBound(t, half);
      Cancel(|t.nodes| - 1, needed, half);
    }
  }

  /** Count one more slot, adding a spare node when one may come to be needed. */
  method GrowReserve(half: nat, nodes: map<Ref, Sept>, ghost hpar: map<Ref, Ref>, ghost root: Ref, reserve: Ref,
                     ghost free: seq<Ref>, ghost t: Tree, alloced: int, septs: int, needed: int, next: int,
                     exhausted: bool, memory: Ref, spare: Sept)
    returns (ok: bool, nodes': map<Ref, Sept>, reserve': Ref, ghost free': seq<Ref>,
             alloced': int, septs': int, needed': int, next': int)
    requires InStore(half, nodes, hpar, root, reserve, free, t, septs) && Counters(half, alloced, septs, needed, next)
    requires memory != Null && memory !in nodes && Sized(spare, half)
    ensures InStore(half, nodes', hpar, root, reserve', free', t, septs')
    ensures Counters(half, alloced', septs', needed', next')
    ensures alloced' == alloced + (if ok then 1 else 0) && (!ok ==> exhausted)
    ensures !ok ==>
              nodes' == nodes && reserve' == reserve && free' == free && septs' == septs && needed' == needed
              && next' == next
  {
    ok, nodes', reserve', free', alloced', septs', needed', next' :=
      true, nodes, reserve, free, alloced + 1, septs, needed, next;
    if alloced' == next' {
      CountersUp(half, alloced', septs, needed, next);
      CountersUp(half, alloced', septs + 1, needed, next);
      needed' := needed' + 1;
      if needed' > septs' {
        if exhausted {
          return false, nodes, reserve, free, alloced, septs, needed, next;
        }
        assert memory !in t.nodes by { assert memory in t.nodes ==> HoldsAt(nodes, half, t, memory); }
        HoldsFrame(nodes, nodes[memory := spare.(parent := reserve)], half, t);
        FreePush(nodes, half, reserve, free, memory, spare.(parent := reserve));
        nodes' := nodes[memory := spare.(parent := reserve)];
        reserve', free', septs' := memory, [memory] + free, septs + 1;
      }
      next' := next' + half;
    }
  }

  /** Count one slot less, deleting a spare node once there are two more than needed. */
  method ShrinkReserve(half: nat, nodes: map<Ref, Sept>, ghost hpar: map<Ref, Ref>, ghost root: Ref, reserve: Ref,
                       ghost free: seq<Ref>, ghost t: Tree, alloced: int, septs: int, needed: int, next: int)
    returns (nodes': map<Ref, Sept>, reserve': Ref, ghost free': seq<Ref>, alloced': int, septs': int, needed': int,
             next': int)
    requires InStore(half, nodes, hpar, root, reserve, free, t, septs) && Counters(half, alloced, septs, needed, next)
    requires InOrder(half, t, alloced) && |t.contents| < alloced
    ensures InStore(half, nodes', hpar, root, reserve', free', t, septs')
    ensures Counters(half, alloced', septs', needed', next') && alloced' == alloced - 1
  {
    nodes', reserve', free', alloced', septs', needed', next' := nodes, reserve, free, alloced - 1, septs, needed, next;
    if alloced' < next' - half {
      CountersDown(half, alloced', septs, needed, next);
      next' := next' - half;
      needed' := needed' - 1;
      if needed' < septs' - 1 {
        SpareNode(half, t, alloced', needed', septs, |free|);
        FreePop(nodes, nodes - {reserve}, half, reserve, free);
        HoldsFrame(nodes, nodes - {reserve}, half, t);
        reserve' := nodes[reserve].parent;
        nodes' := nodes - {reserve};
        septs', free' := septs - 1, free[1..];
      }
    }
  }

  /** Insert a handle; the reserve lasts, because there are no more values than slots. */
  method AddHandle(half: nat, nodes: map<Ref, Sept>, hpar: map<Ref, Ref>, root: Ref, reserve: Ref, ghost free: seq<Ref>,
                   ghost t: Tree, h: Ref, p: int, ghost alloced: int, ghost needed: int, ghost septs: int,
                   ghost next: int)
    returns (inserted: bool, nodes': map<Ref, Sept>, hpar': map<Ref, Ref>, root': Ref, reserve': Ref,
             ghost free': seq<Ref>, ghost t': Tree)
    requires InStore(half, nodes, hpar, root, reserve, free, t, septs) && Counters(half, alloced, septs, needed, next)
    requires InOrder(half, t, alloced) && |t.contents| < alloced
    requires h != Null && h in hpar && forall x :: x in t.contents ==> t.contents[x] != h
    ensures InStore(half, nodes', hpar', root', reserve', free', t', septs) && InOrder(half, t', alloced)
    ensures inserted <==> p !in t.contents
    ensures t'.contents == if inserted then t.contents[p := h] else t.contents
  {
    SpareNode(half, t, alloced, needed, septs, |free|);
    inserted, nodes', hpar', root', reserve', free', t' :=
      InsertHandle(half, nodes, hpar, root, reserve, free, t, h, p, alloced, needed, septs);
  }

  /** Remove a handle. */
  method TakeHandle(half: nat, nodes: map<Ref, Sept>, hpar: map<Ref, Ref>, root: Ref, reserve: Ref,
                    ghost free: seq<Ref>, ghost t: Tree, h: Ref, ghost p: int, ghost alloced: int, ghost septs: int)
    returns (nodes': map<Ref, Sept>, hpar': map<Ref, Ref>, root': Ref, reserve': Ref, ghost free': seq<Ref>,
             ghost t': Tree)
    requires InStore(half, nodes, hpar, root, reserve, free, t, septs) && InOrder(half, t, alloced)
    requires p in t.contents && t.contents[p] == h
    ensures InStore(half, nodes', hpar', root', reserve', free', t', septs) && InOrder(half, t', alloced)
    ensures t'.contents == t.contents - {p}
  {
    nodes', hpar', root', reserve', free', t' := RemoveHandle(half, nodes, hpar, root, reserve, free, t, h, p);
    assert t'.contents.Keys <= t.contents.Keys;
    SubsetSize(t'.contents.Keys, t.contents.Keys);
  }

  class BtreeSet {
    const half: nat                 // N/2
    var nodes: map<Ref, Sept>       // septnode memory, used and spare
    var hpar: map<Ref, Ref>         // the parent link of each handle
    var root: Ref
    var reserve: Ref
    var numAlloced: int
    var numSepts: int
    var numSeptsNeeded: int
    var nextSept: int

    ghost var t: Tree
    ghost var free: seq<Ref>

    ghost predicate Valid()
      reads this
    {
      Sound(half, nodes, hpar, root, reserve, free, t, numAlloced, numSepts, numSeptsNeeded, nextSept)
    }

    constructor (half: nat)
      requires half >= 2
      ensures Valid() && this.half == half && t.contents == map[] && numAlloced == 0
    {
      this.half := half;
      nodes, hpar, root, reserve := map[], map[], Null, Null;
      numAlloced, numSepts, numSeptsNeeded, nextSept := 0, 0, 0, 1;
      t, free := Tree(map[], map[], Null, map[]), [];
    }

    /** A handle comes into being, in no set yet. */
    method InitHandle(h: Ref)
      requires Valid() && forall x :: x in t.contents ==> t.contents[x] != h
      modifies this`hpar, this`t
      ensures Valid() && hpar == old(hpar)[h := Null] && t == old(t).(hpar := hpar)
    {
      hpar := hpar[h := Null];
      StructLinks(t, h, Null);
      ghost var t' := t.(hpar := hpar);
      assert Filled(t', half, Null) by {
        forall id | id in t'.nodes ensures NodeFilled(t', half, id) { assert NodeFilled(t, half, id); }
      }
      assert Holds(nodes, half, t') by {
        forall id | id in t'.nodes ensures HoldsAt(nodes, half, t', id) { assert HoldsAt(nodes, half, t, id); }
      }
      t := t';
    }

    // ---------------------------------------------------------------- slots and spare nodes

    /** Reserve room for one more value. `memory` is the address of a fresh septnode and `spare` its
        uninitialised contents; `exhausted` says that the allocator has none to give. */
    method AllocSlot(exhausted: bool, memory: Ref, spare: Sept) returns (ok: bool)
      requires Valid() && memory != Null && memory !in nodes && Sized(spare, half)
      modifies this`nodes, this`reserve, this`numAlloced, this`numSepts, this`numSeptsNeeded, this`nextSept, this`free
      ensures Valid() && numAlloced == old(numAlloced) + (if ok then 1 else 0)
      ensures !ok ==> exhausted && nodes == old(nodes) && reserve == old(reserve) && free == old(free)
      ensures !ok ==> numSepts == old(numSepts) && numSeptsNeeded == old(numSeptsNeeded) && nextSept == old(nextSept)
    {
      var m, v, a, n, d, x;
      ghost var f;
      ok, m, v, f, a, n, d, x := GrowReserve(half, nodes, hpar, root, reserve, free, t, numAlloced, numSepts,
                                             numSeptsNeeded, nextSept, exhausted, memory, spare);
      Resize(half, t, numAlloced, a);
      assert Sound(half, m, hpar, root, v, f, t, a, n, d, x);
      nodes, reserve, free, numAlloced, numSepts, numSeptsNeeded, nextSept := m, v, f, a, n, d, x;
    }

    /** Give back the room of a value that is not in the set. There is always a spare node to
        delete when one is due. */
    method Deallocate()
      requires Valid() && |t.contents| < numAlloced
      modifies this`nodes, this`reserve, this`numAlloced, this`numSepts, this`numSeptsNeeded, this`nextSept, this`free
      ensures Valid() && numAlloced == old(numAlloced) - 1
    {
      var m, v, a, n, d, x;
      ghost var f;
      m, v, f, a, n, d, x :=
        ShrinkReserve(half, nodes, hpar, root, reserve, free, t, numAlloced, numSepts, numSeptsNeeded, nextSept);
      Resize(half, t, numAlloced, a);
      assert Sound(half, m, hpar, root, v, f, t, a, n, d, x);
      nodes, reserve, free, numAlloced, numSepts, numSeptsNeeded, nextSept := m, v, f, a, n, d, x;
    }

    // ---------------------------------------------------------------- looking up

    /** The handle stored for `p`, or null. */
    method Find(p: int) returns (h: Ref)
      requires Valid()
      ensures h == if p in t.contents then t.contents[p] else Null
      ensures p in t.contents ==> h != Null
    {
      var cur := root;
      if cur != Null { NotMissedAtRoot(t, p); } else { NothingStored(t); }
      while cur != Null
        invariant cur != Null ==> cur in t.nodes && NotMissed(t, cur, p)
        invariant cur == Null ==> p !in t.contents
        decreases if cur == Null then 0 else t.nodes[cur].level + 1
      {
        LeafTest(t, nodes, half, cur);
        ghost var v := t.nodes[cur];
        var n := nodes[cur];
        var i := 0;
        while i < 2 * half && n.hn[i] != Null && n.prio[i] < p
          invariant 0 <= i <= |v.keys|
          invariant forall k :: 0 <= k < i ==> v.keys[k] < p
        {
          i := i + 1;
        }
        if i < 2 * half && n.hn[i] != Null && n.prio[i] == p {
          assert KeyOK(t, cur, i);
          return n.hn[i];
        }
        assert Slot(v.keys, i, p);
        if v.level > 0 {
          NotMissedBelow(t, cur, i, p);
        } else {
          NotMissedInLeaf(t, cur, p);
        }
        cur := n.children[i];
      }
      return Null;
    }

    // ---------------------------------------------------------------- inserting

    /** Insert the handle `h` with value `p`, unless the value is present already. */
    method Insert(h: Ref, p: int) returns (inserted: bool)
      requires Valid() && |t.contents| < numAlloced
      requires h != Null && h in hpar && forall x :: x in t.contents ==> t.contents[x] != h
      modifies this`nodes, this`hpar, this`root, this`reserve, this`t, this`free
      ensures Valid()
      ensures inserted <==> p !in old(t.contents)
      ensures t.contents == if inserted then old(t.contents)[p := h] else old(t.contents)
    {
      var m, l, r, v;
      ghost var f, t';
      inserted, m, l, r, v, f, t' :=
        AddHandle(half, nodes, hpar, root, reserve, free, t, h, p, numAlloced, numSeptsNeeded, numSepts, nextSept);
      assert Sound(half, m, l, r, v, f, t', numAlloced, numSepts, numSeptsNeeded, nextSept);
      nodes, hpar, root, reserve, free, t := m, l, r, v, f, t';
    }

    // ---------------------------------------------------------------- removing

    /** Remove the handle `h`, which carries the value `p`, from the set; the slot stays allocated. */
    method Remove(h: Ref, ghost p: int)
      requires Valid() && p in t.contents && t.contents[p] == h
      modifies this`nodes, this`hpar, this`root, this`reserve, this`t, this`free
      ensures Valid() && t.contents == old(t.contents) - {p}
    {
      var m, l, r, v;
      ghost var f, t';
      m, l, r, v, f, t' := TakeHandle(half, nodes, hpar, root, reserve, free, t, h, p, numAlloced, numSepts);
      assert Sound(half, m, l, r, v, f, t', numAlloced, numSepts, numSeptsNeeded, nextSept);
      nodes, hpar, root, reserve, free, t := m, l, r, v, f, t';
    }
  }

  lemma SubsetSize(a: set<int>, b: set<int>)
    requires a <= b
    ensures |a| <= |b|
  {
    assert b == a + (b - a);
  }
}
