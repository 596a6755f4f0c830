/**
  A priority queue on a heap with fan-out `n`, whose handles know where in the heap they are.
 */
module HeapOrder {
  type Hid = int

  datatype Node = Node(prio: int, hnd: Hid)

  function Parent(n: nat, i: nat): (p: nat)
    requires n > 0 && i > 0
    ensures p < i
  {
    Falls(n, i - 1);
    (i - 1) / n
  }

  lemma Falls(n: nat, k: nat)
    requires n > 0
    ensures k / n <= k
  {
    var q := k / n;
    assert k == q * n + k % n;
    AtLeast(q, n);
  }

  lemma AtLeast(q: nat, n: nat)
    requires n > 0
    ensures q * n >= q
  {
    assert q * n == q + q * (n - 1) && q * (n - 1) >= 0;
  }

  /** The children of `p` are the `n` places from `p * n + 1` on. */
  lemma Children(n: nat, p: nat, i: nat)
    requires n > 0 && i > 0
    ensures Parent(n, i) == p <==> p * n + 1 <= i <= p * n + n
  {
    var q, r := (i - 1) / n, (i - 1) % n;
    assert i - 1 == q * n + r && 0 <= r < n;
    if q < p {
      assert (q + 1) * n <= p * n;
    } else if q > p {
      assert (p + 1) * n <= q * n;
    }
  }

  /** The node does not come before its parent. */
  ghost predicate InOrder(n: nat, v: seq<Node>, i: nat)
    requires n > 0
  {
    0 < i < |v| && v[Parent(n, i)].prio <= v[i].prio
  }

  /** No node comes before its parent, except perhaps the one at `but`. */
  ghost predicate OrderedBut(n: nat, v: seq<Node>, but: int)
    requires n > 0
  {
    forall i: nat {:trigger InOrder(n, v, i)} :: 0 < i < |v| && i != but ==> InOrder(n, v, i)
  }

  ghost predicate Ordered(n: nat, v: seq<Node>)
    requires n > 0
  {
    OrderedBut(n, v, -1)
  }

  lemma {:induction false} RootIsLeast(n: nat, v: seq<Node>, i: nat)
    requires n > 0 && Ordered(n, v) && i < |v|
    ensures v[0].prio <= v[i].prio
  {
    if i > 0 {
      assert InOrder(n, v, i);
      RootIsLeast(n, v, Parent(n, i));
    }
  }

  function Swap(v: seq<Node>, i: nat, j: nat): (r: seq<Node>)
    requires i < |v| && j < |v|
    ensures |r| == |v| && multiset(r) == multiset(v)
  {
    v[i := v[j]][j := v[i]]
  }

  /** Handles and places agree; -1 marks a handle that is not in the heap. */
  ghost predicate Agree(v: seq<Node>, idx: map<Hid, int>) {
    && (forall i :: 0 <= i < |v| ==> v[i].hnd in idx && idx[v[i].hnd] == i)
    && (forall h :: h in idx && idx[h] != -1 ==> 0 <= idx[h] < |v| && v[idx[h]].hnd == h)
  }

  lemma AgreeSwap(v: seq<Node>, idx: map<Hid, int>, i: nat, j: nat)
    requires Agree(v, idx) && i < |v| && j < |v| && i != j
    ensures Agree(Swap(v, i, j), idx[v[j].hnd := i][v[i].hnd := j])
  {
  }

  /** The node is below the parent of `pos` and does not come before it. */
  ghost predicate Below(n: nat, v: seq<Node>, pos: nat, i: nat)
    requires n > 0
  {
    0 < i < |v| && 0 < pos < |v| && Parent(n, i) == pos ==> v[Parent(n, pos)].prio <= v[i].prio
  }

  /** All is in order but for the node at `pos`, which may come before its parent. */
  ghost predicate Rising(n: nat, v: seq<Node>, pos: nat)
    requires n > 0
  {
    pos < |v| && OrderedBut(n, v, pos) && forall i: nat {:trigger Below(n, v, pos, i)} :: Below(n, v, pos, i)
  }

  lemma Rise(n: nat, v: seq<Node>, pos: nat)
    requires n > 0 && Rising(n, v, pos) && pos > 0 && v[pos].prio < v[Parent(n, pos)].prio
    ensures Rising(n, Swap(v, pos, Parent(n, pos)), Parent(n, pos))
  {
    var p, w := Parent(n, pos), Swap(v, pos, Parent(n, pos));
    forall i: nat | 0 < i < |w| && i != p ensures InOrder(n, w, i) {
      assert i != pos ==> InOrder(n, v, i);
      assert Below(n, v, pos, i);
    }
    forall i: nat ensures Below(n, w, p, i) {
      assert 0 < p ==> InOrder(n, v, p);
      assert 0 < i < |v| && i != pos ==> InOrder(n, v, i);
    }
  }

  /** All is in order but for the node at `pos` and its children; those do not come before its parent. */
  ghost predicate Sinking(n: nat, v: seq<Node>, pos: nat)
    requires n > 0
  {
    && pos < |v|
    && (forall i: nat {:trigger InOrder(n, v, i)} :: 0 < i < |v| && i != pos && Parent(n, i) != pos ==>
          InOrder(n, v, i))
    && (forall i: nat {:trigger Below(n, v, pos, i)} :: Below(n, v, pos, i))
  }

  /** The node at `pos` does not come before its parent. */
  ghost predicate Fits(n: nat, v: seq<Node>, pos: nat)
    requires n > 0
  {
    pos < |v| && (pos > 0 ==> InOrder(n, v, pos))
  }

  /** The child of `pos` does not come before `p`. */
  ghost predicate After(n: nat, v: seq<Node>, pos: nat, i: nat, p: int)
    requires n > 0
  {
    0 < i < |v| && Parent(n, i) == pos ==> p <= v[i].prio
  }

  /** The least child of `pos`. */
  ghost predicate LeastChild(n: nat, v: seq<Node>, pos: nat, c: nat)
    requires n > 0
  {
    0 < c < |v| && Parent(n, c) == pos
    && forall i: nat {:trigger After(n, v, pos, i, v[c].prio)} :: After(n, v, pos, i, v[c].prio)
  }

  lemma Sink(n: nat, v: seq<Node>, pos: nat, c: nat)
    requires n > 0 && Sinking(n, v, pos) && LeastChild(n, v, pos, c) && v[c].prio < v[pos].prio
    ensures Fits(n, v, pos) && Sinking(n, Swap(v, pos, c), c) && Fits(n, Swap(v, pos, c), c)
  {
    var w := Swap(v, pos, c);
    assert Below(n, v, pos, c);
    forall i: nat | 0 < i < |w| && i != c && Parent(n, i) != c ensures InOrder(n, w, i) {
      assert i != pos && Parent(n, i) != pos ==> InOrder(n, v, i);
      assert After(n, v, pos, i, v[c].prio) && Below(n, v, pos, i);
    }
    forall i: nat ensures Below(n, w, c, i) {
      assert 0 < i < |v| && Parent(n, i) == c ==> InOrder(n, v, i);
    }
  }

  lemma Settled(n: nat, v: seq<Node>, pos: nat)
    requires n > 0 && Sinking(n, v, pos)
             && forall i: nat {:trigger After(n, v, pos, i, v[pos].prio)} :: After(n, v, pos, i, v[pos].prio)
    ensures Ordered(n, v) <==> Fits(n, v, pos)
  {
    if Fits(n, v, pos) {
      forall i: nat | 0 < i < |v| ensures InOrder(n, v, i) { assert After(n, v, pos, i, v[pos].prio); }
    } else {
      assert !InOrder(n, v, pos);
    }
  }
}

module DaryHeap {
  import opened HeapOrder

  /** The vector and where the handles are, while one node has been taken out and its place is free. */
  datatype Heap = Heap(hvec: seq<Node>, index: map<Hid, int>)

  /** The heap with the node put back at `pos`. */
  ghost function Filled(h: Heap, pos: nat, x: Node): Heap
    requires pos < |h.hvec|
  {
    Heap(h.hvec[pos := x], h.index[x.hnd := pos])
  }

  function Put(h: Heap, pos: nat, x: Node): (r: Heap)
    requires pos < |h.hvec|
    ensures r == Filled(h, pos, x)
  {
    Heap(h.hvec[pos := x], h.index[x.hnd := pos])
  }

  /** Move the node at `from` to the free place `to`, which frees its own. */
  lemma Shift(h: Heap, to: nat, from: nat, x: Node)
    requires to < |h.hvec| && from < |h.hvec| && to != from && Agree(Filled(h, to, x).hvec, Filled(h, to, x).index)
    ensures var h' := Put(h, to, h.hvec[from]);
            && Filled(h', from, x).hvec == Swap(Filled(h, to, x).hvec, to, from)
            && Agree(Filled(h', from, x).hvec, Filled(h', from, x).index)
  {
    var v, idx := Filled(h, to, x).hvec, Filled(h, to, x).index;
    AgreeSwap(v, idx, to, from);
    var h' := Put(h, to, h.hvec[from]);
    assert v[from] == h.hvec[from] && v[to] == x;
    assert Filled(h', from, x).index == idx[v[from].hnd := to][v[to].hnd := from];
  }

  /** All is well but for the free place at `pos`, once `x` is put there and moved towards the root. `ord` tells whether
      the order of the nodes can be relied on. */
  ghost predicate Hole(n: nat, h: Heap, pos: nat, x: Node, ord: bool) {
    && n > 0 && pos < |h.hvec| && Agree(Filled(h, pos, x).hvec, Filled(h, pos, x).index)
    && (ord ==> Rising(n, Filled(h, pos, x).hvec, pos))
  }

  lemma RiseStep(n: nat, h: Heap, pos: nat, x: Node, ord: bool)
    requires Hole(n, h, pos, x, ord) && pos > 0 && x.prio < h.hvec[Parent(n, pos)].prio
    ensures var p := Parent(n, pos); var h' := Put(h, pos, h.hvec[p]);
            Hole(n, h', p, x, ord) && multiset(Filled(h', p, x).hvec) == multiset(Filled(h, pos, x).hvec)
            && h'.index.Keys == h.index.Keys
  {
    var p := Parent(n, pos);
    if ord {
      Rise(n, Filled(h, pos, x).hvec, pos);
    }
    Shift(h, pos, p, x);
    assert Filled(h, pos, x).hvec[p].hnd in Filled(h, pos, x).index;
    assert h.hvec[p].hnd != x.hnd by { assert Filled(h, pos, x).index[h.hvec[p].hnd] == p; }
  }

  /** Move a node towards the root until its parent does not come after it. Returns whether it is the root now. */
  method BubbleDown(n: nat, h: Heap, at: nat, x: Node, ghost ord: bool) returns (h': Heap, root: bool, ghost pos: nat)
    requires Hole(n, h, at, x, ord)
    ensures (ord ==> Ordered(n, h'.hvec)) && Agree(h'.hvec, h'.index)
            && multiset(h'.hvec) == multiset(Filled(h, at, x).hvec)
    ensures |h'.hvec| == |h.hvec| && h'.index.Keys == h.index.Keys + {x.hnd}
    ensures pos < |h'.hvec| && h'.hvec[pos] == x && (root <==> pos == 0)
  {
    h' := h;
    var p: nat := at;
    while p > 0
      invariant |h'.hvec| == |h.hvec| && h'.index.Keys == h.index.Keys && Hole(n, h', p, x, ord)
      invariant multiset(Filled(h', p, x).hvec) == multiset(Filled(h, at, x).hvec)
    {
      var parent := (p - 1) / n;
      assert parent == Parent(n, p);
      if !(x.prio < h'.hvec[parent].prio) {
        break;
      }
      RiseStep(n, h', p, x, ord);
      h' := Put(h', p, h'.hvec[parent]);
      p := parent;
    }
    h' := Put(h', p, x);
    pos := p;
    root := p == 0;
  }

  /** The least child of `pos`, of the nodes before `end`. */
  method SelectChild(n: nat, v: seq<Node>, pos: nat, end: nat) returns (c: nat)
    requires n > 0 && pos * n + 1 < end <= |v|
    ensures LeastChild(n, v[..end], pos, c)
  {
    var lchild := pos * n + 1;
    c := lchild;
    var rchild := if lchild + n < end then lchild + n else end;
    var i := lchild + 1;
    while i < rchild
      invariant lchild < i && (i <= rchild || i == lchild + 1) && lchild <= c < end && c < lchild + n
      invariant forall k :: lchild <= k < i && k < rchild ==> v[c].prio <= v[k].prio
    {
      if v[i].prio < v[c].prio {
        c := i;
      }
      i := i + 1;
    }
    Children(n, pos, c);
    forall k: nat ensures After(n, v[..end], pos, k, v[..end][c].prio) {
      if 0 < k < end { Children(n, pos, k); }
    }
  }

  /** The heap without its last node. */
  function Cut(h: Heap): Heap
    requires h.hvec != []
  {
    Heap(h.hvec[..|h.hvec|-1], h.index)
  }

  /** All is well but for the free place at `pos`, once `x` is put there and moved towards the leaves. */
  ghost predicate Low(n: nat, h: Heap, pos: nat, x: Node, ord: bool) {
    && n > 0 && pos < |h.hvec| && Agree(Filled(h, pos, x).hvec, Filled(h, pos, x).index)
    && (ord ==> Sinking(n, Filled(h, pos, x).hvec, pos))
  }

  lemma SinkStep(n: nat, h: Heap, pos: nat, c: nat, x: Node, ord: bool)
    requires Low(n, h, pos, x, ord) && LeastChild(n, h.hvec, pos, c) && h.hvec[c].prio < x.prio
    ensures var h' := Put(h, pos, h.hvec[c]);
            && Low(n, h', c, x, ord)
            && (ord ==> Fits(n, Filled(h, pos, x).hvec, pos) && Fits(n, Filled(h', c, x).hvec, c))
            && multiset(Filled(h', c, x).hvec) == multiset(Filled(h, pos, x).hvec) && h'.index.Keys == h.index.Keys
  {
    var v := Filled(h, pos, x).hvec;
    forall i: nat ensures After(n, v, pos, i, v[c].prio) { assert After(n, h.hvec, pos, i, h.hvec[c].prio); }
    if ord {
      Sink(n, v, pos, c);
    }
    Shift(h, pos, c, x);
    assert h.hvec[c].hnd != x.hnd by { assert Filled(h, pos, x).index[v[c].hnd] == c; }
  }

  /** No child comes before the node. */
  lemma SinkDone(n: nat, h: Heap, pos: nat, x: Node)
    requires Low(n, h, pos, x, true)
             && forall i: nat {:trigger After(n, h.hvec, pos, i, x.prio)} :: After(n, h.hvec, pos, i, x.prio)
    ensures Ordered(n, Filled(h, pos, x).hvec) <==> Fits(n, Filled(h, pos, x).hvec, pos)
  {
    var v := Filled(h, pos, x).hvec;
    forall i: nat ensures After(n, v, pos, i, v[pos].prio) { assert After(n, h.hvec, pos, i, x.prio); }
    Settled(n, v, pos);
  }

  /** No child of `pos`, among the nodes before the last, comes before `x`. */
  ghost predicate Rests(n: nat, v: seq<Node>, pos: nat, x: Node) {
    n > 0 && v != []
    && forall i: nat {:trigger After(n, v[..|v|-1], pos, i, x.prio)} :: After(n, v[..|v|-1], pos, i, x.prio)
  }

  /** `c` is the least child of `pos`, among the nodes before the last, and comes before `x`. */
  ghost predicate Yields(n: nat, v: seq<Node>, pos: nat, c: nat, x: Node) {
    n > 0 && v != [] && pos < c < |v| - 1 && LeastChild(n, v[..|v|-1], pos, c) && v[c].prio < x.prio
  }

  /** Find a child of the free place that has to move up into it, if there is one. */
  method NextChild(n: nat, v: seq<Node>, pos: nat, x: Node) returns (stop: bool, c: nat)
    requires n > 0 && |v| >= 2 && pos < |v| - 1 && x == v[|v|-1]
    ensures if stop then Rests(n, v, pos, x) else Yields(n, v, pos, c, x)
  {
    var rmax := |v| - 1;
    c := 0;
    HasChild(n, pos, rmax);
    if pos > (rmax - 1) / n || pos * n + 1 == rmax {
      NoChildren(n, pos, rmax);
      return true, 0;
    }
    c := SelectChild(n, v, pos, rmax);
    stop := !(v[c].prio < x.prio);
    if stop {
      forall i: nat ensures After(n, v[..rmax], pos, i, x.prio) {
        assert After(n, v[..rmax], pos, i, v[..rmax][c].prio);
      }
    }
  }

  ghost predicate Moving(n: nat, h: Heap, pos: nat, x: Node, h': Heap, pos': nat, ord: bool) {
    && |h'.hvec| == |h.hvec| >= 2 && h'.hvec[|h.hvec|-1] == x && h'.index.Keys == h.index.Keys && pos < |h.hvec| - 1
    && Low(n, Cut(h'), pos', x, ord)
    && multiset(Filled(Cut(h'), pos', x).hvec) == multiset(Filled(Cut(h), pos, x).hvec)
    && (ord ==> (Fits(n, Filled(Cut(h'), pos', x).hvec, pos') <==> Fits(n, Filled(Cut(h), pos, x).hvec, pos)))
  }

  lemma MovingOn(n: nat, h: Heap, at: nat, x: Node, h': Heap, pos: nat, c: nat, ord: bool)
    requires Moving(n, h, at, x, h', pos, ord) && Yields(n, h'.hvec, pos, c, x)
    ensures Moving(n, h, at, x, Put(h', pos, h'.hvec[c]), c, ord)
  {
    SinkStep(n, Cut(h'), pos, c, x, ord);
    assert Cut(Put(h', pos, h'.hvec[c])) == Put(Cut(h'), pos, h'.hvec[c]);
  }

  lemma MovingDone(n: nat, h: Heap, at: nat, x: Node, h': Heap, pos: nat, ord: bool)
    requires Moving(n, h, at, x, h', pos, ord) && Rests(n, h'.hvec, pos, x)
    ensures var r := Put(h', pos, x); var v := Filled(Cut(h), at, x).hvec;
            && Agree(Cut(r).hvec, r.index) && multiset(Cut(r).hvec) == multiset(v)
            && (ord ==> (Ordered(n, Cut(r).hvec) <==> Fits(n, v, at)))
  {
    if ord {
      forall i: nat ensures After(n, Cut(h').hvec, pos, i, x.prio) {
        assert After(n, h'.hvec[..|h'.hvec|-1], pos, i, x.prio);
      }
      SinkDone(n, Cut(h'), pos, x);
    }
    assert Cut(Put(h', pos, x)) == Filled(Cut(h'), pos, x);
  }

  /** Move the node towards the leaves until no child comes before it. */
  method SinkDown(n: nat, h: Heap, at: nat, x: Node, ghost ord: bool) returns (h': Heap, pos: nat)
    requires |h.hvec| >= 2 && x == h.hvec[|h.hvec|-1] && Low(n, Cut(h), at, x, ord)
    ensures Moving(n, h, at, x, h', pos, ord) && Rests(n, h'.hvec, pos, x)
  {
    h', pos := h, at;
    var stop, c := NextChild(n, h'.hvec, pos, x);
    while !stop
      invariant Moving(n, h, at, x, h', pos, ord)
      invariant if stop then Rests(n, h'.hvec, pos, x) else Yields(n, h'.hvec, pos, c, x)
      decreases |h.hvec| - pos, if stop then 0 else 1
    {
      MovingOn(n, h, at, x, h', pos, c, ord);
      h' := Put(h', pos, h'.hvec[c]);
      pos := c;
      stop, c := NextChild(n, h'.hvec, pos, x);
    }
  }

  /** Move the last node to the free place `at` and from there towards the leaves. The rest is in order again exactly if
      the node does not come before the parent of that place. */
  method BubbleUp(n: nat, h: Heap, at: nat, ghost v: seq<Node>, ghost ord: bool) returns (h': Heap)
    requires |h.hvec| >= 2 && Low(n, Cut(h), at, h.hvec[|h.hvec|-1], ord)
             && v == Filled(Cut(h), at, h.hvec[|h.hvec|-1]).hvec
    ensures |h'.hvec| == |h.hvec| && h'.index.Keys == h.index.Keys + {h.hvec[|h.hvec|-1].hnd}
    ensures Agree(Cut(h').hvec, h'.index) && multiset(Cut(h').hvec) == multiset(v)
    ensures ord ==> (Ordered(n, Cut(h').hvec) <==> Fits(n, v, at))
  {
    var x := h.hvec[|h.hvec|-1];
    var pos;
    h', pos := SinkDown(n, h, at, x, ord);
    MovingDone(n, h, at, x, h', pos, ord);
    h' := Put(h', pos, x);
  }

  lemma HasChild(n: nat, pos: nat, rmax: nat)
    requires n > 0 && rmax > 0
    ensures pos <= (rmax - 1) / n <==> pos * n + 1 <= rmax
  {
    var q := (rmax - 1) / n;
    assert rmax - 1 == q * n + (rmax - 1) % n;
    if pos <= q { assert pos * n <= q * n; } else { assert pos * n >= (q + 1) * n; }
  }

  lemma NoChildren(n: nat, pos: nat, rmax: nat)
    requires n > 0 && pos * n + 1 >= rmax
    ensures forall i :: 0 < i < rmax ==> Parent(n, i) != pos
  {
    forall i | 0 < i < rmax ensures Parent(n, i) != pos { Children(n, pos, i); }
  }

  // ---------------------------------------------------------------- the operations

  /** Where the last node may go without coming before its new parent. */
  ghost predicate Safe(n: nat, v: seq<Node>, i: nat)
    requires n > 0 && i < |v|
  {
    i == 0 || i == |v| - 1 || v[Parent(n, i)].prio <= v[|v|-1].prio
  }

  /** The vector without its last node, which takes the place `i`. */
  function Replaced(v: seq<Node>, i: nat): (r: seq<Node>)
    requires i < |v| - 1
    ensures |r| == |v| - 1
  {
    v[..|v|-1][i := v[|v|-1]]
  }

  lemma ReplacedMultiset(v: seq<Node>, i: nat)
    requires i < |v| - 1
    ensures multiset(Replaced(v, i)) == multiset(v) - multiset{v[i]}
  {
    var m := |v| - 1;
    assert v == v[..i] + [v[i]] + v[i+1..m] + [v[m]];
    assert Replaced(v, i) == v[..i] + [v[m]] + v[i+1..m];
  }

  lemma ReplacedAgree(v: seq<Node>, idx: map<Hid, int>, i: nat)
    requires i < |v| - 1 && Agree(v, idx)
    ensures Agree(Replaced(v, i), idx[v[i].hnd := -1][v[|v|-1].hnd := i])
  {
    var m, r, idx' := |v| - 1, Replaced(v, i), idx[v[i].hnd := -1][v[|v|-1].hnd := i];
    assert idx[v[i].hnd] == i && idx[v[m].hnd] == m;
    forall j | 0 <= j < |r| ensures r[j].hnd in idx' && idx'[r[j].hnd] == j { assert idx[v[j].hnd] == j; }
  }

  lemma ReplacedSinks(n: nat, v: seq<Node>, i: nat)
    requires n > 0 && i < |v| - 1 && Ordered(n, v)
    ensures Sinking(n, Replaced(v, i), i) && (Fits(n, Replaced(v, i), i) <==> Safe(n, v, i))
  {
    var r := Replaced(v, i);
    forall j: nat | 0 < j < |r| && j != i && Parent(n, j) != i ensures InOrder(n, r, j) { assert InOrder(n, v, j); }
    forall j: nat ensures Below(n, r, i, j) {
      assert 0 < i ==> InOrder(n, v, i);
      assert 0 < j < |v| ==> InOrder(n, v, j);
    }
  }

  /** The heap with a place whose node has left it. */
  function Vacated(h: Heap, i: nat): Heap
    requires i < |h.hvec|
  {
    Heap(h.hvec, h.index[h.hvec[i].hnd := -1])
  }

  lemma Refilled(h: Heap, i: nat)
    requires i < |h.hvec| - 1
    ensures var x := h.hvec[|h.hvec|-1];
            Filled(Cut(Vacated(h, i)), i, x) == Heap(Replaced(h.hvec, i), h.index[h.hvec[i].hnd := -1][x.hnd := i])
  {
  }

  lemma LastToHole(n: nat, h: Heap, i: nat)
    requires n > 0 && i < |h.hvec| - 1 && Agree(h.hvec, h.index)
    ensures var x := h.hvec[|h.hvec|-1];
            Low(n, Cut(Vacated(h, i)), i, x, Ordered(n, h.hvec))
            && Filled(Cut(Vacated(h, i)), i, x).hvec == Replaced(h.hvec, i)
  {
    Refilled(h, i);
    ReplacedAgree(h.hvec, h.index, i);
    if Ordered(n, h.hvec) {
      ReplacedSinks(n, h.hvec, i);
    }
  }

  lemma LastGone(n: nat, h: Heap)
    requires n > 0 && h.hvec != [] && Agree(h.hvec, h.index)
    ensures var m := |h.hvec| - 1; var r := Heap(h.hvec[..m], h.index[h.hvec[m].hnd := -1]);
            && Agree(r.hvec, r.index) && multiset(r.hvec) == multiset(h.hvec) - multiset{h.hvec[m]}
            && (Ordered(n, h.hvec) ==> Ordered(n, r.hvec))
  {
    var v, m := h.hvec, |h.hvec| - 1;
    assert v == v[..m] + [v[m]];
    if Ordered(n, v) {
      forall j: nat | 0 < j < m ensures InOrder(n, v[..m], j) { assert InOrder(n, v, j); }
    }
  }

  lemma OnlyOnce(v: seq<Node>, idx: map<Hid, int>, i: nat)
    requires Agree(v, idx) && i < |v|
    ensures multiset(v)[v[i]] == 1
  {
    assert v == v[..i] + [v[i]] + v[i+1..];
    forall j | 0 <= j < |v| && j != i ensures v[j] != v[i] { assert idx[v[j].hnd] == j && idx[v[i].hnd] == i; }
    assert v[i] !in v[..i] && v[i] !in v[i+1..];
  }

  /** The handle of a node that was taken out is marked so. */
  lemma MarkedOut(h: Heap, h': Heap, i: nat)
    requires Agree(h.hvec, h.index) && Agree(h'.hvec, h'.index) && i < |h.hvec| && h.hvec[i].hnd in h'.index
    requires multiset(h'.hvec) == multiset(h.hvec) - multiset{h.hvec[i]}
    ensures h'.index[h.hvec[i].hnd] == -1
  {
    var x := h.hvec[i];
    OnlyOnce(h.hvec, h.index, i);
    assert x !in multiset(h'.hvec);
    forall k | 0 <= k < |h'.hvec| ensures h'.hvec[k].hnd != x.hnd {
      assert h'.hvec[k] in multiset(h'.hvec);
      assert h'.hvec[k] in multiset(h.hvec) && h'.hvec[k] in h.hvec;
      var j :| 0 <= j < |h.hvec| && h.hvec[j] == h'.hvec[k];
      assert h.index[h.hvec[j].hnd] == j && h.index[x.hnd] == i;
    }
  }

  /** Take out the node at a place. The handles stay right; the order is kept exactly if the last node may take that
      place. */
  method RemoveAt(n: nat, h: Heap, i: nat) returns (h': Heap)
    requires n > 0 && i < |h.hvec| && Agree(h.hvec, h.index)
    ensures Agree(h'.hvec, h'.index) && multiset(h'.hvec) == multiset(h.hvec) - multiset{h.hvec[i]}
            && |h'.hvec| == |h.hvec| - 1
    ensures h'.index.Keys == h.index.Keys && h'.index[h.hvec[i].hnd] == -1
    ensures Ordered(n, h.hvec) ==> (Ordered(n, h'.hvec) <==> Safe(n, h.hvec, i))
  {
    if |h.hvec| != i + 1 {
      h' := RemoveInner(n, h, i);
    } else {
      LastGone(n, h);
      h' := Cut(Heap(h.hvec, h.index[h.hvec[i].hnd := -1]));
    }
    MarkedOut(h, h', i);
  }

  method RemoveInner(n: nat, h: Heap, i: nat) returns (h': Heap)
    requires n > 0 && i < |h.hvec| - 1 && Agree(h.hvec, h.index)
    ensures Agree(h'.hvec, h'.index) && multiset(h'.hvec) == multiset(h.hvec) - multiset{h.hvec[i]}
            && |h'.hvec| == |h.hvec| - 1
    ensures h'.index.Keys == h.index.Keys
    ensures Ordered(n, h.hvec) ==> (Ordered(n, h'.hvec) <==> Safe(n, h.hvec, i))
  {
    ReplacedMultiset(h.hvec, i);
    if Ordered(n, h.hvec) {
      ReplacedSinks(n, h.hvec, i);
    }
    h' := MoveLast(n, h, i);
  }

  /** The last node moves to the place that is vacant, and from there towards the leaves. */
  method MoveLast(n: nat, h: Heap, i: nat) returns (h': Heap)
    requires n > 0 && i < |h.hvec| - 1 && Agree(h.hvec, h.index)
    ensures Agree(h'.hvec, h'.index) && multiset(h'.hvec) == multiset(Replaced(h.hvec, i)) && |h'.hvec| == |h.hvec| - 1
    ensures h'.index.Keys == h.index.Keys
    ensures Ordered(n, h.hvec) ==> (Ordered(n, h'.hvec) <==> Fits(n, Replaced(h.hvec, i), i))
  {
    LastToHole(n, h, i);
    assert h.hvec[|h.hvec|-1].hnd in h.index && h.hvec[i].hnd in h.index;
    h' := BubbleUp(n, Vacated(h, i), i, Replaced(h.hvec, i), Ordered(n, h.hvec));
    h' := Cut(h');
  }

  /** A new place at the end, for a node that moves from there towards the root. */
  lemma RoomAtEnd(n: nat, h: Heap, x: Node)
    requires n > 0 && Agree(h.hvec, h.index) && (x.hnd in h.index ==> h.index[x.hnd] == -1)
    ensures var h1 := Heap(h.hvec + [x], h.index);
            Hole(n, h1, |h.hvec|, x, Ordered(n, h.hvec))
            && multiset(Filled(h1, |h.hvec|, x).hvec) == multiset(h.hvec) + multiset{x}
  {
    var v, w := h.hvec, h.hvec + [x];
    assert w[|v| := x] == w;
    if Ordered(n, v) {
      forall i: nat | 0 < i < |w| && i != |v| ensures InOrder(n, w, i) { assert InOrder(n, v, i); }
      forall i: nat ensures Below(n, w, |v|, i) { }
    }
  }

  lemma LeastFirst(n: nat, v: seq<Node>)
    requires n > 0 && v != [] && Ordered(n, v)
    ensures forall y :: y in v ==> v[0].prio <= y.prio
  {
    forall y | y in v ensures v[0].prio <= y.prio {
      var k :| 0 <= k < |v| && v[k] == y;
      RootIsLeast(n, v, k);
    }
  }

  lemma OnlyFewer(v: seq<Node>, w: seq<Node>, x: Node)
    requires multiset(w) == multiset(v) - multiset{x}
    ensures forall y :: y in w ==> y in v
  {
    forall y | y in w ensures y in v { assert y in multiset(w); }
  }

  ghost predicate Sorted(out: seq<Node>) {
    forall i, j :: 0 <= i < j < |out| ==> out[i].prio <= out[j].prio
  }

  /** Nothing that was pulled comes after what is left. */
  ghost predicate NoneLater(out: seq<Node>, v: seq<Node>) {
    forall y, x :: y in out && x in v ==> y.prio <= x.prio
  }

  lemma PulledNext(out: seq<Node>, v: seq<Node>, w: seq<Node>)
    requires Sorted(out) && NoneLater(out, v) && v != [] && (forall y :: y in v ==> v[0].prio <= y.prio)
             && forall y :: y in w ==> y in v
    ensures Sorted(out + [v[0]]) && NoneLater(out + [v[0]], w)
  {
    var out' := out + [v[0]];
    forall i, j | 0 <= i < j < |out'| ensures out'[i].prio <= out'[j].prio {
      assert j == |out| ==> out[i] in out && v[0] in v;
    }
  }

  class DaryHeap {
    const n: nat
    var h: Heap

    ghost predicate Valid()
      reads this
    {
      n > 0 && Agree(h.hvec, h.index)
    }

    ghost predicate IsOrdered()
      requires Valid()
      reads this
    {
      Ordered(n, h.hvec)
    }

    constructor (n: nat)
      requires n > 0
      ensures Valid() && IsOrdered() && h == Heap([], map[]) && this.n == n
    {
      this.n := n;
      h := Heap([], map[]);
    }

    /** Add a node. Returns whether it is the root now. */
    method Insert(hnd: Hid, prio: int) returns (root: bool)
      requires Valid() && (hnd in h.index ==> h.index[hnd] == -1)
      modifies this
      ensures Valid() && (old(IsOrdered()) ==> IsOrdered())
      ensures multiset(h.hvec) == multiset(old(h.hvec)) + multiset{Node(prio, hnd)}
              && h.index.Keys == old(h.index.Keys) + {hnd}
      ensures h.hvec != [] && (root <==> h.hvec[0] == Node(prio, hnd))
    {
      var x := Node(prio, hnd);
      RoomAtEnd(n, h, x);
      ghost var pos;
      h, root, pos := BubbleDown(n, Heap(h.hvec + [x], h.index), |h.hvec|, x, Ordered(n, h.hvec));
      assert h.index[h.hvec[pos].hnd] == pos && h.index[h.hvec[0].hnd] == 0;
    }

    /** Take out the root, which comes before everything else if the heap is in order. */
    method PullRoot()
      requires Valid() && h.hvec != []
      modifies this
      ensures Valid() && (old(IsOrdered()) ==> IsOrdered()) && |h.hvec| == |old(h.hvec)| - 1
      ensures multiset(h.hvec) == multiset(old(h.hvec)) - multiset{old(h.hvec)[0]}
    {
      h := RemoveAt(n, h, 0);
    }

    /** Take out any node. */
    method Remove(hnd: Hid)
      requires Valid() && hnd in h.index && h.index[hnd] != -1
      modifies this
      ensures Valid() && h.index.Keys == old(h.index.Keys) && h.index[hnd] == -1
      ensures var i := old(h.index)[hnd];
              && multiset(h.hvec) == multiset(old(h.hvec)) - multiset{old(h.hvec)[i]}
              && (old(IsOrdered()) ==> (IsOrdered() <==> Safe(n, old(h.hvec), i)))
    {
      h := RemoveAt(n, h, h.index[hnd]);
    }

    /** Pull until nothing is left: the priorities come out in order. */
    method Drain() returns (out: seq<Node>)
      requires Valid() && IsOrdered()
      modifies this
      ensures Valid() && h.hvec == [] && multiset(out) == multiset(old(h.hvec))
      ensures Sorted(out)
    {
      out := [];
      while h.hvec != []
        invariant Valid() && IsOrdered() && multiset(out) + multiset(h.hvec) == multiset(old(h.hvec))
        invariant Sorted(out) && NoneLater(out, h.hvec)
        decreases |h.hvec|
      {
        var x := h.hvec[0];
        ghost var was := h.hvec;
        LeastFirst(n, was);
        PullRoot();
        OnlyFewer(was, h.hvec, x);
        PulledNext(out, was, h.hvec);
        out := out + [x];
      }
    }
  }

  /** In an ordered heap, taking out an arbitrary node can break the order: the last node has another branch behind
      it. */
  lemma RemoveCanBreakOrder()
    ensures exists v: seq<Node>, idx: map<Hid, int>, i: nat ::
              Agree(v, idx) && i < |v| && Ordered(2, v) && !Safe(2, v, i)
  {
    var p := [0, 10, 1, 11, 12, 2, 3];
    var v := seq(7, k requires 0 <= k < 7 => Node(p[k], k));
    var idx := map[0 := 0, 1 := 1, 2 := 2, 3 := 3, 4 := 4, 5 := 5, 6 := 6];
    assert Agree(v, idx);
    forall i: nat | 0 < i < 7 ensures InOrder(2, v, i) { assert v[(i - 1) / 2].prio == p[(i - 1) / 2]; }
    assert Parent(2, 3) == 1;
    assert !Safe(2, v, 3);
  }
}
