/** Dependency graphs: paths, reachability and cycles. */
module Graphs {
  type Node = int

  /** What each service depends on. A name that is not in the graph belongs to a service that could not be loaded. */
  type Graph = map<Node, seq<Node>>

  ghost predicate Closed(g: Graph) {
    forall x, y :: x in g && y in g[x] ==> y in g
  }

  predicate Edge(g: Graph, x: Node, y: Node) {
    x in g && y in g && y in g[x]
  }

  /** A walk along dependencies. */
  ghost predicate Path(g: Graph, p: seq<Node>) {
    p != [] && forall i :: 0 <= i < |p| - 1 ==> Edge(g, p[i], p[i+1])
  }

  ghost predicate Reaches(g: Graph, a: Node, b: Node) {
    exists p :: Path(g, p) && p[0] == a && p[|p|-1] == b
  }

  /** A walk that returns to where it began. */
  ghost predicate Cycle(g: Graph, p: seq<Node>) {
    Path(g, p) && Edge(g, p[|p|-1], p[0])
  }

  ghost predicate Acyclic(g: Graph) {
    forall p :: !Cycle(g, p)
  }

  lemma ReachesSelf(g: Graph, a: Node)
    ensures Reaches(g, a, a)
  {
    assert Path(g, [a]);
  }

  lemma ReachesEdge(g: Graph, a: Node, b: Node, c: Node)
    requires Reaches(g, a, b) && Edge(g, b, c)
    ensures Reaches(g, a, c)
  {
    var p :| Path(g, p) && p[0] == a && p[|p|-1] == b;
    assert Path(g, p + [c]);
  }

  /** A set that no dependency leaves cannot be left by a path. */
  lemma {:induction false} StaysInside(g: Graph, inside: set<Node>, p: seq<Node>)
    requires Path(g, p) && p[0] in inside && forall x, y :: x in inside && Edge(g, x, y) ==> y in inside
    ensures p[|p|-1] in inside
  {
    if |p| > 1 {
      assert Edge(g, p[0], p[0+1]);
      assert Path(g, p[1..]) by {
        forall i | 0 <= i < |p[1..]| - 1 ensures Edge(g, p[1..][i], p[1..][i+1]) { assert Edge(g, p[i+1], p[i+1+1]); }
      }
      StaysInside(g, inside, p[1..]);
    }
  }

  /** The graph with one more dependency. */
  function WithEdge(g: Graph, from: Node, to: Node): Graph
    requires from in g
  {
    g[from := g[from] + [to]]
  }

  lemma EdgeAdded(g: Graph, from: Node, to: Node, x: Node, y: Node)
    requires from in g && to in g
    ensures Edge(WithEdge(g, from, to), x, y) <==> Edge(g, x, y) || (x == from && y == to)
  {
  }

  /** A path in the larger graph either is one in the smaller, or reaches `from` there. */
  lemma {:induction false} PathBefore(g: Graph, from: Node, to: Node, p: seq<Node>)
    requires from in g && to in g && Path(WithEdge(g, from, to), p)
    ensures Path(g, p) || Reaches(g, p[0], from)
  {
    var n := |p| - 1;
    if n == 0 {
    } else {
      var q, g' := p[..n], WithEdge(g, from, to);
      assert Path(g', q) by {
        forall i | 0 <= i < |q| - 1 ensures Edge(g', q[i], q[i+1]) { assert Edge(g', p[i], p[i+1]); }
      }
      PathBefore(g, from, to, q);
      if Path(g, q) {
        assert Edge(g', p[n-1], p[n-1+1]);
        EdgeAdded(g, from, to, p[n-1], p[n]);
        if Edge(g, p[n-1], p[n]) {
          assert Path(g, p) by {
            forall i | 0 <= i < |p| - 1 ensures Edge(g, p[i], p[i+1]) {
              if i < n - 1 { assert Edge(g, q[i], q[i+1]); }
            }
          }
        } else {
          assert q[|q|-1] == from;
        }
      }
    }
  }

  /** The part of a path after its last use of the new dependency. */
  lemma {:induction false} PathAfter(g: Graph, from: Node, to: Node, p: seq<Node>)
    requires from in g && to in g && Path(WithEdge(g, from, to), p)
    ensures Path(g, p) || Reaches(g, to, p[|p|-1])
  {
    var g' := WithEdge(g, from, to);
    if |p| > 1 {
      var q := p[1..];
      assert Path(g', q) by {
        forall i | 0 <= i < |q| - 1 ensures Edge(g', q[i], q[i+1]) { assert Edge(g', p[i+1], p[i+1+1]); }
      }
      PathAfter(g, from, to, q);
      if Path(g, q) {
        assert Edge(g', p[0], p[0+1]);
        EdgeAdded(g, from, to, p[0], p[1]);
        if Edge(g, p[0], p[1]) {
          assert Path(g, p) by {
            forall i | 0 <= i < |p| - 1 ensures Edge(g, p[i], p[i+1]) {
              if i > 0 { assert Edge(g, q[i-1], q[i-1+1]); }
            }
          }
        } else {
          assert q[0] == to;
        }
      }
    }
  }

  lemma CloseCycle(g: Graph, from: Node, to: Node)
    requires from in g && to in g && Reaches(g, to, from)
    ensures !Acyclic(WithEdge(g, from, to))
  {
    var g' := WithEdge(g, from, to);
    var p :| Path(g, p) && p[0] == to && p[|p|-1] == from;
    assert Path(g', p) by {
      forall i | 0 <= i < |p| - 1 ensures Edge(g', p[i], p[i+1]) { EdgeAdded(g, from, to, p[i], p[i+1]); }
    }
    EdgeAdded(g, from, to, from, to);
    assert Cycle(g', p);
  }

  lemma Joins(g: Graph, p: seq<Node>, q: seq<Node>)
    requires Path(g, p) && Path(g, q) && Edge(g, p[|p|-1], q[0])
    ensures Path(g, p + q)
  {
    var r := p + q;
    forall i | 0 <= i < |r| - 1 ensures Edge(g, r[i], r[i+1]) {
      if i < |p| - 1 { assert Edge(g, p[i], p[i+1]); } else if i >= |p| { assert Edge(g, q[i-|p|], q[i-|p|+1]); }
    }
  }

  /** Adding a dependency to an acyclic graph keeps it acyclic exactly if its service is out of reach from it. */
  lemma AddKeepsAcyclic(g: Graph, from: Node, to: Node)
    requires from in g && to in g && Acyclic(g)
    ensures Acyclic(WithEdge(g, from, to)) <==> !Reaches(g, to, from)
  {
    var g' := WithEdge(g, from, to);
    if Reaches(g, to, from) {
      CloseCycle(g, from, to);
    } else {
      forall p ensures !Cycle(g', p) {
        if Cycle(g', p) {
          NoNewCycle(g, from, to, p);
        }
      }
    }
  }

  lemma NoNewCycle(g: Graph, from: Node, to: Node, p: seq<Node>)
    requires from in g && to in g && Acyclic(g) && Cycle(WithEdge(g, from, to), p)
    ensures Reaches(g, to, from)
  {
    var a, b := p[0], p[|p|-1];
    PathBefore(g, from, to, p);
    PathAfter(g, from, to, p);
    EdgeAdded(g, from, to, b, a);
    if Path(g, p) {
      assert !Cycle(g, p);
      assert Reaches(g, to, from);
    } else if Edge(g, b, a) {
      var q :| Path(g, q) && q[0] == to && q[|q|-1] == b;
      var r :| Path(g, r) && r[0] == a && r[|r|-1] == from;
      Joins(g, q, r);
      assert (q + r)[0] == to && (q + r)[|q + r|-1] == from;
    } else {
      assert b == from && a == to;
      assert Reaches(g, to, from);
    }
  }
}

/** The check made when a service is loaded: a worklist that grows while it is walked. */
module CheckCycle {
  import opened Graphs

  datatype Ptr<T> = Null | To(elem: T)

  /** A set that remembers the order of insertion: the elements are linked from `first` to `last`. */
  class LinkedSet<T(==,!new)> {
    var first: Ptr<T>
    var last: Ptr<T>
    var next: map<T, Ptr<T>>

    ghost var elems: seq<T>

    ghost predicate Valid()
      reads this
    {
      && (forall i, j :: 0 <= i < j < |elems| ==> elems[i] != elems[j])
      && (forall x :: x in next <==> x in elems)
      && first == (if elems == [] then Null else To(elems[0]))
      && last == (if elems == [] then Null else To(elems[|elems|-1]))
      && (forall i :: 0 <= i < |elems| - 1 ==> next[elems[i]] == To(elems[i+1]))
      && (elems != [] ==> next[elems[|elems|-1]] == Null)
    }

    constructor ()
      ensures Valid() && elems == []
    {
      first, last, next, elems := Null, Null, map[], [];
    }

    /** Add at the back, unless it is there already. */
    method AddBack(x: T) returns (added: bool)
      requires Valid()
      modifies this
      ensures Valid() && (added <==> x !in old(elems)) && elems == if added then old(elems) + [x] else old(elems)
    {
      if x in next {
        return false;
      }
      next := next[x := Null];
      if last != Null {
        next := next[last.elem := To(x)];
      }
      last := To(x);
      if first == Null {
        first := To(x);
      }
      elems := elems + [x];
      added := true;
    }

    /** The element after number `k`, which is `x`. */
    method Next(x: T, ghost k: nat) returns (p: Ptr<T>)
      requires Valid() && k < |elems| && x == elems[k]
      ensures p == if k + 1 < |elems| then To(elems[k+1]) else Null
    {
      assert k + 1 < |elems| ==> next[elems[k]] == To(elems[k+1]);
      p := next[x];
    }
  }

  /** How many different nodes there can be in a list. */
  lemma {:induction false} DistinctFits(s: seq<Node>, nodes: set<Node>)
    requires (forall i, j :: 0 <= i < j < |s| ==> s[i] != s[j]) && forall x :: x in s ==> x in nodes
    ensures |s| <= |nodes|
  {
    if s != [] {
      var n := |s| - 1;
      var x := s[n];
      assert x in s && x !in s[..n];
      DistinctFits(s[..n], nodes - {x});
    }
  }

  ghost predicate FromStart(g: Graph, starts: seq<Node>, x: Node) {
    exists d :: d in starts && Reaches(g, d, x)
  }

  lemma FromStartEdge(g: Graph, starts: seq<Node>, x: Node, y: Node)
    requires FromStart(g, starts, x) && Edge(g, x, y)
    ensures FromStart(g, starts, y)
  {
    var d :| d in starts && Reaches(g, d, x);
    ReachesEdge(g, d, x, y);
  }

  ghost predicate Known(g: Graph, starts: seq<Node>, orig: Node, x: Node) {
    x in g && x != orig && FromStart(g, starts, x)
  }

  ghost predicate Expanded(g: Graph, elems: seq<Node>, x: Node) {
    forall y :: Edge(g, x, y) ==> y in elems
  }

  /** What has been found so far: nodes that the start can reach, none of them `orig`, and of the first `k` every
      dependency as well. */
  ghost predicate Found(g: Graph, starts: seq<Node>, orig: Node, elems: seq<Node>, k: nat) {
    && k <= |elems| && (forall x :: x in elems ==> Known(g, starts, orig, x))
    && (forall i :: 0 <= i < k ==> Expanded(g, elems, elems[i]))
  }

  lemma NotReached(g: Graph, starts: seq<Node>, orig: Node, elems: seq<Node>, d: Node)
    requires Found(g, starts, orig, elems, |elems|) && d in elems
    ensures !Reaches(g, d, orig)
  {
    var inside := set x | x in elems;
    forall x, y | x in inside && Edge(g, x, y) ensures y in inside {
      var i :| 0 <= i < |elems| && elems[i] == x;
      assert Expanded(g, elems, elems[i]);
    }
    forall p | Path(g, p) && p[0] == d ensures p[|p|-1] != orig {
      StaysInside(g, inside, p);
      assert Known(g, starts, orig, p[|p|-1]);
    }
  }

  lemma FoundMore(g: Graph, starts: seq<Node>, orig: Node, elems: seq<Node>, k: nat, x: Node)
    requires Found(g, starts, orig, elems, k) && Known(g, starts, orig, x)
    ensures Found(g, starts, orig, elems + [x], k)
  {
    forall i | 0 <= i < k ensures Expanded(g, elems + [x], (elems + [x])[i]) { assert Expanded(g, elems, elems[i]); }
  }

  /** Begin with the new dependencies themselves. */
  method AddStarts(g: Graph, starts: seq<Node>, orig: Node, pending: LinkedSet<Node>) returns (hit: bool)
    requires pending.Valid() && pending.elems == [] && forall d :: d in starts ==> d in g
    modifies pending
    ensures hit <==> orig in starts
    ensures !hit ==>
              pending.Valid() && Found(g, starts, orig, pending.elems, 0)
              && forall d :: d in starts ==> d in pending.elems
  {
    for k := 0 to |starts|
      invariant pending.Valid() && Found(g, starts, orig, pending.elems, 0)
      invariant forall j :: 0 <= j < k ==> starts[j] in pending.elems && starts[j] != orig
    {
      ReachesSelf(g, starts[k]);
      if starts[k] == orig {
        return true;
      }
      assert starts[k] in starts && Known(g, starts, orig, starts[k]);
      FoundMore(g, starts, orig, pending.elems, 0, starts[k]);
      var _ := pending.AddBack(starts[k]);
    }
    hit := false;
  }

  /** Add the dependencies of element number `k`, unless one is the service that is looked for. */
  method AddDependencies(g: Graph, starts: seq<Node>, orig: Node, pending: LinkedSet<Node>, sr: Node, ghost k: nat)
    returns (hit: bool)
    requires Closed(g) && pending.Valid() && k < |pending.elems| && sr == pending.elems[k]
             && Found(g, starts, orig, pending.elems, k)
    modifies pending
    ensures hit ==> FromStart(g, starts, orig)
    ensures !hit ==>
              pending.Valid() && old(pending.elems) <= pending.elems && Found(g, starts, orig, pending.elems, k + 1)
  {
    assert sr in pending.elems && Known(g, starts, orig, sr);
    var deps := g[sr];
    for j := 0 to |deps|
      invariant pending.Valid() && old(pending.elems) <= pending.elems && Found(g, starts, orig, pending.elems, k)
      invariant forall i :: 0 <= i < j ==> deps[i] in pending.elems
    {
      assert deps[j] in g[sr] && Edge(g, sr, deps[j]);
      FromStartEdge(g, starts, sr, deps[j]);
      if deps[j] == orig {
        return true;
      }
      FoundMore(g, starts, orig, pending.elems, k, deps[j]);
      var _ := pending.AddBack(deps[j]);
    }
    assert Expanded(g, pending.elems, pending.elems[k]);
    hit := false;
  }

  /** Fails exactly if the service can be reached from one of its new dependencies. */
  method CheckCycle(g: Graph, starts: seq<Node>, orig: Node) returns (cyclic: bool)
    requires Closed(g) && forall d :: d in starts ==> d in g
    ensures cyclic <==> exists d :: d in starts && Reaches(g, d, orig)
  {
    var pending := new LinkedSet<Node>();
    cyclic := AddStarts(g, starts, orig, pending);
    if cyclic {
      ReachesSelf(g, orig);
      return;
    }
    var current := pending.first;
    ghost var k: nat := 0;
    while current != Null
      invariant fresh(pending) && pending.Valid() && Found(g, starts, orig, pending.elems, k)
      invariant forall d :: d in starts ==> d in pending.elems
      invariant current == if k < |pending.elems| then To(pending.elems[k]) else Null
      decreases |g.Keys| - k
    {
      var sr := current.elem;
      cyclic := AddDependencies(g, starts, orig, pending, sr, k);
      if cyclic {
        return;
      }
      KnownFits(g, starts, orig, pending.elems, k);
      current := pending.Next(sr, k);
      k := k + 1;
    }
    forall d | d in starts ensures !Reaches(g, d, orig) { NotReached(g, starts, orig, pending.elems, d); }
    cyclic := false;
  }

  lemma KnownFits(g: Graph, starts: seq<Node>, orig: Node, elems: seq<Node>, k: nat)
    requires (forall i, j :: 0 <= i < j < |elems| ==> elems[i] != elems[j]) && k < |elems|
             && forall x :: x in elems ==> Known(g, starts, orig, x)
    ensures k < |g.Keys|
  {
    forall x | x in elems ensures x in g.Keys { assert Known(g, starts, orig, x); }
    DistinctFits(elems, g.Keys);
  }
}

/** Adding dependencies on request. */
module ControlDeps {
  import opened Graphs

  datatype Reply = ACK | NAK | BADREQ

  /** Nodes found from `to`; those in `marks` that are not on the stack, and `to` itself, have been looked at. */
  ghost predicate Searching(g: Graph, from: Node, to: Node, marks: set<Node>, stack: seq<Node>, done: set<Node>) {
    && (forall x :: x in marks || x == to ==> x in g && Reaches(g, to, x))
    && from !in marks && (forall x :: x in stack ==> x in marks || x == to)
    && (forall x :: x in marks || x == to ==> x in stack || x in done)
    && (forall x, y :: x in done && Edge(g, x, y) ==> y in marks) && (forall x :: x in done ==> x in marks || x == to)
  }

  /** Whether `from` can be reached from `to`, which is another service. */
  method Circular(g: Graph, from: Node, to: Node) returns (yes: bool)
    requires Closed(g) && from in g && to in g && from != to
    ensures yes <==> Reaches(g, to, from)
  {
    ReachesSelf(g, to);
    var marks: set<Node> := {};
    var stack := [to];
    ghost var done: set<Node> := {};
    while stack != []
      invariant Searching(g, from, to, marks, stack, done) && marks <= g.Keys
      decreases |g.Keys - marks|, |stack|
    {
      var n := |stack| - 1;
      var sr := stack[n];
      assert sr in stack;
      stack := stack[..n];
      yes, marks, stack := PushDependencies(g, from, to, sr, marks, stack, done);
      if yes {
        return;
      }
      done := done + {sr};
    }
    forall p | Path(g, p) && p[0] == to ensures p[|p|-1] != from {
      StaysInside(g, done, p);
    }
    yes := false;
  }

  method PushDependencies(g: Graph, from: Node, to: Node, sr: Node, marks: set<Node>, stack: seq<Node>,
                          ghost done: set<Node>)
    returns (hit: bool, marks': set<Node>, stack': seq<Node>)
    requires Closed(g) && Searching(g, from, to, marks, stack + [sr], done) && marks <= g.Keys && from != to
    ensures hit ==> Reaches(g, to, from)
    ensures !hit ==> Searching(g, from, to, marks', stack', done + {sr}) && marks <= marks' <= g.Keys
    ensures !hit ==> (marks' == marks && stack' == stack) || |g.Keys - marks'| < |g.Keys - marks|
  {
    hit, marks', stack' := false, marks, stack;
    assert sr in stack + [sr];
    var deps := g[sr];
    for j := 0 to |deps|
      invariant Searching(g, from, to, marks', stack' + [sr], done) && marks <= marks' <= g.Keys
      invariant forall i :: 0 <= i < j ==> deps[i] in marks'
      invariant (marks' == marks && stack' == stack) || |g.Keys - marks'| < |g.Keys - marks|
    {
      var d := deps[j];
      assert d in g[sr] && Edge(g, sr, d);
      ReachesEdge(g, to, sr, d);
      if d == from {
        hit := true;
        return;
      }
      marks', stack' := PushOne(g, from, to, sr, d, marks', stack', done);
    }
    LookedAt(g, from, to, marks', stack', done, sr);
  }

  method PushOne(g: Graph, from: Node, to: Node, sr: Node, d: Node, marks: set<Node>, stack: seq<Node>,
                 ghost done: set<Node>)
    returns (marks': set<Node>, stack': seq<Node>)
    requires Searching(g, from, to, marks, stack + [sr], done) && d in g && Reaches(g, to, d) && d != from
    ensures Searching(g, from, to, marks', stack' + [sr], done) && marks' == marks + {d}
    ensures (marks' == marks && stack' == stack) || |g.Keys - marks'| < |g.Keys - marks|
  {
    marks', stack' := marks, stack;
    if d in marks {
      assert marks + {d} == marks;
    } else {
      FewerLeft(g, marks, d);
      Pushed(g, from, to, marks, stack, done, sr, d);
      marks', stack' := marks + {d}, stack + [d];
    }
  }

  lemma FewerLeft(g: Graph, marks: set<Node>, d: Node)
    requires d in g && d !in marks
    ensures |g.Keys - (marks + {d})| < |g.Keys - marks|
  {
    assert g.Keys - (marks + {d}) == (g.Keys - marks) - {d};
  }

  lemma Pushed(g: Graph, from: Node, to: Node, marks: set<Node>, stack: seq<Node>, done: set<Node>, sr: Node, d: Node)
    requires Searching(g, from, to, marks, stack + [sr], done) && d in g && Reaches(g, to, d) && d != from
    ensures Searching(g, from, to, marks + {d}, stack + [d] + [sr], done)
  {
    forall x | x in marks + {d} || x == to ensures x in stack + [d] + [sr] || x in done {
      assert x == d || x in stack + [sr] || x in done;
    }
  }

  lemma LookedAt(g: Graph, from: Node, to: Node, marks: set<Node>, stack: seq<Node>, done: set<Node>, sr: Node)
    requires Searching(g, from, to, marks, stack + [sr], done) && sr in g && forall y :: y in g[sr] ==> y in marks
    ensures Searching(g, from, to, marks, stack, done + {sr})
  {
    assert sr in stack + [sr];
    forall x | x in stack ensures x in marks || x == to { assert x in stack + [sr]; }
    forall x | x in marks || x == to ensures x in stack || x in done + {sr} { assert x in stack + [sr] || x in done; }
  }

  type Link = (Node, int)

  const REGULAR := 0
  const WAITS_FOR := 2
  const MILESTONE := 3

  function Targets(links: seq<Link>): (r: seq<Node>)
    ensures |r| == |links| && forall i :: 0 <= i < |r| ==> r[i] == links[i].0
  {
    seq(|links|, i requires 0 <= i < |links| => links[i].0)
  }

  /** The graph that the links of the services make up. */
  function GraphOf(links: map<Node, seq<Link>>): Graph {
    map x | x in links :: Targets(links[x])
  }

  lemma PathInMore(g: Graph, g': Graph, p: seq<Node>)
    requires Path(g', p) && forall x, y :: Edge(g', x, y) ==> Edge(g, x, y)
    ensures Path(g, p)
  {
    forall i | 0 <= i < |p| - 1 ensures Edge(g, p[i], p[i+1]) { assert Edge(g', p[i], p[i+1]); }
  }

  lemma FewerEdges(g: Graph, g': Graph)
    requires Acyclic(g) && forall x, y :: Edge(g', x, y) ==> Edge(g, x, y)
    ensures Acyclic(g')
  {
    forall p | Path(g', p) ensures Path(g, p) { PathInMore(g, g', p); }
    assert forall p :: Cycle(g', p) ==> Cycle(g, p);
  }

  lemma LinkAdded(links: map<Node, seq<Link>>, from: Node, l: Link)
    requires from in links
    ensures GraphOf(links[from := links[from] + [l]]) == WithEdge(GraphOf(links), from, l.0)
  {
    assert Targets(links[from] + [l]) == Targets(links[from]) + [l.0];
  }

  lemma LinkRemoved(links: map<Node, seq<Link>>, from: Node, i: nat)
    requires from in links && i < |links[from]| && Closed(GraphOf(links)) && Acyclic(GraphOf(links))
    ensures var links' := links[from := links[from][..i] + links[from][i+1..]];
            Closed(GraphOf(links')) && Acyclic(GraphOf(links'))
  {
    var ls := links[from];
    var links' := links[from := ls[..i] + ls[i+1..]];
    var g, g' := GraphOf(links), GraphOf(links');
    assert g'.Keys == g.Keys;
    forall x, y | x in g' && y in g'[x] ensures x in g && y in g[x] && y in g' {
      if x == from {
        var k :| 0 <= k < |g'[x]| && g'[x][k] == y;
        assert g[x][if k < i then k else k + 1] == y;
      }
    }
    FewerEdges(g, g');
  }

  /** The services and their dependencies, changed by commands one after the other. */
  class Dependencies {
    var links: map<Node, seq<Link>>

    ghost predicate Valid()
      reads this
    {
      Closed(GraphOf(links)) && Acyclic(GraphOf(links))
    }

    constructor (services: set<Node>)
      ensures Valid() && links.Keys == services && forall x :: x in services ==> links[x] == []
    {
      links := map x | x in services :: [];
      new;
      forall p ensures !Cycle(GraphOf(links), p) { }
    }

    method HasLink(from: Node, to: Node, kind: int) returns (yes: bool)
      requires from in links
      ensures yes <==> (to, kind) in links[from]
    {
      var ls := links[from];
      for i := 0 to |ls|
        invariant forall j :: 0 <= j < i ==> ls[j] != (to, kind)
      {
        if ls[i].0 == to && ls[i].1 == kind {
          return true;
        }
      }
      yes := false;
    }

    /** Add a dependency. `stopped` and `started` tell whether the dependent is STOPPED and the dependency STARTED.
        An unknown kind of dependency is reported, and then added all the same. */
    method AddServiceDep(from: Node, to: Node, kind: int, stopped: bool, started: bool) returns (replies: seq<Reply>)
      requires Valid()
      modifies this
      ensures Valid() && links.Keys == old(links.Keys) && replies != []
      ensures var reply := replies[|replies|-1];
              && (reply == BADREQ <==> from !in links || to !in links || from == to)
              && (reply == ACK <==>
                    from in links && to in links && from != to && (kind == REGULAR ==> stopped || started)
                                    && !Reaches(GraphOf(old(links)), to, from))
              && (reply != ACK ==> links == old(links))
              && (reply == ACK && (to, kind) in old(links)[from] ==> links == old(links))
              && (reply == ACK && (to, kind) !in old(links)[from] ==>
                    links == old(links)[from := old(links)[from] + [(to, kind)]])
              && (reply != BADREQ ==>
                    replies == (if kind != MILESTONE && kind != REGULAR && kind != WAITS_FOR then [BADREQ, reply]
                                else [reply]))
    {
      if from !in links || to !in links || from == to {
        return [BADREQ];
      }
      replies := [];
      if kind != MILESTONE && kind != REGULAR && kind != WAITS_FOR {
        replies := [BADREQ];
      }
      if kind == REGULAR && !stopped && !started {
        return replies + [NAK];
      }
      var circular := Circular(GraphOf(links), from, to);
      if circular {
        return replies + [NAK];
      }
      var exists_ := HasLink(from, to, kind);
      if !exists_ {
        AddKeepsAcyclic(GraphOf(links), from, to);
        LinkAdded(links, from, (to, kind));
        links := links[from := links[from] + [(to, kind)]];
      }
      replies := replies + [ACK];
    }

    /** Remove a dependency; reports whether there was one. */
    method RmServiceDep(from: Node, to: Node, kind: int) returns (found: bool)
      requires Valid() && from in links
      modifies this
      ensures Valid() && links.Keys == old(links.Keys) && (found <==> (to, kind) in old(links[from]))
      ensures multiset(links[from]) == multiset(old(links[from])) - multiset{(to, kind)}
      ensures forall n :: n in links && n != from ==> links[n] == old(links)[n]
    {
      var ls := links[from];
      for i := 0 to |ls|
        invariant links == old(links) && forall j :: 0 <= j < i ==> ls[j] != (to, kind)
      {
        if ls[i].0 == to && ls[i].1 == kind {
          LinkRemoved(links, from, i);
          assert ls == ls[..i] + [ls[i]] + ls[i+1..];
          links := links[from := ls[..i] + ls[i+1..]];
          return true;
        }
      }
      found := false;
      assert multiset(ls)[(to, kind)] == 0;
    }
  }
}
