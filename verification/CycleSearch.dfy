/**
  The search for dependency cycles in a set of service descriptions: depth first, with an explicit chain of
  services and the index of the dependency each has got to. A service found to be free of cycles is gone through
  again whenever it is met again.
 */
module CycleSearch {
  import opened Graphs

  type Entry = (Node, nat)

  /** Services that cannot reach a cycle: dependencies of a free service are free, and rank lower. */
  ghost predicate Falls(g: Graph, free: set<Node>, rank: map<Node, nat>) {
    && free <= rank.Keys && free <= g.Keys
    && (forall x, y :: x in free && Edge(g, x, y) ==> y in free && rank[y] < rank[x])
  }

  ghost predicate Free(g: Graph, free: set<Node>, rank: map<Node, nat>, clock: nat) {
    Falls(g, free, rank) && forall x :: x in free ==> rank[x] < clock
  }

  /** An entry of the chain: the dependencies before the index are free, or not there. */
  ghost predicate EntryOK(g: Graph, free: set<Node>, e: Entry) {
    && e.0 in g && e.1 <= |g[e.0]|
    && (forall j :: 0 <= j < e.1 ==> g[e.0][j] !in g || g[e.0][j] in free)
  }

  /** The entry leads on to the next. */
  ghost predicate Leads(g: Graph, e: Entry, x: Node) {
    e.0 in g && e.1 < |g[e.0]| && g[e.0][e.1] == x && x in g
  }

  ghost predicate OnChain(chain: seq<Entry>, x: Node) {
    exists k :: 0 <= k < |chain| && chain[k].0 == x
  }

  ghost predicate ChainOK(g: Graph, free: set<Node>, chain: seq<Entry>) {
    && (forall k :: 0 <= k < |chain| ==> EntryOK(g, free, chain[k]))
    && (forall k :: 0 <= k < |chain| - 1 ==> Leads(g, chain[k], chain[k+1].0))
  }

  ghost predicate Inv(g: Graph, chain: seq<Entry>, visited: set<Node>, free: set<Node>, rank: map<Node, nat>,
                      clock: nat) {
    && Free(g, free, rank, clock) && ChainOK(g, free, chain) && visited <= g.Keys
    && (forall x :: x in visited && x !in free ==> OnChain(chain, x))
  }

  /** The services of a chain that ends where it began. */
  ghost predicate IsCycle(g: Graph, chain: seq<Entry>) {
    chain != [] && (forall k :: 0 <= k < |chain| - 1 ==> Leads(g, chain[k], chain[k+1].0))
    && Leads(g, chain[|chain|-1], chain[0].0)
  }

  lemma ChainIsCycle(g: Graph, chain: seq<Entry>)
    requires IsCycle(g, chain)
    ensures Cycle(g, Names(chain))
  {
    var p := Names(chain);
    forall i | 0 <= i < |p| - 1 ensures Edge(g, p[i], p[i+1]) {
      assert Leads(g, chain[i], chain[i+1].0);
      assert g[chain[i].0][chain[i].1] in g[chain[i].0];
    }
    var n := |chain| - 1;
    assert g[chain[n].0][chain[n].1] in g[chain[n].0];
  }

  function Names(chain: seq<Entry>): (r: seq<Node>)
    ensures |r| == |chain| && forall k :: 0 <= k < |r| ==> r[k] == chain[k].0
  {
    seq(|chain|, k requires 0 <= k < |chain| => chain[k].0)
  }

  /** From a free service no cycle can be reached. */
  lemma {:induction false} FreeFalls(g: Graph, free: set<Node>, rank: map<Node, nat>, clock: nat, p: seq<Node>)
    requires Free(g, free, rank, clock) && Path(g, p) && p[0] in free
    ensures p[|p|-1] in free && (|p| > 1 ==> rank[p[|p|-1]] < rank[p[0]])
  {
    if |p| > 1 {
      assert Edge(g, p[0], p[0+1]);
      var q := p[1..];
      forall i | 0 <= i < |q| - 1 ensures Edge(g, q[i], q[i+1]) { assert Edge(g, p[i+1], p[i+1+1]); }
      FreeFalls(g, free, rank, clock, q);
    }
  }

  lemma NoCycleFromFree(g: Graph, free: set<Node>, rank: map<Node, nat>, clock: nat, x: Node, c: seq<Node>)
    requires Free(g, free, rank, clock) && x in free && Cycle(g, c)
    ensures !Reaches(g, x, c[0])
  {
    forall p | Path(g, p) && p[0] == x ensures p[|p|-1] != c[0] {
      if p[|p|-1] == c[0] {
        FreeFalls(g, free, rank, clock, p);
        FreeFalls(g, free, rank, clock, c);
        assert false;
      }
    }
  }

  // ---------------------------------------------------------------- how much is left to do

  /** What going through these dependencies takes, free ones included. */
  ghost function Left(g: Graph, free: set<Node>, rank: map<Node, nat>, ds: seq<Node>, bound: nat): nat
    requires Falls(g, free, rank) && forall d :: d in ds && d in free ==> rank[d] < bound
    decreases bound, 0, |ds|
  {
    if ds == [] then 1
    else
      assert ds[0] in ds;
      1 + (if ds[0] in free then Unfold(g, free, rank, ds[0]) else 0) + Left(g, free, rank, ds[1..], bound)
  }

  ghost function Unfold(g: Graph, free: set<Node>, rank: map<Node, nat>, x: Node): nat
    requires x in free && Falls(g, free, rank)
    decreases rank[x], 1, 0
  {
    assert forall d :: d in g[x] && d in free ==> Edge(g, x, d);
    1 + Left(g, free, rank, g[x], rank[x])
  }

  lemma {:induction false} SameLeft(g: Graph, free: set<Node>, rank: map<Node, nat>, ds: seq<Node>, b: nat, c: nat)
    requires Falls(g, free, rank) && (forall d :: d in ds && d in free ==> rank[d] < b && rank[d] < c)
    ensures Left(g, free, rank, ds, b) == Left(g, free, rank, ds, c)
  {
    if ds != [] {
      SameLeft(g, free, rank, ds[1..], b, c);
    }
  }

  /** What the dependencies of an entry take from `i` on. */
  ghost function LeftAt(g: Graph, free: set<Node>, rank: map<Node, nat>, clock: nat, x: Node, i: nat): nat
    requires Free(g, free, rank, clock) && x in g && i <= |g[x]|
  {
    Left(g, free, rank, g[x][i..], clock)
  }

  lemma LeftStep(g: Graph, free: set<Node>, rank: map<Node, nat>, clock: nat, x: Node, i: nat)
    requires Free(g, free, rank, clock) && x in g && i < |g[x]|
    ensures g[x][i] !in free ==> LeftAt(g, free, rank, clock, x, i) == 1 + LeftAt(g, free, rank, clock, x, i + 1)
    ensures g[x][i] in free ==>
              LeftAt(g, free, rank, clock, x, i) == 2 + LeftAt(g, free, rank, clock, g[x][i], 0)
              + LeftAt(g, free, rank, clock, x, i + 1)
  {
    var d := g[x][i];
    assert g[x][i..][1..] == g[x][i+1..] && g[x][i..][0] == d;
    if d in free {
      assert g[d][0..] == g[d];
      assert forall y :: y in g[d] && y in free ==> Edge(g, d, y);
      SameLeft(g, free, rank, g[d], rank[d], clock);
      assert Unfold(g, free, rank, d) == 1 + LeftAt(g, free, rank, clock, d, 0);
    }
  }

  ghost predicate Ready(g: Graph, e: Entry) {
    e.0 in g && e.1 < |g[e.0]|
  }

  lemma AllReady(g: Graph, free: set<Node>, chain: seq<Entry>, above: seq<Entry>)
    requires ChainOK(g, free, chain) && chain != [] && above == chain[..|chain|-1]
    ensures forall k :: 0 <= k < |above| ==> Ready(g, above[k])
    ensures EntryOK(g, free, chain[|chain|-1])
  {
    forall k | 0 <= k < |chain| - 1 ensures Ready(g, chain[k]) { assert Leads(g, chain[k], chain[k+1].0); }
  }

  /** What the entries above the last one still have to do when they come up again. */
  ghost function Above(g: Graph, free: set<Node>, rank: map<Node, nat>, clock: nat, chain: seq<Entry>): nat
    requires Free(g, free, rank, clock) && forall k :: 0 <= k < |chain| ==> Ready(g, chain[k])
  {
    if chain == [] then 0
    else
      var n := |chain| - 1;
      assert Ready(g, chain[n]);
      Above(g, free, rank, clock, chain[..n]) + 1 + LeftAt(g, free, rank, clock, chain[n].0, chain[n].1 + 1)
  }

  ghost function Work(g: Graph, free: set<Node>, rank: map<Node, nat>, clock: nat, chain: seq<Entry>): nat
    requires Free(g, free, rank, clock) && ChainOK(g, free, chain)
  {
    if chain == [] then 0
    else
      var n := |chain| - 1;
      AllReady(g, free, chain, chain[..n]);
      Above(g, free, rank, clock, chain[..n]) + LeftAt(g, free, rank, clock, chain[n].0, chain[n].1)
  }

  // ---------------------------------------------------------------- the steps

  /** The chain without its last entry, and the one above moved on. */
  function Popped(chain: seq<Entry>): (r: seq<Entry>)
    requires chain != []
    ensures |r| == |chain| - 1
  {
    var n := |chain| - 1;
    if n == 0 then [] else chain[..n][n - 1 := (chain[n-1].0, chain[n-1].1 + 1)]
  }

  lemma PoppedOK(g: Graph, free: set<Node>, chain: seq<Entry>)
    requires ChainOK(g, free, chain) && chain != []
    ensures ChainOK(g, free + {chain[|chain|-1].0}, Popped(chain))
  {
    var n := |chain| - 1;
    var x, r := chain[n].0, Popped(chain);
    forall k | 0 <= k < |r| ensures EntryOK(g, free + {x}, r[k]) {
      assert EntryOK(g, free, chain[k]) && Leads(g, chain[k], chain[k+1].0);
    }
    forall k | 0 <= k < |r| - 1 ensures Leads(g, r[k], r[k+1].0) { assert Leads(g, chain[k], chain[k+1].0); }
  }

  lemma PoppedOn(chain: seq<Entry>, y: Node)
    requires chain != [] && OnChain(chain, y) && y != chain[|chain|-1].0
    ensures OnChain(Popped(chain), y)
  {
    var k :| 0 <= k < |chain| && chain[k].0 == y;
    assert Popped(chain)[k].0 == y;
  }

  lemma PoppedLess(g: Graph, free: set<Node>, rank: map<Node, nat>, clock: nat, chain: seq<Entry>)
    requires Free(g, free, rank, clock) && ChainOK(g, free, chain) && |chain| > 1 && chain[|chain|-1].0 in free
    requires ChainOK(g, free, Popped(chain))
    ensures Work(g, free, rank, clock, Popped(chain)) < Work(g, free, rank, clock, chain)
  {
    var n, r := |chain| - 1, Popped(chain);
    AllReady(g, free, chain, chain[..n]);
    AllReady(g, free, r, r[..n-1]);
    assert r[..n-1] == chain[..n][..n-1];
  }

  lemma FreeMore(g: Graph, free: set<Node>, rank: map<Node, nat>, clock: nat, e: Entry)
    requires Free(g, free, rank, clock) && EntryOK(g, free, e) && e.1 == |g[e.0]| && e.0 !in free
    ensures Free(g, free + {e.0}, rank[e.0 := clock], clock + 1)
  {
    forall y | Edge(g, e.0, y) ensures y in free {
      var j :| 0 <= j < |g[e.0]| && g[e.0][j] == y;
    }
  }

  /** The last service is through: it is free, and the search goes on in the one above. */
  method Back(g: Graph, chain: seq<Entry>, visited: set<Node>, free: set<Node>, ghost rank: map<Node, nat>,
              ghost clock: nat, ghost root: Node)
    returns (chain': seq<Entry>, free': set<Node>, ghost rank': map<Node, nat>, ghost clock': nat)
    requires Inv(g, chain, visited, free, rank, clock) && Simple(chain, visited, free, root)
             && !Ready(g, chain[|chain|-1])
    ensures Inv(g, chain', visited, free', rank', clock') && free' == free + {chain[|chain|-1].0}
            && chain' == Popped(chain)
    ensures chain' != [] ==> Simple(chain', visited, free', root)
    ensures chain[|chain|-1].0 !in free ==> |g.Keys - free'| < |g.Keys - free|
    ensures chain[|chain|-1].0 in free ==> free' == free && rank' == rank && clock' == clock
    ensures chain[|chain|-1].0 in free && chain' != [] ==>
              Work(g, free', rank', clock', chain') < Work(g, free, rank, clock, chain)
  {
    var n := |chain| - 1;
    var x := chain[n].0;
    assert EntryOK(g, free, chain[n]);
    free' := free + {x};
    chain' := Popped(chain);
    PoppedOK(g, free, chain);
    if n > 0 {
      SimpleBack(g, chain, visited, free, rank, root);
    }
    if x in free {
      assert free' == free;
      rank', clock' := rank, clock;
      if n > 0 {
        PoppedLess(g, free, rank, clock, chain);
      }
    } else {
      FreeMore(g, free, rank, clock, chain[n]);
      rank', clock' := rank[x := clock], clock + 1;
      assert g.Keys - free' == (g.Keys - free) - {x};
    }
    forall y | y in visited && y !in free' ensures OnChain(chain', y) { PoppedOn(chain, y); }
  }

  lemma Longer(chain: seq<Entry>, e: Entry, y: Node)
    requires OnChain(chain, y) || y == e.0
    ensures OnChain(chain + [e], y)
  {
    if OnChain(chain, y) {
      var k :| 0 <= k < |chain| && chain[k].0 == y;
      assert (chain + [e])[k].0 == y;
    } else {
      assert (chain + [e])[|chain|].0 == y;
    }
  }

  /** Go down to a service that is new, or known to be free. */
  method Down(g: Graph, chain: seq<Entry>, visited: set<Node>, free: set<Node>, ghost rank: map<Node, nat>,
              ghost clock: nat, ghost root: Node)
    returns (chain': seq<Entry>, visited': set<Node>)
    requires Inv(g, chain, visited, free, rank, clock) && Simple(chain, visited, free, root)
             && Ready(g, chain[|chain|-1])
    requires var x := g[chain[|chain|-1].0][chain[|chain|-1].1]; x in g && (x in visited ==> x in free)
    ensures Inv(g, chain', visited', free, rank, clock) && Simple(chain', visited', free, root) && visited <= visited'
    ensures || |g.Keys - visited'| < |g.Keys - visited|
            || (visited' == visited && Work(g, free, rank, clock, chain') < Work(g, free, rank, clock, chain))
  {
    var n := |chain| - 1;
    var x := g[chain[n].0][chain[n].1];
    visited' := visited + {x};
    chain' := chain + [(x, 0)];
    SimpleDown(g, chain, visited, free, rank, root, x);
    forall y | y in visited' && y !in free ensures OnChain(chain', y) { Longer(chain, (x, 0), y); }
    if x in visited {
      assert visited' == visited && chain'[..n+1] == chain;
      LeftStep(g, free, rank, clock, chain[n].0, chain[n].1);
    } else {
      assert g.Keys - visited' == (g.Keys - visited) - {x};
    }
  }

  lemma SkippedLess(g: Graph, free: set<Node>, rank: map<Node, nat>, clock: nat, chain: seq<Entry>)
    requires Free(g, free, rank, clock) && ChainOK(g, free, chain) && chain != [] && Ready(g, chain[|chain|-1])
    requires g[chain[|chain|-1].0][chain[|chain|-1].1] !in g
    ensures var chain' := chain[|chain|-1 := (chain[|chain|-1].0, chain[|chain|-1].1 + 1)];
            ChainOK(g, free, chain') && Work(g, free, rank, clock, chain') < Work(g, free, rank, clock, chain)
  {
    var n := |chain| - 1;
    var chain' := chain[n := (chain[n].0, chain[n].1 + 1)];
    forall k | 0 <= k < |chain'| ensures EntryOK(g, free, chain'[k]) { assert EntryOK(g, free, chain[k]); }
    forall k | 0 <= k < |chain'| - 1 ensures Leads(g, chain'[k], chain'[k+1].0) {
      assert Leads(g, chain[k], chain[k+1].0);
    }
    assert chain'[..n] == chain[..n];
    LeftStep(g, free, rank, clock, chain[n].0, chain[n].1);
  }

  /** Skip a dependency that could not be loaded. */
  method Skip(g: Graph, chain: seq<Entry>, visited: set<Node>, free: set<Node>, ghost rank: map<Node, nat>,
              ghost clock: nat, ghost root: Node)
    returns (chain': seq<Entry>)
    requires Inv(g, chain, visited, free, rank, clock) && Simple(chain, visited, free, root)
             && Ready(g, chain[|chain|-1])
    requires g[chain[|chain|-1].0][chain[|chain|-1].1] !in g
    ensures Inv(g, chain', visited, free, rank, clock) && Simple(chain', visited, free, root)
    ensures Work(g, free, rank, clock, chain') < Work(g, free, rank, clock, chain)
  {
    var n := |chain| - 1;
    chain' := chain[n := (chain[n].0, chain[n].1 + 1)];
    SimpleSkip(g, chain, visited, free, root);
    SkippedLess(g, free, rank, clock, chain);
    forall y | y in visited && y !in free ensures OnChain(chain', y) {
      var k :| 0 <= k < |chain| && chain[k].0 == y;
      assert chain'[k].0 == y;
    }
  }

  // ---------------------------------------------------------------- services on the chain twice

  /** A service that is not free stands on the chain once, except that the root, which is not marked as visited when the
      search begins, may be entered a second time; and then only free services are entered from there. */
  ghost predicate Again(chain: seq<Entry>, free: set<Node>, j: nat, k: nat)
    requires j < k < |chain|
  {
    chain[j].0 == chain[k].0 && chain[k].0 !in free ==>
      j == 0 && chain[k].1 <= chain[0].1 && (k + 1 < |chain| ==> chain[k+1].0 in free)
  }

  ghost predicate Simple(chain: seq<Entry>, visited: set<Node>, free: set<Node>, root: Node) {
    && chain != [] && chain[0].0 == root
    && (forall k :: 1 <= k < |chain| ==> chain[k].0 in visited)
    && (forall j: nat, k: nat {:trigger Again(chain, free, j, k)} :: j < k < |chain| ==> Again(chain, free, j, k))
    && (root in visited && root !in free ==> Below(chain, root))
  }

  ghost predicate Below(chain: seq<Entry>, x: Node) {
    exists k :: 1 <= k < |chain| && chain[k].0 == x
  }

  /** Whatever is below a free service is free. */
  lemma {:induction false} FreeBelow(g: Graph, free: set<Node>, rank: map<Node, nat>, chain: seq<Entry>, j: nat, k: nat)
    requires Falls(g, free, rank) && ChainOK(g, free, chain) && j <= k < |chain| && chain[j].0 in free
    ensures chain[k].0 in free
    decreases k
  {
    if j < k {
      FreeBelow(g, free, rank, chain, j, k - 1);
      assert Leads(g, chain[k-1], chain[k-1+1].0);
      assert g[chain[k-1].0][chain[k-1].1] in g[chain[k-1].0];
      assert Edge(g, chain[k-1].0, chain[k].0);
    }
  }

  /** The root, entered again, has not got past the dependency that it is on the chain with. */
  lemma RootAgain(g: Graph, free: set<Node>, rank: map<Node, nat>, chain: seq<Entry>, visited: set<Node>, root: Node,
                  k: nat)
    requires Falls(g, free, rank) && ChainOK(g, free, chain) && Simple(chain, visited, free, root)
    requires 1 <= k < |chain| && chain[k].0 == root && root !in free
    requires chain[k].1 < |g[root]| && (g[root][chain[k].1] in g && g[root][chain[k].1] !in free)
    ensures chain[k].1 == chain[0].1 && g[root][chain[k].1] == chain[1].0
  {
    assert Again(chain, free, 0, k);
    assert EntryOK(g, free, chain[0]);
    assert Leads(g, chain[0], chain[0+1].0);
  }

  lemma SimpleDown(g: Graph, chain: seq<Entry>, visited: set<Node>, free: set<Node>, rank: map<Node, nat>, root: Node,
                   x: Node)
    requires Falls(g, free, rank) && ChainOK(g, free, chain) && Simple(chain, visited, free, root)
    requires Leads(g, chain[|chain|-1], x) && (x in visited ==> x in free)
    ensures Simple(chain + [(x, 0)], visited + {x}, free, root)
  {
    var n, chain' := |chain| - 1, chain + [(x, 0)];
    forall j: nat, k: nat | j < k < |chain'| ensures Again(chain', free, j, k) {
      if k <= n {
        assert Again(chain, free, j, k);
        if k == n && chain[j].0 == chain[n].0 && chain[n].0 !in free && x !in free {
          RootAgain(g, free, rank, chain, visited, root, n);
          assert false;
        }
      }
    }
    if root in visited && root !in free {
      var k :| 1 <= k < |chain| && chain[k].0 == root;
      assert chain'[k].0 == root;
    } else if x == root {
      assert chain'[n+1].0 == root;
    }
  }

  lemma SimpleSkip(g: Graph, chain: seq<Entry>, visited: set<Node>, free: set<Node>, root: Node)
    requires ChainOK(g, free, chain) && Simple(chain, visited, free, root)
    requires Ready(g, chain[|chain|-1]) && g[chain[|chain|-1].0][chain[|chain|-1].1] !in g
    ensures Simple(chain[|chain|-1 := (chain[|chain|-1].0, chain[|chain|-1].1 + 1)], visited, free, root)
  {
    var n := |chain| - 1;
    var chain' := chain[n := (chain[n].0, chain[n].1 + 1)];
    forall j: nat, k: nat | j < k < |chain'| ensures Again(chain', free, j, k) {
      assert Again(chain, free, j, k);
      assert Leads(g, chain[0], chain[0+1].0);
    }
    if root in visited && root !in free {
      var k :| 1 <= k < |chain| && chain[k].0 == root;
      assert chain'[k].0 == root;
    }
  }

  lemma SimpleBack(g: Graph, chain: seq<Entry>, visited: set<Node>, free: set<Node>, rank: map<Node, nat>, root: Node)
    requires Falls(g, free, rank) && ChainOK(g, free, chain) && Simple(chain, visited, free, root) && |chain| > 1
    ensures Simple(Popped(chain), visited, free + {chain[|chain|-1].0}, root)
  {
    var n, chain' := |chain| - 1, Popped(chain);
    var free' := free + {chain[n].0};
    forall j: nat, k: nat | j < k < |chain'| ensures Again(chain', free', j, k) {
      assert Again(chain, free, j, k);
      if k == n - 1 && chain[j].0 == chain[k].0 && chain[k].0 !in free' {
        assert Leads(g, chain[0], chain[0+1].0) && Leads(g, chain[k], chain[k+1].0);
        if chain[k].1 == chain[0].1 {
          FreeBelow(g, free, rank, chain, 1, k);
        }
      }
    }
    if root in visited && root !in free' {
      var k :| 1 <= k < |chain| && chain[k].0 == root;
      assert chain'[k].0 == root;
    }
  }

  /** Whether any service is listed more than once. */
  ghost predicate Repeats(chain: seq<Entry>) {
    exists j, k :: 0 <= j < k < |chain| && chain[j].0 == chain[k].0
  }

  /** The cycle cut from a chain lists a service twice only if it begins with the root, and then it is nothing but the
      root, listed twice, which depends on itself. */
  lemma CutRepeats(g: Graph, chain: seq<Entry>, visited: set<Node>, free: set<Node>, rank: map<Node, nat>, root: Node,
                   first: nat)
    requires Falls(g, free, rank) && ChainOK(g, free, chain) && Simple(chain, visited, free, root)
    requires first < |chain| && Leads(g, chain[|chain|-1], chain[first].0)
             && (forall k :: 0 <= k < first ==> chain[k].0 != chain[first].0)
    requires chain[first].0 in visited && chain[first].0 !in free
    ensures Repeats(chain[first..]) <==> chain[first].0 == root
    ensures chain[first].0 == root ==> |chain[first..]| == 2 && chain[first..][1].0 == root && Edge(g, root, root)
  {
    var n := |chain| - 1;
    var x := chain[first].0;
    if chain[n].0 in free {
      assert g[chain[n].0][chain[n].1] in g[chain[n].0];
      assert Edge(g, chain[n].0, x);
      assert false;
    }
    forall k | 0 <= k < |chain| ensures chain[k].0 !in free {
      if chain[k].0 in free { FreeBelow(g, free, rank, chain, k, n); }
    }
    if x == root {
      assert first == 0;
      var k :| 1 <= k < |chain| && chain[k].0 == root;
      assert Again(chain, free, 0, k);
      assert k == n;
      RootAgain(g, free, rank, chain, visited, root, n);
      assert Again(chain, free, 0, 1);
      assert chain[0..][0].0 == chain[0..][1].0;
      assert g[root][chain[0].1] in g[root];
    } else {
      var cycle := chain[first..];
      forall j: nat, k: nat | j < k < |cycle| ensures cycle[j].0 != cycle[k].0 {
        assert Again(chain, free, first + j, first + k);
      }
    }
  }

  /** A service met again before it was through: the chain from there on is a cycle. */
  method CutToCycle(g: Graph, chain: seq<Entry>, free: set<Node>) returns (cycle: seq<Entry>, ghost first: nat)
    requires ChainOK(g, free, chain) && chain != [] && chain[|chain|-1].1 < |g[chain[|chain|-1].0]|
    requires var x := g[chain[|chain|-1].0][chain[|chain|-1].1]; x in g && OnChain(chain, x)
    ensures IsCycle(g, cycle)
    ensures first < |chain| && cycle == chain[first..] && chain[first].0 == g[chain[|chain|-1].0][chain[|chain|-1].1]
    ensures forall k :: 0 <= k < first ==> chain[k].0 != chain[first].0
  {
    var n := |chain| - 1;
    var x := g[chain[n].0][chain[n].1];
    var at := 0;
    while chain[at].0 != x
      invariant at <= n && forall k :: 0 <= k < at ==> chain[k].0 != x
      decreases n - at
    {
      at := at + 1;
    }
    cycle, first := chain[at..], at;
    forall k | 0 <= k < |cycle| - 1 ensures Leads(g, cycle[k], cycle[k+1].0) {
      assert Leads(g, chain[first+k], chain[first+k+1].0);
    }
  }

  lemma NoneOpen(visited: set<Node>, free: set<Node>)
    requires forall x :: x in visited && x !in free ==> OnChain([], x)
    ensures visited <= free
  {
    forall x | x in visited ensures x in free { assert !OnChain([], x); }
  }

  /** A service is listed twice exactly if the cycle begins with the root, and then it is the root depending on
      itself. */
  ghost predicate ListedOnce(g: Graph, cycle: seq<Entry>, root: Node) {
    && cycle != [] && (Repeats(cycle) <==> cycle[0].0 == root)
    && (cycle[0].0 == root ==> |cycle| == 2 && cycle[1].0 == root && Edge(g, root, root))
  }

  /** Search from one service. The result is a cycle, or nothing, and then the service is free. */
  method SearchFrom(g: Graph, root: Node, visited: set<Node>, free: set<Node>, ghost rank: map<Node, nat>,
                    ghost clock: nat)
    returns (chain: seq<Entry>, visited': set<Node>, free': set<Node>, ghost rank': map<Node, nat>, ghost clock': nat)
    requires Inv(g, [], visited, free, rank, clock) && root in g && root !in visited
    ensures chain == [] ==> Inv(g, [], visited', free', rank', clock') && free <= free' && root in free'
    ensures chain != [] ==> IsCycle(g, chain) && ListedOnce(g, chain, root)
  {
    chain, visited', free', rank', clock' := [(root, 0)], visited, free, rank, clock;
    NoneOpen(visited, free);
    while true
      invariant Inv(g, chain, visited', free', rank', clock') && Simple(chain, visited', free', root) && free <= free'
      decreases |g.Keys - free'|, |g.Keys - visited'|, Work(g, free', rank', clock', chain)
    {
      var n := |chain| - 1;
      var last := chain[n];
      assert EntryOK(g, free', last);
      if last.1 >= |g[last.0]| {
        chain, free', rank', clock' := Back(g, chain, visited', free', rank', clock', root);
        if n == 0 {
          return;
        }
        continue;
      }
      var next := g[last.0][last.1];
      if next !in g {
        chain := Skip(g, chain, visited', free', rank', clock', root);
        continue;
      }
      if next in visited' && next !in free' {
        ghost var whole, first := chain, 0;
        chain, first := CutToCycle(g, chain, free');
        CutRepeats(g, whole, visited', free', rank', root, first);
        return;
      }
      chain, visited' := Down(g, chain, visited', free', rank', clock', root);
    }
  }

  /** Search from each of the services asked for, until a cycle is found. A nonempty result is a cycle of dependencies;
      an empty one means that none can be reached from these services. */
  method FindCycle(g: Graph, roots: seq<Node>) returns (chain: seq<Entry>)
    ensures chain != [] ==> IsCycle(g, chain) && Cycle(g, Names(chain))
    ensures chain != [] ==> exists root :: root in roots && ListedOnce(g, chain, root)
    ensures chain == [] ==> forall r, c :: r in roots && r in g && Cycle(g, c) ==> !Reaches(g, r, c[0])
  {
    var visited: set<Node>, free: set<Node> := {}, {};
    ghost var rank: map<Node, nat>, clock: nat := map[], 0;
    chain := [];
    for i := 0 to |roots|
      invariant chain == [] && Inv(g, [], visited, free, rank, clock)
      invariant forall j :: 0 <= j < i && roots[j] in g ==> roots[j] in free
    {
      var root := roots[i];
      if root !in g {
        continue;
      }
      if root in visited {
        NoneOpen(visited, free);
        continue;
      }
      chain, visited, free, rank, clock := SearchFrom(g, root, visited, free, rank, clock);
      if chain != [] {
        ChainIsCycle(g, chain);
        return;
      }
    }
    forall r, c | r in roots && r in g && Cycle(g, c) ensures !Reaches(g, r, c[0]) {
      NoCycleFromFree(g, free, rank, clock, r, c);
    }
  }

  /** A service that depends on itself is listed twice when it is asked for. */
  method OnItself(r: Node) returns (chain: seq<Entry>)
    ensures |chain| == 2 && chain[0].0 == r && chain[1].0 == r
  {
    var g := map[r := [r]];
    chain := FindCycle(g, [r]);
    assert Cycle(g, [r]);
    ReachesSelf(g, r);
    assert [r][0] == r && r in [r];
    assert Names(chain)[0] == r;
  }
}
