/** The services can be put in order, each before those it depends on, exactly if there is no cycle. */
module ServiceOrder {
  import opened QueueShape
  import opened ServiceModel
  import opened ServiceStops
  import opened ServiceWork

  /** Services each of which depends on the next. */
  ghost predicate Chain(s: Sys, p: seq<Sid>) {
    p != [] && forall i :: 0 <= i < |p| - 1 ==> DependsOnIt(s, p[i], p[i+1])
  }

  /** ... and the last on the first. */
  ghost predicate Cycle(s: Sys, p: seq<Sid>) {
    Chain(s, p) && DependsOnIt(s, p[|p|-1], p[0])
  }

  ghost predicate Acyclic(s: Sys) {
    forall p :: !Cycle(s, p)
  }

  lemma ChainDistinct(s: Sys, p: seq<Sid>)
    requires Acyclic(s) && Chain(s, p)
    ensures Distinct(p)
  {
    forall i, j | 0 <= i < j < |p| ensures p[i] != p[j] {
      var q := p[i..j];
      forall k | 0 <= k < |q| - 1 ensures DependsOnIt(s, q[k], q[k+1]) {
        assert DependsOnIt(s, p[i+k], p[i+k+1]);
      }
      assert DependsOnIt(s, p[j-1], p[j-1+1]);
      assert !Cycle(s, q);
    }
  }

  lemma {:induction false} DistinctFits(p: seq<Sid>, among: set<Sid>)
    requires Distinct(p) && forall x :: x in p ==> x in among
    ensures |p| <= |among|
  {
    if p != [] {
      var n := |p| - 1;
      var x := p[n];
      assert x in p && x !in p[..n];
      DistinctFits(p[..n], among - {x});
    }
  }

  /** Among any services there is one that none of them depends on. */
  lemma {:induction false} FindFirst(s: Sys, rest: set<Sid>, p: seq<Sid>) returns (x: Sid)
    requires Acyclic(s) && Chain(s, p) && forall y :: y in p ==> y in rest
    ensures x in rest && forall y :: y in rest ==> !DependsOnIt(s, y, x)
    decreases |rest| + 1 - |p|
  {
    ChainDistinct(s, p);
    DistinctFits(p, rest);
    x := p[0];
    assert x in p;
    if y :| y in rest && DependsOnIt(s, y, x) {
      var q := [y] + p;
      forall i | 0 <= i < |q| - 1 ensures DependsOnIt(s, q[i], q[i+1]) {
        assert i > 0 ==> DependsOnIt(s, p[i-1], p[i-1+1]);
      }
      x := FindFirst(s, rest, q);
    }
  }

  /** These services, each before those it depends on. */
  ghost predicate InOrder(s: Sys, rest: set<Sid>, order: seq<Sid>) {
    && (forall x :: x in order ==> x in rest) && (forall x :: x in rest ==> x in order)
    && (forall x, y {:trigger Before(order, x, y)} :: x in rest && y in rest && DependsOnIt(s, x, y) ==>
          Before(order, x, y))
  }

  lemma {:induction false} PutInOrder(s: Sys, rest: set<Sid>) returns (order: seq<Sid>)
    requires Acyclic(s)
    ensures InOrder(s, rest, order)
    decreases |rest|
  {
    order := [];
    if z :| z in rest {
      assert Chain(s, [z]);
      var first := FindFirst(s, rest, [z]);
      var later := PutInOrder(s, rest - {first});
      order := [first] + later;
      forall x, y | x in rest && y in rest && DependsOnIt(s, x, y) ensures Before(order, x, y) {
        assert y != first;
        OneBefore(first, later, x, y);
      }
    }
  }

  lemma OneBefore(first: Sid, later: seq<Sid>, x: Sid, y: Sid)
    requires y != first && (x != first ==> Before(later, x, y)) && (x == first ==> first !in later)
    ensures Before([first] + later, x, y)
  {
    var order := [first] + later;
    forall i, j | 0 <= i < |order| && 0 <= j < |order| && order[i] == x && order[j] == y ensures i < j {
      assert order[j] == later[j-1];
      assert i > 0 ==> order[i] == later[i-1];
    }
  }

  /** Along a chain the places in the order rise. */
  lemma {:induction false} PlacesRise(s: Sys, order: seq<Sid>, p: seq<Sid>, i: nat, a: nat, b: nat)
    requires Ordered(s, order) && WF(s) && Chain(s, p) && i < |p| && a < |order| && b < |order|
    requires order[a] == p[0] && order[b] == p[i] && (i == 0 ==> a == b)
    ensures a <= b && (i > 0 ==> a < b)
  {
    if i > 0 {
      assert DependsOnIt(s, p[i-1], p[i-1+1]);
      var d :| d in s.deps && s.deps[d].from == p[i-1] && s.deps[d].to == p[i];
      assert DepOK(s, d) && p[i-1] in order && Before(order, p[i-1], p[i]);
      var c :| 0 <= c < |order| && order[c] == p[i-1] && (i == 1 ==> c == a);
      PlacesRise(s, order, p, i - 1, a, c);
    }
  }

  lemma OrderedAcyclic(s: Sys, order: seq<Sid>, p: seq<Sid>)
    requires WF(s) && Ordered(s, order) && Chain(s, p)
    ensures !Cycle(s, p)
  {
    var n := |p| - 1;
    if DependsOnIt(s, p[n], p[0]) {
      var d :| d in s.deps && s.deps[d].from == p[n] && s.deps[d].to == p[0];
      assert DepOK(s, d) && p[n] in order && p[0] in order && Before(order, p[n], p[0]);
      var a :| 0 <= a < |order| && order[a] == p[0];
      var b :| 0 <= b < |order| && order[b] == p[n] && (n == 0 ==> b == a);
      PlacesRise(s, order, p, n, a, b);
    }
  }

  /** There is such an order exactly if no service depends on itself, directly or through others. */
  lemma OrderedExactly(s: Sys)
    requires WF(s)
    ensures Acyclic(s) <==> exists order :: Ordered(s, order)
  {
    if Acyclic(s) {
      var order := PutInOrder(s, s.svcs.Keys);
      forall d | d in s.deps ensures Before(order, s.deps[d].from, s.deps[d].to) {
        assert DepOK(s, d) && DependsOnIt(s, s.deps[d].from, s.deps[d].to);
      }
      assert Ordered(s, order);
    }
    if order :| Ordered(s, order) {
      forall p ensures !Cycle(s, p) {
        if Chain(s, p) {
          OrderedAcyclic(s, order, p);
        }
      }
    }
  }
}
