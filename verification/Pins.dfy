/**
  Start pins over a fixed acyclic graph of regular dependencies. A pin on a service also pins, through
  the propagation queue, everything the service depends on.
 */
module Pins {
  import opened QueueShape

  type Sid = int

  /** Who depends on whom. `rank` falls along every dependency, so there is no cycle. */
  datatype Graph = Graph(dependsOn: map<Sid, seq<Sid>>, dependents: map<Sid, seq<Sid>>, rank: map<Sid, nat>, top: nat)
  {
    ghost predicate Valid() {
      && dependsOn.Keys == dependents.Keys == rank.Keys && (forall x :: x in rank ==> rank[x] <= top)
      && (forall x, y :: x in dependsOn && y in dependsOn[x] ==> y in dependents && x in dependents[y])
      && (forall x, y :: y in dependents && x in dependents[y] ==> x in dependsOn && y in dependsOn[x])
      && (forall x, y :: x in dependsOn && y in dependsOn[x] ==> rank[y] < rank[x])
    }
  }

  datatype State = State(pinned: set<Sid>, dept: set<Sid>, flagged: set<Sid>, q: Shape<Sid>)
  {
    predicate StartPinned(x: Sid) { x in pinned || x in dept }
  }

  ghost predicate PinnedAbove(g: Graph, s: State, x: Sid) {
    exists z :: z in g.dependsOn && x in g.dependsOn[z] && s.StartPinned(z)
  }

  /** A service whose mark disagrees with its dependents is queued to look at them. */
  ghost predicate Told(g: Graph, s: State, x: Sid) {
    (x in s.dept) != PinnedAbove(g, s, x) ==> x in s.q.elems
  }

  ghost predicate Inv(g: Graph, s: State, but: set<Sid>) {
    && g.Valid() && WellShaped(s.q)
    && (forall x :: x in s.q.elems ==> x in g.dependsOn && x in s.flagged)
    && (forall x :: x in s.dept || x in s.pinned ==> x in g.dependsOn)
    && (forall x {:trigger Told(g, s, x)} :: x in g.dependsOn && x !in but ==> Told(g, s, x))
  }

  /** A chain of services, each depending on the next. */
  ghost predicate Chain(g: Graph, p: seq<Sid>) {
    |p| >= 2 && forall i :: 0 <= i < |p| - 1 ==> p[i] in g.dependsOn && p[i+1] in g.dependsOn[p[i]]
  }

  /** Some pinned service depends on `x`, directly or through others. */
  ghost predicate HeldUp(g: Graph, s: State, x: Sid) {
    exists p :: Chain(g, p) && p[0] in s.pinned && p[|p|-1] == x
  }

  /** With the queue drained, the marks are right: exactly the services below a pinned one have it. */
  lemma DrainedIsRight(g: Graph, s: State, x: Sid)
    requires Inv(g, s, {}) && s.q.elems == [] && x in g.dependsOn
    ensures x in s.dept <==> HeldUp(g, s, x)
  {
    if x in s.dept {
      MarkHasReason(g, s, x);
    }
    if HeldUp(g, s, x) {
      var p :| Chain(g, p) && p[0] in s.pinned && p[|p|-1] == x;
      ChainMarks(g, s, p);
    }
  }

  lemma {:induction false} MarkHasReason(g: Graph, s: State, x: Sid)
    requires Inv(g, s, {}) && s.q.elems == [] && x in s.dept
    ensures HeldUp(g, s, x)
    decreases g.top - g.rank[x]
  {
    assert Told(g, s, x);
    var z :| z in g.dependsOn && x in g.dependsOn[z] && s.StartPinned(z);
    if z in s.pinned {
      assert Chain(g, [z, x]);
    } else {
      MarkHasReason(g, s, z);
      var p :| Chain(g, p) && p[0] in s.pinned && p[|p|-1] == z;
      assert Chain(g, p + [x]);
    }
  }

  lemma {:induction false} ChainMarks(g: Graph, s: State, p: seq<Sid>)
    requires Inv(g, s, {}) && s.q.elems == [] && Chain(g, p) && p[0] in s.pinned
    ensures p[|p|-1] in s.dept
  {
    var n := |p|;
    if n > 2 {
      var r := p[..n-1];
      assert Chain(g, r);
      ChainMarks(g, s, r);
      assert r[|r|-1] == p[n-2];
    }
    assert p[n-1] in g.dependsOn[p[n-2]] && s.StartPinned(p[n-2]);
    assert PinnedAbove(g, s, p[n-1]);
    assert p[n-1] in g.dependents;
    assert Told(g, s, p[n-1]);
  }

  // ---------------------------------------------------------------- how long draining takes

  /** How many queue entries looking at a service can lead to. */
  ghost function Weight(g: Graph, x: Sid): (w: nat)
    requires g.Valid() && x in g.dependsOn
    ensures w >= 1
    decreases g.rank[x], 1, 0
  {
    1 + WeightFrom(g, x, 0)
  }

  ghost function WeightFrom(g: Graph, x: Sid, i: nat): nat
    requires g.Valid() && x in g.dependsOn && i <= |g.dependsOn[x]|
    decreases g.rank[x], 0, |g.dependsOn[x]| - i
  {
    if i == |g.dependsOn[x]| then 0 else
      assert g.dependsOn[x][i] in g.dependsOn[x];
      Weight(g, g.dependsOn[x][i]) + WeightFrom(g, x, i + 1)
  }

  ghost function Total(g: Graph, xs: seq<Sid>): nat
    requires g.Valid() && forall x :: x in xs ==> x in g.dependsOn
  {
    if xs == [] then 0 else
      assert xs[0] in xs;
      Weight(g, xs[0]) + Total(g, xs[1..])
  }

  lemma {:induction false} TotalSum(g: Graph, xs: seq<Sid>, ys: seq<Sid>)
    requires g.Valid() && (forall x :: x in xs ==> x in g.dependsOn) && (forall x :: x in ys ==> x in g.dependsOn)
    ensures forall x :: x in xs + ys ==> x in g.dependsOn
    ensures Total(g, xs + ys) == Total(g, xs) + Total(g, ys)
  {
    if xs == [] {
      assert xs + ys == ys;
    } else {
      assert (xs + ys)[1..] == xs[1..] + ys;
      TotalSum(g, xs[1..], ys);
    }
  }

  /** What is still to be popped, weighted; an element that a loop leads back to counts twice. */
  ghost function Work(g: Graph, q: Shape<Sid>): nat
    requires g.Valid() && WellShaped(q) && forall x :: x in q.elems ==> x in g.dependsOn
  {
    Total(g, q.elems) + (if q.back == -1 then 0 else assert q.elems[q.back] in q.elems; Weight(g, q.elems[q.back]))
  }

  lemma WorkAdd(g: Graph, q: Shape<Sid>, x: Sid)
    requires g.Valid() && WellShaped(q) && (forall y :: y in q.elems ==> y in g.dependsOn) && x in g.dependsOn
    ensures WellShaped(Add(q, x)) && (forall y :: y in Add(q, x).elems <==> y == x || y in q.elems)
    ensures Work(g, Add(q, x)) <= Work(g, q) + Weight(g, x)
  {
    AddMembers(q, x);
    if !IsQueued(q, x) {
      if x in q.elems {
        var init := q.elems[..|q.elems|-1];
        assert q.elems == init + [x];
        TotalEnds(g, init, x);
      } else {
        TotalEnds(g, q.elems, x);
      }
    }
  }

  lemma AddMembers(q: Shape<Sid>, x: Sid)
    requires WellShaped(q)
    ensures WellShaped(Add(q, x)) && (forall y :: y in Add(q, x).elems <==> y == x || y in q.elems)
  {
    AddKeeps(q, x);
    assert forall y :: y in Elements(Add(q, x)) <==> y in Add(q, x).elems;
    assert forall y :: y in Elements(q) <==> y in q.elems;
  }

  /** It does not matter at which end an element is. */
  lemma TotalEnds(g: Graph, xs: seq<Sid>, x: Sid)
    requires g.Valid() && (forall y :: y in xs ==> y in g.dependsOn) && x in g.dependsOn
    ensures (forall y :: y in xs + [x] ==> y in g.dependsOn) && (forall y :: y in [x] + xs ==> y in g.dependsOn)
    ensures Total(g, xs + [x]) == Total(g, [x] + xs) == Total(g, xs) + Weight(g, x)
  {
    TotalSum(g, xs, [x]);
    assert [x][1..] == [];
    assert ([x] + xs)[1..] == xs;
  }

  lemma WorkPop(g: Graph, q: Shape<Sid>)
    requires g.Valid() && WellShaped(q) && (forall y :: y in q.elems ==> y in g.dependsOn) && q.elems != []
    ensures WellShaped(Rest(q)) && (forall y :: y in Rest(q).elems ==> y in q.elems)
    ensures forall y :: y in q.elems && y != q.elems[0] ==> y in Rest(q).elems
    ensures Work(g, Rest(q)) == Work(g, q) - Weight(g, q.elems[0])
  {
    PopKeeps(q);
    assert forall y :: y in Elements(Rest(q)) <==> y in Rest(q).elems;
    assert forall y :: y in Elements(q) <==> y in q.elems;
    if q.back == 0 {
      TotalSum(g, q.elems[1..], [q.elems[0]]);
      assert Total(g, [q.elems[0]]) == Weight(g, q.elems[0]);
    }
  }

  // ---------------------------------------------------------------- the operations

  /** Everything said about the queue that does not depend on the pins. */
  ghost predicate QueueOK(g: Graph, s: State) {
    && g.Valid() && WellShaped(s.q)
    && (forall x :: x in s.q.elems ==> x in g.dependsOn && x in s.flagged)
    && (forall x :: x in s.dept || x in s.pinned ==> x in g.dependsOn)
  }

  /** Flag and queue the dependencies of a service whose mark is not `pin`. */
  method TellDependencies(g: Graph, s: State, x: Sid, pin: bool) returns (s': State)
    requires QueueOK(g, s) && x in g.dependsOn
    ensures QueueOK(g, s') && s'.pinned == s.pinned && s'.dept == s.dept
    ensures forall y :: y in s.q.elems ==> y in s'.q.elems
    ensures forall y :: y in g.dependsOn[x] ==> Asked(s', y, pin)
    ensures Work(g, s'.q) < Work(g, s.q) + Weight(g, x)
  {
    s' := s;
    var ys := g.dependsOn[x];
    for i := 0 to |ys|
      invariant QueueOK(g, s') && s'.pinned == s.pinned && s'.dept == s.dept
      invariant forall y :: y in s.q.elems ==> y in s'.q.elems
      invariant forall j :: 0 <= j < i ==> Asked(s', ys[j], pin)
      invariant Work(g, s'.q) + WeightFrom(g, x, i) <= Work(g, s.q) + WeightFrom(g, x, 0)
    {
      var y := ys[i];
      assert y in g.dependsOn[x];
      ghost var s1 := s';
      s' := Tell(g, s', y, pin);
      forall j | 0 <= j < i + 1 ensures Asked(s', ys[j], pin) { assert j < i ==> Asked(s1, ys[j], pin); }
    }
    forall y | y in ys ensures Asked(s', y, pin) { var j :| 0 <= j < |ys| && ys[j] == y; }
  }

  ghost predicate Asked(s: State, y: Sid, pin: bool) {
    (y in s.dept) != pin ==> y in s.q.elems
  }

  method Tell(g: Graph, s: State, y: Sid, pin: bool) returns (s': State)
    requires QueueOK(g, s) && y in g.dependsOn
    ensures QueueOK(g, s') && s'.pinned == s.pinned && s'.dept == s.dept
    ensures forall z :: z in s.q.elems ==> z in s'.q.elems
    ensures Asked(s', y, pin)
    ensures Work(g, s'.q) <= Work(g, s.q) + Weight(g, y)
  {
    s' := s;
    if (y in s.dept) != pin {
      WorkAdd(g, s.q, y);
      s' := s.(flagged := s.flagged + {y}, q := Add(s.q, y));
    }
  }

  /** Whether some dependent is pinned, itself or through its own dependents. */
  method LookUp(g: Graph, s: State, x: Sid) returns (pin: bool)
    requires g.Valid() && x in g.dependents
    ensures pin <==> PinnedAbove(g, s, x)
  {
    var zs := g.dependents[x];
    for i := 0 to |zs|
      invariant forall j :: 0 <= j < i ==> !s.StartPinned(zs[j])
    {
      if s.StartPinned(zs[i]) {
        assert zs[i] in zs;
        return true;
      }
    }
    forall z | z in g.dependsOn && x in g.dependsOn[z] ensures !s.StartPinned(z) { assert z in zs; }
    return false;
  }

  /** The part of propagation that looks at pins. */
  method Propagate(g: Graph, s: State, x: Sid) returns (s': State)
    requires Inv(g, s, {x}) && x in g.dependsOn && x in s.flagged
    ensures Inv(g, s', {}) && s'.pinned == s.pinned && Work(g, s'.q) < Work(g, s.q) + Weight(g, x)
  {
    var pin := LookUp(g, s, x);
    if pin == (x in s.dept) {
      s' := s;
      KeepsTold(g, s, s', {x}, x, {});
    } else {
      var s1 := s.(dept := if pin then s.dept + {x} else s.dept - {x});
      s' := TellDependencies(g, s1, x, pin);
      AfterFlip(g, s, s', x, pin);
    }
  }

  lemma KeepsTold(g: Graph, s: State, s': State, but: set<Sid>, x: Sid, but': set<Sid>)
    requires Inv(g, s, but) && s' == s && but' == but - {x} && Told(g, s, x)
    ensures Inv(g, s', but')
  {
  }

  /** Only the dependencies of `x` look at its mark. */
  lemma SameAbove(g: Graph, s: State, s': State, x: Sid, y: Sid)
    requires forall z :: z != x ==> s.StartPinned(z) == s'.StartPinned(z)
    requires x in g.dependsOn && y !in g.dependsOn[x]
    ensures PinnedAbove(g, s, y) == PinnedAbove(g, s', y)
  {
    if z :| z in g.dependsOn && y in g.dependsOn[z] && s.StartPinned(z) { assert s'.StartPinned(z); }
    if z :| z in g.dependsOn && y in g.dependsOn[z] && s'.StartPinned(z) { assert s.StartPinned(z); }
  }

  lemma AfterFlip(g: Graph, s: State, s': State, x: Sid, pin: bool)
    requires Inv(g, s, {x}) && x in g.dependsOn && QueueOK(g, s') && (pin <==> PinnedAbove(g, s, x))
             && pin != (x in s.dept)
    requires s'.pinned == s.pinned && s'.dept == if pin then s.dept + {x} else s.dept - {x}
    requires forall y :: y in s.q.elems ==> y in s'.q.elems
    requires forall y :: y in g.dependsOn[x] ==> Asked(s', y, pin)
    ensures Inv(g, s', {})
  {
    forall y | y in g.dependsOn ensures Told(g, s', y) {
      if y in g.dependsOn[x] {
        assert Told(g, s, y);
        if pin {
          assert s'.StartPinned(x) && PinnedAbove(g, s', y);
        } else {
          assert s.StartPinned(x) && PinnedAbove(g, s, y);
        }
      } else {
        SameAbove(g, s, s', x, y);
        if y != x { assert Told(g, s, y); }
      }
    }
  }

  method PinStart(g: Graph, s: State, x: Sid) returns (s': State)
    requires Inv(g, s, {}) && x in g.dependsOn
    ensures Inv(g, s', {}) && s'.pinned == s.pinned + {x} && s'.dept == s.dept
  {
    s' := s;
    if x !in s.pinned {
      if x !in s.dept {
        s' := TellDependencies(g, s, x, true);
      }
      s' := s'.(pinned := s'.pinned + {x});
      AfterPin(g, s, s', x);
    }
  }

  lemma AfterPin(g: Graph, s: State, s': State, x: Sid)
    requires Inv(g, s, {}) && x in g.dependsOn && QueueOK(g, s') && s'.pinned == s.pinned + {x} && s'.dept == s.dept
    requires forall y :: y in s.q.elems ==> y in s'.q.elems
    requires x !in s.dept ==> forall y :: y in g.dependsOn[x] ==> Asked(s', y, true)
    ensures Inv(g, s', {})
  {
    forall y | y in g.dependsOn ensures Told(g, s', y) {
      assert Told(g, s, y);
      if y in g.dependsOn[x] {
        assert s'.StartPinned(x) && PinnedAbove(g, s', y);
        if x in s.dept { assert s.StartPinned(x) && PinnedAbove(g, s, y); }
      } else {
        SameAbove(g, s, s', x, y);
      }
    }
  }

  method ReleasePin(g: Graph, s: State, x: Sid) returns (s': State)
    requires Inv(g, s, {}) && x in g.dependsOn
    ensures Inv(g, s', {}) && s'.pinned == s.pinned - {x} && s'.dept == s.dept
  {
    s' := s;
    if x in s.pinned {
      s' := s'.(pinned := s'.pinned - {x});
      if x !in s.dept {
        s' := TellDependencies(g, s', x, false);
      }
      AfterUnpin(g, s, s', x);
    }
  }

  lemma AfterUnpin(g: Graph, s: State, s': State, x: Sid)
    requires Inv(g, s, {}) && x in g.dependsOn && QueueOK(g, s') && x in s.pinned && s'.pinned == s.pinned - {x}
             && s'.dept == s.dept
    requires forall y :: y in s.q.elems ==> y in s'.q.elems
    requires x !in s.dept ==> forall y :: y in g.dependsOn[x] ==> Asked(s', y, false)
    ensures Inv(g, s', {})
  {
    forall y | y in g.dependsOn ensures Told(g, s', y) {
      assert Told(g, s, y);
      if y in g.dependsOn[x] && x !in s.dept {
        assert s.StartPinned(x) && PinnedAbove(g, s, y);
      } else if y in g.dependsOn[x] {
        assert s'.StartPinned(x) && PinnedAbove(g, s', y) && s.StartPinned(x) && PinnedAbove(g, s, y);
      } else {
        SameAbove(g, s, s', x, y);
      }
    }
  }

  lemma AfterPop(g: Graph, s: State, s': State)
    requires Inv(g, s, {}) && s.q.elems != [] && s' == s.(q := Rest(s.q))
    ensures Inv(g, s', {s.q.elems[0]}) && Work(g, s'.q) == Work(g, s.q) - Weight(g, s.q.elems[0])
  {
    WorkPop(g, s.q);
    forall y | y in g.dependsOn && y != s.q.elems[0] ensures Told(g, s', y) {
      assert Told(g, s, y);
      assert PinnedAbove(g, s, y) == PinnedAbove(g, s', y) by {
        if z :| z in g.dependsOn && y in g.dependsOn[z] && s.StartPinned(z) { assert s'.StartPinned(z); }
        if z :| z in g.dependsOn && y in g.dependsOn[z] && s'.StartPinned(z) { assert s.StartPinned(z); }
      }
    }
  }

  /** Draining the queue ends, and then the marks are exactly those of the services below a pinned one. */
  method Drain(g: Graph, s: State) returns (s': State)
    requires Inv(g, s, {})
    ensures Inv(g, s', {}) && s'.q.elems == [] && s'.pinned == s.pinned
    ensures forall x :: x in g.dependsOn ==> (x in s'.dept <==> HeldUp(g, s', x))
  {
    s' := s;
    while s'.q.elems != []
      invariant Inv(g, s', {}) && s'.pinned == s.pinned
      decreases Work(g, s'.q)
    {
      var x := s'.q.elems[0];
      assert x in s'.q.elems;
      ghost var s1 := s';
      s' := s'.(q := Rest(s'.q));
      AfterPop(g, s1, s');
      s' := Propagate(g, s', x);
    }
    forall x | x in g.dependsOn ensures x in s'.dept <==> HeldUp(g, s', x) { DrainedIsRight(g, s', x); }
  }

  class PinnedServices {
    const g: Graph
    var s: State

    ghost predicate Valid()
      reads this
    {
      Inv(g, s, {})
    }

    /** Nothing is pinned yet. */
    constructor (g: Graph)
      requires g.Valid()
      ensures Valid() && this.g == g && s == State({}, {}, {}, Shape([], -1))
    {
      this.g := g;
      s := State({}, {}, {}, Shape([], -1));
      new;
      forall x | x in g.dependsOn ensures Told(g, s, x) { }
    }

    method Pin(x: Sid)
      requires Valid() && x in g.dependsOn
      modifies this
      ensures Valid() && s.pinned == old(s.pinned) + {x}
    {
      s := PinStart(g, s, x);
    }

    method Unpin(x: Sid)
      requires Valid() && x in g.dependsOn
      modifies this
      ensures Valid() && s.pinned == old(s.pinned) - {x}
    {
      s := ReleasePin(g, s, x);
    }

    method ProcessQueue()
      requires Valid()
      modifies this
      ensures Valid() && s.pinned == old(s.pinned) && s.q.elems == []
      ensures forall x :: x in g.dependsOn ==> (x in s.dept <==> HeldUp(g, s, x))
    {
      s := Drain(g, s);
    }
  }
}
