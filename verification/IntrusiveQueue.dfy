/**
  The intrusive singly linked queue behind the propagation and transition queues. An element counts
  as queued when its `next` pointer is set or it is the first one, so the last of several elements
  does not, and queueing it again closes a loop.
 */
module QueueShape {

  /** What can be reached from the head: `elems` in order, the last of them pointing back to number
      `back`, or nowhere if `back` is -1. */
  datatype Shape<T(==)> = Shape(elems: seq<T>, back: int)

  ghost predicate Distinct<T>(s: seq<T>) {
    forall i, j :: 0 <= i < j < |s| ==> s[i] != s[j]
  }

  /** A path, or a path into one loop of at least two elements. */
  ghost predicate WellShaped<T>(q: Shape<T>) {
    Distinct(q.elems) && (q.back == -1 || 0 <= q.back <= |q.elems| - 2)
  }

  predicate IsQueued<T(==)>(q: Shape<T>, x: T) {
    x in q.elems && (x == q.elems[0] || q.back != -1 || x != q.elems[|q.elems|-1])
  }

  function Insert<T(==)>(q: Shape<T>, x: T): Shape<T> {
    if x in q.elems then Shape([x] + q.elems[..|q.elems|-1], 0)
    else Shape([x] + q.elems, if q.back == -1 then -1 else q.back + 1)
  }

  /** Queue an element unless it counts as queued. */
  function Add<T(==)>(q: Shape<T>, x: T): Shape<T> {
    if IsQueued(q, x) then q else Insert(q, x)
  }

  function Rest<T>(q: Shape<T>): Shape<T>
    requires q.elems != []
  {
    if q.back == 0 then Shape(q.elems[1..] + [q.elems[0]], -1)
    else Shape(q.elems[1..], if q.back == -1 then -1 else q.back - 1)
  }

  function Elements<T(==)>(q: Shape<T>): set<T> {
    set x | x in q.elems
  }

  /** Queueing never loses anything, and what is asked for is there afterwards. */
  lemma AddKeeps<T>(q: Shape<T>, x: T)
    requires WellShaped(q)
    ensures WellShaped(Add(q, x)) && Elements(Add(q, x)) == Elements(q) + {x}
  {
    if !IsQueued(q, x) && x in q.elems {
      var n := |q.elems|;
      var r := Insert(q, x);
      assert q.elems == q.elems[..n-1] + [x];
      assert forall y :: y in r.elems <==> y == x || y in q.elems[..n-1];
    } else if x !in q.elems {
      assert forall y :: y in ([x] + q.elems) <==> y == x || y in q.elems;
    }
  }

  /** What is queued comes out first: the queue is a stack. */
  lemma NewestFirst<T>(q: Shape<T>, x: T)
    requires WellShaped(q) && !IsQueued(q, x)
    ensures Add(q, x).elems != [] && Add(q, x).elems[0] == x
  {
  }

  /** Taking the head loses at most that element; an element in a loop is kept for another round. */
  lemma PopKeeps<T>(q: Shape<T>)
    requires WellShaped(q) && q.elems != []
    ensures WellShaped(Rest(q))
    ensures Elements(Rest(q)) == if q.back == 0 then Elements(q) else Elements(q) - {q.elems[0]}
  {
    var e, s := q.elems[0], q.elems;
    assert s == [e] + s[1..];
    assert forall y :: y in s <==> y == e || y in s[1..];
    assert e !in s[1..];
    if q.back == 0 {
      assert forall y :: y in s[1..] + [e] <==> y == e || y in s[1..];
    }
  }

  /** Exactly the last of several elements of a path can be queued twice, which closes a loop. */
  lemma LoopCloses<T>(q: Shape<T>, x: T)
    requires WellShaped(q) && q.back == -1
    ensures Add(q, x).back != -1 <==> |q.elems| >= 2 && x == q.elems[|q.elems|-1]
    ensures Add(q, x).back != -1 ==> Rounds(Add(q, x)) == Rounds(q) + 1
  {
  }

  /** How many pops it takes to empty the queue. */
  function Rounds<T>(q: Shape<T>): nat {
    |q.elems| + (if q.back == -1 then 0 else 1)
  }

  lemma PopProgress<T>(q: Shape<T>)
    requires WellShaped(q) && q.elems != []
    ensures Rounds(Rest(q)) == Rounds(q) - 1
  {
  }
}

module IntrusiveQueue {
  import opened QueueShape

  datatype Ptr<T> = Null | To(elem: T)

  /** The list as it lies in memory: the head and the `next` pointer of every element. */
  class Slist<T(==)> {
    var first: Ptr<T>
    var next: map<T, Ptr<T>>

    ghost var q: Shape<T>

    ghost predicate Valid()
      reads this
    {
      && WellShaped(q)
      && first == (if q.elems == [] then Null else To(q.elems[0]))
      && (forall x :: x in q.elems ==> x in next)
      && (forall x :: x in next && x !in q.elems ==> next[x] == Null)
      && (forall i :: 0 <= i < |q.elems| - 1 ==> next[q.elems[i]] == To(q.elems[i+1]))
      && (q.elems != [] ==> next[q.elems[|q.elems|-1]] == if q.back == -1 then Null else To(q.elems[q.back]))
    }

    constructor (elems: set<T>)
      ensures Valid() && q == Shape([], -1) && next.Keys == elems
    {
      first := Null;
      next := map x | x in elems :: Null;
      q := Shape([], -1);
    }

    method IsQueued(x: T) returns (r: bool)
      requires Valid() && x in next
      ensures r == QueueShape.IsQueued(q, x)
    {
      r := next[x] != Null || first == To(x);
      if x in q.elems {
        ghost var i :| 0 <= i < |q.elems| && q.elems[i] == x;
        assert i < |q.elems| - 1 ==> next[q.elems[i]] == To(q.elems[i+1]);
      }
    }

    method Insert(x: T)
      requires Valid() && x in next && !QueueShape.IsQueued(q, x)
      modifies this
      ensures Valid() && q == QueueShape.Insert(old(q), x) && next.Keys == old(next.Keys)
    {
      next := next[x := first];
      first := To(x);
      AddKeeps(q, x);
      q := QueueShape.Insert(q, x);
    }

    method Add(x: T)
      requires Valid() && x in next
      modifies this
      ensures Valid() && q == QueueShape.Add(old(q), x) && next.Keys == old(next.Keys)
    {
      var queued := IsQueued(x);
      if !queued {
        Insert(x);
      }
    }

    method PopFront() returns (x: T)
      requires Valid() && q.elems != []
      modifies this
      ensures Valid() && x == old(q).elems[0] && q == Rest(old(q)) && next.Keys == old(next.Keys)
    {
      PopKeeps(q);
      x := first.elem;
      first := next[x];
      next := next[x := Null];
      q := Rest(q);
    }

    /** Popping until the head is null visits every queued element. */
    method Drain() returns (popped: seq<T>)
      requires Valid()
      modifies this
      ensures Valid() && q.elems == [] && next.Keys == old(next.Keys)
      ensures |popped| == Rounds(old(q)) && (forall x :: x in popped <==> x in old(q).elems)
    {
      popped := [];
      while first != Null
        invariant Valid() && next.Keys == old(next.Keys)
        invariant |popped| + Rounds(q) == Rounds(old(q))
        invariant forall x :: x in popped || x in q.elems <==> x in old(q).elems
        decreases Rounds(q)
      {
        PopKeeps(q);
        PopProgress(q);
        assert forall y :: y in Elements(q) <==> y in q.elems;
        assert forall y :: y in Elements(Rest(q)) <==> y in Rest(q).elems;
        var x := PopFront();
        popped := popped + [x];
      }
    }
  }
}
