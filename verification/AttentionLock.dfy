/**
  The lock that keeps threads from polling the event mechanism while watches are changed: a queue of
  threads that want attention, a queue of lower priority for threads that want to poll, and a flag that
  tells whether the owner may be polling. Each critical section under the mutex is one step.
 */
module LockModel {
  type Thread = int

  /** `pollers` asked to poll; the others asked for attention. A thread that is in a queue either holds
      the lock or is `parked` on its condition variable. `interrupted` is reset when the head changes. */
  datatype Lock = Lock(
    attn: seq<Thread>, wait: seq<Thread>, longPoll: bool,
    pollers: set<Thread>, holding: set<Thread>, parked: set<Thread>, signalled: set<Thread>, interrupted: bool)
  {
    predicate Queued(t: Thread) { t in attn || t in wait }

    predicate IsHead(t: Thread) { attn != [] && attn[0] == t }
  }

  ghost predicate Distinct(s: seq<Thread>) {
    forall i, j :: 0 <= i < j < |s| ==> s[i] != s[j]
  }

  ghost predicate Inv(l: Lock) {
    // a thread is in one place only, and either runs or is parked
    && Distinct(l.attn + l.wait)
    && (forall t :: l.Queued(t) <==> t in l.holding || t in l.parked) && l.holding !! l.parked
    // the head alone may hold the lock, and if it does not, it has been told to wake up
    && (forall t :: t in l.holding ==> l.IsHead(t))
    && (forall t :: t in l.parked && l.IsHead(t) ==> t in l.signalled)
    // nobody waits to poll while the lock is free
    && (l.attn == [] ==> l.wait == [])
    // only the head can be a poller, and the flag says whether it is
    && (forall t :: t in l.pollers ==> l.Queued(t)) && (forall t :: t in l.wait ==> t in l.pollers)
    && (forall i :: 1 <= i < |l.attn| ==> l.attn[i] !in l.pollers)
    && (l.longPoll <==> l.attn != [] && l.attn[0] in l.pollers)
    // a poller that somebody waits behind has been interrupted
    && (l.longPoll && |l.attn| >= 2 ==> l.interrupted)
  }

  function Park(l: Lock, t: Thread): Lock {
    if l.IsHead(t) then l.(holding := l.holding + {t}, signalled := l.signalled - {t})
    else l.(parked := l.parked + {t}, signalled := l.signalled - {t})
  }

  function Attend(l: Lock, t: Thread): Lock {
    var first := l.attn == [];
    Park(l.(attn := l.attn + [t],
            interrupted := if first then false else l.interrupted || (l.longPoll && |l.attn| == 1)), t)
  }

  /** Fails while somebody polls. */
  function TryAttend(l: Lock, t: Thread): (Lock, bool) {
    if l.longPoll then (l, false)
    else (Park(l.(attn := l.attn + [t], interrupted := if l.attn == [] then false else l.interrupted), t), true)
  }

  function Poll(l: Lock, t: Thread): Lock {
    var l1 := l.(pollers := l.pollers + {t});
    if l.attn == [] then Park(l1.(attn := [t], longPoll := true, interrupted := false), t)
    else Park(l1.(wait := l.wait + [t]), t)
  }

  /** A parked thread looks again, because it was signalled or for no reason. */
  function Wake(l: Lock, t: Thread): Lock {
    if l.IsHead(t) then
      l.(parked := l.parked - {t}, holding := l.holding + {t}, signalled := l.signalled - {t},
         longPoll := l.longPoll || t in l.pollers)
    else l.(signalled := l.signalled - {t})
  }

  function Release(l: Lock, t: Thread): Lock
    requires l.attn != []
  {
    var l1 := l.(attn := l.attn[1..], longPoll := false, interrupted := false, holding := l.holding - {t},
                 pollers := l.pollers - {t});
    if l1.attn != [] then l1.(signalled := l1.signalled + {l1.attn[0]})
    else if l.wait != [] then
      l1.(attn := [l.wait[0]], wait := l.wait[1..], longPoll := true, signalled := l1.signalled + {l.wait[0]})
    else l1
  }

  function Interrupt(l: Lock): Lock {
    if l.attn == [] then l else l.(interrupted := true)
  }

  lemma AttendKeeps(l: Lock, t: Thread)
    requires Inv(l) && !l.Queued(t)
    ensures Inv(Attend(l, t))
  {
    var l' := Attend(l, t);
    assert forall u :: u in l'.attn <==> u in l.attn || u == t;
    assert Distinct(l'.attn + l'.wait) by { Moved(l.attn, l.wait, t); }
  }

  lemma TryAttendKeeps(l: Lock, t: Thread)
    requires Inv(l) && !l.Queued(t)
    ensures Inv(TryAttend(l, t).0)
  {
    var l' := TryAttend(l, t).0;
    if !l.longPoll {
      assert forall u :: u in l'.attn <==> u in l.attn || u == t;
      assert Distinct(l'.attn + l'.wait) by { Moved(l.attn, l.wait, t); }
    }
  }

  lemma Moved(a: seq<Thread>, b: seq<Thread>, t: Thread)
    requires Distinct(a + b) && t !in a && t !in b
    ensures Distinct(a + [t] + b) && Distinct(a + (b + [t]))
  {
    var c, e := a + [t] + b, a + (b + [t]);
    forall i, j | 0 <= i < j < |c| ensures c[i] != c[j] {
      var i', j' := if i <= |a| then i else i - 1, if j <= |a| then j else j - 1;
      assert i != |a| ==> c[i] == (a + b)[i'];
      assert j != |a| ==> c[j] == (a + b)[j'];
    }
    assert e == a + b + [t];
    assert forall k :: 0 <= k < |a + b| ==> (a + b)[k] in a || (a + b)[k] in b;
  }

  lemma PollKeeps(l: Lock, t: Thread)
    requires Inv(l) && !l.Queued(t)
    ensures Inv(Poll(l, t))
  {
    var l' := Poll(l, t);
    if l.attn == [] {
      assert l'.attn + l'.wait == [t];
    } else {
      Moved(l.attn, l.wait, t);
      assert forall u :: u in l'.wait <==> u in l.wait || u == t;
      assert forall i :: 0 <= i < |l.attn| ==> l.attn[i] in l.attn;
      assert !l.IsHead(t);
    }
  }

  lemma WakeKeeps(l: Lock, t: Thread)
    requires Inv(l) && t in l.parked
    ensures Inv(Wake(l, t))
  {
  }

  lemma ReleaseKeeps(l: Lock, t: Thread)
    requires Inv(l) && t in l.holding
    ensures Inv(Release(l, t))
  {
    var l', all := Release(l, t), l.attn + l.wait;
    assert l.attn == [t] + l.attn[1..];
    assert l'.attn + l'.wait == all[1..];
    forall i, j | 0 <= i < j < |all[1..]| ensures all[1..][i] != all[1..][j] { assert all[i+1] != all[j+1]; }
    forall u ensures l'.Queued(u) <==> l.Queued(u) && u != t {
      assert all[0] == t;
      assert u in all[1..] ==> u != t;
      assert u in all <==> u == t || u in all[1..];
      assert u in all <==> l.Queued(u);
      assert u in l'.attn + l'.wait <==> l'.Queued(u);
    }
    forall i | 1 <= i < |l'.attn| ensures l'.attn[i] !in l'.pollers { assert l'.attn[i] == l.attn[i+1]; }
  }

  // ---------------------------------------------------------------- every interleaving

  datatype Action =
    | DoAttend(t: Thread) | DoTry(t: Thread) | DoPoll(t: Thread) | DoWake(t: Thread) | DoRelease(t: Thread)
    | DoInterrupt

  /** A thread asks for the lock only while it is in no queue, and releases it only while it holds it. */
  predicate Enabled(l: Lock, a: Action) {
    match a
    case DoAttend(t) => !l.Queued(t)
    case DoTry(t) => !l.Queued(t)
    case DoPoll(t) => !l.Queued(t)
    case DoWake(t) => t in l.parked
    case DoRelease(t) => t in l.holding && l.attn != []
    case DoInterrupt => true
  }

  function Do(l: Lock, a: Action): Lock
    requires Enabled(l, a)
  {
    match a
    case DoAttend(t) => Attend(l, t)
    case DoTry(t) => TryAttend(l, t).0
    case DoPoll(t) => Poll(l, t)
    case DoWake(t) => Wake(l, t)
    case DoRelease(t) => Release(l, t)
    case DoInterrupt => Interrupt(l)
  }

  const IDLE := Lock([], [], false, {}, {}, {}, {}, false)

  /** The state after a sequence of steps; steps that are not possible at that point are skipped. */
  function Run(acts: seq<Action>): Lock {
    if acts == [] then IDLE
    else
      var l, a := Run(acts[..|acts|-1]), acts[|acts|-1];
      if Enabled(l, a) then Do(l, a) else l
  }

  lemma {:induction false} RunKeeps(acts: seq<Action>)
    ensures Inv(Run(acts))
  {
    if acts != [] {
      var l, a := Run(acts[..|acts|-1]), acts[|acts|-1];
      RunKeeps(acts[..|acts|-1]);
      if Enabled(l, a) {
        match a
        case DoAttend(t) => AttendKeeps(l, t);
        case DoTry(t) => TryAttendKeeps(l, t);
        case DoPoll(t) => PollKeeps(l, t);
        case DoWake(t) => WakeKeeps(l, t);
        case DoRelease(t) => ReleaseKeeps(l, t);
        case DoInterrupt =>
      }
    }
  }

  /** In every interleaving at most one thread holds the lock. */
  lemma MutualExclusion(acts: seq<Action>, t: Thread, u: Thread)
    requires t in Run(acts).holding && u in Run(acts).holding
    ensures t == u
  {
    RunKeeps(acts);
  }

  /** Whenever threads are queued, one of them holds the lock or has been told to take it. */
  lemma NeverStuck(acts: seq<Action>, t: Thread)
    requires Run(acts).Queued(t)
    ensures var l := Run(acts);
            l.attn != [] && (l.attn[0] in l.holding || (l.attn[0] in l.parked && l.attn[0] in l.signalled))
  {
    RunKeeps(acts);
    var l := Run(acts);
    assert l.Queued(t) && l.attn != [];
    assert l.Queued(l.attn[0]) && l.IsHead(l.attn[0]);
  }
}

/** The lock as it lies in memory: both queues are linked through the `next` pointers of the threads' own
    nodes. */
module AttentionLock {
  import opened LockModel

  datatype Ptr = Null | To(t: Thread)

  /** A queue from `head` along `next` to `tail`. */
  ghost predicate Linked(head: Ptr, tail: Ptr, next: map<Thread, Ptr>, q: seq<Thread>) {
    if q == [] then head == Null && tail == Null
    else
      && head == To(q[0]) && tail == To(q[|q|-1])
      && (forall i :: 0 <= i < |q| ==> q[i] in next)
      && (forall i :: 0 <= i < |q| - 1 ==> next[q[i]] == To(q[i+1])) && next[q[|q|-1]] == Null
  }

  /** Append a node to a queue. Only that node and the last one are written. */
  method QueueNode(head: Ptr, tail: Ptr, next: map<Thread, Ptr>, t: Thread, ghost q: seq<Thread>)
    returns (head': Ptr, tail': Ptr, next': map<Thread, Ptr>)
    requires Linked(head, tail, next, q) && Distinct(q) && t !in q
    ensures Linked(head', tail', next', q + [t])
    ensures forall u :: u in next && u != t && u !in q ==> u in next' && next'[u] == next[u]
  {
    head' := head;
    next' := next[t := Null];
    if tail != Null {
      assert q[|q|-1] in q;
      next' := next'[tail.t := To(t)];
    } else {
      head' := To(t);
    }
    tail' := To(t);
  }

  /** Take the first node off a queue. */
  method Unqueue(head: Ptr, tail: Ptr, next: map<Thread, Ptr>, ghost q: seq<Thread>) returns (head': Ptr, tail': Ptr)
    requires Linked(head, tail, next, q) && q != []
    ensures Linked(head', tail', next, q[1..])
  {
    assert |q| > 1 ==> next[q[0]] == To(q[0+1]);
    head' := next[head.t];
    tail' := tail;
    if head' == Null {
      tail' := Null;
    }
  }

  lemma LinkedFrame(head: Ptr, tail: Ptr, next: map<Thread, Ptr>, next': map<Thread, Ptr>, q: seq<Thread>)
    requires Linked(head, tail, next, q) && forall i :: 0 <= i < |q| ==> q[i] in next' && next'[q[i]] == next[q[i]]
    ensures Linked(head, tail, next', q)
  {
  }

  /** What the queues of a lock have in common: nothing. */
  lemma Apart(l: Lock)
    requires Inv(l)
    ensures Distinct(l.attn) && Distinct(l.wait) && forall i :: 0 <= i < |l.wait| ==> l.wait[i] !in l.attn
  {
    var all := l.attn + l.wait;
    forall i, j | 0 <= i < j < |l.attn| ensures l.attn[i] != l.attn[j] { assert all[i] != all[j]; }
    forall i, j | 0 <= i < j < |l.wait| ensures l.wait[i] != l.wait[j] { assert all[|l.attn|+i] != all[|l.attn|+j]; }
    forall i, j | 0 <= i < |l.wait| && 0 <= j < |l.attn| ensures l.wait[i] != l.attn[j] {
      assert all[j] != all[|l.attn|+i];
    }
  }

  /** Both queues as they lie in memory. */
  ghost predicate Linked2(ah: Ptr, at: Ptr, wh: Ptr, wt: Ptr, next: map<Thread, Ptr>, l: Lock) {
    Linked(ah, at, next, l.attn) && Linked(wh, wt, next, l.wait)
  }

  /** A thread joins the queue for attention. */
  method JoinAttn(ah: Ptr, at: Ptr, wh: Ptr, wt: Ptr, next: map<Thread, Ptr>, t: Thread, ghost l: Lock)
    returns (ah': Ptr, at': Ptr, next': map<Thread, Ptr>, second: bool)
    requires Linked2(ah, at, wh, wt, next, l) && Inv(l) && !l.Queued(t)
    ensures Linked2(ah', at', wh, wt, next', l.(attn := l.attn + [t]))
    ensures (ah' == To(t) <==> l.attn == []) && (second <==> |l.attn| == 1)
  {
    Apart(l);
    ah', at', next' := QueueNode(ah, at, next, t, l.attn);
    LinkedFrame(wh, wt, next, next', l.wait);
    ghost var q := l.attn + [t];
    assert |q| > 1 ==> next'[q[0]] == To(q[0+1]);
    assert forall i :: 0 <= i < |l.attn| ==> q[i] in l.attn;
    second := ah' != To(t) && next'[ah'.t] == To(t);
  }

  /** A thread joins the queue for polling. */
  method JoinWait(ah: Ptr, at: Ptr, wh: Ptr, wt: Ptr, next: map<Thread, Ptr>, t: Thread, ghost l: Lock)
    returns (wh': Ptr, wt': Ptr, next': map<Thread, Ptr>)
    requires Linked2(ah, at, wh, wt, next, l) && Inv(l) && !l.Queued(t)
    ensures Linked2(ah, at, wh', wt', next', l.(wait := l.wait + [t]))
  {
    Apart(l);
    wh', wt', next' := QueueNode(wh, wt, next, t, l.wait);
    LinkedFrame(ah, at, next, next', l.attn);
  }

  /** The owner leaves. If nobody else wants attention, the first that wants to poll comes next. */
  method Leave(ah: Ptr, at: Ptr, wh: Ptr, wt: Ptr, next: map<Thread, Ptr>, t: Thread, ghost l: Lock)
    returns (ah': Ptr, at': Ptr, wh': Ptr, wt': Ptr, next': map<Thread, Ptr>, poll: bool)
    requires Linked2(ah, at, wh, wt, next, l) && Inv(l) && l.attn != []
    ensures Linked2(ah', at', wh', wt', next', Release(l, t)) && poll == Release(l, t).longPoll
  {
    wh', wt', next', poll := wh, wt, next, false;
    ah', at' := Unqueue(ah, at, next, l.attn);
    if ah' == Null && wh != Null {
      Apart(l);
      var u := wh.t;
      wh', wt' := Unqueue(wh, wt, next, l.wait);
      ah', at', next' := QueueNode(ah', at', next, u, []);
      assert forall i :: 0 <= i < |l.wait| - 1 ==> l.wait[1..][i] != u;
      LinkedFrame(wh', wt', next, next', l.wait[1..]);
      poll := true;
      assert [] + [u] == [l.wait[0]];
    }
  }

  class EventLoopLock {
    var attnHead: Ptr
    var attnTail: Ptr
    var waitHead: Ptr
    var waitTail: Ptr
    var next: map<Thread, Ptr>
    var longPoll: bool

    ghost var l: Lock

    ghost predicate Valid()
      reads this
    {
      && Inv(l) && longPoll == l.longPoll
      && Linked2(attnHead, attnTail, waitHead, waitTail, next, l)
    }

    constructor ()
      ensures Valid() && l == IDLE
    {
      attnHead, attnTail, waitHead, waitTail := Null, Null, Null, Null;
      next := map[];
      longPoll := false;
      l := IDLE;
    }

    /** Ask for attention. Returns whether the lock is held at once, or the thread has to park, and whether
        the thread interrupts a poll. */
    method GetAttnLock(t: Thread) returns (held: bool, interrupts: bool)
      requires Valid() && !l.Queued(t)
      modifies this
      ensures Valid() && l == Attend(old(l), t) && (held <==> t in l.holding)
      ensures interrupts <==> old(l.longPoll) && |old(l.attn)| == 1
    {
      AttendKeeps(l, t);
      var second;
      attnHead, attnTail, next, second := JoinAttn(attnHead, attnTail, waitHead, waitTail, next, t, l);
      held := attnHead == To(t);
      interrupts := !held && longPoll && second;
      l := Attend(l, t);
    }

    /** Ask for attention unless somebody polls. */
    method PollAttnLock(t: Thread) returns (queued: bool, held: bool)
      requires Valid() && !l.Queued(t)
      modifies this
      ensures Valid() && (l, queued) == TryAttend(old(l), t) && (held <==> t in l.holding)
    {
      if longPoll {
        return false, false;
      }
      TryAttendKeeps(l, t);
      var second;
      attnHead, attnTail, next, second := JoinAttn(attnHead, attnTail, waitHead, waitTail, next, t, l);
      queued, held := true, attnHead == To(t);
      l := TryAttend(l, t).0;
    }

    /** Ask to poll. */
    method GetPollwaitLock(t: Thread) returns (held: bool)
      requires Valid() && !l.Queued(t)
      modifies this
      ensures Valid() && l == Poll(old(l), t) && (held <==> t in l.holding)
    {
      held := attnHead == Null;
      if held {
        PollAlone(t);
      } else {
        PollLater(t);
      }
    }

    /** Nobody is there: the thread has the lock at once. */
    method PollAlone(t: Thread)
      requires Valid() && !l.Queued(t) && l.attn == []
      modifies this
      ensures Valid() && l == Poll(old(l), t) && t in l.holding
    {
      PollKeeps(l, t);
      var second;
      attnHead, attnTail, next, second := JoinAttn(attnHead, attnTail, waitHead, waitTail, next, t, l);
      longPoll := true;
      assert l.attn + [t] == [t];
      l := Poll(l, t);
    }

    /** Others come first. */
    method PollLater(t: Thread)
      requires Valid() && !l.Queued(t) && l.attn != []
      modifies this
      ensures Valid() && l == Poll(old(l), t) && t !in l.holding
    {
      PollKeeps(l, t);
      waitHead, waitTail, next := JoinWait(attnHead, attnTail, waitHead, waitTail, next, t, l);
      l := Poll(l, t);
    }

    /** A parked thread looks whether it is at the head by now. */
    method WakeUp(t: Thread, poller: bool) returns (held: bool)
      requires Valid() && t in l.parked && poller == (t in l.pollers)
      modifies this
      ensures Valid() && l == Wake(old(l), t) && (held <==> t in l.holding)
    {
      WakeKeeps(l, t);
      held := attnHead == To(t);
      if held && poller {
        longPoll := true;
      }
      l := Wake(l, t);
    }

    /** Give the lock up. Returns the thread that is signalled to take it next. */
    method ReleaseLock(t: Thread) returns (signalled: Ptr)
      requires Valid() && t in l.holding
      modifies this
      ensures Valid() && l == Release(old(l), t)
      ensures signalled == if l.attn == [] then Null else To(l.attn[0])
    {
      ReleaseKeeps(l, t);
      attnHead, attnTail, waitHead, waitTail, next, longPoll :=
        Leave(attnHead, attnTail, waitHead, waitTail, next, t, l);
      l := Release(l, t);
      signalled := attnHead;
    }
  }
}
