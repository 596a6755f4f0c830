/**
  How much there is still to propagate. On a graph without cycles, propagating anything leaves less.
 */
module ServiceWork {
  import opened QueueShape
  import opened ServiceModel
  import opened ServiceStops
  import opened ServiceStarts

  // ---------------------------------------------------------------- an order for the services

  ghost predicate Before(order: seq<Sid>, x: Sid, y: Sid) {
    forall i, j :: 0 <= i < |order| && 0 <= j < |order| && order[i] == x && order[j] == y ==> i < j
  }

  /** All services are listed, each before those it depends on; so there is no cycle. */
  ghost predicate Ordered(s: Sys, order: seq<Sid>) {
    && (forall x :: x in s.svcs ==> x in order) && (forall x :: x in order ==> x in s.svcs)
    && (forall d {:trigger s.deps[d]} :: d in s.deps ==> Before(order, s.deps[d].from, s.deps[d].to))
  }

  lemma OrderedStill(s: Sys, s': Sys, order: seq<Sid>)
    requires SameGraph(s, s') && Ordered(s, order)
    ensures Ordered(s', order)
  {
  }

  lemma Listed(s: Sys, order: seq<Sid>, i: nat)
    requires Ordered(s, order) && i < |order|
    ensures order[i] in s.svcs
  {
    var x := order[i];
    assert x in order;
  }

  lemma NotItself(s: Sys, order: seq<Sid>, x: Sid)
    requires Ordered(s, order) && x in s.svcs
    ensures !DependsOnIt(s, x, x)
  {
    var i :| 0 <= i < |order| && order[i] == x;
    forall d | d in s.deps ensures !(s.deps[d].from == x && s.deps[d].to == x) {
      assert Before(order, s.deps[d].from, s.deps[d].to);
    }
  }

  // ---------------------------------------------------------------- numbers and sums

  /** The number written with these digits, to the base 4. */
  function Number(ds: seq<nat>): nat {
    if ds == [] then 0 else 4 * Number(ds[..|ds|-1]) + ds[|ds|-1]
  }

  lemma {:induction false} NumberMost(a: seq<nat>, b: seq<nat>)
    requires |a| == |b| && forall i :: 0 <= i < |a| ==> a[i] <= b[i]
    ensures Number(a) <= Number(b)
  {
    if a != [] {
      NumberMost(a[..|a|-1], b[..|b|-1]);
    }
  }

  /** The first digit that differs decides. */
  lemma {:induction false} NumberLess(a: seq<nat>, b: seq<nat>, k: nat)
    requires |a| == |b| && k < |a| && (forall i :: 0 <= i < |a| ==> a[i] < 4)
    requires (forall i :: 0 <= i < k ==> a[i] <= b[i]) && a[k] < b[k]
    ensures Number(a) < Number(b)
  {
    var n := |a| - 1;
    if k == n {
      NumberMost(a[..n], b[..n]);
    } else {
      NumberLess(a[..n], b[..n], k);
    }
  }

  function Sum(ds: seq<nat>): nat {
    if ds == [] then 0 else Sum(ds[..|ds|-1]) + ds[|ds|-1]
  }

  lemma {:induction false} SumMost(a: seq<nat>, b: seq<nat>)
    requires |a| == |b| && forall i :: 0 <= i < |a| ==> a[i] <= b[i]
    ensures Sum(a) <= Sum(b)
    ensures (exists k :: 0 <= k < |a| && a[k] < b[k]) ==> Sum(a) < Sum(b)
  {
    if a != [] {
      var n := |a| - 1;
      SumMost(a[..n], b[..n]);
      if k :| 0 <= k < |a| && a[k] < b[k] {
        assert k < n ==> a[..n][k] < b[..n][k];
      }
    }
  }

  // ---------------------------------------------------------------- what there is to do

  function Flag(p: bool): nat { if p then 1 else 0 }

  function StartOf(v: Service): nat {
    2 * Flag(PropStart in v.prop) + Flag(PropRequire in v.prop)
  }

  function HeldOf(v: Service): nat {
    (if v.requiredBy < 0 then 0 else 2 * v.requiredBy) + Flag(PropRelease in v.prop)
  }

  ghost predicate PinsDown(s: Sys, d: Did) {
    d in s.deps && s.deps[d].IsHard() && s.deps[d].from in s.svcs && s.svcs[s.deps[d].from].IsStartPinned()
  }

  ghost predicate PinnedAbove(s: Sys, x: Sid) {
    exists d :: d in s.deps && s.deps[d].to == x && PinsDown(s, d)
  }

  ghost function StartDigits(s: Sys, order: seq<Sid>): (r: seq<nat>)
    ensures |r| == |order|
    ensures forall i :: 0 <= i < |order| && order[i] in s.svcs ==> r[i] == StartOf(s.svcs[order[i]])
  {
    seq(|order|, i requires 0 <= i < |order| => if order[i] in s.svcs then StartOf(s.svcs[order[i]]) else 0)
  }

  ghost function HeldDigits(s: Sys, order: seq<Sid>): (r: seq<nat>)
    ensures |r| == |order|
    ensures forall i :: 0 <= i < |order| && order[i] in s.svcs ==> r[i] == HeldOf(s.svcs[order[i]])
  {
    seq(|order|, i requires 0 <= i < |order| => if order[i] in s.svcs then HeldOf(s.svcs[order[i]]) else 0)
  }

  /** Dependencies come before dependents here. */
  ghost function FlagDigits(s: Sys, order: seq<Sid>, f: Prop): (r: seq<nat>)
    ensures |r| == |order|
    ensures forall i {:trigger r[i]} :: 0 <= i < |order| && order[|order|-1-i] in s.svcs ==>
              r[i] == Flag(f in s.svcs[order[|order|-1-i]].prop)
  {
    seq(|order|, i requires 0 <= i < |order| =>
      if order[|order|-1-i] in s.svcs then Flag(f in s.svcs[order[|order|-1-i]].prop) else 0)
  }

  ghost function PinDigits(s: Sys, order: seq<Sid>): (r: seq<nat>)
    ensures |r| == |order|
    ensures forall i :: 0 <= i < |order| && order[i] in s.svcs ==>
              r[i] == Flag(s.svcs[order[i]].deptPinned != PinnedAbove(s, order[i]))
  {
    seq(|order|, i requires 0 <= i < |order| =>
      if order[i] in s.svcs then Flag(s.svcs[order[i]].deptPinned != PinnedAbove(s, order[i])) else 0)
  }

  /** What there is to do, the most important first: starts, the console, acquisitions to give back, links waited on,
      failures, wrong marks for pins, and stops. */
  datatype Load = Load(start: nat, line: nat, held: nat, waits: set<Did>, fails: nat, pins: nat, stops: nat)

  ghost function Waits(s: Sys): set<Did> {
    set d | d in s.deps && s.deps[d].waitingOn
  }

  ghost function LoadOf(s: Sys, order: seq<Sid>): Load {
    Load(Number(StartDigits(s, order)), |s.consoleQ|, Sum(HeldDigits(s, order)),
         Waits(s),
         Number(FlagDigits(s, order, PropFailure)), Number(PinDigits(s, order)),
         Number(FlagDigits(s, order, PropStop)))
  }

  ghost predicate Less(a: Load, b: Load) {
    || a.start < b.start
    || (a.start == b.start && (
          || a.line < b.line
          || (a.line == b.line && (a.held < b.held || (a.held == b.held && LessLater(a, b))))))
  }

  ghost predicate LessLater(a: Load, b: Load) {
    || a.waits < b.waits
    || (a.waits == b.waits && (
          || a.fails < b.fails
          || (a.fails == b.fails && (a.pins < b.pins || (a.pins == b.pins && a.stops < b.stops)))))
  }

  /** Nothing that comes first has grown, and something is less. */
  lemma LessSomewhere(a: Load, b: Load)
    requires a.start <= b.start && a.line <= b.line && a.held <= b.held && a.waits <= b.waits
    requires a.held < b.held || a.waits < b.waits || a.fails < b.fails
             || (a.fails <= b.fails && (a.pins < b.pins || (a.pins == b.pins && a.stops < b.stops)))
    ensures Less(a, b)
  {
  }

  lemma LessTrans(a: Load, b: Load, c: Load)
    requires Less(a, b) && Less(b, c)
    ensures Less(a, c)
  {
  }

  /** There is less to do, in whatever order the services are listed. */
  ghost predicate Lessens(s: Sys, s': Sys) {
    forall order {:trigger Ordered(s, order)} :: Ordered(s, order) ==> Less(LoadOf(s', order), LoadOf(s, order))
  }

  /** Nothing has changed, or there is less to do. */
  ghost predicate Progress(s: Sys, s': Sys) {
    s' == s || (SameGraph(s, s') && Lessens(s, s'))
  }

  lemma ProgressTrans(s: Sys, s1: Sys, s2: Sys)
    requires Progress(s, s1) && Progress(s1, s2) && (s1 != s || s2 != s1 ==> SameGraph(s, s2))
    ensures Progress(s, s2)
  {
    if s1 != s && s2 != s1 {
      forall order | Ordered(s, order) ensures Less(LoadOf(s2, order), LoadOf(s, order)) {
        OrderedStill(s, s1, order);
        LessTrans(LoadOf(s2, order), LoadOf(s1, order), LoadOf(s, order));
      }
    }
  }

  /** What is queued makes no difference. */
  lemma LoadQueued(s: Sys, s1: Sys, order: seq<Sid>)
    requires s1 == s.(propQ := s1.propQ) && Ordered(s, order)
    ensures LoadOf(s1, order) == LoadOf(s, order)
  {
    forall i | 0 <= i < |order|
      ensures && StartDigits(s1, order)[i] == StartDigits(s, order)[i]
              && HeldDigits(s1, order)[i] == HeldDigits(s, order)[i] {
      Listed(s, order, i);
    }
    assert StartDigits(s1, order) == StartDigits(s, order) && HeldDigits(s1, order) == HeldDigits(s, order);
    SameFlag(s, s1, order, PropFailure);
    SameFlag(s, s1, order, PropStop);
    PinsStay(s, s1, order);
  }

  // ---------------------------------------------------------------- starting

  lemma UnaskedMost(s: Sys, s': Sys, x: Sid)
    requires SameGraph(s, s') && Unasked(s, s') && x in s.svcs
    ensures x in s'.svcs && StartOf(s'.svcs[x]) <= StartOf(s.svcs[x])
  {
    assert x in s'.svcs;
    assert UnaskedSvc(s.svcs[x], s'.svcs[x]);
  }

  lemma StartMost(s: Sys, s': Sys, order: seq<Sid>)
    requires SameGraph(s, s') && Ordered(s, order) && Unasked(s, s')
    ensures LoadOf(s', order).start <= LoadOf(s, order).start
  {
    var a, b := StartDigits(s', order), StartDigits(s, order);
    forall i | 0 <= i < |order| ensures a[i] <= b[i] {
      Listed(s, order, i);
      UnaskedMost(s, s', order[i]);
    }
    NumberMost(a, b);
  }

  /** The request to acquire the dependencies is gone, and only they have been asked to start. */
  ghost predicate AskedBelow(s: Sys, s': Sys, x: Sid) {
    && SameGraph(s, s') && x in s.svcs && PropRequire in s.svcs[x].prop && PropRequire !in s'.svcs[x].prop
    && (forall y {:trigger s'.svcs[y]} :: y in s.svcs && PropRequire in s'.svcs[y].prop ==>
          PropRequire in s.svcs[y].prop)
    && (forall y {:trigger s'.svcs[y]} :: y in s.svcs && PropStart in s'.svcs[y].prop ==>
          PropStart in s.svcs[y].prop || DependsOnIt(s, x, y))
  }

  lemma AskedLessens(s: Sys, s': Sys, x: Sid)
    requires AskedBelow(s, s', x)
    ensures Lessens(s, s')
  {
    forall order | Ordered(s, order) ensures Less(LoadOf(s', order), LoadOf(s, order)) {
      NotItself(s, order, x);
      var a, b := StartDigits(s', order), StartDigits(s, order);
      var k :| 0 <= k < |order| && order[k] == x;
      forall i | 0 <= i < k ensures a[i] <= b[i] {
        Listed(s, order, i);
        NotBelow(s, order, x, k, i);
      }
      forall i | 0 <= i < |order| ensures a[i] < 4 { Listed(s, order, i); }
      NumberLess(a, b, k);
    }
  }

  lemma NotBelow(s: Sys, order: seq<Sid>, x: Sid, k: nat, i: nat)
    requires Ordered(s, order) && i < k < |order| && order[k] == x
    ensures !DependsOnIt(s, x, order[i])
  {
    forall d | d in s.deps ensures !(s.deps[d].from == x && s.deps[d].to == order[i]) {
      assert Before(order, s.deps[d].from, s.deps[d].to);
    }
  }

  lemma NotAbove(s: Sys, order: seq<Sid>, x: Sid, k: nat, i: nat)
    requires Ordered(s, order) && k < i < |order| && order[k] == x
    ensures !DependsOnIt(s, order[i], x)
  {
    forall d | d in s.deps ensures !(s.deps[d].from == order[i] && s.deps[d].to == x) {
      assert Before(order, s.deps[d].from, s.deps[d].to);
    }
  }

  /** The request to start is gone, and only that may have led to a request to acquire the dependencies. */
  ghost predicate AskedHere(s: Sys, s': Sys, x: Sid) {
    && SameGraph(s, s') && x in s.svcs && PropStart in s.svcs[x].prop && PropStart !in s'.svcs[x].prop
    && (forall y {:trigger s'.svcs[y]} :: y in s.svcs && PropStart in s'.svcs[y].prop ==> PropStart in s.svcs[y].prop)
    && (forall y {:trigger s'.svcs[y]} :: y in s.svcs && y != x && PropRequire in s'.svcs[y].prop ==>
          PropRequire in s.svcs[y].prop)
  }

  lemma AskedMost(s: Sys, s': Sys, x: Sid, y: Sid)
    requires AskedHere(s, s', x) && y in s.svcs
    ensures y in s'.svcs && StartOf(s'.svcs[y]) <= StartOf(s.svcs[y])
  {
    assert y in s'.svcs;
  }

  lemma StartLessens(s: Sys, s': Sys, x: Sid)
    requires AskedHere(s, s', x)
    ensures Lessens(s, s')
  {
    forall order | Ordered(s, order) ensures Less(LoadOf(s', order), LoadOf(s, order)) {
      var a, b := StartDigits(s', order), StartDigits(s, order);
      var k :| 0 <= k < |order| && order[k] == x;
      forall i | 0 <= i < |order| ensures a[i] < 4 && a[i] <= b[i] {
        Listed(s, order, i);
        AskedMost(s, s', x, order[i]);
      }
      NumberLess(a, b, k);
    }
  }

  // ---------------------------------------------------------------- releasing

  lemma Counting(s: Sys, w: Slack, x: Sid)
    requires Inv(s, w) && x in s.svcs
    ensures s.svcs[x].requiredBy >= 0
  {
    assert LinksOK(s, x) && Counted(s, x);
  }

  lemma HeldMost(s: Sys, s': Sys, order: seq<Sid>, w: Slack)
    requires SameGraph(s, s') && Ordered(s, order) && Inv(s', w)
    requires forall y {:trigger s'.svcs[y]} :: y in s.svcs ==> FallsSvc(s.svcs[y], s'.svcs[y])
    ensures LoadOf(s', order).held <= LoadOf(s, order).held
    ensures (exists y :: y in s.svcs && y in s'.svcs && s'.svcs[y].requiredBy < s.svcs[y].requiredBy) ==>
              LoadOf(s', order).held < LoadOf(s, order).held
  {
    var a, b := HeldDigits(s', order), HeldDigits(s, order);
    forall i | 0 <= i < |order| ensures a[i] <= b[i] {
      Listed(s, order, i);
      Counting(s', w, order[i]);
      assert FallsSvc(s.svcs[order[i]], s'.svcs[order[i]]);
    }
    SumMost(a, b);
    if y :| y in s.svcs && y in s'.svcs && s'.svcs[y].requiredBy < s.svcs[y].requiredBy {
      var k :| 0 <= k < |order| && order[k] == y;
      Counting(s', w, y);
      assert a[k] < b[k];
    }
  }

  lemma WaitsMost(s: Sys, s': Sys)
    requires SameGraph(s, s') && forall d :: d in s.deps && s'.deps[d].waitingOn ==> s.deps[d].waitingOn
    ensures Waits(s') <= Waits(s)
    ensures (exists d :: d in s.deps && d in s'.deps && s.deps[d].waitingOn && !s'.deps[d].waitingOn) ==>
              Waits(s') < Waits(s)
  {
    forall d | d in Waits(s') ensures d in Waits(s) { assert d in s.deps; }
    if d :| d in s.deps && d in s'.deps && s.deps[d].waitingOn && !s'.deps[d].waitingOn {
      assert d in Waits(s) && d !in Waits(s');
    }
  }

  /** Dependencies were to be given up, and have been. */
  ghost predicate GaveUp(s: Sys, s': Sys, x: Sid) {
    && SameGraph(s, s') && x in s.svcs && PropRelease in s.svcs[x].prop && PropRelease !in s'.svcs[x].prop
    && |s'.consoleQ| <= |s.consoleQ| && Unasked(s, s')
    && (forall y {:trigger s'.svcs[y]} :: y in s.svcs ==> FallsSvc(s.svcs[y], s'.svcs[y]))
  }

  lemma ReleaseLessens(s: Sys, s': Sys, x: Sid, w: Slack)
    requires GaveUp(s, s', x) && Inv(s', w)
    ensures Lessens(s, s')
  {
    forall order | Ordered(s, order) ensures Less(LoadOf(s', order), LoadOf(s, order)) {
      StartMost(s, s', order);
      HeldMost(s, s', order, w);
      var a, b := HeldDigits(s', order), HeldDigits(s, order);
      forall i | 0 <= i < |order| ensures a[i] <= b[i] {
        Listed(s, order, i);
        Counting(s', w, order[i]);
        assert FallsSvc(s.svcs[order[i]], s'.svcs[order[i]]);
      }
      var k :| 0 <= k < |order| && order[k] == x;
      assert FallsSvc(s.svcs[x], s'.svcs[x]);
      Counting(s', w, x);
      assert a[k] < b[k];
      SumMost(a, b);
    }
  }

  // ---------------------------------------------------------------- failing and stopping

  /** A flag goes from `x`, and only dependents of `x` may get it. */
  lemma FlagLess(s: Sys, s': Sys, order: seq<Sid>, f: Prop, x: Sid)
    requires SameGraph(s, s') && Ordered(s, order) && x in s.svcs && f in s.svcs[x].prop && f !in s'.svcs[x].prop
    requires forall y {:trigger s'.svcs[y]} :: y in s.svcs && f in s'.svcs[y].prop ==>
               f in s.svcs[y].prop || DependsOnIt(s, y, x)
    ensures Number(FlagDigits(s', order, f)) < Number(FlagDigits(s, order, f))
  {
    var a, b, n := FlagDigits(s', order, f), FlagDigits(s, order, f), |order|;
    var k :| 0 <= k < n && order[k] == x;
    var m := n - 1 - k;
    forall i | 0 <= i < n ensures a[i] < 4 && (i < m ==> a[i] <= b[i]) && (i == m ==> a[i] < b[i]) {
      Listed(s, order, n - 1 - i);
      var y := order[n-1-i];
      assert y in s'.svcs;
      if i < m {
        NotAbove(s, order, x, k, n - 1 - i);
      }
    }
    NumberLess(a, b, m);
  }

  lemma FlagMost(s: Sys, s': Sys, order: seq<Sid>, f: Prop)
    requires SameGraph(s, s') && Ordered(s, order)
    requires forall y {:trigger s'.svcs[y]} :: y in s.svcs && f in s'.svcs[y].prop ==> f in s.svcs[y].prop
    ensures Number(FlagDigits(s', order, f)) <= Number(FlagDigits(s, order, f))
  {
    var a, b, n := FlagDigits(s', order, f), FlagDigits(s, order, f), |order|;
    forall i | 0 <= i < n ensures a[i] <= b[i] {
      Listed(s, order, n - 1 - i);
      var y := order[n-1-i];
      assert y in s'.svcs;
    }
    NumberMost(a, b);
  }

  /** Something has gone. */
  lemma UndoneLess(s: Sys, s': Sys, order: seq<Sid>, w: Slack)
    requires SameGraph(s, s') && Ordered(s, order) && Inv(s', w)
    requires forall y {:trigger s'.svcs[y]} :: y in s.svcs ==> FallsSvc(s.svcs[y], s'.svcs[y])
    requires forall d :: d in s.deps && s'.deps[d].waitingOn ==> s.deps[d].waitingOn
    ensures var a, b := LoadOf(s', order), LoadOf(s, order);
            && a.held <= b.held && a.waits <= b.waits
            && (Undone(s, s') ==> a.held < b.held || a.waits < b.waits)
  {
    HeldMost(s, s', order, w);
    WaitsMost(s, s');
  }

  /** The service had to fail, and `s1` is where things were once that was noted. */
  lemma FailureLessens(s: Sys, s1: Sys, s': Sys, x: Sid, w: Slack)
    requires x in s.svcs && x in s1.svcs && PropFailure in s.svcs[x].prop && s1 == PutSvc(s, x, s1.svcs[x])
    requires s1.svcs[x].prop == s.svcs[x].prop - {PropFailure} && s1.svcs[x].requiredBy == s.svcs[x].requiredBy
    requires SameGraph(s, s') && Unasked(s, s') && Inv(s', w) && |s'.consoleQ| <= |s.consoleQ|
    requires |s'.consoleQ| < |s.consoleQ| || Falls(s1, s', x)
    ensures Lessens(s, s')
  {
    forall order | Ordered(s, order) ensures Less(LoadOf(s', order), LoadOf(s, order)) {
      StartMost(s, s', order);
      if |s'.consoleQ| == |s.consoleQ| {
        FailureLess(s, s1, s', x, order, w);
        LessSomewhere(LoadOf(s', order), LoadOf(s, order));
      }
    }
  }

  lemma FailureLess(s: Sys, s1: Sys, s': Sys, x: Sid, order: seq<Sid>, w: Slack)
    requires x in s.svcs && x in s1.svcs && PropFailure in s.svcs[x].prop && s1 == PutSvc(s, x, s1.svcs[x])
    requires s1.svcs[x].prop == s.svcs[x].prop - {PropFailure} && s1.svcs[x].requiredBy == s.svcs[x].requiredBy
    requires SameGraph(s, s') && Inv(s', w) && Falls(s1, s', x) && Ordered(s, order)
    ensures var a, b := LoadOf(s', order), LoadOf(s, order);
            a.held <= b.held && a.waits <= b.waits && (a.held < b.held || a.waits < b.waits || a.fails < b.fails)
  {
    FallsAlso(s, s1, s', x);
    UndoneLess(s, s', order, w);
    if Undone(s1, s') {
      SameUndone(s, s1, s');
    } else {
      FailsBelow(s, s1, s', x, order);
    }
  }

  lemma FallsAlso(s: Sys, s1: Sys, s': Sys, x: Sid)
    requires x in s.svcs && x in s1.svcs && s1 == PutSvc(s, x, s1.svcs[x]) && SameGraph(s, s') && Falls(s1, s', x)
    requires s1.svcs[x].prop == s.svcs[x].prop - {PropFailure} && s1.svcs[x].requiredBy == s.svcs[x].requiredBy
    ensures forall y {:trigger s'.svcs[y]} :: y in s.svcs ==> FallsSvc(s.svcs[y], s'.svcs[y])
  {
    forall y | y in s.svcs ensures FallsSvc(s.svcs[y], s'.svcs[y]) { assert FallsSvc(s1.svcs[y], s'.svcs[y]); }
  }

  lemma FailsBelow(s: Sys, s1: Sys, s': Sys, x: Sid, order: seq<Sid>)
    requires x in s.svcs && x in s1.svcs && PropFailure in s.svcs[x].prop && s1 == PutSvc(s, x, s1.svcs[x])
    requires s1.svcs[x].prop == s.svcs[x].prop - {PropFailure}
    requires SameGraph(s, s') && Falls(s1, s', x) && !Undone(s1, s') && Ordered(s, order)
    ensures LoadOf(s', order).fails < LoadOf(s, order).fails
  {
    NotItself(s, order, x);
    SameAbove(s, s1);
    forall y | y in s.svcs && PropFailure in s'.svcs[y].prop
      ensures PropFailure in s.svcs[y].prop || DependsOnIt(s, y, x) {
      assert FailsAbove(s1, s', x, y);
    }
    assert FailsAbove(s1, s', x, x);
    FlagLess(s, s', order, PropFailure, x);
  }

  lemma SameUndone(s: Sys, s1: Sys, s': Sys)
    requires s1.deps == s.deps && s1.svcs.Keys == s.svcs.Keys && Undone(s1, s')
    requires forall y :: y in s.svcs ==> s1.svcs[y].requiredBy == s.svcs[y].requiredBy
    ensures Undone(s, s')
  {
    if y :| y in s1.svcs && y in s'.svcs && s'.svcs[y].requiredBy < s1.svcs[y].requiredBy {
      assert y in s.svcs;
    }
  }

  lemma SameAbove(s: Sys, s1: Sys)
    requires s1.deps == s.deps
    ensures forall y, x :: DependsOnIt(s1, y, x) <==> DependsOnIt(s, y, x)
  {
  }

  // ---------------------------------------------------------------- winding down

  /** Nothing that the pins depend on has changed. */
  ghost predicate SamePins(s: Sys, s': Sys) {
    && SameGraph(s, s') && (forall d :: d in s.deps ==> s'.deps[d].waitingOn == s.deps[d].waitingOn)
    && (forall y {:trigger s'.svcs[y]} :: y in s.svcs ==>
          s'.svcs[y].pinnedStarted == s.svcs[y].pinnedStarted && s'.svcs[y].deptPinned == s.svcs[y].deptPinned)
  }

  lemma SamePinned(s: Sys, s': Sys, x: Sid)
    requires SamePins(s, s')
    ensures PinnedAbove(s', x) == PinnedAbove(s, x)
  {
    if d :| d in s.deps && s.deps[d].to == x && PinsDown(s, d) {
      assert s.deps[d].from in s'.svcs;
      assert d in s'.deps && s'.deps[d].to == x && PinsDown(s', d);
    }
    if d :| d in s'.deps && s'.deps[d].to == x && PinsDown(s', d) {
      assert s'.deps[d].from in s.svcs;
      assert d in s.deps && s.deps[d].to == x && PinsDown(s, d);
    }
  }

  lemma PinsStay(s: Sys, s': Sys, order: seq<Sid>)
    requires SamePins(s, s') && Ordered(s, order)
    ensures LoadOf(s', order).pins == LoadOf(s, order).pins
  {
    var a, b := PinDigits(s', order), PinDigits(s, order);
    forall i | 0 <= i < |order| ensures a[i] == b[i] {
      Listed(s, order, i);
      assert order[i] in s'.svcs;
      SamePinned(s, s', order[i]);
    }
    assert a == b;
  }

  /** Winding down adds nothing but stops, unless something has gone. */
  lemma LightMost(s: Sys, s': Sys, x: Sid, order: seq<Sid>, w: Slack)
    requires Lower(s, s') && Light(s, s', x) && Ordered(s, order) && Inv(s', w)
    ensures var a, b := LoadOf(s', order), LoadOf(s, order);
            && a.start <= b.start && a.line <= b.line && a.held <= b.held && a.waits <= b.waits
            && (Undone(s, s') ==> a.held < b.held || a.waits < b.waits)
            && (!Undone(s, s') ==> a.fails <= b.fails && a.pins == b.pins)
  {
    forall y | y in s.svcs && y in s'.svcs ensures UnaskedSvc(s.svcs[y], s'.svcs[y]) {
      assert SvcDown(s.svcs[y], s'.svcs[y]);
    }
    StartMost(s, s', order);
    LightFalls(s, s', x, x);
    UndoneLess(s, s', order, w);
    if !Undone(s, s') {
      forall y | y in s.svcs && PropFailure in s'.svcs[y].prop ensures PropFailure in s.svcs[y].prop {
        assert LightSvc(s.svcs[y], s'.svcs[y]);
      }
      FlagMost(s, s', order, PropFailure);
      PinsKept(s, s');
      PinsStay(s, s', order);
    }
  }

  lemma PinsKept(s: Sys, s': Sys)
    requires Lower(s, s') && !Undone(s, s')
    ensures SamePins(s, s')
  {
    forall d | d in s.deps ensures s'.deps[d].waitingOn == s.deps[d].waitingOn {
      assert DepDown(s.deps[d], s'.deps[d]);
    }
    forall y | y in s.svcs
      ensures s'.svcs[y].pinnedStarted == s.svcs[y].pinnedStarted && s'.svcs[y].deptPinned == s.svcs[y].deptPinned {
      assert SvcDown(s.svcs[y], s'.svcs[y]);
    }
  }

  /** The service had to stop; `s1` is where things were once that was noted. */
  lemma StopLessens(s: Sys, s1: Sys, s': Sys, x: Sid, w: Slack)
    requires x in s.svcs && PropStop in s.svcs[x].prop
    requires s1 == PutSvc(s, x, s.svcs[x].(prop := s.svcs[x].prop - {PropStop})) && SameGraph(s, s1)
    requires Lower(s1, s') && Light(s1, s', x) && Inv(s', w)
    ensures Lessens(s, s')
  {
    forall order | Ordered(s, order) ensures Less(LoadOf(s', order), LoadOf(s, order)) {
      StopLess(s, s1, s', x, order, w);
    }
  }

  lemma StopLess(s: Sys, s1: Sys, s': Sys, x: Sid, order: seq<Sid>, w: Slack)
    requires x in s.svcs && PropStop in s.svcs[x].prop && Ordered(s, order)
    requires s1 == PutSvc(s, x, s.svcs[x].(prop := s.svcs[x].prop - {PropStop})) && SameGraph(s, s1)
    requires Lower(s1, s') && Light(s1, s', x) && Inv(s', w)
    ensures Less(LoadOf(s', order), LoadOf(s, order))
  {
    OrderedStill(s, s1, order);
    LightMost(s1, s', x, order, w);
    WithoutStop(s, s1, x, order);
    if !Undone(s1, s') {
      StopsBelow(s, s1, s', x, order);
    }
    LessSomewhere(LoadOf(s', order), LoadOf(s, order));
  }

  lemma WithoutStop(s: Sys, s1: Sys, x: Sid, order: seq<Sid>)
    requires x in s.svcs && s1 == PutSvc(s, x, s.svcs[x].(prop := s.svcs[x].prop - {PropStop}))
    requires SameGraph(s, s1) && Ordered(s, order)
    ensures LoadOf(s1, order) == LoadOf(s, order).(stops := LoadOf(s1, order).stops)
  {
    forall i | 0 <= i < |order|
      ensures StartDigits(s1, order)[i] == StartDigits(s, order)[i]
              && HeldDigits(s1, order)[i] == HeldDigits(s, order)[i] {
      Listed(s, order, i);
    }
    assert StartDigits(s1, order) == StartDigits(s, order) && HeldDigits(s1, order) == HeldDigits(s, order);
    SameFlag(s, s1, order, PropFailure);
    PinsStay(s, s1, order);
  }

  lemma SameFlag(s: Sys, s1: Sys, order: seq<Sid>, f: Prop)
    requires SameGraph(s, s1) && Ordered(s, order)
    requires forall y {:trigger s1.svcs[y]} :: y in s.svcs ==> (f in s1.svcs[y].prop <==> f in s.svcs[y].prop)
    ensures FlagDigits(s1, order, f) == FlagDigits(s, order, f)
  {
    forall i | 0 <= i < |order| ensures FlagDigits(s1, order, f)[i] == FlagDigits(s, order, f)[i] {
      Listed(s, order, |order| - 1 - i);
      var y := order[|order|-1-i];
      assert y in s1.svcs;
    }
  }

  lemma StopsBelow(s: Sys, s1: Sys, s': Sys, x: Sid, order: seq<Sid>)
    requires x in s.svcs && PropStop in s.svcs[x].prop
    requires s1 == PutSvc(s, x, s.svcs[x].(prop := s.svcs[x].prop - {PropStop})) && SameGraph(s, s1)
    requires SameGraph(s1, s') && Light(s1, s', x) && !Undone(s1, s') && Ordered(s, order)
    ensures LoadOf(s', order).stops < LoadOf(s, order).stops
  {
    NotItself(s, order, x);
    SameAbove(s, s1);
    forall y | y in s.svcs && PropStop in s'.svcs[y].prop ensures PropStop in s.svcs[y].prop || DependsOnIt(s, y, x) {
      assert ToldAbove(s1, s', x, y);
    }
    assert ToldAbove(s1, s', x, x);
    FlagLess(s, s', order, PropStop, x);
  }

  // ---------------------------------------------------------------- pins

  /** The mark of the service was wrong; `s1` is where things were once it had been changed. */
  lemma PinLessens(s: Sys, s1: Sys, s': Sys, x: Sid, w: Slack)
    requires x in s.svcs && s.svcs[x].deptPinned != PinnedAbove(s, x)
    requires s1 == PutSvc(s, x, s.svcs[x].(deptPinned := PinnedAbove(s, x))) && SameGraph(s, s1)
    requires Lower(s1, s') && Light(s1, s', x) && Inv(s', w)
    ensures Lessens(s, s')
  {
    forall order | Ordered(s, order) ensures Less(LoadOf(s', order), LoadOf(s, order)) {
      PinsLess(s, s1, s', x, order, w);
    }
  }

  lemma PinsLess(s: Sys, s1: Sys, s': Sys, x: Sid, order: seq<Sid>, w: Slack)
    requires x in s.svcs && s.svcs[x].deptPinned != PinnedAbove(s, x) && Ordered(s, order)
    requires s1 == PutSvc(s, x, s.svcs[x].(deptPinned := PinnedAbove(s, x))) && SameGraph(s, s1)
    requires Lower(s1, s') && Light(s1, s', x) && Inv(s', w)
    ensures Less(LoadOf(s', order), LoadOf(s, order))
  {
    OrderedStill(s, s1, order);
    LightMost(s1, s', x, order, w);
    WithPin(s, s1, x, order);
    PinLess(s, s1, x, order);
    LessSomewhere(LoadOf(s', order), LoadOf(s, order));
  }

  lemma WithPin(s: Sys, s1: Sys, x: Sid, order: seq<Sid>)
    requires x in s.svcs && x in s1.svcs && s1 == PutSvc(s, x, s.svcs[x].(deptPinned := s1.svcs[x].deptPinned))
    requires SameGraph(s, s1) && Ordered(s, order)
    ensures LoadOf(s1, order) == LoadOf(s, order).(pins := LoadOf(s1, order).pins)
  {
    forall i | 0 <= i < |order|
      ensures StartDigits(s1, order)[i] == StartDigits(s, order)[i]
              && HeldDigits(s1, order)[i] == HeldDigits(s, order)[i] {
      Listed(s, order, i);
    }
    assert StartDigits(s1, order) == StartDigits(s, order) && HeldDigits(s1, order) == HeldDigits(s, order);
    SameFlag(s, s1, order, PropFailure);
    SameFlag(s, s1, order, PropStop);
  }

  /** Only the dependencies of `x` look at its mark. */
  lemma OtherPins(s: Sys, s1: Sys, x: Sid, y: Sid)
    requires x in s.svcs && x in s1.svcs && s1 == PutSvc(s, x, s.svcs[x].(deptPinned := s1.svcs[x].deptPinned))
    requires !DependsOnIt(s, x, y)
    ensures PinnedAbove(s1, y) == PinnedAbove(s, y)
  {
    if d :| d in s.deps && s.deps[d].to == y && PinsDown(s, d) { assert s.deps[d].from != x && PinsDown(s1, d); }
    if d :| d in s1.deps && s1.deps[d].to == y && PinsDown(s1, d) { assert s.deps[d].from != x && PinsDown(s, d); }
  }

  lemma PinLess(s: Sys, s1: Sys, x: Sid, order: seq<Sid>)
    requires x in s.svcs && s.svcs[x].deptPinned != PinnedAbove(s, x) && Ordered(s, order)
    requires s1 == PutSvc(s, x, s.svcs[x].(deptPinned := PinnedAbove(s, x)))
    ensures LoadOf(s1, order).pins < LoadOf(s, order).pins
  {
    NotItself(s, order, x);
    var a, b := PinDigits(s1, order), PinDigits(s, order);
    var k :| 0 <= k < |order| && order[k] == x;
    forall i | 0 <= i < |order| ensures a[i] < 4 && (i < k ==> a[i] <= b[i]) {
      Listed(s, order, i);
      if i < k {
        NotBelow(s, order, x, k, i);
        OtherPins(s, s1, x, order[i]);
      }
    }
    OtherPins(s, s1, x, x);
    NumberLess(a, b, k);
  }
}
