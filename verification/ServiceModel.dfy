/**
  Service records, the dependency links between them, and the propagation, transition and console
  queues. States what holds of the whole set between any two updates.
 */
module ServiceModel {
  import opened QueueShape

  type Sid = int
  type Did = int

  datatype State = STOPPED | STARTING | STARTED | STOPPING

  datatype Kind = REGULAR | SOFT | WAITS_FOR | MILESTONE | BEFORE | AFTER

  // What a service still has to propagate.
  datatype Prop = PropRequire | PropRelease | PropFailure | PropStart | PropStop | PropPin

  /** A service. `broughtDown` is a record of what happened, not of the source: a service that is stopping has been
      brought down, so that its process, or itself, is going to report that it has stopped. */
  datatype Service = Service(
    state: State, desired: State,
    autoRestart: bool, startsOnConsole: bool, runsOnConsole: bool,
    pinnedStopped: bool, pinnedStarted: bool, deptPinned: bool,
    waitingForDeps: bool, waitingForConsole: bool, haveConsole: bool,
    startExplicit: bool, forceStop: bool, inAutoRestart: bool, inUserRestart: bool,
    broughtDown: bool,
    prop: set<Prop>, requiredBy: int)
  {
    predicate IsStartPinned() { pinnedStarted || deptPinned }
  }

  /** A dependency link: `from` depends on `to`. */
  datatype Dep = Dep(from: Sid, to: Sid, kind: Kind, waitingOn: bool, holdingAcq: bool)
  {
    predicate IsHard() { kind == REGULAR || (kind == MILESTONE && waitingOn) }
    predicate IsOnlyOrdering() { kind == BEFORE || kind == AFTER }
  }

  /** The service set. `doubled` is a record of what happened, not of the source: how often a
      dependent acquired a service that it held already. */
  datatype Sys = Sys(
    svcs: map<Sid, Service>, deps: map<Did, Dep>,
    dependsOn: map<Sid, seq<Did>>, dependents: map<Sid, seq<Did>>,
    propQ: Shape<Sid>, transQ: Shape<Sid>, consoleQ: seq<Sid>,
    doubled: map<Sid, nat>)

  ghost predicate LinksOK(s: Sys, x: Sid)
    requires x in s.svcs
  {
    && x in s.dependsOn && x in s.dependents && x in s.doubled && Distinct(s.dependents[x]) && Distinct(s.dependsOn[x])
    && (forall d :: d in s.dependsOn[x] ==> d in s.deps && s.deps[d].from == x)
    && (forall d :: d in s.dependents[x] ==> d in s.deps && s.deps[d].to == x)
  }

  ghost predicate DepOK(s: Sys, d: Did)
    requires d in s.deps
  {
    var p := s.deps[d];
    p.from in s.svcs && p.to in s.svcs && p.from in s.dependsOn && p.to in s.dependents
    && d in s.dependsOn[p.from] && d in s.dependents[p.to]
  }

  /** The records and links fit together. */
  ghost predicate WF(s: Sys) {
    && (forall x {:trigger LinksOK(s, x)} :: x in s.svcs ==> LinksOK(s, x))
    && (forall d {:trigger DepOK(s, d)} :: d in s.deps ==> DepOK(s, d))
    && WellShaped(s.propQ) && WellShaped(s.transQ)
    && (forall x :: x in s.propQ.elems ==> x in s.svcs) && (forall x :: x in s.transQ.elems ==> x in s.svcs)
    && (forall x :: x in s.consoleQ ==> x in s.svcs)
  }

  lemma OwnLink(s: Sys, x: Sid, d: Did)
    requires WF(s) && x in s.svcs && x in s.dependsOn && d in s.dependsOn[x]
    ensures d in s.deps && s.deps[d].from == x
  {
    assert LinksOK(s, x);
  }

  lemma TheirLink(s: Sys, x: Sid, d: Did)
    requires WF(s) && x in s.svcs && x in s.dependents && d in s.dependents[x]
    ensures d in s.deps && s.deps[d].to == x
  {
    assert LinksOK(s, x);
  }

  ghost predicate SomeWaiting(deps: map<Did, Dep>, ds: seq<Did>) {
    exists d :: d in ds && d in deps && deps[d].waitingOn
  }

  /** A service waiting for its dependencies is in the transition queue, or some dependency of it is
      marked as waited on. */
  ghost predicate Awake(s: Sys, x: Sid)
    requires x in s.svcs && x in s.dependsOn
  {
    s.svcs[x].state == STARTING && s.svcs[x].waitingForDeps ==>
      x in s.transQ.elems || SomeWaiting(s.deps, s.dependsOn[x])
  }

  function Held(deps: map<Did, Dep>, ds: seq<Did>): nat {
    if ds == [] then 0
    else (if ds[0] in deps && deps[ds[0]].holdingAcq then 1 else 0) + Held(deps, ds[1..])
  }

  /** required_by is the explicit activation plus the acquisitions held by dependents, plus those
      counted twice. */
  ghost predicate Counted(s: Sys, x: Sid)
    requires x in s.svcs && x in s.dependents && x in s.doubled
  {
    s.svcs[x].requiredBy == (if s.svcs[x].startExplicit then 1 else 0) + Held(s.deps, s.dependents[x]) + s.doubled[x]
  }

  /** Whatever a service has to propagate, it is queued for it, unless listed in `due`. The flag for
      pins is left set once it has been set, so it says nothing. */
  ghost predicate Pending(s: Sys, x: Sid, due: set<(Sid, Prop)>)
    requires x in s.svcs
  {
    forall f :: f in s.svcs[x].prop && f != PropPin ==> x in s.propQ.elems || (x, f) in due
  }

  ghost predicate AllAwake(s: Sys, but: set<Sid>)
    requires WF(s)
  {
    forall x {:trigger Awake(s, x)} :: x in s.svcs && x !in but ==> (assert LinksOK(s, x); Awake(s, x))
  }

  ghost predicate AllCounted(s: Sys)
    requires WF(s)
  {
    forall x {:trigger Counted(s, x)} :: x in s.svcs ==> (assert LinksOK(s, x); Counted(s, x))
  }

  ghost predicate AllPending(s: Sys, due: set<(Sid, Prop)>) {
    forall x {:trigger Pending(s, x, due)} :: x in s.svcs ==> Pending(s, x, due)
  }

  /** What is excused from the invariant for the time being: flags about to be looked at, and
      services about to be looked at. */
  datatype Slack = Slack(due: set<(Sid, Prop)>, but: set<Sid>)

  ghost function Excuse(w: Slack, x: Sid): Slack { w.(but := w.but + {x}) }

  ghost function Paid(w: Slack, x: Sid, f: Prop): Slack { w.(due := w.due - {(x, f)}) }

  ghost predicate Inv(s: Sys, w: Slack) {
    WF(s) && AllAwake(s, w.but) && AllCounted(s) && AllPending(s, w.due)
  }

  /** The same services and links, whatever their flags. */
  ghost predicate SameGraph(s: Sys, s': Sys) {
    && s'.svcs.Keys == s.svcs.Keys && s'.deps.Keys == s.deps.Keys
    && s'.dependsOn == s.dependsOn && s'.dependents == s.dependents
    && (forall d :: d in s.deps ==>
          s'.deps[d].from == s.deps[d].from && s'.deps[d].to == s.deps[d].to && s'.deps[d].kind == s.deps[d].kind)
  }

  ghost function Explicit(s: Sys): set<Sid> {
    set x | x in s.svcs && s.svcs[x].startExplicit
  }

  // ---------------------------------------------------------------- counting

  ghost predicate SameHold(deps: map<Did, Dep>, deps': map<Did, Dep>, d: Did) {
    (d in deps <==> d in deps') && (d in deps ==> deps'[d].holdingAcq == deps[d].holdingAcq)
  }

  lemma {:induction false} HeldFrame(deps: map<Did, Dep>, deps': map<Did, Dep>, ds: seq<Did>)
    requires forall d :: d in ds ==> SameHold(deps, deps', d)
    ensures Held(deps', ds) == Held(deps, ds)
  {
    if ds != [] {
      assert ds[0] in ds && SameHold(deps, deps', ds[0]);
      HeldFrame(deps, deps', ds[1..]);
    }
  }

  lemma HeldOther(deps: map<Did, Dep>, ds: seq<Did>, d: Did, v: Dep)
    requires d !in ds
    ensures Held(deps[d := v], ds) == Held(deps, ds)
  {
    forall e | e in ds ensures SameHold(deps, deps[d := v], e) { }
    HeldFrame(deps, deps[d := v], ds);
  }

  lemma {:induction false} HeldUpdate(deps: map<Did, Dep>, ds: seq<Did>, d: Did, v: Dep)
    requires d in deps && Distinct(ds)
    ensures d in ds ==>
              Held(deps[d := v], ds) == Held(deps, ds) - (if deps[d].holdingAcq then 1 else 0)
              + (if v.holdingAcq then 1 else 0)
    ensures d !in ds ==> Held(deps[d := v], ds) == Held(deps, ds)
  {
    if d !in ds {
      HeldOther(deps, ds, d, v);
    } else if ds[0] == d {
      assert d !in ds[1..];
      HeldOther(deps, ds[1..], d, v);
    } else {
      assert ds == [ds[0]] + ds[1..];
      HeldUpdate(deps, ds[1..], d, v);
    }
  }

  // ---------------------------------------------------------------- updates that keep the invariant

  lemma KeepGraph(s: Sys, s': Sys)
    requires WF(s) && SameGraph(s, s') && s'.doubled.Keys == s.doubled.Keys
    requires WellShaped(s'.propQ) && WellShaped(s'.transQ)
    requires (forall x :: x in s'.propQ.elems ==> x in s.svcs) && (forall x :: x in s'.transQ.elems ==> x in s.svcs)
    requires forall x :: x in s'.consoleQ ==> x in s.svcs
    ensures WF(s')
  {
    forall x | x in s'.svcs ensures LinksOK(s', x) { assert LinksOK(s, x); }
    forall d | d in s'.deps ensures DepOK(s', d) { assert DepOK(s, d); }
  }

  function PutSvc(s: Sys, x: Sid, v: Service): Sys { s.(svcs := s.svcs[x := v]) }

  lemma PutTwice(s: Sys, x: Sid, a: Service, b: Service)
    ensures PutSvc(PutSvc(s, x, a), x, b) == PutSvc(s, x, b)
  {
    assert s.svcs[x := a][x := b] == s.svcs[x := b];
  }

  function PutDep(s: Sys, d: Did, v: Dep): Sys { s.(deps := s.deps[d := v]) }

  function QueueProp(s: Sys, x: Sid): Sys { s.(propQ := Add(s.propQ, x)) }

  function QueueTrans(s: Sys, x: Sid): Sys { s.(transQ := Add(s.transQ, x)) }

  lemma QueueMore(s: Sys, s': Sys, x: Sid, w: Slack)
    requires Inv(s, w) && x in s.svcs && (s' == QueueProp(s, x) || s' == QueueTrans(s, x))
    ensures Inv(s', w) && SameGraph(s, s')
    ensures s' == QueueProp(s, x) ==> forall y :: y in s'.propQ.elems <==> y in s.propQ.elems || y == x
    ensures s' == QueueTrans(s, x) ==> forall y :: y in s'.transQ.elems <==> y in s.transQ.elems || y == x
    ensures forall y :: y in s.transQ.elems ==> y in s'.transQ.elems
  {
    AddMembers(s.propQ, x);
    AddMembers(s.transQ, x);
    KeepGraph(s, s');
    forall y | y in s'.svcs && y !in w.but ensures (assert LinksOK(s', y); Awake(s', y)) {
      assert LinksOK(s, y) && Awake(s, y);
    }
    forall y | y in s'.svcs ensures (assert LinksOK(s', y); Counted(s', y)) { assert LinksOK(s, y) && Counted(s, y); }
    forall y | y in s'.svcs ensures Pending(s', y, w.due) { assert Pending(s, y, w.due); }
  }

  lemma AddMembers<T>(q: Shape<T>, x: T)
    requires WellShaped(q)
    ensures WellShaped(Add(q, x)) && forall y :: y in Add(q, x).elems <==> y == x || y in q.elems
  {
    AddKeeps(q, x);
    assert forall y :: y in Elements(Add(q, x)) <==> y in Add(q, x).elems;
    assert forall y :: y in Elements(q) <==> y in q.elems;
  }

  /** What a change to one service record has to respect. */
  ghost predicate Allowed(s: Sys, x: Sid, v: Service, w: Slack)
    requires x in s.svcs
  {
    var u := s.svcs[x];
    && v.requiredBy - (if v.startExplicit then 1 else 0) == u.requiredBy - (if u.startExplicit then 1 else 0)
    && (forall f :: f in v.prop && f != PropPin ==> f in u.prop || x in s.propQ.elems || (x, f) in w.due)
    && (v.state == STARTING && v.waitingForDeps && x !in w.but ==>
          (u.state == STARTING && u.waitingForDeps) || x in s.transQ.elems
          || (x in s.dependsOn && SomeWaiting(s.deps, s.dependsOn[x])))
  }

  lemma SetService(s: Sys, x: Sid, v: Service, w: Slack)
    requires Inv(s, w) && x in s.svcs && Allowed(s, x, v, w)
    ensures Inv(PutSvc(s, x, v), w) && SameGraph(s, PutSvc(s, x, v))
  {
    var s' := PutSvc(s, x, v);
    KeepGraph(s, s');
    forall y | y in s'.svcs && y !in w.but ensures (assert LinksOK(s', y); Awake(s', y)) {
      assert LinksOK(s, y) && Awake(s, y);
    }
    forall y | y in s'.svcs ensures (assert LinksOK(s', y); Counted(s', y)) { assert LinksOK(s, y) && Counted(s, y); }
    forall y | y in s'.svcs ensures Pending(s', y, w.due) { assert Pending(s, y, w.due); }
  }

  ghost predicate MayClear(s: Sys, d: Did)
    requires d in s.deps
  {
    var x := s.deps[d].from;
    x in s.svcs && s.svcs[x].state == STARTING && s.svcs[x].waitingForDeps ==> x in s.transQ.elems
  }

  lemma SetWaiting(s: Sys, d: Did, wait: bool, w: Slack)
    requires Inv(s, w) && d in s.deps && (wait || MayClear(s, d))
    ensures var s' := PutDep(s, d, s.deps[d].(waitingOn := wait)); Inv(s', w) && SameGraph(s, s')
  {
    var s' := PutDep(s, d, s.deps[d].(waitingOn := wait));
    assert DepOK(s, d);
    KeepGraph(s, s');
    forall y | y in s'.svcs && y !in w.but ensures (assert LinksOK(s', y); Awake(s', y)) {
      assert LinksOK(s, y) && Awake(s, y);
      if SomeWaiting(s.deps, s.dependsOn[y]) && (wait || y != s.deps[d].from) {
        var e :| e in s.dependsOn[y] && e in s.deps && s.deps[e].waitingOn;
        assert e in s'.dependsOn[y] && e in s'.deps && s'.deps[e].waitingOn;
      }
    }
    forall y | y in s'.svcs ensures (assert LinksOK(s', y); Counted(s', y)) {
      assert LinksOK(s, y) && Counted(s, y);
      HeldUpdate(s.deps, s.dependents[y], d, s'.deps[d]);
    }
    forall y | y in s'.svcs ensures Pending(s', y, w.due) { assert Pending(s, y, w.due); }
  }

  /** Change who holds what: the link, the count of the service held and the record of repeated
      acquisitions move together. */
  function Rehold(s: Sys, d: Did, hold: bool, delta: int, again: nat): Sys
    requires d in s.deps && s.deps[d].to in s.svcs && s.deps[d].to in s.doubled
  {
    var y := s.deps[d].to;
    s.(deps := s.deps[d := s.deps[d].(holdingAcq := hold)],
       svcs := s.svcs[y := s.svcs[y].(requiredBy := s.svcs[y].requiredBy + delta)],
       doubled := s.doubled[y := s.doubled[y] + again])
  }

  lemma SetHold(s: Sys, d: Did, hold: bool, delta: int, again: nat, w: Slack)
    requires Inv(s, w) && d in s.deps && DepOK(s, d) && LinksOK(s, s.deps[d].to)
    requires delta == (if hold then 1 else 0) - (if s.deps[d].holdingAcq then 1 else 0) + again
    ensures Inv(Rehold(s, d, hold, delta, again), w) && SameGraph(s, Rehold(s, d, hold, delta, again))
  {
    var s' := Rehold(s, d, hold, delta, again);
    KeepGraph(s, s');
    forall y | y in s'.svcs && y !in w.but ensures (assert LinksOK(s', y); Awake(s', y)) {
      assert LinksOK(s, y) && Awake(s, y);
      if SomeWaiting(s.deps, s.dependsOn[y]) {
        var e :| e in s.dependsOn[y] && e in s.deps && s.deps[e].waitingOn;
        assert e in s'.dependsOn[y] && e in s'.deps && s'.deps[e].waitingOn;
      }
    }
    forall y | y in s'.svcs ensures (assert LinksOK(s', y); Counted(s', y)) {
      assert LinksOK(s, y) && Counted(s, y);
      HeldUpdate(s.deps, s.dependents[y], d, s'.deps[d]);
    }
    forall y | y in s'.svcs ensures Pending(s', y, w.due) { assert Pending(s, y, w.due); }
  }
}
