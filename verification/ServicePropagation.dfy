/**
  The two kinds of queue step, and everything that can be asked of a service from outside.
 */
module ServicePropagation {
  import opened QueueShape
  import opened ServiceModel
  import opened ServiceStops
  import opened ServiceStarts
  import opened ServiceRuns
  import opened ServiceWork

  // ---------------------------------------------------------------- propagation

  ghost function DueOf(x: Sid): set<(Sid, Prop)> {
    {(x, PropRequire), (x, PropRelease), (x, PropFailure), (x, PropStart), (x, PropStop)}
  }

  function NoProp(s: Sys, x: Sid, f: Prop): Sys
    requires x in s.svcs
  {
    PutSvc(s, x, s.svcs[x].(prop := s.svcs[x].prop - {f}))
  }

  /** Once a flag is clear it need not be excused any longer. */
  lemma Done(s: Sys, x: Sid, f: Prop, w: Slack)
    requires Inv(s, w) && x in s.svcs && f !in s.svcs[x].prop
    ensures Inv(s, Paid(w, x, f))
  {
    forall y | y in s.svcs ensures Pending(s, y, Paid(w, x, f).due) { assert Pending(s, y, w.due); }
  }

  lemma NoPropIs(v: Service, f: Prop)
    ensures var u := v.(prop := v.prop - {f});
            && TameSvc(v, u) && u.state == v.state && u.waitingForDeps == v.waitingForDeps
            && u.broughtDown == v.broughtDown
            && u.requiredBy == v.requiredBy && u.startExplicit == v.startExplicit && u.prop <= v.prop
  {
  }

  method ClearProp(s: Sys, x: Sid, f: Prop, ghost w: Slack) returns (s': Sys)
    requires Inv(s, w) && x in s.svcs
    ensures s' == NoProp(s, x, f) && Inv(s', Paid(w, x, f)) && Calm(s, s')
  {
    ClearedKeeps(s, x, f, w);
    s' := NoProp(s, x, f);
    Done(s', x, f, w);
  }

  lemma ClearedKeeps(s: Sys, x: Sid, f: Prop, w: Slack)
    requires Inv(s, w) && x in s.svcs
    ensures Inv(NoProp(s, x, f), w) && Calm(s, NoProp(s, x, f))
  {
    NoPropIs(s.svcs[x], f);
    SetService(s, x, s.svcs[x].(prop := s.svcs[x].prop - {f}), w);
    SameStateCalm(s, NoProp(s, x, f), x, s.svcs[x].(prop := s.svcs[x].prop - {f}));
  }

  ghost predicate NothingHeld(s: Sys, x: Sid) {
    forall d :: d in s.deps && s.deps[d].from == x && !s.deps[d].IsOnlyOrdering() ==> !s.deps[d].holdingAcq
  }

  ghost predicate MoreDoubled(s: Sys, s': Sys) {
    s'.doubled.Keys == s.doubled.Keys && forall y :: y in s.doubled ==> s.doubled[y] <= s'.doubled[y]
  }

  ghost predicate Grew(s: Sys, s': Sys) {
    exists y :: y in s.doubled && y in s'.doubled && s.doubled[y] < s'.doubled[y]
  }

  lemma DoubledTrans(s: Sys, s1: Sys, s2: Sys)
    requires MoreDoubled(s, s1) && MoreDoubled(s1, s2)
    ensures MoreDoubled(s, s2) && (Grew(s, s1) || Grew(s1, s2) ==> Grew(s, s2))
  {
    if Grew(s, s1) {
      var y :| y in s.doubled && y in s1.doubled && s.doubled[y] < s1.doubled[y];
      assert s.doubled[y] < s2.doubled[y];
    } else if Grew(s1, s2) {
      var y :| y in s1.doubled && y in s2.doubled && s1.doubled[y] < s2.doubled[y];
      assert s.doubled[y] < s2.doubled[y];
    }
  }

  method AcquireOne(s: Sys, d: Did, ghost w: Slack) returns (s': Sys)
    requires Inv(s, w) && d in s.deps
    ensures Inv(s', w) && SameGraph(s, s') && MoreDoubled(s, s') && StopsKept(s, s')
    ensures s'.deps == if s.deps[d].IsOnlyOrdering() then s.deps else s.deps[d := s.deps[d].(holdingAcq := true)]
    ensures forall z :: z in s.doubled ==> s'.doubled[z] == s.doubled[z] + (if HeldTo(s.deps, d, z) then 1 else 0)
    ensures (s.deps[d].IsOnlyOrdering() ==> s' == s) && Grasped(s, s')
    ensures forall y :: y in s.svcs && y != s.deps[d].to ==> s'.svcs[y] == s.svcs[y]
  {
    s' := s;
    if !s.deps[d].IsOnlyOrdering() {
      s' := Acquire(s, d, w);
      AcquireKeepsStops(s, s', s.deps[d].to);
      OneGrasped(s, s', d);
    }
  }

  /** Acquiring dependencies changes only what is held and required, and asks those to start that nothing required. */
  ghost predicate Grasped(s: Sys, s': Sys) {
    && s'.transQ == s.transQ && s'.consoleQ == s.consoleQ && s'.svcs.Keys == s.svcs.Keys && s'.deps.Keys == s.deps.Keys
    && (forall y :: y in s.svcs ==> MoreWanted(s.svcs[y], s'.svcs[y]))
    && (forall d :: d in s.deps ==> s'.deps[d] == s.deps[d].(holdingAcq := s'.deps[d].holdingAcq))
    && (forall y :: y in s'.propQ.elems ==> y in s.propQ.elems || (y in s.svcs && s.svcs[y].requiredBy <= 0))
  }

  ghost predicate MoreWanted(u: Service, v: Service) {
    && v == u.(requiredBy := v.requiredBy, prop := v.prop) && v.requiredBy >= u.requiredBy
    && (u.requiredBy > 0 ==> v.prop == u.prop) && v.prop <= u.prop + {PropStart}
  }

  lemma OneGrasped(s: Sys, s': Sys, d: Did)
    requires d in s.deps && s.deps[d].to in s.svcs && s'.deps == s.deps[d := s.deps[d].(holdingAcq := true)]
    requires s'.svcs == s.svcs[s.deps[d].to := Required(s.svcs[s.deps[d].to])] && s'.transQ == s.transQ
    requires s'.consoleQ == s.consoleQ && MoreQueued(s, s', s.deps[d].to)
    requires s.svcs[s.deps[d].to].requiredBy > 0 ==> s'.propQ == s.propQ
    ensures Grasped(s, s')
  {
  }

  /** The dependencies have been acquired, and the request for it is gone. */
  ghost predicate TookHold(s: Sys, s': Sys, x: Sid) {
    && x in s.svcs && Grasped(NoProp(s, x, PropRequire), s')
    && forall d :: d in s.deps && s.deps[d].from == x ==> AllHeld(s', d)
  }

  lemma GraspedThen(s: Sys, s': Sys, x: Sid)
    requires x in s.svcs && Grasped(s, s') && s'.svcs[x] == s.svcs[x]
    ensures x in s'.svcs && Grasped(NoProp(s, x, PropRequire), NoProp(s', x, PropRequire))
  {
    forall y | y in s.svcs
      ensures y in s'.svcs && MoreWanted(NoProp(s, x, PropRequire).svcs[y], NoProp(s', x, PropRequire).svcs[y]) {
      WantedThen(s, s', x, y);
    }
  }

  lemma WantedThen(s: Sys, s': Sys, x: Sid, y: Sid)
    requires x in s.svcs && y in s.svcs && x in s'.svcs && y in s'.svcs && s'.svcs[x] == s.svcs[x]
    requires MoreWanted(s.svcs[y], s'.svcs[y])
    ensures MoreWanted(NoProp(s, x, PropRequire).svcs[y], NoProp(s', x, PropRequire).svcs[y])
  {
    SameWanted(s.svcs[x].(prop := s.svcs[x].prop - {PropRequire}));
  }

  lemma SameWanted(v: Service)
    ensures MoreWanted(v, v)
  {
  }

  lemma GraspedTrans(s: Sys, s1: Sys, s2: Sys)
    requires Grasped(s, s1) && Grasped(s1, s2)
    ensures Grasped(s, s2)
  {
    forall y | y in s.svcs ensures MoreWanted(s.svcs[y], s2.svcs[y]) {
      assert MoreWanted(s.svcs[y], s1.svcs[y]) && MoreWanted(s1.svcs[y], s2.svcs[y]);
    }
    forall y | y in s2.propQ.elems ensures y in s.propQ.elems || (y in s.svcs && s.svcs[y].requiredBy <= 0) {
      assert y in s.svcs ==> MoreWanted(s.svcs[y], s1.svcs[y]);
    }
  }

  lemma AcquireKeepsStops(s: Sys, s': Sys, y: Sid)
    requires y in s.svcs && SameGraph(s, s') && s'.svcs == s.svcs[y := Required(s.svcs[y])] && s'.transQ == s.transQ
    ensures StopsKept(s, s')
  {
    forall z | z in s.svcs ensures StaysUp(s, s', z) { }
    UpKeepsStops(s, s');
  }

  /** The link is more than an ordering, and already holds `z`. */
  predicate HeldTo(deps: map<Did, Dep>, d: Did, z: Sid) {
    d in deps && !deps[d].IsOnlyOrdering() && deps[d].holdingAcq && deps[d].to == z
  }

  /** How many of the links already hold `z`. */
  function HeldAmong(deps: map<Did, Dep>, ds: seq<Did>, z: Sid): nat {
    if ds == [] then 0
    else HeldAmong(deps, ds[..|ds|-1], z) + (if HeldTo(deps, ds[|ds|-1], z) then 1 else 0)
  }

  lemma HeldAmongNext(deps: map<Did, Dep>, ds: seq<Did>, i: nat, z: Sid)
    requires i < |ds|
    ensures HeldAmong(deps, ds[..i+1], z) == HeldAmong(deps, ds[..i], z) + (if HeldTo(deps, ds[i], z) then 1 else 0)
  {
    assert ds[..i+1][..i] == ds[..i];
  }

  /** What was counted twice so far. */
  ghost predicate DoubledBy(s: Sys, s': Sys, ds: seq<Did>, i: nat)
    requires i <= |ds|
  {
    s'.doubled.Keys == s.doubled.Keys
    && forall z :: z in s.doubled ==> s'.doubled[z] == s.doubled[z] + HeldAmong(s.deps, ds[..i], z)
  }

  lemma DoubledNext(s: Sys, s1: Sys, s2: Sys, ds: seq<Did>, i: nat)
    requires i < |ds| && DoubledBy(s, s1, ds, i) && s2.doubled.Keys == s1.doubled.Keys
    requires forall z :: z in s1.doubled ==>
               s2.doubled[z] == s1.doubled[z] + (if HeldTo(s.deps, ds[i], z) then 1 else 0)
    ensures DoubledBy(s, s2, ds, i + 1)
  {
    forall z | z in s.doubled ensures s2.doubled[z] == s.doubled[z] + HeldAmong(s.deps, ds[..i+1], z) {
      HeldAmongNext(s.deps, ds, i, z);
    }
  }

  /** Acquire all dependencies. What is held already is counted once more, so that the counts stay exact precisely if
      nothing was held. */
  method AcquireAll(s: Sys, x: Sid, ghost w: Slack) returns (s': Sys)
    requires Inv(s, w) && x in s.svcs
    ensures Inv(s', w) && SameGraph(s, s') && MoreDoubled(s, s') && StopsKept(s, s')
    ensures s'.doubled == s.doubled <==> NothingHeld(s, x)
    ensures x in s.dependsOn && DoubledBy(s, s', s.dependsOn[x], |s.dependsOn[x]|)
    ensures forall d :: d in s.deps && s.deps[d].from == x ==> AllHeld(s', d)
    ensures (OnlyOrders(s, x) ==> s' == s) && Grasped(s, s')
    ensures OnlyBelow(s, s', x) && (NoLinkTo(s, x, x) ==> s'.svcs[x] == s.svcs[x])
  {
    s' := s;
    assert LinksOK(s, x);
    var ds := s.dependsOn[x];
    forall j | 0 <= j < |ds| ensures ds[j] in s.deps { OwnLink(s, x, ds[j]); }
    UpKeepsSelf(s);
    for i := 0 to |ds|
      invariant Inv(s', w) && Acquiring(s, s', ds, i)
      invariant OnlyOrders(s, x) ==> s' == s
    {
      ghost var s1 := s';
      OwnLink(s, x, ds[i]);
      s' := AcquireOne(s', ds[i], w);
      AcquiredNext(s, s1, s', ds, i);
    }
    DoubledExactly(s, s', x);
    HeldThroughout(s, s', x);
    forall y | y in s.svcs && NoLinkTo(s, x, y) ensures s'.svcs[y] == s.svcs[y] {
      NoneAtAll(s, x, y);
      assert NoneTo(s, ds, y);
    }
  }

  /** Only what `x` depends on has changed. */
  ghost predicate OnlyBelow(s: Sys, s': Sys, x: Sid) {
    && s'.svcs.Keys == s.svcs.Keys
    && forall y {:trigger s'.svcs[y]} :: y in s.svcs && NoLinkTo(s, x, y) ==> s'.svcs[y] == s.svcs[y]
  }

  lemma NoneAtAll(s: Sys, x: Sid, y: Sid)
    requires WF(s) && x in s.svcs && x in s.dependsOn && NoLinkTo(s, x, y)
    ensures NoneTo(s, s.dependsOn[x], y)
  {
    forall d | d in s.dependsOn[x] ensures d in s.deps && s.deps[d].to != y { OwnLink(s, x, d); }
  }

  lemma {:induction false} NoneAmong(deps: map<Did, Dep>, ds: seq<Did>, z: Sid)
    requires forall d :: d in ds ==> !HeldTo(deps, d, z)
    ensures HeldAmong(deps, ds, z) == 0
  {
    if ds != [] {
      NoneAmong(deps, ds[..|ds|-1], z);
    }
  }

  lemma {:induction false} OneAmong(deps: map<Did, Dep>, ds: seq<Did>, d: Did, z: Sid)
    requires d in ds && HeldTo(deps, d, z)
    ensures HeldAmong(deps, ds, z) >= 1
  {
    if ds[|ds|-1] != d {
      OneAmong(deps, ds[..|ds|-1], d, z);
    }
  }

  /** Something is counted twice exactly if a dependency was held. */
  lemma DoubledExactly(s: Sys, s': Sys, x: Sid)
    requires WF(s) && x in s.svcs && x in s.dependsOn && DoubledBy(s, s', s.dependsOn[x], |s.dependsOn[x]|)
    ensures s'.doubled == s.doubled <==> NothingHeld(s, x)
  {
    var ds := s.dependsOn[x];
    assert ds[..|ds|] == ds;
    if NothingHeld(s, x) {
      forall z | z in s.doubled ensures s'.doubled[z] == s.doubled[z] {
        forall d | d in ds ensures !HeldTo(s.deps, d, z) { OwnLink(s, x, d); }
        NoneAmong(s.deps, ds, z);
      }
    } else {
      var d :| d in s.deps && s.deps[d].from == x && !s.deps[d].IsOnlyOrdering() && s.deps[d].holdingAcq;
      assert DepOK(s, d) && LinksOK(s, s.deps[d].to);
      OneAmong(s.deps, ds, d, s.deps[d].to);
    }
  }

  ghost predicate NoLinkTo(s: Sys, x: Sid, y: Sid) {
    forall d :: d in s.deps && s.deps[d].from == x ==> s.deps[d].to != y
  }

  /** Some of the links have been acquired, and the others are as they were. */
  ghost predicate Acquiring(s: Sys, s': Sys, ds: seq<Did>, i: nat)
    requires i <= |ds|
  {
    && SameGraph(s, s') && MoreDoubled(s, s') && StopsKept(s, s') && DoubledBy(s, s', ds, i) && Grasped(s, s')
    && (forall j :: i <= j < |ds| ==> ds[j] in s.deps && s'.deps[ds[j]] == s.deps[ds[j]])
    && (forall y :: y in s.svcs && NoneTo(s, ds, y) ==> s'.svcs[y] == s.svcs[y])
    && (forall j :: 0 <= j < i ==> AllHeld(s', ds[j]))
  }

  /** None of the links leads to `y`. */
  ghost predicate NoneTo(s: Sys, ds: seq<Did>, y: Sid) {
    forall d :: d in ds ==> d in s.deps && s.deps[d].to != y
  }

  lemma AcquiredNext(s: Sys, s1: Sys, s2: Sys, ds: seq<Did>, i: nat)
    requires i < |ds| && Distinct(ds) && Acquiring(s, s1, ds, i) && SameGraph(s1, s2) && StopsKept(s1, s2)
             && MoreDoubled(s1, s2) && Grasped(s1, s2)
    requires ds[i] in s1.deps
    requires s2.deps == if s1.deps[ds[i]].IsOnlyOrdering() then s1.deps
             else s1.deps[ds[i] := s1.deps[ds[i]].(holdingAcq := true)]
    requires forall z :: z in s1.doubled ==>
               s2.doubled[z] == s1.doubled[z] + (if HeldTo(s1.deps, ds[i], z) then 1 else 0)
    requires forall y :: y in s1.svcs && y != s1.deps[ds[i]].to ==> s2.svcs[y] == s1.svcs[y]
    ensures Acquiring(s, s2, ds, i + 1)
  {
    assert ds[i] in ds;
    StopsKeptTrans(s, s1, s2);
    DoubledTrans(s, s1, s2);
    assert forall z :: HeldTo(s1.deps, ds[i], z) == HeldTo(s.deps, ds[i], z);
    DoubledNext(s, s1, s2, ds, i);
    GraspedTrans(s, s1, s2);
    HeldMore(s1, s2, ds, i);
  }

  /** The service has only orderings. */
  ghost predicate OnlyOrders(s: Sys, x: Sid) {
    forall d :: d in s.deps && s.deps[d].from == x ==> s.deps[d].IsOnlyOrdering()
  }

  lemma HeldMore(s: Sys, s': Sys, ds: seq<Did>, i: nat)
    requires i < |ds| && ds[i] in s.deps && forall j :: 0 <= j < i ==> AllHeld(s, ds[j])
    requires s'.deps == if s.deps[ds[i]].IsOnlyOrdering() then s.deps
             else s.deps[ds[i] := s.deps[ds[i]].(holdingAcq := true)]
    ensures forall j :: 0 <= j < i + 1 ==> AllHeld(s', ds[j])
  {
    forall j | 0 <= j < i + 1 ensures AllHeld(s', ds[j]) { assert j < i ==> AllHeld(s, ds[j]); }
  }

  lemma HeldThroughout(s: Sys, s': Sys, x: Sid)
    requires WF(s) && x in s.svcs && x in s.dependsOn
             && forall j :: 0 <= j < |s.dependsOn[x]| ==> AllHeld(s', s.dependsOn[x][j])
    ensures forall d :: d in s.deps && s.deps[d].from == x ==> AllHeld(s', d)
  {
    var ds := s.dependsOn[x];
    forall d | d in s.deps && s.deps[d].from == x ensures AllHeld(s', d) {
      assert DepOK(s, d);
      var j :| 0 <= j < |ds| && ds[j] == d;
      assert AllHeld(s', ds[j]);
    }
  }

  /** Whatever is more than an ordering is held. */
  ghost predicate AllHeld(s: Sys, d: Did) {
    d in s.deps && (s.deps[d].IsOnlyOrdering() || s.deps[d].holdingAcq)
  }

  // Anything done to the set without changing its services and links.
  ghost predicate Run(s: Sys, s': Sys) {
    SameGraph(s, s') && s'.doubled == s.doubled
  }

  lemma RunTrans(s: Sys, s1: Sys, s2: Sys)
    requires Run(s, s1) && Run(s1, s2)
    ensures Run(s, s2)
  {
  }

  /** Besides, every service that waits for its dependents to stop is still going to be woken. */
  ghost predicate SafeRun(s: Sys, s': Sys) {
    Run(s, s') && StopsKept(s, s')
  }

  lemma SafeTrans(s: Sys, s1: Sys, s2: Sys)
    requires SafeRun(s, s1) && SafeRun(s1, s2)
    ensures SafeRun(s, s2)
  {
    StopsKeptTrans(s, s1, s2);
  }

  method PropagateRequire(s: Sys, x: Sid, ghost w: Slack) returns (s': Sys)
    requires Inv(s, w) && x in s.svcs
    ensures Inv(s', Paid(w, x, PropRequire)) && SameGraph(s, s') && MoreDoubled(s, s') && StopsKept(s, s')
    ensures PropRequire !in s.svcs[x].prop ==> s' == s
    ensures s'.doubled == s.doubled <==> (PropRequire in s.svcs[x].prop ==> NothingHeld(s, x))
    ensures PropRequire in s.svcs[x].prop ==> forall d :: d in s.deps && s.deps[d].from == x ==> AllHeld(s', d)
    ensures PropRequire in s.svcs[x].prop ==> x in s.dependsOn && DoubledBy(s, s', s.dependsOn[x], |s.dependsOn[x]|)
    ensures PropRequire in s.svcs[x].prop && OnlyOrders(s, x) ==> s' == NoProp(s, x, PropRequire)
    ensures NoLinkTo(s, x, x) ==> s'.svcs[x] == s.svcs[x].(prop := s.svcs[x].prop - {PropRequire})
    ensures PropRequire in s.svcs[x].prop && NoLinkTo(s, x, x) ==> TookHold(s, s', x)
    ensures SameStates(s, s') && Progress(s, s')
    ensures s.svcs[x].prop == {PropRequire} && (OnlyOrders(s, x) || NoLinkTo(s, x, x)) ==> s'.svcs[x].prop == {}
  {
    s' := s;
    if PropRequire in s.svcs[x].prop {
      s' := RequireAll(s, x, w);
    } else {
      Done(s, x, PropRequire, w);
    }
  }

  /** Acquire all dependencies, which was asked for. */
  method RequireAll(s: Sys, x: Sid, ghost w: Slack) returns (s': Sys)
    requires Inv(s, w) && x in s.svcs && PropRequire in s.svcs[x].prop
    ensures Inv(s', Paid(w, x, PropRequire)) && SameGraph(s, s') && MoreDoubled(s, s') && StopsKept(s, s')
    ensures s'.doubled == s.doubled <==> NothingHeld(s, x)
    ensures forall d :: d in s.deps && s.deps[d].from == x ==> AllHeld(s', d)
    ensures x in s.dependsOn && DoubledBy(s, s', s.dependsOn[x], |s.dependsOn[x]|)
    ensures OnlyOrders(s, x) ==> s' == NoProp(s, x, PropRequire)
    ensures NoLinkTo(s, x, x) ==> s'.svcs[x] == s.svcs[x].(prop := s.svcs[x].prop - {PropRequire})
    ensures NoLinkTo(s, x, x) ==> TookHold(s, s', x)
    ensures SameStates(s, s') && Progress(s, s')
    ensures s.svcs[x].prop == {PropRequire} && (OnlyOrders(s, x) || NoLinkTo(s, x, x)) ==> s'.svcs[x].prop == {}
  {
    s' := AcquireAll(s, x, w);
    ghost var s1 := s';
    s' := ClearProp(s', x, PropRequire, w);
    StopsKeptTrans(s, s1, s');
    StillHeld(s, s1, s', x);
    NoneLeft(s.svcs[x].prop);
    GraspedStates(s, s1, s', x);
    RequireLessens(s, s1, s', x);
    HoldTaken(s, s1, s', x);
  }

  lemma HoldTaken(s: Sys, s1: Sys, s': Sys, x: Sid)
    requires x in s.svcs && Grasped(s, s1) && (NoLinkTo(s, x, x) ==> s1.svcs[x] == s.svcs[x])
    requires s' == NoProp(s1, x, PropRequire) && forall d :: d in s.deps && s.deps[d].from == x ==> AllHeld(s', d)
    ensures NoLinkTo(s, x, x) ==>
              TookHold(s, s', x) && s'.svcs[x] == s.svcs[x].(prop := s.svcs[x].prop - {PropRequire})
  {
    if NoLinkTo(s, x, x) {
      GraspedThen(s, s1, x);
    }
  }

  lemma RequireLessens(s: Sys, s1: Sys, s': Sys, x: Sid)
    requires x in s.svcs && PropRequire in s.svcs[x].prop && Grasped(s, s1) && SameGraph(s, s1)
    requires OnlyBelow(s, s1, x)
    requires x in s1.svcs && s' == NoProp(s1, x, PropRequire)
    ensures Progress(s, s')
  {
    forall y | y in s.svcs
      ensures && (PropRequire in s'.svcs[y].prop ==> PropRequire in s.svcs[y].prop)
              && (PropStart in s'.svcs[y].prop ==> PropStart in s.svcs[y].prop || DependsOnIt(s, x, y)) {
      assert MoreWanted(s.svcs[y], s1.svcs[y]);
      assert !NoLinkTo(s, x, y) ==> DependsOnIt(s, x, y);
    }
    AskedLessens(s, s', x);
  }

  lemma GraspedStates(s: Sys, s1: Sys, s': Sys, x: Sid)
    requires Grasped(s, s1) && SameGraph(s, s1) && x in s1.svcs && s' == NoProp(s1, x, PropRequire)
    ensures SameStates(s, s')
  {
    forall y | y in s.svcs ensures SameState(s, s', y) { assert MoreWanted(s.svcs[y], s1.svcs[y]); }
  }

  lemma StillHeld(s: Sys, s1: Sys, s': Sys, x: Sid)
    requires s'.deps == s1.deps && forall d :: d in s.deps && s.deps[d].from == x ==> AllHeld(s1, d)
    ensures forall d :: d in s.deps && s.deps[d].from == x ==> AllHeld(s', d)
  {
    forall d | d in s.deps && s.deps[d].from == x ensures AllHeld(s', d) { assert AllHeld(s1, d); }
  }

  lemma NoneLeft(prop: set<Prop>)
    ensures prop == {PropRequire} ==> prop - {PropRequire} == {}
  {
  }

  method PropagateRelease(s: Sys, x: Sid, ghost w: Slack) returns (s': Sys)
    requires Inv(s, w) && x in s.svcs
    ensures Inv(s', Paid(w, x, PropRelease)) && SafeRun(s, s')
    ensures PropRelease !in s.svcs[x].prop ==> s' == s
    ensures PropStart in s'.svcs[x].prop ==> PropStart in s.svcs[x].prop
    ensures PropRelease in s.svcs[x].prop ==> forall d :: d in s.deps && s.deps[d].from == x ==> Freed(s', d)
    ensures PropRelease in s.svcs[x].prop ==> ReleasedFew(s, s', x)
    ensures Progress(s, s')
  {
    s' := s;
    if PropRelease in s.svcs[x].prop {
      s' := ReleaseDependencies(s, x, w);
      ghost var s1 := s';
      DownCalm(s, s1);
      assert SvcDown(s.svcs[x], s1.svcs[x]);
      s' := ClearProp(s', x, PropRelease, w);
      CalmTrans(s, s1, s');
      forall d | d in s.deps && s.deps[d].from == x ensures Freed(s', d) { assert DepOK(s, d); }
      FewReleased(s, s1, s', x);
      GivenUpLessens(s, s1, s', x, Paid(w, x, PropRelease));
    } else {
      Done(s, x, PropRelease, w);
    }
  }

  lemma GivenUpLessens(s: Sys, s1: Sys, s': Sys, x: Sid, w: Slack)
    requires x in s.svcs && PropRelease in s.svcs[x].prop && Lower(s, s1) && Light(s, s1, x)
    requires x in s1.svcs && s' == NoProp(s1, x, PropRelease) && SameGraph(s, s') && Inv(s', w)
    ensures Lessens(s, s')
  {
    forall y | y in s.svcs && y in s'.svcs
      ensures UnaskedSvc(s.svcs[y], s'.svcs[y]) && FallsSvc(s.svcs[y], s'.svcs[y]) {
      assert y in s1.svcs;
      assert SvcDown(s.svcs[y], s1.svcs[y]) && LightSvc(s.svcs[y], s1.svcs[y]);
    }
    ReleaseLessens(s, s', x, w);
  }

  /** Exactly what comes of releasing no dependency, or the only one if nobody has to be told about that. */
  ghost predicate ReleasedFew(s: Sys, s': Sys, x: Sid) {
    && x in s.svcs && x in s.dependsOn
    && (s.dependsOn[x] == [] ==> s' == NoProp(s, x, PropRelease))
    && (|s.dependsOn[x]| == 1 ==> ReleasedOne(s, s', x, s.dependsOn[x][0]))
  }

  ghost predicate ReleasedOne(s: Sys, s': Sys, x: Sid, d: Did)
    requires x in s.svcs
  {
    QuietDrop(s, d) && s.deps[d].to != x ==>
      && x in s'.svcs && s'.svcs[x] == s.svcs[x].(prop := s.svcs[x].prop - {PropRelease})
      && DroppedQuietly(s, PutSvc(s', x, s.svcs[x]), d)
  }

  lemma FewReleased(s: Sys, s1: Sys, s': Sys, x: Sid)
    requires x in s.svcs && x in s1.svcs && x in s.dependsOn && s' == NoProp(s1, x, PropRelease)
    requires s.dependsOn[x] == [] ==> s1 == s
    requires |s.dependsOn[x]| == 1 && QuietDrop(s, s.dependsOn[x][0]) ==> DroppedQuietly(s, s1, s.dependsOn[x][0])
    ensures ReleasedFew(s, s', x)
  {
    if |s.dependsOn[x]| == 1 {
      var d := s.dependsOn[x][0];
      if QuietDrop(s, d) && s.deps[d].to != x {
        OneReleased(s, s1, s', x, d);
      }
    }
  }

  lemma OneReleased(s: Sys, s1: Sys, s': Sys, x: Sid, d: Did)
    requires x in s.svcs && x in s1.svcs && s' == NoProp(s1, x, PropRelease) && QuietDrop(s, d)
    requires s.deps[d].to != x && DroppedQuietly(s, s1, d)
    ensures ReleasedOne(s, s', x, d)
  {
    assert s1.svcs[x] == s.svcs[x];
    PutTwice(s1, x, s'.svcs[x], s.svcs[x]);
    SameRecord(s1, x);
  }

  /** A dependency has failed to start, and so the service has, as in `failed`. */
  method PropagateFailure(s: Sys, x: Sid, ghost w: Slack) returns (s': Sys, ghost failed: Sys)
    requires Inv(s, w) && x in s.svcs
    ensures Inv(s', Paid(w, x, PropFailure)) && SafeRun(s, s')
    ensures PropFailure !in s.svcs[x].prop ==> s' == s
    ensures PropFailure in s.svcs[x].prop ==>
              s'.svcs[x].state == STOPPED && s'.svcs[x].desired == STOPPED && !s'.svcs[x].startExplicit
    ensures PropFailure in s.svcs[x].prop ==>
              FailedAs(PutSvc(s, x, Failing(s.svcs[x])), failed, x)
    ensures Progress(s, s')
  {
    s', failed := s, s;
    if PropFailure in s.svcs[x].prop {
      s', failed := FailWithIt(s, x, w);
    } else {
      Done(s, x, PropFailure, w);
    }
  }

  function Failing(v: Service): Service {
    v.(prop := v.prop - {PropFailure}, state := STOPPED)
  }

  method FailWithIt(s: Sys, x: Sid, ghost w: Slack) returns (s': Sys, ghost failed: Sys)
    requires Inv(s, w) && x in s.svcs && PropFailure in s.svcs[x].prop
    ensures Inv(s', Paid(w, x, PropFailure)) && SafeRun(s, s') && Progress(s, s')
    ensures s'.svcs[x].state == STOPPED && s'.svcs[x].desired == STOPPED && !s'.svcs[x].startExplicit
    ensures FailedAs(PutSvc(s, x, Failing(s.svcs[x])), failed, x)
  {
    s' := Doom(s, x, w);
    ghost var s1 := s';
    ghost var freed;
    s', failed, freed := FailedToStart(s', x, Paid(w, x, PropFailure));
    FailureKeeps(s, s1, s', x);
    FailedLessens(s, s1, s', x, Paid(w, x, PropFailure));
  }

  lemma FailedLessens(s: Sys, s1: Sys, s': Sys, x: Sid, w: Slack)
    requires x in s.svcs && PropFailure in s.svcs[x].prop && s1 == PutSvc(s, x, Failing(s.svcs[x]))
    requires SameGraph(s, s') && Tame(s1, s') && Inv(s', w) && |s'.consoleQ| <= |s.consoleQ|
    requires |s'.consoleQ| < |s.consoleQ| || Falls(s1, s', x)
    ensures Progress(s, s')
  {
    TameUnasked(s, s1, s');
    FailureLessens(s, s1, s', x, w);
  }

  method Doom(s: Sys, x: Sid, ghost w: Slack) returns (s': Sys)
    requires Inv(s, w) && x in s.svcs
    ensures Inv(s', Paid(w, x, PropFailure)) && Run(s, s') && s' == PutSvc(s, x, Failing(s.svcs[x]))
  {
    s' := ClearProp(s, x, PropFailure, w);
    ghost var s1 := s';
    s' := SetState(s', x, STOPPED, Paid(w, x, PropFailure));
    FailingIs(s.svcs[x]);
    PutTwice(s, x, s1.svcs[x], Failing(s.svcs[x]));
  }

  lemma FailingIs(v: Service)
    ensures v.(prop := v.prop - {PropFailure}).(state := STOPPED) == Failing(v)
  {
  }

  /** A service that is STOPPED before it tells its dependencies has told them in the end. */
  lemma FailureKeeps(s: Sys, s1: Sys, s2: Sys, x: Sid)
    requires x in s.svcs && s1 == PutSvc(s, x, Failing(s.svcs[x])) && SameGraph(s1, s2) && StopsKept(s1, s2)
             && AllNotified(s2, x)
    ensures StopsKept(s, s2)
  {
    forall z | z in s.svcs && StopAwake(s, z) ensures StopAwake(s2, z) {
      if UpAbove(s, z) {
        UpBut(s, s1, x, z);
      }
      if StopAwake(s1, z) {
        assert StopAwake(s2, z);
      } else {
        var d :| d in s.deps && s.deps[d].to == z && s.deps[d].from == x;
        assert Notified(s2, d) && Listens(s1, z) && Listens(s2, z);
      }
    }
    forall z | z in s.svcs && Listens(s, z) ensures Listens(s2, z) { assert Listens(s1, z); }
  }

  lemma UpBut(s: Sys, s1: Sys, x: Sid, z: Sid)
    requires x in s.svcs && s1 == PutSvc(s, x, Failing(s.svcs[x])) && UpAbove(s, z)
    ensures UpAbove(s1, z) || exists d :: d in s.deps && s.deps[d].to == z && s.deps[d].from == x
  {
    var d :| d in s.deps && s.deps[d].to == z && IsUp(s, s.deps[d].from);
    if s.deps[d].from != x {
      assert d in s1.deps && s1.deps[d].to == z && IsUp(s1, s1.deps[d].from);
    }
  }

  method PropagateStart(s: Sys, x: Sid, ghost w: Slack) returns (s': Sys)
    requires Inv(s, w) && x in s.svcs
    ensures Inv(s', Paid(w, x, PropStart)) && Run(s, s')
    ensures PropStart !in s.svcs[x].prop ==> s' == s
    ensures PropStart in s.svcs[x].prop && s.svcs[x].state == STOPPED && !s.svcs[x].pinnedStopped ==>
              FreshStart(NoProp(s, x, PropStart), s', x)
    ensures StopsKept(s, s') <==> (PropStart in s.svcs[x].prop && TurnsAround(s.svcs[x]) ==> WakesNobody(s, x))
    ensures PropStart in s.svcs[x].prop && TurnsAround(s.svcs[x]) ==>
              s'.svcs[x].state == STARTING && s'.svcs[x].prop == s.svcs[x].prop - {PropStart}
    ensures Progress(s, s')
  {
    s' := s;
    if PropStart in s.svcs[x].prop {
      s' := ClearProp(s, x, PropStart, w);
      ghost var s1 := s';
      s' := DoStart(s', x, Paid(w, x, PropStart));
      StartedAfter(s, s1, s', x);
      StartedHere(s, s1, s', x);
    } else {
      Done(s, x, PropStart, w);
    }
  }

  lemma StartedHere(s: Sys, s1: Sys, s': Sys, x: Sid)
    requires x in s.svcs && PropStart in s.svcs[x].prop && s1 == NoProp(s, x, PropStart) && SameGraph(s, s')
    requires s1.svcs[x].state == STOPPED ==> if s1.svcs[x].pinnedStopped then Unasked(s1, s') else FreshStart(s1, s', x)
    requires TurnsAround(s1.svcs[x]) ==> Turned(s1, s', x)
    requires s1.svcs[x].state != STOPPED && !TurnsAround(s1.svcs[x]) ==>
               s' == PutSvc(s1, x, s1.svcs[x].(desired := STARTED))
    ensures Lessens(s, s')
  {
    assert x in s'.svcs;
    forall y | y in s.svcs
      ensures && (PropStart in s'.svcs[y].prop ==> PropStart in s.svcs[y].prop && y != x)
              && (y != x && PropRequire in s'.svcs[y].prop ==> PropRequire in s.svcs[y].prop) {
      assert y in s1.svcs && y in s'.svcs;
      assert Unasked(s1, s') ==> UnaskedSvc(s1.svcs[y], s'.svcs[y]);
    }
    StartLessens(s, s', x);
  }

  /** Clearing a flag makes no difference to what a start does to the wake-ups. */
  lemma StartedAfter(s: Sys, s1: Sys, s': Sys, x: Sid)
    requires x in s.svcs && s1 == NoProp(s, x, PropStart) && StopsKept(s, s1) && SameGraph(s, s1)
    requires StopsKept(s1, s') <==> (TurnsAround(s1.svcs[x]) ==> WakesNobody(s1, x))
    ensures StopsKept(s, s') <==> (TurnsAround(s.svcs[x]) ==> WakesNobody(s, x))
  {
    forall y | y in s.svcs ensures SameState(s, s1, y) && SameState(s1, s, y) { }
    if TurnsAround(s.svcs[x]) && WakesNobody(s, x) {
      SameWakes(s, s1, x);
    }
    if TurnsAround(s.svcs[x]) && WakesNobody(s1, x) {
      SameWakes(s1, s, x);
    }
    if StopsKept(s1, s') {
      StopsKeptTrans(s, s1, s');
    }
    if StopsKept(s, s') {
      forall z | z in s1.svcs && StopAwake(s1, z) ensures StopAwake(s', z) { SameStatesSleep(s, s1, z); }
      forall z | z in s1.svcs && Listens(s1, z) ensures Listens(s', z) { assert SameState(s, s1, z) && Listens(s, z); }
    }
  }

  /** A stop that is propagated concerns nobody but the service. */
  ghost predicate StopsAlone(s: Sys, x: Sid) {
    x in s.svcs && !s.svcs[x].inUserRestart && StopsQuietly(NoProp(s, x, PropStop), x)
  }

  method PropagateStop(s: Sys, x: Sid, ghost w: Slack) returns (s': Sys)
    requires Inv(s, w) && x in s.svcs
    ensures Inv(s', Paid(w, x, PropStop)) && SafeRun(s, s')
    ensures PropStop !in s.svcs[x].prop ==> s' == s
    ensures PropStop in s.svcs[x].prop && s.svcs[x].state == STARTED && !s.svcs[x].IsStartPinned() ==>
              s'.svcs[x].state == STOPPING
    ensures PropStop in s.svcs[x].prop && StopsAlone(s, x) ==> QuietStop(NoProp(s, x, PropStop), s', x)
    ensures Progress(s, s')
  {
    s' := s;
    if PropStop in s.svcs[x].prop {
      s' := ClearProp(s, x, PropStop, w);
      ghost var s1 := s';
      s' := DoStop(s', x, s'.svcs[x].inUserRestart, Paid(w, x, PropStop));
      DownCalm(s1, s');
      CalmTrans(s, s1, s');
      StopLessens(s, s1, s', x, Paid(w, x, PropStop));
    } else {
      Done(s, x, PropStop, w);
    }
  }

  method CheckPinned(s: Sys, x: Sid) returns (pinned: bool)
    requires WF(s) && x in s.svcs
    ensures pinned <==> PinnedAbove(s, x)
  {
    assert LinksOK(s, x);
    var ds := s.dependents[x];
    for i := 0 to |ds|
      invariant forall j :: 0 <= j < i ==> !PinsDown(s, ds[j])
    {
      assert ds[i] in s.dependents[x] && DepOK(s, ds[i]);
      if s.deps[ds[i]].IsHard() && s.svcs[s.deps[ds[i]].from].IsStartPinned() {
        return true;
      }
    }
    forall d | d in s.deps && s.deps[d].to == x ensures !PinsDown(s, d) { assert DepOK(s, d) && d in ds; }
    return false;
  }

  /** Have every hard dependency that disagrees with `pin` look at its dependents. */
  method MarkPins(s: Sys, x: Sid, pin: bool, ghost w: Slack) returns (s': Sys)
    requires Inv(s, w) && x in s.svcs
    ensures Inv(s', w) && Down(s, s') && Light(s, s', x) && s'.deps == s.deps
    ensures x in s.dependsOn && forall d :: d in s.dependsOn[x] ==> TellsPin(s', d, pin)
    ensures (s.dependsOn[x] == [] ==> s' == s) && SameStates(s, s')
  {
    s' := s;
    LightStill(s, x);
    SameStatesSelf(s);
    assert LinksOK(s, x);
    var ds := s.dependsOn[x];
    for i := 0 to |ds|
      invariant Inv(s', w) && Down(s, s') && s'.deps == s.deps && (i == 0 ==> s' == s) && SameStates(s, s')
      invariant Light(s, s', x)
      invariant forall j :: 0 <= j < i ==> TellsPin(s', ds[j], pin)
    {
      ghost var s1 := s';
      OwnLink(s, x, ds[i]);
      assert DepOK(s, ds[i]);
      s' := MarkPin(s', x, ds[i], pin, w);
      MarkedTrans(s, s1, s', x);
      ToldUpTo(s1, s', ds, i, pin);
    }
  }

  lemma MarkedTrans(s: Sys, s1: Sys, s': Sys, x: Sid)
    requires Down(s, s1) && Light(s, s1, x) && SameStates(s, s1) && Down(s1, s') && Light(s1, s', x)
             && SameStates(s1, s')
    ensures Down(s, s') && Light(s, s', x) && SameStates(s, s')
  {
    DownTrans(s, s1, s');
    LightTrans(s, s1, s', x);
    SameStatesTrans(s, s1, s');
  }

  lemma ToldUpTo(s: Sys, s': Sys, ds: seq<Did>, i: nat, pin: bool)
    requires i < |ds| && TellsPin(s', ds[i], pin) && forall e :: TellsPin(s, e, pin) ==> TellsPin(s', e, pin)
    requires forall j :: 0 <= j < i ==> TellsPin(s, ds[j], pin)
    ensures forall j :: 0 <= j < i + 1 ==> TellsPin(s', ds[j], pin)
  {
    forall j | 0 <= j < i + 1 ensures TellsPin(s', ds[j], pin) { assert j < i ==> TellsPin(s, ds[j], pin); }
  }

  /** Have one dependency look at its dependents, if it is a hard one that disagrees. */
  method MarkPin(s: Sys, ghost x: Sid, d: Did, pin: bool, ghost w: Slack) returns (s': Sys)
    requires Inv(s, w) && d in s.deps && s.deps[d].to in s.svcs
    ensures Inv(s', w) && Down(s, s') && Light(s, s', x) && s'.deps == s.deps && SameStates(s, s')
            && TellsPin(s', d, pin)
    ensures forall e :: TellsPin(s, e, pin) ==> TellsPin(s', e, pin)
  {
    var y := s.deps[d].to;
    s' := s;
    LightStill(s, x);
    SameStatesSelf(s);
    if s.deps[d].IsHard() && s.svcs[y].deptPinned != pin {
      s' := Mark(s, y, PropPin, w);
      LightOne(s, s', x, y);
      MarkedStates(s, s', y);
    }
  }

  lemma MarkedStates(s: Sys, s': Sys, y: Sid)
    requires SameGraph(s, s') && y in s.svcs && y in s'.svcs
    requires s' == PutSvc(s, y, s.svcs[y].(prop := s'.svcs[y].prop)).(propQ := s'.propQ)
    ensures SameStates(s, s')
  {
    forall x | x in s.svcs ensures SameState(s, s', x) { }
  }

  ghost predicate TellsPin(s: Sys, d: Did, pin: bool) {
    && d in s.deps && s.deps[d].to in s.svcs
    && (s.deps[d].IsHard() && s.svcs[s.deps[d].to].deptPinned != pin ==> PropPin in s.svcs[s.deps[d].to].prop)
  }

  method SetDeptPinned(s: Sys, x: Sid, pin: bool, ghost w: Slack) returns (s': Sys)
    requires Inv(s, w) && x in s.svcs
    ensures Inv(s', w) && SafeRun(s, s') && s' == PutSvc(s, x, s.svcs[x].(deptPinned := pin))
  {
    s' := SetFlags(s, x, s.svcs[x].(deptPinned := pin), w);
  }

  method ChangePin(s: Sys, x: Sid, pin: bool, ghost w: Slack) returns (s': Sys)
    requires Inv(s, w) && x in s.svcs
    ensures Inv(s', w) && SafeRun(s, s') && s'.svcs[x].deptPinned == pin
            && Down(PutSvc(s, x, s.svcs[x].(deptPinned := pin)), s')
            && Light(PutSvc(s, x, s.svcs[x].(deptPinned := pin)), s', x)
    ensures x in s.dependsOn && forall d :: d in s.dependsOn[x] ==> TellsPin(s', d, pin)
    ensures SameStates(s, s')
  {
    s' := SetDeptPinned(s, x, pin, w);
    ghost var s1 := s';
    s' := MarkPins(s', x, pin, w);
    DownKeepsStops(s1, s');
    SafeTrans(s, s1, s');
    forall y | y in s.svcs ensures SameState(s, s1, y) { }
    SameStatesTrans(s, s1, s');
  }

  /** What the pins held back is due once the last one is gone. */
  predicate HeldBack(v: Service) {
    !v.IsStartPinned() && (v.desired == STOPPED || v.forceStop) && v.state == STARTED
  }

  method StopIfUnpinned(s: Sys, x: Sid, ghost w: Slack) returns (s': Sys)
    requires Inv(s, w) && x in s.svcs
    ensures Inv(s', w) && Down(s, s') && Light(s, s', x)
    ensures if HeldBack(s.svcs[x]) then s'.svcs[x].state == STOPPING else s' == s
  {
    s' := s;
    LightStill(s, x);
    if HeldBack(s.svcs[x]) {
      s' := DoStop(s, x, false, w);
    }
  }

  /** Look at the pins of the dependents again. */
  method PropagatePin(s: Sys, x: Sid, ghost w: Slack) returns (s': Sys)
    requires Inv(s, w) && x in s.svcs
    ensures Inv(s', w) && SafeRun(s, s') && (PropPin !in s.svcs[x].prop ==> s' == s)
    ensures PropPin in s.svcs[x].prop ==> (s'.svcs[x].deptPinned <==> PinnedAbove(s, x))
    ensures PropPin in s.svcs[x].prop && s.svcs[x].deptPinned
            && HeldBack(s.svcs[x].(deptPinned := PinnedAbove(s, x))) ==>
              s'.svcs[x].state == STOPPING
    ensures s.svcs[x].state != STARTED ==> SameStates(s, s')
    ensures Progress(s, s')
  {
    s' := s;
    SameStatesSelf(s);
    if PropPin in s.svcs[x].prop {
      var pin := CheckPinned(s, x);
      if pin != s.svcs[x].deptPinned {
        s' := ChangePin(s, x, pin, w);
        ghost var s1 := s';
        s' := StopIfUnpinned(s', x, w);
        DownKeepsStops(s1, s');
        SafeTrans(s, s1, s');
        PinnedLessens(s, s1, s', x, w);
      }
    }
  }

  lemma PinnedLessens(s: Sys, s1: Sys, s': Sys, x: Sid, w: Slack)
    requires x in s.svcs && s.svcs[x].deptPinned != PinnedAbove(s, x)
    requires var t := PutSvc(s, x, s.svcs[x].(deptPinned := PinnedAbove(s, x)));
             SameGraph(s, s1) && Down(t, s1) && Light(t, s1, x)
    requires Down(s1, s') && Light(s1, s', x) && Inv(s', w)
    ensures Lessens(s, s')
  {
    var t := PutSvc(s, x, s.svcs[x].(deptPinned := PinnedAbove(s, x)));
    DownTrans(t, s1, s');
    LightTrans(t, s1, s', x);
    PinLessens(s, t, s', x, w);
  }

  lemma SameStatesSelf(s: Sys)
    ensures SameStates(s, s)
  {
    forall x | x in s.svcs ensures SameState(s, s, x) { }
  }

  /** Propagating this does not turn the service around, or nobody is left without a wake-up by that. */
  ghost predicate Steady(s: Sys, x: Sid) {
    && x in s.svcs
    && (PropStart in s.svcs[x].prop ==>
          && PropRelease !in s.svcs[x].prop
          && (PropFailure in s.svcs[x].prop || !TurnsAround(s.svcs[x]) || WakesNobody(s, x)))
  }

  /** Nothing else that is propagated for the service changes which services are up. */
  predicate Undisturbed(v: Service) {
    PropRelease !in v.prop && PropStop !in v.prop
  }

  ghost predicate SteadyAt(s: Sys, x: Sid) {
    Steady(s, x) && (PropRequire in s.svcs[x].prop ==> NoLinkTo(s, x, x))
  }

  /** All that a service taken from the propagation queue had to propagate is done. The counts of
      acquisitions stay exact unless it acquires a dependency it holds already. */
  method DoPropagation(s: Sys, x: Sid, ghost but: set<Sid>) returns (s': Sys)
    requires Inv(s, Slack(DueOf(x), but)) && x in s.svcs
    ensures Inv(s', Slack({}, but)) && SameGraph(s, s') && MoreDoubled(s, s') && Progress(s, s')
    ensures s'.doubled == s.doubled <==> (PropRequire in s.svcs[x].prop ==> NothingHeld(s, x))
    ensures PropRequire in s.svcs[x].prop ==> x in s.dependsOn && DoubledBy(s, s', s.dependsOn[x], |s.dependsOn[x]|)
    ensures SteadyAt(s, x) ==> StopsKept(s, s')
    ensures NoLinkTo(s, x, x) && Undisturbed(s.svcs[x]) ==> (StopsKept(s, s') <==> SteadyAt(s, x))
    ensures s.svcs[x].prop == {PropRequire} && OnlyOrders(s, x) ==> s' == NoProp(s, x, PropRequire)
    ensures s.svcs[x].prop == {PropRequire} && NoLinkTo(s, x, x) ==> TookHold(s, s', x)
    ensures s.svcs[x].prop == {PropRelease} && ReleasesFew(s, x) ==> ReleasedFew(s, s', x)
    ensures s.svcs[x].prop == {PropStop} && StopsAlone(s, x) ==> QuietStop(NoProp(s, x, PropStop), s', x)
    ensures s.svcs[x].prop == {PropStart} && s.svcs[x].state == STOPPED && !s.svcs[x].pinnedStopped ==>
              FreshStart(NoProp(s, x, PropStart), s', x)
  {
    ghost var w := Slack(DueOf(x), but);
    s' := PropagateRequire(s, x, w);
    ghost var s1 := s';
    s' := PropagateRest(s', x, but, Paid(w, x, PropRequire));
    SteadyAfter(s, s1, s', x);
    ProgressTrans(s, s1, s');
  }

  /** Acquiring the dependencies makes no difference to the wake-ups. */
  lemma SteadyAfter(s: Sys, s1: Sys, s': Sys, x: Sid)
    requires x in s.svcs && StopsKept(s, s1) && SameStates(s, s1)
    requires PropRequire !in s.svcs[x].prop ==> s1 == s
    requires NoLinkTo(s, x, x) ==> s1.svcs[x] == s.svcs[x].(prop := s.svcs[x].prop - {PropRequire})
    requires Steady(s1, x) ==> StopsKept(s1, s')
    requires Undisturbed(s1.svcs[x]) ==> (StopsKept(s1, s') <==> Steady(s1, x))
    ensures SteadyAt(s, x) ==> StopsKept(s, s')
    ensures NoLinkTo(s, x, x) && Undisturbed(s.svcs[x]) ==> (StopsKept(s, s') <==> SteadyAt(s, x))
  {
    if SteadyAt(s, x) {
      if WakesNobody(s, x) {
        SameWakes(s, s1, x);
      }
      StopsKeptTrans(s, s1, s');
    } else if NoLinkTo(s, x, x) && Undisturbed(s.svcs[x]) {
      SteadyBack(s, s1, x);
      KeptBack(s, s1, s');
    }
  }

  lemma SteadyBack(s: Sys, s1: Sys, x: Sid)
    requires x in s.svcs && SameStates(s, s1) && !Steady(s, x)
    requires x in s1.svcs && s1.svcs[x] == s.svcs[x].(prop := s.svcs[x].prop - {PropRequire})
    ensures !Steady(s1, x)
  {
    if WakesNobody(s1, x) {
      StatesBack(s, s1);
      SameWakes(s1, s, x);
    }
  }

  lemma StatesBack(s: Sys, s1: Sys)
    requires SameStates(s, s1)
    ensures SameStates(s1, s)
  {
    forall y | y in s1.svcs ensures SameState(s1, s, y) { assert SameState(s, s1, y); }
  }

  lemma KeptBack(s: Sys, s1: Sys, s': Sys)
    requires SameStates(s, s1) && !StopsKept(s1, s')
    ensures !StopsKept(s, s')
  {
    if StopsKept(s, s') {
      forall z | z in s1.svcs && StopAwake(s1, z) ensures StopAwake(s', z) { SameStatesSleep(s, s1, z); }
      forall z | z in s1.svcs && Listens(s1, z) ensures Listens(s', z) { assert SameState(s, s1, z) && Listens(s, z); }
    }
  }

  /** There is no dependency to release, or the one there is has nobody to be told. */
  ghost predicate ReleasesFew(s: Sys, x: Sid) {
    && x in s.dependsOn
    && (s.dependsOn[x] == []
        || (|s.dependsOn[x]| == 1 && QuietDrop(s, s.dependsOn[x][0]) && s.deps[s.dependsOn[x][0]].to != x))
  }

  method PropagateRest(s: Sys, x: Sid, ghost but: set<Sid>, ghost w: Slack) returns (s': Sys)
    requires Inv(s, w) && w == Paid(Slack(DueOf(x), but), x, PropRequire) && x in s.svcs
    ensures Inv(s', Slack({}, but)) && Run(s, s') && Progress(s, s') && (Steady(s, x) ==> StopsKept(s, s'))
    ensures Undisturbed(s.svcs[x]) ==> (StopsKept(s, s') <==> Steady(s, x))
    ensures s.svcs[x].prop == {} ==> s' == s
    ensures s.svcs[x].prop == {PropRelease} && ReleasesFew(s, x) ==> ReleasedFew(s, s', x)
    ensures s.svcs[x].prop == {PropStop} && StopsAlone(s, x) ==> QuietStop(NoProp(s, x, PropStop), s', x)
    ensures s.svcs[x].prop == {PropStart} && s.svcs[x].state == STOPPED && !s.svcs[x].pinnedStopped ==>
              FreshStart(NoProp(s, x, PropStart), s', x)
  {
    s' := PropagateEnd(s, x, w);
    ghost var s2 := s';
    s' := PropagateTurn(s', x, but, Paid(Paid(w, x, PropRelease), x, PropFailure));
    RunTrans(s, s2, s');
    ProgressTrans(s, s2, s');
    SteadyRest(s, s2, s', x);
  }

  method PropagateTurn(s: Sys, x: Sid, ghost but: set<Sid>, ghost w: Slack) returns (s': Sys)
    requires Inv(s, w) && Paid(w, x, PropStart) == Slack({(x, PropStop)}, but) && x in s.svcs
    ensures Inv(s', Slack({}, but)) && Run(s, s') && Progress(s, s') && (!Loses(s, x) ==> StopsKept(s, s'))
    ensures PropStop !in s.svcs[x].prop && Loses(s, x) ==> !StopsKept(s, s')
    ensures s.svcs[x].prop == {} ==> s' == s
    ensures s.svcs[x].prop == {PropStop} && StopsAlone(s, x) ==> QuietStop(NoProp(s, x, PropStop), s', x)
    ensures s.svcs[x].prop == {PropStart} && s.svcs[x].state == STOPPED && !s.svcs[x].pinnedStopped ==>
              FreshStart(NoProp(s, x, PropStart), s', x)
  {
    s' := PropagateStart(s, x, w);
    ghost var s1 := s';
    s' := PropagateLast(s', x, but, Paid(w, x, PropStart));
    RunTrans(s, s1, s');
    ProgressTrans(s, s1, s');
    if !Loses(s, x) {
      StopsKeptTrans(s, s1, s');
    } else if PropStop !in s.svcs[x].prop {
      KeptForth(s, s1, s');
    }
  }

  /** Propagating a start takes a wake-up. */
  ghost predicate Loses(s: Sys, x: Sid) {
    x in s.svcs && PropStart in s.svcs[x].prop && TurnsAround(s.svcs[x]) && !WakesNobody(s, x)
  }

  lemma SteadyRest(s: Sys, s2: Sys, s': Sys, x: Sid)
    requires x in s.svcs && x in s2.svcs && SafeRun(s, s2) && Run(s2, s')
    requires (Steady(s, x) ==> !Loses(s2, x)) && (!Loses(s2, x) ==> StopsKept(s2, s'))
    requires PropStop !in s2.svcs[x].prop && Loses(s2, x) ==> !StopsKept(s2, s')
    requires Undisturbed(s.svcs[x]) && !Steady(s, x) ==> s2 == s
    ensures Steady(s, x) ==> StopsKept(s, s')
    ensures Undisturbed(s.svcs[x]) ==> (StopsKept(s, s') <==> Steady(s, x))
  {
    if Steady(s, x) {
      StopsKeptTrans(s, s2, s');
    }
  }

  lemma KeptForth(s: Sys, s1: Sys, s': Sys)
    requires SameStates(s1, s') && !StopsKept(s, s1) && SameGraph(s, s1)
    ensures !StopsKept(s, s')
  {
    if StopsKept(s, s') {
      forall z | z in s.svcs && StopAwake(s, z) ensures StopAwake(s1, z) { SameStatesSleep(s1, s', z); }
      forall z | z in s.svcs && Listens(s, z) ensures Listens(s1, z) { assert SameState(s1, s', z) && Listens(s', z); }
    }
  }

  method PropagateEnd(s: Sys, x: Sid, ghost w: Slack) returns (s': Sys)
    requires Inv(s, w) && x in s.svcs
    ensures Inv(s', Paid(Paid(w, x, PropRelease), x, PropFailure)) && SafeRun(s, s')
    ensures PropRelease !in s.svcs[x].prop && PropFailure !in s.svcs[x].prop ==> s' == s
    ensures Steady(s, x) ==> !Loses(s', x)
    ensures Progress(s, s')
    ensures s.svcs[x].prop == {PropRelease} && ReleasesFew(s, x) ==> ReleasedFew(s, s', x) && s'.svcs[x].prop == {}
  {
    s' := PropagateRelease(s, x, w);
    ghost var s1 := s';
    ghost var failed;
    s', failed := PropagateFailure(s', x, Paid(w, x, PropRelease));
    SafeTrans(s, s1, s');
    ProgressTrans(s, s1, s');
    NotLost(s, s1, s', x);
    OnlyReleased(s, s1, s', x);
  }

  lemma NotLost(s: Sys, s1: Sys, s': Sys, x: Sid)
    requires x in s.svcs && x in s1.svcs && x in s'.svcs && (PropRelease !in s.svcs[x].prop ==> s1 == s)
    requires if PropFailure in s1.svcs[x].prop then s'.svcs[x].state == STOPPED else s' == s1
    requires PropStart in s1.svcs[x].prop ==> PropStart in s.svcs[x].prop
    ensures Steady(s, x) ==> !Loses(s', x)
  {
  }

  lemma OnlyReleased(s: Sys, s1: Sys, s': Sys, x: Sid)
    requires x in s.svcs && x in s1.svcs && (PropRelease in s.svcs[x].prop ==> ReleasedFew(s, s1, x))
    requires PropFailure !in s1.svcs[x].prop ==> s' == s1
    ensures s.svcs[x].prop == {PropRelease} && ReleasesFew(s, x) ==>
              ReleasedFew(s, s', x) && x in s'.svcs && s'.svcs[x].prop == {}
  {
    if s.svcs[x].prop == {PropRelease} && ReleasesFew(s, x) {
      assert s1.svcs[x].prop == {} by {
        assert {PropRelease} - {PropRelease} == {};
        if s.dependsOn[x] != [] {
          assert ReleasedOne(s, s1, x, s.dependsOn[x][0]);
        }
      }
    }
  }

  method PropagateLast(s: Sys, x: Sid, ghost but: set<Sid>, ghost w: Slack) returns (s': Sys)
    requires Inv(s, w) && w == Slack({(x, PropStop)}, but) && x in s.svcs
    ensures Inv(s', Slack({}, but)) && SafeRun(s, s')
    ensures PropStop !in s.svcs[x].prop && PropPin !in s.svcs[x].prop ==> s' == s
    ensures PropStop !in s.svcs[x].prop && s.svcs[x].state != STARTED ==> SameStates(s, s')
    ensures Progress(s, s')
    ensures s.svcs[x].prop == {PropStop} && StopsAlone(s, x) ==> QuietStop(NoProp(s, x, PropStop), s', x)
  {
    s' := PropagateStop(s, x, w);
    ghost var s1 := s';
    assert Paid(w, x, PropStop) == Slack({}, but);
    s' := PropagatePin(s', x, Slack({}, but));
    SafeTrans(s, s1, s');
    ProgressTrans(s, s1, s');
  }

  // ---------------------------------------------------------------- transitions

  method StopCheckDependents(s: Sys, x: Sid) returns (all: bool)
    requires WF(s) && x in s.svcs
    ensures all <==> forall d :: d in s.deps && s.deps[d].to == x ==> !StillUp(s, d)
  {
    assert LinksOK(s, x);
    var ds := s.dependents[x];
    for i := 0 to |ds|
      invariant forall j :: 0 <= j < i ==> !StillUp(s, ds[j])
    {
      assert ds[i] in s.dependents[x] && DepOK(s, ds[i]);
      if StillUp(s, ds[i]) {
        return false;
      }
    }
    forall d | d in s.deps && s.deps[d].to == x ensures !StillUp(s, d) { assert DepOK(s, d) && d in ds; }
    return true;
  }

  predicate StillUp(s: Sys, d: Did) {
    d in s.deps && s.deps[d].IsHard() && s.deps[d].holdingAcq && !s.deps[d].waitingOn
  }

  /** What comes of a transition: how bringing up a service turns out, whether one that is brought down is gone at once,
      and then whether its start had failed and what it chains to. */
  datatype Will = Will(up: Outcome, gone: bool, failed: bool, chain: Chain)

  ghost predicate NoneStillUp(s: Sys, x: Sid) {
    forall d :: d in s.deps && s.deps[d].to == x ==> !StillUp(s, d)
  }

  /** A service taken from the transition queue: it is brought up only if no dependency is waited on,
      and down only if no dependent still holds it; otherwise something else will queue it again. */
  method ExecuteTransition(s: Sys, x: Sid, will: Will, ghost but: set<Sid>) returns (s': Sys)
    requires Inv(s, Slack({}, but + {x})) && x in s.svcs && (will.chain.To? ==> will.chain.next in s.svcs)
    ensures Inv(s', Slack({}, but)) && Run(s, s')
    ensures s.svcs[x].state == STARTING && !NoneWaited(s, x) ==> s' == s
    ensures s.svcs[x].state == STARTING && NoneWaited(s, x) ==> Raised(s, s', x, will.up)
    ensures s.svcs[x].state == STOPPING && !NoneStillUp(s, x) ==> s' == s
    ensures s.svcs[x].state == STOPPING && NoneStillUp(s, x) && !will.gone ==>
              s' == PutSvc(s, x, GoneDown(s.svcs[x]))
    ensures s.svcs[x].state == STOPPING && NoneStillUp(s, x) && will.gone && will.chain.NoChain? ==> Landed(s', x)
    ensures s.svcs[x].state == STARTED || s.svcs[x].state == STOPPED ==> s' == s
    ensures !will.gone || will.chain.NoChain? ==> StopsKept(s, s')
  {
    s' := s;
    ghost var w := Slack({}, but);
    assert Excuse(w, x) == Slack({}, but + {x});
    assert LinksOK(s, x);
    if s.svcs[x].state == STARTING {
      var all := CheckDepsStarted(s, x);
      if all {
        s' := Raise(s, x, will.up, w);
      } else {
        AwakeAgain(s, x, w);
      }
    } else {
      AwakeAgain(s, x, w);
      if s.svcs[x].state == STOPPING {
        var all := StopCheckDependents(s, x);
        if all {
          ghost var freed;
          s', freed := BringDown(s, x, will, w);
        }
      }
    }
  }

  /** A service that waits for nothing is brought up, or queues for the console. */
  ghost predicate Raised(s: Sys, s': Sys, x: Sid, up: Outcome) {
    && x in s.svcs
    && var t := PutSvc(s, x, s.svcs[x].(waitingForDeps := false));
       if NeedsConsole(s.svcs[x])
       then s' == PutSvc(t, x, t.svcs[x].(waitingForConsole := true)).(consoleQ := s.consoleQ + [x])
       else BroughtUp(t, s', x, up)
  }

  method Raise(s: Sys, x: Sid, up: Outcome, ghost w: Slack) returns (s': Sys)
    requires Inv(s, Excuse(w, x)) && x in s.svcs && s.svcs[x].state == STARTING && NoneWaited(s, x)
    ensures Inv(s', w) && SafeRun(s, s') && Raised(s, s', x, up)
  {
    s' := NoLongerWaiting(s, x, w);
    ghost var s1 := s';
    s' := AllDepsStarted(s', x, up, w);
    SafeTrans(s, s1, s');
    PutTwice(s, x, s1.svcs[x], s1.svcs[x]);
  }

  method NoLongerWaiting(s: Sys, x: Sid, ghost w: Slack) returns (s': Sys)
    requires Inv(s, Excuse(w, x)) && x in s.svcs && s.svcs[x].state == STARTING
    ensures Inv(s', w) && SafeRun(s, s') && s' == PutSvc(s, x, s.svcs[x].(waitingForDeps := false))
  {
    s' := NoWait(s, x, Excuse(w, x));
    assert LinksOK(s', x);
    AwakeAgain(s', x, w);
  }

  /** Take the service down, at once or when its process has gone. In the first case it gives the console back, as in
      `freed`. */
  method BringDown(s: Sys, x: Sid, will: Will, ghost w: Slack) returns (s': Sys, ghost freed: Sys)
    requires Inv(s, w) && x in s.svcs && s.svcs[x].state == STOPPING && (will.chain.To? ==> will.chain.next in s.svcs)
    ensures Inv(s', w) && Run(s, s')
    ensures !will.gone ==> s' == PutSvc(s, x, GoneDown(s.svcs[x]))
    ensures will.gone && will.chain.NoChain? ==> Landed(s', x)
    ensures !will.gone || will.chain.NoChain? ==> StopsKept(s, s')
    ensures will.gone && NoHandover(s, x) && !Chains(will.failed, s.svcs[x], will.chain) ==> WentDown(s, s', x)
    ensures will.gone ==> Yielded(PutSvc(s, x, GoneDown(s.svcs[x])), freed, x, true)
    ensures will.gone && !Chains(will.failed, freed.svcs[x], will.chain) ==> WentDown(freed, s', x)
  {
    s' := GoDown(s, x, w);
    freed := s';
    ghost var s1 := s';
    if will.gone {
      ghost var mid;
      s', freed, mid := Stopped(s', x, will.failed, will.chain, w);
      RunTrans(s, s1, s');
      if will.chain.NoChain? {
        StopsKeptTrans(s, s1, s');
      }
      if NoHandover(s, x) {
        SameDown(s, s1, freed, x);
      }
    }
  }

  lemma SameDown(s: Sys, s1: Sys, freed: Sys, x: Sid)
    requires WF(s1) && x in s.svcs && NoHandover(s, x) && s1 == PutSvc(s, x, GoneDown(s.svcs[x]))
             && Yielded(s1, freed, x, true)
    ensures x in freed.svcs && WillRestart(freed.svcs[x]) == WillRestart(s.svcs[x])
  {
    SameNobody(s, s1, x);
    if s1.svcs[x].haveConsole {
      GaveConsole(s1, x);
      assert SameButConsole(s1.svcs[x], freed.svcs[x]);
    }
  }

  method GoDown(s: Sys, x: Sid, ghost w: Slack) returns (s': Sys)
    requires Inv(s, w) && x in s.svcs && s.svcs[x].state == STOPPING
    ensures Inv(s', w) && Calm(s, s') && s' == PutSvc(s, x, GoneDown(s.svcs[x]))
  {
    var v := GoneDown(s.svcs[x]);
    SetService(s, x, v, w);
    s' := PutSvc(s, x, v);
    forall y | y in s.svcs ensures StaysUp(s, s', y) { }
    UpKeepsStops(s, s');
  }

  lemma SameNobody(s: Sys, s1: Sys, x: Sid)
    requires x in s.svcs && NoHandover(s, x) && s1 == PutSvc(s, x, GoneDown(s.svcs[x]))
    ensures NoHandover(s1, x)
  {
    if s.svcs[x].haveConsole {
      forall z | z in s1.consoleQ ensures z in s1.svcs && !CanUse(s1, z) { assert !CanUse(s, z); }
    }
  }
}
