/** Runs that end with a service that is stopping and that nothing will ever bring down. */
module ServiceStopCases {
  import opened QueueShape
  import opened ServiceModel
  import opened ServiceStops
  import opened ServiceStarts
  import opened ServiceRuns
  import opened ServicePropagation
  import opened ServiceLinks
  import opened ServiceRequests
  import opened ServiceCases
  import Set = ServiceSet

  const NOW := Will(AtOnce, false, false, NoChain)

  function Fresh(): Service { Set.NewService(false, false, false) }

  /** A service that was started by a request, and nothing else. */
  function Up(): Service {
    Fresh().(state := STARTED, desired := STARTED, startExplicit := true, requiredBy := 1)
  }

  lemma OnlyThis(m: map<Sid, Service>, m': map<Sid, Service>, x: Sid, v: Service)
    requires x in m && m'.Keys == m.Keys && m'[x] == v && forall y :: y in m && y != x ==> m'[y] == m[y]
    ensures m' == m[x := v]
  {
  }

  /** No links, and nothing to do. */
  ghost predicate Unlinked0(s: Sys) {
    && Inv(s, None()) && Idle(s) && s.deps == map[] && s.dependsOn.Keys == s.svcs.Keys == s.dependents.Keys
    && (forall x :: x in s.svcs ==> s.dependsOn[x] == [] && s.dependents[x] == [])
  }

  /** A service is started on its own. */
  method BeginAlone(s: Sys, x: Sid) returns (s': Sys)
    requires Unlinked0(s) && x in s.svcs && s.svcs[x] == Fresh() && x in s.doubled && s.doubled[x] == 0
    ensures Inv(s', None()) && s'.deps == s.deps && s'.dependsOn == s.dependsOn && s'.dependents == s.dependents
    ensures s'.doubled == s.doubled && s'.consoleQ == [] && Alone(s'.propQ, x) && Alone(s'.transQ, x)
    ensures s'.svcs == s.svcs[x := Up().(state := STARTING, waitingForDeps := true, prop := {PropRequire})]
  {
    s' := Start(s, x, None());
    assert Pending(s', x, {}) && LinksOK(s', x) && Awake(s', x) && Counted(s', x);
    assert s'.svcs[x].prop == {PropRequire};
    OnlyThis(s.svcs, s'.svcs, x, Up().(state := STARTING, waitingForDeps := true, prop := {PropRequire}));
  }

  method UpAlone(s: Sys, x: Sid) returns (s': Sys)
    requires Unlinked0(s) && x in s.svcs && s.svcs[x] == Fresh() && x in s.doubled && s.doubled[x] == 0
    ensures Unlinked0(s') && s'.svcs == s.svcs[x := Up()] && s'.doubled == s.doubled
  {
    s' := BeginAlone(s, x);
    s' := Acquired(s', x);
    s' := Arrived(s', x);
    OnlyThis(s.svcs, s'.svcs, x, Up());
  }

  /** The service that is looked at is up at once. */
  method Arrived(s: Sys, x: Sid) returns (s': Sys)
    requires Inv(s, None()) && x in s.svcs && s.propQ.elems == [] && Alone(s.transQ, x) && s.deps == map[]
    requires s.svcs[x].state == STARTING && !NeedsConsole(s.svcs[x]) && Quiet(s.svcs[x])
    ensures Inv(s', None()) && s'.transQ.elems == []
    ensures s' == PutSvc(s, x, s.svcs[x].(waitingForDeps := false, state := STARTED)).(transQ := s'.transQ)
  {
    OnlyOne(s.transQ, x);
    ghost var s0 := s.(transQ := Rest(s.transQ));
    ghost var s1 := PutSvc(s0, x, s.svcs[x].(waitingForDeps := false));
    assert NoneWaited(s0, x);
    s' := QueueStep(s, NOW, {});
    NobodyQueued(s'.transQ);
    PutTwice(s0, x, s1.svcs[x], s1.svcs[x].(state := STARTED));
  }

  // ---------------------------------------------------------------- three services in a row

  /** `w` depends on `x`, which depends on `z`. */
  ghost predicate Row(s: Sys, w: Sid, x: Sid, z: Sid, d: Did, e: Did) {
    && w != x && x != z && w != z && d != e && s.svcs.Keys == {w, x, z} && s.deps.Keys == {d, e} && s.consoleQ == []
    && s.deps[d].from == w && s.deps[d].to == x && s.deps[d].kind == REGULAR
    && s.deps[e].from == x && s.deps[e].to == z && s.deps[e].kind == REGULAR
    && s.dependsOn == map[w := [d], x := [e], z := []] && s.dependents == map[w := [], x := [d], z := [e]]
  }

  method AddFresh(s: Sys, x: Sid) returns (s': Sys)
    requires Unlinked0(s) && x !in s.svcs
    ensures Unlinked0(s') && s' == WithService(s, x, Fresh())
  {
    NewServiceKeeps(s, x, Fresh(), None());
    s' := WithService(s, x, Fresh());
  }

  /** Three services that were never started. */
  method Trio(w: Sid, x: Sid, z: Sid) returns (s: Sys)
    requires w != x && x != z && w != z
    ensures Unlinked0(s) && s.svcs == map[w := Fresh(), x := Fresh(), z := Fresh()]
            && s.doubled == map[w := 0, x := 0, z := 0]
  {
    s := Set.Empty();
    s := AddFresh(s, w);
    s := AddFresh(s, x);
    s := AddFresh(s, z);
  }

  /** All of them are up. */
  method TrioUp(w: Sid, x: Sid, z: Sid) returns (s: Sys)
    requires w != x && x != z && w != z
    ensures Unlinked0(s) && s.svcs.Keys == {w, x, z} && s.svcs[w] == s.svcs[x] == s.svcs[z] == Up()
  {
    s := Trio(w, x, z);
    s := UpAlone(s, w);
    s := UpAlone(s, x);
    s := UpAlone(s, z);
  }

  /** A service that is up because one dependent holds it. */
  function ByOne(): Service { Up().(startExplicit := false) }

  /** Two services that are up are linked. */
  method LinkUp(s: Sys, from: Sid, to: Sid, d: Did) returns (s': Sys)
    requires Inv(s, None()) && from in s.svcs && to in s.svcs && from != to && d !in s.deps
    requires s.svcs[from].state == STARTED && s.svcs[to] == Up()
    ensures Inv(s', None()) && from in s.dependsOn && to in s.dependents
    ensures s' == PutSvc(WithLink(s, d, Dep(from, to, REGULAR, false, true)), to, ByOne())
  {
    s' := AddDep(s, d, from, to, REGULAR, None());
    ghost var s1 := s';
    s' := Stop(s', to, false, None());
    PutTwice(WithLink(s, d, s1.deps[d]), to, s1.svcs[to], ByOne());
  }

  /** The dependencies are added, and the services are left to them. */
  method Linked(w: Sid, x: Sid, z: Sid, d: Did, e: Did) returns (s: Sys)
    requires w != x && x != z && w != z && d != e
    ensures Inv(s, None()) && Idle(s) && Row(s, w, x, z, d, e)
    ensures s.svcs[w] == Up() && s.svcs[x] == ByOne() && s.svcs[z] == ByOne()
    ensures s.deps[d].holdingAcq && s.deps[e].holdingAcq && !s.deps[d].waitingOn && !s.deps[e].waitingOn
  {
    s := TrioUp(w, x, z);
    ghost var s0 := s;
    s := LinkUp(s, w, x, d);
    ghost var s1 := s;
    s := LinkUp(s, x, z, e);
    InRow(s0, s1, s, w, x, z, d, e);
  }

  lemma InRow(s0: Sys, s1: Sys, s: Sys, w: Sid, x: Sid, z: Sid, d: Did, e: Did)
    requires w != x && x != z && w != z && d != e && Unlinked0(s0) && s0.svcs.Keys == {w, x, z}
    requires s0.svcs[w] == s0.svcs[x] == s0.svcs[z] == Up()
    requires w in s0.dependsOn && x in s0.dependents && x in s1.dependsOn && z in s1.dependents
    requires s1 == PutSvc(WithLink(s0, d, Dep(w, x, REGULAR, false, true)), x, ByOne())
    requires s == PutSvc(WithLink(s1, e, Dep(x, z, REGULAR, false, true)), z, ByOne())
    ensures Idle(s) && Row(s, w, x, z, d, e) && s.svcs[w] == Up() && s.svcs[x] == ByOne() && s.svcs[z] == ByOne()
    ensures s.deps[d].holdingAcq && s.deps[e].holdingAcq && !s.deps[d].waitingOn && !s.deps[e].waitingOn
  {
    var none := map[w := [], x := [], z := []];
    assert s0.dependsOn == none && s0.dependents == none;
    LinkedTwice(none, none, w, x, z, d, e);
    assert s.dependsOn == none[w := none[w] + [d]][x := none[w := none[w] + [d]][x] + [e]];
    assert s.dependents == none[x := none[x] + [d]][z := none[x := none[x] + [d]][z] + [e]];
  }

  lemma LinkedTwice(below: map<Sid, seq<Did>>, above: map<Sid, seq<Did>>, w: Sid, x: Sid, z: Sid, d: Did, e: Did)
    requires w != x && x != z && w != z && below == map[w := [], x := [], z := []] == above
    ensures below[w := below[w] + [d]][x := below[w := below[w] + [d]][x] + [e]] == map[w := [d], x := [e], z := []]
    ensures above[x := above[x] + [d]][z := above[x := above[x] + [d]][z] + [e]] == map[w := [], x := [d], z := [e]]
  {
    assert [] + [d] == [d] && [] + [e] == [e];
  }

  /** A service that is to stop, with these left to propagate. */
  function Leaving(wait: bool, prop: set<Prop>): Service {
    Up().(state := STOPPING, desired := STOPPED, startExplicit := false, requiredBy := 0, waitingForDeps := wait,
          prop := prop)
  }

  /** The first is released, and is to stop. */
  method ReleaseFirst(s: Sys, w: Sid, x: Sid, z: Sid, d: Did, e: Did) returns (s': Sys)
    requires Inv(s, None()) && Idle(s) && Row(s, w, x, z, d, e) && s.svcs[w] == Up()
    ensures Inv(s', None()) && Row(s', w, x, z, d, e) && s'.deps == s.deps
    ensures s'.svcs[w] == Leaving(false, {PropRelease}) && s'.svcs[x] == s.svcs[x] && s'.svcs[z] == s.svcs[z]
    ensures Alone(s'.propQ, w) && Alone(s'.transQ, w)
  {
    ghost var t := PutSvc(s, w, StopAsked(Up(), false));
    assert forall a :: a in s.deps ==> s.deps[a].to != w;
    assert StopsQuietly(t, w);
    s' := Stop(s, w, false, None());
    assert Pending(s', w, {});
    assert {} + {PropRelease} == {PropRelease};
  }

  /** A service gives up the last acquisition of its only dependency, which is to stop as well, and waits. */
  method ReleaseNext(s: Sys, x: Sid, y: Sid, a: Did) returns (s': Sys)
    requires Inv(s, None()) && x in s.svcs && y in s.svcs && x != y && Alone(s.propQ, x)
    requires x in s.dependsOn && s.dependsOn[x] == [a] && a in s.deps && s.deps[a].holdingAcq
             && s.deps[a].kind == REGULAR
    requires s.deps[a].from == x && s.deps[a].to == y && (forall b :: b in s.deps && s.deps[b].to == y ==> b == a)
    requires s.svcs[x].prop == {PropRelease} && s.svcs[x].state == STOPPING && s.svcs[x].desired == STOPPED
    requires s.svcs[y] == ByOne()
    ensures Inv(s', None()) && Alone(s'.propQ, y) && s'.svcs[y] == Leaving(true, {PropRelease})
    ensures s' ==
            PutSvc(PutSvc(LetGo(s, a), x, s.svcs[x].(prop := {})), y, s'.svcs[y]).(propQ := s'.propQ,
                                                                                   transQ := s'.transQ)
    ensures forall u :: u in s'.transQ.elems <==> u in s.transQ.elems
  {
    OnlyOne(s.propQ, x);
    ghost var s0 := s.(propQ := Rest(s.propQ));
    ghost var t := LessOneWanted(LetGo(s0, a), y);
    assert {} + {PropRelease} == {PropRelease};
    assert t.svcs[y] == ByOne().(requiredBy := 0, desired := STOPPED, prop := {PropRelease});
    assert Agrees(t, y, a) && StopsQuietly(t, y);
    assert QuietDrop(s0, a) && ReleasesFew(s0, x);
    s' := QueueStep(s, LATER, {});
    assert ReleasedOne(s0, s', x, a);
    ReleasedHere(s0, s', x, y, a);
    assert Pending(s', y, {});
  }

  lemma ReleasedHere(s: Sys, s': Sys, x: Sid, y: Sid, a: Did)
    requires x in s.svcs && y in s.svcs && x != y && a in s.deps && s.deps[a].to == y && s.deps[a].from == x
    requires x in s'.svcs && s'.svcs[x] == s.svcs[x].(prop := s.svcs[x].prop - {PropRelease})
    requires s.svcs[x].prop == {PropRelease} && s.svcs[x].state == STOPPING && s.svcs[y] == ByOne()
    requires DroppedQuietly(s, PutSvc(s', x, s.svcs[x]), a)
    ensures y in s'.svcs && s'.svcs[y] == Leaving(true, {PropRelease}) && MoreQueued(s, s', y)
    ensures s' ==
            PutSvc(PutSvc(LetGo(s, a), x, s.svcs[x].(prop := {})), y, s'.svcs[y]).(propQ := s'.propQ,
                                                                                   transQ := s'.transQ)
    ensures forall u :: u in s'.transQ.elems <==> u in s.transQ.elems
  {
    var t := LessOneWanted(LetGo(s, a), y);
    assert {} + {PropRelease} == {PropRelease} && {PropRelease} - {PropRelease} == {};
    assert t.svcs[y] == ByOne().(requiredBy := 0, desired := STOPPED, prop := {PropRelease});
    assert a in t.deps && t.deps[a].to == y && t.deps[a].from == x && !FundamentallyStopped(t.svcs[x]);
    assert !AllDown(t, y);
    assert Stopping(Settle(t.svcs[y]), true, false) == Leaving(true, {PropRelease});
    SwapPuts(s, s', x, y, a);
  }

  lemma SwapPuts(s: Sys, s': Sys, x: Sid, y: Sid, a: Did)
    requires x in s.svcs && y in s.svcs && x != y && a in s.deps && x in s'.svcs
    requires s'.svcs[x := s.svcs[x]] == s.svcs[y := Leaving(true, {PropRelease})]
    requires s'.svcs[x] == s.svcs[x].(prop := {})
             && s' == LetGo(s, a).(svcs := s'.svcs, propQ := s'.propQ, transQ := s'.transQ)
    ensures y in s'.svcs && s'.svcs[y] == Leaving(true, {PropRelease})
    ensures s' ==
            PutSvc(PutSvc(LetGo(s, a), x, s.svcs[x].(prop := {})), y, s'.svcs[y]).(propQ := s'.propQ,
                                                                                   transQ := s'.transQ)
  {
    assert s'.svcs[x := s.svcs[x]].Keys == s.svcs[y := Leaving(true, {PropRelease})].Keys;
    forall u | u in s'.svcs ensures u in s.svcs && (u != x && u != y ==> s'.svcs[u] == s.svcs[u]) {
      assert u in s'.svcs[x := s.svcs[x]];
      assert u != x ==> s'.svcs[x := s.svcs[x]][u] == s'.svcs[u];
    }
    forall u | u in s.svcs ensures u in s'.svcs { assert u in s.svcs[y := Leaving(true, {PropRelease})]; }
    assert s'.svcs[x := s.svcs[x]][y] == Leaving(true, {PropRelease});
    assert s'.svcs == s.svcs[x := s.svcs[x].(prop := {})][y := Leaving(true, {PropRelease})];
  }

  /** The last in the row has nothing to give up. */
  method ReleaseLast(s: Sys, z: Sid) returns (s': Sys)
    requires Inv(s, None()) && z in s.svcs && Alone(s.propQ, z) && z in s.dependsOn && s.dependsOn[z] == []
    requires s.svcs[z].prop == {PropRelease}
    ensures Inv(s', None()) && s'.propQ.elems == [] && s' == PutSvc(s, z, s.svcs[z].(prop := {})).(propQ := s'.propQ)
  {
    OnlyOne(s.propQ, z);
    ghost var s0 := s.(propQ := Rest(s.propQ));
    assert ReleasesFew(s0, z);
    s' := QueueStep(s, LATER, {});
    assert {PropRelease} - {PropRelease} == {};
    assert ReleasedFew(s0, s', z);
  }

  /** A service that nothing depends on is brought down; its process takes its time. */
  method GoFirst(s: Sys, w: Sid) returns (s': Sys)
    requires Inv(s, None()) && w in s.svcs && s.propQ.elems == [] && Alone(s.transQ, w)
    requires s.svcs[w].state == STOPPING && forall a :: a in s.deps ==> s.deps[a].to != w
    ensures Inv(s', None()) && s'.propQ == s.propQ && s'.transQ.elems == []
    ensures s' == PutSvc(s, w, GoneDown(s.svcs[w])).(transQ := s'.transQ)
  {
    OnlyOne(s.transQ, w);
    ghost var s0 := s.(transQ := Rest(s.transQ));
    assert NoneStillUp(s0, w);
    s' := QueueStep(s, LATER, {});
  }

  /** The first is on its way down, and the others wait for the one before to stop. */
  ghost predicate Winding(s: Sys, w: Sid, x: Sid, z: Sid, d: Did, e: Did) {
    && Inv(s, None()) && Idle(s) && Row(s, w, x, z, d, e)
    && s.svcs[w] == OnWayDown(Leaving(false, {})) && s.svcs[x] == Leaving(true, {}) && s.svcs[z] == Leaving(true, {})
    && !s.deps[d].holdingAcq && !s.deps[e].holdingAcq && !s.deps[d].waitingOn && !s.deps[e].waitingOn
  }

  method WindDown(w: Sid, x: Sid, z: Sid, d: Did, e: Did) returns (s: Sys)
    requires w != x && x != z && w != z && d != e
    ensures Winding(s, w, x, z, d, e)
  {
    s := Linked(w, x, z, d, e);
    s := ReleaseFirst(s, w, x, z, d, e);
    s := ReleaseNext(s, w, x, d);
    s := ReleaseNext(s, x, z, e);
    s := ReleaseLast(s, z);
    OneQueued(s.transQ, w);
    s := GoFirst(s, w);
  }

  lemma OneQueued(q: Shape<Sid>, w: Sid)
    requires forall u :: u in q.elems <==> u == w
    ensures Alone(q, w)
  {
    assert w in q.elems;
  }

  /** The second is started again before the first has stopped. The third is stopping, nothing requires it, and nothing
      will ever bring it down; the second waits for it, and does not hold it. */
  method Crossed(w: Sid, x: Sid, z: Sid, d: Did, e: Did) returns (s: Sys)
    requires w != x && x != z && w != z && d != e
    ensures Inv(s, None()) && Idle(s) && Row(s, w, x, z, d, e) && s.svcs[w].state == STOPPED
    ensures s.svcs[z] == Leaving(true, {}) && !StopAwake(s, z)
    ensures s.svcs[x].state == STARTING && s.svcs[x].waitingForDeps && s.svcs[x].prop == {}
    ensures s.deps[e].waitingOn && !s.deps[e].holdingAcq && !WillHold(s, x)
  {
    s := WindDown(w, x, z, d, e);
    ghost var s0 := s;
    s := Start(s, x, None());
    assert TurnedLink(s0, s, x, d) && TurnedLink(s0, s, x, e);
    NobodyQueued(s.transQ);
    s := StopAtLast(s, w, x, z, d, e);
  }

  /** The first has stopped. */
  method StopAtLast(s: Sys, w: Sid, x: Sid, z: Sid, d: Did, e: Did) returns (s': Sys)
    requires Inv(s, None()) && Idle(s) && Row(s, w, x, z, d, e) && s.svcs[w] == OnWayDown(Leaving(false, {}))
    requires s.svcs[z] == Leaving(true, {}) && s.svcs[x].state == STARTING && s.svcs[x].waitingForDeps
    ensures Inv(s', None()) && Idle(s') && Row(s', w, x, z, d, e) && s'.svcs[w].state == STOPPED && s'.deps == s.deps
    ensures s'.svcs[z] == s.svcs[z] && s'.svcs[x] == s.svcs[x] && !StopAwake(s', z)
  {
    assert AllDetached(s, w);
    ghost var freed, mid;
    s', freed, mid := Stopped(s, w, false, NoChain, None());
    NobodyQueued(s'.transQ);
    assert forall a :: a in s'.deps && s'.deps[a].to == z ==> a == e;
  }

  /** The link from the first to the second is removed before the first has stopped: nothing will bring the second
      down. */
  method CutOff(w: Sid, x: Sid, z: Sid, d: Did, e: Did) returns (before: Sys, s: Sys)
    requires w != x && x != z && w != z && d != e
    ensures Winding(before, w, x, z, d, e) && Inv(s, None()) && Idle(s)
    ensures StopAwake(before, x) && s.svcs == before.svcs && s.deps.Keys == {e} && !StopAwake(s, x)
  {
    before := WindDown(w, x, z, d, e);
    assert UpAbove(before, x) && IsUp(before, w) by { assert before.deps[d].to == x; }
    assert !UpOtherwise(before, d, x);
    s := RmDep(before, d, None());
    assert forall a :: a in s.deps ==> s.deps[a].to != x;
  }

  // ---------------------------------------------------------------- a service that one that is down still holds

  /** `y` depends on `x`, and holds it. */
  ghost predicate HoldsStrictly(s: Sys, y: Sid, x: Sid, d: Did) {
    && y != x && s.svcs.Keys == {x, y} && s.deps.Keys == {d} && s.consoleQ == []
    && s.deps[d] == Dep(y, x, REGULAR, false, true)
    && s.dependsOn == map[y := [d], x := []] && s.dependents == map[y := [], x := [d]]
  }

  /** A pinned service is on its way up, and is given a dependency that is up. */
  method PinnedAbove(y: Sid, x: Sid, d: Did) returns (s: Sys)
    requires y != x
    ensures Inv(s, None()) && Idle(s) && HoldsStrictly(s, y, x, d) && Launched(s, y)
    ensures s.svcs[x] == Up().(requiredBy := 2)
  {
    s := Launch(y, x);
    s := UpBeside(s, y, x);
    s := AddDep(s, d, y, x, REGULAR, None());
    assert [] + [d] == [d];
  }

  method UpBeside(s: Sys, y: Sid, x: Sid) returns (s': Sys)
    requires Inv(s, None()) && Idle(s) && LinkFree(s, y, x) && Launched(s, y)
    ensures Inv(s', None()) && Idle(s') && s'.deps == map[] && s'.svcs == s.svcs[x := Up()]
    ensures s'.dependsOn == s.dependsOn && s'.dependents == s.dependents
  {
    s' := UpAlone(s, x);
  }

  /** Its start fails; because of the pin it does not let go of the dependency. */
  method FailPinnedAbove(s: Sys, y: Sid, x: Sid, d: Did) returns (s': Sys)
    requires Inv(s, None()) && Idle(s) && HoldsStrictly(s, y, x, d) && Launched(s, y) && s.svcs[x].state == STARTED
    ensures Inv(s', None()) && Idle(s') && HoldsStrictly(s', y, x, d) && s'.svcs[x] == s.svcs[x]
    ensures s'.svcs[y].state == STOPPED && s'.svcs[y].desired == STOPPED
  {
    ghost var failed, freed;
    s', failed, freed := FailedToStart(s, y, None());
    NobodyQueued(s'.transQ);
    NobodyIn(s'.consoleQ);
  }

  /** The dependency is stopped by force. */
  method StopBelow(s: Sys, y: Sid, x: Sid, d: Did) returns (s': Sys)
    requires Inv(s, None()) && Idle(s) && HoldsStrictly(s, y, x, d) && s.svcs[x] == Up().(requiredBy := 2)
    requires s.svcs[y].state == STOPPED && s.svcs[y].desired == STOPPED
    ensures Inv(s', None()) && HoldsStrictly(s', y, x, d) && s'.svcs[y] == s.svcs[y]
    ensures s'.svcs[x] == Leaving(false, {PropStop}).(requiredBy := 1, forceStop := true)
    ensures Alone(s'.propQ, x) && Alone(s'.transQ, x)
  {
    ghost var t := PutSvc(s, x, StopAsked(s.svcs[x], true));
    assert Agrees(t, x, d) && StopsQuietly(t, x) && AllDown(t, x);
    s' := Stop(s, x, true, None());
    assert {} + {PropStop} == {PropStop};
    s' := ForcedStop(s', x, None());
    assert Pending(s', x, {});
  }

  /** The stop is propagated, to nobody. */
  method StopBelowTold(s: Sys, y: Sid, x: Sid, d: Did) returns (s': Sys)
    requires Inv(s, None()) && HoldsStrictly(s, y, x, d) && Alone(s.propQ, x) && Alone(s.transQ, x)
    requires s.svcs[y].state == STOPPED && s.svcs[y].desired == STOPPED
    requires s.svcs[x] == Leaving(false, {PropStop}).(requiredBy := 1, forceStop := true)
    ensures Inv(s', None()) && HoldsStrictly(s', y, x, d) && s'.svcs[y] == s.svcs[y] && s'.propQ.elems == []
    ensures s'.svcs[x] == s.svcs[x].(prop := {}) && Alone(s'.transQ, x)
  {
    OnlyOne(s.propQ, x);
    ghost var s0 := s.(propQ := Rest(s.propQ));
    ghost var t := NoProp(s0, x, PropStop);
    assert {PropStop} - {PropStop} == {};
    assert Agrees(t, x, d) && StopsQuietly(t, x);
    s' := QueueStep(s, LATER, {});
  }

  /** A pinned service whose start fails keeps what it holds. When its dependency is stopped, that is looked at once and
      never again: it is stopping for good. */
  method HeldForGood(y: Sid, x: Sid, d: Did) returns (s: Sys)
    requires y != x
    ensures Inv(s, None()) && Idle(s) && HoldsStrictly(s, y, x, d) && s.svcs[y].state == STOPPED
    ensures ToBringDown(s.svcs[x]) && !s.svcs[x].waitingForDeps && !StopAwake(s, x)
  {
    s := PinnedAbove(y, x, d);
    s := FailPinnedAbove(s, y, x, d);
    s := StopBelow(s, y, x, d);
    s := StopBelowTold(s, y, x, d);
    OnlyOne(s.transQ, x);
    assert StillUp(s.(transQ := Rest(s.transQ)), d);
    s := QueueStep(s, LATER, {});
  }
}
