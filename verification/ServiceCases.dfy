/**
  Runs that the requests, events and queue steps of the service set lead to, from nothing, and where a property that one
  would expect does not hold.
 */
module ServiceCases {
  import opened QueueShape
  import opened ServiceModel
  import opened ServiceStops
  import opened ServiceStarts
  import opened ServiceRuns
  import opened ServicePropagation
  import opened ServiceLinks
  import opened ServiceRequests
  import Set = ServiceSet

  const LATER := Will(UnderWay, false, false, NoChain)

  /** Both queues are empty, and so is the line for the console. */
  ghost predicate Idle(s: Sys) {
    s.propQ.elems == [] && s.transQ.elems == [] && s.consoleQ == []
  }

  ghost predicate Alone(q: Shape<Sid>, x: Sid) {
    x in q.elems && forall y :: y in q.elems ==> y == x
  }

  lemma OnlyOne(q: Shape<Sid>, x: Sid)
    requires WellShaped(q) && Alone(q, x)
    ensures q.elems == [x] && Rest(q).elems == []
  {
    if |q.elems| > 1 {
      TwoDiffer(q.elems);
    }
  }

  lemma TwoDiffer(s: seq<Sid>)
    requires Distinct(s) && |s| > 1
    ensures s[0] in s && s[1] in s && s[0] != s[1]
  {
  }

  lemma NobodyQueued(q: Shape<Sid>)
    ensures q.elems == [] || exists z :: z in q.elems
  {
    if q.elems != [] {
      var z := q.elems[0];
      assert z in q.elems;
    }
  }

  lemma NobodyIn(q: seq<Sid>)
    ensures q == [] || exists z :: z in q
  {
    if q != [] {
      var z := q[0];
      assert z in q;
    }
  }

  /** Two services that were never started. */
  method Pair(x: Sid, y: Sid, onConsole: bool) returns (s: Sys)
    requires x != y
    ensures Inv(s, None()) && Idle(s) && s.deps == map[]
    ensures s.svcs == map[x := Set.NewService(false, onConsole, false), y := Set.NewService(false, false, false)]
    ensures s.dependsOn == map[x := [], y := []] && s.dependents == map[x := [], y := []]
            && s.doubled == map[x := 0, y := 0]
  {
    var v, u := Set.NewService(false, onConsole, false), Set.NewService(false, false, false);
    s := Set.Empty();
    NewServiceKeeps(s, x, v, None());
    s := WithService(s, x, v);
    NewServiceKeeps(s, y, u, None());
    s := WithService(s, y, u);
  }

  /** Propagate for the one service that is queued, which has dependencies to acquire but only orderings. */
  method Acquired(s: Sys, x: Sid) returns (s': Sys)
    requires Inv(s, None()) && x in s.svcs && Alone(s.propQ, x)
    requires s.svcs[x].prop == {PropRequire} && OnlyOrders(s, x)
    ensures Inv(s', None()) && s' == NoProp(s, x, PropRequire).(propQ := s'.propQ) && s'.propQ.elems == []
  {
    OnlyOne(s.propQ, x);
    ghost var s0 := s.(propQ := Rest(s.propQ));
    assert OnlyOrders(s0, x);
    s' := QueueStep(s, LATER, {});
  }

  /** Look at the one service that is queued, which waits for nothing. */
  method LookedAt(s: Sys, x: Sid) returns (s': Sys)
    requires Inv(s, None()) && x in s.svcs && s.propQ.elems == [] && Alone(s.transQ, x)
    requires s.svcs[x].state == STARTING && NoneWaited(s, x)
    ensures Inv(s', None()) && s'.propQ == s.propQ && s'.transQ.elems == []
    ensures var v := s.svcs[x].(waitingForDeps := false);
            if NeedsConsole(s.svcs[x])
            then s' == PutSvc(s, x, v.(waitingForConsole := true)).(consoleQ := s.consoleQ + [x], transQ := s'.transQ)
            else s' == PutSvc(s, x, v).(transQ := s'.transQ)
  {
    OnlyOne(s.transQ, x);
    ghost var s0 := s.(transQ := Rest(s.transQ));
    assert NoneWaited(s0, x);
    s' := QueueStep(s, LATER, {});
    LookedSo(s0, s', x);
  }

  lemma LookedSo(s: Sys, s': Sys, x: Sid)
    requires x in s.svcs && Raised(s, s', x, LATER.up)
    ensures var v := s.svcs[x].(waitingForDeps := false);
            if NeedsConsole(s.svcs[x])
            then s' == PutSvc(s, x, v.(waitingForConsole := true)).(consoleQ := s.consoleQ + [x])
            else s' == PutSvc(s, x, v)
  {
    PutTwice(s, x, s.svcs[x].(waitingForDeps := false),
             s.svcs[x].(waitingForDeps := false, waitingForConsole := true));
  }

  // ---------------------------------------------------------------- an acquisition counted twice

  /** A service that is pinned started and on its way up, with nothing left to do for it. */
  ghost predicate Launched(s: Sys, x: Sid) {
    && x in s.svcs && x in s.dependsOn && x in s.dependents && s.dependents[x] == []
    && var v := s.svcs[x];
       && v.state == STARTING && !v.waitingForDeps && v.pinnedStarted && !v.pinnedStopped && !v.deptPinned
       && !v.haveConsole
       && v.startExplicit && v.prop == {} && !v.startsOnConsole
  }

  /** Two services without links, of which the second was never started. */
  ghost predicate LinkFree(s: Sys, x: Sid, y: Sid) {
    && x != y && s.deps == map[] && s.svcs.Keys == {x, y} && s.svcs[y] == Set.NewService(false, false, false)
    && s.dependsOn == map[x := [], y := []] && s.dependents == map[x := [], y := []] && s.doubled == map[x := 0, y := 0]
  }

  /** Pin a service, and start it. */
  method PinAndStart(x: Sid, y: Sid) returns (s: Sys)
    requires x != y
    ensures Inv(s, None()) && LinkFree(s, x, y) && s.consoleQ == [] && Alone(s.propQ, x) && Alone(s.transQ, x)
    ensures s.svcs[x].prop == {PropRequire} && Launched(NoProp(LookedOver(s, x), x, PropRequire), x)
  {
    s := Pair(x, y, false);
    s := PinStart(s, x, None());
    s := Start(s, x, None());
    assert Pending(s, x, {}) && LinksOK(s, x) && Awake(s, x);
  }

  function LookedOver(s: Sys, x: Sid): Sys
    requires x in s.svcs
  {
    PutSvc(s, x, s.svcs[x].(waitingForDeps := false))
  }

  /** Its process is on the way up. */
  method Launch(x: Sid, y: Sid) returns (s: Sys)
    requires x != y
    ensures Inv(s, None()) && Idle(s) && Launched(s, x) && LinkFree(s, x, y)
  {
    s := PinAndStart(x, y);
    s := Acquired(s, x);
    s := LookedAt(s, x);
  }

  /** The only link is from `x` to `y`, and is held. */
  ghost predicate HoldsOne(s: Sys, x: Sid, y: Sid, d: Did) {
    && s.deps.Keys == {d} && s.deps[d].from == x && s.deps[d].to == y && s.deps[d].kind == WAITS_FOR
    && s.deps[d].holdingAcq
    && s.dependsOn == map[x := [d], y := []] && s.dependents == map[x := [], y := [d]]
    && s.doubled == map[x := 0, y := 0]
    && s.svcs.Keys == {x, y} && x != y
  }

  /** The service is given a dependency, which is started for it. */
  method Enable(s: Sys, x: Sid, y: Sid, d: Did) returns (s': Sys)
    requires Inv(s, None()) && Idle(s) && Launched(s, x) && LinkFree(s, x, y)
    ensures Inv(s', None()) && HoldsOne(s', x, y, d) && s'.svcs[x] == s.svcs[x]
    ensures s'.transQ == s.transQ && s'.consoleQ == s.consoleQ && (forall z :: z in s'.propQ.elems ==> z == y)
    ensures s'.svcs[y] == s.svcs[y].(requiredBy := 1, prop := {PropStart})
  {
    s' := AddDep(s, d, x, y, WAITS_FOR, None());
    assert [] + [d] == [d];
    s' := StartDep(s', d, None());
  }

  /** The dependency begins to start. */
  method BeginDependency(s: Sys, x: Sid, y: Sid, d: Did) returns (s': Sys)
    requires Inv(s, None()) && HoldsOne(s, x, y, d) && s.consoleQ == [] && s.transQ.elems == []
    requires forall z :: z in s.propQ.elems ==> z == y
    requires s.svcs[y] == Set.NewService(false, false, false).(requiredBy := 1, prop := {PropStart})
    ensures Inv(s', None()) && HoldsOne(s', x, y, d) && s'.svcs[x] == s.svcs[x] && s'.consoleQ == []
    ensures s'.svcs[y].prop == {PropRequire} && s'.svcs[y].state == STARTING && !NeedsConsole(s'.svcs[y])
    ensures Alone(s'.propQ, y) && Alone(s'.transQ, y)
  {
    assert Pending(s, y, {});
    OnlyOne(s.propQ, y);
    s' := QueueStep(s, LATER, {});
    assert FreshLink(NoProp(s.(propQ := Rest(s.propQ)), y, PropStart), s', y, d);
    assert Pending(s', y, {}) && LinksOK(s', y) && Awake(s', y);
  }

  /** The dependency is on its way up. */
  method RunDependency(s: Sys, x: Sid, y: Sid, d: Did) returns (s': Sys)
    requires Inv(s, None()) && HoldsOne(s, x, y, d) && s.consoleQ == [] && Alone(s.propQ, y) && Alone(s.transQ, y)
    requires s.svcs[y].prop == {PropRequire} && s.svcs[y].state == STARTING && !NeedsConsole(s.svcs[y])
    ensures Inv(s', None()) && HoldsOne(s', x, y, d) && s'.svcs[x] == s.svcs[x] && Idle(s')
    ensures s'.svcs[y].state == STARTING
  {
    s' := Acquired(s, y);
    s' := LookedAt(s', y);
  }

  /** A pinned service whose start fails keeps what it holds, and acquires it a second time when it starts again: from
      then on its dependency is required twice by one holder. */
  method CountedTwice(x: Sid, y: Sid, d: Did) returns (s: Sys)
    requires x != y
    ensures Inv(s, None()) && y in s.svcs && y in s.dependents && y in s.doubled && s.doubled[y] == 1
            && !Conserved(s, y)
  {
    s := Launch(x, y);
    s := Enable(s, x, y, d);
    s := BeginDependency(s, x, y, d);
    s := RunDependency(s, x, y, d);
    s := Fail(s, x, y, d);
    s := StartAgain(s, x, y, d);
    s := AcquireAgain(s, x, y, d);
  }

  /** The start fails, and nothing is left to do. */
  method Fail(s: Sys, x: Sid, y: Sid, d: Did) returns (s': Sys)
    requires Inv(s, None()) && HoldsOne(s, x, y, d) && Launched(s, x) && Idle(s) && s.svcs[y].state == STARTING
    ensures Inv(s', None()) && HoldsOne(s', x, y, d) && Idle(s')
    ensures s'.svcs[x].state == STOPPED && !s'.svcs[x].pinnedStopped && PropRelease !in s'.svcs[x].prop
  {
    ghost var failed, freed;
    s', failed, freed := FailedToStart(s, x, None());
    assert LinksOK(s', x) && Counted(s', x);
    NobodyQueued(s'.transQ);
    NobodyIn(s'.consoleQ);
  }

  /** It starts again. */
  method StartAgain(s: Sys, x: Sid, y: Sid, d: Did) returns (s': Sys)
    requires Inv(s, None()) && HoldsOne(s, x, y, d) && Idle(s)
    requires s.svcs[x].state == STOPPED && !s.svcs[x].pinnedStopped && PropRelease !in s.svcs[x].prop
    ensures Inv(s', None()) && HoldsOne(s', x, y, d) && PropRequire in s'.svcs[x].prop && Alone(s'.propQ, x)
  {
    s' := Start(s, x, None());
    assert FreshLink(s, s', x, d);
    assert Pending(s', x, {});
  }

  method AcquireAgain(s: Sys, x: Sid, y: Sid, d: Did) returns (s': Sys)
    requires Inv(s, None()) && HoldsOne(s, x, y, d) && PropRequire in s.svcs[x].prop && Alone(s.propQ, x)
    ensures Inv(s', None()) && y in s'.svcs && y in s'.dependents && y in s'.doubled && s'.doubled[y] == 1
            && !Conserved(s', y)
  {
    OnlyOne(s.propQ, x);
    s' := QueueStep(s, LATER, {});
    assert [d][..1] == [d] && [d][..0] == [];
    assert HeldTo(s.deps, d, y) && HeldAmong(s.deps, [], y) == 0;
    assert HeldAmong(s.deps, [d], y) == 1;
    ConservedUnlessDoubled(s', y, None());
  }

  // ---------------------------------------------------------------- a service left behind without the console

  /** A service that is starting, waits for nothing, and that nothing will look at again. */
  ghost predicate Stranded(s: Sys, x: Sid) {
    && x in s.svcs && Idle(s) && NoneWaited(s, x)
    && Going(s.svcs[x]) && !s.svcs[x].waitingForDeps && !s.svcs[x].waitingForConsole
  }

  /** A link from `x` to `y` that is an ordering, and no other. */
  ghost predicate OrderedPair(s: Sys, x: Sid, y: Sid, d: Did) {
    && s.deps.Keys == {d} && s.deps[d].from == x && s.deps[d].to == y && s.deps[d].kind == AFTER
    && s.dependsOn == map[x := [d], y := []] && s.dependents == map[x := [], y := [d]] && s.svcs.Keys == {x, y}
    && x != y
  }

  /** A service that may not start before another that is not starting yet begins to start. */
  method BeginFirst(x: Sid, y: Sid, d: Did) returns (s: Sys)
    requires x != y
    ensures Inv(s, None()) && OrderedPair(s, x, y, d) && s.consoleQ == [] && Alone(s.propQ, x) && Alone(s.transQ, x)
    ensures s.svcs[y] == Set.NewService(false, false, false) && !s.deps[d].waitingOn
    ensures s.svcs[x].prop == {PropRequire} && Going(s.svcs[x]) && NeedsConsole(s.svcs[x])
  {
    s := Pair(x, y, true);
    s := AddDep(s, d, x, y, AFTER, None());
    ghost var s1 := s;
    assert [] + [d] == [d];
    s := Start(s, x, None());
    assert FreshLink(s1, s, x, d);
    assert Pending(s, x, {}) && LinksOK(s, x) && Awake(s, x);
  }

  ghost predicate Going(v: Service) {
    v.state == STARTING && v.desired == STARTED && !v.haveConsole
  }

  /** It needs the console, and is in line for it. */
  method QueueUp(x: Sid, y: Sid, d: Did) returns (s: Sys)
    requires x != y
    ensures Inv(s, None()) && OrderedPair(s, x, y, d) && s.consoleQ == [x] && s.propQ.elems == []
            && s.transQ.elems == []
    ensures s.svcs[y] == Set.NewService(false, false, false) && Going(s.svcs[x]) && !s.svcs[x].waitingForDeps
  {
    s := BeginFirst(x, y, d);
    s := Acquired(s, x);
    s := LookedAt(s, x);
  }

  /** The other one begins to start, and is to be waited for. */
  method Overtake(s: Sys, x: Sid, y: Sid, d: Did) returns (s': Sys)
    requires Inv(s, None()) && OrderedPair(s, x, y, d) && s.propQ.elems == [] && s.transQ.elems == []
    requires s.svcs[y] == Set.NewService(false, false, false) && s.svcs[x].state == STARTING
    ensures Inv(s', None()) && OrderedPair(s', x, y, d) && s'.deps[d].waitingOn && s'.svcs[x] == s.svcs[x]
    ensures s'.propQ.elems == [] && s'.transQ.elems == [] && s'.consoleQ == s.consoleQ
    ensures Quiet(s'.svcs[y]) && !s'.svcs[y].waitingForDeps
  {
    s' := Start(s, y, None());
    ghost var s1 := s';
    assert FreshLink(s, s1, y, d);
    assert Pending(s1, y, {}) && LinksOK(s1, y) && Awake(s1, y);
    assert s1.svcs[y].prop == {PropRequire};
    s' := Acquired(s', y);
    s' := LookedAt(s', y);
  }

  /** The console is free, but a service in line that has to wait for another is passed over. */
  method MissTurn(s: Sys, x: Sid, y: Sid, d: Did) returns (s': Sys)
    requires Inv(s, None()) && OrderedPair(s, x, y, d) && s.deps[d].waitingOn && s.consoleQ == [x]
    ensures Inv(s', None()) && s' == Skipped(s, x).(consoleQ := [])
  {
    assert d in s.dependsOn[x] && !NoneWaited(s, x);
    assert [x][1..] == [] && PassedOver(s, [x]) == PassedOver(Skipped(s, x), []);
    s' := PullConsole(s, None());
  }

  /** A service in line for the console is passed over while it has to wait for another, and is not looked at when that
      has started: as far as that wake-up goes, it waits no longer. */
  method LeftBehindTheConsole(x: Sid, y: Sid, d: Did) returns (s: Sys)
    requires x != y
    ensures Inv(s, None()) && Stranded(s, x)
  {
    s := QueueUp(x, y, d);
    s := Overtake(s, x, y, d);
    s := MissTurn(s, x, y, d);
    s := Arrive(s, x, y, d);
  }

  /** The other one has started. */
  method Arrive(s: Sys, x: Sid, y: Sid, d: Did) returns (s': Sys)
    requires Inv(s, None()) && OrderedPair(s, x, y, d) && Idle(s) && Quiet(s.svcs[y]) && !s.svcs[y].waitingForDeps
    requires Going(s.svcs[x]) && !s.svcs[x].waitingForDeps && !s.svcs[x].waitingForConsole
    ensures Inv(s', None()) && Stranded(s', x)
  {
    ghost var freed;
    s', freed := Started(s, y, None());
    NobodyTold(s, s', y);
  }

  /** A service that comes up queues nobody if nobody waits. */
  lemma NobodyTold(s: Sys, s': Sys, y: Sid)
    requires UpQuietly(s, s', y) && s.transQ.elems == [] && forall z :: z in s.svcs ==> !s.svcs[z].waitingForDeps
    ensures s'.transQ.elems == []
  {
    forall z ensures z !in s'.transQ.elems { assert !WaitsFor(s, y, z); }
    NobodyQueued(s'.transQ);
  }

  // ---------------------------------------------------------------- a wake-up lost with a link

  /** `x` depends on `y`, which is started for its own sake, and there is no other link. */
  ghost predicate RegularPair(s: Sys, x: Sid, y: Sid, d: Did) {
    && s.deps.Keys == {d} && s.deps[d].from == x && s.deps[d].to == y && s.deps[d].kind == REGULAR
    && s.dependsOn == map[x := [d], y := []] && s.dependents == map[x := [], y := [d]] && s.svcs.Keys == {x, y}
    && x != y && s.svcs[y].startExplicit && s.svcs[y].state == STARTING
  }

  /** A service that another depends on begins to start. */
  method BeginOther(x: Sid, y: Sid, d: Did) returns (s: Sys)
    requires x != y
    ensures Inv(s, None()) && RegularPair(s, x, y, d) && s.consoleQ == [] && Alone(s.propQ, y) && Alone(s.transQ, y)
    ensures s.svcs[x] == Set.NewService(false, false, false)
    ensures s.svcs[y].prop == {PropRequire} && !NeedsConsole(s.svcs[y])
  {
    s := Pair(x, y, false);
    s := AddDep(s, d, x, y, REGULAR, None());
    ghost var s1 := s;
    assert [] + [d] == [d];
    s := Start(s, y, None());
    assert FreshLink(s1, s, y, d);
    assert Pending(s, y, {}) && LinksOK(s, y) && Awake(s, y);
  }

  /** It is on its way up. */
  method RunOther(x: Sid, y: Sid, d: Did) returns (s: Sys)
    requires x != y
    ensures Inv(s, None()) && RegularPair(s, x, y, d) && Idle(s) && s.svcs[x] == Set.NewService(false, false, false)
  {
    s := BeginOther(x, y, d);
    s := Acquired(s, y);
    assert RegularPair(s, x, y, d) && NoneWaited(s, y);
    s := LookedAt(s, y);
  }

  /** A service that waits for its only dependency, with nothing else to wake it. */
  ghost predicate WaitsForOne(s: Sys, x: Sid, y: Sid, d: Did) {
    && RegularPair(s, x, y, d) && s.deps[d].waitingOn && s.svcs[x].state == STARTING && s.svcs[x].waitingForDeps
    && s.svcs[x].startExplicit
  }

  /** Now the other one begins to start, and has to wait. */
  method BeginWaiting(s: Sys, x: Sid, y: Sid, d: Did) returns (s': Sys)
    requires Inv(s, None()) && RegularPair(s, x, y, d) && Idle(s) && s.svcs[x] == Set.NewService(false, false, false)
    ensures Inv(s', None()) && WaitsForOne(s', x, y, d) && s'.consoleQ == [] && s'.transQ.elems == []
    ensures Alone(s'.propQ, x) && s'.svcs[x].prop == {PropRequire}
  {
    s' := Start(s, x, None());
    assert FreshLink(s, s', x, d);
    NobodyQueued(s'.transQ);
    assert Pending(s', x, {});
  }

  /** It acquires its dependency. */
  method TakeHold(s: Sys, x: Sid, y: Sid, d: Did) returns (s': Sys)
    requires Inv(s, None()) && WaitsForOne(s, x, y, d) && s.consoleQ == [] && s.transQ.elems == []
    requires Alone(s.propQ, x) && s.svcs[x].prop == {PropRequire}
    ensures Inv(s', None()) && WaitsForOne(s', x, y, d) && Idle(s') && s'.deps[d].holdingAcq
  {
    OnlyOne(s.propQ, x);
    BothWanted(s, x, y, d);
    s' := QueueStep(s, LATER, {});
    ghost var s0 := s.(propQ := Rest(s.propQ));
    assert s0.svcs == s.svcs && NoLinkTo(s0, x, x);
    TakenHold(s0, s', x, y, d);
  }

  lemma BothWanted(s: Sys, x: Sid, y: Sid, d: Did)
    requires Inv(s, None()) && WaitsForOne(s, x, y, d)
    ensures s.svcs[x].requiredBy > 0 && s.svcs[y].requiredBy > 0
  {
    assert LinksOK(s, x) && LinksOK(s, y) && Counted(s, x) && Counted(s, y);
  }

  lemma TakenHold(s: Sys, s': Sys, x: Sid, y: Sid, d: Did)
    requires WaitsForOne(s, x, y, d) && Idle(s) && TookHold(s, s', x) && SameGraph(s, s')
    requires s.svcs[x].requiredBy > 0 && s.svcs[y].requiredBy > 0
    ensures WaitsForOne(s', x, y, d) && Idle(s') && s'.deps[d].holdingAcq
  {
    var s0 := NoProp(s, x, PropRequire);
    assert AllHeld(s', d);
    assert MoreWanted(s0.svcs[x], s'.svcs[x]) && MoreWanted(s0.svcs[y], s'.svcs[y]);
    NobodyQueued(s'.propQ);
  }

  /** Removing the only dependency that a service waits for leaves it waiting for nothing, and nothing to wake it. */
  method WakeUpLost(x: Sid, y: Sid, d: Did) returns (before: Sys, s: Sys)
    requires x != y
    ensures Inv(before, None()) && Idle(before) && d in before.deps && before.deps[d].kind == REGULAR
    ensures x in s.svcs && x in s.dependsOn && s.svcs[x].state == STARTING && s.svcs[x].waitingForDeps
    ensures !Awake(s, x) && !Inv(s, None())
  {
    before := RunOther(x, y, d);
    before := BeginWaiting(before, x, y, d);
    before := TakeHold(before, x, y, d);
    s := Forsake(before, x, y, d);
  }

  method Forsake(s: Sys, x: Sid, y: Sid, d: Did) returns (s': Sys)
    requires Inv(s, None()) && WaitsForOne(s, x, y, d) && Idle(s) && s.deps[d].holdingAcq
    ensures x in s'.svcs && x in s'.dependsOn && s'.svcs[x].state == STARTING && s'.svcs[x].waitingForDeps
    ensures !Awake(s', x) && !Inv(s', None())
  {
    assert LinksOK(s, y) && Counted(s, y);
    assert Held(s.deps, [d]) == 1;
    assert !WakesAnyway(s, d) && !StopsTarget(s, d);
    UnlinkWakes(s, d);
    s' := RmDep(s, d, None());
  }
}
