/**
  Transitions: what happens once a service has started or stopped, and the console that services queue for.
 */
module ServiceRuns {
  import opened QueueShape
  import opened ServiceModel
  import opened ServiceStops
  import opened ServiceStarts

  ghost predicate NoneWaited(s: Sys, x: Sid) {
    forall d :: d in s.deps && s.deps[d].from == x ==> !s.deps[d].waitingOn
  }

  ghost predicate Clear(s: Sys, d: Did) {
    d in s.deps && !s.deps[d].waitingOn
  }

  method CheckDepsStarted(s: Sys, x: Sid) returns (all: bool)
    requires WF(s) && x in s.svcs
    ensures all <==> NoneWaited(s, x)
    ensures !all ==> x in s.dependsOn && SomeWaiting(s.deps, s.dependsOn[x])
  {
    assert LinksOK(s, x);
    all := true;
    var ds := s.dependsOn[x];
    for i := 0 to |ds|
      invariant all && forall j :: 0 <= j < i ==> Clear(s, ds[j])
    {
      OwnLink(s, x, ds[i]);
      if s.deps[ds[i]].waitingOn {
        return false;
      }
    }
    forall d | d in s.deps && s.deps[d].from == x ensures !s.deps[d].waitingOn {
      assert DepOK(s, d);
      var j :| 0 <= j < |ds| && ds[j] == d;
      assert Clear(s, ds[j]);
    }
  }

  // ---------------------------------------------------------------- stopped

  method DependentStopped(s: Sys, x: Sid, ghost w: Slack) returns (s': Sys)
    requires Inv(s, w) && x in s.svcs
    ensures Inv(s', w) && Down(s, s') && s' == s.(transQ := s'.transQ)
    ensures s.svcs[x].state == STOPPING && s.svcs[x].waitingForDeps ==> x in s'.transQ.elems
    ensures forall y :: y in s'.transQ.elems ==>
              y in s.transQ.elems || (y == x && s.svcs[x].state == STOPPING && s.svcs[x].waitingForDeps)
  {
    s' := s;
    if s.svcs[x].state == STOPPING && s.svcs[x].waitingForDeps {
      s' := AddTransitionQueue(s, x, w);
    }
  }

  ghost predicate Broken(s: Sys, d: Did) {
    d in s.deps && (s.deps[d].kind == REGULAR || s.deps[d].kind == MILESTONE
                    || (!s.deps[d].waitingOn && !s.deps[d].holdingAcq))
  }

  method BreakSoftDependents(s: Sys, x: Sid, ghost w: Slack) returns (s': Sys)
    requires Inv(s, w) && x in s.svcs
    ensures Inv(s', w) && Down(s, s')
    ensures forall d :: d in s.deps && s.deps[d].to == x ==> Broken(s', d)
    ensures AllDetached(s, x) ==> s' == s
  {
    s' := s;
    assert LinksOK(s, x);
    var ds := s.dependents[x];
    for i := 0 to |ds|
      invariant Inv(s', w) && Down(s, s')
      invariant forall j :: 0 <= j < i ==> Broken(s', ds[j])
      invariant AllDetached(s, x) ==> s' == s
    {
      ghost var s1 := s';
      TheirLink(s, x, ds[i]);
      assert AllDetached(s, x) ==> Detached(s, ds[i]);
      assert DepOK(s1, ds[i]);
      if !s'.deps[ds[i]].IsHard() {
        s' := BreakSoft(s', ds[i], w);
        DownTrans(s, s1, s');
      }
      forall j | 0 <= j < i + 1 ensures Broken(s', ds[j]) { assert j < i ==> Broken(s1, ds[j]); }
    }
    forall d | d in s.deps && s.deps[d].to == x ensures Broken(s', d) {
      assert DepOK(s, d);
      var j :| 0 <= j < |ds| && ds[j] == d;
      assert Broken(s', ds[j]);
    }
  }

  /** A dependency that waits for its dependents to stop is going to look at them again. */
  ghost predicate Notified(s: Sys, d: Did) {
    && d in s.deps && s.deps[d].to in s.svcs
    && (s.svcs[s.deps[d].to].state == STOPPING && s.svcs[s.deps[d].to].waitingForDeps ==>
          s.deps[d].to in s.transQ.elems)
  }

  ghost predicate AllNotified(s: Sys, x: Sid) {
    forall d :: d in s.deps && s.deps[d].from == x ==> Notified(s, d)
  }

  /** A dependency of `x` that is stopping. */
  ghost predicate ToldBy(s: Sys, x: Sid, y: Sid) {
    && y in s.svcs && s.svcs[y].state == STOPPING && s.svcs[y].waitingForDeps
    && exists d :: d in s.deps && s.deps[d].from == x && s.deps[d].to == y
  }

  method NotifyDependencies(s: Sys, x: Sid, ghost w: Slack) returns (s': Sys)
    requires Inv(s, w) && x in s.svcs
    ensures Inv(s', w) && Down(s, s') && s' == s.(transQ := s'.transQ) && AllNotified(s', x)
    ensures forall y :: y in s'.transQ.elems ==> y in s.transQ.elems || ToldBy(s, x, y)
  {
    s' := s;
    assert LinksOK(s, x);
    var ds := s.dependsOn[x];
    for i := 0 to |ds|
      invariant Inv(s', w) && Down(s, s') && s' == s.(transQ := s'.transQ)
      invariant forall j :: 0 <= j < i ==> Notified(s', ds[j])
      invariant forall y :: y in s'.transQ.elems ==> y in s.transQ.elems || ToldBy(s, x, y)
    {
      ghost var s1 := s';
      assert ds[i] in s.dependsOn[x];
      assert DepOK(s, ds[i]);
      s' := DependentStopped(s', s.deps[ds[i]].to, w);
      DownTrans(s, s1, s');
      forall j | 0 <= j < i + 1 ensures Notified(s', ds[j]) { assert j < i ==> Notified(s1, ds[j]); }
    }
    forall d | d in s.deps && s.deps[d].from == x ensures Notified(s', d) {
      assert DepOK(s, d);
      var j :| 0 <= j < |ds| && ds[j] == d;
      assert Notified(s', ds[j]);
    }
  }

  /** A service is up, or down. */
  method SetState(s: Sys, x: Sid, state: State, ghost w: Slack) returns (s': Sys)
    requires Inv(s, w) && x in s.svcs && (state == STARTED || state == STOPPED)
    ensures Inv(s', w) && Step(s, s') && Tame(s, s') && s' == PutSvc(s, x, s.svcs[x].(state := state))
    ensures NoneBegun(s, s') && (state == STARTED ==> Calm(s, s'))
  {
    OneBegins(s, x, s.svcs[x].(state := state));
    SetService(s, x, s.svcs[x].(state := state), w);
    s' := PutSvc(s, x, s.svcs[x].(state := state));
    if state == STARTED {
      forall y | y in s.svcs ensures StaysUp(s, s', y) { }
      UpKeepsStops(s, s');
    }
  }

  /** Its process, if there is one, is on the way down. */
  function OnWayDown(v: Service): Service {
    v.(state := STOPPING, broughtDown := true)
  }

  /** ... and it waits for nobody. */
  function GoneDown(v: Service): Service {
    OnWayDown(v).(waitingForDeps := false)
  }

  /** The service is stopping: its process has been told, or has gone. */
  method Interrupt(s: Sys, x: Sid, ghost w: Slack) returns (s': Sys)
    requires Inv(s, w) && x in s.svcs
    ensures Inv(s', w) && Calm(s, s') && s' == PutSvc(s, x, OnWayDown(s.svcs[x])) && NoneBegun(s, s')
  {
    OneBegins(s, x, OnWayDown(s.svcs[x]));
    SetService(s, x, OnWayDown(s.svcs[x]), w);
    s' := PutSvc(s, x, OnWayDown(s.svcs[x]));
    forall y | y in s.svcs ensures StaysUp(s, s', y) { }
    UpKeepsStops(s, s');
  }

  method SetFlags(s: Sys, x: Sid, v: Service, ghost w: Slack) returns (s': Sys)
    requires Inv(s, w) && x in s.svcs
    requires var u := s.svcs[x];
             v == u.(forceStop := v.forceStop, haveConsole := v.haveConsole, waitingForConsole := v.waitingForConsole,
                     pinnedStarted := v.pinnedStarted, pinnedStopped := v.pinnedStopped, deptPinned := v.deptPinned)
    ensures Inv(s', w) && Calm(s, s') && s' == PutSvc(s, x, v)
    ensures (v.haveConsole ==> s.svcs[x].haveConsole) && (v.waitingForConsole ==> s.svcs[x].waitingForConsole) ==>
              NoneBegun(s, s')
  {
    if (v.haveConsole ==> s.svcs[x].haveConsole) && (v.waitingForConsole ==> s.svcs[x].waitingForConsole) {
      OneBegins(s, x, v);
    }
    SetService(s, x, v, w);
    s' := PutSvc(s, x, v);
    SameStateCalm(s, s', x, v);
  }

  predicate WillRestart(v: Service) {
    v.desired == STARTED && !v.pinnedStopped
  }

  /** How a service comes down: it starts again if it is to, and otherwise lets go of everything. */
  ghost predicate WentDown(s: Sys, s': Sys, x: Sid) {
    x in s.svcs && Landed(s', x) && (WillRestart(s.svcs[x]) <==> s'.svcs[x].state == STARTING)
  }

  /** STARTING again, or STOPPED with nothing left that requires it softly; the dependencies know either way. */
  ghost predicate Landed(s: Sys, x: Sid) {
    && x in s.svcs && AllNotified(s, x)
    && if s.svcs[x].state == STARTING then s.svcs[x].waitingForDeps
       else
         s.svcs[x].state == STOPPED && !s.svcs[x].startExplicit
         && forall d :: d in s.deps && s.deps[d].to == x ==> Broken(s, d)
  }

  /** Nobody is there to let go of, and nothing else changes. */
  ghost predicate DownQuietly(s: Sys, s': Sys, x: Sid) {
    && x in s.svcs && s'.svcs == s.svcs[x := s.svcs[x].(state := STOPPED, forceStop := false)]
    && s' == s.(svcs := s'.svcs, transQ := s'.transQ)
    && forall y :: y in s'.transQ.elems ==> y in s.transQ.elems || ToldBy(s, x, y)
  }

  /** The service is down (and has given back the console). */
  method BecomeStopped(s: Sys, x: Sid, ghost w: Slack) returns (s': Sys)
    requires Inv(s, w) && x in s.svcs
    ensures Inv(s', w) && Calm(s, s') && WentDown(s, s', x)
    ensures !WillRestart(s.svcs[x]) ==> NoneBegun(s, s')
    ensures !WillRestart(s.svcs[x]) && !s.svcs[x].startExplicit && AllDetached(s, x) ==> DownQuietly(s, s', x)
  {
    if WillRestart(s.svcs[x]) {
      s' := DownAndUp(s, x, w);
    } else {
      s' := DownForGood(s, x, w);
    }
  }

  ghost predicate AllDetached(s: Sys, x: Sid) {
    forall d :: d in s.deps && s.deps[d].to == x ==> Detached(s, d)
  }

  method DownAndUp(s: Sys, x: Sid, ghost w: Slack) returns (s': Sys)
    requires Inv(s, w) && x in s.svcs
    ensures Inv(s', w) && Calm(s, s') && Landed(s', x) && s'.svcs[x].state == STARTING
  {
    s' := SetFlags(s, x, s.svcs[x].(forceStop := false), w);
    ghost var s1 := s';
    s' := LeaveUp(s', x, true, w);
    CalmTrans(s, s1, s');
    ghost var s2 := s';
    s' := StartOver(s', x, w);
    CalmTrans(s, s2, s');
  }

  method DownForGood(s: Sys, x: Sid, ghost w: Slack) returns (s': Sys)
    requires Inv(s, w) && x in s.svcs
    ensures Inv(s', w) && Calm(s, s') && Landed(s', x) && s'.svcs[x].state == STOPPED && NoneBegun(s, s')
    ensures !s.svcs[x].startExplicit && AllDetached(s, x) ==> DownQuietly(s, s', x)
  {
    s' := SetFlags(s, x, s.svcs[x].(forceStop := false), w);
    ghost var s1 := s';
    StillDetached(s, s1, x);
    s' := LeaveUp(s', x, false, w);
    CalmTrans(s, s1, s');
    NoneBegunTrans(s, s1, s');
    QuietDown(s, s1, s', x);
  }

  lemma StillDetached(s: Sys, s1: Sys, x: Sid)
    requires x in s.svcs && s1 == PutSvc(s, x, s.svcs[x].(forceStop := false))
    ensures AllDetached(s, x) ==> AllDetached(s1, x)
  {
    if AllDetached(s, x) {
      forall d | d in s1.deps && s1.deps[d].to == x ensures Detached(s1, d) { assert Detached(s, d); }
    }
  }

  lemma QuietDown(s: Sys, s1: Sys, s': Sys, x: Sid)
    requires x in s.svcs && s1 == PutSvc(s, x, s.svcs[x].(forceStop := false))
    ensures && s' == PutSvc(s1, x, s1.svcs[x].(state := STOPPED)).(transQ := s'.transQ)
            && (forall y :: y in s'.transQ.elems ==> y in s1.transQ.elems || ToldBy(s1, x, y))
            ==> DownQuietly(s, s', x)
  {
    PutTwice(s, x, s1.svcs[x], s1.svcs[x].(state := STOPPED));
    assert forall y :: ToldBy(s1, x, y) ==> ToldBy(s, x, y);
  }

  method StartOver(s: Sys, x: Sid, ghost w: Slack) returns (s': Sys)
    requires Inv(s, w) && x in s.svcs && s.svcs[x].state == STOPPED && AllNotified(s, x)
    ensures Inv(s', w) && Calm(s, s') && s'.svcs[x].state == STARTING && s'.svcs[x].waitingForDeps && AllNotified(s', x)
  {
    s' := InitiateStart(s, x, w);
    forall d | d in s'.deps && s'.deps[d].from == x ensures Notified(s', d) { assert Notified(s, d); }
  }

  /** Let go of the dependents, tell the dependencies, and be STOPPED. */
  method LeaveUp(s: Sys, x: Sid, restart: bool, ghost w: Slack) returns (s': Sys)
    requires Inv(s, w) && x in s.svcs
    ensures Inv(s', w) && Calm(s, s') && s'.svcs[x].state == STOPPED && AllNotified(s', x) && NoneBegun(s, s')
    ensures !restart ==> !s'.svcs[x].startExplicit
    ensures !restart ==> forall d :: d in s.deps && s.deps[d].to == x ==> Broken(s', d)
    ensures !restart && !s.svcs[x].startExplicit && AllDetached(s, x) ==>
              && s' == PutSvc(s, x, s.svcs[x].(state := STOPPED)).(transQ := s'.transQ)
              && forall y :: y in s'.transQ.elems ==> y in s.transQ.elems || ToldBy(s, x, y)
  {
    assert LinksOK(s, x);
    s' := s;
    if !restart {
      s' := BreakSoftDependents(s', x, w);
    }
    ghost var s1 := s';
    s' := NotifyDependencies(s', x, w);
    DownTrans(s, s1, s');
    ghost var s2 := s';
    DownCalm(s, s2);
    DownBegins(s, s2);
    s' := Retire(s', x, restart, w);
    CalmTrans(s, s2, s');
    NoneBegunTrans(s, s2, s');
    if !restart {
      forall d | d in s.deps && s.deps[d].to == x ensures Broken(s', d) { assert Broken(s1, d); }
    }
  }

  /** The service is STOPPED, and loses its explicit activation unless it is to restart. */
  method Retire(s: Sys, x: Sid, restart: bool, ghost w: Slack) returns (s': Sys)
    requires Inv(s, w) && x in s.svcs && AllNotified(s, x)
    ensures Inv(s', w) && Calm(s, s') && s'.svcs[x].state == STOPPED && (!restart ==> !s'.svcs[x].startExplicit)
            && AllNotified(s', x) && NoneBegun(s, s')
    ensures s' == PutSvc(s, x, s'.svcs[x]).(propQ := s'.propQ)
    ensures restart || !s.svcs[x].startExplicit ==> s' == PutSvc(s, x, s.svcs[x].(state := STOPPED))
  {
    s' := SetState(s, x, STOPPED, w);
    ghost var s1 := s';
    StoppedKeeps(s, s1, x);
    if !restart && s'.svcs[x].startExplicit {
      s' := Deactivate(s', x, w);
      CalmTrans(s, s1, s');
      NoneBegunTrans(s, s1, s');
      PutTwice(s, x, s1.svcs[x], s'.svcs[x]);
    }
  }

  method Deactivate(s: Sys, x: Sid, ghost w: Slack) returns (s': Sys)
    requires Inv(s, w) && x in s.svcs && AllNotified(s, x) && s.svcs[x].startExplicit
    ensures Inv(s', w) && Calm(s, s') && s' == PutSvc(s, x, s'.svcs[x]).(propQ := s'.propQ) && AllNotified(s', x)
            && NoneBegun(s, s')
    ensures s'.svcs[x].state == s.svcs[x].state && !s'.svcs[x].startExplicit
  {
    s' := DropExplicit(s, x, false, w);
    DownCalm(s, s');
    DownBegins(s, s');
    forall d | d in s'.deps && s'.deps[d].from == x ensures Notified(s', d) { assert Notified(s, d); }
  }

  /** A service that has told its dependencies may be stopped. */
  lemma StoppedKeeps(s: Sys, s': Sys, x: Sid)
    requires x in s.svcs && AllNotified(s, x) && s' == PutSvc(s, x, s.svcs[x].(state := STOPPED))
    ensures StopsKept(s, s') && AllNotified(s', x)
  {
    forall z | z in s.svcs && StopAwake(s, z) ensures StopAwake(s', z) {
      if UpAbove(s, z) && z !in s.transQ.elems && ToBringDown(s.svcs[z]) && s.svcs[z].waitingForDeps {
        var d :| d in s.deps && s.deps[d].to == z && IsUp(s, s.deps[d].from);
        assert s.deps[d].from == x ==> Notified(s, d);
        assert d in s'.deps && s'.deps[d].to == z && IsUp(s', s'.deps[d].from);
      }
    }
    forall d | d in s'.deps && s'.deps[d].from == x ensures Notified(s', d) { assert Notified(s, d); }
  }

  // ---------------------------------------------------------------- the console

  method QueueForConsole(s: Sys, x: Sid, ghost w: Slack) returns (s': Sys)
    requires Inv(s, w) && x in s.svcs
    ensures Inv(s', w) && SameGraph(s, s') && s'.doubled == s.doubled && Tame(s, s') && StopsKept(s, s')
    ensures s' == PutSvc(s, x, s.svcs[x].(waitingForConsole := true)).(consoleQ := s.consoleQ + [x])
  {
    s' := SetFlags(s, x, s.svcs[x].(waitingForConsole := true), w);
    ghost var s1 := s';
    s' := s'.(consoleQ := s'.consoleQ + [x]);
    ConsoleKeeps(s1, s', w);
    QueueKeepsStops(s1, s');
    StopsKeptTrans(s, s1, s');
  }

  lemma QueueKeepsStops(s: Sys, s': Sys)
    requires s' == s.(consoleQ := s'.consoleQ) && SameGraph(s, s')
    ensures StopsKept(s, s')
  {
    forall y | y in s.svcs ensures StaysUp(s, s', y) { }
    UpKeepsStops(s, s');
  }

  /** Whether a service that is handed the console can use it. */
  ghost predicate CanUse(s: Sys, z: Sid) {
    z in s.svcs && s.svcs[z].state == STARTING && NoneWaited(s, z)
  }

  ghost predicate NobodyCan(s: Sys, q: seq<Sid>) {
    forall z :: z in q ==> z in s.svcs && !CanUse(s, z)
  }

  /** A service in line that cannot use the console is passed over, and is in line no more. */
  function Skipped(s: Sys, z: Sid): Sys
    requires z in s.svcs
  {
    PutSvc(s, z, s.svcs[z].(waitingForConsole := false, haveConsole := false))
  }

  ghost function PassedOver(s: Sys, q: seq<Sid>): Sys
    requires forall z :: z in q ==> z in s.svcs
    decreases |q|
  {
    if q == [] then s.(consoleQ := []) else PassedOver(Skipped(s, q[0]), q[1..])
  }

  lemma {:induction false} PassedAnyway(s: Sys, q: seq<Sid>, line: seq<Sid>)
    requires forall z :: z in q ==> z in s.svcs
    ensures PassedOver(s.(consoleQ := line), q) == PassedOver(s, q)
    decreases |q|
  {
    if q != [] {
      assert Skipped(s.(consoleQ := line), q[0]) == Skipped(s, q[0]).(consoleQ := line);
      PassedAnyway(Skipped(s, q[0]), q[1..], line);
    }
  }

  /** The same service, whatever it has to do with the console. */
  ghost predicate SameButConsole(u: Service, v: Service) {
    v == u.(waitingForConsole := v.waitingForConsole, haveConsole := v.haveConsole)
  }

  ghost predicate OnlyConsole(s: Sys, s': Sys) {
    && s' == s.(svcs := s'.svcs, consoleQ := s'.consoleQ) && s'.svcs.Keys == s.svcs.Keys
    && forall x :: x in s.svcs ==> SameButConsole(s.svcs[x], s'.svcs[x])
  }

  lemma {:induction false} PassedOnly(s: Sys, q: seq<Sid>)
    requires forall z :: z in q ==> z in s.svcs
    ensures OnlyConsole(s, PassedOver(s, q))
    decreases |q|
  {
    if q != [] {
      PassedOnly(Skipped(s, q[0]), q[1..]);
      SkippedOnly(s, q[0]);
      ConsoleTwice(s, Skipped(s, q[0]), PassedOver(s, q));
    }
  }

  lemma SkippedOnly(s: Sys, z: Sid)
    requires z in s.svcs
    ensures OnlyConsole(s, Skipped(s, z)) && OnlyConsole(s, PutSvc(s, z, s.svcs[z].(haveConsole := false)))
  {
  }

  lemma ConsoleTwice(s: Sys, s1: Sys, s2: Sys)
    requires OnlyConsole(s, s1) && OnlyConsole(s1, s2)
    ensures OnlyConsole(s, s2)
  {
    forall x | x in s.svcs ensures SameButConsole(s.svcs[x], s2.svcs[x]) {
      assert SameButConsole(s.svcs[x], s1.svcs[x]) && SameButConsole(s1.svcs[x], s2.svcs[x]);
    }
  }

  lemma CanStill(s: Sys, s': Sys, q: seq<Sid>)
    requires NobodyCan(s, q) && OnlyConsole(s, s')
    ensures NobodyCan(s', q)
  {
    forall z | z in q ensures z in s'.svcs && !CanUse(s', z) {
      assert !CanUse(s, z) && SameButConsole(s.svcs[z], s'.svcs[z]);
    }
  }

  /** The first in line that can use the console. */
  ghost function UserOf(s: Sys, q: seq<Sid>): Sid
    requires !NobodyCan(s, q) && forall z :: z in q ==> z in s.svcs
    decreases |q|
  {
    if CanUse(s, q[0]) then q[0]
    else
      RestCannot(s, q);
      UserOf(s, q[1..])
  }

  lemma RestCannot(s: Sys, q: seq<Sid>)
    requires !NobodyCan(s, q) && (forall z :: z in q ==> z in s.svcs) && (q != [] ==> !CanUse(s, q[0]))
    ensures q != [] && !NobodyCan(s, q[1..])
  {
    var z :| z in q && CanUse(s, z);
    assert z in q[1..];
  }

  /** A service that gets to use the console, and waits for nothing any longer. */
  function WithConsole(v: Service): Service {
    v.(waitingForConsole := false, haveConsole := true, waitingForDeps := false)
  }

  /** Those before it are passed over, and the first that can use the console has it. */
  ghost function Handed(s: Sys, q: seq<Sid>): Sys
    requires !NobodyCan(s, q) && forall z :: z in q ==> z in s.svcs
    decreases |q|
  {
    if CanUse(s, q[0]) then PutSvc(s.(consoleQ := q[1..]), q[0], WithConsole(s.svcs[q[0]]))
    else
      RestCannot(s, q);
      SkippedCan(s, q[0], q[1..]);
      Handed(Skipped(s, q[0]), q[1..])
  }

  lemma SkippedCan(s: Sys, x: Sid, q: seq<Sid>)
    requires x in s.svcs && forall z :: z in q ==> z in s.svcs
    ensures forall z :: CanUse(Skipped(s, x), z) <==> CanUse(s, z)
    ensures NobodyCan(Skipped(s, x), q) <==> NobodyCan(s, q)
  {
    forall z ensures CanUse(Skipped(s, x), z) <==> CanUse(s, z) { }
  }

  /** If somebody in line can use the console, the first of them is brought up with it. */
  ghost predicate GotConsole(s: Sys, q: seq<Sid>, s': Sys) {
    !NobodyCan(s, q) && (forall z :: z in q ==> z in s.svcs) ==>
      exists up :: BroughtUp(Handed(s, q), s', UserOf(s, q), up)
  }

  /** Hand the console to the next service in line. */
  method PullConsole(s: Sys, ghost w: Slack) returns (s': Sys)
    requires Inv(s, w)
    ensures Inv(s', w) && Calm(s, s') && (s.consoleQ != [] ==> |s'.consoleQ| < |s.consoleQ|) && NoneBegun(s, s')
    ensures NobodyCan(s, s.consoleQ) ==> s' == PassedOver(s, s.consoleQ)
    ensures GotConsole(s, s.consoleQ, s')
    decreases |s.consoleQ|, 0
  {
    s' := s;
    if s.consoleQ != [] {
      var x := s.consoleQ[0];
      assert x in s.consoleQ;
      s' := s.(consoleQ := s.consoleQ[1..]);
      ghost var s1 := s';
      ConsoleKeeps(s, s1, w);
      QueueKeepsStops(s, s1);
      assert [x] + s1.consoleQ == s.consoleQ;
      if NobodyCan(s, s.consoleQ) {
        CanStill(s, s1, s.consoleQ);
        PassedAnyway(s, s.consoleQ, s1.consoleQ);
      }
      s' := AcquiredConsole(s', x, w);
      CalmTrans(s, s1, s');
      assert Fronted(s1, x) == s;
      if !NobodyCan(s, s.consoleQ) {
        SameLine(s, s1, s.consoleQ);
      }
    }
  }

  /** Whether and how the console is handed on does not depend on who is in line behind. */
  lemma {:induction false} SameLine(s: Sys, s1: Sys, q: seq<Sid>)
    requires s1 == s.(consoleQ := s1.consoleQ) && !NobodyCan(s, q) && forall z :: z in q ==> z in s.svcs
    ensures !NobodyCan(s1, q) && Handed(s1, q) == Handed(s, q) && UserOf(s1, q) == UserOf(s, q)
    decreases |q|
  {
    assert forall z :: CanUse(s1, z) <==> CanUse(s, z);
    if !CanUse(s, q[0]) {
      RestCannot(s, q);
      SkippedCan(s, q[0], q[1..]);
      SkippedCan(s1, q[0], q[1..]);
      SameLine(s, s1, q[1..]);
      SameLine(Skipped(s, q[0]), Skipped(s1, q[0]), q[1..]);
    }
  }

  /** `x` is first in line. */
  ghost function Fronted(s: Sys, x: Sid): Sys { s.(consoleQ := [x] + s.consoleQ) }

  method ReleaseConsole(s: Sys, x: Sid, ghost w: Slack) returns (s': Sys)
    requires Inv(s, w) && x in s.svcs
    ensures Inv(s', w) && Calm(s, s') && (s.consoleQ != [] ==> |s'.consoleQ| < |s.consoleQ|)
    ensures NoneBegun(PutSvc(s, x, s.svcs[x].(haveConsole := false)), s') && NoneBegun(s, s')
    ensures GotConsole(PutSvc(s, x, s.svcs[x].(haveConsole := false)), s.consoleQ, s')
    ensures NobodyCan(s, s.consoleQ) ==> s' == PassedOver(PutSvc(s, x, s.svcs[x].(haveConsole := false)), s.consoleQ)
    decreases |s.consoleQ|, 1, 0
  {
    s' := SetFlags(s, x, s.svcs[x].(haveConsole := false), w);
    ghost var s1 := s';
    if NobodyCan(s, s.consoleQ) {
      CanStill(s, s1, s.consoleQ);
    }
    s' := PullConsole(s', w);
    CalmTrans(s, s1, s');
    NoneBegunTrans(s, s1, s');
  }

  /** The console is used if the service can start now, and handed on otherwise: if nobody in line can use it, all are
      passed over. */
  method AcquiredConsole(s: Sys, x: Sid, ghost w: Slack) returns (s': Sys)
    requires Inv(s, w) && x in s.svcs
    ensures Inv(s', w) && Calm(s, s') && NoneBegun(Fronted(s, x), s')
    ensures NobodyCan(s, [x] + s.consoleQ) ==> s' == PassedOver(s, [x] + s.consoleQ)
    ensures GotConsole(s, [x] + s.consoleQ, s')
    ensures !CanUse(s, x) && PastWaiting(s, x) && s'.svcs[x].state == STARTING ==> Forgotten(s', x)
    decreases |s.consoleQ|, 5
  {
    s' := SetFlags(s, x, s.svcs[x].(waitingForConsole := false, haveConsole := true), w);
    ghost var s1 := s';
    FrontBegins(s, s1, x);
    var all := CheckDepsStarted(s', x);
    if s'.svcs[x].state != STARTING || !all {
      s' := HandOn(s', s, x, w);
    } else {
      s' := UseConsole(s', s, x, w);
    }
    CalmTrans(s, s1, s');
    NoneBegunTrans(Fronted(s, x), s1, s');
  }

  /** A service that has got the console, and had not in `was`, cannot use it. */
  method HandOn(s: Sys, ghost was: Sys, x: Sid, ghost w: Slack) returns (s': Sys)
    requires Inv(s, w) && x in was.svcs && !CanUse(was, x)
    requires s == PutSvc(was, x, was.svcs[x].(waitingForConsole := false, haveConsole := true))
    ensures Inv(s', w) && Calm(s, s') && NoneBegun(s, s')
    ensures NobodyCan(was, [x] + was.consoleQ) ==> s' == PassedOver(was, [x] + was.consoleQ)
    ensures GotConsole(was, [x] + was.consoleQ, s')
    ensures PastWaiting(was, x) && s'.svcs[x].state == STARTING ==> Forgotten(s', x)
    decreases |s.consoleQ|, 5, 0
  {
    if NobodyCan(was, [x] + was.consoleQ) {
      NextPassed(was, s, x);
    }
    s' := ReleaseConsole(s, x, w);
    NextGot(was, s, s', x);
    if PastWaiting(was, x) && s'.svcs[x].state == STARTING {
      NobodyAsks(s, s', x);
    }
  }

  /** ... or can. */
  method UseConsole(s: Sys, ghost was: Sys, x: Sid, ghost w: Slack) returns (s': Sys)
    requires Inv(s, w) && x in was.svcs && CanUse(was, x) && NoneWaited(s, x)
    requires s == PutSvc(was, x, was.svcs[x].(waitingForConsole := false, haveConsole := true))
    ensures Inv(s', w) && Calm(s, s') && NoneBegun(s, s') && !NobodyCan(was, [x] + was.consoleQ)
    ensures GotConsole(was, [x] + was.consoleQ, s')
    decreases |s.consoleQ|, 5, 0
  {
    assert x in [x] + was.consoleQ;
    var up := *;
    s' := AllDepsStarted(s, x, up, w);
    FirstGot(was, s, s', x, up);
  }

  /** The service has got past waiting for its dependencies, and is not in any queue. */
  ghost predicate PastWaiting(s: Sys, x: Sid) {
    x in s.svcs && !s.svcs[x].waitingForDeps && x !in s.transQ.elems && x !in s.consoleQ
  }

  /** Nothing is going to look at the service again: it waits for nothing and is in no line. */
  ghost predicate Forgotten(s: Sys, x: Sid) {
    PastWaiting(s, x) && !s.svcs[x].waitingForConsole && !s.svcs[x].haveConsole
  }

  lemma NobodyAsks(s1: Sys, s': Sys, x: Sid)
    requires PastWaiting(s1, x) && !s1.svcs[x].waitingForConsole && x in s'.svcs && s'.svcs[x].state == STARTING
    requires NoneBegun(PutSvc(s1, x, s1.svcs[x].(haveConsole := false)), s')
    ensures Forgotten(s', x)
  {
    assert StartsOn(PutSvc(s1, x, s1.svcs[x].(haveConsole := false)), s', x);
  }

  lemma FrontBegins(s: Sys, s1: Sys, x: Sid)
    requires x in s.svcs && s1 == PutSvc(s, x, s.svcs[x].(waitingForConsole := false, haveConsole := true))
    ensures NoneBegun(Fronted(s, x), s1)
  {
    assert x in [x] + s.consoleQ;
    forall y | y in s.svcs ensures StartsOn(Fronted(s, x), s1, y) { }
  }

  /** The console is handed on, past `x`. */
  lemma NextGot(s: Sys, s1: Sys, s': Sys, x: Sid)
    requires x in s.svcs && s1 == PutSvc(s, x, s.svcs[x].(waitingForConsole := false, haveConsole := true))
    requires !CanUse(s, x) && GotConsole(PutSvc(s1, x, s1.svcs[x].(haveConsole := false)), s1.consoleQ, s')
    ensures GotConsole(s, [x] + s.consoleQ, s')
  {
    HandedBack(s, s1, x);
    PastFirst(s, s', x, s.consoleQ);
  }

  lemma PastFirst(s: Sys, s': Sys, x: Sid, q: seq<Sid>)
    requires x in s.svcs && !CanUse(s, x) && GotConsole(Skipped(s, x), q, s')
    ensures GotConsole(s, [x] + q, s')
  {
    var all := [x] + q;
    if !NobodyCan(s, all) && (forall z :: z in all ==> z in s.svcs) {
      HandedPast(s, x, q);
      var up :| BroughtUp(Handed(Skipped(s, x), q), s', UserOf(Skipped(s, x), q), up);
    }
  }

  lemma HandedPast(s: Sys, x: Sid, q: seq<Sid>)
    requires x in s.svcs && !CanUse(s, x) && !NobodyCan(s, [x] + q) && forall z :: z in [x] + q ==> z in s.svcs
    ensures (forall z :: z in q ==> z in s.svcs) && !NobodyCan(Skipped(s, x), q)
    ensures Handed(s, [x] + q) == Handed(Skipped(s, x), q) && UserOf(s, [x] + q) == UserOf(Skipped(s, x), q)
  {
    var all := [x] + q;
    assert all[0] == x && all[1..] == q;
    forall z | z in q ensures z in s.svcs { assert z in all; }
    RestCannot(s, all);
    SkippedCan(s, x, q);
    SkippedUser(s, x, q);
  }

  lemma {:induction false} SkippedUser(s: Sys, x: Sid, q: seq<Sid>)
    requires x in s.svcs && !NobodyCan(s, q) && forall z :: z in q ==> z in s.svcs
    ensures !NobodyCan(Skipped(s, x), q) && UserOf(Skipped(s, x), q) == UserOf(s, q)
    decreases |q|
  {
    SkippedCan(s, x, q);
    if !CanUse(s, q[0]) {
      RestCannot(s, q);
      SkippedUser(s, x, q[1..]);
    }
  }

  lemma FirstGot(s: Sys, s1: Sys, s': Sys, x: Sid, up: Outcome)
    requires x in s.svcs && s1 == PutSvc(s, x, s.svcs[x].(waitingForConsole := false, haveConsole := true))
    requires CanUse(s, x) && BroughtUp(PutSvc(s1, x, s1.svcs[x].(waitingForDeps := false)), s', x, up)
    ensures GotConsole(s, [x] + s.consoleQ, s')
  {
    var q := [x] + s.consoleQ;
    assert q[1..] == s.consoleQ;
    PutTwice(s, x, s1.svcs[x], WithConsole(s.svcs[x]));
    if !NobodyCan(s, q) && (forall z :: z in q ==> z in s.svcs) {
      assert BroughtUp(Handed(s, q), s', UserOf(s, q), up);
    }
  }

  lemma NextPassed(s: Sys, s1: Sys, x: Sid)
    requires x in s.svcs && s1 == PutSvc(s, x, s.svcs[x].(waitingForConsole := false, haveConsole := true))
    requires NobodyCan(s, [x] + s.consoleQ)
    ensures NobodyCan(s1, s1.consoleQ) && x in s1.svcs
    ensures PassedOver(s, [x] + s.consoleQ) == PassedOver(PutSvc(s1, x, s1.svcs[x].(haveConsole := false)), s1.consoleQ)
  {
    RestCan(s, x);
    CanStill(s, s1, s.consoleQ);
    HandedBack(s, s1, x);
    InLine(s, s.consoleQ);
    FirstPassed(s, x, s.consoleQ);
  }

  lemma InLine(s: Sys, q: seq<Sid>)
    requires NobodyCan(s, q)
    ensures forall z :: z in q ==> z in s.svcs
  {
  }

  lemma HandedBack(s: Sys, s1: Sys, x: Sid)
    requires x in s.svcs && s1 == PutSvc(s, x, s.svcs[x].(waitingForConsole := false, haveConsole := true))
    ensures x in s1.svcs && PutSvc(s1, x, s1.svcs[x].(haveConsole := false)) == Skipped(s, x)
            && s1.consoleQ == s.consoleQ
  {
    BackAgain(s.svcs[x]);
    PutTwice(s, x, s1.svcs[x], s1.svcs[x].(haveConsole := false));
  }

  lemma BackAgain(v: Service)
    ensures v.(waitingForConsole := false, haveConsole := true).(haveConsole := false) ==
            v.(waitingForConsole := false, haveConsole := false)
  {
  }

  lemma RestCan(s: Sys, x: Sid)
    requires NobodyCan(s, [x] + s.consoleQ)
    ensures NobodyCan(s, s.consoleQ)
  {
    forall z | z in s.consoleQ ensures z in s.svcs && !CanUse(s, z) { assert z in [x] + s.consoleQ; }
  }

  lemma FirstPassed(s: Sys, x: Sid, q: seq<Sid>)
    requires x in s.svcs && forall z :: z in q ==> z in s.svcs
    ensures (forall z :: z in [x] + q ==> z in s.svcs) && PassedOver(s, [x] + q) == PassedOver(Skipped(s, x), q)
  {
    assert ([x] + q)[1..] == q;
  }

  /** What comes of bringing up a service: it is up at once, or later, or not at all. */
  datatype Outcome = AtOnce | UnderWay | NotUp

  /** Whether a service has to queue for the console before it can be brought up. */
  predicate NeedsConsole(v: Service) {
    v.startsOnConsole && !v.haveConsole
  }

  /** Every dependency is out of the way: bring the service up, once it has the console if it needs it. */
  method AllDepsStarted(s: Sys, x: Sid, up: Outcome, ghost w: Slack) returns (s': Sys)
    requires Inv(s, w) && x in s.svcs && s.svcs[x].state == STARTING && NoneWaited(s, x)
    ensures Inv(s', w) && SameGraph(s, s') && s'.doubled == s.doubled && Tame(s, s') && StopsKept(s, s')
    ensures NeedsConsole(s.svcs[x]) ==>
              s' == PutSvc(s, x, s.svcs[x].(waitingForConsole := true)).(consoleQ := s.consoleQ + [x])
    ensures !NeedsConsole(s.svcs[x]) ==>
              NoneBegun(s, s') && Calm(s, s') && BroughtUp(PutSvc(s, x, s.svcs[x].(waitingForDeps := false)), s', x, up)
    decreases |s.consoleQ|, 4
  {
    if NeedsConsole(s.svcs[x]) {
      s' := QueueForConsole(s, x, w);
      return;
    }
    s' := NoWait(s, x, w);
    ghost var s1 := s';
    s' := BringUp(s', x, up, w);
    CalmTrans(s, s1, s');
    NoneBegunTrans(s, s1, s');
  }

  method NoWait(s: Sys, x: Sid, ghost w: Slack) returns (s': Sys)
    requires Inv(s, w) && x in s.svcs && s.svcs[x].state != STOPPING
    ensures Inv(s', w) && Calm(s, s') && s' == PutSvc(s, x, s.svcs[x].(waitingForDeps := false)) && NoneBegun(s, s')
  {
    OneBegins(s, x, s.svcs[x].(waitingForDeps := false));
    SetService(s, x, s.svcs[x].(waitingForDeps := false), w);
    s' := PutSvc(s, x, s.svcs[x].(waitingForDeps := false));
    forall y | y in s.svcs ensures StaysUp(s, s', y) { }
    UpKeepsStops(s, s');
  }

  /** The service is up, as far as that is known, or it is down again. */
  ghost predicate BroughtUp(s: Sys, s': Sys, x: Sid, up: Outcome) {
    && x in s.svcs && x in s'.svcs
    && match up
       case UnderWay => s' == s
       case AtOnce =>
         && Risen(s', x) && (NoHandover(s, x) ==> CameUp(s, s', x))
         && (Quiet(s.svcs[x]) ==> UpQuietly(s, s', x))
       case NotUp => s'.svcs[x].state == STOPPED && s'.svcs[x].desired == STOPPED && !s'.svcs[x].startExplicit
  }

  method BringUp(s: Sys, x: Sid, up: Outcome, ghost w: Slack) returns (s': Sys)
    requires Inv(s, w) && x in s.svcs && !s.svcs[x].waitingForDeps
    ensures Inv(s', w) && Calm(s, s') && BroughtUp(s, s', x, up) && NoneBegun(s, s')
    decreases |s.consoleQ|, 3, 1
  {
    match up
    case UnderWay =>
      s' := s;
      SameRecord(s, x);
      OneBegins(s, x, s.svcs[x]);
    case AtOnce =>
      ghost var freed;
      s', freed := Started(s, x, w);
    case NotUp =>
      s' := Interrupt(s, x, w);
      ghost var s1 := s';
      ghost var failed, freed;
      s', failed, freed := FailedToStart(s', x, w);
      CalmTrans(s, s1, s');
      NoneBegunTrans(s, s1, s');
  }

  // ---------------------------------------------------------------- started

  /** Nobody else gets to use the console when this service gives it up. */
  ghost predicate NoHandover(s: Sys, x: Sid)
    requires x in s.svcs
  {
    !s.svcs[x].haveConsole || NobodyCan(s, s.consoleQ)
  }

  /** How a service comes up: it stops again if it must, and otherwise nobody waits for it any longer. */
  ghost predicate CameUp(s: Sys, s': Sys, x: Sid) {
    && x in s.svcs && x in s'.svcs
    && var v := s.svcs[x];
       if MustStop(v) then s'.svcs[x].state == (if v.IsStartPinned() then STARTED else STOPPING)
       else s'.svcs[x].state == STARTED && forall d :: d in s.deps && s.deps[d].to == x ==> Clear(s', d)
  }

  predicate MustStop(v: Service) {
    v.forceStop || v.desired == STOPPED
  }

  /** Whatever happened meanwhile: the service is up or stopping, and unless it must stop nobody waits for it. */
  ghost predicate Risen(s: Sys, x: Sid) {
    && x in s.svcs && (s.svcs[x].state == STARTED || s.svcs[x].state == STOPPING)
    && (s.svcs[x].state == STARTED && !MustStop(s.svcs[x]) ==>
          forall d :: d in s.deps && s.deps[d].to == x ==> Clear(s, d))
  }

  predicate Quiet(v: Service) {
    !v.haveConsole && !MustStop(v)
  }

  /** Only the state changes, and the links to the service that were waited on; and of the services that waited, those
      are queued that have not got past waiting for dependencies. */
  ghost predicate UpQuietly(s: Sys, s': Sys, x: Sid) {
    && x in s.svcs && s'.svcs == s.svcs[x := s.svcs[x].(state := STARTED)] && s'.deps.Keys == s.deps.Keys
    && s' == s.(svcs := s'.svcs, deps := s'.deps, transQ := s'.transQ)
    && (forall d :: d in s.deps ==> s'.deps[d] == s.deps[d].(waitingOn := s.deps[d].waitingOn && s.deps[d].to != x))
    && (forall y :: y in s'.transQ.elems ==> y in s.transQ.elems || WaitsFor(s, x, y))
  }

  /** The service waits for dependencies, and `x` is in its way. */
  ghost predicate WaitsFor(s: Sys, x: Sid, y: Sid) {
    && y in s.svcs && s.svcs[y].waitingForDeps
    && exists d :: d in s.deps && s.deps[d].from == y && s.deps[d].to == x && s.deps[d].waitingOn
  }

  /** The service has started. It gives the console back first, unless it runs on it; `freed` is where things are
      then. */
  method Started(s: Sys, x: Sid, ghost w: Slack) returns (s': Sys, ghost freed: Sys)
    requires Inv(s, w) && x in s.svcs
    ensures Inv(s', w) && Calm(s, s') && Risen(s', x) && NoneBegun(s, s')
    ensures Yielded(s, freed, x, !s.svcs[x].runsOnConsole) && CameUp(freed, s', x)
    ensures NoHandover(s, x) ==> CameUp(s, s', x)
    ensures Quiet(s.svcs[x]) ==> UpQuietly(s, s', x)
    decreases |s.consoleQ|, 2
  {
    s' := YieldConsole(s, x, !s.svcs[x].runsOnConsole, w);
    freed := s';
    ghost var s1 := s';
    if NoHandover(s, x) {
      assert SameButConsole(s.svcs[x], s1.svcs[x]);
    }
    s' := BecomeStarted(s', x, w);
    CalmTrans(s, s1, s');
    NoneBegunTrans(s, s1, s');
  }

  /** The console is given back if the service has it: it goes to the first in line that can use it, and if there is
      none, all of them are passed over. */
  ghost predicate Yielded(s: Sys, s': Sys, x: Sid, ask: bool) {
    && x in s.svcs && x in s'.svcs
    && if !(s.svcs[x].haveConsole && ask) then s' == s
       else
         && GotConsole(PutSvc(s, x, s.svcs[x].(haveConsole := false)), s.consoleQ, s')
         && (NobodyCan(s, s.consoleQ) ==>
               s' == PassedOver(PutSvc(s, x, s.svcs[x].(haveConsole := false)), s.consoleQ))
  }

  method YieldConsole(s: Sys, x: Sid, ask: bool, ghost w: Slack) returns (s': Sys)
    requires Inv(s, w) && x in s.svcs
    ensures Inv(s', w) && Calm(s, s') && NoneBegun(s, s')
    ensures NoHandover(s, x) ==> OnlyConsole(s, s')
    ensures Yielded(s, s', x, ask) && (|s'.consoleQ| < |s.consoleQ| || OnlyConsole(s, s'))
    decreases |s.consoleQ|, 1, 1
  {
    s' := s;
    SameRecord(s, x);
    OneBegins(s, x, s.svcs[x]);
    if s.svcs[x].haveConsole && ask {
      s' := ReleaseConsole(s, x, w);
      GaveConsole(s, x);
    }
  }

  lemma GaveConsole(s: Sys, x: Sid)
    requires x in s.svcs && forall z :: z in s.consoleQ ==> z in s.svcs
    ensures OnlyConsole(s, PassedOver(PutSvc(s, x, s.svcs[x].(haveConsole := false)), s.consoleQ))
  {
    var s1 := PutSvc(s, x, s.svcs[x].(haveConsole := false));
    SkippedOnly(s, x);
    PassedOnly(s1, s.consoleQ);
    ConsoleTwice(s, s1, PassedOver(s1, s.consoleQ));
  }

  method BecomeStarted(s: Sys, x: Sid, ghost w: Slack) returns (s': Sys)
    requires Inv(s, w) && x in s.svcs
    ensures Inv(s', w) && Calm(s, s') && CameUp(s, s', x) && Risen(s', x) && NoneBegun(s, s')
    ensures !MustStop(s.svcs[x]) ==> UpQuietly(s, s', x)
  {
    s' := SetState(s, x, STARTED, w);
    ghost var s1 := s';
    if MustStop(s'.svcs[x]) {
      s' := DoStop(s', x, false, w);
      assert SvcDown(s1.svcs[x], s'.svcs[x]);
    } else {
      s' := UnblockAll(s', x, w);
      RoseQuietly(s, s1, s', x);
    }
    DownCalm(s1, s');
    CalmTrans(s, s1, s');
    DownBegins(s1, s');
    NoneBegunTrans(s, s1, s');
  }

  lemma RoseQuietly(s: Sys, s1: Sys, s': Sys, x: Sid)
    requires x in s.svcs && s1 == PutSvc(s, x, s.svcs[x].(state := STARTED)) && Unblocked(s1, s', x)
    ensures UpQuietly(s, s', x)
  {
    forall d | d in s.deps
      ensures s'.deps[d] == s.deps[d].(waitingOn := s.deps[d].waitingOn && s.deps[d].to != x) {
      assert s'.deps[d] == s1.deps[d].(waitingOn := s'.deps[d].waitingOn);
    }
    forall y | y in s'.transQ.elems && y !in s.transQ.elems ensures WaitsFor(s, x, y) { assert WaitsFor(s1, x, y); }
  }

  method UnblockAll(s: Sys, x: Sid, ghost w: Slack) returns (s': Sys)
    requires Inv(s, w) && x in s.svcs
    ensures Inv(s', w) && Down(s, s') && Unblocked(s, s', x)
    ensures forall d :: d in s.deps && s.deps[d].to == x ==> Clear(s', d)
  {
    s' := s;
    assert LinksOK(s, x);
    var ds := s.dependents[x];
    for i := 0 to |ds|
      invariant Inv(s', w) && Down(s, s') && Unblocking(s, s', x)
      invariant forall j :: 0 <= j < i ==> Clear(s', ds[j])
    {
      ghost var s1 := s';
      TheirLink(s, x, ds[i]);
      assert DepOK(s1, ds[i]);
      s' := UnblockIf(s', ds[i], w);
      DownTrans(s, s1, s');
      UnblockingTrans(s, s1, s', x);
    }
    AllClear(s, s', x);
  }

  lemma AllClear(s: Sys, s': Sys, x: Sid)
    requires WF(s) && x in s.svcs && x in s.dependents
    requires forall j :: 0 <= j < |s.dependents[x]| ==> Clear(s', s.dependents[x][j])
    ensures forall d :: d in s.deps && s.deps[d].to == x ==> Clear(s', d)
  {
    forall d | d in s.deps && s.deps[d].to == x ensures Clear(s', d) {
      assert DepOK(s, d);
      var j :| 0 <= j < |s.dependents[x]| && s.dependents[x][j] == d;
      assert Clear(s', s.dependents[x][j]);
    }
  }

  /** What is waited on no longer was not waited on before, or leads to the service. */
  lemma UnblockingTrans(s: Sys, s1: Sys, s2: Sys, x: Sid)
    requires Unblocking(s, s1, x) && Unblocking(s1, s2, x)
    ensures Unblocking(s, s2, x)
  {
    forall y | y in s2.transQ.elems && y !in s.transQ.elems ensures WaitsFor(s, x, y) {
      if y !in s1.transQ.elems {
        var d :| d in s1.deps && s1.deps[d].from == y && s1.deps[d].to == x && s1.deps[d].waitingOn;
        assert d in s.deps && s.deps[d].from == y && s.deps[d].to == x && s.deps[d].waitingOn;
      }
    }
  }

  method UnblockIf(s: Sys, d: Did, ghost w: Slack) returns (s': Sys)
    requires Inv(s, w) && d in s.deps
    ensures Inv(s', w) && Down(s, s') && Unblocking(s, s', s.deps[d].to) && Clear(s', d)
    ensures forall e :: Clear(s, e) ==> Clear(s', e)
  {
    s' := s;
    assert DepOK(s, d);
    if s.deps[d].waitingOn {
      s' := Unblock(s, d, w);
    }
  }

  /** Some of the links to the service are no longer waited on. */
  ghost predicate Unblocking(s: Sys, s': Sys, x: Sid) {
    && s' == s.(deps := s'.deps, transQ := s'.transQ) && s'.deps.Keys == s.deps.Keys
    && (forall d :: d in s.deps ==> s'.deps[d] == s.deps[d].(waitingOn := s'.deps[d].waitingOn))
    && (forall d :: d in s.deps && s.deps[d].to != x ==> s'.deps[d] == s.deps[d])
    && (forall d :: d in s.deps && s'.deps[d].waitingOn ==> s.deps[d].waitingOn)
    && (forall y :: y in s'.transQ.elems ==> y in s.transQ.elems || WaitsFor(s, x, y))
  }

  ghost predicate Unblocked(s: Sys, s': Sys, x: Sid) {
    Unblocking(s, s', x) && forall d :: d in s.deps && s.deps[d].to == x ==> !s'.deps[d].waitingOn
  }

  // ---------------------------------------------------------------- failed, or stopped

  /** A start has failed: what it held is given up or kept, and no dependent holds it or, softly, waits for it. */
  ghost predicate FailedAs(s: Sys, s': Sys, x: Sid) {
    && x in s.svcs && x in s'.svcs && GivesUp(s.svcs[x], s'.svcs[x]) && OwnHoldsKept(s, s', x) && AllDetached(s', x)
    && s'.svcs[x].desired == STOPPED && !s'.svcs[x].startExplicit && !s'.svcs[x].pinnedStarted
  }

  /** The service has failed to start, as in `failed`; it gives the console back, as in `freed`, and is down. */
  method FailedToStart(s: Sys, x: Sid, ghost w: Slack) returns (s': Sys, ghost failed: Sys, ghost freed: Sys)
    requires Inv(s, w) && x in s.svcs
    ensures Inv(s', w) && Calm(s, s') && AllNotified(s', x) && NoneBegun(s, s')
    ensures s'.svcs[x].state == STOPPED && s'.svcs[x].desired == STOPPED && !s'.svcs[x].startExplicit
    ensures FailedAs(s, failed, x) && Yielded(failed, freed, x, true) && WentDown(freed, s', x)
    ensures !s.svcs[x].haveConsole ==> GivesUp(s.svcs[x], s'.svcs[x]) && OwnHoldsKept(s, s', x)
    ensures !s.svcs[x].haveConsole ==> s'.svcs[x].pinnedStopped == s.svcs[x].pinnedStopped
    ensures x in s.dependents && (!s.svcs[x].haveConsole && s.dependents[x] == [] ==> FailedQuietly(s, s', x))
    ensures |s'.consoleQ| < |s.consoleQ| || Falls(s, s', x)
    decreases |s.consoleQ|, 3, 0
  {
    s' := FailToStart(s, x, w);
    failed := s';
    ghost var s1 := s';
    s' := YieldConsole(s', x, true, w);
    freed := s';
    ghost var s2 := s';
    CalmTrans(s, s1, s2);
    NoneBegunTrans(s, s1, s2);
    s' := BecomeStopped(s', x, w);
    CalmTrans(s, s2, s');
    NoneBegunTrans(s, s2, s');
    if !s.svcs[x].haveConsole && s.dependents[x] == [] {
      FailedAlone(s, s1, s', x);
    }
    if |s2.consoleQ| >= |s1.consoleQ| {
      FellDown(s, s1, s2, s', x);
    }
  }

  /** Nobody gets the console, and the service goes quietly. */
  lemma FellDown(s: Sys, s1: Sys, s2: Sys, s': Sys, x: Sid)
    requires Falls(s, s1, x) && OnlyConsole(s1, s2) && SameGraph(s1, s2) && x in s1.svcs && AllDetached(s1, x)
    requires s1.svcs[x].desired == STOPPED && !s1.svcs[x].startExplicit
    requires AllDetached(s2, x) && s2.svcs[x].desired == STOPPED && !s2.svcs[x].startExplicit ==> DownQuietly(s2, s', x)
    requires SameGraph(s2, s')
    ensures Falls(s, s', x)
  {
    assert SameButConsole(s1.svcs[x], s2.svcs[x]);
    forall d | d in s2.deps && s2.deps[d].to == x ensures Detached(s2, d) {
      assert Detached(s1, d) && SameButConsole(s1.svcs[s1.deps[d].from], s2.svcs[s1.deps[d].from]);
    }
    forall y | y in s1.svcs ensures FallsSvc(s1.svcs[y], s2.svcs[y]) && FailsAbove(s1, s2, x, y) {
      assert SameButConsole(s1.svcs[y], s2.svcs[y]);
    }
    forall y ensures FailsAbove(s1, s2, x, y) { }
    assert Falls(s1, s2, x);
    FallsTrans(s, s1, s2, x);
    FallsOne(s2, s', x, x);
    FallsTrans(s, s2, s', x);
  }

  lemma FailedAlone(s: Sys, s1: Sys, s': Sys, x: Sid)
    requires WF(s) && x in s.svcs && x in s.dependents && s.dependents[x] == []
    requires OnlyOwn(s, s1, x) && DownQuietly(s1, s', x)
    ensures FailedQuietly(s, s', x)
  {
    forall y | ToldBy(s1, x, y) ensures ToldBy(s, x, y) {
      var d :| d in s1.deps && s1.deps[d].from == x && s1.deps[d].to == y;
      assert d in s.deps && DepOK(s, d);
    }
  }

  /** Nothing but the service has changed, except that dependencies waiting for it to stop are queued. */
  ghost predicate FailedQuietly(s: Sys, s': Sys, x: Sid) {
    && x in s.svcs && s'.deps == s.deps && MoreQueued(s, s', x)
    && (s.svcs[x].IsStartPinned() ==> s'.propQ == s.propQ)
    && s'.svcs.Keys == s.svcs.Keys && (forall y :: y in s.svcs && y != x ==> s'.svcs[y] == s.svcs[y])
    && (forall y :: y in s'.transQ.elems ==> y in s.transQ.elems || ToldBy(s, x, y))
    && (forall y :: y in s'.consoleQ ==> y in s.consoleQ)
  }

  /** The service that this one chains to, if any. */
  datatype Chain = NoChain | To(next: Sid)

  predicate Chains(failed: bool, v: Service, chain: Chain) {
    chain.To? && (!failed || WillRestart(v))
  }

  /** The service has stopped. It gives the console back, as in `freed`, and comes down, as in `mid`. Then it may chain
      to another one, but not after a failure to start that is final. */
  method Stopped(s: Sys, x: Sid, failed: bool, chain: Chain, ghost w: Slack)
    returns (s': Sys, ghost freed: Sys, ghost mid: Sys)
    requires Inv(s, w) && x in s.svcs && (chain.To? ==> chain.next in s.svcs)
    ensures Inv(s', w) && Step(s, s')
    ensures Inv(mid, w) && Calm(s, mid) && Yielded(s, freed, x, true) && WentDown(freed, mid, x)
    ensures NoHandover(s, x) ==> WentDown(s, mid, x)
    ensures !Chains(failed, freed.svcs[x], chain) ==> s' == mid
    ensures Chains(failed, freed.svcs[x], chain) ==> chain.next in mid.svcs && Asked(mid, s', chain.next)
    ensures s' != mid ==> chain.To? && chain.next in mid.svcs
    ensures s' != mid ==>
              (StopsKept(mid, s') <==> (TurnsAround(mid.svcs[chain.next]) ==> WakesNobody(mid, chain.next)))
    ensures NoHandover(s, x) && !Chains(failed, s.svcs[x], chain) ==> s' == mid
    ensures !s.svcs[x].haveConsole && !WillRestart(s.svcs[x]) && !s.svcs[x].startExplicit && AllDetached(s, x) ==>
              DownQuietly(s, mid, x)
    ensures NoHandover(s, x) && Chains(failed, s.svcs[x], chain) ==>
              chain.next in mid.svcs && Asked(mid, s', chain.next)
    decreases |s.consoleQ|, 2
  {
    s' := YieldConsole(s, x, true, w);
    freed := s';
    ghost var s1 := s';
    if NoHandover(s, x) {
      assert SameButConsole(s.svcs[x], s1.svcs[x]);
    }
    var chained := Chains(failed, s'.svcs[x], chain);
    s' := BecomeStopped(s', x, w);
    mid := s';
    CalmTrans(s, s1, mid);
    if chained {
      s' := Start(s', chain.next, w);
      StepTrans(s, mid, s');
    }
  }

  /** A service has been asked to start. */
  ghost predicate Asked(s: Sys, s': Sys, x: Sid) {
    && x in s.svcs && x in s'.svcs
    && if s.svcs[x].pinnedStopped then s' == s
       else
         s'.svcs[x].startExplicit && s'.svcs[x].desired == STARTED
         && (s.svcs[x].state == STOPPED ==> FreshStart(s, s', x))
  }
}
