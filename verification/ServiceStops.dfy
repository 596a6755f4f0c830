/**
  Releasing and stopping services. Everything here only winds down: no service is started, no link
  is acquired or waited on, and a service pinned started keeps its state.
 */
module ServiceStops {
  import opened QueueShape
  import opened ServiceModel

  ghost predicate SvcDown(u: Service, v: Service) {
    && (v.desired == u.desired || v.desired == STOPPED)
    && (v.startExplicit ==> u.startExplicit)
    && v.requiredBy <= u.requiredBy
    && v.pinnedStarted == u.pinnedStarted && v.pinnedStopped == u.pinnedStopped && v.deptPinned == u.deptPinned
    && (v.state == u.state
        || (!u.IsStartPinned() && v.state == STOPPING && (u.state == STARTING || u.state == STARTED)))
    && (v.state == u.state ==> v.waitingForDeps == u.waitingForDeps && v.broughtDown == u.broughtDown)
    && (v.waitingForConsole ==> u.waitingForConsole)
    && (u.forceStop ==> v.forceStop) && v.haveConsole == u.haveConsole
    && (PropStop in u.prop ==> PropStop in v.prop) && (PropFailure in u.prop ==> PropFailure in v.prop)
    && (PropPin in u.prop ==> PropPin in v.prop) && (PropStart in v.prop ==> PropStart in u.prop)
    && (PropRequire in v.prop ==> PropRequire in u.prop)
  }

  ghost predicate DepDown(p: Dep, q: Dep) {
    (q.waitingOn ==> p.waitingOn) && (q.holdingAcq ==> p.holdingAcq)
  }

  ghost predicate Lower(s: Sys, s': Sys) {
    && SameGraph(s, s') && s'.doubled == s.doubled && |s'.consoleQ| <= |s.consoleQ|
    && (forall x {:trigger s'.svcs[x]} :: x in s.svcs ==> SvcDown(s.svcs[x], s'.svcs[x]))
    && (forall d {:trigger s'.deps[d]} :: d in s.deps ==> DepDown(s.deps[d], s'.deps[d]))
    && (forall x :: x in s.transQ.elems ==> x in s'.transQ.elems)
    && (forall x {:trigger x in s'.transQ.elems} :: x in s'.transQ.elems ==> x in s.transQ.elems || Queues(s, s', x))
    && (forall x :: x in s'.consoleQ ==> x in s.consoleQ)
  }

  /** What a service is queued for: it waited for a dependency that is no longer in the way, or it is stopping. */
  ghost predicate Queues(s: Sys, s': Sys, x: Sid) {
    && x in s.svcs && x in s'.svcs
    && (s'.svcs[x].state == STOPPING || (s.svcs[x].waitingForDeps && SomeWaitedOn(s, x)))
  }

  ghost predicate SomeWaitedOn(s: Sys, x: Sid) {
    exists d :: d in s.deps && s.deps[d].from == x && s.deps[d].waitingOn
  }

  ghost predicate Down(s: Sys, s': Sys) {
    && Lower(s, s')
    && (forall x {:trigger Orderly(s, s', x)} :: x in s.svcs ==> Orderly(s, s', x))
  }

  predicate FundamentallyStopped(v: Service) {
    v.state == STOPPED || (v.state == STARTING && v.waitingForDeps)
  }

  ghost predicate IsUp(s: Sys, y: Sid) {
    y in s.svcs && !FundamentallyStopped(s.svcs[y])
  }

  /** Some strict dependent has not stopped yet. */
  ghost predicate SomeUp(s: Sys, s': Sys, x: Sid) {
    exists d :: d in s.deps && s.deps[d].to == x && s.deps[d].IsHard() && IsUp(s', s.deps[d].from)
  }

  /** A service that is stopping now, and was not before, waits only if a strict dependent is up; and it is queued if it
      does not wait, unless it was starting and its process has been told. */
  ghost predicate Orderly(s: Sys, s': Sys, x: Sid) {
    x in s.svcs && x in s'.svcs && s.svcs[x].state != STOPPING && s'.svcs[x].state == STOPPING ==>
      && (s'.svcs[x].waitingForDeps ==> SomeUp(s, s', x))
      && (!s'.svcs[x].waitingForDeps ==>
            x in s'.transQ.elems || (s'.svcs[x].broughtDown && s.svcs[x].state == STARTING))
      && (s.svcs[x].state == STARTED ==> !s'.svcs[x].broughtDown)
  }

  // ---------------------------------------------------------------- waiting for dependents to stop

  ghost predicate UpAbove(s: Sys, x: Sid) {
    exists d :: d in s.deps && s.deps[d].to == x && IsUp(s, s.deps[d].from)
  }

  /** A service is stopping, and still has to be brought down. */
  predicate ToBringDown(v: Service) {
    v.state == STOPPING && !v.broughtDown
  }

  /** A service that is still to be brought down is in the transition queue, or it waits for its dependents to stop and
      some dependent is up, which will tell it when it has stopped. */
  ghost predicate StopAwake(s: Sys, x: Sid) {
    x in s.svcs && ToBringDown(s.svcs[x]) ==> x in s.transQ.elems || (s.svcs[x].waitingForDeps && UpAbove(s, x))
  }

  /** It is in the queue, or can be told. */
  ghost predicate Listens(s: Sys, x: Sid) {
    x in s.svcs && ToBringDown(s.svcs[x]) ==> x in s.transQ.elems || s.svcs[x].waitingForDeps
  }

  /** No service loses its wake-up, or stops waiting for it. */
  ghost predicate StopsKept(s: Sys, s': Sys) {
    && (forall x {:trigger StopAwake(s', x)} :: x in s.svcs && StopAwake(s, x) ==> StopAwake(s', x))
    && (forall x {:trigger Listens(s', x)} :: x in s.svcs && Listens(s, x) ==> Listens(s', x))
  }

  lemma StopsKeptTrans(s: Sys, s1: Sys, s2: Sys)
    requires StopsKept(s, s1) && StopsKept(s1, s2) && s1.svcs.Keys == s.svcs.Keys
    ensures StopsKept(s, s2)
  {
    forall x | x in s.svcs && StopAwake(s, x) ensures StopAwake(s2, x) { assert StopAwake(s1, x); }
    forall x | x in s.svcs && Listens(s, x) ensures Listens(s2, x) { assert Listens(s1, x); }
  }

  ghost predicate StaysUp(s: Sys, s': Sys, y: Sid) {
    && (IsUp(s, y) ==> IsUp(s', y))
    && (y in s'.svcs && ToBringDown(s'.svcs[y]) ==>
          y in s.svcs && ToBringDown(s.svcs[y]) && (s.svcs[y].waitingForDeps ==> s'.svcs[y].waitingForDeps))
  }

  /** What is up stays up, and nothing new is to be brought down. */
  lemma UpKeepsStops(s: Sys, s': Sys)
    requires SameGraph(s, s') && (forall x :: x in s.transQ.elems ==> x in s'.transQ.elems)
    requires forall y {:trigger StaysUp(s, s', y)} :: y in s.svcs ==> StaysUp(s, s', y)
    ensures StopsKept(s, s')
  {
    forall x | x in s.svcs && StopAwake(s, x) ensures StopAwake(s', x) {
      assert StaysUp(s, s', x);
      if UpAbove(s, x) {
        var d :| d in s.deps && s.deps[d].to == x && IsUp(s, s.deps[d].from);
        assert StaysUp(s, s', s.deps[d].from);
        assert d in s'.deps && s'.deps[d].to == x && IsUp(s', s'.deps[d].from);
      }
    }
    forall x | x in s.svcs && Listens(s, x) ensures Listens(s', x) { assert StaysUp(s, s', x); }
  }

  /** Winding down keeps the wake-ups. */
  lemma DownKeepsStops(s: Sys, s': Sys)
    requires Down(s, s')
    ensures StopsKept(s, s')
  {
    forall x | x in s.svcs && StopAwake(s, x) ensures StopAwake(s', x) {
      assert SvcDown(s.svcs[x], s'.svcs[x]) && Orderly(s, s', x);
      if SomeUp(s, s', x) {
        var d :| d in s.deps && s.deps[d].to == x && s.deps[d].IsHard() && IsUp(s', s.deps[d].from);
        assert d in s'.deps && s'.deps[d].to == x && IsUp(s', s'.deps[d].from);
      } else if UpAbove(s, x) {
        var d :| d in s.deps && s.deps[d].to == x && IsUp(s, s.deps[d].from);
        assert SvcDown(s.svcs[s.deps[d].from], s'.svcs[s.deps[d].from]);
        assert d in s'.deps && s'.deps[d].to == x && IsUp(s', s'.deps[d].from);
      }
    }
    forall x | x in s.svcs && Listens(s, x) ensures Listens(s', x) {
      assert SvcDown(s.svcs[x], s'.svcs[x]) && Orderly(s, s', x);
    }
  }

  /** Nothing that the wake-ups of stopping services depend on has changed. */
  ghost predicate SameStates(s: Sys, s': Sys) {
    && SameGraph(s, s') && s'.transQ == s.transQ
    && (forall x {:trigger SameState(s, s', x)} :: x in s.svcs ==> SameState(s, s', x))
  }

  ghost predicate SameState(s: Sys, s': Sys, x: Sid) {
    && x in s.svcs && x in s'.svcs && s'.svcs[x].state == s.svcs[x].state
    && s'.svcs[x].waitingForDeps == s.svcs[x].waitingForDeps && s'.svcs[x].broughtDown == s.svcs[x].broughtDown
  }

  lemma SameStatesTrans(s: Sys, s1: Sys, s2: Sys)
    requires SameStates(s, s1) && SameStates(s1, s2)
    ensures SameStates(s, s2)
  {
    forall x | x in s.svcs ensures SameState(s, s2, x) { assert SameState(s, s1, x) && SameState(s1, s2, x); }
  }

  lemma SameStatesSleep(s: Sys, s': Sys, z: Sid)
    requires SameStates(s, s') && z in s.svcs
    ensures StopAwake(s', z) <==> StopAwake(s, z)
  {
    assert SameState(s, s', z);
    if UpAbove(s, z) {
      var d :| d in s.deps && s.deps[d].to == z && IsUp(s, s.deps[d].from);
      assert SameState(s, s', s.deps[d].from);
      assert d in s'.deps && s'.deps[d].to == z && IsUp(s', s'.deps[d].from);
    }
    if UpAbove(s', z) {
      var d :| d in s'.deps && s'.deps[d].to == z && IsUp(s', s'.deps[d].from);
      assert d in s.deps && s'.deps[d].from in s.svcs && SameState(s, s', s.deps[d].from);
      assert IsUp(s, s.deps[d].from);
    }
  }

  lemma LowerTrans(s: Sys, s1: Sys, s2: Sys)
    requires Lower(s, s1) && Lower(s1, s2)
    ensures Lower(s, s2)
  {
    forall x | x in s.svcs ensures SvcDown(s.svcs[x], s2.svcs[x]) {
      assert SvcDown(s.svcs[x], s1.svcs[x]) && SvcDown(s1.svcs[x], s2.svcs[x]);
    }
    forall x | x in s2.transQ.elems && x !in s.transQ.elems ensures Queues(s, s2, x) {
      QueuesTrans(s, s1, s2, x);
    }
  }

  lemma QueuesTrans(s: Sys, s1: Sys, s2: Sys, x: Sid)
    requires SameGraph(s, s1) && SameGraph(s1, s2) && (Queues(s, s1, x) || Queues(s1, s2, x))
    requires x in s.svcs && x in s1.svcs && x in s2.svcs
    requires SvcDown(s.svcs[x], s1.svcs[x]) && SvcDown(s1.svcs[x], s2.svcs[x])
    requires forall d {:trigger s1.deps[d]} :: d in s.deps ==> DepDown(s.deps[d], s1.deps[d])
    ensures Queues(s, s2, x)
  {
    if Queues(s1, s2, x) && s2.svcs[x].state != STOPPING {
      var d :| d in s1.deps && s1.deps[d].from == x && s1.deps[d].waitingOn;
      assert d in s.deps && s.deps[d].from == x && s.deps[d].waitingOn;
    }
  }

  lemma UpLater(s: Sys, s1: Sys, s2: Sys, x: Sid)
    requires SomeUp(s, s1, x) && Lower(s1, s2)
    ensures SomeUp(s, s2, x)
  {
    var d :| d in s.deps && s.deps[d].to == x && s.deps[d].IsHard() && IsUp(s1, s.deps[d].from);
    var y := s.deps[d].from;
    assert SvcDown(s1.svcs[y], s2.svcs[y]);
    assert IsUp(s2, y);
  }

  lemma UpEarlier(s: Sys, s1: Sys, s2: Sys, x: Sid)
    requires Lower(s, s1) && SomeUp(s1, s2, x)
    ensures SomeUp(s, s2, x)
  {
    var d :| d in s1.deps && s1.deps[d].to == x && s1.deps[d].IsHard() && IsUp(s2, s1.deps[d].from);
    assert DepDown(s.deps[d], s1.deps[d]) && s.deps[d].kind == s1.deps[d].kind && s.deps[d].from == s1.deps[d].from
           && s.deps[d].to == x;
  }

  // ---------------------------------------------------------------- what is added to be propagated

  /** One record: the service is to give up its dependencies only if it lost an acquisition, and is not to fail. */
  predicate LightSvc(u: Service, v: Service) {
    && (PropRelease in v.prop ==> PropRelease in u.prop || v.requiredBy < u.requiredBy)
    && (PropFailure in v.prop ==> PropFailure in u.prop)
  }

  /** An acquisition has gone, or a link is no longer waited on. */
  ghost predicate Undone(s: Sys, s': Sys) {
    || (exists y :: y in s.svcs && y in s'.svcs && s'.svcs[y].requiredBy < s.svcs[y].requiredBy)
    || (exists d :: d in s.deps && d in s'.deps && s.deps[d].waitingOn && !s'.deps[d].waitingOn)
  }

  ghost predicate DependsOnIt(s: Sys, y: Sid, x: Sid) {
    exists d :: d in s.deps && s.deps[d].from == y && s.deps[d].to == x
  }

  ghost predicate ToldAbove(s: Sys, s': Sys, x: Sid, y: Sid) {
    y in s.svcs && y in s'.svcs && PropStop in s'.svcs[y].prop ==> PropStop in s.svcs[y].prop || DependsOnIt(s, y, x)
  }

  /** Little is added to be propagated: unless something has gone, only dependents of `x` are told to stop. */
  ghost predicate Light(s: Sys, s': Sys, x: Sid) {
    && (forall y {:trigger s'.svcs[y]} :: y in s.svcs && y in s'.svcs ==> LightSvc(s.svcs[y], s'.svcs[y]))
    && (Undone(s, s') || forall y {:trigger ToldAbove(s, s', x, y)} :: ToldAbove(s, s', x, y))
  }

  lemma UndoneTrans(s: Sys, s1: Sys, s2: Sys)
    requires Lower(s, s1) && Lower(s1, s2) && (Undone(s, s1) || Undone(s1, s2))
    ensures Undone(s, s2)
  {
    if y :| y in s.svcs && y in s1.svcs && s1.svcs[y].requiredBy < s.svcs[y].requiredBy {
      assert SvcDown(s1.svcs[y], s2.svcs[y]);
    } else if d :| d in s.deps && d in s1.deps && s.deps[d].waitingOn && !s1.deps[d].waitingOn {
      assert DepDown(s1.deps[d], s2.deps[d]);
    } else if y :| y in s1.svcs && y in s2.svcs && s2.svcs[y].requiredBy < s1.svcs[y].requiredBy {
      assert SvcDown(s.svcs[y], s1.svcs[y]);
    } else {
      var d :| d in s1.deps && d in s2.deps && s1.deps[d].waitingOn && !s2.deps[d].waitingOn;
      assert DepDown(s.deps[d], s1.deps[d]);
    }
  }

  lemma LightTrans(s: Sys, s1: Sys, s2: Sys, x: Sid)
    requires Lower(s, s1) && Lower(s1, s2) && Light(s, s1, x) && Light(s1, s2, x)
    ensures Light(s, s2, x)
  {
    forall y | y in s.svcs && y in s2.svcs ensures LightSvc(s.svcs[y], s2.svcs[y]) {
      assert SvcDown(s.svcs[y], s1.svcs[y]) && SvcDown(s1.svcs[y], s2.svcs[y]);
      assert LightSvc(s.svcs[y], s1.svcs[y]) && LightSvc(s1.svcs[y], s2.svcs[y]);
    }
    if Undone(s, s1) || Undone(s1, s2) {
      UndoneTrans(s, s1, s2);
    } else {
      forall y ensures ToldAbove(s, s2, x, y) {
        assert ToldAbove(s, s1, x, y) && ToldAbove(s1, s2, x, y);
        if DependsOnIt(s1, y, x) {
          var d :| d in s1.deps && s1.deps[d].from == y && s1.deps[d].to == x;
          assert s.deps[d].from == y && s.deps[d].to == x;
        }
      }
    }
  }

  /** Nothing is added when no record changes. */
  lemma LightSame(s: Sys, s': Sys, x: Sid)
    requires s'.svcs == s.svcs
    ensures Light(s, s', x)
  {
    forall y ensures ToldAbove(s, s', x, y) { }
  }

  lemma LightStill(s: Sys, x: Sid)
    ensures Down(s, s) && Light(s, s, x)
  {
    LightSame(s, s, x);
    forall y | y in s.svcs ensures Orderly(s, s, y) { }
  }

  /** One record changes. */
  lemma LightOne(s: Sys, s': Sys, x: Sid, y: Sid)
    requires y in s.svcs && y in s'.svcs && s'.svcs == s.svcs[y := s'.svcs[y]] && LightSvc(s.svcs[y], s'.svcs[y])
    requires s'.svcs[y].requiredBy < s.svcs[y].requiredBy || ToldAbove(s, s', x, y)
    ensures Light(s, s', x)
  {
    if s'.svcs[y].requiredBy >= s.svcs[y].requiredBy {
      forall z ensures ToldAbove(s, s', x, z) { }
    }
  }

  /** A change to one record that leaves what is to be propagated, and the count, alone. */
  lemma LightFlags(s: Sys, s': Sys, x: Sid, y: Sid, v: Service)
    requires y in s.svcs && s'.svcs == s.svcs[y := v] && v.prop == s.svcs[y].prop
    ensures Light(s, s', x)
  {
    LightOne(s, s', x, y);
  }

  /** Once something has gone it does not matter who is told to stop. */
  lemma LightAnyway(s: Sys, s': Sys, x: Sid, z: Sid)
    requires Light(s, s', x) && Undone(s, s')
    ensures Light(s, s', z)
  {
  }

  lemma DownExplicit(s: Sys, s': Sys)
    requires Down(s, s')
    ensures Explicit(s') <= Explicit(s)
  {
    forall x | x in Explicit(s') ensures x in Explicit(s) { assert SvcDown(s.svcs[x], s'.svcs[x]); }
  }

  // ---------------------------------------------------------------- single steps

  lemma DownTrans(s: Sys, s1: Sys, s2: Sys)
    requires Down(s, s1) && Down(s1, s2)
    ensures Down(s, s2)
  {
    LowerTrans(s, s1, s2);
    forall x | x in s.svcs ensures Orderly(s, s2, x) {
      assert SvcDown(s.svcs[x], s1.svcs[x]) && SvcDown(s1.svcs[x], s2.svcs[x]);
      assert Orderly(s, s1, x) && Orderly(s1, s2, x);
      if SomeUp(s, s1, x) {
        UpLater(s, s1, s2, x);
      }
      if SomeUp(s1, s2, x) {
        UpEarlier(s, s1, s2, x);
      }
    }
  }

  /** A change to one record that winds down. */
  lemma Change(s: Sys, x: Sid, v: Service, w: Slack)
    requires Inv(s, w) && x in s.svcs && Allowed(s, x, v, w) && SvcDown(s.svcs[x], v) && v.state == s.svcs[x].state
    ensures Inv(PutSvc(s, x, v), w) && Down(s, PutSvc(s, x, v))
  {
    SetService(s, x, v, w);
    forall y | y in s.svcs ensures Orderly(s, PutSvc(s, x, v), y) { }
  }

  /** A change to flags that the invariant does not speak of. */
  ghost predicate Benign(u: Service, v: Service) {
    && SvcDown(u, v) && v.requiredBy == u.requiredBy && v.startExplicit == u.startExplicit && v.prop == u.prop
    && v.state == u.state
  }

  lemma Tweak(s: Sys, x: Sid, v: Service, w: Slack)
    requires Inv(s, w) && x in s.svcs && Benign(s.svcs[x], v)
    ensures Inv(PutSvc(s, x, v), w) && Down(s, PutSvc(s, x, v))
  {
    Change(s, x, v, w);
  }

  lemma QueueDown(s: Sys, s': Sys, x: Sid, w: Slack)
    requires Inv(s, w) && x in s.svcs
    requires s' == QueueProp(s, x) || (s' == QueueTrans(s, x) && s.svcs[x].state == STOPPING)
    ensures Inv(s', w) && Down(s, s')
    ensures s' == QueueProp(s, x) ==> forall y :: y in s'.propQ.elems <==> y in s.propQ.elems || y == x
    ensures s' == QueueTrans(s, x) ==> forall y :: y in s'.transQ.elems <==> y in s.transQ.elems || y == x
  {
    QueueMore(s, s', x, w);
  }

  lemma ClearWaiting(s: Sys, d: Did, w: Slack)
    requires Inv(s, w) && d in s.deps && MayClear(s, d)
    ensures var s' := PutDep(s, d, s.deps[d].(waitingOn := false)); Inv(s', w) && Down(s, s')
  {
    SetWaiting(s, d, false, w);
  }

  method AddPropQueue(s: Sys, x: Sid, ghost w: Slack) returns (s': Sys)
    requires Inv(s, w) && x in s.svcs
    ensures Inv(s', w) && Down(s, s') && s' == s.(propQ := s'.propQ)
    ensures forall y :: y in s'.propQ.elems <==> y in s.propQ.elems || y == x
  {
    s' := QueueProp(s, x);
    QueueDown(s, s', x, w);
  }

  method AddTransitionQueue(s: Sys, x: Sid, ghost w: Slack) returns (s': Sys)
    requires Inv(s, w) && x in s.svcs && s.svcs[x].state == STOPPING
    ensures Inv(s', w) && Down(s, s') && s' == s.(transQ := s'.transQ)
    ensures forall y :: y in s'.transQ.elems <==> y in s.transQ.elems || y == x
  {
    s' := QueueTrans(s, x);
    QueueDown(s, s', x, w);
  }

  /** Nothing but `x` has been added to the propagation queue. */
  ghost predicate MoreQueued(s: Sys, s': Sys, x: Sid) {
    forall y :: y in s'.propQ.elems ==> y in s.propQ.elems || y == x
  }

  /** Mark something to propagate, and queue the service for it. */
  method Mark(s: Sys, x: Sid, f: Prop, ghost w: Slack) returns (s': Sys)
    requires Inv(s, w) && x in s.svcs && f != PropStart && f != PropRequire
    ensures Inv(s', w) && Down(s, s') && MoreQueued(s, s', x) && x in s'.propQ.elems
    ensures s' == PutSvc(s, x, s.svcs[x].(prop := s.svcs[x].prop + {f})).(propQ := s'.propQ)
  {
    var v := s.svcs[x].(prop := s.svcs[x].prop + {f});
    s' := AddPropQueue(s, x, w);
    ghost var s1 := s';
    Change(s', x, v, w);
    s' := PutSvc(s', x, v);
    DownTrans(s, s1, s');
  }

  /** A waited-for dependency is no longer in the way: queue the service if it is waiting. */
  method DependencyStarted(s: Sys, x: Sid, ghost w: Slack) returns (s': Sys)
    requires Inv(s, w) && x in s.svcs
    ensures Inv(s', w) && SameGraph(s, s') && s' == s.(transQ := s'.transQ)
    ensures SomeWaitedOn(s, x) ==> Down(s, s')
    ensures x in s'.transQ.elems <==>
              x in s.transQ.elems
              || ((s.svcs[x].state == STARTING || s.svcs[x].state == STARTED) && s.svcs[x].waitingForDeps)
    ensures forall y :: y in s.transQ.elems ==> y in s'.transQ.elems
    ensures forall y :: y in s'.transQ.elems ==> y in s.transQ.elems || y == x
  {
    s' := s;
    if (s.svcs[x].state == STARTING || s.svcs[x].state == STARTED) && s.svcs[x].waitingForDeps {
      s' := QueueTrans(s, x);
      QueueMore(s, s', x, w);
    }
  }

  /** A link is no longer waited on, and the dependent is told. */
  method Unblock(s: Sys, d: Did, ghost w: Slack) returns (s': Sys)
    requires Inv(s, w) && d in s.deps && s.deps[d].from in s.svcs && s.deps[d].waitingOn
    ensures Inv(s', w) && Down(s, s')
    ensures s'.svcs == s.svcs && s'.deps == s.deps[d := s.deps[d].(waitingOn := false)]
    ensures MayClear(s', d) && s'.propQ == s.propQ && s'.consoleQ == s.consoleQ
    ensures forall y :: y in s'.transQ.elems ==>
              y in s.transQ.elems || (y == s.deps[d].from && s.svcs[y].waitingForDeps)
  {
    s' := DependencyStarted(s, s.deps[d].from, w);
    ghost var s1 := s';
    ClearWaiting(s', d, w);
    s' := PutDep(s', d, s.deps[d].(waitingOn := false));
    DownTrans(s, s1, s');
  }

  function LessOne(s: Sys, x: Sid): Sys
    requires x in s.svcs
  {
    PutSvc(s, x, s.svcs[x].(requiredBy := s.svcs[x].requiredBy - 1))
  }

  lemma LessOneDown(s: Sys, x: Sid)
    requires x in s.svcs
    ensures Down(s, LessOne(s, x))
  {
    forall y | y in s.svcs ensures Orderly(s, LessOne(s, x), y) { }
  }

  function LetGo(s: Sys, d: Did): Sys
    requires d in s.deps
  {
    PutDep(s, d, s.deps[d].(holdingAcq := false))
  }

  lemma LetGoKeeps(s: Sys, d: Did, w: Slack)
    requires Inv(s, w) && d in s.deps && DepOK(s, d) && s.deps[d].holdingAcq
    ensures Inv(LessOne(LetGo(s, d), s.deps[d].to), w)
    ensures Down(s, LetGo(s, d))
  {
    var y := s.deps[d].to;
    assert LinksOK(s, y);
    SetHold(s, d, false, -1, 0, w);
    assert s.doubled[y := s.doubled[y] + 0] == s.doubled;
    assert Rehold(s, d, false, -1, 0) == LessOne(LetGo(s, d), y);
  }

  function NotExplicit(s: Sys, x: Sid): Sys
    requires x in s.svcs
  {
    PutSvc(s, x, s.svcs[x].(startExplicit := false))
  }

  lemma NotExplicitKeeps(s: Sys, x: Sid, w: Slack)
    requires Inv(s, w) && x in s.svcs && s.svcs[x].startExplicit
    ensures Inv(LessOne(NotExplicit(s, x), x), w)
  {
    var v := s.svcs[x].(startExplicit := false, requiredBy := s.svcs[x].requiredBy - 1);
    SetService(s, x, v, w);
    NotExplicitLess(s, x);
  }

  lemma NotExplicitLess(s: Sys, x: Sid)
    requires x in s.svcs
    ensures LessOne(NotExplicit(s, x), x) ==
            PutSvc(s, x, s.svcs[x].(startExplicit := false, requiredBy := s.svcs[x].requiredBy - 1))
  {
    PutTwice(s, x, s.svcs[x].(startExplicit := false),
             s.svcs[x].(startExplicit := false, requiredBy := s.svcs[x].requiredBy - 1));
  }

  lemma NotExplicitDown(s: Sys, x: Sid)
    requires x in s.svcs && s.svcs[x].startExplicit
    ensures Down(s, NotExplicit(s, x)) && Explicit(NotExplicit(s, x)) < Explicit(s)
  {
    NotExplicitIs(s.svcs[x]);
    LowerOne(s, x, s.svcs[x].(startExplicit := false));
    forall y | y in s.svcs ensures Orderly(s, NotExplicit(s, x), y) { }
    FewerExplicit(s, x);
  }

  lemma NotExplicitIs(v: Service)
    ensures SvcDown(v, v.(startExplicit := false)) && v.(startExplicit := false).state == v.state
  {
  }

  lemma FewerExplicit(s: Sys, x: Sid)
    requires x in s.svcs && s.svcs[x].startExplicit
    ensures Explicit(NotExplicit(s, x)) < Explicit(s)
  {
    assert x in Explicit(s) && x !in Explicit(NotExplicit(s, x));
  }

  /** Nothing requires the service any more: aim for STOPPED and, unless pinned, give up the
      dependencies, or forget that they were about to be acquired. */
  function Unwanted(v: Service): Service {
    v.(desired := STOPPED, prop := GivenUp(v))
  }

  function GivenUp(v: Service): set<Prop> {
    if v.IsStartPinned() then v.prop
    else if PropRequire in v.prop then v.prop - {PropRequire, PropRelease}
    else v.prop + {PropRelease}
  }

  lemma UnwantedKeeps(s: Sys, x: Sid, w: Slack)
    requires Inv(s, w) && x in s.svcs
             && (!s.svcs[x].IsStartPinned() && PropRequire !in s.svcs[x].prop ==> x in s.propQ.elems)
    ensures Inv(PutSvc(s, x, Unwanted(s.svcs[x])), w) && Down(s, PutSvc(s, x, Unwanted(s.svcs[x])))
  {
    Change(s, x, Unwanted(s.svcs[x]), w);
  }

  /** One acquisition less. */
  function LessWanted(v: Service): Service {
    v.(requiredBy := v.requiredBy - 1,
       desired := if v.requiredBy == 1 then STOPPED else v.desired,
       prop := if v.requiredBy == 1 then GivenUp(v) else v.prop)
  }

  method Unrequired(s: Sys, x: Sid, ghost w: Slack) returns (s': Sys)
    requires Inv(s, w) && x in s.svcs
    ensures Inv(s', w) && Down(s, s') && MoreQueued(s, s', x)
    ensures s' == PutSvc(s, x, Unwanted(s.svcs[x])).(propQ := s'.propQ)
    ensures s.svcs[x].IsStartPinned() ==> s'.propQ == s.propQ
  {
    s' := s;
    if !s.svcs[x].IsStartPinned() && PropRequire !in s.svcs[x].prop {
      s' := AddPropQueue(s, x, w);
    }
    ghost var s1 := s';
    UnwantedKeeps(s', x, w);
    s' := PutSvc(s', x, Unwanted(s.svcs[x]));
    DownTrans(s, s1, s');
  }

  /** Stop by force, now or once the pin is gone. */
  function Forced(v: Service): Service {
    v.(forceStop := true, prop := if v.IsStartPinned() then v.prop else v.prop + {PropStop})
  }

  lemma ForcedIs(v: Service)
    ensures SvcDown(v, Forced(v)) && LightSvc(v, Forced(v)) && Forced(v).state == v.state
    ensures Forced(v).requiredBy == v.requiredBy && Forced(v).startExplicit == v.startExplicit
    ensures Forced(v).waitingForDeps == v.waitingForDeps
    ensures forall f :: f in Forced(v).prop ==> f in v.prop || (f == PropStop && !v.IsStartPinned())
  {
  }

  method ForcedStop(s: Sys, x: Sid, ghost w: Slack) returns (s': Sys)
    requires Inv(s, w) && x in s.svcs
    ensures Inv(s', w) && Down(s, s')
    ensures s' == if s.svcs[x].state == STOPPED then s else PutSvc(s, x, Forced(s.svcs[x])).(propQ := s'.propQ)
    ensures MoreQueued(s, s', x) && LightSvc(s.svcs[x], s'.svcs[x]) && s'.svcs == s.svcs[x := s'.svcs[x]]
  {
    s' := s;
    SameRecord(s, x);
    ForcedIs(s.svcs[x]);
    if s.svcs[x].state != STOPPED {
      s' := ForceIt(s, x, w);
    }
  }

  method ForceIt(s: Sys, x: Sid, ghost w: Slack) returns (s': Sys)
    requires Inv(s, w) && x in s.svcs
    ensures Inv(s', w) && Down(s, s') && s' == PutSvc(s, x, Forced(s.svcs[x])).(propQ := s'.propQ)
    ensures MoreQueued(s, s', x)
  {
    s' := s;
    if !s.svcs[x].IsStartPinned() {
      s' := AddPropQueue(s, x, w);
    }
    ghost var s1 := s';
    ForcedIs(s.svcs[x]);
    Change(s', x, Forced(s.svcs[x]), w);
    s' := PutSvc(s', x, Forced(s.svcs[x]));
    DownTrans(s, s1, s');
  }

  lemma SameRecord(s: Sys, x: Sid)
    requires x in s.svcs
    ensures PutSvc(s, x, s.svcs[x]) == s
  {
    assert s.svcs[x := s.svcs[x]] == s.svcs;
  }

  method UnrecoverableStop(s: Sys, x: Sid, ghost w: Slack) returns (s': Sys)
    requires Inv(s, w) && x in s.svcs
    ensures Inv(s', w) && Down(s, s') && s'.deps == s.deps && s'.svcs == s.svcs[x := s'.svcs[x]]
    ensures LightSvc(s.svcs[x], s'.svcs[x]) && s'.svcs[x] == var v := Aimed(s.svcs[x]);
            if v.state == STOPPED then v else Forced(v)
    ensures s.svcs[x].state == STOPPED && s.svcs[x].desired == STOPPED ==> s' == s
  {
    s' := AimDown(s, x, w);
    ghost var s1 := s';
    SameRecord(s, x);
    AimedIs(s.svcs[x]);
    ForcedIs(s1.svcs[x]);
    if s.svcs[x].state != STOPPED {
      s' := ForceIt(s', x, w);
      DownTrans(s, s1, s');
      PutTwice(s, x, s1.svcs[x], s'.svcs[x]);
    }
  }

  method AimDown(s: Sys, x: Sid, ghost w: Slack) returns (s': Sys)
    requires Inv(s, w) && x in s.svcs
    ensures Inv(s', w) && Down(s, s') && s' == PutSvc(s, x, Aimed(s.svcs[x]))
  {
    AimedIs(s.svcs[x]);
    Tweak(s, x, Aimed(s.svcs[x]), w);
    s' := PutSvc(s, x, Aimed(s.svcs[x]));
  }

  function Aimed(v: Service): Service {
    v.(desired := STOPPED)
  }

  lemma AimedIs(v: Service)
    ensures Benign(v, Aimed(v)) && LightSvc(v, Aimed(v)) && Aimed(v).prop == v.prop
    ensures v.desired == STOPPED ==> Aimed(v) == v
  {
  }

  // ---------------------------------------------------------------- releasing and stopping

  /** Give back an acquisition; after the last one the service may be told to stop. */
  method Release(s: Sys, x: Sid, issueStop: bool, ghost w: Slack) returns (s': Sys)
    requires x in s.svcs && Inv(LessOne(s, x), w)
    ensures Inv(s', w) && Down(s, s') && Light(s, s', x) && s'.svcs[x].requiredBy < s.svcs[x].requiredBy
    ensures s.svcs[x].requiredBy == 1 ==> s'.svcs[x].desired == STOPPED
    ensures !(issueStop && StopsThen(s.svcs[x])) ==>
              s' == PutSvc(s, x, LessWanted(s.svcs[x])).(propQ := s'.propQ) && MoreQueued(s, s', x)
    ensures !issueStop && s.svcs[x].IsStartPinned() ==> s'.propQ == s.propQ
    ensures issueStop && StopsThen(s.svcs[x]) && s.svcs[x].state == STARTED ==> s'.svcs[x].state == STOPPING
    ensures issueStop && StopsThen(s.svcs[x]) && StopsQuietly(LessOneWanted(s, x), x) ==> QuietRelease(s, s', x)
    decreases Explicit(s), if issueStop then 3 else 0
  {
    s' := ReleaseOne(s, x, w);
    LightOne(s, s', x, x);
    if issueStop && StopsThen(s.svcs[x]) {
      ghost var s1 := s';
      DownExplicit(s, s1);
      s' := DoStop(s', x, false, w);
      DownTrans(s, s1, s');
      LightTrans(s, s1, s', x);
      if StopsQuietly(LessOneWanted(s, x), x) {
        ReleasedQuietly(s, s1, s', x);
      }
    }
  }

  function LessOneWanted(s: Sys, x: Sid): Sys
    requires x in s.svcs
  {
    PutSvc(s, x, LessWanted(s.svcs[x]))
  }

  /** The last acquisition is given back, and only the service itself changes. */
  ghost predicate QuietRelease(s: Sys, s': Sys, x: Sid) {
    x in s.svcs && MoreQueued(s, s', x) && QuietStop(LessOneWanted(s, x), s'.(propQ := s.propQ), x)
  }

  lemma ReleasedQuietly(s: Sys, s1: Sys, s': Sys, x: Sid)
    requires x in s.svcs && s1 == LessOneWanted(s, x).(propQ := s1.propQ) && MoreQueued(s, s1, x)
    requires StopsQuietly(s1, x) ==> QuietStop(s1, s', x)
    requires StopsQuietly(LessOneWanted(s, x), x)
    ensures QuietRelease(s, s', x)
  {
    var t := LessOneWanted(s, x);
    forall d | d in s1.deps && s1.deps[d].to == x ensures Agrees(s1, x, d) { assert Agrees(t, x, d); }
    assert AllDown(s1, x) <==> AllDown(t, x);
  }

  // ---------------------------------------------------------------- stopping when nobody has to be told

  /** A dependent at the other end of a strict link that is to stop anyway, so that it need not be told. */
  ghost predicate Agrees(s: Sys, x: Sid, d: Did) {
    && d in s.deps && s.deps[d].kind == REGULAR && s.deps[d].from in s.svcs && s.deps[d].from != x && x in s.svcs
    && s.svcs[s.deps[d].from].desired == STOPPED && (s.svcs[s.deps[d].from].state == STOPPED || !s.svcs[x].forceStop)
  }

  ghost predicate AllAgree(s: Sys, x: Sid) {
    && x in s.svcs && s.svcs[x].desired == STOPPED
    && forall d {:trigger Agrees(s, x, d)} :: d in s.deps && s.deps[d].to == x ==> Agrees(s, x, d)
  }

  /** All dependents are down. */
  ghost predicate AllDown(s: Sys, x: Sid) {
    forall d :: d in s.deps && s.deps[d].to == x && s.deps[d].from in s.svcs ==>
      FundamentallyStopped(s.svcs[s.deps[d].from])
  }

  /** No restart is under way. */
  function Settle(v: Service): Service {
    v.(inAutoRestart := false, inUserRestart := false)
  }

  function Stopping(v: Service, wait: bool, told: bool): Service {
    v.(state := STOPPING, waitingForDeps := wait, broughtDown := told)
  }

  /** Only the service itself changes. */
  ghost predicate QuietStop(s: Sys, s': Sys, x: Sid) {
    && x in s.svcs
    && (s.svcs[x].state == STARTED ==>
          s' == PutSvc(s, x, Stopping(Settle(s.svcs[x]), !AllDown(s, x), false)).(transQ := s'.transQ))
    && (s.svcs[x].state == STOPPING ==> s' == PutSvc(s, x, Settle(s.svcs[x])))
    && (forall y :: y in s'.transQ.elems <==>
          y in s.transQ.elems || (y == x && s.svcs[x].state == STARTED && AllDown(s, x)))
  }

  /** Whether the last acquisition going stops the service. */
  predicate StopsThen(v: Service) {
    v.requiredBy == 1 && !v.IsStartPinned() && v.state != STOPPED && v.state != STOPPING
  }

  method ReleaseOne(s: Sys, x: Sid, ghost w: Slack) returns (s': Sys)
    requires x in s.svcs && Inv(LessOne(s, x), w)
    ensures Inv(s', w) && Down(s, s') && MoreQueued(s, s', x)
    ensures s' == PutSvc(s, x, LessWanted(s.svcs[x])).(propQ := s'.propQ)
    ensures s.svcs[x].IsStartPinned() ==> s'.propQ == s.propQ
  {
    s' := LessOne(s, x);
    ghost var s1 := s';
    LessOneDown(s, x);
    if s'.svcs[x].requiredBy == 0 {
      s' := Unrequired(s', x, w);
      PutTwice(s, x, s1.svcs[x], s'.svcs[x]);
      DownTrans(s, s1, s');
    }
  }

  /** Stop, now or when the dependents have: every dependent is told. */
  method DoStop(s: Sys, x: Sid, withRestart: bool, ghost w: Slack) returns (s': Sys)
    requires x in s.svcs && Inv(s, w)
    ensures Inv(s', w) && Down(s, s') && Light(s, s', x)
    ensures s.svcs[x].IsStartPinned() ==> s' == s
    ensures !s.svcs[x].IsStartPinned() && s.svcs[x].state == STARTED ==> s'.svcs[x].state == STOPPING
    ensures !s.svcs[x].IsStartPinned() ==>
              forall d :: d in s.deps && s.deps[d].to == x ==>
                Told(s, s', x, d, ForRestart(s.svcs[x], withRestart, true), withRestart)
    ensures StopsQuietly(s, x) && !withRestart ==> QuietStop(s, s', x)
    decreases Explicit(s), 2
  {
    s' := s;
    if s.svcs[x].IsStartPinned() {
      LightSame(s, s', x);
      return;
    }
    s' := StopHere(s, x, withRestart, w);
  }

  method StopHere(s: Sys, x: Sid, withRestart: bool, ghost w: Slack) returns (s': Sys)
    requires x in s.svcs && Inv(s, w) && !s.svcs[x].IsStartPinned()
    ensures Inv(s', w) && Down(s, s') && Light(s, s', x)
    ensures s.svcs[x].state == STARTED ==> s'.svcs[x].state == STOPPING
    ensures forall d :: d in s.deps && s.deps[d].to == x ==>
              Told(s, s', x, d, ForRestart(s.svcs[x], withRestart, true), withRestart)
    ensures StopsQuietly(s, x) && !withRestart ==> QuietStop(s, s', x)
    decreases Explicit(s), 1, 5
  {
    var forRestart, all;
    s', forRestart := PrepareStop(s, x, withRestart, w);
    ghost var s1 := s';
    DownExplicit(s, s1);
    s', all := StopDependents(s', x, forRestart, withRestart, w);
    ghost var s2 := s';
    DownTrans(s, s1, s2);
    LightTrans(s, s1, s2, x);
    if !all {
      UpEarlier(s, s1, s2, x);
    }
    assert SvcDown(s.svcs[x], s2.svcs[x]);
    s' := StopSelf(s', x, all, s, w);
    LightTrans(s, s2, s', x);
    ToldThroughout(s, s1, s2, s', x, ForRestart(s.svcs[x], withRestart, true), withRestart);
    if StopsQuietly(s, x) && !withRestart {
      StillAgree(s, s1, x);
      StoppedQuietly(s, s1, s', x, all);
    }
  }

  lemma ToldThroughout(s: Sys, s1: Sys, s2: Sys, s': Sys, x: Sid, forRestart: bool, restartDeps: bool)
    requires Lower(s, s1) && Lower(s, s2) && Lower(s2, s')
    requires forall d :: d in s1.deps && s1.deps[d].to == x ==> Told(s1, s2, x, d, forRestart, restartDeps)
    ensures forall d :: d in s.deps && s.deps[d].to == x ==> Told(s, s', x, d, forRestart, restartDeps)
  {
    forall d | d in s.deps && s.deps[d].to == x ensures Told(s, s', x, d, forRestart, restartDeps) {
      assert s1.deps[d].to == x;
      assert Told(s1, s2, x, d, forRestart, restartDeps);
      ToldEarlier(s, s1, s2, x, d, forRestart, restartDeps);
      ToldLater(s, s2, s', x, d, forRestart, restartDeps);
    }
  }

  /** A service that is started or stopping, is not to come back, and has nobody to tell. */
  ghost predicate StopsQuietly(s: Sys, x: Sid) {
    && AllAgree(s, x) && !s.svcs[x].startExplicit && !s.svcs[x].IsStartPinned()
    && (s.svcs[x].state == STARTED || s.svcs[x].state == STOPPING)
  }

  lemma StillAgree(s: Sys, s1: Sys, x: Sid)
    requires AllAgree(s, x) && s1 == PutSvc(s, x, Settle(s.svcs[x]))
    ensures AllAgree(s1, x) && (AllDown(s1, x) <==> AllDown(s, x))
  {
    forall d | d in s1.deps && s1.deps[d].to == x ensures Agrees(s1, x, d) { assert Agrees(s, x, d); }
    assert forall d :: d in s.deps && s.deps[d].to == x ==> s1.svcs[s.deps[d].from] == s.svcs[s.deps[d].from] by {
      forall d | d in s.deps && s.deps[d].to == x ensures s1.svcs[s.deps[d].from] == s.svcs[s.deps[d].from] {
        assert Agrees(s, x, d);
      }
    }
  }

  lemma StoppedQuietly(s: Sys, s1: Sys, s': Sys, x: Sid, all: bool)
    requires x in s.svcs && (s.svcs[x].state == STARTED || s.svcs[x].state == STOPPING) && (all <==> AllDown(s, x))
    requires s1 == PutSvc(s, x, Settle(s.svcs[x]))
    requires s1.svcs[x].state == STOPPING ==> s' == s1
    requires s1.svcs[x].state == STARTED ==> StoppedOnly(s1, s', x, all)
    ensures QuietStop(s, s', x)
  {
    PutTwice(s, x, s1.svcs[x], Stopping(s1.svcs[x], !all, false));
  }

  /** Decide whether the service is to come back; if not, it loses its explicit activation. */
  method PrepareStop(s: Sys, x: Sid, withRestart: bool, ghost w: Slack) returns (s': Sys, forRestart: bool)
    requires x in s.svcs && Inv(s, w)
    ensures Inv(s', w) && Down(s, s') && Light(s, s', x)
    ensures forRestart ==> ForRestart(s.svcs[x], withRestart, true)
    ensures !forRestart ==> !s'.svcs[x].startExplicit
    ensures !s.svcs[x].startExplicit && s.svcs[x].desired == STOPPED && !withRestart ==>
              !forRestart && s' == PutSvc(s, x, Settle(s.svcs[x]))
    decreases Explicit(s), 1, 4
  {
    var allowed := *;
    forRestart := ForRestart(s.svcs[x], withRestart, allowed);
    var v := Planned(s.svcs[x], withRestart, allowed);
    Tweak(s, x, v, w);
    s' := PutSvc(s, x, v);
    ghost var s1 := s';
    DownExplicit(s, s1);
    LightOne(s, s1, x, x);
    if !forRestart && s'.svcs[x].startExplicit {
      s' := DropExplicit(s', x, false, w);
      DownTrans(s, s1, s');
      LightTrans(s, s1, s', x);
    }
  }

  /** Whether the service is to come back after this stop; the rate limiter may refuse. */
  predicate ForRestart(v: Service, withRestart: bool, allowed: bool) {
    withRestart || (v.autoRestart && v.desired == STARTED && allowed)
  }

  /** A refusal also changes the target. */
  function Planned(v: Service, withRestart: bool, allowed: bool): (r: Service) {
    var refused := !withRestart && v.autoRestart && v.desired == STARTED && !allowed;
    v.(desired := if refused then STOPPED else v.desired,
       inAutoRestart := ForRestart(v, withRestart, allowed) && !withRestart,
       inUserRestart := false)
  }

  /** What a dependent has been told when the service at the other end of the link is to stop. */
  ghost predicate Told(s: Sys, s': Sys, x: Sid, d: Did, forRestart: bool, restartDeps: bool) {
    && x in s.svcs && x in s'.svcs && d in s.deps && d in s'.deps && s.deps[d].from in s.svcs
    && s.deps[d].from in s'.svcs
    && var y := s.deps[d].from;
       && (!s.deps[d].IsHard() && !forRestart ==> !s'.deps[d].waitingOn && !s'.deps[d].holdingAcq)
       && (s'.deps[d].IsHard() && s.svcs[y].state != STOPPED ==>
             && (s.svcs[x].desired == STOPPED ==> s'.svcs[y].desired == STOPPED)
             && (s.svcs[x].forceStop ==>
                   s'.svcs[y].forceStop && (!s.svcs[y].IsStartPinned() ==> PropStop in s'.svcs[y].prop))
             && (restartDeps && s'.svcs[x].desired != STOPPED && s'.svcs[y].state != STOPPING ==>
                   PropStop in s'.svcs[y].prop))
  }

  lemma ToldLater(s: Sys, s1: Sys, s2: Sys, x: Sid, d: Did, forRestart: bool, restartDeps: bool)
    requires Told(s, s1, x, d, forRestart, restartDeps) && Lower(s, s1) && Lower(s1, s2)
    ensures Told(s, s2, x, d, forRestart, restartDeps)
  {
    var y := s.deps[d].from;
    assert SvcDown(s1.svcs[y], s2.svcs[y]) && SvcDown(s1.svcs[x], s2.svcs[x]) && DepDown(s1.deps[d], s2.deps[d]);
    assert s2.deps[d].kind == s1.deps[d].kind;
  }

  lemma ToldEarlier(s: Sys, s1: Sys, s2: Sys, x: Sid, d: Did, forRestart: bool, restartDeps: bool)
    requires Lower(s, s1) && Told(s1, s2, x, d, forRestart, restartDeps)
    ensures Told(s, s2, x, d, forRestart, restartDeps)
  {
    var y := s1.deps[d].from;
    assert SvcDown(s.svcs[y], s1.svcs[y]) && SvcDown(s.svcs[x], s1.svcs[x]) && DepDown(s.deps[d], s1.deps[d]);
    assert s.deps[d].kind == s1.deps[d].kind && s.deps[d].from == y;
  }

  /** Tell the dependents to stop, or break the link where the dependency is soft. */
  method StopDependents(s: Sys, x: Sid, forRestart: bool, restartDeps: bool, ghost w: Slack)
    returns (s': Sys, all: bool)
    requires x in s.svcs && Inv(s, w)
    ensures Inv(s', w) && Down(s, s') && Light(s, s', x)
    ensures forall d :: d in s.deps && s.deps[d].to == x ==> Told(s, s', x, d, forRestart, restartDeps)
    ensures all ==> forall d :: d in s.deps && s.deps[d].to == x ==> StrictStopped(s, s', d)
    ensures !all ==> SomeUp(s, s', x)
    ensures AllAgree(s, x) ==> s' == s && (all <==> AllDown(s, x))
    decreases Explicit(s), 1, 3
  {
    s', all := s, true;
    assert LinksOK(s, x);
    var ds := s.dependents[x];
    LightSame(s, s', x);
    for i := 0 to |ds|
      invariant Inv(s', w) && Down(s, s') && Light(s, s', x)
      invariant forall j :: 0 <= j < i ==> Told(s, s', x, ds[j], forRestart, restartDeps)
      invariant if all then forall j :: 0 <= j < i ==> StrictStopped(s, s', ds[j]) else SomeUp(s, s', x)
      invariant AllAgree(s, x) ==> s' == s
    {
      ghost var s1 := s';
      DownExplicit(s, s1);
      assert ds[i] in s.dependents[x];
      assert AllAgree(s, x) ==> Agrees(s, x, ds[i]);
      var stopped;
      s', stopped := StopDependent(s', x, ds[i], forRestart, restartDeps, w);
      DownTrans(s, s1, s');
      LightTrans(s, s1, s', x);
      StopProgress(s, s1, s', x, ds, i, forRestart, restartDeps, all, stopped);
      all := all && stopped;
    }
    forall d | d in s.deps && s.deps[d].to == x
      ensures Told(s, s', x, d, forRestart, restartDeps) && (all ==> StrictStopped(s, s', d))
    {
      assert DepOK(s, d);
      var j :| 0 <= j < |ds| && ds[j] == d;
      assert Told(s, s', x, ds[j], forRestart, restartDeps);
      assert all ==> StrictStopped(s, s', ds[j]);
    }
    if AllAgree(s, x) {
      AgreedDown(s, x, all);
    }
  }

  lemma AgreedDown(s: Sys, x: Sid, all: bool)
    requires AllAgree(s, x) && (!all ==> SomeUp(s, s, x))
    requires all ==> forall d :: d in s.deps && s.deps[d].to == x ==> StrictStopped(s, s, d)
    ensures all <==> AllDown(s, x)
  {
    if all {
      forall d | d in s.deps && s.deps[d].to == x && s.deps[d].from in s.svcs
        ensures FundamentallyStopped(s.svcs[s.deps[d].from]) {
        assert Agrees(s, x, d) && StrictStopped(s, s, d);
      }
    }
  }

  lemma StopProgress(s: Sys, s1: Sys, s2: Sys, x: Sid, ds: seq<Did>, i: nat, forRestart: bool, restartDeps: bool,
                     all: bool, stopped: bool)
    requires Down(s, s1) && Down(s1, s2) && i < |ds| && ds[i] in s.deps && s.deps[ds[i]].to == x
    requires forall j :: 0 <= j < i ==> Told(s, s1, x, ds[j], forRestart, restartDeps)
    requires if all then forall j :: 0 <= j < i ==> StrictStopped(s, s1, ds[j]) else SomeUp(s, s1, x)
    requires Told(s1, s2, x, ds[i], forRestart, restartDeps)
    requires if stopped then StrictStopped(s1, s2, ds[i]) else s1.deps[ds[i]].IsHard() && IsUp(s1, s1.deps[ds[i]].from)
    ensures forall j :: 0 <= j < i + 1 ==> Told(s, s2, x, ds[j], forRestart, restartDeps)
    ensures if all && stopped then forall j :: 0 <= j < i + 1 ==> StrictStopped(s, s2, ds[j]) else SomeUp(s, s2, x)
  {
    forall j | 0 <= j < i + 1 ensures Told(s, s2, x, ds[j], forRestart, restartDeps) {
      if j < i {
        ToldLater(s, s1, s2, x, ds[j], forRestart, restartDeps);
      } else {
        ToldEarlier(s, s1, s2, x, ds[i], forRestart, restartDeps);
      }
    }
    if all && stopped {
      forall j | 0 <= j < i + 1 ensures StrictStopped(s, s2, ds[j]) {
        assert j < i ==> StrictStopped(s, s1, ds[j]);
        StoppedBefore(s, s1, s2, ds[j]);
      }
    } else {
      if all {
        assert DepDown(s.deps[ds[i]], s1.deps[ds[i]]) && s1.deps[ds[i]].kind == s.deps[ds[i]].kind;
      }
      UpLater(s, s1, s2, x);
    }
  }

  lemma StoppedBefore(s: Sys, s1: Sys, s2: Sys, d: Did)
    requires Down(s, s1) && Down(s1, s2) && d in s.deps && (StrictStopped(s, s1, d) || StrictStopped(s1, s2, d))
    ensures StrictStopped(s, s2, d)
  {
    var y := s.deps[d].from;
    assert y in s.svcs ==> SvcDown(s.svcs[y], s1.svcs[y]);
    assert DepDown(s1.deps[d], s2.deps[d]) && s2.deps[d].kind == s1.deps[d].kind == s.deps[d].kind
           && s1.deps[d].from == y;
  }

  /** A dependent that is still strict afterwards was stopped, or had not begun to start. */
  ghost predicate StrictStopped(s: Sys, s': Sys, d: Did) {
    d in s.deps && d in s'.deps && s'.deps[d].IsHard() && s.deps[d].from in s.svcs ==>
      FundamentallyStopped(s.svcs[s.deps[d].from])
  }

  method StopDependent(s: Sys, x: Sid, d: Did, forRestart: bool, restartDeps: bool, ghost w: Slack)
    returns (s': Sys, stopped: bool)
    requires x in s.svcs && Inv(s, w) && d in s.deps && s.deps[d].to == x
    ensures Inv(s', w) && Down(s, s') && Light(s, s', x) && Told(s, s', x, d, forRestart, restartDeps)
    ensures if stopped then StrictStopped(s, s', d) else s.deps[d].IsHard() && IsUp(s, s.deps[d].from)
    ensures Agrees(s, x, d) && s.svcs[x].desired == STOPPED ==> s' == s
    decreases Explicit(s), 1, 2
  {
    s', stopped := s, true;
    LightSame(s, s', x);
    assert DepOK(s, d);
    if s.deps[d].IsHard() {
      stopped := FundamentallyStopped(s.svcs[s.deps[d].from]);
      s' := StopStrict(s, x, d, forRestart, restartDeps, w);
    } else if !forRestart {
      s' := BreakSoft(s, d, w);
      assert DepDown(s.deps[d], s'.deps[d]) && s'.deps[d].kind == s.deps[d].kind;
    }
  }

  method StopStrict(s: Sys, x: Sid, d: Did, ghost forRestart: bool, restartDeps: bool, ghost w: Slack) returns (s': Sys)
    requires x in s.svcs && Inv(s, w) && d in s.deps && s.deps[d].to == x && s.deps[d].IsHard()
             && s.deps[d].from in s.svcs
    ensures Inv(s', w) && Down(s, s') && Light(s, s', x) && Told(s, s', x, d, forRestart, restartDeps)
    ensures Agrees(s, x, d) && s.svcs[x].desired == STOPPED ==> s' == s
    decreases Explicit(s), 1, 1, 1
  {
    var y := s.deps[d].from;
    assert DependsOnIt(s, y, x);
    s' := ForceDependent(s, x, y, w);
    ghost var s1 := s';
    DownExplicit(s, s1);
    assert s1.deps[d].from == y && s1.deps[d].to == x && DependsOnIt(s1, y, x);
    s' := AskDependent(s', x, y, restartDeps, w);
    DownTrans(s, s1, s');
    LightTrans(s, s1, s', x);
    assert SvcDown(s.svcs[x], s1.svcs[x]) && SvcDown(s.svcs[y], s1.svcs[y]) && SvcDown(s1.svcs[y], s'.svcs[y]);
  }

  /** A dependent comes down for good if the service does, and restarts with it if that is asked for. */
  method AskDependent(s: Sys, x: Sid, y: Sid, restartDeps: bool, ghost w: Slack) returns (s': Sys)
    requires x in s.svcs && y in s.svcs && Inv(s, w) && DependsOnIt(s, y, x)
    ensures Inv(s', w) && Down(s, s') && Light(s, s', x)
    ensures s.svcs[y].state != STOPPED && s.svcs[x].desired == STOPPED ==> s'.svcs[y].desired == STOPPED
    ensures restartDeps && s'.svcs[x].desired != STOPPED && s'.svcs[y].state != STOPPED
            && s'.svcs[y].state != STOPPING ==>
              PropStop in s'.svcs[y].prop
    ensures s.svcs[x].desired == STOPPED && s.svcs[y].desired == STOPPED ==> s' == s
    decreases Explicit(s), 1, 1, 0
  {
    s' := s;
    LightStill(s, x);
    if s.svcs[y].state != STOPPED {
      if s.svcs[x].desired == STOPPED {
        if s.svcs[y].desired != STOPPED {
          s' := StopForGood(s, x, y, w);
        }
        assert SvcDown(s.svcs[x], s'.svcs[x]);
      } else if restartDeps && s.svcs[y].state != STOPPING {
        s' := RestartDependent(s, x, y, w);
      }
    }
    assert SvcDown(s.svcs[y], s'.svcs[y]);
  }

  method ForceDependent(s: Sys, x: Sid, y: Sid, ghost w: Slack) returns (s': Sys)
    requires x in s.svcs && y in s.svcs && Inv(s, w) && DependsOnIt(s, y, x)
    ensures Inv(s', w) && Down(s, s') && s'.deps == s.deps && Light(s, s', x)
    ensures s.svcs[x].forceStop && s.svcs[y].state != STOPPED ==>
              s'.svcs[y].forceStop && (!s.svcs[y].IsStartPinned() ==> PropStop in s'.svcs[y].prop)
    ensures s.svcs[x].forceStop && s.svcs[x].desired == STOPPED ==> s'.svcs[y].desired == STOPPED
    ensures !s.svcs[x].forceStop || (s.svcs[y].state == STOPPED && s.svcs[y].desired == STOPPED) ==> s' == s
  {
    s' := s;
    LightStill(s, x);
    if s.svcs[x].forceStop {
      if s.svcs[x].desired == STOPPED {
        s' := UnrecoverableStop(s, y, w);
      } else {
        s' := ForcedStop(s, y, w);
      }
      LightOne(s, s', x, y);
    }
  }

  /** A dependent that must not come back: its target is STOPPED and its activation is gone. */
  method GiveUp(s: Sys, ghost x: Sid, y: Sid, ghost w: Slack) returns (s': Sys)
    requires y in s.svcs && Inv(s, w)
    ensures Inv(s', w) && Down(s, s') && Light(s, s', x)
    ensures s'.svcs[y].desired == STOPPED && !s'.svcs[y].startExplicit
    decreases Explicit(s), 1, 0, 0
  {
    AimedIs(s.svcs[y]);
    s' := AimDown(s, y, w);
    ghost var s1 := s';
    DownExplicit(s, s1);
    LightOne(s, s1, x, y);
    if s'.svcs[y].startExplicit {
      s' := DropExplicit(s', y, true, w);
      LightAnyway(s1, s', y, x);
      DownTrans(s, s1, s');
      LightTrans(s, s1, s', x);
    }
  }

  method StopForGood(s: Sys, ghost x: Sid, y: Sid, ghost w: Slack) returns (s': Sys)
    requires y in s.svcs && Inv(s, w) && DependsOnIt(s, y, x)
    ensures Inv(s', w) && Down(s, s') && Light(s, s', x)
    ensures s'.svcs[y].desired == STOPPED && !s'.svcs[y].startExplicit && PropStop in s'.svcs[y].prop
    decreases Explicit(s), 1, 0, 1
  {
    s' := GiveUp(s, x, y, w);
    ghost var s1 := s';
    s' := Mark(s', y, PropStop, w);
    DownTrans(s, s1, s');
    StillDepends(s, s1, y, x);
    LightOne(s1, s', x, y);
    LightTrans(s, s1, s', x);
  }

  lemma StillDepends(s: Sys, s1: Sys, y: Sid, x: Sid)
    requires SameGraph(s, s1) && DependsOnIt(s, y, x)
    ensures DependsOnIt(s1, y, x)
  {
    var d :| d in s.deps && s.deps[d].from == y && s.deps[d].to == x;
    assert s1.deps[d].from == y && s1.deps[d].to == x;
  }

  /** Give up the explicit activation. */
  method DropExplicit(s: Sys, x: Sid, issueStop: bool, ghost w: Slack) returns (s': Sys)
    requires x in s.svcs && Inv(s, w) && s.svcs[x].startExplicit
    ensures Inv(s', w) && Down(s, s') && !s'.svcs[x].startExplicit && Light(s, s', x) && Undone(s, s')
    ensures s.svcs[x].requiredBy == 1 ==> s'.svcs[x].desired == STOPPED
    ensures !issueStop ==>
              s' == PutSvc(s, x, LessWanted(s.svcs[x].(startExplicit := false))).(propQ := s'.propQ)
              && MoreQueued(s, s', x)
    ensures !issueStop && s.svcs[x].IsStartPinned() ==> s'.propQ == s.propQ
    decreases Explicit(s), 0
  {
    NotExplicitKeeps(s, x, w);
    NotExplicitDown(s, x);
    s' := NotExplicit(s, x);
    ghost var s1 := s';
    LightOne(s, s1, x, x);
    s' := Release(s', x, issueStop, w);
    DownTrans(s, s1, s');
    LightTrans(s, s1, s', x);
    UndoneTrans(s, s1, s');
    PutTwice(s, x, s1.svcs[x], s'.svcs[x]);
  }

  method RestartDependent(s: Sys, ghost x: Sid, y: Sid, ghost w: Slack) returns (s': Sys)
    requires y in s.svcs && Inv(s, w) && DependsOnIt(s, y, x)
    ensures Inv(s', w) && Down(s, s') && Light(s, s', x)
    ensures s'.svcs[y].inUserRestart && PropStop in s'.svcs[y].prop
  {
    var v := s.svcs[y].(inUserRestart := true);
    Tweak(s, y, v, w);
    ghost var s1 := PutSvc(s, y, v);
    s' := Mark(PutSvc(s, y, v), y, PropStop, w);
    DownTrans(s, s1, s');
    LightOne(s, s1, x, y);
    StillDepends(s, s1, y, x);
    LightOne(s1, s', x, y);
    LightTrans(s, s1, s', x);
  }

  /** Break a soft link: the dependent no longer waits for the service, and no longer holds it. */
  method BreakSoft(s: Sys, d: Did, ghost w: Slack) returns (s': Sys)
    requires Inv(s, w) && d in s.deps && s.deps[d].from in s.svcs && s.deps[d].to in s.svcs
    ensures Inv(s', w) && Down(s, s') && Light(s, s', s.deps[d].to)
    ensures !s'.deps[d].waitingOn && !s'.deps[d].holdingAcq
    ensures !s.deps[d].waitingOn && !s.deps[d].holdingAcq ==> s' == s
    decreases Explicit(s), 1, 1
  {
    s' := s;
    if s.deps[d].waitingOn {
      s' := Unblock(s, d, w);
    }
    LightSame(s, s', s.deps[d].to);
    if s'.deps[d].holdingAcq {
      ghost var s1 := s';
      s' := ReleaseLink(s', d, w);
      DownTrans(s, s1, s');
      LightTrans(s, s1, s', s.deps[d].to);
    }
  }

  method ReleaseLink(s: Sys, d: Did, ghost w: Slack) returns (s': Sys)
    requires Inv(s, w) && d in s.deps && s.deps[d].to in s.svcs && s.deps[d].holdingAcq
    ensures Inv(s', w) && Down(s, s') && Light(s, s', s.deps[d].to)
    ensures !s'.deps[d].holdingAcq && s'.deps[d].waitingOn == s.deps[d].waitingOn
    decreases Explicit(s), 1, 0
  {
    assert DepOK(s, d);
    LetGoKeeps(s, d, w);
    s' := LetGo(s, d);
    ghost var s1 := s';
    LightSame(s, s1, s.deps[d].to);
    s' := Release(s', s.deps[d].to, false, w);
    DownTrans(s, s1, s');
    LightTrans(s, s1, s', s.deps[d].to);
  }

  /** A service that is still starting can be stopped now if its start can be interrupted; otherwise
      it is stopped once it has started, or once the interrupted process has gone. */
  method InterruptStart(s: Sys, x: Sid, ghost w: Slack) returns (s': Sys, stopNow: bool)
    requires x in s.svcs && Inv(s, w) && !s.svcs[x].IsStartPinned() && s.svcs[x].state == STARTING
    ensures Inv(s', w) && Down(s, s')
    ensures Light(s, s', x)
    ensures stopNow ==> s'.svcs[x] == s.svcs[x].(waitingForConsole := false)
    ensures stopNow ==> s'.svcs[x].state == STARTING && !s'.svcs[x].IsStartPinned()
    ensures s.svcs[x].waitingForDeps || s.svcs[x].waitingForConsole ==> stopNow
  {
    s' := s;
    LightStill(s, x);
    if !s.svcs[x].waitingForDeps && !s.svcs[x].waitingForConsole {
      stopNow := *;
      var underWay := *;
      if !stopNow && underWay {
        s' := SetStopping(s, x, false, true, w);
        LightFlags(s, s', x, x, Stopping(s.svcs[x], false, true));
      }
    } else {
      if s.svcs[x].waitingForConsole {
        s' := Unqueue(s, x, w);
        LightFlags(s, s', x, x, s.svcs[x].(waitingForConsole := false));
      }
      stopNow := true;
    }
  }

  /** The service itself: stop now if it can, otherwise once it has started. Seen from `base` on,
      where it began to stop, it waits only if some strict dependent is up. */
  method StopSelf(s: Sys, x: Sid, all: bool, ghost base: Sys, ghost w: Slack) returns (s': Sys)
    requires x in s.svcs && Inv(s, w) && !s.svcs[x].IsStartPinned()
    requires Down(base, s) && (!all ==> SomeUp(base, s, x))
    ensures Inv(s', w) && Lower(s, s') && Down(base, s') && Light(s, s', x)
    ensures s.svcs[x].state == STARTED ==> s'.svcs[x].state == STOPPING
    ensures s.svcs[x].state == STARTING && (s.svcs[x].waitingForDeps || s.svcs[x].waitingForConsole) ==>
              s'.svcs[x].state == STOPPING
    ensures s.svcs[x].state == STARTED && all ==> x in s'.transQ.elems
    ensures s.svcs[x].state == STARTED ==> StoppedOnly(s, s', x, all)
    ensures s.svcs[x].state == STOPPING ==> s' == s
  {
    var stopNow;
    s', stopNow := CanStop(s, x, all, base, w);
    if stopNow {
      ghost var s1 := s';
      s' := FinishStop(s', x, all, base, w);
      LowerTrans(s, s1, s');
      LightTrans(s, s1, s', x);
    }
  }

  /** The service is stopping now, and queued if all dependents have stopped. */
  ghost predicate StoppedOnly(s: Sys, s': Sys, x: Sid, all: bool) {
    && x in s.svcs
    && s' == PutSvc(s, x, Stopping(s.svcs[x], !all, false)).(transQ := s'.transQ)
    && forall y :: y in s'.transQ.elems <==> y in s.transQ.elems || (y == x && all)
  }

  /** Whether the service can stop at once. */
  method CanStop(s: Sys, x: Sid, ghost all: bool, ghost base: Sys, ghost w: Slack) returns (s': Sys, stopNow: bool)
    requires x in s.svcs && Inv(s, w) && !s.svcs[x].IsStartPinned()
    requires Down(base, s) && (!all ==> SomeUp(base, s, x))
    ensures Inv(s', w) && Down(s, s') && Down(base, s') && (!all ==> SomeUp(base, s', x)) && Light(s, s', x)
    ensures stopNow ==>
              !s'.svcs[x].IsStartPinned() && s'.svcs[x].state == s.svcs[x].state
              && (s.svcs[x].state == STARTED || s.svcs[x].state == STARTING)
    ensures s.svcs[x].state == STARTED ==> stopNow
    ensures s.svcs[x].state == STARTED || s.svcs[x].state == STOPPING ==> s' == s
    ensures s.svcs[x].state == STARTING && (s.svcs[x].waitingForDeps || s.svcs[x].waitingForConsole) ==> stopNow
  {
    s', stopNow := s, s.svcs[x].state == STARTED;
    if s.svcs[x].state == STARTING {
      s', stopNow := InterruptStart(s, x, w);
      StillUpAbove(base, s, s', x, all);
    } else {
      LightStill(s, x);
    }
  }

  lemma StillUpAbove(base: Sys, s: Sys, s': Sys, x: Sid, all: bool)
    requires Down(base, s) && Down(s, s') && (!all ==> SomeUp(base, s, x))
    ensures Down(base, s') && (!all ==> SomeUp(base, s', x))
  {
    DownTrans(base, s, s');
    if !all {
      UpLater(base, s, s', x);
    }
  }


  method FinishStop(s: Sys, x: Sid, all: bool, ghost base: Sys, ghost w: Slack) returns (s': Sys)
    requires x in s.svcs && Inv(s, w) && !s.svcs[x].IsStartPinned()
             && (s.svcs[x].state == STARTED || s.svcs[x].state == STARTING)
    requires Down(base, s) && (!all ==> SomeUp(base, s, x))
    ensures Inv(s', w) && Lower(s, s') && Down(base, s') && s'.svcs[x].state == STOPPING && Light(s, s', x)
    ensures StoppedOnly(s, s', x, all)
  {
    s' := StopNow(s, x, all, w);
    StoppingDown(base, s, s', x, all);
    LightFlags(s, s', x, x, Stopping(s.svcs[x], !all, false));
  }

  lemma StoppingDown(base: Sys, s: Sys, s': Sys, x: Sid, all: bool)
    requires Down(base, s) && x in s.svcs && Lower(s, s')
             && s'.svcs == s.svcs[x := Stopping(s.svcs[x], !all, false)]
    requires if all then x in s'.transQ.elems else SomeUp(base, s, x)
    ensures Down(base, s')
  {
    forall y | y in base.svcs ensures Orderly(base, s', y) {
      assert Orderly(base, s, y);
      if SomeUp(base, s, y) {
        UpLater(base, s, s', y);
      }
    }
  }

  method StopNow(s: Sys, x: Sid, all: bool, ghost w: Slack) returns (s': Sys)
    requires x in s.svcs && Inv(s, w) && !s.svcs[x].IsStartPinned()
             && (s.svcs[x].state == STARTED || s.svcs[x].state == STARTING)
    ensures Inv(s', w) && Lower(s, s')
    ensures StoppedOnly(s, s', x, all)
  {
    s' := SetStopping(s, x, !all, false, w);
    if all {
      ghost var s1 := s';
      s' := AddTransitionQueue(s', x, w);
      LowerTrans(s, s1, s');
    }
  }

  method SetStopping(s: Sys, x: Sid, wait: bool, told: bool, ghost w: Slack) returns (s': Sys)
    requires x in s.svcs && Inv(s, w) && !s.svcs[x].IsStartPinned()
             && (s.svcs[x].state == STARTED || s.svcs[x].state == STARTING)
    ensures Inv(s', w) && Lower(s, s')
    ensures s' == PutSvc(s, x, Stopping(s.svcs[x], wait, told))
    ensures s.svcs[x].state == STARTING && !wait && told ==> Down(s, s')
  {
    var v := Stopping(s.svcs[x], wait, told);
    SetService(s, x, v, w);
    s' := PutSvc(s, x, v);
    LowerOne(s, x, v);
    if s.svcs[x].state == STARTING && !wait && told {
      forall y | y in s.svcs ensures Orderly(s, s', y) { }
    }
  }

  lemma LowerOne(s: Sys, x: Sid, v: Service)
    requires x in s.svcs && SvcDown(s.svcs[x], v) && SameGraph(s, PutSvc(s, x, v))
    ensures Lower(s, PutSvc(s, x, v))
  {
  }

  function Without(q: seq<Sid>, x: Sid): (r: seq<Sid>)
    ensures |r| <= |q| && (forall y :: y in r <==> y in q && y != x)
  {
    if q == [] then []
    else
      assert forall y :: y in q <==> y == q[0] || y in q[1..];
      if q[0] == x then Without(q[1..], x) else [q[0]] + Without(q[1..], x)
  }

  /** Leave the console queue. */
  method Unqueue(s: Sys, x: Sid, ghost w: Slack) returns (s': Sys)
    requires x in s.svcs && Inv(s, w)
    ensures Inv(s', w) && Down(s, s') && x !in s'.consoleQ && !s'.svcs[x].waitingForConsole
    ensures s' == PutSvc(s, x, s.svcs[x].(waitingForConsole := false)).(consoleQ := s'.consoleQ)
    ensures forall y :: y in s'.consoleQ ==> y in s.consoleQ
  {
    var v := s.svcs[x].(waitingForConsole := false);
    Tweak(s, x, v, w);
    s' := PutSvc(s, x, v);
    ConsoleKeeps(s', s'.(consoleQ := Without(s'.consoleQ, x)), w);
    s' := s'.(consoleQ := Without(s'.consoleQ, x));
  }

  lemma ConsoleKeeps(s: Sys, s': Sys, w: Slack)
    requires Inv(s, w) && s' == s.(consoleQ := s'.consoleQ) && forall y :: y in s'.consoleQ ==> y in s.svcs
    ensures Inv(s', w) && SameGraph(s, s')
  {
    KeepGraph(s, s');
    forall y | y in s'.svcs && y !in w.but ensures (assert LinksOK(s', y); Awake(s', y)) {
      assert LinksOK(s, y) && Awake(s, y);
    }
    forall y | y in s'.svcs ensures (assert LinksOK(s', y); Counted(s', y)) { assert LinksOK(s, y) && Counted(s, y); }
    forall y | y in s'.svcs ensures Pending(s', y, w.due) { assert Pending(s, y, w.due); }
  }
}
