/**
  Requiring, starting and failing to start.
 */
module ServiceStarts {
  import opened QueueShape
  import opened ServiceModel
  import opened ServiceStops

  ghost predicate Step(s: Sys, s': Sys) {
    SameGraph(s, s') && s'.doubled == s.doubled && |s'.consoleQ| <= |s.consoleQ|
  }

  lemma StepTrans(s: Sys, s1: Sys, s2: Sys)
    requires Step(s, s1) && Step(s1, s2)
    ensures Step(s, s2)
  {
  }

  predicate UnaskedSvc(u: Service, v: Service) {
    (PropStart in v.prop ==> PropStart in u.prop) && (PropRequire in v.prop ==> PropRequire in u.prop)
  }

  /** Nothing is asked to start or to acquire its dependencies. */
  ghost predicate Unasked(s: Sys, s': Sys) {
    forall y {:trigger s'.svcs[y]} :: y in s.svcs && y in s'.svcs ==> UnaskedSvc(s.svcs[y], s'.svcs[y])
  }

  predicate TameSvc(u: Service, v: Service) {
    (u.desired == STOPPED ==> v.desired == STOPPED) && UnaskedSvc(u, v)
  }

  /** Nothing that is to stop is wanted again, and nothing is asked to start or to acquire its dependencies. */
  ghost predicate Tame(s: Sys, s': Sys) {
    forall x {:trigger s'.svcs[x]} :: x in s.svcs && x in s'.svcs ==> TameSvc(s.svcs[x], s'.svcs[x])
  }

  /** A step that starts nothing anew, and after which every service that is still to be brought down is still going to
      be. */
  ghost predicate Calm(s: Sys, s': Sys) {
    Step(s, s') && Tame(s, s') && StopsKept(s, s')
  }

  lemma UpKeepsSelf(s: Sys)
    ensures StopsKept(s, s)
  {
  }

  lemma CalmTrans(s: Sys, s1: Sys, s2: Sys)
    requires Calm(s, s1) && Calm(s1, s2)
    ensures Calm(s, s2)
  {
    StopsKeptTrans(s, s1, s2);
    forall x | x in s.svcs && x in s2.svcs ensures TameSvc(s.svcs[x], s2.svcs[x]) {
      assert TameSvc(s.svcs[x], s1.svcs[x]);
    }
  }

  lemma DownCalm(s: Sys, s': Sys)
    requires Down(s, s')
    ensures Calm(s, s')
  {
    DownKeepsStops(s, s');
    forall x | x in s.svcs && x in s'.svcs ensures TameSvc(s.svcs[x], s'.svcs[x]) {
      assert SvcDown(s.svcs[x], s'.svcs[x]);
    }
  }

  /** A change to one record that leaves its state alone. */
  lemma SameStateCalm(s: Sys, s': Sys, x: Sid, v: Service)
    requires x in s.svcs && Step(s, s') && s'.svcs == s.svcs[x := v] && s'.transQ == s.transQ
    requires v.state == s.svcs[x].state && v.waitingForDeps == s.svcs[x].waitingForDeps
             && v.broughtDown == s.svcs[x].broughtDown
    ensures StopsKept(s, s')
    ensures TameSvc(s.svcs[x], v) ==> Calm(s, s')
  {
    forall y | y in s.svcs ensures StaysUp(s, s', y) { }
    UpKeepsStops(s, s');
  }

  /** A service that is starting was starting before. It waits or is in line only if it did or was, it is queued only if
      it waited or was queued, and it has the console only if it had it or was in line. */
  ghost predicate StartsOn(s: Sys, s': Sys, y: Sid) {
    y in s.svcs && y in s'.svcs && s'.svcs[y].state == STARTING ==>
      && s.svcs[y].state == STARTING && (s'.svcs[y].waitingForDeps ==> s.svcs[y].waitingForDeps)
      && (y in s'.transQ.elems && !s.svcs[y].waitingForDeps ==> y in s.transQ.elems)
      && (s'.svcs[y].waitingForConsole ==> s.svcs[y].waitingForConsole)
      && (s'.svcs[y].haveConsole ==> s.svcs[y].haveConsole || y in s.consoleQ)
  }

  /** No service begins to start, or gets in line for the console. */
  ghost predicate NoneBegun(s: Sys, s': Sys) {
    && s'.svcs.Keys == s.svcs.Keys && (forall y :: y in s'.consoleQ ==> y in s.consoleQ)
    && (forall y {:trigger StartsOn(s, s', y)} :: y in s.svcs ==> StartsOn(s, s', y))
  }

  lemma NoneBegunTrans(s: Sys, s1: Sys, s2: Sys)
    requires NoneBegun(s, s1) && NoneBegun(s1, s2)
    ensures NoneBegun(s, s2)
  {
    forall y | y in s.svcs ensures StartsOn(s, s2, y) { assert StartsOn(s, s1, y) && StartsOn(s1, s2, y); }
  }

  lemma DownBegins(s: Sys, s': Sys)
    requires Down(s, s')
    ensures NoneBegun(s, s')
  {
    forall y | y in s.svcs ensures StartsOn(s, s', y) {
      assert SvcDown(s.svcs[y], s'.svcs[y]);
      assert y in s'.transQ.elems && y !in s.transQ.elems ==> Queues(s, s', y);
    }
  }

  /** One record has changed, and the service does not begin to start. */
  lemma OneBegins(s: Sys, x: Sid, v: Service)
    requires x in s.svcs
    requires v.state == STARTING ==>
               && s.svcs[x].state == STARTING && (v.waitingForDeps ==> s.svcs[x].waitingForDeps)
               && (v.waitingForConsole ==> s.svcs[x].waitingForConsole)
               && (v.haveConsole ==> s.svcs[x].haveConsole || x in s.consoleQ)
    ensures NoneBegun(s, PutSvc(s, x, v))
  {
    forall y | y in s.svcs ensures StartsOn(s, PutSvc(s, x, v), y) { }
  }

  // ---------------------------------------------------------------- giving up dependencies

  /** Give up everything the service holds. */
  method ReleaseDependencies(s: Sys, x: Sid, ghost w: Slack) returns (s': Sys)
    requires Inv(s, w) && x in s.svcs
    ensures Inv(s', w) && Down(s, s') && Light(s, s', x)
    ensures x in s.dependsOn && forall d :: d in s.dependsOn[x] ==> d in s'.deps && !s'.deps[d].holdingAcq
    ensures s.dependsOn[x] == [] ==> s' == s
    ensures |s.dependsOn[x]| == 1 && QuietDrop(s, s.dependsOn[x][0]) ==> DroppedQuietly(s, s', s.dependsOn[x][0])
  {
    s' := s;
    LightStill(s, x);
    assert LinksOK(s, x);
    var ds := s.dependsOn[x];
    for i := 0 to |ds|
      invariant Inv(s', w) && Down(s, s') && Light(s, s', x) && (i == 0 ==> s' == s)
      invariant i == 1 && QuietDrop(s, ds[0]) ==> DroppedQuietly(s, s', ds[0])
      invariant forall j :: 0 <= j < i ==> Freed(s', ds[j])
    {
      ghost var s1 := s';
      assert ds[i] in s.dependsOn[x];
      s' := DropLink(s', ds[i], true, w);
      DownTrans(s, s1, s');
      LightStill(s1, x);
      LightTrans(s, s1, s', x);
      forall j | 0 <= j < i + 1 ensures Freed(s', ds[j]) { assert j < i ==> Freed(s1, ds[j]); }
    }
    forall d | d in ds ensures d in s'.deps && !s'.deps[d].holdingAcq {
      var j :| 0 <= j < |ds| && ds[j] == d;
      assert Freed(s', ds[j]);
    }
  }

  ghost predicate Freed(s: Sys, d: Did) {
    d in s.deps && !s.deps[d].holdingAcq
  }

  /** The link holds the last acquisition of its dependency, which nobody has to be told about. */
  ghost predicate QuietDrop(s: Sys, d: Did) {
    && d in s.deps && s.deps[d].holdingAcq && s.deps[d].to in s.svcs && StopsThen(s.svcs[s.deps[d].to])
    && StopsQuietly(LessOneWanted(LetGo(s, d), s.deps[d].to), s.deps[d].to)
  }

  ghost predicate DroppedQuietly(s: Sys, s': Sys, d: Did) {
    d in s.deps && QuietRelease(LetGo(s, d), s', s.deps[d].to)
  }

  method DropLink(s: Sys, d: Did, issueStop: bool, ghost w: Slack) returns (s': Sys)
    requires Inv(s, w) && d in s.deps
    ensures Inv(s', w) && Down(s, s') && !s'.deps[d].holdingAcq
    ensures if s.deps[d].holdingAcq then Light(s, s', s.deps[d].to) && Undone(s, s') else s' == s
    ensures issueStop && QuietDrop(s, d) ==> DroppedQuietly(s, s', d)
    ensures s.deps[d].holdingAcq && !issueStop ==>
              && s.deps[d].to in s.svcs && MoreQueued(s, s', s.deps[d].to)
              && s' == PutSvc(LetGo(s, d), s.deps[d].to, LessWanted(s.svcs[s.deps[d].to])).(propQ := s'.propQ)
  {
    s' := s;
    assert DepOK(s, d);
    if s.deps[d].holdingAcq {
      LetGoKeeps(s, d, w);
      s' := LetGo(s, d);
      ghost var s1 := s';
      LightSame(s, s1, s.deps[d].to);
      s' := Release(s', s.deps[d].to, issueStop, w);
      DownTrans(s, s1, s');
      LightTrans(s, s1, s', s.deps[d].to);
      UndoneTrans(s, s1, s');
    }
  }

  // ---------------------------------------------------------------- waiting for dependencies

  /** Whether starting `from` has to wait for this dependency. */
  predicate Blocks(s: Sys, d: Did)
    requires d in s.deps && s.deps[d].to in s.svcs
  {
    s.svcs[s.deps[d].to].state != STARTED && (s.deps[d].IsOnlyOrdering() ==> s.svcs[s.deps[d].to].state == STARTING)
  }

  /** Whether an ordering dependent that is starting has to wait, now that the service is starting. */
  predicate Delays(s: Sys, d: Did)
    requires d in s.deps && s.deps[d].from in s.svcs
  {
    s.deps[d].IsOnlyOrdering() && s.svcs[s.deps[d].from].state == STARTING
  }

  /** Exactly these links become waited on; nothing else changes. */
  ghost predicate Marked(s: Sys, s': Sys, hits: set<Did>) {
    && s'.deps.Keys == s.deps.Keys && s' == s.(deps := s'.deps)
    && (forall d {:trigger s'.deps[d]} :: d in s.deps ==>
          s'.deps[d] == s.deps[d].(waitingOn := s.deps[d].waitingOn || d in hits))
  }

  ghost function Blocking(s: Sys, x: Sid): set<Did> {
    set d | d in s.deps && s.deps[d].from == x && s.deps[d].to in s.svcs && Blocks(s, d)
  }

  ghost function Delayed(s: Sys, x: Sid): set<Did> {
    set d | d in s.deps && s.deps[d].to == x && s.deps[d].from in s.svcs && Delays(s, d)
  }

  lemma MarkWaiting(s: Sys, d: Did, w: Slack)
    requires Inv(s, w) && d in s.deps
    ensures var s' := PutDep(s, d, s.deps[d].(waitingOn := true)); Inv(s', w) && Step(s, s')
  {
    SetWaiting(s, d, true, w);
  }

  method MarkOne(s: Sys, s0: Sys, d: Did, ghost hits: set<Did>, ghost w: Slack) returns (s': Sys)
    requires Inv(s, w) && Step(s0, s) && d in s0.deps && Marked(s0, s, hits)
    ensures Inv(s', w) && Step(s0, s') && Marked(s0, s', hits + {d})
  {
    MarkWaiting(s, d, w);
    s' := PutDep(s, d, s.deps[d].(waitingOn := true));
    StepTrans(s0, s, s');
  }

  /** Mark the dependencies to wait for. */
  method CheckDependencies(s: Sys, x: Sid, ghost w: Slack) returns (s': Sys, all: bool)
    requires Inv(s, w) && x in s.svcs && LinksOK(s, x)
    ensures Inv(s', w) && Step(s, s') && Marked(s, s', Blocking(s, x))
    ensures all <==> Blocking(s, x) == {}
  {
    s', all := s, true;
    var ds := s.dependsOn[x];
    ghost var hits: set<Did> := {};
    for i := 0 to |ds|
      invariant Inv(s', w) && Step(s, s') && Marked(s, s', hits)
      invariant hits <= Blocking(s, x) && (all <==> hits == {})
      invariant forall j :: 0 <= j < i && ds[j] in Blocking(s, x) ==> ds[j] in hits
    {
      assert ds[i] in s.dependsOn[x];
      assert DepOK(s, ds[i]);
      if Blocks(s', ds[i]) {
        s' := MarkOne(s', s, ds[i], hits, w);
        all := false;
        hits := hits + {ds[i]};
      }
    }
    forall d | d in Blocking(s, x) ensures d in hits { assert DepOK(s, d) && d in ds; }
    assert hits == Blocking(s, x);
  }

  /** Mark the ordering dependents that now have to wait. */
  method CheckDependents(s: Sys, x: Sid, ghost w: Slack) returns (s': Sys)
    requires Inv(s, w) && x in s.svcs && LinksOK(s, x)
    ensures Inv(s', w) && Step(s, s') && Marked(s, s', Delayed(s, x))
  {
    s' := s;
    var ds := s.dependents[x];
    ghost var hits: set<Did> := {};
    for i := 0 to |ds|
      invariant Inv(s', w) && Step(s, s') && Marked(s, s', hits)
      invariant hits <= Delayed(s, x)
      invariant forall j :: 0 <= j < i && ds[j] in Delayed(s, x) ==> ds[j] in hits || s.deps[ds[j]].waitingOn
    {
      assert ds[i] in s.dependents[x];
      assert DepOK(s, ds[i]);
      if !s'.deps[ds[i]].waitingOn && Delays(s', ds[i]) {
        s' := MarkOne(s', s, ds[i], hits, w);
        hits := hits + {ds[i]};
      }
    }
    forall d | d in Delayed(s, x) ensures d in hits || s.deps[d].waitingOn { assert DepOK(s, d) && d in ds; }
  }

  lemma AwakeAgain(s: Sys, x: Sid, w: Slack)
    requires Inv(s, Excuse(w, x)) && x in s.svcs && x in s.dependsOn && Awake(s, x)
    ensures Inv(s, w)
  {
    forall y | y in s.svcs && y !in w.but ensures (assert LinksOK(s, y); Awake(s, y)) { assert LinksOK(s, y); }
  }

  lemma Except(s: Sys, x: Sid, w: Slack)
    requires Inv(s, w)
    ensures Inv(s, Excuse(w, x))
  {
  }

  /** Begin to start: wait for whatever is in the way, or have the transition checked at once. */
  method InitiateStart(s: Sys, x: Sid, ghost w: Slack) returns (s': Sys)
    requires Inv(s, w) && x in s.svcs
    ensures Inv(s', w) && Step(s, s')
    ensures var t := PutSvc(s, x, s.svcs[x].(state := STARTING, waitingForDeps := true));
            Marked(t, s'.(transQ := t.transQ), Blocking(t, x) + Delayed(t, x))
    ensures s'.svcs == s.svcs[x := s.svcs[x].(state := STARTING, waitingForDeps := true)]
    ensures x in s'.transQ.elems <==>
            || x in s.transQ.elems
            || Blocking(PutSvc(s, x, s.svcs[x].(state := STARTING, waitingForDeps := true)), x) == {}
    ensures forall y :: y in s.transQ.elems ==> y in s'.transQ.elems
    ensures forall y :: y in s'.transQ.elems ==> y in s.transQ.elems || y == x
    ensures !IsUp(s, x) ==> StopsKept(s, s')
  {
    var v := s.svcs[x].(state := STARTING, waitingForDeps := true);
    Except(s, x, w);
    SetService(s, x, v, Excuse(w, x));
    s' := PutSvc(s, x, v);
    ghost var t := s';
    assert LinksOK(t, x);
    var all;
    s', all := CheckDependencies(s', x, Excuse(w, x));
    ghost var s1 := s';
    StepTrans(s, t, s1);
    assert LinksOK(s1, x);
    s' := CheckDependents(s', x, Excuse(w, x));
    ghost var s2 := s';
    StepTrans(s, s1, s2);
    MarkedTwice(t, s1, s2, x);
    if all {
      s' := QueueTrans(s', x);
      QueueMore(s2, s', x, Excuse(w, x));
      StepTrans(s, s2, s');
    } else {
      BlockedWaits(t, s2, x);
    }
    AwakeAgain(s', x, w);
    if !IsUp(s, x) {
      StartKeepsStops(s, s', x);
    }
  }

  lemma StartKeepsStops(s: Sys, s': Sys, x: Sid)
    requires x in s.svcs && !IsUp(s, x) && SameGraph(s, s')
             && (forall y :: y in s.transQ.elems ==> y in s'.transQ.elems)
    requires s'.svcs == s.svcs[x := s.svcs[x].(state := STARTING, waitingForDeps := true)]
    ensures StopsKept(s, s')
  {
    forall y | y in s.svcs ensures StaysUp(s, s', y) { }
    UpKeepsStops(s, s');
  }

  lemma MarkedTwice(t: Sys, s1: Sys, s2: Sys, x: Sid)
    requires Marked(t, s1, Blocking(t, x)) && Marked(s1, s2, Delayed(s1, x))
    ensures Marked(t, s2, Blocking(t, x) + Delayed(t, x))
  {
    assert Delayed(s1, x) == Delayed(t, x);
  }

  lemma BlockedWaits(t: Sys, s: Sys, x: Sid)
    requires WF(t) && x in t.svcs && x in t.dependsOn && Marked(t, s, Blocking(t, x) + Delayed(t, x))
             && Blocking(t, x) != {}
    ensures SomeWaiting(s.deps, t.dependsOn[x])
  {
    var d :| d in Blocking(t, x);
    assert DepOK(t, d);
    assert s.deps[d].waitingOn;
  }

  // ---------------------------------------------------------------- requiring

  function MoreOne(s: Sys, x: Sid): Sys
    requires x in s.svcs
  {
    PutSvc(s, x, s.svcs[x].(requiredBy := s.svcs[x].requiredBy + 1))
  }

  /** One more acquisition; the first one asks for a start. */
  function Required(v: Service): Service {
    v.(requiredBy := v.requiredBy + 1,
       prop := if v.requiredBy == 0 && v.state != STARTING && v.state != STARTED then v.prop + {PropStart} else v.prop)
  }

  method Require(s: Sys, x: Sid, ghost w: Slack) returns (s': Sys)
    requires x in s.svcs && Inv(MoreOne(s, x), w)
    ensures Inv(s', w) && Step(s, s') && MoreQueued(s, s', x)
    ensures s' == PutSvc(s, x, Required(s.svcs[x])).(propQ := s'.propQ)
    ensures s.svcs[x].requiredBy > 0 ==> s'.propQ == s.propQ
  {
    s' := MoreOne(s, x);
    if s.svcs[x].requiredBy == 0 && s.svcs[x].state != STARTING && s.svcs[x].state != STARTED {
      s' := AskToStart(s', x, w);
      PutTwice(s, x, MoreOne(s, x).svcs[x], s'.svcs[x]);
    }
  }

  method AskToStart(s: Sys, x: Sid, ghost w: Slack) returns (s': Sys)
    requires x in s.svcs && Inv(s, w)
    ensures Inv(s', w) && Step(s, s') && MoreQueued(s, s', x)
    ensures s' == PutSvc(s, x, s.svcs[x].(prop := s.svcs[x].prop + {PropStart})).(propQ := s'.propQ)
  {
    s' := AddPropQueue(s, x, w);
    SetService(s', x, s.svcs[x].(prop := s.svcs[x].prop + {PropStart}), w);
    s' := PutSvc(s', x, s.svcs[x].(prop := s.svcs[x].prop + {PropStart}));
  }

  /** A dependent acquires the service at the other end of a link. An acquisition of a link that is
      held already is counted in `doubled`. */
  method Acquire(s: Sys, d: Did, ghost w: Slack) returns (s': Sys)
    requires Inv(s, w) && d in s.deps
    ensures Inv(s', w) && SameGraph(s, s') && |s'.consoleQ| <= |s.consoleQ|
    ensures s'.deps == s.deps[d := s.deps[d].(holdingAcq := true)]
    ensures s.deps[d].to in s.doubled && s.deps[d].to in s.svcs && MoreQueued(s, s', s.deps[d].to)
    ensures s'.svcs == s.svcs[s.deps[d].to := Required(s.svcs[s.deps[d].to])] && s'.transQ == s.transQ
            && s'.consoleQ == s.consoleQ
    ensures s'.doubled == if s.deps[d].holdingAcq then s.doubled[s.deps[d].to := s.doubled[s.deps[d].to] + 1]
            else s.doubled
    ensures s.svcs[s.deps[d].to].requiredBy > 0 ==> s'.propQ == s.propQ
  {
    assert DepOK(s, d);
    var y := s.deps[d].to;
    assert LinksOK(s, y);
    var again := if s.deps[d].holdingAcq then 1 else 0;
    SetHold(s, d, true, 1, again, w);
    s' := s.(deps := s.deps[d := s.deps[d].(holdingAcq := true)], doubled := s.doubled[y := s.doubled[y] + again]);
    assert MoreOne(s', y) == Rehold(s, d, true, 1, again);
    assert again == 0 ==> s'.doubled == s.doubled;
    s' := Require(s', y, w);
  }

  // ---------------------------------------------------------------- failing to start

  ghost predicate FailsAbove(s: Sys, s': Sys, x: Sid, y: Sid) {
    y in s.svcs && y in s'.svcs && PropFailure in s'.svcs[y].prop ==>
      PropFailure in s.svcs[y].prop || DependsOnIt(s, y, x)
  }

  /** One record: it is required no more than before, and gives up its dependencies only if it is required less. */
  predicate FallsSvc(u: Service, v: Service) {
    v.requiredBy <= u.requiredBy && (PropRelease in v.prop ==> PropRelease in u.prop || v.requiredBy < u.requiredBy)
  }

  /** What the failure of `x` adds to be propagated: unless something has gone, only dependents of `x` are to fail. */
  ghost predicate Falls(s: Sys, s': Sys, x: Sid) {
    && SameGraph(s, s')
    && (forall y {:trigger s'.svcs[y]} :: y in s.svcs ==> FallsSvc(s.svcs[y], s'.svcs[y]))
    && (forall d :: d in s.deps && s'.deps[d].waitingOn ==> s.deps[d].waitingOn)
    && (Undone(s, s') || forall y {:trigger FailsAbove(s, s', x, y)} :: FailsAbove(s, s', x, y))
  }

  lemma FallsUndone(s: Sys, s1: Sys, s2: Sys, x: Sid)
    requires Falls(s, s1, x) && Falls(s1, s2, x) && (Undone(s, s1) || Undone(s1, s2))
    ensures Undone(s, s2)
  {
    if y :| y in s.svcs && y in s1.svcs && s1.svcs[y].requiredBy < s.svcs[y].requiredBy {
      assert FallsSvc(s1.svcs[y], s2.svcs[y]);
    } else if y :| y in s1.svcs && y in s2.svcs && s2.svcs[y].requiredBy < s1.svcs[y].requiredBy {
      assert FallsSvc(s.svcs[y], s1.svcs[y]);
    } else if d :| d in s.deps && d in s1.deps && s.deps[d].waitingOn && !s1.deps[d].waitingOn {
      assert !s2.deps[d].waitingOn;
    } else {
      var d :| d in s1.deps && d in s2.deps && s1.deps[d].waitingOn && !s2.deps[d].waitingOn;
      assert s.deps[d].waitingOn;
    }
  }

  lemma AboveTrans(s: Sys, s1: Sys, s2: Sys, x: Sid, y: Sid)
    requires SameGraph(s, s1) && FailsAbove(s, s1, x, y) && FailsAbove(s1, s2, x, y)
    ensures FailsAbove(s, s2, x, y)
  {
    if DependsOnIt(s1, y, x) {
      var d :| d in s1.deps && s1.deps[d].from == y && s1.deps[d].to == x;
      assert s.deps[d].from == y && s.deps[d].to == x;
    }
  }

  lemma FallsTrans(s: Sys, s1: Sys, s2: Sys, x: Sid)
    requires Falls(s, s1, x) && Falls(s1, s2, x)
    ensures Falls(s, s2, x)
  {
    forall y | y in s.svcs ensures FallsSvc(s.svcs[y], s2.svcs[y]) {
      assert FallsSvc(s.svcs[y], s1.svcs[y]) && FallsSvc(s1.svcs[y], s2.svcs[y]);
    }
    if Undone(s, s1) || Undone(s1, s2) {
      FallsUndone(s, s1, s2, x);
    } else {
      forall y ensures FailsAbove(s, s2, x, y) {
        assert FailsAbove(s, s1, x, y) && FailsAbove(s1, s2, x, y);
        AboveTrans(s, s1, s2, x, y);
      }
    }
  }

  lemma LightFalls(s: Sys, s': Sys, x: Sid, z: Sid)
    requires Lower(s, s') && Light(s, s', z)
    ensures Falls(s, s', x)
  {
    forall y | y in s.svcs ensures FallsSvc(s.svcs[y], s'.svcs[y]) {
      assert SvcDown(s.svcs[y], s'.svcs[y]) && LightSvc(s.svcs[y], s'.svcs[y]);
    }
    forall d | d in s.deps && s'.deps[d].waitingOn ensures s.deps[d].waitingOn {
      assert DepDown(s.deps[d], s'.deps[d]);
    }
    forall y ensures FailsAbove(s, s', x, y) { }
  }

  /** One record changes, and the service is told to fail only if it depends on `x`. */
  lemma FallsOne(s: Sys, s': Sys, x: Sid, y: Sid)
    requires SameGraph(s, s') && s'.deps == s.deps && y in s.svcs && s'.svcs == s.svcs[y := s'.svcs[y]]
    requires FallsSvc(s.svcs[y], s'.svcs[y]) && FailsAbove(s, s', x, y)
    ensures Falls(s, s', x)
  {
    forall z ensures FailsAbove(s, s', x, z) { }
  }

  /** One dependent of a service that failed to start: a strict dependent fails with it, any other
      stops waiting; neither holds the service any longer. */
  method FailDependent(s: Sys, d: Did, ghost w: Slack) returns (s': Sys)
    requires Inv(s, w) && d in s.deps
    ensures Inv(s', w) && Down(s, s') && Detached(s', d) && Falls(s, s', s.deps[d].to)
    ensures s.deps[d].to in s.svcs && LetOff(s.svcs[s.deps[d].to], s'.svcs[s.deps[d].to])
    ensures forall e :: e in s.deps && e != d ==> s'.deps[e].holdingAcq == s.deps[e].holdingAcq
  {
    assert DepOK(s, d);
    s' := TellFailure(s, d, w);
    ghost var s1 := s';
    s' := LetOffLink(s', d, w);
    DownTrans(s, s1, s');
    FallsTrans(s, s1, s', s.deps[d].to);
    ghost var x, y := s.deps[d].to, s.deps[d].from;
    assert SvcDown(s1.svcs[y], s'.svcs[y]) && DepDown(s1.deps[d], s'.deps[d]) && s'.deps[d].kind == s.deps[d].kind;
    assert SameWants(s.svcs[x], s1.svcs[x]);
  }

  /** The link no longer holds the service. */
  method LetOffLink(s: Sys, d: Did, ghost w: Slack) returns (s': Sys)
    requires Inv(s, w) && d in s.deps
    ensures Inv(s', w) && Down(s, s') && !s'.deps[d].holdingAcq && Falls(s, s', s.deps[d].to)
    ensures s.deps[d].to in s.svcs && LetOff(s.svcs[s.deps[d].to], s'.svcs[s.deps[d].to])
    ensures forall e :: e in s.deps && e != d ==> s'.deps[e].holdingAcq == s.deps[e].holdingAcq
  {
    ghost var x := s.deps[d].to;
    assert DepOK(s, d);
    assert LinksOK(s, x) && Counted(s, x);
    s' := DropLink(s, d, false, w);
    LightStill(s, x);
    LightFalls(s, s', x, x);
    if s.deps[d].holdingAcq {
      HeldOne(s.deps, s.dependents[x], d);
      LessLetOff(s.svcs[x], s.svcs[x]);
    }
  }

  lemma {:induction false} HeldOne(deps: map<Did, Dep>, ds: seq<Did>, d: Did)
    requires d in ds && d in deps && deps[d].holdingAcq
    ensures Held(deps, ds) >= 1
  {
    if ds[0] != d {
      HeldOne(deps, ds[1..], d);
    }
  }

  /** A strict dependent that is starting is to fail; any other stops waiting. */
  method TellFailure(s: Sys, d: Did, ghost w: Slack) returns (s': Sys)
    requires Inv(s, w) && d in s.deps && s.deps[d].from in s.svcs
    ensures Inv(s', w) && Down(s, s') && Falls(s, s', s.deps[d].to)
    ensures forall z :: z in s.svcs ==> SameWants(s.svcs[z], s'.svcs[z])
    ensures forall e :: e in s.deps ==> s'.deps[e].holdingAcq == s.deps[e].holdingAcq
    ensures s.deps[d].kind == REGULAR || s.deps[d].kind == MILESTONE ==>
              (s'.svcs[s.deps[d].from].state == STARTING ==> PropFailure in s'.svcs[s.deps[d].from].prop)
    ensures s.deps[d].kind != REGULAR && s.deps[d].kind != MILESTONE ==> !s'.deps[d].waitingOn
  {
    s' := s;
    ghost var x := s.deps[d].to;
    LightStill(s, x);
    LightFalls(s, s, x, x);
    if s.deps[d].kind == REGULAR || s.deps[d].kind == MILESTONE {
      if s.svcs[s.deps[d].from].state == STARTING {
        s' := Mark(s, s.deps[d].from, PropFailure, w);
        assert DependsOnIt(s, s.deps[d].from, x);
        FallsOne(s, s', x, s.deps[d].from);
        MarkedWants(s, s', s.deps[d].from);
      }
    } else if s.deps[d].waitingOn {
      s' := Unblock(s, d, w);
      LightSame(s, s', x);
      LightFalls(s, s', x, x);
    }
  }

  lemma MarkedWants(s: Sys, s': Sys, y: Sid)
    requires y in s.svcs && s' == PutSvc(s, y, s.svcs[y].(prop := s.svcs[y].prop + {PropFailure})).(propQ := s'.propQ)
    ensures forall z :: z in s.svcs ==> SameWants(s.svcs[z], s'.svcs[z])
  {
  }

  /** The same count, and the same dependencies to acquire or to give up. */
  ghost predicate SameWants(u: Service, v: Service) {
    && v.requiredBy == u.requiredBy && v.IsStartPinned() == u.IsStartPinned()
    && (PropRequire in v.prop <==> PropRequire in u.prop) && (PropRelease in v.prop <==> PropRelease in u.prop)
  }

  /** With the last acquisition gone the dependencies are given up, unless the service is pinned; before that they are
      not. */
  ghost predicate LetOff(u: Service, v: Service) {
    var last := u.requiredBy > 0 && v.requiredBy == 0 && !u.IsStartPinned();
    && v.IsStartPinned() == u.IsStartPinned() && 0 <= v.requiredBy <= u.requiredBy
    && (PropRequire in v.prop <==> PropRequire in u.prop && !last)
    && (PropRelease in v.prop <==> if last then PropRequire !in u.prop else PropRelease in u.prop)
  }

  lemma LessLetOff(u: Service, v: Service)
    requires SameWants(u, v) && v.requiredBy >= 1
    ensures LetOff(u, LessWanted(v))
  {
  }

  lemma LetOffTrans(a: Service, b: Service, c: Service)
    requires LetOff(a, b) && LetOff(b, c)
    ensures LetOff(a, c)
  {
  }

  ghost predicate Detached(s: Sys, d: Did) {
    && d in s.deps && !s.deps[d].holdingAcq && s.deps[d].from in s.svcs
    && if s.deps[d].kind == REGULAR || s.deps[d].kind == MILESTONE
       then s.svcs[s.deps[d].from].state == STARTING ==> PropFailure in s.svcs[s.deps[d].from].prop
       else !s.deps[d].waitingOn
  }

  lemma DetachedLater(s: Sys, s': Sys, d: Did)
    requires Detached(s, d) && Down(s, s')
    ensures Detached(s', d)
  {
    var y := s.deps[d].from;
    assert SvcDown(s.svcs[y], s'.svcs[y]) && DepDown(s.deps[d], s'.deps[d]) && s'.deps[d].kind == s.deps[d].kind
           && s'.deps[d].from == y;
  }

  lemma DetachedUpTo(s: Sys, s': Sys, ds: seq<Did>, i: nat)
    requires i < |ds| && Down(s, s') && Detached(s', ds[i]) && forall j :: 0 <= j < i ==> Detached(s, ds[j])
    ensures forall j :: 0 <= j < i + 1 ==> Detached(s', ds[j])
  {
    forall j | 0 <= j < i ensures Detached(s', ds[j]) { DetachedLater(s, s', ds[j]); }
  }

  method FailDependents(s: Sys, x: Sid, ghost w: Slack) returns (s': Sys)
    requires Inv(s, w) && x in s.svcs
    ensures Inv(s', w) && Down(s, s') && Falls(s, s', x)
    ensures x in s'.dependents && forall d :: d in s'.dependents[x] ==> Detached(s', d)
    ensures LetOff(s.svcs[x], s'.svcs[x]) && OwnHoldsKept(s, s', x) && (s.dependents[x] == [] ==> s' == s)
  {
    s' := s;
    LightStill(s, x);
    LightFalls(s, s, x, x);
    assert LinksOK(s, x) && Counted(s, x);
    var ds := s.dependents[x];
    for i := 0 to |ds|
      invariant Inv(s', w) && Down(s, s') && Falls(s, s', x) && (i == 0 ==> s' == s)
      invariant forall j :: 0 <= j < i ==> Detached(s', ds[j])
      invariant LetOff(s.svcs[x], s'.svcs[x]) && OwnHoldsKept(s, s', x)
    {
      ghost var s1 := s';
      assert ds[i] in s.dependents[x];
      TheirLink(s, x, ds[i]);
      s' := FailDependent(s', ds[i], w);
      DownTrans(s, s1, s');
      FallsTrans(s, s1, s', x);
      LetOffTrans(s.svcs[x], s1.svcs[x], s'.svcs[x]);
      DetachedUpTo(s1, s', ds, i);
    }
  }

  /** Links to other services are held as before. */
  ghost predicate OwnHoldsKept(s: Sys, s': Sys, x: Sid) {
    forall d :: d in s.deps && s.deps[d].to != x ==> d in s'.deps && s'.deps[d].holdingAcq == s.deps[d].holdingAcq
  }

  ghost predicate NotHeld(deps: map<Did, Dep>, d: Did) {
    d in deps && !deps[d].holdingAcq
  }

  lemma {:induction false} NoneHeld(deps: map<Did, Dep>, ds: seq<Did>)
    requires forall d :: d in ds ==> NotHeld(deps, d)
    ensures Held(deps, ds) == 0
  {
    if ds != [] {
      assert ds[0] in ds && NotHeld(deps, ds[0]);
      NoneHeld(deps, ds[1..]);
    }
  }

  /** The start has failed: nothing requires the service any more. Its dependencies are given up with the last
      acquisition, unless it was pinned, which the pin that goes only afterwards prevents. */
  method FailToStart(s: Sys, x: Sid, ghost w: Slack) returns (s': Sys)
    requires Inv(s, w) && x in s.svcs
    ensures Inv(s', w) && Calm(s, s') && NoneBegun(s, s') && Falls(s, s', x)
    ensures var v := s'.svcs[x]; v.desired == STOPPED && !v.startExplicit && !v.pinnedStarted
    ensures s'.svcs[x].pinnedStopped == s.svcs[x].pinnedStopped && s'.svcs[x].haveConsole == s.svcs[x].haveConsole
    ensures s.svcs[x].state == STOPPED || s.svcs[x].state == STOPPING ==> s'.svcs[x].state == s.svcs[x].state
    ensures x in s.doubled && s'.svcs[x].requiredBy == s.doubled[x]
    ensures forall d :: d in s'.deps && s'.deps[d].to == x ==> Detached(s', d)
    ensures GivesUp(s.svcs[x], s'.svcs[x]) && OwnHoldsKept(s, s', x)
    ensures x in s.dependents && (s.dependents[x] == [] ==> OnlyOwn(s, s', x))
  {
    s' := FailPinned(s, x, w);
    ghost var s1 := s';
    DownCalm(s, s1);
    assert SvcDown(s.svcs[x], s1.svcs[x]);
    s' := Unpinned(s', x, w);
    FallsOne(s1, s', x, x);
    FallsTrans(s, s1, s', x);
    CalmTrans(s, s1, s');
    DownBegins(s, s1);
    OneBegins(s1, x, s'.svcs[x]);
    NoneBegunTrans(s, s1, s');
    WithoutPin(s, s1, s', x);
  }

  /** What the failure has done stays when the pin goes. */
  lemma WithoutPin(s: Sys, s1: Sys, s': Sys, x: Sid)
    requires x in s.svcs && x in s1.svcs && s' == PutSvc(s1, x, s1.svcs[x].(pinnedStarted := false))
    requires LetOff(s.svcs[x], s1.svcs[x]) && OwnHoldsKept(s, s1, x)
    requires forall d :: d in s1.deps && s1.deps[d].to == x ==> Detached(s1, d)
    ensures GivesUp(s.svcs[x], s'.svcs[x]) && OwnHoldsKept(s, s', x) && (OnlyOwn(s, s1, x) ==> OnlyOwn(s, s', x))
    ensures forall d :: d in s'.deps && s'.deps[d].to == x ==> Detached(s', d)
  {
    forall d | d in s'.deps && s'.deps[d].to == x ensures Detached(s', d) { assert Detached(s1, d); }
  }

  /** All of it but the pin. */
  method FailPinned(s: Sys, x: Sid, ghost w: Slack) returns (s': Sys)
    requires Inv(s, w) && x in s.svcs
    ensures Inv(s', w) && Down(s, s') && s'.svcs[x].desired == STOPPED && !s'.svcs[x].startExplicit && Falls(s, s', x)
    ensures x in s.doubled && s'.svcs[x].requiredBy == s.doubled[x]
    ensures forall d :: d in s'.deps && s'.deps[d].to == x ==> Detached(s', d)
    ensures LetOff(s.svcs[x], s'.svcs[x]) && OwnHoldsKept(s, s', x)
    ensures x in s.dependents && (s.dependents[x] == [] ==> OnlyOwn(s, s', x))
  {
    s' := ForgetStart(s, x, w);
    ghost var s1 := s';
    s' := FailDependents(s', x, w);
    DownTrans(s, s1, s');
    FallsTrans(s, s1, s', x);
    LetOffTrans(s.svcs[x], s1.svcs[x], s'.svcs[x]);
    NothingCounted(s', x, w);
  }

  /** What a failed start leaves to do: the dependencies are given up if and only if an acquisition was there to lose,
      none is left over that was counted twice, and the service was not pinned. */
  ghost predicate GivesUp(u: Service, v: Service) {
    var last := u.requiredBy > 0 && v.requiredBy == 0 && !u.IsStartPinned();
    && (PropRequire in v.prop <==> PropRequire in u.prop && !last)
    && (PropRelease in v.prop <==> if last then PropRequire !in u.prop else PropRelease in u.prop)
  }

  /** Nothing but the service itself and its place in the queues has changed. */
  ghost predicate OnlyOwn(s: Sys, s': Sys, x: Sid) {
    && x in s.svcs && s'.deps == s.deps && s'.transQ == s.transQ && MoreQueued(s, s', x)
    && (s.svcs[x].IsStartPinned() ==> s'.propQ == s.propQ)
    && s'.svcs.Keys == s.svcs.Keys && s'.svcs[x].state == s.svcs[x].state
    && (forall y :: y in s.svcs && y != x ==> s'.svcs[y] == s.svcs[y])
    && (forall y :: y in s'.consoleQ ==> y in s.consoleQ)
  }

  lemma NothingCounted(s: Sys, x: Sid, w: Slack)
    requires Inv(s, w) && x in s.svcs && !s.svcs[x].startExplicit && x in s.dependents
    requires forall d :: d in s.dependents[x] ==> Detached(s, d)
    ensures x in s.doubled && s.svcs[x].requiredBy == s.doubled[x]
    ensures forall d :: d in s.deps && s.deps[d].to == x ==> Detached(s, d)
  {
    forall d | d in s.deps && s.deps[d].to == x ensures Detached(s, d) { assert DepOK(s, d); }
    assert LinksOK(s, x) && Counted(s, x);
    forall d | d in s.dependents[x] ensures NotHeld(s.deps, d) { assert Detached(s, d); }
    NoneHeld(s.deps, s.dependents[x]);
  }

  lemma StillOwn(s: Sys, s1: Sys, s': Sys, x: Sid)
    requires OnlyOwn(s, s1, x) && x in s1.svcs && s1.svcs[x].IsStartPinned() == s.svcs[x].IsStartPinned()
    requires s' == PutSvc(s1, x, LessWanted(s1.svcs[x].(startExplicit := false))).(propQ := s'.propQ)
    requires MoreQueued(s1, s', x) && (s1.svcs[x].IsStartPinned() ==> s'.propQ == s1.propQ)
    ensures OnlyOwn(s, s', x)
  {
  }

  method ForgetStart(s: Sys, x: Sid, ghost w: Slack) returns (s': Sys)
    requires Inv(s, w) && x in s.svcs
    ensures Inv(s', w) && Down(s, s') && s'.svcs[x].desired == STOPPED && !s'.svcs[x].startExplicit && Falls(s, s', x)
    ensures LetOff(s.svcs[x], s'.svcs[x]) && OnlyOwn(s, s', x)
  {
    assert LinksOK(s, x) && Counted(s, x);
    s' := LeaveConsole(s, x, w);
    ghost var s1 := s';
    if s'.svcs[x].startExplicit {
      s' := DropExplicit(s', x, false, w);
      LightFalls(s1, s', x, x);
      FallsTrans(s, s1, s', x);
      DownTrans(s, s1, s');
      StillOwn(s, s1, s', x);
      LessLetOff(s.svcs[x], s1.svcs[x].(startExplicit := false));
    }
  }

  /** Neither in line for the console nor wanted. */
  function OutOfLine(v: Service): Service {
    v.(desired := STOPPED, waitingForConsole := false)
  }

  lemma NotInLine(v: Service)
    ensures FallsSvc(v, OutOfLine(v)) && Aimed(v).(waitingForConsole := false) == OutOfLine(v)
    ensures !v.waitingForConsole ==> Aimed(v) == OutOfLine(v)
  {
  }

  lemma LeftLine(s: Sys, s': Sys, x: Sid)
    requires x in s.svcs && SameGraph(s, s') && forall y :: y in s'.consoleQ ==> y in s.consoleQ
    requires s' == PutSvc(s, x, OutOfLine(s.svcs[x])).(consoleQ := s'.consoleQ)
    ensures OnlyOwn(s, s', x) && Falls(s, s', x)
  {
    NotInLine(s.svcs[x]);
    FallsOne(s, s', x, x);
  }

  method LeaveConsole(s: Sys, x: Sid, ghost w: Slack) returns (s': Sys)
    requires Inv(s, w) && x in s.svcs
    ensures Inv(s', w) && Down(s, s') && s'.svcs[x] == OutOfLine(s.svcs[x])
    ensures Falls(s, s', x)
    ensures s.svcs[x].waitingForConsole ==> x !in s'.consoleQ
    ensures OnlyOwn(s, s', x)
  {
    s' := AimDown(s, x, w);
    ghost var s1 := s';
    if s.svcs[x].waitingForConsole {
      s' := Unqueue(s', x, w);
      DownTrans(s, s1, s');
      PutTwice(s, x, s1.svcs[x], s'.svcs[x]);
    }
    NotInLine(s.svcs[x]);
    LeftLine(s, s', x);
  }

  method Unpinned(s: Sys, x: Sid, ghost w: Slack) returns (s': Sys)
    requires Inv(s, w) && x in s.svcs
    ensures Inv(s', w) && Calm(s, s') && s' == PutSvc(s, x, s.svcs[x].(pinnedStarted := false))
  {
    SetService(s, x, s.svcs[x].(pinnedStarted := false), w);
    s' := PutSvc(s, x, s.svcs[x].(pinnedStarted := false));
    SameStateCalm(s, s', x, s'.svcs[x]);
  }

  // ---------------------------------------------------------------- starting

  predicate Returns(s: Sys, d: Did)
    requires d in s.deps && s.deps[d].from in s.svcs
  {
    var from := s.svcs[s.deps[d].from].state;
    !s.deps[d].IsHard() && (from == STARTED || from == STARTING)
  }

  ghost predicate Recounted(s: Sys, s': Sys, x: Sid) {
    && s'.svcs.Keys == s.svcs.Keys && x in s.svcs && s'.svcs[x] == s.svcs[x].(requiredBy := s'.svcs[x].requiredBy)
    && (forall y :: y in s.svcs && y != x ==> s'.svcs[y] == s.svcs[y])
    && s' == s.(svcs := s'.svcs, deps := s'.deps) && s'.deps.Keys == s.deps.Keys
    && (forall d :: d in s.deps && s.deps[d].holdingAcq ==> s'.deps[d].holdingAcq)
    && (forall d :: d in s.deps ==> s'.deps[d] == s.deps[d].(holdingAcq := s'.deps[d].holdingAcq))
  }

  lemma RecountedTrans(s: Sys, s1: Sys, s2: Sys, x: Sid)
    requires Recounted(s, s1, x) && Recounted(s1, s2, x)
    ensures Recounted(s, s2, x)
  {
  }

  /** A soft dependent that is up acquires the service again. */
  method Reattach(s: Sys, d: Did, ghost w: Slack) returns (s': Sys)
    requires Inv(s, w) && d in s.deps
    ensures Inv(s', w) && Step(s, s') && Recounted(s, s', s.deps[d].to)
    ensures s.deps[d].from in s.svcs && (Returns(s, d) ==> s'.deps == s.deps[d := s.deps[d].(holdingAcq := true)])
    ensures !Returns(s, d) ==> s'.deps == s.deps
  {
    s' := s;
    assert DepOK(s, d);
    if Returns(s, d) {
      if !s.deps[d].holdingAcq {
        s' := Hold(s, d, w);
      } else {
        assert s.deps[d := s.deps[d].(holdingAcq := true)] == s.deps;
      }
    }
  }

  method Hold(s: Sys, d: Did, ghost w: Slack) returns (s': Sys)
    requires Inv(s, w) && d in s.deps && !s.deps[d].holdingAcq
    ensures Inv(s', w) && Step(s, s') && Recounted(s, s', s.deps[d].to)
    ensures s'.deps == s.deps[d := s.deps[d].(holdingAcq := true)]
  {
    assert DepOK(s, d);
    assert LinksOK(s, s.deps[d].to);
    SetHold(s, d, true, 1, 0, w);
    s' := Rehold(s, d, true, 1, 0);
    assert s'.doubled == s.doubled;
  }

  /** Every soft dependent that is up holds the service again. */
  method ReattachAll(s: Sys, x: Sid, ghost w: Slack) returns (s': Sys)
    requires Inv(s, w) && x in s.svcs
    ensures Inv(s', w) && Step(s, s') && Recounted(s, s', x)
    ensures x in s.dependents && forall d :: d in s.dependents[x] ==> Attached(s', d)
    ensures forall d :: d in s.deps && s.deps[d].to != x ==> s'.deps[d] == s.deps[d]
  {
    s' := s;
    assert LinksOK(s, x);
    var ds := s.dependents[x];
    for i := 0 to |ds|
      invariant Inv(s', w) && Step(s, s') && Recounted(s, s', x)
      invariant forall j :: 0 <= j < i ==> Attached(s', ds[j])
      invariant forall d :: d in s.deps && s.deps[d].to != x ==> s'.deps[d] == s.deps[d]
    {
      ghost var s1 := s';
      assert ds[i] in s.dependents[x];
      s' := Reattach(s', ds[i], w);
      StepTrans(s, s1, s');
      RecountedTrans(s, s1, s', x);
      AttachedUpTo(s1, s', x, ds, i);
    }
  }

  lemma AttachedUpTo(s: Sys, s': Sys, x: Sid, ds: seq<Did>, i: nat)
    requires i < |ds| && Recounted(s, s', x) && Attached(s', ds[i]) && forall j :: 0 <= j < i ==> Attached(s, ds[j])
    ensures forall j :: 0 <= j < i + 1 ==> Attached(s', ds[j])
  {
    forall j | 0 <= j < i ensures Attached(s', ds[j]) { StillAttached(s, s', x, ds[j]); }
  }

  lemma StillAttached(s: Sys, s': Sys, x: Sid, d: Did)
    requires Recounted(s, s', x) && Attached(s, d)
    ensures Attached(s', d)
  {
    assert s'.svcs[s.deps[d].from].state == s.svcs[s.deps[d].from].state;
  }

  ghost predicate Attached(s: Sys, d: Did) {
    d in s.deps && s.deps[d].from in s.svcs && (Returns(s, d) ==> s.deps[d].holdingAcq)
  }

  /** A stopped service is wanted again: its dependencies are to be acquired, unless they have not
      been given up yet. */
  function Wanted(v: Service): Service {
    v.(prop := WantedProp(v))
  }

  function WantedProp(v: Service): set<Prop> {
    if PropRelease in v.prop then v.prop - {PropRequire, PropRelease} else v.prop + {PropRequire}
  }

  method Reactivate(s: Sys, x: Sid, ghost w: Slack) returns (s': Sys)
    requires Inv(s, w) && x in s.svcs
    ensures Inv(s', w) && Step(s, s') && MoreQueued(s, s', x)
    ensures s' == PutSvc(s, x, Wanted(s.svcs[x])).(propQ := s'.propQ)
  {
    s' := s;
    if PropRelease !in s.svcs[x].prop {
      s' := AddPropQueue(s, x, w);
    }
    SetService(s', x, Wanted(s.svcs[x]), w);
    s' := PutSvc(s', x, Wanted(s.svcs[x]));
  }

  method Aim(s: Sys, x: Sid, ghost w: Slack) returns (s': Sys)
    requires Inv(s, w) && x in s.svcs
    ensures Inv(s', w) && Step(s, s') && StopsKept(s, s') && s' == PutSvc(s, x, s.svcs[x].(desired := STARTED))
  {
    SetService(s, x, s.svcs[x].(desired := STARTED), w);
    s' := PutSvc(s, x, s.svcs[x].(desired := STARTED));
    SameStateCalm(s, s', x, s'.svcs[x]);
  }

  /** A service that is stopping, but still waits for its dependents, starts again. It stops being up without telling
      its dependencies, which may be waiting for that. */
  predicate TurnsAround(v: Service) {
    !v.pinnedStopped && v.state == STOPPING && v.waitingForDeps && !v.forceStop
  }

  /** Some dependent other than `x` is up. */
  ghost predicate UpBesides(s: Sys, x: Sid, z: Sid) {
    exists d :: d in s.deps && s.deps[d].to == z && s.deps[d].from != x && IsUp(s, s.deps[d].from)
  }

  /** The service is still to be brought down, and nothing but `x` is going to wake it. */
  ghost predicate OnlyWakes(s: Sys, x: Sid, z: Sid) {
    && z in s.svcs && z != x && ToBringDown(s.svcs[z]) && z !in s.transQ.elems
    && s.svcs[z].waitingForDeps && UpAbove(s, z) && !UpBesides(s, x, z)
  }

  ghost predicate WakesNobody(s: Sys, x: Sid) {
    forall z {:trigger OnlyWakes(s, x, z)} :: !OnlyWakes(s, x, z)
  }

  lemma SameWakes(s: Sys, s': Sys, x: Sid)
    requires SameStates(s, s') && WakesNobody(s, x)
    ensures WakesNobody(s', x)
  {
    forall z ensures !OnlyWakes(s', x, z) {
      assert !OnlyWakes(s, x, z);
      if z in s.svcs {
        SameWake(s, s', x, z);
      }
    }
  }

  lemma SameWake(s: Sys, s': Sys, x: Sid, z: Sid)
    requires SameStates(s, s') && z in s.svcs
    ensures OnlyWakes(s', x, z) ==> OnlyWakes(s, x, z)
  {
    assert SameState(s, s', z);
    if UpBesides(s, x, z) {
      var d :| d in s.deps && s.deps[d].to == z && s.deps[d].from != x && IsUp(s, s.deps[d].from);
      assert SameState(s, s', s.deps[d].from);
      assert d in s'.deps && s'.deps[d].to == z && s'.deps[d].from != x && IsUp(s', s'.deps[d].from);
    }
    if UpAbove(s', z) {
      var d :| d in s'.deps && s'.deps[d].to == z && IsUp(s', s'.deps[d].from);
      assert d in s.deps && s.deps[d].from in s.svcs && SameState(s, s', s.deps[d].from);
      assert IsUp(s, s.deps[d].from);
    }
  }

  /** A link after its service has been turned around: what is in the way of `x` is waited on, and ordering dependents
      that are starting wait for it. */
  ghost predicate TurnedLink(s: Sys, s': Sys, x: Sid, d: Did)
    requires d in s.deps
  {
    && d in s'.deps && s'.deps[d] == s.deps[d].(waitingOn := s'.deps[d].waitingOn)
    && (s.deps[d].from != x && s.deps[d].to != x ==> s'.deps[d] == s.deps[d])
    && (s.deps[d].from == x && s.deps[d].to != x && s.deps[d].to in s.svcs ==>
          (s'.deps[d].waitingOn <==> s.deps[d].waitingOn || Blocks(s, d)))
    && (s.deps[d].to == x && s.deps[d].from != x && s.deps[d].from in s.svcs ==>
          (s'.deps[d].waitingOn <==> s.deps[d].waitingOn || Delays(s, d)))
    && (s.deps[d].from == x && s.deps[d].to != x && s.deps[d].to in s.svcs && Blocks(s, d) ==>
          (x in s'.transQ.elems ==> x in s.transQ.elems))
  }

  /** A stopping service starts again. No dependency is acquired, and no other service changes. */
  ghost predicate Turned(s: Sys, s': Sys, x: Sid) {
    && x in s.svcs && x in s'.svcs && s'.svcs == s.svcs[x := s'.svcs[x]] && s'.deps.Keys == s.deps.Keys
    && s' == s.(svcs := s'.svcs, deps := s'.deps, transQ := s'.transQ)
    && TurnedRecord(s.svcs[x], s'.svcs[x])
    && (forall d :: d in s.deps ==> TurnedLink(s, s', x, d))
    && (forall y :: y in s.transQ.elems ==> y in s'.transQ.elems)
    && (forall y :: y in s'.transQ.elems ==> y in s.transQ.elems || y == x)
  }

  ghost predicate TurnedRecord(u: Service, v: Service) {
    v == u.(desired := STARTED, state := STARTING, waitingForDeps := true, startExplicit := v.startExplicit,
            requiredBy := v.requiredBy)
  }

  /** Turning a service around takes the wake-up from exactly those that nothing else would wake. */
  lemma TurnedAround(s: Sys, s': Sys, x: Sid)
    requires Turned(s, s', x) && SameGraph(s, s')
    ensures forall z {:trigger StopAwake(s', z)} :: z in s.svcs && StopAwake(s, z) ==>
              (StopAwake(s', z) <==> !OnlyWakes(s, x, z))
    ensures StopsKept(s, s') <==> WakesNobody(s, x)
  {
    forall z | z in s.svcs && StopAwake(s, z) ensures StopAwake(s', z) <==> !OnlyWakes(s, x, z) {
      UpWithout(s, s', x, z);
    }
    if StopsKept(s, s') {
      forall z ensures !OnlyWakes(s, x, z) { assert z in s.svcs && StopAwake(s, z) ==> StopAwake(s', z); }
    }
  }

  lemma UpWithout(s: Sys, s': Sys, x: Sid, z: Sid)
    requires Turned(s, s', x) && SameGraph(s, s')
    ensures UpAbove(s', z) <==> UpBesides(s, x, z)
    ensures UpBesides(s, x, z) ==> UpAbove(s, z)
  {
    if UpBesides(s, x, z) {
      var d :| d in s.deps && s.deps[d].to == z && s.deps[d].from != x && IsUp(s, s.deps[d].from);
      assert d in s'.deps && s'.deps[d].to == z && IsUp(s', s'.deps[d].from);
    }
    if UpAbove(s', z) {
      var d :| d in s'.deps && s'.deps[d].to == z && IsUp(s', s'.deps[d].from);
      assert d in s.deps && s.deps[d].to == z && s.deps[d].from != x && IsUp(s, s.deps[d].from);
    }
  }

  /** Start a stopped service, or turn around one that is stopping and can still be interrupted. */
  method DoStart(s: Sys, x: Sid, ghost w: Slack) returns (s': Sys)
    requires Inv(s, w) && x in s.svcs
    ensures Inv(s', w) && Step(s, s')
    ensures s.svcs[x].pinnedStopped && s.svcs[x].state == STOPPED ==>
              s'.svcs[x].desired == STOPPED && s'.svcs[x].state == STOPPED && Unasked(s, s')
    ensures !s.svcs[x].pinnedStopped ==>
              s'.svcs[x].desired == STARTED && s'.svcs[x].startExplicit == s.svcs[x].startExplicit
    ensures !s.svcs[x].pinnedStopped && s.svcs[x].state == STOPPED ==> FreshStart(s, s', x)
    ensures TurnsAround(s.svcs[x]) ==> Turned(s, s', x) && (StopsKept(s, s') <==> WakesNobody(s, x))
    ensures TurnsAround(s.svcs[x]) ==> s'.svcs[x].requiredBy == s.svcs[x].requiredBy
    ensures s.svcs[x].state != STOPPED && !TurnsAround(s.svcs[x]) ==> s' == PutSvc(s, x, s.svcs[x].(desired := STARTED))
    ensures !TurnsAround(s.svcs[x]) ==> StopsKept(s, s')
  {
    s' := Aim(s, x, w);
    ghost var s1 := s';
    var v := s.svcs[x];
    if v.pinnedStopped {
      if v.state == STOPPED {
        s' := FailToStart(s', x, w);
        StepTrans(s, s1, s');
        StopsKeptTrans(s, s1, s');
        TameUnasked(s, s1, s');
      }
      return;
    }
    if v.state == STOPPED {
      s' := StartStopped(s', x, w);
      StepTrans(s, s1, s');
      StopsKeptTrans(s, s1, s');
      FreshAnyway(s, s1, s', x);
    } else if TurnsAround(v) {
      s' := StartAgain(s', x, w);
      StepTrans(s, s1, s');
      TurnedAnyway(s, s1, s', x);
      TurnedAround(s, s', x);
    }
  }

  lemma TameUnasked(s: Sys, s1: Sys, s': Sys)
    requires Tame(s1, s') && s1.svcs.Keys == s.svcs.Keys
             && forall y :: y in s.svcs ==> s1.svcs[y].prop <= s.svcs[y].prop
    ensures Unasked(s, s')
  {
    forall y | y in s.svcs && y in s'.svcs ensures UnaskedSvc(s.svcs[y], s'.svcs[y]) {
      assert y in s1.svcs;
      assert TameSvc(s1.svcs[y], s'.svcs[y]);
    }
  }

  method StartAgain(s: Sys, x: Sid, ghost w: Slack) returns (s': Sys)
    requires Inv(s, w) && x in s.svcs && s.svcs[x].desired == STARTED
    ensures Inv(s', w) && Step(s, s') && Turned(s, s', x)
    ensures s'.svcs[x] == s.svcs[x].(state := STARTING, waitingForDeps := true)
  {
    s' := InitiateStart(s, x, w);
    forall d | d in s.deps ensures TurnedLink(s, s', x, d) {
      BegunLink(s, s', x, d);
      InTheWay(s, x, d);
    }
  }

  /** The same when the record has been changed before in what does not matter for that. */
  lemma TurnedAnyway(s: Sys, s1: Sys, s': Sys, x: Sid)
    requires x in s.svcs && x in s1.svcs && s1 == PutSvc(s, x, s1.svcs[x]) && Turned(s1, s', x)
    requires var v := s1.svcs[x];
             v == s.svcs[x].(desired := v.desired, startExplicit := v.startExplicit, requiredBy := v.requiredBy)
    ensures Turned(s, s', x)
  {
    TurnedRecordAnyway(s.svcs[x], s1.svcs[x], s'.svcs[x]);
    PutTwice(s, x, s1.svcs[x], s'.svcs[x]);
    forall d | d in s.deps ensures TurnedLink(s, s', x, d) {
      assert TurnedLink(s1, s', x, d);
    }
  }

  lemma TurnedRecordAnyway(u: Service, v: Service, w: Service)
    requires v == u.(desired := v.desired, startExplicit := v.startExplicit, requiredBy := v.requiredBy)
    requires TurnedRecord(v, w)
    ensures TurnedRecord(u, w)
  {
  }

  method StartStopped(s: Sys, x: Sid, ghost w: Slack) returns (s': Sys)
    requires Inv(s, w) && x in s.svcs && s.svcs[x].state == STOPPED
    ensures Inv(s', w) && Step(s, s') && StopsKept(s, s') && FreshStart(s, s', x)
    ensures s'.svcs[x].desired == s.svcs[x].desired && s'.svcs[x].startExplicit == s.svcs[x].startExplicit
  {
    s' := Revive(s, x, w);
    ghost var s1 := s';
    SameStateCalm(s, s1, x, s1.svcs[x]);
    s' := InitiateStart(s', x, w);
    StepTrans(s, s1, s');
    StopsKeptTrans(s, s1, s');
    FreshFrom(s, s1, s', x);
  }

  lemma FreshFrom(s: Sys, s1: Sys, s': Sys, x: Sid)
    requires x in s.svcs && x in s1.svcs && s1.svcs[x] == Wanted(s.svcs[x]).(requiredBy := s1.svcs[x].requiredBy)
             && s1.svcs.Keys == s.svcs.Keys
    requires MoreQueued(s, s1, x) && s1 == s.(svcs := s1.svcs, deps := s1.deps, propQ := s1.propQ)
             && s1.deps.Keys == s.deps.Keys
    requires forall y :: y in s.svcs && y != x ==> s1.svcs[y] == s.svcs[y]
    requires forall d :: d in s.deps ==> HoldsMore(s, s1, x, d)
    requires var t := PutSvc(s1, x, s1.svcs[x].(state := STARTING, waitingForDeps := true));
             Marked(t, s'.(transQ := t.transQ), Blocking(t, x) + Delayed(t, x)) && s'.svcs == t.svcs
    requires forall y :: y in s'.transQ.elems ==> y in s1.transQ.elems || y == x
    requires x in s'.transQ.elems ==>
               || x in s1.transQ.elems
               || Blocking(PutSvc(s1, x, s1.svcs[x].(state := STARTING, waitingForDeps := true)), x) == {}
    ensures FreshStart(s, s', x)
  {
    forall d | d in s.deps ensures FreshLink(s, s', x, d) {
      assert HoldsMore(s, s1, x, d);
      BegunLink(s1, s', x, d);
      InTheWay(s1, x, d);
      SameBlocks(s, s1, x, d);
      if s.deps[d].to == x && s.deps[d].from != x {
        StaysAttached(s1, s', x, d);
      }
    }
  }

  lemma SameBlocks(s: Sys, s1: Sys, x: Sid, d: Did)
    requires d in s.deps && d in s1.deps && s1.deps[d] == s.deps[d].(holdingAcq := s1.deps[d].holdingAcq)
    requires s1.svcs.Keys == s.svcs.Keys && forall y :: y in s.svcs && y != x ==> s1.svcs[y] == s.svcs[y]
    ensures s.deps[d].to != x && s.deps[d].to in s.svcs ==> (Blocks(s1, d) <==> Blocks(s, d))
    ensures s.deps[d].from != x && s.deps[d].from in s.svcs ==> (Delays(s1, d) <==> Delays(s, d))
  {
  }

  lemma InTheWay(s: Sys, x: Sid, d: Did)
    requires x in s.svcs && d in s.deps
    ensures s.deps[d].from == x && s.deps[d].to != x && s.deps[d].to in s.svcs && Blocks(s, d) ==>
              Blocking(PutSvc(s, x, s.svcs[x].(state := STARTING, waitingForDeps := true)), x) != {}
  {
    var t := PutSvc(s, x, s.svcs[x].(state := STARTING, waitingForDeps := true));
    if s.deps[d].from == x && s.deps[d].to != x && s.deps[d].to in s.svcs && Blocks(s, d) {
      assert d in Blocking(t, x);
    }
  }

  /** What beginning to start does to a link. */
  lemma BegunLink(s: Sys, s': Sys, x: Sid, d: Did)
    requires x in s.svcs && d in s.deps
    requires var t := PutSvc(s, x, s.svcs[x].(state := STARTING, waitingForDeps := true));
             Marked(t, s'.(transQ := t.transQ), Blocking(t, x) + Delayed(t, x))
    ensures d in s'.deps && s'.deps[d] == s.deps[d].(waitingOn := s'.deps[d].waitingOn)
            && (s.deps[d].waitingOn ==> s'.deps[d].waitingOn)
    ensures s.deps[d].from != x && s.deps[d].to != x ==> s'.deps[d] == s.deps[d]
    ensures s.deps[d].to == x && s.deps[d].from != x && s.deps[d].from in s.svcs ==>
              (s'.deps[d].waitingOn <==> s.deps[d].waitingOn || Delays(s, d))
    ensures s.deps[d].from == x && s.deps[d].to != x && s.deps[d].to in s.svcs ==>
              (s'.deps[d].waitingOn <==> s.deps[d].waitingOn || Blocks(s, d))
  {
    var t := PutSvc(s, x, s.svcs[x].(state := STARTING, waitingForDeps := true));
    var m := s'.(transQ := t.transQ);
    assert m.deps[d] == t.deps[d].(waitingOn := t.deps[d].waitingOn || d in Blocking(t, x) + Delayed(t, x));
    assert s.deps[d].from != x && s.deps[d].from in s.svcs && s.deps[d].to == x ==>
             (d in Delayed(t, x) <==> Delays(s, d));
    assert s.deps[d].from == x && s.deps[d].to != x && s.deps[d].to in s.svcs ==>
             (d in Blocking(t, x) <==> Blocks(s, d));
  }

  /** A link that is held again stays so while its service begins to start. */
  lemma StaysAttached(s: Sys, s': Sys, x: Sid, d: Did)
    requires x in s.svcs && Attached(s, d) && s.deps[d].from != x
    requires var t := PutSvc(s, x, s.svcs[x].(state := STARTING, waitingForDeps := true));
             Marked(t, s'.(transQ := t.transQ), Blocking(t, x) + Delayed(t, x))
    ensures Attached(s', d)
  {
    var t := PutSvc(s, x, s.svcs[x].(state := STARTING, waitingForDeps := true));
    var m := s'.(transQ := t.transQ);
    assert m.deps[d] == t.deps[d].(waitingOn := m.deps[d].waitingOn) && (t.deps[d].waitingOn ==> m.deps[d].waitingOn);
  }

  /** A stopped service comes back: its soft dependents hold it again, and it is to acquire its dependencies. */
  method Revive(s: Sys, x: Sid, ghost w: Slack) returns (s': Sys)
    requires Inv(s, w) && x in s.svcs
    ensures Inv(s', w) && Step(s, s') && s'.svcs[x] == Wanted(s.svcs[x]).(requiredBy := s'.svcs[x].requiredBy)
    ensures MoreQueued(s, s', x) && s' == s.(svcs := s'.svcs, deps := s'.deps, propQ := s'.propQ)
    ensures forall y :: y in s.svcs && y != x ==> s'.svcs[y] == s.svcs[y]
    ensures forall d :: d in s.deps ==> HoldsMore(s, s', x, d)
  {
    s' := ReattachAll(s, x, w);
    ghost var s1 := s';
    s' := Reactivate(s', x, w);
    StepTrans(s, s1, s');
    forall d | d in s.deps ensures HoldsMore(s, s', x, d) {
      assert DepOK(s, d) && s1.deps[d] == s.deps[d].(holdingAcq := s1.deps[d].holdingAcq);
      assert s.deps[d].to == x ==> Attached(s1, d);
    }
  }

  ghost predicate HoldsMore(s: Sys, s': Sys, x: Sid, d: Did)
    requires d in s.deps
  {
    && d in s'.deps && s'.deps[d] == s.deps[d].(holdingAcq := s'.deps[d].holdingAcq)
    && (s.deps[d].to == x ==> Attached(s', d)) && (s.deps[d].to != x ==> s'.deps[d] == s.deps[d])
    && (s.deps[d].holdingAcq ==> s'.deps[d].holdingAcq)
  }

  /** A stopped service that is asked to start begins to, soft dependents that are up hold it again, ordering dependents
      that are starting wait for it, and nothing else changes. */
  ghost predicate FreshStart(s: Sys, s': Sys, x: Sid) {
    && x in s.svcs && s'.svcs.Keys == s.svcs.Keys && s'.deps.Keys == s.deps.Keys && s'.consoleQ == s.consoleQ
    && BegunFrom(s.svcs[x], s'.svcs[x])
    && (forall y :: y in s.svcs && y != x ==> s'.svcs[y] == s.svcs[y])
    && (forall d :: d in s.deps ==> FreshLink(s, s', x, d))
    && MoreQueued(s, s', x) && (forall y :: y in s'.transQ.elems ==> y in s.transQ.elems || y == x)
  }

  ghost predicate BegunFrom(u: Service, v: Service) {
    && v.prop == WantedProp(u) && v.state == STARTING && v.waitingForDeps
    && v == u.(state := v.state, waitingForDeps := v.waitingForDeps, prop := v.prop,
               desired := v.desired, startExplicit := v.startExplicit, requiredBy := v.requiredBy)
  }

  ghost predicate FreshLink(s: Sys, s': Sys, x: Sid, d: Did)
    requires d in s.deps
  {
    && d in s'.deps && s'.deps[d] == s.deps[d].(waitingOn := s'.deps[d].waitingOn, holdingAcq := s'.deps[d].holdingAcq)
    && (s.deps[d].to == x && s.deps[d].from != x ==> Attached(s', d))
    && (s.deps[d].waitingOn ==> s'.deps[d].waitingOn) && (s.deps[d].holdingAcq ==> s'.deps[d].holdingAcq)
    && (s.deps[d].to != x ==> s'.deps[d].holdingAcq == s.deps[d].holdingAcq)
    && (s.deps[d].to == x && s.deps[d].from != x && s.deps[d].from in s.svcs && Delays(s, d) ==> s'.deps[d].waitingOn)
    && (s.deps[d].from == x && s.deps[d].to != x && s.deps[d].to in s.svcs ==>
          (s'.deps[d].waitingOn <==> s.deps[d].waitingOn || Blocks(s, d)))
    && (s.deps[d].from == x && s.deps[d].to != x && s.deps[d].to in s.svcs && Blocks(s, d) ==>
          (x in s'.transQ.elems ==> x in s.transQ.elems))
    && (s.deps[d].from != x && s.deps[d].to != x ==> s'.deps[d] == s.deps[d])
  }

  /** Every regular dependency of the service is held. */
  ghost predicate HoldsAll(s: Sys, x: Sid) {
    forall d :: d in s.deps && s.deps[d].from == x && s.deps[d].kind == REGULAR ==> s.deps[d].holdingAcq
  }

  /** ... or is going to be. */
  ghost predicate WillHold(s: Sys, x: Sid) {
    x in s.svcs && (PropRequire in s.svcs[x].prop || HoldsAll(s, x))
  }

  /** A stopped service that starts is going to hold its dependencies, unless it was about to give them up and one of
      them is not held. */
  lemma FreshHolds(s: Sys, s': Sys, x: Sid)
    requires FreshStart(s, s', x) && !DependsOnIt(s, x, x)
    ensures WillHold(s', x) <==> PropRelease !in s.svcs[x].prop || HoldsAll(s, x)
  {
    assert forall d :: d in s.deps && s.deps[d].from == x ==> FreshLink(s, s', x, d) && s.deps[d].to != x;
  }

  /** One that is turned around does not ask for them: it is going to hold them only if it was already. */
  lemma TurnedHolds(s: Sys, s': Sys, x: Sid)
    requires Turned(s, s', x)
    ensures WillHold(s', x) <==> WillHold(s, x)
  {
    assert forall d :: d in s.deps ==> TurnedLink(s, s', x, d);
  }

  lemma FreshAnyway(s: Sys, s1: Sys, s': Sys, x: Sid)
    requires x in s.svcs && x in s1.svcs && s1 == PutSvc(s, x, s1.svcs[x]) && FreshStart(s1, s', x)
    requires var v := s1.svcs[x];
             v == s.svcs[x].(desired := v.desired, startExplicit := v.startExplicit, requiredBy := v.requiredBy)
    ensures FreshStart(s, s', x)
  {
    BegunAnyway(s.svcs[x], s1.svcs[x], s'.svcs[x]);
    forall d | d in s.deps ensures FreshLink(s, s', x, d) { assert FreshLink(s1, s', x, d); }
  }

  lemma BegunAnyway(u: Service, v: Service, w: Service)
    requires v == u.(desired := v.desired, startExplicit := v.startExplicit, requiredBy := v.requiredBy)
             && BegunFrom(v, w)
    ensures BegunFrom(u, w)
  {
    assert v.prop == u.prop;
  }

  method Start(s: Sys, x: Sid, ghost w: Slack) returns (s': Sys)
    requires Inv(s, w) && x in s.svcs
    ensures Inv(s', w) && Step(s, s')
    ensures s.svcs[x].pinnedStopped ==> s' == s
    ensures !s.svcs[x].pinnedStopped ==> s'.svcs[x].startExplicit && s'.svcs[x].desired == STARTED
    ensures !s.svcs[x].pinnedStopped && s.svcs[x].state == STOPPED ==> FreshStart(s, s', x)
    ensures TurnsAround(s.svcs[x]) ==> Turned(s, s', x) && s'.svcs[x].requiredBy == Activated(s.svcs[x]).requiredBy
    ensures StopsKept(s, s') <==> (TurnsAround(s.svcs[x]) ==> WakesNobody(s, x))
  {
    s' := s;
    if s.svcs[x].pinnedStopped {
      UpKeepsSelf(s);
      return;
    }
    s' := StartActive(s, x, w);
  }

  method StartActive(s: Sys, x: Sid, ghost w: Slack) returns (s': Sys)
    requires Inv(s, w) && x in s.svcs && !s.svcs[x].pinnedStopped
    ensures Inv(s', w) && Step(s, s') && s'.svcs[x].startExplicit && s'.svcs[x].desired == STARTED
    ensures s.svcs[x].state == STOPPED ==> FreshStart(s, s', x)
    ensures TurnsAround(s.svcs[x]) ==> Turned(s, s', x) && s'.svcs[x].requiredBy == Activated(s.svcs[x]).requiredBy
    ensures StopsKept(s, s') <==> (TurnsAround(s.svcs[x]) ==> WakesNobody(s, x))
  {
    s' := Activate(s, x, w);
    ghost var s1 := s';
    s' := DoStart(s', x, w);
    StepTrans(s, s1, s');
    ActivatedSame(s.svcs[x]);
    TurnedActive(s, s1, s', x);
  }

  lemma TurnedActive(s: Sys, s1: Sys, s': Sys, x: Sid)
    requires x in s.svcs && s1 == PutSvc(s, x, Activated(s.svcs[x])) && StopsKept(s, s1) && SameGraph(s, s')
    requires TurnsAround(s1.svcs[x]) ==> Turned(s1, s', x)
    requires !TurnsAround(s1.svcs[x]) ==> StopsKept(s1, s')
    requires s1.svcs[x].state == STOPPED ==> FreshStart(s1, s', x)
    ensures s.svcs[x].state == STOPPED ==> FreshStart(s, s', x)
    ensures TurnsAround(s.svcs[x]) ==> Turned(s, s', x)
    ensures StopsKept(s, s') <==> (TurnsAround(s.svcs[x]) ==> WakesNobody(s, x))
  {
    ActivatedSame(s.svcs[x]);
    if s.svcs[x].state == STOPPED {
      FreshActive(s, s1, s', x);
    }
    if TurnsAround(s.svcs[x]) {
      TurnedAnyway(s, s1, s', x);
      TurnedAround(s, s', x);
    } else {
      StopsKeptTrans(s, s1, s');
    }
  }

  /** Nothing that decides how a service starts depends on the activation. */
  lemma ActivatedSame(v: Service)
    ensures TurnsAround(Activated(v)) == TurnsAround(v) && Activated(v).state == v.state
    ensures Activated(v).pinnedStopped == v.pinnedStopped
    ensures Activated(v) == v.(desired := Activated(v).desired, startExplicit := Activated(v).startExplicit,
                               requiredBy := Activated(v).requiredBy)
  {
  }

  lemma FreshActive(s: Sys, s1: Sys, s': Sys, x: Sid)
    requires x in s.svcs && s1 == PutSvc(s, x, Activated(s.svcs[x])) && FreshStart(s1, s', x)
    ensures FreshStart(s, s', x)
  {
    ActivatedSame(s.svcs[x]);
    FreshAnyway(s, s1, s', x);
  }

  /** The explicit activation counts once. */
  function Activated(v: Service): Service {
    v.(startExplicit := true, requiredBy := v.requiredBy + (if v.startExplicit then 0 else 1))
  }

  method Activate(s: Sys, x: Sid, ghost w: Slack) returns (s': Sys)
    requires Inv(s, w) && x in s.svcs
    ensures Inv(s', w) && Step(s, s') && StopsKept(s, s') && s' == PutSvc(s, x, Activated(s.svcs[x]))
  {
    SetService(s, x, Activated(s.svcs[x]), w);
    s' := PutSvc(s, x, Activated(s.svcs[x]));
    SameStateCalm(s, s', x, s'.svcs[x]);
  }
}
