/** Services and links that come and go while others run. */
module ServiceLinks {
  import opened QueueShape
  import opened ServiceModel
  import opened ServiceStops
  import opened ServiceStarts
  import opened ServiceRuns
  import opened ServicePropagation

  // ---------------------------------------------------------------- a new link

  function WithLink(s: Sys, d: Did, p: Dep): Sys
    requires p.from in s.dependsOn && p.to in s.dependents
  {
    s.(deps := s.deps[d := p],
       dependsOn := s.dependsOn[p.from := s.dependsOn[p.from] + [d]],
       dependents := s.dependents[p.to := s.dependents[p.to] + [d]])
  }

  lemma {:induction false} HeldAppend(deps: map<Did, Dep>, ds: seq<Did>, d: Did)
    requires d in deps && !deps[d].holdingAcq
    ensures Held(deps, ds + [d]) == Held(deps, ds)
  {
    if ds == [] {
      assert ds + [d] == [d];
      assert [d][1..] == [];
    } else {
      assert (ds + [d])[1..] == ds[1..] + [d];
      HeldAppend(deps, ds[1..], d);
    }
  }

  lemma LinkGraph(s: Sys, d: Did, p: Dep)
    requires WF(s) && p.from in s.svcs && p.to in s.svcs && d !in s.deps && p.from in s.dependsOn
             && p.to in s.dependents
    ensures WF(WithLink(s, d, p))
  {
    var s' := WithLink(s, d, p);
    forall x | x in s'.svcs ensures LinksOK(s', x) { assert LinksOK(s, x); }
    forall e | e in s'.deps ensures DepOK(s', e) {
      if e != d {
        assert DepOK(s, e);
        assert LinksOK(s, s.deps[e].from) && LinksOK(s, s.deps[e].to);
      }
    }
  }

  lemma LinkKeeps(s: Sys, d: Did, p: Dep, w: Slack)
    requires Inv(s, w) && p.from in s.svcs && p.to in s.svcs && d !in s.deps && p.from in s.dependsOn
             && p.to in s.dependents
    requires !p.holdingAcq
    ensures Inv(WithLink(s, d, p), w)
  {
    var s' := WithLink(s, d, p);
    LinkGraph(s, d, p);
    forall x | x in s'.svcs && x !in w.but ensures (assert LinksOK(s', x); Awake(s', x)) {
      assert LinksOK(s, x) && Awake(s, x);
      if SomeWaiting(s.deps, s.dependsOn[x]) {
        var e :| e in s.dependsOn[x] && e in s.deps && s.deps[e].waitingOn;
        assert e in s'.dependsOn[x] && e in s'.deps && s'.deps[e].waitingOn;
      }
    }
    forall x | x in s'.svcs ensures (assert LinksOK(s', x); Counted(s', x)) {
      assert LinksOK(s, x) && Counted(s, x);
      assert d !in s.dependents[x];
      forall e | e in s.dependents[x] ensures SameHold(s.deps, s'.deps, e) { }
      HeldFrame(s.deps, s'.deps, s.dependents[x]);
      HeldAppend(s'.deps, s.dependents[x], d);
    }
    forall x | x in s'.svcs ensures Pending(s', x, w.due) { assert Pending(s, x, w.due); }
  }

  // ---------------------------------------------------------------- a new service

  function WithService(s: Sys, x: Sid, v: Service): Sys {
    s.(svcs := s.svcs[x := v], dependsOn := s.dependsOn[x := []], dependents := s.dependents[x := []],
       doubled := s.doubled[x := 0])
  }

  lemma NewServiceKeeps(s: Sys, x: Sid, v: Service, w: Slack)
    requires Inv(s, w) && x !in s.svcs && v.state == STOPPED && v.requiredBy == 0 && !v.startExplicit && v.prop == {}
    ensures Inv(WithService(s, x, v), w)
  {
    var s' := WithService(s, x, v);
    forall y | y in s'.svcs ensures LinksOK(s', y) { assert y != x ==> LinksOK(s, y); }
    forall d | d in s'.deps ensures DepOK(s', d) { assert DepOK(s, d); }
    forall y | y in s'.svcs && y !in w.but ensures (assert LinksOK(s', y); Awake(s', y)) {
      assert y != x ==> LinksOK(s, y) && Awake(s, y);
    }
    forall y | y in s'.svcs ensures (assert LinksOK(s', y); Counted(s', y)) {
      assert y != x ==> LinksOK(s, y) && Counted(s, y);
    }
    forall y | y in s'.svcs ensures Pending(s', y, w.due) { assert y != x ==> Pending(s, y, w.due); }
  }

  // ---------------------------------------------------------------- a link removed

  function WithoutLink(s: Sys, d: Did): Sys
    requires d in s.deps && s.deps[d].from in s.dependsOn && s.deps[d].to in s.dependents
  {
    var p := s.deps[d];
    s.(deps := s.deps - {d},
       dependsOn := s.dependsOn[p.from := Without(s.dependsOn[p.from], d)],
       dependents := s.dependents[p.to := Without(s.dependents[p.to], d)])
  }

  lemma {:induction false} WithoutDistinct(ds: seq<Did>, d: Did)
    requires Distinct(ds)
    ensures Distinct(Without(ds, d))
  {
    if ds != [] {
      assert forall e :: e in ds[1..] ==> e != ds[0];
      WithoutDistinct(ds[1..], d);
      var r := Without(ds[1..], d);
      if ds[0] != d {
        assert Without(ds, d) == [ds[0]] + r;
        assert ds[0] !in r;
      }
    }
  }

  lemma {:induction false} HeldWithout(deps: map<Did, Dep>, ds: seq<Did>, d: Did)
    requires d in deps && !deps[d].holdingAcq
    ensures Held(deps - {d}, Without(ds, d)) == Held(deps, ds)
  {
    if ds != [] {
      HeldWithout(deps, ds[1..], d);
      if ds[0] != d {
        assert ([ds[0]] + Without(ds[1..], d))[1..] == Without(ds[1..], d);
      }
    }
  }

  lemma UnlinkGraph(s: Sys, d: Did)
    requires WF(s) && d in s.deps && s.deps[d].from in s.dependsOn && s.deps[d].to in s.dependents
    ensures WF(WithoutLink(s, d))
  {
    var s' := WithoutLink(s, d);
    var p := s.deps[d];
    assert DepOK(s, d);
    forall x | x in s'.svcs ensures LinksOK(s', x) {
      assert LinksOK(s, x);
      if x == p.from { WithoutDistinct(s.dependsOn[x], d); }
      if x == p.to { WithoutDistinct(s.dependents[x], d); }
    }
    forall e | e in s'.deps ensures DepOK(s', e) { assert DepOK(s, e); }
  }

  /** Removing a link that holds nothing keeps everything but, maybe, the wake-up of its dependent. */
  lemma UnlinkKeeps(s: Sys, d: Did, w: Slack)
    requires Inv(s, w) && d in s.deps && s.deps[d].from in s.dependsOn && s.deps[d].to in s.dependents
             && !s.deps[d].holdingAcq
    ensures Inv(WithoutLink(s, d), Excuse(w, s.deps[d].from))
  {
    var s' := WithoutLink(s, d);
    var p := s.deps[d];
    UnlinkGraph(s, d);
    forall x | x in s'.svcs && x !in Excuse(w, p.from).but ensures (assert LinksOK(s', x); Awake(s', x)) {
      assert LinksOK(s, x) && Awake(s, x);
      if SomeWaiting(s.deps, s.dependsOn[x]) {
        var e :| e in s.dependsOn[x] && e in s.deps && s.deps[e].waitingOn;
        assert e in s'.dependsOn[x] && e in s'.deps && s'.deps[e].waitingOn;
      }
    }
    forall x | x in s'.svcs ensures (assert LinksOK(s', x); Counted(s', x)) {
      assert LinksOK(s, x) && Counted(s, x);
      if x == p.to {
        HeldWithout(s.deps, s.dependents[x], d);
      } else {
        assert d !in s.dependents[x];
        forall e | e in s.dependents[x] ensures SameHold(s.deps, s'.deps, e) { }
        HeldFrame(s.deps, s'.deps, s.dependents[x]);
      }
    }
    forall x | x in s'.svcs ensures Pending(s', x, w.due) { assert Pending(s, x, w.due); }
  }

  /** The dependent is not waiting, or something besides the link will wake it. */
  ghost predicate WakesAnyway(s: Sys, d: Did)
    requires d in s.deps && s.deps[d].from in s.svcs
  {
    var x := s.deps[d].from;
    s.svcs[x].state == STARTING && s.svcs[x].waitingForDeps ==>
      x in s.transQ.elems || exists e :: e in s.deps && e != d && s.deps[e].from == x && s.deps[e].waitingOn
  }

  /** Removing a link loses the wake-up of a waiting dependent exactly if that is not queued and no
      other link of it is waited on. */
  lemma UnlinkWakes(s: Sys, d: Did)
    requires WF(s) && d in s.deps && s.deps[d].from in s.dependsOn && s.deps[d].to in s.dependents
             && s.deps[d].from in s.svcs
    ensures Awake(WithoutLink(s, d), s.deps[d].from) <==> WakesAnyway(s, d)
  {
    var x, s' := s.deps[d].from, WithoutLink(s, d);
    if e :| e in s.deps && e != d && s.deps[e].from == x && s.deps[e].waitingOn {
      assert DepOK(s, e);
      assert e in s'.dependsOn[x] && e in s'.deps && s'.deps[e].waitingOn;
    }
    if SomeWaiting(s'.deps, s'.dependsOn[x]) {
      var e :| e in s'.dependsOn[x] && e in s'.deps && s'.deps[e].waitingOn;
      OwnLink(s, x, e);
    }
  }

  /** Some dependent is up, by another link than `d`. */
  ghost predicate UpOtherwise(s: Sys, d: Did, z: Sid) {
    exists e :: e in s.deps && e != d && s.deps[e].to == z && IsUp(s, s.deps[e].from)
  }

  /** The dependency is still to be brought down, and the dependent at the other end of this link is the only one that
      is going to wake it. */
  ghost predicate LastToWake(s: Sys, d: Did)
    requires d in s.deps
  {
    var z := s.deps[d].to;
    && z in s.svcs && ToBringDown(s.svcs[z]) && z !in s.transQ.elems && s.svcs[z].waitingForDeps
    && IsUp(s, s.deps[d].from) && !UpOtherwise(s, d, z)
  }

  /** Removing a link queues nothing, so it takes the wake-up from a dependency that is still to be brought down exactly
      if nothing else would wake that. */
  lemma UnlinkStops(s: Sys, d: Did)
    requires WF(s) && d in s.deps && s.deps[d].from in s.dependsOn && s.deps[d].to in s.dependents
    ensures StopsKept(s, WithoutLink(s, d)) <==> !LastToWake(s, d)
  {
    var s', x := WithoutLink(s, d), s.deps[d].to;
    forall z | z in s.svcs && StopAwake(s, z) ensures StopAwake(s', z) <==> !(z == x && LastToWake(s, d)) {
      UpUnlinked(s, d, z);
    }
    forall z | z in s.svcs && Listens(s, z) ensures Listens(s', z) { }
    if LastToWake(s, d) {
      assert UpAbove(s, x) && StopAwake(s, x) && !StopAwake(s', x);
    }
  }

  lemma UpUnlinked(s: Sys, d: Did, z: Sid)
    requires d in s.deps && s.deps[d].from in s.dependsOn && s.deps[d].to in s.dependents
    ensures UpAbove(WithoutLink(s, d), z) <==> UpOtherwise(s, d, z)
    ensures UpAbove(s, z) <==> UpOtherwise(s, d, z) || (s.deps[d].to == z && IsUp(s, s.deps[d].from))
  {
    var s' := WithoutLink(s, d);
    if UpOtherwise(s, d, z) {
      var e :| e in s.deps && e != d && s.deps[e].to == z && IsUp(s, s.deps[e].from);
      assert e in s'.deps && s'.deps[e].to == z && IsUp(s', s'.deps[e].from);
      assert UpAbove(s, z);
    }
    if UpAbove(s', z) {
      var e :| e in s'.deps && s'.deps[e].to == z && IsUp(s', s'.deps[e].from);
      assert e in s.deps && e != d && s.deps[e].to == z && IsUp(s, s.deps[e].from);
    }
    if UpAbove(s, z) && !UpOtherwise(s, d, z) {
      var e :| e in s.deps && s.deps[e].to == z && IsUp(s, s.deps[e].from);
      assert e == d;
    }
  }

  /** Add a dependency. It is acquired at once if the dependent is up and the dependency is strict or
      up as well. */
  method AddDep(s: Sys, d: Did, from: Sid, to: Sid, kind: Kind, ghost w: Slack) returns (s': Sys)
    requires Inv(s, w) && from in s.svcs && to in s.svcs && d !in s.deps
    ensures Inv(s', w) && s'.doubled == s.doubled && s'.svcs.Keys == s.svcs.Keys
    ensures s'.deps.Keys == s.deps.Keys + {d}
    ensures var up := s.svcs[from].state == STARTING || s.svcs[from].state == STARTED;
            var there := s.svcs[to].state == STARTING || s.svcs[to].state == STARTED;
            s'.deps[d] ==
              Dep(from, to, kind, false, up && kind != BEFORE && kind != AFTER && (kind == REGULAR || there))
    ensures from in s.dependsOn && to in s.dependents && (!s'.deps[d].holdingAcq ==> s' == WithLink(s, d, s'.deps[d]))
    ensures s'.deps[d].holdingAcq ==>
              && s' == PutSvc(WithLink(s, d, s'.deps[d]), to, Required(s.svcs[to])).(propQ := s'.propQ)
              && MoreQueued(s, s', to) && (s.svcs[to].requiredBy > 0 ==> s'.propQ == s.propQ)
  {
    var p := Dep(from, to, kind, false, false);
    assert LinksOK(s, from) && LinksOK(s, to);
    LinkKeeps(s, d, p, w);
    s' := WithLink(s, d, p);
    var f, t := s.svcs[from].state, s.svcs[to].state;
    if !p.IsOnlyOrdering() && (kind == REGULAR || t == STARTED || t == STARTING) && (f == STARTING || f == STARTED) {
      s' := Acquire(s', d, w);
    }
  }

  method StartDep(s: Sys, d: Did, ghost w: Slack) returns (s': Sys)
    requires Inv(s, w) && d in s.deps
    ensures Inv(s', w) && SafeRun(s, s') && s'.deps == s.deps[d := s.deps[d].(holdingAcq := true)]
    ensures s.deps[d].to in s.svcs && MoreQueued(s, s', s.deps[d].to) && s'.transQ == s.transQ
            && s'.consoleQ == s.consoleQ
    ensures s.deps[d].holdingAcq ==> s' == s
    ensures !s.deps[d].holdingAcq ==> s'.svcs == s.svcs[s.deps[d].to := Required(s.svcs[s.deps[d].to])]
  {
    s' := s;
    assert DepOK(s, d);
    UpKeepsSelf(s);
    if !s.deps[d].holdingAcq {
      s' := Acquire(s, d, w);
      AcquireKeepsStops(s, s', s.deps[d].to);
    } else {
      assert s.deps[d := s.deps[d].(holdingAcq := true)] == s.deps;
    }
  }

  /** What is left when a link is removed: if it held the service, that has one acquisition less. */
  function Unlinked(s: Sys, d: Did): Sys
    requires d in s.deps && s.deps[d].from in s.dependsOn && s.deps[d].to in s.dependents && s.deps[d].to in s.svcs
  {
    var t := WithoutLink(s, d);
    if s.deps[d].holdingAcq then PutSvc(t, s.deps[d].to, LessWanted(t.svcs[s.deps[d].to])) else t
  }

  /** Whether giving the acquisition back stops the service. */
  predicate StopsTarget(s: Sys, d: Did)
    requires d in s.deps && s.deps[d].to in s.svcs
  {
    s.deps[d].holdingAcq && StopsThen(s.svcs[s.deps[d].to])
  }

  /** Remove a dependency; what it held is released. Its dependent has lost its wake-up if and only if nothing else
      wakes it and it is still starting and waiting, which it may not be if the dependency has to stop. The dependency
      has lost its own if and only if nothing else would wake it. */
  method RmDep(s: Sys, d: Did, ghost w: Slack) returns (s': Sys)
    requires Inv(s, w) && d in s.deps
    ensures Inv(s', Excuse(w, s.deps[d].from)) && s'.doubled == s.doubled
    ensures s'.deps.Keys == s.deps.Keys - {d} && s'.svcs.Keys == s.svcs.Keys
    ensures s.deps[d].from in s.svcs && s.deps[d].to in s.svcs && s.deps[d].from in s.dependsOn
            && s.deps[d].to in s.dependents
    ensures s.deps[d].from !in w.but ==> (Inv(s', w) <==> WakesAnyway(s, d) || !Waits(s'.svcs[s.deps[d].from]))
    ensures StopsKept(s, s') <==> !LastToWake(s, d)
    ensures Down(WithoutLink(s, d), s')
    ensures !StopsTarget(s, d) ==> s' == Unlinked(s, d).(propQ := s'.propQ)
    ensures !s.deps[d].holdingAcq ==> s' == WithoutLink(s, d)
    ensures StopsTarget(s, d) && s.svcs[s.deps[d].to].state == STARTED ==> s'.svcs[s.deps[d].to].state == STOPPING
  {
    assert DepOK(s, d);
    ghost var x := s.deps[d].from;
    s' := Unlink(s, d, w);
    assert LinksOK(s', x);
    if !WakesAnyway(s, d) {
      if !Waits(s'.svcs[x]) {
        AwakeAgain(s', x, w);
      } else if x !in w.but {
        NotAwake(s, s', d, w);
      }
    }
    StopsUnlinked(s, s', d);
  }

  lemma StopsUnlinked(s: Sys, s': Sys, d: Did)
    requires WF(s) && d in s.deps && s.deps[d].from in s.dependsOn && s.deps[d].to in s.dependents
    requires s.deps[d].to in s.svcs && Down(WithoutLink(s, d), s')
    requires !StopsTarget(s, d) ==> s' == Unlinked(s, d).(propQ := s'.propQ)
    ensures StopsKept(s, s') <==> !LastToWake(s, d)
  {
    var t, z := WithoutLink(s, d), s.deps[d].to;
    UnlinkStops(s, d);
    DownKeepsStops(t, s');
    if LastToWake(s, d) {
      UpUnlinked(s, d, z);
      StillAsleep(t, s', z);
      assert StopAwake(s, z) && !StopAwake(s', z);
    } else {
      StopsKeptTrans(s, t, s');
    }
  }

  lemma StillAsleep(t: Sys, s': Sys, z: Sid)
    requires z in t.svcs && !StopAwake(t, z) && SameGraph(t, s') && s'.transQ == t.transQ
    requires s'.svcs == t.svcs || s'.svcs == t.svcs[z := LessWanted(t.svcs[z])]
    ensures !StopAwake(s', z)
  {
    if UpAbove(s', z) {
      var e :| e in s'.deps && s'.deps[e].to == z && IsUp(s', s'.deps[e].from);
      assert e in t.deps && t.deps[e].to == z && IsUp(t, t.deps[e].from);
    }
  }

  predicate Waits(v: Service) {
    v.state == STARTING && v.waitingForDeps
  }

  /** A dependent that nothing else wakes is not woken by what follows. */
  lemma NotAwake(s: Sys, s': Sys, d: Did, w: Slack)
    requires WF(s) && d in s.deps && s.deps[d].from in s.dependsOn && s.deps[d].to in s.dependents
    requires s.deps[d].from in s.svcs && s.deps[d].from !in w.but && !WakesAnyway(s, d)
    requires Down(WithoutLink(s, d), s') && Waits(s'.svcs[s.deps[d].from])
    ensures !Inv(s', w)
  {
    var t, x := WithoutLink(s, d), s.deps[d].from;
    assert !SomeWaitedOn(t, x) && x !in t.transQ.elems;
    assert x in s'.transQ.elems ==> Queues(t, s', x);
    if Inv(s', w) {
      AwakeOf(s', x, w);
      NoneWaitedLater(t, s', x);
    }
  }

  lemma NoneWaitedLater(t: Sys, s': Sys, x: Sid)
    requires WF(s') && x in s'.svcs && x in s'.dependsOn && SomeWaiting(s'.deps, s'.dependsOn[x]) && Down(t, s')
    ensures SomeWaitedOn(t, x)
  {
    var e :| e in s'.dependsOn[x] && e in s'.deps && s'.deps[e].waitingOn;
    OwnLink(s', x, e);
    assert DepDown(t.deps[e], s'.deps[e]);
  }

  lemma AwakeOf(s: Sys, x: Sid, w: Slack)
    requires Inv(s, w) && x in s.svcs && x !in w.but
    ensures x in s.dependsOn && Awake(s, x)
  {
    assert LinksOK(s, x);
  }

  method Unlink(s: Sys, d: Did, ghost w: Slack) returns (s': Sys)
    requires Inv(s, w) && d in s.deps && DepOK(s, d)
    ensures Inv(s', if WakesAnyway(s, d) then w else Excuse(w, s.deps[d].from)) && s'.doubled == s.doubled
    ensures s'.deps.Keys == s.deps.Keys - {d} && s'.svcs.Keys == s.svcs.Keys
    ensures !StopsTarget(s, d) ==> s' == Unlinked(s, d).(propQ := s'.propQ)
    ensures !s.deps[d].holdingAcq ==> s' == WithoutLink(s, d)
    ensures Down(WithoutLink(s, d), s')
    ensures StopsTarget(s, d) && s.svcs[s.deps[d].to].state == STARTED ==> s'.svcs[s.deps[d].to].state == STOPPING
  {
    var y := s.deps[d].to;
    ghost var w' := if WakesAnyway(s, d) then w else Excuse(w, s.deps[d].from);
    if s.deps[d].holdingAcq {
      LetGoKeeps(s, d, w);
      UnlinkAwake(LessOne(LetGo(s, d), y), d, w);
      LetGoWakes(s, d);
      s' := WithoutLink(LetGo(s, d), d);
      assert LessOne(s', y) == WithoutLink(LessOne(LetGo(s, d), y), d);
      SameUnlinked(s, d);
      s' := Release(s', y, true, w');
    } else {
      UnlinkAwake(s, d, w);
      s' := WithoutLink(s, d);
    }
  }

  lemma LetGoWakes(s: Sys, d: Did)
    requires d in s.deps && s.deps[d].from in s.svcs && s.deps[d].to in s.svcs
    ensures WakesAnyway(LessOne(LetGo(s, d), s.deps[d].to), d) == WakesAnyway(s, d)
  {
    var t := LessOne(LetGo(s, d), s.deps[d].to);
    assert forall e :: e in s.deps && e != d ==> t.deps[e] == s.deps[e];
  }

  lemma SameUnlinked(s: Sys, d: Did)
    requires d in s.deps && s.deps[d].from in s.dependsOn && s.deps[d].to in s.dependents
    ensures WithoutLink(LetGo(s, d), d) == WithoutLink(s, d)
  {
    assert LetGo(s, d).deps - {d} == s.deps - {d};
  }

  lemma UnlinkAwake(s: Sys, d: Did, w: Slack)
    requires Inv(s, w) && d in s.deps && DepOK(s, d) && !s.deps[d].holdingAcq
    ensures Inv(WithoutLink(s, d), if WakesAnyway(s, d) then w else Excuse(w, s.deps[d].from))
  {
    UnlinkKeeps(s, d, w);
    UnlinkWakes(s, d);
    if WakesAnyway(s, d) {
      AwakeAgain(WithoutLink(s, d), s.deps[d].from, w);
    }
  }
}
