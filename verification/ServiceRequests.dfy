/** What can be asked of a service, and the processing of the queues. */
module ServiceRequests {
  import opened QueueShape
  import opened ServiceModel
  import opened ServiceStops
  import opened ServiceStarts
  import opened ServiceRuns
  import opened ServicePropagation
  import opened ServiceWork

  ghost function None(): Slack { Slack({}, {}) }

  /** Give up the explicit activation, and aim for STOPPED if that is asked for or nothing is left that
      requires the service. */
  function StopAsked(v: Service, bringDown: bool): Service {
    var left := v.requiredBy - (if v.startExplicit then 1 else 0);
    v.(startExplicit := false, requiredBy := left, desired := if bringDown || left == 0 then STOPPED else v.desired)
  }

  method Stop(s: Sys, x: Sid, bringDown: bool, ghost w: Slack) returns (s': Sys)
    requires Inv(s, w) && x in s.svcs
    ensures Inv(s', w) && Down(s, s') && !s'.svcs[x].startExplicit
    ensures var down := bringDown || StopAsked(s.svcs[x], bringDown).requiredBy == 0;
            && (down ==> s'.svcs[x].desired == STOPPED)
            && (down && !s.svcs[x].IsStartPinned() && s.svcs[x].state == STARTED ==> s'.svcs[x].state == STOPPING)
            && (!down || s.svcs[x].IsStartPinned() ==> s' == PutSvc(s, x, StopAsked(s.svcs[x], bringDown)))
            && (down && StopsQuietly(PutSvc(s, x, StopAsked(s.svcs[x], bringDown)), x) ==>
                  QuietlyAsked(PutSvc(s, x, StopAsked(s.svcs[x], bringDown)), s', x))
  {
    s' := Deactivate(s, x, bringDown, w);
    ghost var s1 := s';
    if !s'.svcs[x].IsStartPinned() {
      s' := StopUnpinned(s', x, bringDown, w);
      DownTrans(s, s1, s');
    }
  }

  /** The service gives up its dependencies if nothing requires it, and stops; only it changes. */
  ghost predicate QuietlyAsked(s: Sys, s': Sys, x: Sid) {
    && x in s.svcs && MoreQueued(s, s', x)
    && (s.svcs[x].requiredBy != 0 ==> QuietStop(s, s', x))
    && (s.svcs[x].requiredBy == 0 ==>
          QuietStop(PutSvc(s, x, s.svcs[x].(prop := Offered(s.svcs[x].prop))), s'.(propQ := s.propQ), x))
  }

  function Offered(prop: set<Prop>): set<Prop> {
    if PropRequire in prop then prop - {PropRelease} else prop + {PropRelease}
  }

  method Deactivate(s: Sys, x: Sid, bringDown: bool, ghost w: Slack) returns (s': Sys)
    requires Inv(s, w) && x in s.svcs
    ensures Inv(s', w) && Down(s, s') && s' == PutSvc(s, x, StopAsked(s.svcs[x], bringDown))
  {
    Change(s, x, StopAsked(s.svcs[x], bringDown), w);
    s' := PutSvc(s, x, StopAsked(s.svcs[x], bringDown));
  }

  method StopUnpinned(s: Sys, x: Sid, bringDown: bool, ghost w: Slack) returns (s': Sys)
    requires Inv(s, w) && x in s.svcs && !s.svcs[x].IsStartPinned()
    ensures Inv(s', w) && Down(s, s')
    ensures bringDown || s.svcs[x].requiredBy == 0 ==> (s.svcs[x].state == STARTED ==> s'.svcs[x].state == STOPPING)
    ensures !(bringDown || s.svcs[x].requiredBy == 0) ==> s' == s
    ensures (bringDown || s.svcs[x].requiredBy == 0) && StopsQuietly(s, x) ==> QuietlyAsked(s, s', x)
  {
    s' := s;
    if s.svcs[x].requiredBy == 0 {
      s' := OfferRelease(s', x, w);
    }
    if (bringDown || s.svcs[x].requiredBy == 0) && s.svcs[x].state != STOPPED {
      ghost var s1 := s';
      s' := DoStop(s', x, false, w);
      DownTrans(s, s1, s');
      if StopsQuietly(s, x) {
        AskedQuietly(s, s1, s', x);
      }
    }
  }

  lemma AskedQuietly(s: Sys, s1: Sys, s': Sys, x: Sid)
    requires StopsQuietly(s, x) && MoreQueued(s, s1, x) && (StopsQuietly(s1, x) ==> QuietStop(s1, s', x))
    requires s.svcs[x].requiredBy != 0 ==> s1 == s
    requires s.svcs[x].requiredBy == 0 ==>
               s1 == PutSvc(s, x, s.svcs[x].(prop := Offered(s.svcs[x].prop))).(propQ := s1.propQ)
    ensures QuietlyAsked(s, s', x)
  {
    forall d | d in s1.deps && s1.deps[d].to == x ensures Agrees(s1, x, d) { assert Agrees(s, x, d); }
    assert StopsQuietly(s1, x);
    var t := PutSvc(s, x, s.svcs[x].(prop := Offered(s.svcs[x].prop)));
    if s.svcs[x].requiredBy == 0 {
      assert AllDown(s1, x) <==> AllDown(t, x);
    }
  }

  /** Give up the dependencies, unless they were only about to be acquired. */
  method OfferRelease(s: Sys, x: Sid, ghost w: Slack) returns (s': Sys)
    requires Inv(s, w) && x in s.svcs
    ensures Inv(s', w) && Down(s, s') && MoreQueued(s, s', x)
    ensures s' == PutSvc(s, x, s.svcs[x].(prop := Offered(s.svcs[x].prop))).(propQ := s'.propQ)
  {
    if PropRequire in s.svcs[x].prop {
      Change(s, x, s.svcs[x].(prop := s.svcs[x].prop - {PropRelease}), w);
      s' := PutSvc(s, x, s.svcs[x].(prop := s.svcs[x].prop - {PropRelease}));
    } else {
      s' := Mark(s, x, PropRelease, w);
    }
  }

  /** Restart a started service together with its dependents. */
  method Restart(s: Sys, x: Sid, ghost w: Slack) returns (s': Sys, ok: bool)
    requires Inv(s, w) && x in s.svcs
    ensures Inv(s', w) && Down(s, s')
    ensures ok <==> s.svcs[x].state == STARTED
    ensures !ok ==> s' == s
    ensures ok && !s.svcs[x].IsStartPinned() ==> s'.svcs[x].state == STOPPING
  {
    s' := s;
    ok := s.svcs[x].state == STARTED;
    if ok {
      Tweak(s, x, s.svcs[x].(forceStop := true), w);
      s' := PutSvc(s, x, s.svcs[x].(forceStop := true));
      ghost var s1 := s';
      s' := DoStop(s', x, true, w);
      DownTrans(s, s1, s');
    }
  }

  method PinStart(s: Sys, x: Sid, ghost w: Slack) returns (s': Sys)
    requires Inv(s, w) && x in s.svcs
    ensures Inv(s', w) && SafeRun(s, s') && s'.svcs[x].pinnedStarted
    ensures s.svcs[x].pinnedStarted ==> s' == s
    ensures !s.svcs[x].IsStartPinned() ==> x in s.dependsOn && forall d :: d in s.dependsOn[x] ==> TellsPin(s', d, true)
    ensures !s.svcs[x].pinnedStarted && x in s.dependsOn && s.dependsOn[x] == [] ==>
              s' == PutSvc(s, x, s.svcs[x].(pinnedStarted := true))
  {
    s' := s;
    UpKeepsSelf(s);
    if !s.svcs[x].pinnedStarted {
      if !s.svcs[x].deptPinned {
        s' := TellOfPin(s, x, w);
      }
      ghost var s1 := s';
      s' := Pinned(s', x, w);
      SafeTrans(s, s1, s');
    }
  }

  method Pinned(s: Sys, x: Sid, ghost w: Slack) returns (s': Sys)
    requires Inv(s, w) && x in s.svcs
    ensures Inv(s', w) && SafeRun(s, s') && s' == PutSvc(s, x, s.svcs[x].(pinnedStarted := true))
    ensures forall d {:trigger TellsPin(s', d, true)} :: TellsPin(s, d, true) ==> TellsPin(s', d, true)
  {
    s' := SetFlags(s, x, s.svcs[x].(pinnedStarted := true), w);
  }

  method TellOfPin(s: Sys, x: Sid, ghost w: Slack) returns (s': Sys)
    requires Inv(s, w) && x in s.svcs
    ensures Inv(s', w) && SafeRun(s, s')
    ensures x in s.dependsOn && (forall d :: d in s.dependsOn[x] ==> TellsPin(s', d, true))
            && (s.dependsOn[x] == [] ==> s' == s)
  {
    s' := MarkPins(s, x, true, w);
    DownKeepsStops(s, s');
  }

  /** Remove a start pin. A service that was only held up by the pin is released and stopped. */
  method UnpinStarted(s: Sys, x: Sid, ghost w: Slack) returns (s': Sys)
    requires Inv(s, w) && x in s.svcs
    ensures Inv(s', w) && SafeRun(s, s') && !s'.svcs[x].pinnedStarted
            && s'.svcs[x].pinnedStopped == s.svcs[x].pinnedStopped
    ensures !s.svcs[x].pinnedStarted ==> s' == s
    ensures s.svcs[x].pinnedStarted && s.svcs[x].deptPinned ==> s' == PutSvc(s, x, s.svcs[x].(pinnedStarted := false))
    ensures s.svcs[x].pinnedStarted && !s.svcs[x].deptPinned ==>
              && (x in s.dependsOn && forall d :: d in s.dependsOn[x] ==> TellsPin(s', d, false))
              && (HeldBack(s.svcs[x].(pinnedStarted := false)) ==> s'.svcs[x].state == STOPPING)
  {
    s' := s;
    UpKeepsSelf(s);
    if s.svcs[x].pinnedStarted {
      s' := Unpinned(s, x, w);
      if s.svcs[x].deptPinned {
        return;
      }
      ghost var s1 := s';
      s' := LastPinGone(s', x, w);
      DownKeepsStops(s1, s');
      SafeTrans(s, s1, s');
      assert SvcDown(s1.svcs[x], s'.svcs[x]);
    }
  }

  /** How the pins go: `mid` is where things are when the queues are processed, if removing the start pin stops the
      service; the stop pin goes after that. */
  ghost predicate PinsGone(s: Sys, mid: Sys, s': Sys, x: Sid) {
    && x in s.svcs && x in mid.svcs && x in s'.svcs && SameGraph(s, mid) && StopsKept(s, mid)
    && !mid.svcs[x].pinnedStarted
    && (s.svcs[x].pinnedStarted && !s.svcs[x].deptPinned ==>
          x in s.dependsOn && forall d :: d in s.dependsOn[x] ==> TellsPin(mid, d, false))
    && (UnpinStops(s.svcs[x]) ==> mid.svcs[x].state == STOPPING)
    && (if KeepsStopPin(s.svcs[x]) then s' == mid else !s'.svcs[x].pinnedStopped)
    && (!UnpinStops(s.svcs[x]) && !KeepsStopPin(s.svcs[x]) ==>
          s' == PutSvc(mid, x, mid.svcs[x].(pinnedStopped := false)))
  }

  /** `ran` is where things are when the queues have been processed, and `past` lists the steps that took. */
  method Unpin(s: Sys, x: Sid, wills: seq<Will>, ghost but: set<Sid>)
    returns (s': Sys, ghost mid: Sys, ghost ran: Sys, ghost past: seq<Sys>)
    requires Inv(s, Slack({}, but)) && x in s.svcs && forall k :: 0 <= k < |wills| ==> ChainIn(wills[k], s)
    ensures Inv(s', Slack({}, but)) && SameGraph(s, s') && PinsGone(s, mid, s', x)
    ensures UnpinStops(s.svcs[x]) ==> RanThen(mid, ran, s', x, past, wills, but)
  {
    s' := UnpinStarted(s, x, Slack({}, but));
    mid, ran, past := s', s', [];
    if !KeepsStopPin(s.svcs[x]) {
      s', ran, past := UnpinStopped(s', x, UnpinStops(s.svcs[x]), wills, but);
    }
  }

  /** The queues have been processed, and then the stop pin is gone. */
  ghost predicate RanThen(mid: Sys, ran: Sys, s': Sys, x: Sid, past: seq<Sys>, wills: seq<Will>, but: set<Sid>) {
    Running(mid, ran, past, wills, but) && x in ran.svcs && s' == PutSvc(ran, x, ran.svcs[x].(pinnedStopped := false))
  }

  /** Remove a stop pin, after the queues have been processed if the service stops. */
  method UnpinStopped(s: Sys, x: Sid, stops: bool, wills: seq<Will>, ghost but: set<Sid>)
    returns (s': Sys, ghost ran: Sys, ghost past: seq<Sys>)
    requires Inv(s, Slack({}, but)) && x in s.svcs && forall k :: 0 <= k < |wills| ==> ChainIn(wills[k], s)
    ensures Inv(s', Slack({}, but)) && SameGraph(s, s') && x in s'.svcs && !s'.svcs[x].pinnedStopped
    ensures !stops ==> s' == PutSvc(s, x, s.svcs[x].(pinnedStopped := false))
    ensures stops ==> RanThen(s, ran, s', x, past, wills, but)
  {
    s' := s;
    past := [];
    if stops {
      var drained;
      s', drained, past := RunQueues(s', wills, but);
    }
    ran := s';
    s' := SetFlags(s', x, s'.svcs[x].(pinnedStopped := false), Slack({}, but));
  }

  /** Whether removing the pins stops the service at once, and the queues are processed. */
  predicate UnpinStops(v: Service) {
    v.pinnedStarted && HeldBack(v.(pinnedStarted := false))
  }

  /** A stop pin stays if the start pin goes while a dependent is pinned. */
  predicate KeepsStopPin(v: Service) {
    v.pinnedStarted && v.deptPinned
  }

  /** Nothing pins the service any longer: its dependencies are told, and it catches up. */
  method LastPinGone(s: Sys, x: Sid, ghost w: Slack) returns (s': Sys)
    requires Inv(s, w) && x in s.svcs
    ensures Inv(s', w) && Down(s, s')
    ensures x in s.dependsOn && forall d :: d in s.dependsOn[x] ==> TellsPin(s', d, false)
    ensures HeldBack(s.svcs[x]) ==> s'.svcs[x].state == STOPPING
  {
    s' := MarkPins(s, x, false, w);
    ghost var s1 := s';
    s' := CatchUp(s', x, w);
    DownTrans(s, s1, s');
    forall d | d in s.dependsOn[x] ensures TellsPin(s', d, false) { ToldOfPin(s1, s', d, false); }
  }

  lemma ToldOfPin(s: Sys, s': Sys, d: Did, pin: bool)
    requires TellsPin(s, d, pin) && Down(s, s')
    ensures TellsPin(s', d, pin)
  {
    var y := s.deps[d].to;
    assert SvcDown(s.svcs[y], s'.svcs[y]) && DepDown(s.deps[d], s'.deps[d]) && s'.deps[d].kind == s.deps[d].kind
           && s'.deps[d].to == y;
  }

  method ReleaseUnrequired(s: Sys, x: Sid, ghost w: Slack) returns (s': Sys)
    requires Inv(s, w) && x in s.svcs
    ensures Inv(s', w) && Down(s, s') && s'.svcs[x] == s.svcs[x].(prop := s'.svcs[x].prop)
    ensures s.svcs[x].requiredBy == 0 ==> PropRelease in s'.svcs[x].prop
  {
    s' := s;
    if s.svcs[x].requiredBy == 0 {
      s' := Mark(s', x, PropRelease, w);
    }
  }

  /** What the pin held back. */
  method CatchUp(s: Sys, x: Sid, ghost w: Slack) returns (s': Sys)
    requires Inv(s, w) && x in s.svcs
    ensures Inv(s', w) && Down(s, s')
    ensures s.svcs[x].state != STARTED ==> s' == s
    ensures HeldBack(s.svcs[x]) ==> s'.svcs[x].state == STOPPING
    ensures s.svcs[x].state == STARTED && s.svcs[x].requiredBy == 0 && !HeldBack(s.svcs[x]) ==>
              PropRelease in s'.svcs[x].prop
  {
    s' := s;
    if s.svcs[x].state == STARTED {
      s' := ReleaseUnrequired(s', x, w);
      if s.svcs[x].desired == STOPPED || s.svcs[x].forceStop {
        ghost var s1 := s';
        s' := DoStop(s', x, false, w);
        DownTrans(s, s1, s');
      }
    }
  }

  // ---------------------------------------------------------------- the queues

  method PopPropagation(s: Sys, ghost but: set<Sid>) returns (s': Sys, x: Sid)
    requires Inv(s, Slack({}, but)) && s.propQ.elems != []
    ensures x == s.propQ.elems[0] && x in s.svcs && Inv(s', Slack(DueOf(x), but)) && s' == s.(propQ := Rest(s.propQ))
    ensures StopsKept(s, s')
  {
    x := s.propQ.elems[0];
    assert x in s.propQ.elems;
    s' := s.(propQ := Rest(s.propQ));
    RestMembers(s.propQ);
    KeepGraph(s, s');
    forall y | y in s'.svcs && y !in but ensures (assert LinksOK(s', y); Awake(s', y)) {
      assert LinksOK(s, y) && Awake(s, y);
    }
    forall y | y in s'.svcs ensures (assert LinksOK(s', y); Counted(s', y)) { assert LinksOK(s, y) && Counted(s, y); }
    forall y | y in s'.svcs ensures Pending(s', y, DueOf(x)) { assert Pending(s, y, {}); }
    forall y | y in s.svcs ensures StaysUp(s, s', y) { }
    UpKeepsStops(s, s');
  }

  method PopTransition(s: Sys, ghost but: set<Sid>) returns (s': Sys, x: Sid)
    requires Inv(s, Slack({}, but)) && s.transQ.elems != []
    ensures x == s.transQ.elems[0] && x in s.svcs && Inv(s', Slack({}, but + {x})) && s' == s.(transQ := Rest(s.transQ))
    ensures forall z :: z in s.svcs && z != x && StopAwake(s, z) ==> StopAwake(s', z)
    ensures forall z :: z in s.svcs && z != x && Listens(s, z) ==> Listens(s', z)
  {
    x := s.transQ.elems[0];
    assert x in s.transQ.elems;
    s' := s.(transQ := Rest(s.transQ));
    RestMembers(s.transQ);
    KeepGraph(s, s');
    forall y | y in s'.svcs && y !in but + {x}
      ensures (assert LinksOK(s', y); Awake(s', y)) { assert LinksOK(s, y) && Awake(s, y); }
    forall y | y in s'.svcs ensures (assert LinksOK(s', y); Counted(s', y)) { assert LinksOK(s, y) && Counted(s, y); }
    forall y | y in s'.svcs ensures Pending(s', y, {}) { assert Pending(s, y, {}); }
    forall z | z in s.svcs && z != x && StopAwake(s, z) ensures StopAwake(s', z) { SameAbove(s, s', z); }
  }

  lemma SameAbove(s: Sys, s': Sys, z: Sid)
    requires s' == s.(transQ := s'.transQ)
    ensures UpAbove(s', z) <==> UpAbove(s, z)
  {
    if UpAbove(s, z) {
      var d :| d in s.deps && s.deps[d].to == z && IsUp(s, s.deps[d].from);
      assert d in s'.deps && s'.deps[d].to == z && IsUp(s', s'.deps[d].from);
    }
    if UpAbove(s', z) {
      var d :| d in s'.deps && s'.deps[d].to == z && IsUp(s', s'.deps[d].from);
      assert d in s.deps && s.deps[d].to == z && IsUp(s, s.deps[d].from);
    }
  }

  predicate Busy(s: Sys) {
    s.propQ.elems != [] || s.transQ.elems != []
  }

  /** If the next step acquires dependencies, none of them is held. */
  ghost predicate AcquiresAnew(s: Sys) {
    s.propQ.elems != [] && s.propQ.elems[0] in s.svcs && PropRequire in s.svcs[s.propQ.elems[0]].prop ==>
      NothingHeld(s, s.propQ.elems[0])
  }

  ghost predicate AllAnew(past: seq<Sys>) {
    forall k :: 0 <= k < |past| ==> AcquiresAnew(past[k])
  }

  ghost predicate AllBusy(past: seq<Sys>, but: set<Sid>) {
    forall k :: 0 <= k < |past| ==> Inv(past[k], Slack({}, but)) && Busy(past[k])
  }

  lemma AnewMore(past: seq<Sys>, s: Sys, but: set<Sid>)
    ensures AllAnew(past + [s]) <==> AllAnew(past) && AcquiresAnew(s)
    ensures AllBusy(past, but) && Inv(s, Slack({}, but)) && Busy(s) ==> AllBusy(past + [s], but)
  {
    var all := past + [s];
    assert all[|past|] == s && forall k :: 0 <= k < |past| ==> all[k] == past[k];
  }

  /** The next step neither turns a stopping service around that somebody needs to be woken by, nor leaves one behind
      that is held by services that are down, nor chains. */
  ghost predicate SteadyStep(s: Sys, will: Will) {
    if s.propQ.elems != [] then SteadyAt(s, s.propQ.elems[0])
    else s.transQ.elems != [] ==> (!will.gone || will.chain.NoChain?) && !LeftBehind(s, s.transQ.elems[0])
  }

  /** The service is still to be brought down, some strict dependent still holds it, but none is up and will queue it:
      it does not wait for that, or all of them are down. */
  ghost predicate LeftBehind(s: Sys, x: Sid)
    requires s.transQ.elems != []
  {
    && x in s.svcs && ToBringDown(s.svcs[x]) && !NoneStillUp(s, x)
    && x !in Rest(s.transQ).elems && !(s.svcs[x].waitingForDeps && UpAbove(s, x))
  }

  /** Steps for which that is exact: a service is not to release its dependencies or to stop at the same time, does not
      depend on itself, and does not chain. */
  ghost predicate PlainStep(s: Sys, will: Will) {
    if s.propQ.elems != [] then
      var x := s.propQ.elems[0]; x in s.svcs && Undisturbed(s.svcs[x]) && NoLinkTo(s, x, x)
    else !will.gone || will.chain.NoChain?
  }

  ghost predicate AllSteady(past: seq<Sys>, wills: seq<Will>)
    requires |past| <= |wills|
  {
    forall k :: 0 <= k < |past| ==> SteadyStep(past[k], wills[k])
  }

  lemma SteadyMore(past: seq<Sys>, wills: seq<Will>, s: Sys)
    requires |past| < |wills|
    ensures AllSteady(past + [s], wills) <==> AllSteady(past, wills) && SteadyStep(s, wills[|past|])
  {
    var all := past + [s];
    assert all[|past|] == s && forall k :: 0 <= k < |past| ==> all[k] == past[k];
  }

  /** One step of processing the queues: propagation goes first. */
  method QueueStep(s: Sys, will: Will, ghost but: set<Sid>) returns (s': Sys)
    requires Inv(s, Slack({}, but)) && Busy(s) && (will.chain.To? ==> will.chain.next in s.svcs)
    ensures Inv(s', Slack({}, but)) && SameGraph(s, s') && MoreDoubled(s, s')
    ensures s'.doubled == s.doubled <==> AcquiresAnew(s)
    ensures SteadyStep(s, will) ==> StopsKept(s, s')
    ensures PlainStep(s, will) ==> (StopsKept(s, s') <==> SteadyStep(s, will))
    ensures s.propQ.elems != [] ==> Propagated(s.(propQ := Rest(s.propQ)), s', s.propQ.elems[0])
    ensures s.propQ.elems != [] ==> Progress(s.(propQ := Rest(s.propQ)), s')
    ensures s.propQ.elems == [] ==> Transited(s.(transQ := Rest(s.transQ)), s', s.transQ.elems[0], will)
  {
    var x;
    if s.propQ.elems != [] {
      s', x := PopPropagation(s, but);
      ghost var s1 := s';
      s' := DoPropagation(s', x, but);
      SteadyPopped(s, s1, s', x);
    } else {
      s' := TransitionStep(s, will, but);
    }
  }

  lemma SteadyPopped(s: Sys, s1: Sys, s': Sys, x: Sid)
    requires x in s.svcs && s1 == s.(propQ := s1.propQ) && SameGraph(s, s1) && StopsKept(s, s1)
    requires SteadyAt(s1, x) ==> StopsKept(s1, s')
    requires NoLinkTo(s1, x, x) && Undisturbed(s1.svcs[x]) ==> (StopsKept(s1, s') <==> SteadyAt(s1, x))
    ensures SteadyAt(s, x) ==> StopsKept(s, s')
    ensures NoLinkTo(s, x, x) && Undisturbed(s.svcs[x]) ==> (StopsKept(s, s') <==> SteadyAt(s, x))
  {
    forall y | y in s.svcs ensures SameState(s, s1, y) { }
    if WakesNobody(s, x) {
      SameWakes(s, s1, x);
    }
    if StopsKept(s1, s') {
      StopsKeptTrans(s, s1, s');
    } else {
      KeptBack(s, s1, s');
    }
    if SteadyAt(s1, x) && WakesNobody(s1, x) {
      StatesBack(s, s1);
      SameWakes(s1, s, x);
    }
  }

  /** What one service had to propagate is done. */
  ghost predicate Propagated(s: Sys, s': Sys, x: Sid) {
    && x in s.svcs
    && (PropRequire in s.svcs[x].prop ==> x in s.dependsOn && DoubledBy(s, s', s.dependsOn[x], |s.dependsOn[x]|))
    && (s.svcs[x].prop == {PropRequire} && OnlyOrders(s, x) ==> s' == NoProp(s, x, PropRequire))
    && (s.svcs[x].prop == {PropRequire} && NoLinkTo(s, x, x) ==> TookHold(s, s', x))
    && (s.svcs[x].prop == {PropRelease} && ReleasesFew(s, x) ==> ReleasedFew(s, s', x))
    && (s.svcs[x].prop == {PropStop} && StopsAlone(s, x) ==> QuietStop(NoProp(s, x, PropStop), s', x))
    && (s.svcs[x].prop == {PropStart} && s.svcs[x].state == STOPPED && !s.svcs[x].pinnedStopped ==>
          FreshStart(NoProp(s, x, PropStart), s', x))
  }

  /** A service that was queued has been looked at. */
  ghost predicate Transited(s: Sys, s': Sys, x: Sid, will: Will) {
    && x in s.svcs
    && match s.svcs[x].state
       case STARTING => if NoneWaited(s, x) then Raised(s, s', x, will.up) else s' == s
       case STOPPING =>
         && (!NoneStillUp(s, x) ==> s' == s)
         && (NoneStillUp(s, x) && !will.gone ==>
               s' == PutSvc(s, x, GoneDown(s.svcs[x])))
         && (NoneStillUp(s, x) && will.gone && will.chain.NoChain? ==> Landed(s', x))
       case _ => s' == s
  }

  method TransitionStep(s: Sys, will: Will, ghost but: set<Sid>) returns (s': Sys)
    requires Inv(s, Slack({}, but)) && s.propQ.elems == [] && s.transQ.elems != []
             && (will.chain.To? ==> will.chain.next in s.svcs)
    ensures Inv(s', Slack({}, but)) && Run(s, s')
    ensures SteadyStep(s, will) ==> StopsKept(s, s')
    ensures !will.gone || will.chain.NoChain? ==> (StopsKept(s, s') <==> SteadyStep(s, will))
    ensures Transited(s.(transQ := Rest(s.transQ)), s', s.transQ.elems[0], will)
  {
    var x;
    s', x := PopTransition(s, but);
    ghost var s1 := s';
    s' := ExecuteTransition(s', x, will, but);
    if SteadyStep(s, will) {
      SteadyKeeps(s, s1, s', x, will);
    } else if !will.gone || will.chain.NoChain? {
      LeftBehindSleeps(s, s', will);
    }
  }

  lemma SteadyKeeps(s: Sys, s1: Sys, s': Sys, x: Sid, will: Will)
    requires s.propQ.elems == [] && s.transQ.elems != [] && x == s.transQ.elems[0] && SteadyStep(s, will)
    requires s1 == s.(transQ := Rest(s.transQ))
             && (forall z :: z in s.svcs && z != x && StopAwake(s, z) ==> StopAwake(s1, z))
             && (forall z :: z in s.svcs && z != x && Listens(s, z) ==> Listens(s1, z))
    requires StopsKept(s1, s') && x in s.svcs
    requires s.svcs[x].state == STOPPING && NoneStillUp(s1, x) && !will.gone ==>
               s' == PutSvc(s1, x, GoneDown(s.svcs[x]))
    requires s.svcs[x].state == STOPPING && NoneStillUp(s1, x) && will.gone ==> Landed(s', x)
    ensures StopsKept(s, s')
  {
    OwnWakeUp(s, s1, s', x, will);
    forall z | z in s.svcs && StopAwake(s, z) ensures StopAwake(s', z) { assert z != x ==> StopAwake(s1, z); }
    forall z | z in s.svcs && Listens(s, z) ensures Listens(s', z) { assert z != x ==> Listens(s1, z); }
  }

  /** The service that is looked at is going to be looked at again, if it is still to be brought down. */
  lemma OwnWakeUp(s: Sys, s1: Sys, s': Sys, x: Sid, will: Will)
    requires s.propQ.elems == [] && s.transQ.elems != [] && x == s.transQ.elems[0] && x in s.svcs
    requires s1 == s.(transQ := Rest(s.transQ)) && StopsKept(s1, s') && !LeftBehind(s, x)
    requires s.svcs[x].state == STOPPING && NoneStillUp(s1, x) && !will.gone ==>
               s' == PutSvc(s1, x, GoneDown(s.svcs[x]))
    requires s.svcs[x].state == STOPPING && NoneStillUp(s1, x) && will.gone ==> Landed(s', x)
    ensures StopAwake(s', x) && Listens(s', x)
  {
    SameStillUp(s, s1, x);
    if !NoneStillUp(s1, x) || !ToBringDown(s.svcs[x]) {
      SameAbove(s, s1, x);
      assert StopAwake(s1, x) && Listens(s1, x);
    }
  }

  lemma SameStillUp(s: Sys, s1: Sys, x: Sid)
    requires s1 == s.(transQ := s1.transQ)
    ensures NoneStillUp(s1, x) <==> NoneStillUp(s, x)
  {
    assert forall d :: StillUp(s1, d) == StillUp(s, d);
  }

  /** The condition is exact: a service that is left behind has lost its wake-up, which it had while it was queued. */
  lemma LeftBehindSleeps(s: Sys, s': Sys, will: Will)
    requires s.propQ.elems == [] && s.transQ.elems != [] && LeftBehind(s, s.transQ.elems[0])
    requires Transited(s.(transQ := Rest(s.transQ)), s', s.transQ.elems[0], will)
    ensures StopAwake(s, s.transQ.elems[0]) && !StopAwake(s', s.transQ.elems[0])
  {
    var x, s1 := s.transQ.elems[0], s.(transQ := Rest(s.transQ));
    assert x in s.transQ.elems;
    SameStillUp(s, s1, x);
    SameAbove(s, s1, x);
  }

  /** What holds between two steps of processing the queues, since `base`. */
  ghost predicate Running(base: Sys, s: Sys, past: seq<Sys>, wills: seq<Will>, but: set<Sid>) {
    && Inv(s, Slack({}, but)) && SameGraph(base, s) && MoreDoubled(base, s)
    && |past| <= |wills| && (if past == [] then s == base else past[0] == base) && AllBusy(past, but)
    && (if AllAnew(past) then s.doubled == base.doubled else Grew(base, s))
    && (AllSteady(past, wills) ==> StopsKept(base, s))
  }

  method RunStep(s: Sys, will: Will, ghost base: Sys, ghost past: seq<Sys>, ghost wills: seq<Will>, ghost but: set<Sid>)
    returns (s': Sys)
    requires Running(base, s, past, wills, but) && Busy(s) && |past| < |wills| && wills[|past|] == will
             && ChainIn(will, base)
    ensures Running(base, s', past + [s], wills, but)
  {
    s' := QueueStep(s, will, but);
    DoubledStep(base, s, s', past, but);
    SteadyFor(base, s, s', past, wills);
    SameBase(base, s, s');
    FirstIs(base, s, past);
  }

  lemma SameBase(base: Sys, s: Sys, s': Sys)
    requires SameGraph(base, s) && SameGraph(s, s')
    ensures SameGraph(base, s')
  {
  }

  lemma FirstIs(base: Sys, s: Sys, past: seq<Sys>)
    requires if past == [] then s == base else past[0] == base
    ensures past + [s] != [] && (past + [s])[0] == base
  {
  }

  lemma SteadyFor(base: Sys, s: Sys, s': Sys, past: seq<Sys>, wills: seq<Will>)
    requires |past| < |wills| && s.svcs.Keys == base.svcs.Keys
    requires AllSteady(past, wills) ==> StopsKept(base, s)
    requires SteadyStep(s, wills[|past|]) ==> StopsKept(s, s')
    ensures AllSteady(past + [s], wills) ==> StopsKept(base, s')
  {
    SteadyMore(past, wills, s);
    if AllSteady(past + [s], wills) {
      StopsKeptTrans(base, s, s');
    }
  }

  lemma DoubledStep(base: Sys, s: Sys, s': Sys, past: seq<Sys>, but: set<Sid>)
    requires MoreDoubled(base, s) && (if AllAnew(past) then s.doubled == base.doubled else Grew(base, s))
             && AllBusy(past, but)
    requires Inv(s, Slack({}, but)) && Busy(s) && MoreDoubled(s, s') && (s'.doubled == s.doubled <==> AcquiresAnew(s))
    ensures MoreDoubled(base, s') && (if AllAnew(past + [s]) then s'.doubled == base.doubled else Grew(base, s'))
    ensures AllBusy(past + [s], but)
  {
    Changed(s, s');
    DoubledTrans(base, s, s');
    AnewMore(past, s, but);
  }

  /** The service chained to, if any, is there. */
  predicate ChainIn(will: Will, s: Sys) {
    will.chain.To? ==> will.chain.next in s.svcs
  }

  /** Process the queues until they are empty, or for as many steps as there are `wills`. */
  method RunQueues(s: Sys, wills: seq<Will>, ghost but: set<Sid>) returns (s': Sys, drained: bool, ghost past: seq<Sys>)
    requires Inv(s, Slack({}, but)) && forall k :: 0 <= k < |wills| ==> ChainIn(wills[k], s)
    ensures Running(s, s', past, wills, but) && (!drained ==> |past| == |wills|)
    ensures drained ==> Settled(s', but)
    ensures s'.doubled == s.doubled <==> AllAnew(past)
  {
    s', past := s, [];
    UpKeepsSelf(s);
    var k := 0;
    while k < |wills| && Busy(s')
      invariant k == |past| && Running(s, s', past, wills, but)
      decreases |wills| - k
    {
      ghost var before := s';
      s' := RunStep(s', wills[k], s, past, wills, but);
      past := past + [before];
      k := k + 1;
    }
    drained := !Busy(s');
    if drained {
      EmptyQueuesSettle(s', but);
    }
  }

  // ---------------------------------------------------------------- draining the propagation queue

  /** What holds between two steps, since `base`; `taken` says how the transitions turned out. */
  ghost predicate Going(base: Sys, s: Sys, past: seq<Sys>, taken: seq<Will>, but: set<Sid>) {
    Running(base, s, past, taken, but) && |taken| == |past|
  }

  method NextStep(s: Sys, will: Will, ghost base: Sys, ghost past: seq<Sys>, ghost taken: seq<Will>,
                  ghost but: set<Sid>)
    returns (s': Sys)
    requires Going(base, s, past, taken, but) && Busy(s) && ChainIn(will, base)
    ensures Going(base, s', past + [s], taken + [will], but)
    ensures s.propQ.elems != [] ==> Progress(s.(propQ := Rest(s.propQ)), s')
  {
    Longer(past, taken, will);
    s' := QueueStep(s, will, but);
    DoubledStep(base, s, s', past, but);
    SteadyFor(base, s, s', past, taken + [will]);
    SameBase(base, s, s');
    FirstIs(base, s, past);
  }

  lemma Longer(past: seq<Sys>, taken: seq<Will>, will: Will)
    requires |past| <= |taken|
    ensures AllSteady(past, taken + [will]) <==> AllSteady(past, taken)
  {
    assert forall k :: 0 <= k < |past| ==> (taken + [will])[k] == taken[k];
  }

  /** How the transitions turned out: only the steps that were no propagation. */
  ghost function Given(past: seq<Sys>, taken: seq<Will>): seq<Will>
    requires |past| == |taken|
  {
    var n := |past| - 1;
    if past == [] then []
    else Given(past[..n], taken[..n]) + (if past[n].propQ.elems == [] then [taken[n]] else [])
  }

  lemma GivenMore(past: seq<Sys>, taken: seq<Will>, s: Sys, will: Will)
    requires |past| == |taken|
    ensures Given(past + [s], taken + [will]) == Given(past, taken) + (if s.propQ.elems == [] then [will] else [])
  {
    assert (past + [s])[..|past|] == past && (taken + [will])[..|past|] == taken;
  }

  /** Only propagations have been added. */
  ghost predicate OnlyPropagated(past: seq<Sys>, past': seq<Sys>) {
    past <= past' && forall k :: |past| <= k < |past'| ==> past'[k].propQ.elems != []
  }

  lemma PropagatedMore(past: seq<Sys>, past': seq<Sys>, s: Sys)
    requires OnlyPropagated(past, past') && s.propQ.elems != []
    ensures OnlyPropagated(past, past' + [s])
  {
  }

  lemma OneMoreGiven(wills: seq<Will>, k: nat, given: seq<Will>)
    requires k < |wills| && given == wills[..k] + [wills[k]]
    ensures given == wills[..k+1]
  {
  }

  /** One propagation leaves less to do, or as much but less in the queue. */
  method DrainStep(s: Sys, ghost base: Sys, ghost past: seq<Sys>, ghost taken: seq<Will>, ghost order: seq<Sid>,
                   ghost but: set<Sid>)
    returns (s': Sys, ghost past': seq<Sys>, ghost taken': seq<Will>)
    requires Going(base, s, past, taken, but) && Ordered(base, order) && s.propQ.elems != []
    ensures Going(base, s', past', taken', but) && Given(past', taken') == Given(past, taken)
    ensures past' == past + [s]
    ensures Less(LoadOf(s', order), LoadOf(s, order))
            || (LoadOf(s', order) == LoadOf(s, order) && Rounds(s'.propQ) < Rounds(s.propQ))
  {
    var will := Will(UnderWay, false, false, NoChain);
    s' := NextStep(s, will, base, past, taken, but);
    GivenMore(past, taken, s, will);
    past', taken' := past + [s], taken + [will];
    Closer(base, s, s', order);
  }

  /** Drain the propagation queue, which ends if there is no cycle of dependencies. */
  method DrainOn(s: Sys, ghost base: Sys, ghost past: seq<Sys>, ghost taken: seq<Will>, ghost order: seq<Sid>,
                 ghost but: set<Sid>)
    returns (s': Sys, ghost past': seq<Sys>, ghost taken': seq<Will>)
    requires Going(base, s, past, taken, but) && Ordered(base, order)
    ensures Going(base, s', past', taken', but) && s'.propQ.elems == []
    ensures Given(past', taken') == Given(past, taken) && OnlyPropagated(past, past')
  {
    s', past', taken' := s, past, taken;
    ghost var load, rounds := LoadOf(s, order), Rounds(s.propQ);
    while s'.propQ.elems != []
      invariant Going(base, s', past', taken', but) && Given(past', taken') == Given(past, taken)
      invariant OnlyPropagated(past, past') && load == LoadOf(s', order) && rounds == Rounds(s'.propQ)
      decreases load.start, load.line, load.held, load.waits, load.fails, load.pins, load.stops, rounds
    {
      PropagatedMore(past, past', s');
      s', past', taken' := DrainStep(s', base, past', taken', order, but);
      load, rounds := LoadOf(s', order), Rounds(s'.propQ);
    }
  }

  /** ... and then nothing is left to propagate. */
  method Drain(s: Sys, ghost order: seq<Sid>, ghost but: set<Sid>)
    returns (s': Sys, ghost past: seq<Sys>, ghost taken: seq<Will>)
    requires Inv(s, Slack({}, but)) && Ordered(s, order)
    ensures Going(s, s', past, taken, but) && s'.propQ.elems == []
    ensures forall k :: 0 <= k < |past| ==> past[k].propQ.elems != []
    ensures forall x :: x in s'.svcs ==> s'.svcs[x].prop <= {PropPin}
  {
    UpKeepsSelf(s);
    s', past, taken := DrainOn(s, s, [], [], order, but);
    NothingPending(s', but);
  }

  lemma NothingPending(s: Sys, but: set<Sid>)
    requires Inv(s, Slack({}, but)) && s.propQ.elems == []
    ensures forall x :: x in s.svcs ==> s.svcs[x].prop <= {PropPin}
  {
    forall x | x in s.svcs ensures s.svcs[x].prop <= {PropPin} { assert Pending(s, x, {}); }
  }

  /** Process the queues until they are empty, or for as many transitions as there are `wills`: before each of them the
      propagation queue is drained. */
  method RunTransitions(s: Sys, wills: seq<Will>, ghost order: seq<Sid>, ghost but: set<Sid>)
    returns (s': Sys, drained: bool, ghost past: seq<Sys>, ghost taken: seq<Will>)
    requires Inv(s, Slack({}, but)) && Ordered(s, order) && forall k :: 0 <= k < |wills| ==> ChainIn(wills[k], s)
    ensures Going(s, s', past, taken, but) && s'.propQ.elems == []
    ensures if drained then Settled(s', but) && Given(past, taken) <= wills else Given(past, taken) == wills
  {
    s', past, taken := Drain(s, order, but);
    NoneGiven(past, taken);
    var k := 0;
    while k < |wills| && s'.transQ.elems != []
      invariant k <= |wills| && Going(s, s', past, taken, but) && s'.propQ.elems == []
      invariant Given(past, taken) == wills[..k]
      decreases |wills| - k
    {
      s', past, taken := TransitAndDrain(s', wills[k], s, past, taken, order, but);
      OneMoreGiven(wills, k, Given(past, taken));
      k := k + 1;
    }
    drained := s'.transQ.elems == [];
    AllGiven(wills, k, Given(past, taken));
    if drained {
      EmptyQueuesSettle(s', but);
    }
  }

  lemma AllGiven(wills: seq<Will>, k: nat, given: seq<Will>)
    requires k <= |wills| && given == wills[..k]
    ensures given <= wills && (k == |wills| ==> given == wills)
  {
  }

  method TransitAndDrain(s: Sys, will: Will, ghost base: Sys, ghost past: seq<Sys>, ghost taken: seq<Will>,
                         ghost order: seq<Sid>, ghost but: set<Sid>)
    returns (s': Sys, ghost past': seq<Sys>, ghost taken': seq<Will>)
    requires Going(base, s, past, taken, but) && Ordered(base, order) && ChainIn(will, base)
    requires s.propQ.elems == [] && s.transQ.elems != []
    ensures Going(base, s', past', taken', but) && s'.propQ.elems == []
    ensures Given(past', taken') == Given(past, taken) + [will]
  {
    s' := NextStep(s, will, base, past, taken, but);
    GivenMore(past, taken, s, will);
    s', past', taken' := DrainOn(s', base, past + [s], taken + [will], order, but);
  }

  lemma {:induction false} NoneGiven(past: seq<Sys>, taken: seq<Will>)
    requires |past| == |taken| && forall k :: 0 <= k < |past| ==> past[k].propQ.elems != []
    ensures Given(past, taken) == []
  {
    if past != [] {
      NoneGiven(past[..|past|-1], taken[..|past|-1]);
    }
  }

  /** Every propagation was steady. */
  ghost predicate SteadyDrain(past: seq<Sys>) {
    forall k :: 0 <= k < |past| ==> past[k].propQ.elems != [] && SteadyAt(past[k], past[k].propQ.elems[0])
  }

  lemma SteadyAll(past: seq<Sys>, taken: seq<Will>)
    requires |past| == |taken| && SteadyDrain(past)
    ensures AllSteady(past, taken)
  {
  }

  lemma Closer(base: Sys, s: Sys, s': Sys, order: seq<Sid>)
    requires Ordered(base, order) && SameGraph(base, s) && s.propQ.elems != [] && WellShaped(s.propQ)
    requires Progress(s.(propQ := Rest(s.propQ)), s')
    ensures Less(LoadOf(s', order), LoadOf(s, order))
            || (LoadOf(s', order) == LoadOf(s, order) && Rounds(s'.propQ) < Rounds(s.propQ))
  {
    var s1 := s.(propQ := Rest(s.propQ));
    OrderedStill(base, s, order);
    OrderedStill(base, s1, order);
    LoadQueued(s, s1, order);
    PopProgress(s.propQ);
  }

  lemma RestMembers<T>(q: Shape<T>)
    requires WellShaped(q) && q.elems != []
    ensures WellShaped(Rest(q)) && (forall y :: y in Rest(q).elems ==> y in q.elems)
    ensures forall y :: y in q.elems && y != q.elems[0] ==> y in Rest(q).elems
  {
    PopKeeps(q);
    assert forall y :: y in Elements(Rest(q)) <==> y in Rest(q).elems;
    assert forall y :: y in Elements(q) <==> y in q.elems;
  }

  /** With both queues empty nothing is left undone: no service has anything to propagate, and every service that waits
      for dependencies has one that it waits on, but for those that lost their wake-up with a link. */
  ghost predicate Settled(s: Sys, but: set<Sid>)
    requires WF(s)
  {
    && (forall x :: x in s.svcs ==> s.svcs[x].prop <= {PropPin})
    && (forall x {:trigger LinksOK(s, x)} :: x in s.svcs && x !in but ==> (assert LinksOK(s, x);
          s.svcs[x].state == STARTING && s.svcs[x].waitingForDeps ==> SomeWaiting(s.deps, s.dependsOn[x])))
  }

  lemma EmptyQueuesSettle(s: Sys, but: set<Sid>)
    requires Inv(s, Slack({}, but)) && s.propQ.elems == [] && s.transQ.elems == []
    ensures Settled(s, but)
    ensures forall x :: x in s.svcs && StopAwake(s, x) && ToBringDown(s.svcs[x]) ==>
              s.svcs[x].waitingForDeps && UpAbove(s, x)
  {
    NothingPending(s, but);
    forall x | x in s.svcs && x !in but
      ensures (assert LinksOK(s, x);
               s.svcs[x].state == STARTING && s.svcs[x].waitingForDeps ==> SomeWaiting(s.deps, s.dependsOn[x]))
    {
      assert LinksOK(s, x) && Awake(s, x);
    }
  }

  /** required_by is the explicit activation plus the dependents that hold an acquisition. */
  ghost predicate Conserved(s: Sys, x: Sid)
    requires x in s.svcs && x in s.dependents
  {
    s.svcs[x].requiredBy == (if s.svcs[x].startExplicit then 1 else 0) + Held(s.deps, s.dependents[x])
  }

  lemma Changed(s: Sys, s': Sys)
    requires MoreDoubled(s, s')
    ensures s'.doubled == s.doubled || Grew(s, s')
  {
    if !Grew(s, s') {
      assert forall y :: y in s.doubled ==> s'.doubled[y] == s.doubled[y];
    }
  }

  lemma ConservedUnlessDoubled(s: Sys, x: Sid, w: Slack)
    requires Inv(s, w) && x in s.svcs
    ensures x in s.dependents && x in s.doubled && (Conserved(s, x) <==> s.doubled[x] == 0)
  {
    assert LinksOK(s, x) && Counted(s, x);
  }
}
