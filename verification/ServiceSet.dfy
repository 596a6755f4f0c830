/** The services with their queues. Every request keeps the invariant, so it holds throughout any run. */
module ServiceSet {
  import opened QueueShape
  import opened ServiceModel
  import opened ServiceStops
  import opened ServiceStarts
  import opened ServiceRuns
  import opened ServicePropagation
  import Links = ServiceLinks
  import Order = ServiceOrder
  import Requests = ServiceRequests
  import ServiceWork

  function NewService(autoRestart: bool, startsOnConsole: bool, runsOnConsole: bool): Service {
    Service(STOPPED, STOPPED, autoRestart, startsOnConsole, runsOnConsole,
            false, false, false, false, false, false, false, false, false, false, false, {}, 0)
  }

  function Empty(): Sys {
    Sys(map[], map[], map[], map[], Shape([], -1), Shape([], -1), [], map[])
  }

  /** What the process of a service, or the console, can bring about. */
  datatype Event =
    | HasStarted
    | HasFailed
    | IsFailing
    | HasStopped(failed: bool, chain: Chain)
    | IsLost
    | Stops
    | StartsAgain
    | Interrupted
    | IsForced
    | ConsoleFree

  /** What comes of an event. */
  ghost predicate Happened(s: Sys, s': Sys, x: Sid, event: Event) {
    && x in s.svcs && x in s'.svcs
    && match event
       case HasStarted => Risen(s', x) && (NoHandover(s, x) ==> CameUp(s, s', x))
       case HasFailed => s'.svcs[x].state == STOPPED && s'.svcs[x].desired == STOPPED && !s'.svcs[x].startExplicit
       case IsFailing => GivesUp(s.svcs[x], s'.svcs[x]) && OwnHoldsKept(s, s', x) && s'.svcs[x].desired == STOPPED
       case HasStopped(failed, chain) => !Chains(failed, s.svcs[x], chain) && NoHandover(s, x) ==> WentDown(s, s', x)
       case IsLost => s'.svcs[x].desired == STOPPED && (s'.svcs[x].state != STOPPED ==> s'.svcs[x].forceStop)
       case Stops => s.svcs[x].state == STARTED && !s.svcs[x].IsStartPinned() ==> s'.svcs[x].state == STOPPING
       case StartsAgain => s'.svcs[x].state == STARTING && s'.svcs[x].waitingForDeps
       case Interrupted => s' == PutSvc(s, x, OnWayDown(s.svcs[x]))
       case IsForced => s' == PutSvc(s, x, s.svcs[x].(forceStop := true))
       case ConsoleFree => NobodyCan(s, s.consoleQ) ==> s' == PassedOver(s, s.consoleQ)
  }

  /** Events that cannot take the wake-up from a service that is still to be brought down. */
  ghost predicate Harmless(s: Sys, x: Sid, event: Event) {
    x in s.svcs
    && match event
       case HasStopped(_, chain) => chain.NoChain?
       case StartsAgain => !IsUp(s, x)
       case _ => true
  }

  method Happens(s: Sys, x: Sid, event: Event, ghost w: Slack) returns (s': Sys)
    requires Inv(s, w) && x in s.svcs && (event.HasStopped? && event.chain.To? ==> event.chain.next in s.svcs)
    ensures Inv(s', w) && Run(s, s') && Happened(s, s', x, event) && (Harmless(s, x, event) ==> StopsKept(s, s'))
  {
    match event
    case HasStarted =>
      ghost var freed;
      s', freed := Started(s, x, w);
    case HasFailed =>
      ghost var as0, freed;
      s', as0, freed := FailedToStart(s, x, w);
    case IsFailing =>
      s' := FailToStart(s, x, w);
    case HasStopped(failed, chain) =>
      ghost var freed, mid;
      s', freed, mid := Stopped(s, x, failed, chain, w);
    case IsLost =>
      s' := UnrecoverableStop(s, x, w);
      DownKeepsStops(s, s');
    case Stops =>
      s' := DoStop(s, x, false, w);
      DownKeepsStops(s, s');
    case StartsAgain =>
      s' := InitiateStart(s, x, w);
    case Interrupted =>
      s' := Interrupt(s, x, w);
    case IsForced =>
      s' := SetFlags(s, x, s.svcs[x].(forceStop := true), w);
    case ConsoleFree =>
      s' := PullConsole(s, w);
  }

  class ServiceSet {
    var sys: Sys

    // services that have lost their wake-up with a dependency that was removed
    ghost var lost: set<Sid>

    ghost predicate Valid()
      reads this
    {
      Inv(sys, Slack({}, lost))
    }

    /** The same services, links and double acquisitions as before, and no wake-up lost. */
    twostate predicate Kept()
      reads this
    {
      SameGraph(old(sys), sys) && sys.doubled == old(sys.doubled) && lost == old(lost)
    }

    /** No services. */
    constructor ()
      ensures Valid() && sys == Empty() && lost == {}
    {
      sys := Empty();
      lost := {};
    }

    /** A new service starts out STOPPED and unlinked. */
    method AddService(x: Sid, autoRestart: bool, startsOnConsole: bool, runsOnConsole: bool)
      requires Valid() && x !in sys.svcs
      modifies this
      ensures Valid() && lost == old(lost)
      ensures sys == Links.WithService(old(sys), x, NewService(autoRestart, startsOnConsole, runsOnConsole))
    {
      var v := NewService(autoRestart, startsOnConsole, runsOnConsole);
      Links.NewServiceKeeps(sys, x, v, Slack({}, lost));
      sys := Links.WithService(sys, x, v);
    }

    // ---------------------------------------------------------------- requests

    method Start(x: Sid)
      requires Valid() && x in sys.svcs
      modifies this
      ensures Valid() && Kept() && Asked(old(sys), sys, x)
      ensures TurnsAround(old(sys.svcs[x])) ==> Turned(old(sys), sys, x)
      ensures StopsKept(old(sys), sys) <==> (TurnsAround(old(sys.svcs[x])) ==> WakesNobody(old(sys), x))
    {
      sys := ServiceStarts.Start(sys, x, Slack({}, lost));
    }

    method Stop(x: Sid, bringDown: bool)
      requires Valid() && x in sys.svcs
      modifies this
      ensures Valid() && Kept() && Down(old(sys), sys) && StopsKept(old(sys), sys) && !sys.svcs[x].startExplicit
      ensures var v := old(sys.svcs[x]); var down := bringDown || Requests.StopAsked(v, bringDown).requiredBy == 0;
              && (down ==> sys.svcs[x].desired == STOPPED)
              && (down && !v.IsStartPinned() && v.state == STARTED ==> sys.svcs[x].state == STOPPING)
              && (!down || v.IsStartPinned() ==> sys == PutSvc(old(sys), x, Requests.StopAsked(v, bringDown)))
    {
      ghost var s := sys;
      sys := Requests.Stop(sys, x, bringDown, Slack({}, lost));
      DownKeepsStops(s, sys);
    }

    method Restart(x: Sid) returns (ok: bool)
      requires Valid() && x in sys.svcs
      modifies this
      ensures Valid() && Kept() && Down(old(sys), sys) && StopsKept(old(sys), sys)
      ensures (ok <==> old(sys.svcs[x]).state == STARTED) && (!ok ==> sys == old(sys))
      ensures ok && !old(sys.svcs[x]).IsStartPinned() ==> sys.svcs[x].state == STOPPING
    {
      ghost var s := sys;
      sys, ok := Requests.Restart(sys, x, Slack({}, lost));
      DownKeepsStops(s, sys);
    }

    method ForcedStop(x: Sid)
      requires Valid() && x in sys.svcs
      modifies this
      ensures Valid() && Kept() && Down(old(sys), sys) && StopsKept(old(sys), sys)
      ensures old(sys.svcs[x]).state == STOPPED ==> sys == old(sys)
      ensures old(sys.svcs[x]).state != STOPPED ==>
                sys == PutSvc(old(sys), x, Forced(old(sys.svcs[x]))).(propQ := sys.propQ)
      ensures old(sys.svcs[x]).state != STOPPED && !old(sys.svcs[x]).IsStartPinned() ==> x in sys.propQ.elems
    {
      ghost var s := sys;
      sys := ServiceStops.ForcedStop(sys, x, Slack({}, lost));
      DownKeepsStops(s, sys);
      assert Pending(sys, x, {});
    }

    method PinStart(x: Sid)
      requires Valid() && x in sys.svcs
      modifies this
      ensures Valid() && Kept() && StopsKept(old(sys), sys) && sys.svcs[x].pinnedStarted
      ensures old(sys.svcs[x]).pinnedStarted ==> sys == old(sys)
      ensures !old(sys.svcs[x]).IsStartPinned() ==>
                x in sys.dependsOn && forall d :: d in sys.dependsOn[x] ==> TellsPin(sys, d, true)
    {
      sys := Requests.PinStart(sys, x, Slack({}, lost));
    }

    method PinStop(x: Sid)
      requires Valid() && x in sys.svcs
      modifies this
      ensures Valid() && Kept() && StopsKept(old(sys), sys)
      ensures sys == PutSvc(old(sys), x, old(sys.svcs[x]).(pinnedStopped := true))
    {
      sys := SetFlags(sys, x, sys.svcs[x].(pinnedStopped := true), Slack({}, lost));
    }

    /** Remove the pins. If that stops the service, the queues are processed before the stop pin goes; `mid` and `ran`
        are where things are before and after that. */
    method Unpin(x: Sid, wills: seq<Will>) returns (ghost mid: Sys, ghost ran: Sys, ghost past: seq<Sys>)
      requires Valid() && x in sys.svcs && forall k :: 0 <= k < |wills| ==> Requests.ChainIn(wills[k], sys)
      modifies this
      ensures Valid() && SameGraph(old(sys), sys) && lost == old(lost) && Requests.PinsGone(old(sys), mid, sys, x)
      ensures Requests.UnpinStops(old(sys.svcs[x])) ==> Requests.RanThen(mid, ran, sys, x, past, wills, lost)
    {
      sys, mid, ran, past := Requests.Unpin(sys, x, wills, lost);
    }

    // ---------------------------------------------------------------- links

    method AddDep(d: Did, from: Sid, to: Sid, kind: Kind)
      requires Valid() && from in sys.svcs && to in sys.svcs && d !in sys.deps
      modifies this
      ensures Valid() && lost == old(lost) && sys.doubled == old(sys.doubled)
              && sys.deps.Keys == old(sys.deps.Keys) + {d}
      ensures var up := old(sys.svcs[from]).state == STARTING || old(sys.svcs[from]).state == STARTED;
              var there := old(sys.svcs[to]).state == STARTING || old(sys.svcs[to]).state == STARTED;
              sys.deps[d] ==
                Dep(from, to, kind, false, up && kind != BEFORE && kind != AFTER && (kind == REGULAR || there))
      ensures from in old(sys.dependsOn) && to in old(sys.dependents)
      ensures !sys.deps[d].holdingAcq ==> sys == Links.WithLink(old(sys), d, sys.deps[d])
    {
      sys := Links.AddDep(sys, d, from, to, kind, Slack({}, lost));
    }

    method StartDep(d: Did)
      requires Valid() && d in sys.deps
      modifies this
      ensures Valid() && Kept() && StopsKept(old(sys), sys)
      ensures sys.deps == old(sys.deps)[d := old(sys.deps[d]).(holdingAcq := true)]
    {
      sys := Links.StartDep(sys, d, Slack({}, lost));
    }

    /** Remove a dependency. Its dependent has lost its wake-up if and only if nothing else wakes it and it still waits
        for dependencies. The dependency has lost its own if and only if the dependent was the last to wake it. */
    method RmDep(d: Did)
      requires Valid() && d in sys.deps
      modifies this
      ensures Valid() && sys.doubled == old(sys.doubled) && sys.svcs.Keys == old(sys.svcs.Keys)
      ensures sys.deps.Keys == old(sys.deps.Keys) - {d}
      ensures old(sys.deps[d]).from in old(sys.svcs) && old(sys.deps[d]).to in old(sys.svcs)
      ensures var x := old(sys.deps[d]).from;
              lost == if Links.WakesAnyway(old(sys), d) || !Links.Waits(sys.svcs[x]) then old(lost) else old(lost) + {x}
      ensures old(sys.deps[d]).from !in old(lost) ==> (Inv(sys, Slack({}, old(lost))) <==> lost == old(lost))
      ensures StopsKept(old(sys), sys) <==> !Links.LastToWake(old(sys), d)
      ensures old(sys.deps[d]).from in old(sys.dependsOn) && old(sys.deps[d]).to in old(sys.dependents)
      ensures Down(Links.WithoutLink(old(sys), d), sys)
      ensures !Links.StopsTarget(old(sys), d) ==> sys == Links.Unlinked(old(sys), d).(propQ := sys.propQ)
    {
      ghost var s, x := sys, sys.deps[d].from;
      sys := Links.RmDep(sys, d, Slack({}, lost));
      assert Excuse(Slack({}, lost), x) == Slack({}, lost + {x});
      if !Links.WakesAnyway(s, d) && Links.Waits(sys.svcs[x]) {
        lost := lost + {x};
      } else if x in lost {
        assert lost + {x} == lost;
      }
    }

    // ---------------------------------------------------------------- events and queues

    /** Something happens to a service, or the console is free. */
    method ProcessEvent(x: Sid, event: Event)
      requires Valid() && x in sys.svcs && (event.HasStopped? && event.chain.To? ==> event.chain.next in sys.svcs)
      modifies this
      ensures Valid() && Kept() && Happened(old(sys), sys, x, event)
      ensures Harmless(old(sys), x, event) ==> StopsKept(old(sys), sys)
    {
      sys := Happens(sys, x, event, Slack({}, lost));
    }

    /** Drain the propagation queue, which ends if there is no cycle of dependencies. `past` lists the states that the
        steps began in. */
    method DrainPropagation() returns (ghost past: seq<Sys>)
      requires Valid() && Order.Acyclic(sys)
      modifies this
      ensures Valid() && SameGraph(old(sys), sys) && MoreDoubled(old(sys), sys) && lost == old(lost)
      ensures sys.propQ.elems == [] && forall x :: x in sys.svcs ==> sys.svcs[x].prop <= {PropPin}
      ensures Requests.AllBusy(past, lost) && (if past == [] then sys == old(sys) else past[0] == old(sys))
      ensures sys.doubled == old(sys.doubled) <==> Requests.AllAnew(past)
      ensures Requests.SteadyDrain(past) ==> StopsKept(old(sys), sys)
    {
      Order.OrderedExactly(sys);
      ghost var order :| ServiceWork.Ordered(sys, order);
      ghost var taken;
      sys, past, taken := Requests.Drain(sys, order, lost);
      if Requests.SteadyDrain(past) {
        Requests.SteadyAll(past, taken);
      }
    }

    /** Process the queues of a graph without cycles until they are empty, or for as many transitions as there are
        `wills`. The propagation queue is drained before each of them. `taken` says how the steps turned out. */
    method ProcessAll(wills: seq<Will>) returns (drained: bool, ghost past: seq<Sys>, ghost taken: seq<Will>)
      requires Valid() && Order.Acyclic(sys) && forall k :: 0 <= k < |wills| ==> Requests.ChainIn(wills[k], sys)
      modifies this
      ensures Valid() && SameGraph(old(sys), sys) && MoreDoubled(old(sys), sys) && lost == old(lost)
      ensures sys.propQ.elems == [] && (drained ==> Requests.Settled(sys, lost))
      ensures |past| == |taken| && (if past == [] then sys == old(sys) else past[0] == old(sys))
      ensures Requests.AllBusy(past, lost) && Requests.Given(past, taken) <= wills
      ensures !drained ==> Requests.Given(past, taken) == wills
      ensures sys.doubled == old(sys.doubled) <==> Requests.AllAnew(past)
      ensures Requests.AllSteady(past, taken) ==> StopsKept(old(sys), sys)
    {
      Order.OrderedExactly(sys);
      ghost var order :| ServiceWork.Ordered(sys, order);
      sys, drained, past, taken := Requests.RunTransitions(sys, wills, order, lost);
    }

    /** Process the queues until they are empty, or for as many steps as there are `wills`, which say how transitions
        turn out. `past` lists the states that the steps began in. */
    method ProcessQueues(wills: seq<Will>) returns (drained: bool, ghost past: seq<Sys>)
      requires Valid() && forall k :: 0 <= k < |wills| ==> Requests.ChainIn(wills[k], sys)
      modifies this
      ensures Valid() && SameGraph(old(sys), sys) && MoreDoubled(old(sys), sys) && lost == old(lost)
      ensures drained ==> Requests.Settled(sys, lost)
      ensures |past| <= |wills| && (!drained ==> |past| == |wills|) && (past != [] ==> past[0] == old(sys))
      ensures Requests.AllBusy(past, lost)
      ensures sys.doubled == old(sys.doubled) <==> Requests.AllAnew(past)
      ensures Requests.AllSteady(past, wills) ==> StopsKept(old(sys), sys)
    {
      sys, drained, past := Requests.RunQueues(sys, wills, lost);
    }
  }
}
