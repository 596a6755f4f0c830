# A Dafny model of dinit

dinit is a service manager. Services depend on each other; starting, stopping and pinning a service is carried from
one to the next through two queues. dinit brings along Dasynq, an event library.

This project models the parts of both that are hardest to get right, and proves properties of them that hold for every
input, every run or every reachable state. `dafny verify dfyconfig.toml` checks it.

## What is modelled

**Sorted set with reserved nodes** (`BTree*.dfy`, from `btree_set.h`). Septnodes live at addresses in a map and are
updated field by field. A ghost tree says what the memory stands for; its invariant is local to each node (keys,
ranges, levels, links up and down), so every step is checked against the nodes it touches. Insert, remove and find
refine a finite map from values to handles. The number of nodes in use is bounded by the number of allocated slots, so
the reserve is never empty when a node is split.

**Services** (`Service*.dfy`, from `service.cc` and `service.h`). The whole service set is one value: records, links
and three queues. Every operation keeps three things. A service that waits for its dependencies is in the transition
queue, or some link of it is marked as waited on. `required_by` equals the explicit activation plus the acquisitions
held by dependents, plus those taken twice. Whatever is to be propagated is queued. Stopping is described by a
relation between states besides: it never starts, acquires or waits for anything, a pinned service keeps its state,
and a started service that goes down is queued or has a strict dependent that is up. The stopping side has a wake-up
of its own: a service that is stopping and has not been brought down is queued, or it waits and some dependent of it
is up. Whether it has been brought down is recorded in the model. The wake-up is kept over whole runs but for the
cases listed below, and so it is a relation between the states before and after rather than a part of the invariant.
What a process does, or what a virtual method of a derived class decides, is a free choice in the model: the proofs
hold for all of them.

Propagation ends: on every graph without cycles, each thing propagated leaves less to do (`ServiceWork`). What there is
to do is compared by the starts asked for, the line for the console, the acquisitions, the links waited on, failures,
wrong marks for pins and stops, in this order. The flags of starts and marks go down the graph and those of failures and
stops up, so each kind is a number whose first digits belong to the services where the flags come from. `ServiceOrder`
shows that the order used for that exists exactly if there is no cycle.

**Intrusive queue** (`IntrusiveQueue.dfy`, from `dinit-ll.h`). `is_queued` does not recognise the last of several
elements, so queueing it again closes a loop. Every shape that can arise is a path or a path into one loop, and
popping empties it. The service model uses these shapes for both of its queues.

**Start pins** (`Pins.dfy`), **attention lock** (`AttentionLock.dfy`), **setting values and variable substitution**
(`Chars`, `SettingValue`, `VarSubst`), **cycle checks** (`Graphs`, `CycleSearch`), **control connections**
(`RingBuffer`, `ControlFraming`, `ControlOutput`), the **d-ary heap** (`DaryHeap`) and the **restart limiter**
(`RestartLimiter`).

## Where the code does not do what one would expect

Each of these is stated as it is, with the exact condition under which the expected property holds.

- Removing a dependency can leave its dependent waiting for ever: `ServiceLinks.RmDep` and
  `ServiceLinks.UnlinkWakes`, with a run to such an end in `ServiceCases.WakeUpLost`. A dependency that waits for its
  dependents to stop can lose its wake-up in the same way: `ServiceLinks.UnlinkStops`, with a run in
  `ServiceStopCases.CutOff`.
- A service that acquires its dependencies counts one that it holds already a second time:
  `ServicePropagation.AcquireAll`, with a run that leads there in `ServiceCases.CountedTwice`.
- A failed start gives the dependencies up only if the service was not pinned, although it drops the pin:
  `ServiceStarts.FailToStart`. The run just named begins with that.
- A service in line for the console that has to wait for another by the time it is its turn is passed over, and if it is
  still starting when the console has found a user, nothing is going to look at it again:
  `ServiceRuns.AcquiredConsole`, with a run to such an end in `ServiceCases.LeftBehindTheConsole`.
- A service that is stopping and is turned around does not tell the dependencies that wait for it to stop:
  `ServiceStarts.TurnedAround` says which of them are left without a wake-up, `ServiceStarts.DoStart`,
  `ServiceStarts.Start` and `ServicePropagation.DoPropagation` when there are none, and `ServiceStopCases.Crossed` is a
  run to such an end. Nor does it acquire its dependencies again: `ServiceStarts.TurnedHolds`.
- A service that is taken from the queue while a dependent that is down still holds it is left behind, whether it waits
  for its dependents or not: `ServiceRequests.LeftBehindSleeps`, with a run in `ServiceStopCases.HeldForGood`.
- Queueing the last of several elements closes a loop, and it is then popped twice: `QueueShape.LoopCloses`.
- White space at the end of a setting value, or a comment, lists the last part twice, and nothing else does:
  `ValueGrammar.ExactPositions`. Substitution moves the second of them as a whole, so it is right if and only if the
  last argument keeps its length: `VarSubst.ValueVarSubst`. Whatever the variables are, that is so just if there is no
  dollar sign in it: `VarSubst.KeptAlways`. `VarSubst.ListedTwice` is an instance.
- The root of a search for cycles is not marked as visited, so a service that depends on itself is listed twice if the
  search begins with it, and only then: `CycleSearch.CutRepeats`, with an instance in `CycleSearch.OnItself`.
- A bad request is answered but not consumed, and the loop that handles requests then goes on with it for ever:
  `ControlConnection.Connection.HandleComplete` ends if and only if nothing bad is left. A request that names a handle
  which is not known is bad in this sense, as in `Framing.UnknownHandle`, and so is one about a dependency of a service on
  itself, as in `Framing.OnItself`.
- Removing a node from the middle of the heap can break its order: `DaryHeap.RemoveAt`, with an instance in
  `DaryHeap.RemoveCanBreakOrder`.
- The flag that asks a service to look at the pins of its dependents is set and never cleared
  (src/service.cc:284-309). Only its queueing matters, and that is what the models of pins and of propagation rely on.
- A request to add a dependency of an unknown kind is answered with an error and then carried out all the same
  (src/control.cc:741-748): `ControlDeps.Dependencies.AddServiceDep`.

## Conventions

- Where the original updates many small objects that point to each other, the methods take the state as a value and
  return the new one; a class wraps them where the original has an object of that kind.
- Parameters called `ghost` carry only what the proofs need. `Slack` lists what an operation excuses from the service
  invariant for the time being.
- What the handles of a control connection stand for depends on the requests handled before; it is any function of them.
- The environment of a substitution is a map. Times and priorities are integers. Node addresses, handles, services and
  links are named by integers or by `Ref`.

## Model

| member | source | states |
|---|---|---|
| `BTreeSet.BtreeSet.Insert` | dasynq/include/dasynq/btree_set.h:339-497 | the set gains the value and its handle exactly if the value was absent; order, equal leaf depth, occupancy, links, reserve and counters stay right |
| `BTreeSet.BtreeSet.Remove` | dasynq/include/dasynq/btree_set.h:500-551 | exactly the value of that handle is gone; the whole invariant is kept |
| `BTreeSet.BtreeSet.Find` | dasynq/include/dasynq/btree_set.h:553-570 | gives the handle stored for the value, and null exactly if there is none |
| `BTreeSet.BtreeSet.AllocSlot` | dasynq/include/dasynq/btree_set.h:125-153 | counts one more slot and keeps enough spare nodes; if memory runs out, the nodes, the reserve and all counters are as before |
| `BTreeSet.BtreeSet.Deallocate` | dasynq/include/dasynq/btree_set.h:317-334 | counts one slot less; a node to delete is always there when one is due |
| `BTreeSet.GrowReserve` | dasynq/include/dasynq/btree_set.h:125-153 | counters and free list stay in step when a node may come to be needed; without memory for one nothing changes |
| `BTreeSet.ShrinkReserve` | dasynq/include/dasynq/btree_set.h:317-334 | counters and free list stay in step; the node deleted is a spare one |
| `BTreeSet.SpareNode` | dasynq/include/dasynq/btree_set.h:155-167 | the reserve holds at least what the slots allocated may need beyond the nodes in use |
| `BTreeOccupancy.NodeBound` | dasynq/include/dasynq/btree_set.h:398-477 | a tree of m nodes holds at least 1 + (m-1) * N/2 values |
| `BTreeOccupancy.RoomToSplit` | dasynq/include/dasynq/btree_set.h:398-477 | when a node is to be split, one node more (two at the root) still respects that bound |
| `BTreeOccupancy.SpareForSplit` | dasynq/include/dasynq/btree_set.h:155-167 | with no more values than slots, a split always finds its spare nodes |
| `BTreeModel.InsertAtStruct` | dasynq/include/dasynq/btree_set.h:479-496 | putting a value where it belongs keeps keys sorted, ranges, levels and links |
| `BTreeModel.SplitAtStruct` | dasynq/include/dasynq/btree_set.h:398-463 | splitting a full node keeps the tree in order, with the middle value on its way up |
| `BTreeModel.GrowRootStruct` | dasynq/include/dasynq/btree_set.h:465-473 | a new root on top of two halves keeps all leaves at one depth |
| `BTreeModel.MergeAtStruct` | dasynq/include/dasynq/btree_set.h:171-208 | merging two siblings around their separator keeps the tree in order |
| `BTreeModel.CollapseRootStruct` | dasynq/include/dasynq/btree_set.h:202-207 | dropping an empty root keeps all leaves at one depth |
| `BTreeModel.LeafDeleteStruct` | dasynq/include/dasynq/btree_set.h:528-540 | taking a value out of a leaf removes it and nothing else |
| `BTreeModel.TakeSuccessorStruct` | dasynq/include/dasynq/btree_set.h:508-540 | replacing an inner value by its successor removes it and keeps every range |
| `BTreeNode.FindSlot` | dasynq/include/dasynq/btree_set.h:346-391 | the binary search tells whether the value is in the node and, if not, between which keys it belongs |
| `BTreeNode.SplitFull` | dasynq/include/dasynq/btree_set.h:403-460 | the two halves and the middle value are what the overfull sequence would be cut into |
| `BTreeNode.InsertValue` | dasynq/include/dasynq/btree_set.h:479-496 | keys, handles and children move up by one from the place of insertion |
| `BTreeNode.NumVals` | dasynq/include/dasynq/btree_set.h:47-56 | counting from the back gives the number of values |
| `BTreeNode.DeleteValue` | dasynq/include/dasynq/btree_set.h:532-540 | exactly that value is gone from the node, the others close up, and the index left over is their number |
| `BTreeNode.AppendAll` | dasynq/include/dasynq/btree_set.h:173-191 | the left node holds its own values, the separator and those of the right one, with all children |
| `BTreeNode.LendFirst` | dasynq/include/dasynq/btree_set.h:242-253 | one value goes from the right node up and one from the parent down to the left one, with a child |
| `BTreeNode.LendLast` | dasynq/include/dasynq/btree_set.h:280-291 | the same from left to right |
| `BTreeInsert.SplitUp` | dasynq/include/dasynq/btree_set.h:398-477 | one turn of the loop: a split finds a spare node, keeps the tree in order, and leaves the middle value to be placed one level up, or in a new root |
| `BTreeInsert.Place` | dasynq/include/dasynq/btree_set.h:398-497 | the loop ends, and the value handed up last is placed in a node with room; every node but the root is at least half full |
| `BTreeInsert.InsertHandle` | dasynq/include/dasynq/btree_set.h:339-497 | the memory after insertion shows the tree with the value added |
| `BTreeInsert.Search` | dasynq/include/dasynq/btree_set.h:346-391 | found exactly if the value is stored; otherwise ends at the place in the leaf where it belongs |
| `BTreeInsert.TakeSpare` | dasynq/include/dasynq/btree_set.h:155-161 | the first spare node is taken and cleared, and the others stay linked |
| `BTreeInsert.SplitNode` | dasynq/include/dasynq/btree_set.h:400-463 | the memory after a split shows the split tree, with the middle value and handle taken out |
| `BTreeRemove.ShareStruct` | dasynq/include/dasynq/btree_set.h:241-294 | moving a value and a child between siblings, as a merge followed by a split elsewhere, keeps the tree in order and its contents |
| `BTreeRemove.RepopStep` | dasynq/include/dasynq/btree_set.h:212-296 | a node one short is refilled from a sibling, or merged, which may leave its parent one short |
| `BTreeRemove.Repop` | dasynq/include/dasynq/btree_set.h:212-296 | refilling ends with every node but the root at least half full |
| `BTreeRemove.MergeStep` | dasynq/include/dasynq/btree_set.h:230-240 | a merge releases one node, and drops an emptied root; done, or the parent is one short |
| `BTreeRemove.BorrowRight` | dasynq/include/dasynq/btree_set.h:241-255 | the memory after taking a value from the right sibling shows the shared tree |
| `BTreeRemove.BorrowLeft` | dasynq/include/dasynq/btree_set.h:279-294 | the memory after taking a value from the left sibling shows the shared tree |
| `BTreeRemove.CutLeaf` | dasynq/include/dasynq/btree_set.h:528-545 | exactly that value is gone; at most its leaf is one short |
| `BTreeRemove.CutInner` | dasynq/include/dasynq/btree_set.h:511-545 | exactly that value is gone, though its successor left the leaf; at most that leaf is one short |
| `BTreeRemove.RemoveHandle` | dasynq/include/dasynq/btree_set.h:500-551 | the memory after removal shows the tree without the value |
| `QueueShape.AddKeeps` | src/includes/service.h:1110-1124 | queueing keeps the shape a path or a path into one loop, loses nothing, and the element is there |
| `QueueShape.PopKeeps` | src/includes/dinit-ll.h:143-150 | popping loses at most the head, and not even that if a loop leads back to it |
| `QueueShape.LoopCloses` | src/includes/dinit-ll.h:125-136 | a loop arises exactly when the last of several elements is queued again; one pop more is then needed |
| `QueueShape.PopProgress` | src/includes/service.h:1127-1139 | every pop leaves one pop less to do |
| `QueueShape.NewestFirst` | src/includes/dinit-ll.h:131-136 | what is queued comes out first |
| `IntrusiveQueue.Slist.IsQueued` | src/includes/dinit-ll.h:125-129 | reads from the links what the shape says about being queued |
| `IntrusiveQueue.Slist.Insert` | src/includes/dinit-ll.h:131-136 | the links after insertion are those of the new shape |
| `IntrusiveQueue.Slist.Add` | src/includes/service.h:1110-1124 | an element that does not look queued is inserted, and the shape follows |
| `IntrusiveQueue.Slist.PopFront` | src/includes/dinit-ll.h:143-150 | gives the head, and the links are those of the remaining shape |
| `IntrusiveQueue.Slist.Drain` | src/includes/service.h:1127-1139 | popping until the head is null terminates and visits every queued element |
| `ServiceStops.Release` | src/service.cc:177-206 | more than one acquisition: only the count changes; the last one sets the target to STOPPED, gives up the dependencies unless pinned, and stops the service if that is asked for; exactly what changes when nobody has to be told |
| `ServiceStops.Unrequired` | src/service.cc:190-199 | an unpinned service that nothing requires gives up its dependencies, or forgets that it was to acquire them; nothing else changes |
| `ServiceStops.DoStop` | src/service.cc:642-714 | a pinned service is left as it is; a started one is STOPPING, and it is queued, or waits because a strict dependent is up; every dependent has been told; nothing is started or acquired; unless an acquisition or a link waited on has gone, only its dependents are told to stop |
| `ServiceStops.DownTrans` | src/service.cc:642-801 | over any run of stops, a service that went from STARTED to STOPPING is queued, or has a strict dependent that is up |
| `ServiceStops.DownKeepsStops` | src/service.cc:642-801 | no run of stops takes the wake-up from a service that is still to be brought down |
| `ServiceStops.StopDependents` | src/service.cc:733-801 | every dependent is told: soft links are broken unless restarting, strict ones take over a forced stop, a target of STOPPED or a restart; whether all have stopped is right |
| `ServiceStops.StopSelf` | src/service.cc:672-713 | a start waiting for dependencies or the console is stopped at once; the service waits only if some strict dependent is up, and is queued otherwise |
| `ServiceStops.StopForGood` | src/service.cc:761-771 | the dependent aims for STOPPED, has no activation left and is to stop |
| `ServiceStops.BreakSoft` | src/service.cc:782-797 | a soft dependent neither waits for nor holds the service any longer, and is queued if it waited |
| `ServiceStops.InterruptStart` | src/service.cc:672-700 | a start that waits for dependencies or the console can always be interrupted |
| `ServiceStops.ForcedStop` | src/service.cc:572-581 | a service that is not stopped is marked, and queued to stop unless pinned |
| `ServiceStops.UnrecoverableStop` | src/service.cc:558-562 | in addition the target is STOPPED |
| `ServiceStops.Unblock` | src/service.cc:389-397 | a link stops being waited on only together with its waiting dependent being queued |
| `ServiceStops.DependencyStarted` | src/service.cc:389-397 | a starting or started service is queued if and only if it still waits for dependencies (or was queued); nothing else changes |
| `ServiceStops.ForceDependent` | src/service.cc:749-759 | a dependent that is not stopped takes over the forced stop, and the target if that is STOPPED |
| `ServiceStops.RestartDependent` | src/service.cc:773-779 | the dependent is to restart and to stop |
| `ServiceStarts.ReleaseDependencies` | src/service.cc:208-219 | afterwards the service holds no dependency |
| `ServiceStarts.CheckDependencies` | src/service.cc:399-412 | exactly the dependencies in the way become waited on, and it reports whether there are none |
| `ServiceStarts.CheckDependents` | src/service.cc:414-422 | exactly the ordering links from services that are starting become waited on |
| `ServiceStarts.InitiateStart` | src/service.cc:236-247 | the service is STARTING; exactly the links in the way become waited on; with none it is queued; nothing else changes |
| `ServiceStarts.Require` | src/service.cc:165-175 | the count rises by one, and the first acquisition asks for a start if the service is down |
| `ServiceStarts.Acquire` | src/service.cc:254-257 | the link is held; the count stays exact unless it was held before |
| `ServiceStarts.FailToStart` | src/service.cc:503-551 | nothing holds the service or, softly, waits for it; strict dependents that are starting are to fail, and nobody else unless an acquisition or a link waited on has gone; its count is back to what was counted twice; its own dependencies are given up if and only if an acquisition was lost, none is left over, and the service was not pinned |
| `ServiceStarts.FailDependent` | src/service.cc:518-546 | the link holds nothing; a strict dependent that is starting is to fail, any other no longer waits |
| `ServiceStarts.ReattachAll` | src/service.cc:347-359 | every soft dependent that is up holds the service again, and only the count changes |
| `ServiceStarts.DoStart` | src/service.cc:334-387 | which states lead to STARTING and which stay, and all that changes in each case; soft dependents that are up hold the service again; a service turned around takes a wake-up if and only if it is the only one to wake some dependency |
| `ServiceStarts.TurnedAround` | src/service.cc:362-387 | when a stopping service starts again, exactly those lose their wake-up that nothing else is going to wake |
| `ServiceStarts.TurnedHolds` | src/service.cc:362-387 | a service turned around is going to hold all its regular dependencies if and only if it was before |
| `ServiceStarts.FreshHolds` | src/service.cc:376-383 | a stopped service that starts is going to hold them, unless it was about to give them up and does not hold them all |
| `ServiceStarts.Start` | src/service.cc:221-234 | unless pinned stopped, the service is activated and aims for STARTED; a stopped one begins to start; for one turned around, all that changes; no wake-up of a stopping service is lost if and only if this one is not turned around or nobody depends on it for waking |
| `ServiceRuns.CheckDepsStarted` | src/service.cc:425-434 | true exactly if no link of the service is waited on |
| `ServiceRuns.BecomeStopped` | src/service.cc:84-135 | STARTING again, or STOPPED without activation and with all soft links broken; every dependency that waits for it to stop is queued |
| `ServiceRuns.BecomeStarted` | src/service.cc:477-500 | the service stops again if it must; otherwise nobody waits for it any longer |
| `ServiceRuns.AllDepsStarted` | src/service.cc:436-449 | reached only with nothing waited on; queues for the console exactly if that is needed and not held, and is otherwise brought up, with the state that the outcome leads to |
| `ServiceRuns.AcquiredConsole` | src/service.cc:451-467 | a service that cannot use the console hands it on: the first in line that can is brought up with it, and if nobody can, all are passed over and nothing else changes; one that had got past waiting, is passed over and is still starting is in no queue and has no console; ends because the queue gets shorter |
| `ServiceRuns.ReleaseConsole` | src/service.cc:869-873 | the service gives the console up; the first in line that can use it is brought up with it, those before are passed over, and if nobody can, all are and nothing else changes |
| `ServiceRuns.PullConsole` | src/includes/service.h:1152-1165 | an empty queue changes nothing; otherwise it gets shorter; the first in line that can use the console is brought up with it, those before are passed over, and if nobody can, all are and nothing else changes |
| `ServiceRuns.QueueForConsole` | src/service.cc:863-867 | the service is last in line and marked as waiting |
| `ServiceRuns.Started` | src/service.cc:469-501 | the console is given back first, unless the service runs on it, and then the service comes up exactly as one does from where things are by then; a service that has no console and need not stop only unblocks those that wait for it |
| `ServiceRuns.FailedToStart` | src/service.cc:503-556 | the start fails as it does, then the console is given back, and then the service comes down, each exactly as from where things are by then; STOPPED, aiming for STOPPED and without activation in every case; all dependencies that wait for it to stop are queued |
| `ServiceRuns.Stopped` | src/service.cc:77-163 | the console is given back, then the service comes down, restarting exactly if it is to by then, and then it chains exactly if asked to and not after a final failure, and the other service is asked to start |
| `ServiceRuns.NotifyDependencies` | src/service.cc:109-112 | every dependency that waits for its dependents to stop is queued |
| `ServiceRuns.DependentStopped` | src/service.cc:583-588 | a service that waits for its dependents to stop is queued; nothing else changes |
| `ServiceRuns.BreakSoftDependents` | src/service.cc:92-107 | no soft link is held or waited on any longer |
| `ServiceRuns.UnblockAll` | src/service.cc:494-500 | nobody waits for the service; no record changes |
| `ServicePropagation.AcquireAll` | src/service.cc:251-260 | every dependency other than an ordering one is held; each count grows by exactly the links that were held before, so the counts stay exact if and only if none was |
| `ServicePropagation.PropagateRequire` | src/service.cc:251-260 | the request is consumed, the dependencies are held, and the counts stay exact if and only if none was; there is less to propagate |
| `ServicePropagation.PropagateRelease` | src/service.cc:262-265 | afterwards no dependency is held; exactly what changes for none or one that nobody else has to hear of; there is less to propagate |
| `ServicePropagation.PropagateFailure` | src/service.cc:267-272 | the start has failed exactly as a failed start does; the service is STOPPED, aims for STOPPED and has no activation; no wake-up of a stopping service is lost; there is less to propagate |
| `ServicePropagation.PropagateStart` | src/service.cc:274-277 | a stopped service that is not pinned stopped begins to start; a wake-up is taken if and only if the service is turned around and is the only one to wake some dependency; there is less to propagate |
| `ServicePropagation.PropagateStop` | src/service.cc:279-282 | a started service that is not pinned begins to stop; exactly what changes when nobody has to be told; there is less to propagate |
| `ServicePropagation.CheckPinned` | src/service.cc:285-291 | true exactly if some strict dependent is pinned |
| `ServicePropagation.MarkPins` | src/service.cc:294-299 | every strict dependency that disagrees has been told |
| `ServicePropagation.PropagatePin` | src/service.cc:284-309 | the mark says whether some strict dependent is pinned; what the pin held back is done when the last one goes; nothing changes or there is less to propagate |
| `ServicePropagation.DoPropagation` | src/service.cc:249-310 | everything that was due is done, and the invariant holds without exception; nothing changes or there is less to propagate; the wake-ups of stopping services are kept if, and when the service is not to release or stop as well only if, it is not turned around or nobody depends on it for waking |
| `ServicePropagation.StopCheckDependents` | src/service.cc:716-731 | true exactly if no hard dependent still holds the service without waiting for it |
| `ServicePropagation.ExecuteTransition` | src/service.cc:312-332 | a service taken from the queue is brought up only with nothing waited on, down only with nothing holding it, with the result that the outcome leads to, and is otherwise still going to be woken |
| `ServicePropagation.BringDown` | src/service.cc:320-331 | either the service is still going down, and only stops waiting, or it gives back the console and is down from where things are by then, or up again exactly if it is to restart; the invariant is kept whatever it chains to |
| `ServiceLinks.AddDep` | src/includes/service.h:756-780 | the new link is acquired exactly if both its kind and the states of both services call for it; the counts stay exact |
| `ServiceLinks.StartDep` | src/includes/service.h:824-830 | the link is held and counted once |
| `ServiceLinks.RmDep` | src/includes/service.h:806-819 | the counts stay exact; the invariant is kept if and only if something else wakes the dependent or it is not waiting afterwards; no stopping service loses its wake-up if and only if the link was not the last that would have woken its dependency; a link that is not held is gone and nothing else changes |
| `ServiceLinks.UnlinkWakes` | src/includes/service.h:806-819 | the wake-up survives exactly if the dependent is not waiting, is queued, or waits on another link |
| `ServiceLinks.UnlinkStops` | src/includes/service.h:806-819 | a dependency that is still to be brought down keeps its wake-up exactly if it is queued or another dependent is up |
| `ServiceRequests.Stop` | src/service.cc:590-624 | when the target becomes STOPPED, when the service is STOPPING, and when nothing happens to its state; exactly what changes when nobody has to be told |
| `ServiceRequests.Restart` | src/service.cc:626-640 | accepted exactly if STARTED, and then STOPPING unless pinned |
| `ServiceRequests.PinStart` | src/service.cc:809-822 | pinned; every hard dependency without the mark is told |
| `ServiceRequests.UnpinStarted` | src/service.cc:826-853 | pinned by a dependent, only the pin goes; otherwise every strict dependency with the mark is told, and a stop that the pin held back happens |
| `ServiceRequests.Unpin` | src/service.cc:824-861 | which pins are left; every strict dependency with the mark is told; a stop that the pin held back happens, and then the queues are processed, with all that holds of a run, before the stop pin goes |
| `ServiceRequests.PopPropagation` | src/includes/service.h:1127-1133 | only the flags of the service taken are left over |
| `ServiceRequests.PopTransition` | src/includes/service.h:1134-1137 | only the service taken may be without a wake-up |
| `ServiceRequests.QueueStep` | src/includes/service.h:1127-1139 | each step keeps the invariant, keeps the counts exact if and only if it does not acquire what is held, and keeps the wake-ups of stopping services if it turns none around that is needed, leaves none behind and chains to nothing, and in plain steps only if; what it does to the service taken; a propagation changes nothing or leaves less to do |
| `ServiceRequests.LeftBehindSleeps` | src/service.cc:320-331 | a stopping service that is left behind, waiting or not, had its wake-up and has lost it |
| `ServiceRequests.RunQueues` | src/includes/service.h:1127-1139 | over any number of steps: the invariant, exact counts if and only if no step acquired what was held, and the wake-ups of stopping services if every step is steady |
| `ServiceRequests.DrainOn` | src/includes/service.h:1130-1133 | draining the propagation queue ends on every graph without cycles, from any state of a run |
| `ServiceRequests.Drain` | src/includes/service.h:1130-1133 | and then nothing is left to propagate |
| `ServiceRequests.RunTransitions` | src/includes/service.h:1127-1139 | processing with as many transitions as given, each after the propagation queue has been drained: settled, or all of them used |
| `ServiceWork.AskedLessens` | src/service.cc:251-260 | acquiring the dependencies leaves less to propagate, though they may be asked to start |
| `ServiceWork.StartLessens` | src/service.cc:274-277 | so does a start, though it may ask for the dependencies |
| `ServiceWork.ReleaseLessens` | src/service.cc:262-265 | so does giving the dependencies up, though they may be to stop |
| `ServiceWork.FailureLessens` | src/service.cc:267-272 | so does a failure, though dependents may be to fail and others may get the console |
| `ServiceWork.StopLessens` | src/service.cc:279-282 | so does a stop, though dependents may be to stop |
| `ServiceWork.PinLessens` | src/service.cc:284-309 | so does a change of the mark for pins, though dependencies may be told and the service may stop |
| `ServiceOrder.OrderedExactly` | src/load-service.cc:101-122 | the services can be listed with each before those it depends on if and only if there is no cycle |
| `ServiceRequests.EmptyQueuesSettle` | src/includes/service.h:1127-1139 | with empty queues nothing is left to propagate, every service that waits for dependencies has a link it waits on, and every one still to be brought down that has its wake-up waits for a dependent that is up |
| `ServiceRequests.ConservedUnlessDoubled` | src/service.cc:165-219 | a count is exact if and only if no acquisition of that service was taken twice |
| `ServiceSet.ServiceSet.Start` | src/service.cc:221-234 | the invariant of the whole set is kept; a stopped service begins to start, and no other service changes; for one turned around, all that changes; no stopping service loses its wake-up if and only if this one is not turned around or nobody depends on it for waking |
| `ServiceSet.ServiceSet.Stop` | src/service.cc:590-624 | the invariant of the whole set is kept; nothing starts, and a forced-down service is STOPPING |
| `ServiceSet.ServiceSet.Restart` | src/service.cc:626-640 | accepted exactly if STARTED; the invariant of the whole set is kept |
| `ServiceSet.ServiceSet.ForcedStop` | src/service.cc:572-581 | exactly a service that is not stopped is marked, and queued to stop unless pinned; the invariant of the whole set is kept |
| `ServiceSet.ServiceSet.PinStart` | src/service.cc:809-822 | pinned; every strict dependency without the mark is told; the invariant of the whole set is kept |
| `ServiceSet.ServiceSet.PinStop` | src/includes/service.h:622-625 | pinned; the invariant of the whole set is kept |
| `ServiceSet.ServiceSet.Unpin` | src/service.cc:824-861 | which pins are left, which dependencies are told, and the stop and the run of the queues that follow, with all that holds of a run; the invariant of the whole set is kept |
| `ServiceSet.ServiceSet.AddDep` | src/includes/service.h:756-780 | one link more, acquired exactly as its kind and the states of both services call for; no acquisition counted twice; the invariant of the whole set is kept |
| `ServiceSet.ServiceSet.StartDep` | src/includes/service.h:824-830 | the link is held; no acquisition counted twice; the invariant of the whole set is kept |
| `ServiceSet.ServiceSet.RmDep` | src/includes/service.h:806-819 | one link less; the dependent is among those without a wake-up afterwards exactly if nothing else wakes it and it still waits; no stopping service loses its wake-up if and only if the link was not the last to wake its dependency; the invariant of the whole set is kept for all others |
| `ServiceSet.ServiceSet.ProcessEvent` | src/service.cc:436-556 | whatever a process does, the invariant is kept; what each event does to its service; no stopping service loses its wake-up by a harmless event |
| `ServiceSet.ServiceSet.ProcessQueues` | src/includes/service.h:1127-1139 | on any graph, for as many steps as given: the invariant holds before and after every step; drained queues leave the set settled; over the whole run the counts stay exact if and only if no step acquired what was held, and stopping services keep their wake-ups if every step is steady |
| `ServiceSet.ServiceSet.DrainPropagation` | src/includes/service.h:1130-1133 | without cycles the loop ends, and nothing is left to propagate; counts and wake-ups as over any run |
| `ServiceSet.ServiceSet.ProcessAll` | src/includes/service.h:1127-1139 | without cycles, for as many transitions as given: settled, or all of them used and nothing left to propagate; counts and wake-ups as over any run |
| `ServiceCases.CountedTwice` | src/service.cc:249-265 | from nothing, requests, events and queue steps lead to a dependency counted twice for one holder: a pinned start fails, keeps what it holds, and starts again |
| `ServiceCases.LeftBehindTheConsole` | src/service.cc:389-467 | from nothing, they lead to a service that is starting, waits for nothing, has no console, and is in no queue |
| `ServiceCases.WakeUpLost` | src/includes/service.h:806-819 | from nothing, they lead to a set with the invariant and empty queues in which removing a dependency leaves its dependent waiting with nothing to wake it |
| `ServiceStopCases.Crossed` | src/service.cc:362-387 | from nothing, requests, events and queue steps lead to a service that was turned around and waits for a dependency that it does not hold and is not going to; that one is stopping, and nothing will bring it down |
| `ServiceStopCases.CutOff` | src/includes/service.h:806-819 | they lead to a service that is stopping and waits for dependents to stop, when its last one is taken away |
| `ServiceStopCases.HeldForGood` | src/service.cc:716-731 | they lead to a service that is stopping, waits for nobody, and is held by one that is down: a pinned start fails and keeps it, and then it is stopped |
| `Pins.PinStart` | src/service.cc:809-822 | a disagreement between a mark and the dependents is always queued |
| `Pins.ReleasePin` | src/service.cc:824-837 | the same after a pin is removed |
| `Pins.Propagate` | src/service.cc:284-299 | the service looked at agrees with its dependents; less is left to do |
| `Pins.DrainedIsRight` | src/service.cc:284-299 | with an empty queue the mark is set exactly for services that a pinned one depends on, directly or through others |
| `Pins.MarkHasReason` | src/service.cc:285-293 | with an empty queue, behind every mark there is a pinned service |
| `Pins.ChainMarks` | src/service.cc:294-299 | with an empty queue, the mark is on everything down a chain from a pinned service |
| `Pins.PinnedServices.ProcessQueue` | src/includes/service.h:1127-1139 | the same for the object: the queue is drained and the marks are right |
| `Pins.Drain` | src/includes/service.h:1127-1139 | draining terminates, and then the marks are exactly right |
| `Pins.WorkAdd` | src/includes/dinit-ll.h:131-136 | queueing adds at most the weight of the element, also when it closes a loop |
| `LockModel.RunKeeps` | dasynq/include/dasynq.h:1108-1191 | in every interleaving the lock invariant holds: only the head holds the lock, nobody waits to poll while the attention queue is empty, the flag says whether the head polls, and a poller with others behind it has been interrupted |
| `LockModel.MutualExclusion` | dasynq/include/dasynq.h:1108-1191 | two holders are the same thread |
| `LockModel.NeverStuck` | dasynq/include/dasynq.h:1171-1191 | while a thread is queued, the head holds the lock or has been signalled |
| `LockModel.ReleaseKeeps` | dasynq/include/dasynq.h:1171-1191 | handing the lock on keeps the invariant |
| `LockModel.PollKeeps` | dasynq/include/dasynq.h:1152-1168 | asking to poll keeps the invariant |
| `LockModel.AttendKeeps` | dasynq/include/dasynq.h:1108-1126 | asking for attention keeps the invariant |
| `LockModel.TryAttendKeeps` | dasynq/include/dasynq.h:1130-1146 | asking without interrupting a poll keeps the invariant |
| `LockModel.WakeKeeps` | dasynq/include/dasynq.h:1108-1126 | a waiting thread that looks again keeps the invariant |
| `AttentionLock.QueueNode` | dasynq/include/dasynq.h:306-316 | the node is linked at the end, and no other queue is touched |
| `AttentionLock.Unqueue` | dasynq/include/dasynq.h:277-284 | the first node is gone from the linked queue |
| `AttentionLock.EventLoopLock.GetAttnLock` | dasynq/include/dasynq.h:1108-1126 | the linked queues do what the abstract step does; a poll is interrupted exactly by the second in the queue |
| `AttentionLock.EventLoopLock.PollAttnLock` | dasynq/include/dasynq.h:1130-1146 | refuses exactly while somebody polls |
| `AttentionLock.EventLoopLock.GetPollwaitLock` | dasynq/include/dasynq.h:1152-1168 | held at once exactly if nobody was queued |
| `AttentionLock.EventLoopLock.WakeUp` | dasynq/include/dasynq.h:1108-1168 | a waiting thread that looks again holds the lock exactly if the abstract step says so |
| `AttentionLock.EventLoopLock.ReleaseLock` | dasynq/include/dasynq.h:1171-1191 | the thread signalled is the new head |
| `VarSubst.ValueVarSubst` | src/includes/load-service.h:751-935 | cutting the new line at the new offsets gives exactly the arguments of the recursive expander; if the last argument is listed twice, that holds of all but the second, and of all if and only if the argument keeps its length; refused as ill-formed only where the expander is, and as too long only if the line and its values are longer than the limit |
| `VarSubst.KeptAlways` | src/includes/load-service.h:926-930 | an argument keeps its length whatever the variables are if and only if it has no dollar sign |
| `VarSubst.ListedTwice` | src/includes/load-service.h:926-930 | `a $x` with the second argument listed twice and hello for x gives a, hello and lo |
| `Substitution.Shrinks` | src/includes/load-service.h:776-916 | with no variables set, an argument with a dollar sign becomes shorter |
| `VarSubst.SubstArgument` | src/includes/load-service.h:772-926 | one argument becomes what it expands to, and the offsets of the others still fit |
| `VarSubst.AppendWords` | src/includes/load-service.h:854-911 | the new line and offsets follow the splitting of the value, the adjustment stays the difference of lengths, and the line grows by no more than the value |
| `VarSubst.ReadReference` | src/includes/load-service.h:787-826 | reads the reference that the grammar gives, or refuses when there is none |
| `VarSubst.MoveArgument` | src/includes/load-service.h:926-930 | an argument without a reference only moves |
| `Substitution.SplitReference` | src/includes/load-service.h:854-902 | a split reference alone becomes the words of the value |
| `Substitution.PlainReference` | src/includes/load-service.h:847-853 | any other reference alone becomes one argument, even an empty one |
| `Substitution.Plain` | src/includes/load-service.h:755-758 | an argument without a dollar sign is left alone |
| `Chars.ReadConfigName` | src/includes/load-service.h:226-255 | reads the longest name there is, for settings as for variables, and none after a digit, dash or dot |
| `SettingValue.ReadSettingValue` | src/includes/load-service.h:280-371 | the loop gives what the grammar of values gives, errors included |
| `SettingValue.ReadQuoted` | src/includes/load-service.h:299-323 | reads to the closing quote what the grammar gives, or reports its error |
| `SettingValue.ReadSpace` | src/includes/load-service.h:339-349 | white space moves the reader as the grammar says |
| `SettingValue.ReadChar` | src/includes/load-service.h:294-362 | any other character moves the reader as the grammar says |
| `ValueGrammar.ReadsBack` | src/includes/load-service.h:280-371 | words written in any mixture of quotes and escapes are read back, with exact positions |
| `ValueGrammar.TrailingRepeatsLast` | src/includes/load-service.h:339-368 | with white space or a comment at the end, the last part is listed twice |
| `ValueGrammar.EveryLine` | src/includes/load-service.h:280-371 | every line that is read and is not blank consists of written words, and white space or a comment at the end |
| `ValueGrammar.ExactPositions` | src/includes/load-service.h:280-371 | for every such line: the positions are exact if and only if it ends with a word; otherwise only the last part is listed once too often |
| `Quoting.AnyArguments` | src/includes/load-service.h:264-268 | every nonempty list of arguments can be written so |
| `SettingValue.SeparateArgs` | src/proc-service.cc:23-43 | the terminators are where the parts end, and the starts are those of the parts |
| `SettingValue.Separated` | src/proc-service.cc:23-43 | the C string at each start is the argument, if that holds no NUL |
| `SettingValue.RoundTrip` | src/proc-service.cc:23-43 | written, read and separated, every argument comes out again |
| `CommandLine.PartsArePlaced` | src/includes/load-service.h:743-746 | positions of arguments one after the other are what substitution asks for |
| `CommandLine.ReadParts` | src/includes/load-service.h:280-371 | for every line that is read and is not blank, the reader gives what substitution asks for if the line ends with a word or its last part is empty, and otherwise lists the last argument twice |
| `Graphs.AddKeepsAcyclic` | src/control.cc:767-812 | one more dependency keeps a graph acyclic if and only if the dependent cannot be reached from the dependency |
| `CheckCycle.LinkedSet.AddBack` | src/includes/dinit-util.h:620-635 | adds at the back exactly what is not there |
| `CheckCycle.AddDependencies` | src/load-service.cc:113-121 | the dependencies of a service are added unless one is the service looked for, which is then reachable |
| `CheckCycle.CheckCycle` | src/load-service.cc:103-122 | fails exactly if the service can be reached from a new dependency, and terminates |
| `ControlDeps.Circular` | src/control.cc:767-790 | true exactly if the one service can be reached from the other, and terminates |
| `ControlDeps.PushDependencies` | src/control.cc:776-790 | everything one step further is marked and stacked once, unless it is the service looked for |
| `ControlDeps.Dependencies.AddServiceDep` | src/control.cc:735-812 | every reply and the new links are given exactly; the graph stays acyclic over any sequence of commands |
| `ControlDeps.Dependencies.RmServiceDep` | src/includes/service.h:784-794 | one link of that kind is gone, no other changes, and the graph stays acyclic |
| `CycleSearch.FindCycle` | src/dinitcheck.cc:171-224 | terminates; a chain found is a cycle, which lists a service twice only if it is a root depending on itself, and none found means that none can be reached from the services asked for |
| `CycleSearch.SearchFrom` | src/dinitcheck.cc:182-218 | ends with a cycle that lists services once, but for a root depending on itself, or with the service known to be free of cycles |
| `CycleSearch.NoCycleFromFree` | src/dinitcheck.cc:188-196 | from a service marked free no cycle can be reached |
| `CycleSearch.FreeFalls` | src/dinitcheck.cc:189-197 | along every path from a free service the order in which services became free goes down |
| `CycleSearch.Back` | src/dinitcheck.cc:189-197 | a service that is through is free; progress, also when it was free already |
| `CycleSearch.Down` | src/dinitcheck.cc:217-218 | a service is entered only when new or free; progress, also when it is entered again |
| `CycleSearch.Skip` | src/dinitcheck.cc:201-204 | a dependency that is not there is passed over |
| `CycleSearch.CutToCycle` | src/dinitcheck.cc:204-213 | the chain cut at the first occurrence of the service met again is a closed walk |
| `CycleSearch.CutRepeats` | src/dinitcheck.cc:177-213 | the cycle cut from the chain lists a service twice if and only if it begins with the root, and then it is the root depending on itself |
| `CycleSearch.OnItself` | src/dinitcheck.cc:177-213 | a root that depends on itself is listed twice |
| `RingBuffer.CpBuffer.Append` | src/includes/cpbuffer.h:154-169 | the contents gain exactly these bytes, wherever the buffer wraps |
| `RingBuffer.CpBuffer.Fill` | src/includes/cpbuffer.h:60-85 | the contents gain exactly what was read |
| `RingBuffer.CpBuffer.FillTo` | src/includes/cpbuffer.h:89-96 | the same for several reads, until there is enough or nothing more |
| `RingBuffer.CpBuffer.Consume` | src/includes/cpbuffer.h:112-117 | the contents lose exactly the first bytes |
| `RingBuffer.CpBuffer.TrimTo` | src/includes/cpbuffer.h:99-102 | the contents are cut to that length |
| `RingBuffer.CpBuffer.Extract` | src/includes/cpbuffer.h:120-150 | the bytes copied are those of the contents, also across the wrap |
| `RingBuffer.CpBuffer.At` | src/includes/cpbuffer.h:104-109 | indexing reads the contents |
| `RingBuffer.CpBuffer.GetContiguousLength` | src/includes/cpbuffer.h:46-57 | how many bytes from an index on lie side by side, and that they are the contents; at the end of the contents it is instead how far the array goes on |
| `RingBuffer.CpBuffer.GetFree` | src/includes/cpbuffer.h:28-31 | what is left of the size |
| `RingBuffer.CpBuffer.Reset` | src/includes/cpbuffer.h:172-176 | nothing is left |
| `Framing.CutInSteps` | src/control.cc:1400-1412 | cutting what came first and then the rest with what follows, by the handles known then, cuts the whole |
| `Framing.WholeStays` | src/control.cc:38-176 | a complete request is recognised whatever follows it |
| `Framing.BadStays` | src/control.cc:38-176 | what is bad stays bad whatever follows it |
| `Framing.NothingBefore` | src/control.cc:38-176 | before the length asked for is there, no request is complete |
| `Framing.RestIsPartial` | src/control.cc:1400-1412 | what stays behind holds no complete request |
| `Framing.BadForGood` | src/control.cc:1400-1412 | a stream that has turned bad stays so, whatever follows, and nothing more of it is a request |
| `Framing.RequestsFound` | src/control.cc:143-176 | requests written one after the other, each acceptable by the handles known when it is its turn, are found again |
| `Framing.RequestsAreProper` | src/control.cc:143-176 | no beginning of such a stream looks bad |
| `Framing.UnknownHandle` | src/control.cc:455-479 | on a connection that knows no handle, a request to unpin a service is bad |
| `Framing.OnItself` | src/control.cc:731-739 | a request about a dependency of a service on itself is bad, whatever the handles stand for |
| `ControlConnection.Connection.ProcessPacket` | src/control.cc:38-176 | a complete request whose handles are known is handled and consumed, an incomplete one is left with the length it needs, and a bad one is refused and left where it is; when the connection is to be closed |
| `ControlConnection.Connection.HandleNext` | src/control.cc:1400-1412 | each round makes the buffer shorter or asks for more, unless what is left is bad; then it is refused once more |
| `ControlConnection.Connection.HandleComplete` | src/control.cc:1400-1412 | the loop ends if and only if nothing bad is left, and then with exactly the complete requests handled and the length that the rest needs; otherwise it goes on refusing |
| `ControlConnection.Connection.DataReady` | src/control.cc:1378-1421 | after each read exactly the complete requests before anything bad are handled; the loop ends if and only if nothing is bad, and then the buffer is not full |
| `ControlConnection.Receive` | src/control.cc:1378-1421 | however the reads break up a stream and whatever the handles stand for, the requests handled are those before the first that is bad, and the connection gets stuck if and only if there is one |
| `ControlOutput.Sender.QueueBytes` | src/control.cc:1278-1325 | what the socket took followed by what is queued is what was sent before, and this packet, unless the connection is broken or memory runs out, which are told apart |
| `ControlOutput.Sender.QueueVector` | src/control.cc:1329-1376 | the same for a packet that is handed over whole |
| `ControlOutput.Sender.SendData` | src/control.cc:1434-1468 | the next bytes in order are sent; when the connection is finished, exactly; after running out of memory one byte that says so comes last |
| `HeapOrder.RootIsLeast` | dasynq/include/dasynq/daryheap.h:268-277 | in an ordered heap no priority comes before that of the root |
| `DaryHeap.BubbleDown` | dasynq/include/dasynq/daryheap.h:120-139 | order is restored, handles point to their places, and nothing is lost |
| `DaryHeap.BubbleUp` | dasynq/include/dasynq/daryheap.h:148-181 | the same towards the leaves, and in order exactly if the moved node fits its new parent |
| `DaryHeap.SelectChild` | dasynq/include/dasynq/daryheap.h:159-167 | a least one of the children |
| `DaryHeap.SinkDown` | dasynq/include/dasynq/daryheap.h:158-176 | the hole moves to where no child comes before the node, and nothing is lost |
| `DaryHeap.RemoveAt` | dasynq/include/dasynq/daryheap.h:183-193 | exactly that node is gone, handles agree, and order is kept if and only if the last node may take its place |
| `DaryHeap.RemoveCanBreakOrder` | dasynq/include/dasynq/daryheap.h:183-193 | an ordered heap and a place whose removal breaks the order |
| `DaryHeap.DaryHeap.Insert` | dasynq/include/dasynq/daryheap.h:260-266 | the node is added, order is kept, and it reports whether the node is the root |
| `DaryHeap.DaryHeap.PullRoot` | dasynq/include/dasynq/daryheap.h:279-282 | the root is gone and order is kept |
| `DaryHeap.DaryHeap.Remove` | dasynq/include/dasynq/daryheap.h:284-287 | exactly the node of that handle is gone, and order is kept if and only if the last node may take its place |
| `DaryHeap.DaryHeap.Drain` | dasynq/include/dasynq/daryheap.h:268-282 | repeated pulls give every node once, in order of priority |
| `RestartLimiter.Limiter.CheckRestart` | src/includes/proc-service.h:621-645 | refuses exactly if there is a maximum and it is reached in an interval that is not over |
| `RestartLimiter.WindowLimit` | src/includes/proc-service.h:621-645 | no half-open window as long as the interval sees more than twice the maximum |
| `RestartLimiter.Limiter.Limited` | src/baseproc-service.cc:38-46 | from a manual start on, no counting interval approves more than the maximum, and no window more than twice as many |

## Left out

- The B-tree is modelled for an even fan-out of at least four; the only use in the repository has the default of eight.
- The nodes of the B-tree are records in a map from addresses, and their arrays are sequences: writes to a node are
  updates of the map. The reserve, the links up and the links of the handles are fields in that memory.
- The cached leftmost node of the B-tree, `is_queued` after a removal, iteration and the wrap-around of its counters.
- ServiceSet.ServiceSet.ProcessQueues: is bounded by a number of steps, because it is stated for every graph;
  `ServiceSet.ServiceSet.ProcessAll` is bounded by the transitions only, because a service that keeps restarting keeps
  the queues busy.
- Unloading and reloading services, listeners, log output, the count of active services, stop reasons and exit codes.
- The console queue is a sequence: what its doubly linked list does when a queued service is appended again is not
  modelled.
- A chained service is any service of the set, because loading it by name is not modelled.
- Processes, timers and smooth recovery: their effect on a service is a free choice among the calls they can make.
- Pins.PinnedServices.ProcessQueue: covers what `Pins.Drain` covers.
- Pins.Drain: covers regular dependencies over a fixed acyclic graph, because a milestone stops being hard once it has
  started, and a failed start drops a pin without telling anybody.
- The condition variables of the attention lock: a parked thread may look again at any time, and a signal is a mark.
- The single-threaded loop, whose wait queues do nothing.
- ControlConnection.Connection.HandleComplete: the loop also ends when a reply cannot be queued, which is not modelled.
- ControlOutput.Sender.SendData: `outbuf_size` is not modelled.
- The effect of control commands other than those on dependencies.
- VarSubst.ValueVarSubst: asks for arguments followed by a space or the end of the line and for no dollar sign outside
  of them, the last of them perhaps listed twice, which is what the reader gives (`CommandLine.ReadParts`) and what a
  whole line is.
- The wrap-around of the unsigned offsets of a substitution; the length limit is a parameter.
- SettingValue.ReadSettingValue: the start of a part that is read before it is set is an arbitrary parameter.
- `set_priority` of the heap, and the growth and shrinking of its vector.
- File names, include directives, option tables and everything else that loading a service description involves.
