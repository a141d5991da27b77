/** Whole runs of a probe: any sequence of service calls, requests and removals. */
module ProbeRuns {
  import opened Clock
  import opened SharedStates
  import opened SessionModel
  import opened SessionProofs
  import opened SessionTiming
  import opened ProbeModel
  import opened ProbeProofs

  datatype ProbeOp =
    | ServiceOp(i: ServiceInput)
    | RequestOp(id: SessionId, target: TargetConfig, rtt: RttConfig, ioOk: bool, now: Time)
    | RemoveOp(id: SessionId, stop: StopInput)

  /** Session ids are random UUIDs; a request that would reuse one does not occur. */
  ghost function Step(p: Probe, op: ProbeOp): (p2: Probe)
    requires Invariant(p)
    ensures Invariant(p2)
  {
    match op
    case ServiceOp(i) => ServiceInvariant(p, i); Service(p, i)
    case RequestOp(id, target, rtt, ioOk, now) =>
      if id in p.sessions then p
      else RequestInvariant(p, id, target, rtt, ioOk, now); Request(p, id, target, rtt, ioOk, now)
    case RemoveOp(id, stop) => RemoveInvariant(p, id, stop); Remove(p, id, stop)
  }

  ghost function RunOf(p: Probe, ops: seq<ProbeOp>): (p2: Probe)
    requires Invariant(p)
    ensures Invariant(p2)
    decreases |ops|
  {
    if ops == [] then p else Step(RunOf(p, ops[..|ops| - 1]), ops[|ops| - 1])
  }

  /** A service call in service is one update of the scheduled session, on its own core and with the
      present debug session; all other sessions and cores are left alone. On a lost probe it leaves
      every session and every core alone. */
  lemma ServiceIsOneCall(p: Probe, i: ServiceInput, id: SessionId)
    requires Invariant(p) && id in p.sessions
    ensures Wired(p) && id in Service(p, i).sessions
    ensures var s2, l := Service(p, i).sessions[id], LocalOf(p, id);
            if p.active && HasScheduled(p) && id == p.schedule[p.nextIdx]
            then s2 == After(l.s, UpdateCall(l.c, l.hw, p.epoch, i.update))
            else s2 == l.s
  {
    hide Update, LooksDead, NoChannelShared, Bounded, HandlesFresh, AllSound, Covered;
  }

  lemma ServiceOnCores(p: Probe, i: ServiceInput, core: nat)
    requires Invariant(p) && core in p.cores
    ensures Wired(p) && Service(p, i).cores.Keys == p.cores.Keys
    ensures var p2 := Service(p, i);
            var here := p.active && HasScheduled(p) && p.sessions[p.schedule[p.nextIdx]].target.core == core;
            && (!here ==> p2.cores[core].hw == p.cores[core].hw)
            && (here ==>
                  p2.cores[core].hw == Update(LocalOf(p, p.schedule[p.nextIdx]), p.epoch, i.update).hw)
            && (p.active && !p2.active ==> p2.cores[core].c == ZERO)
            && (p2.active == p.active ==>
                  p2.cores[core].c == if here then Update(LocalOf(p, p.schedule[p.nextIdx]), p.epoch, i.update).c
                                      else p.cores[core].c)
  {
    hide Update, LooksDead, NoChannelShared, Bounded, HandlesFresh, AllSound, Covered;
    if p.active && HasScheduled(p) {
      UpdateMovesForward(LocalOf(p, p.schedule[p.nextIdx]), p.epoch, i.update);
    }
  }

  // ----- the way out of recovery

  /** A lost probe is back in service if and only if a setup is due and works; only then does it
      have a new debug session. A setup is tried if and only if one is due. */
  lemma RecoversIff(p: Probe, i: ServiceInput)
    requires Invariant(p) && !p.active
    ensures Wired(p)
    ensures var p2, due := Service(p, i), p.retry.Due(i.retryTime);
            && (p2.active <==> due && i.setupOk)
            && p2.epoch == p.epoch + (if due && i.setupOk then 1 else 0)
            && p2.history.setups == p.history.setups + (if due then [i.retryTime] else [])
            && p2.history.updates == p.history.updates
            && p2.sessions == p.sessions && p2.cores == p.cores && p2.schedule == p.schedule
            && p2.check == p.check && p2.gate == p.gate && p2.nextIdx == p.nextIdx
            && (due && p.retry.limit > 0 ==>
                  forall later :: p2.retry.Due(later) <==> later >= i.retryTime + p.retry.limit)
            && (!due ==> p2.retry == p.retry)
  {
    hide NoChannelShared, Bounded, HandlesFresh, AllSound, Covered;
  }

  /** Whether this operation is a setup that worked. */
  predicate SetsUp(p: Probe, op: ProbeOp) {
    op.ServiceOp? && !p.active && p.retry.Due(op.i.retryTime) && op.i.setupOk
  }

  /** How many setups worked on a run. */
  ghost function WorkingSetups(p: Probe, ops: seq<ProbeOp>): nat
    requires Invariant(p)
  {
    if ops == [] then 0
    else
      var first := ops[..|ops| - 1];
      WorkingSetups(p, first) + if SetsUp(RunOf(p, first), ops[|ops| - 1]) then 1 else 0
  }

  lemma StepSetsUp(p: Probe, op: ProbeOp)
    requires Invariant(p)
    ensures Step(p, op).epoch == p.epoch + if SetsUp(p, op) then 1 else 0
    ensures !p.active ==> (Step(p, op).active <==> SetsUp(p, op))
  {
    hide Invariant, Taken, Service, Detach;
    InvariantIsWired(p);
    match op
    case ServiceOp(i) =>
      if p.active {
        InServiceKeepsEpoch(p, i);
      } else {
        RecoversIff(p, i);
      }
    case RequestOp(_, _, _, _, _) =>
    case RemoveOp(id, stop) =>
      if id in p.sessions {
        DetachKeepsRest(p, id, stop);
      }
  }

  lemma InServiceKeepsEpoch(p: Probe, i: ServiceInput)
    requires Wired(p) && p.active
    ensures Service(p, i).epoch == p.epoch
  {
    hide Update, LooksDead;
  }

  /** On every run the number of the present debug session is the number of setups that worked: a
      probe in service always has the session of the latest of them. */
  lemma {:induction false} EpochCountsSetups(p: Probe, ops: seq<ProbeOp>)
    requires Invariant(p)
    ensures RunOf(p, ops).epoch == p.epoch + WorkingSetups(p, ops)
  {
    hide Invariant, Step;
    if ops != [] {
      EpochCountsSetups(p, ops[..|ops| - 1]);
      StepSetsUp(RunOf(p, ops[..|ops| - 1]), ops[|ops| - 1]);
    }
  }

  // ----- updates

  /** In service with something scheduled, a call counts one update, and takes one off the gate. */
  lemma ServiceCountsUpdate(p: Probe, i: ServiceInput)
    requires Invariant(p) && p.active
    ensures Wired(p)
    ensures var p2 := Service(p, i);
            var one := if p.sessions.Keys == {} then 0 else 1;
            && p2.history.updates == p.history.updates + one
            && (p2.active ==> p2.gate == if p.gate >= one then p.gate - one else 0)
            && (!p2.active ==> p2.gate == |p.sessions|)
            && p2.schedule == p.schedule
            && p2.nextIdx == (if !p2.active || p.nextIdx + 1 >= |p.schedule| then 0 else p.nextIdx + 1)
            && p2.history.checks == p.history.checks + (if p.check.Due(i.checkTime) then [i.checkTime] else [])
            && (p.check.Due(i.checkTime) && p.check.limit > 0 ==>
                  forall later :: p2.check.Due(later) <==> later >= i.checkTime + p.check.limit)
            && (!p.check.Due(i.checkTime) ==> p2.check == p.check)
            && p2.retry == p.retry && p2.epoch == p.epoch
            && p2.history.entries == p.history.entries +
                 (if p2.active then [] else [Entry(i.checkTime, |p.sessions|, p.history.updates + one)])
  {
    hide Update, LooksDead, NoChannelShared, Bounded, HandlesFresh, AllSound, Covered;
    SomethingIsScheduled(p);
    if HasScheduled(p) {
      UpdateMovesForward(LocalOf(p, p.schedule[p.nextIdx]), p.epoch, i.update);
      assert |Service(p, i).sessions.Keys| == |Service(p, i).sessions|;
      SameSize(UpdateScheduled(p, i.update).sessions, p.sessions);
    }
  }

  /** Every request for a free channel registers its core, with both counters at zero if the core is
      new, even if the request is then refused; a request for a taken channel changes nothing. */
  lemma RequestRegisters(
    p: Probe, id: SessionId, target: TargetConfig, rtt: RttConfig, ioOk: bool, now: Time, core: nat)
    ensures var p2 := Request(p, id, target, rtt, ioOk, now);
            if Taken(p, target, rtt) then p2 == p
            else
              && (core in p2.cores <==> core in p.cores || core == target.core)
              && (core in p.cores ==> p2.cores[core] == p.cores[core])
              && (core !in p.cores && core == target.core ==>
                    p2.cores[core].c == Counters(0, 0) && p2.cores[core].hw == AsFound(p.found, core))
              && (p.active && ioOk ==>
                    && p2.schedule == p.schedule + [id]
                    && p2.sessions == p.sessions[id := NewSession(id, target, rtt, now)])
              && (!(p.active && ioOk) ==> p2.schedule == p.schedule && p2.sessions == p.sessions)
  {
    hide Taken, AsFound;
  }

  lemma SomethingIsScheduled(p: Probe)
    requires Structured(p)
    ensures HasScheduled(p) <==> p.sessions.Keys != {}
  {
    hide NoChannelShared, Distinct;
    if p.schedule != [] {
      assert p.schedule[p.nextIdx] in Ids(p.schedule);
    } else {
      NoIds(p.schedule);
    }
  }

  lemma SameSize(a: map<SessionId, Session>, b: map<SessionId, Session>)
    requires a.Keys == b.Keys
    ensures |a| == |b|
  {
    assert |a| == |a.Keys| && |b| == |b.Keys|;
  }

  // ----- the counters tell first and last

  /** If nobody holds the catch of a core, the next session to raise it is told it is the first;
      if only one session holds it, that session's stop is told it is the last. */
  lemma FirstAndLastAreTold(p: Probe, core: nat)
    requires Invariant(p) && core in p.cores
    ensures |CatchHolders(p.sessions, core)| == 0 ==> p.cores[core].c.catches == 0
    ensures |CatchHolders(p.sessions, core)| <= 1 ==> IsLast(p.cores[core].c.catches)
    ensures |ClearHolders(p.sessions, core)| == 0 ==> p.cores[core].c.clear == 0
  {
    hide ClearHolders, CatchHolders;
    assert Bounded(p);
  }

  // ----- no catch is left behind when stops reach the core

  lemma OrphanedOnlyByFailedStop(l: Local, epoch: nat, i: UpdateInput)
    requires i.stop.coreOk && i.stop.disableOk && !l.hw.orphaned
    ensures !Update(l, epoch, i).hw.orphaned
  {
    hide UpdateInner, Stop, ShutDown;
    var o := UpdateInner(l, epoch, i);
    InnerLeavesNoCatch(l, epoch, i);
    if o.error.Some? {
      NotOrphanedByFailure(o.l, o.error.value, i);
    }
  }

  lemma InnerLeavesNoCatch(l: Local, epoch: nat, i: UpdateInput)
    requires i.stop.coreOk && i.stop.disableOk && !l.hw.orphaned
    ensures !UpdateInner(l, epoch, i).l.hw.orphaned
  {
    hide DoInit, DoRttAttach, DoRun, StopCommands, EnterRun;
    SetupLeavesNoCatch(l, i);
  }

  lemma SetupLeavesNoCatch(l: Local, i: UpdateInput)
    requires !l.hw.orphaned
    ensures !DoInit(l.s.target, l.s.rtt, l.c, l.hw, i.init).hw.orphaned
    ensures !DoRttAttach(l.s.target, l.s.rtt, l.c, l.hw, i.attach).hw.orphaned
  {
    hide InitPrologueError, InitEpilogueError, SetsBreakpoint, AttachPrologueError, AttachCommands;
  }

  lemma NotOrphanedByFailure(l: Local, error: Error, i: UpdateInput)
    requires i.stop.coreOk && i.stop.disableOk && !l.hw.orphaned
    ensures !HandleError(l, error, i).hw.orphaned
  {
    hide StopCommands;
  }

  lemma NotOrphanedByShutDown(l: Local, i: StopInput)
    requires i.coreOk && i.disableOk && !l.hw.orphaned
    ensures !ShutDown(l, i).hw.orphaned
  {
    hide StopCommands;
  }

  /** No catch was left behind, neither on a core in use nor on one that was only found. */
  ghost predicate NoOrphans(p: Probe) {
    && (forall core :: core in p.cores ==> !p.cores[core].hw.orphaned)
    && (forall core :: core !in p.cores ==> !AsFound(p.found, core).orphaned)
  }

  /** Every stop reaches the core and can switch the catch off; no holder is removed while the
      probe is lost. */
  ghost predicate Clean(p: Probe, op: ProbeOp) {
    match op
    case ServiceOp(i) => i.update.stop.coreOk && i.update.stop.disableOk
    case RequestOp(_, _, _, _, _) => true
    case RemoveOp(id, stop) =>
      if p.active then stop.coreOk && stop.disableOk
      else id in p.sessions ==> !HoldsCatch(p.sessions[id])
  }

  lemma ServiceNoOrphans(p: Probe, i: ServiceInput)
    requires Invariant(p) && NoOrphans(p) && i.update.stop.coreOk && i.update.stop.disableOk
    ensures Wired(p) && NoOrphans(Service(p, i))
  {
    hide Update, LooksDead, NoChannelShared, Bounded, HandlesFresh, AllSound, Covered;
    if p.active && HasScheduled(p) {
      OrphanedOnlyByFailedStop(LocalOf(p, p.schedule[p.nextIdx]), p.epoch, i.update);
    }
  }

  lemma RemoveNoOrphans(p: Probe, id: SessionId, stop: StopInput)
    requires Invariant(p) && NoOrphans(p) && Clean(p, RemoveOp(id, stop))
    ensures Wired(p) && NoOrphans(Remove(p, id, stop))
  {
    hide ShutDown, Unscheduled, IndexOf, NoChannelShared, Bounded, HandlesFresh, AllSound, Covered;
    if p.active && id in p.sessions {
      NotOrphanedByShutDown(LocalOf(p, id), stop);
    }
  }

  lemma StepNoOrphans(p: Probe, op: ProbeOp)
    requires Invariant(p) && NoOrphans(p) && Clean(p, op)
    ensures NoOrphans(Step(p, op))
  {
    hide Service, Remove, Taken, Invariant;
    match op
    case ServiceOp(i) => ServiceNoOrphans(p, i);
    case RequestOp(_, _, _, _, _) =>
    case RemoveOp(id, stop) => RemoveNoOrphans(p, id, stop);
  }

  /** On a run of clean operations, a catch that is on always has a holder. */
  lemma {:induction false} CleanRunLeavesNoCatch(p: Probe, ops: seq<ProbeOp>)
    requires Invariant(p) && NoOrphans(p)
    requires forall k :: 0 <= k < |ops| ==> Clean(RunOf(p, ops[..k]), ops[k])
    ensures NoOrphans(RunOf(p, ops))
    ensures forall core :: core in RunOf(p, ops).cores && RunOf(p, ops).cores[core].hw.catchOn ==>
              CatchHolders(RunOf(p, ops).sessions, core) != {}
  {
    hide Step, Clean, Structured, HandlesFresh, AllSound, Covered, ClearHolders, CatchHolders;
    if ops != [] {
      var first := ops[..|ops| - 1];
      forall k | 0 <= k < |first|
        ensures Clean(RunOf(p, first[..k]), first[k])
      {
        assert first[..k] == ops[..k];
      }
      CleanRunLeavesNoCatch(p, first);
      StepNoOrphans(RunOf(p, first), ops[|ops| - 1]);
    }
  }

  // ----- the health check

  /** In a reachable state the test reduces to: nobody runs, somebody lost the core. */
  lemma LooksDeadMeans(p: Probe)
    requires Invariant(p)
    ensures LooksDead(p) <==>
              && (forall id :: id in p.sessions ==> !IsRunning(p.sessions[id]))
              && (exists id :: id in p.sessions && IsStoppedByCoreAttach(p.sessions[id]))
  {
    hide GrammarHolds, FidelityHolds, CommandsHold, RunsHold, Structured, Bounded, HandlesFresh, Covered;
    forall id | id in p.sessions && IsStoppedByCoreAttach(p.sessions[id])
      ensures p.sessions[id].target.autoRecover && !IsShutdown(p.sessions[id])
    {
      assert Sound(p.sessions[id]);
    }
  }

  // ----- the recovery gate

  /** The gate is high enough for the schedule to reach every pending session first. */
  predicate GateSuffices(p: Probe) {
    Suffices(p.history.pending, p.history.resumedCount, p.nextIdx, p.gate)
  }

  lemma ResumedGateSuffices(p: Probe, now: Time)
    requires Invariant(p) && !p.active && p.retry.Due(now)
    ensures GateSuffices(RecoverProbe(p, now, true))
  {
  }

  predicate Suffices(pending: set<SessionId>, n: nat, idx: nat, gate: nat) {
    pending == {} || n - idx <= gate
  }

  lemma SufficesStep(pending: set<SessionId>, n: nat, schedule: seq<SessionId>, idx: nat, gate: nat)
    requires Ahead(pending, n, schedule, idx) && Distinct(schedule) && idx < |schedule| && gate > 0
    ensures var idx2 := if idx + 1 >= |schedule| then 0 else idx + 1;
            Suffices(pending - {schedule[idx]}, n, idx2, gate - 1) <==> Suffices(pending, n, idx, gate)
  {
    if pending != {} {
      var from: nat :| AheadFrom(pending, n, schedule, idx, from);
      AheadFromAfterUpdate(pending, n, schedule, idx, from);
    }
  }

  lemma UpdateKeepsGate(p: Probe, i: UpdateInput)
    requires Invariant(p) && p.active && p.gate > 0
    ensures Wired(p)
    ensures GateSuffices(Advance(UpdateScheduled(p, i))) <==> GateSuffices(p)
  {
    hide Update, NoChannelShared, Bounded, HandlesFresh, AllSound, Ahead, Distinct;
    EmptyIds(p.schedule);
    if HasScheduled(p) {
      SufficesStep(p.history.pending, p.history.resumedCount, p.schedule, p.nextIdx, p.gate);
    } else {
      NothingAhead(p.history.pending, p.history.resumedCount, p.schedule, p.nextIdx);
    }
  }

  lemma RequestKeepsGate(p: Probe, id: SessionId, target: TargetConfig, rtt: RttConfig, ioOk: bool, now: Time)
    ensures var p2 := Request(p, id, target, rtt, ioOk, now);
            && p2.gate == p.gate && p2.active == p.active
            && p2.nextIdx == p.nextIdx
            && p2.history.pending == p.history.pending && p2.history.resumedCount == p.history.resumedCount
            && (GateSuffices(p2) <==> GateSuffices(p))
  {
    hide Taken, NewSession;
  }

  lemma OpenGate(p: Probe)
    requires Invariant(p) && p.active && p.gate == 0
    ensures GateSuffices(p) <==> p.history.pending == {}
  {
    hide NoChannelShared, Bounded, HandlesFresh, AllSound, Structured;
  }

  /** The sessions updated by the service calls of a run. */
  ghost function UpdatedBy(p: Probe, ops: seq<ProbeOp>): set<SessionId>
    requires Invariant(p)
  {
    if ops == [] then {}
    else
      var before := RunOf(p, ops[..|ops| - 1]);
      UpdatedBy(p, ops[..|ops| - 1]) +
      if ops[|ops| - 1].ServiceOp? && before.active && HasScheduled(before)
      then {before.schedule[before.nextIdx]} else {}
  }

  predicate NoRemoval(ops: seq<ProbeOp>) {
    forall k :: 0 <= k < |ops| ==> !ops[k].RemoveOp?
  }

  /** All through the run the probe is in service and its gate is shut. */
  ghost predicate GateShut(p: Probe, ops: seq<ProbeOp>)
    requires Invariant(p)
  {
    forall k :: 0 <= k <= |ops| ==> RunOf(p, ops[..k]).active && RunOf(p, ops[..k]).gate > 0
  }

  /** What a service call does to the gate and to the pending sessions. */
  lemma ServiceAtGate(p: Probe, i: ServiceInput)
    requires Invariant(p) && p.active
    ensures Wired(p)
    ensures var p1 := Advance(UpdateScheduled(p, i.update));
            var p2 := Service(p, i);
            && p2.history.pending
               == p.history.pending - (if HasScheduled(p) then {p.schedule[p.nextIdx]} else {})
            && p2.history.pending == p1.history.pending
            && (p2.active && p2.gate > 0 ==> p1.gate > 0 && GateSuffices(p2) == GateSuffices(p1))
  {
    hide Update, LooksDead, NoChannelShared, Bounded, HandlesFresh, AllSound, Covered;
  }

  /** The sessions removed by a run. */
  function RemovedBy(ops: seq<ProbeOp>): set<SessionId> {
    if ops == [] then {}
    else
      RemovedBy(ops[..|ops| - 1]) +
      if ops[|ops| - 1].RemoveOp? then {ops[|ops| - 1].id} else {}
  }

  lemma PendingIsThere(p: Probe)
    requires Invariant(p) && p.active
    ensures p.history.pending <= p.sessions.Keys
  {
    hide Bounded, HandlesFresh, AllSound, NoChannelShared;
    var pending, n := p.history.pending, p.history.resumedCount;
    if pending != {} {
      var from: nat :| AheadFrom(pending, n, p.schedule, p.nextIdx, from);
      assert Ids(p.schedule[from..n]) <= Ids(p.schedule);
    }
  }

  lemma RemovedFromPending(p: Probe, id: SessionId, stop: StopInput)
    requires Invariant(p) && p.active
    ensures Wired(p) && Remove(p, id, stop).history.pending == p.history.pending - {id}
  {
    hide Detach, Unscheduled, IndexOf, Bounded, HandlesFresh, AllSound, NoChannelShared, Ahead;
    PendingIsThere(p);
    if id in p.sessions {
      DetachKeepsRest(p, id, stop);
    }
  }

  lemma ShorterIsShut(p: Probe, ops: seq<ProbeOp>)
    requires Invariant(p) && ops != [] && GateShut(p, ops)
    ensures var first := ops[..|ops| - 1];
            && GateShut(p, first)
            && RunOf(p, first).active && RunOf(p, first).gate > 0
            && RunOf(p, ops).active && RunOf(p, ops).gate > 0
  {
    hide Invariant, RunOf;
    var first := ops[..|ops| - 1];
    forall k | 0 <= k <= |first|
      ensures RunOf(p, first[..k]).active && RunOf(p, first[..k]).gate > 0
    {
      assert first[..k] == ops[..k];
    }
    assert first[..|first|] == first && ops[..|ops|] == ops;
  }

  /** While the gate is shut, the pending sessions are those of the start that have been neither
      updated nor removed. */
  lemma {:induction false} ShutRun(p: Probe, ops: seq<ProbeOp>)
    requires Invariant(p) && GateShut(p, ops)
    ensures RunOf(p, ops).history.pending == p.history.pending - UpdatedBy(p, ops) - RemovedBy(ops)
  {
    hide Invariant, Request, Service, Remove, HasScheduled, GateShut;
    if ops != [] {
      var first, last := ops[..|ops| - 1], ops[|ops| - 1];
      ShorterIsShut(p, ops);
      ShutRun(p, first);
      var before := RunOf(p, first);
      match last
      case ServiceOp(i) => ServiceAtGate(before, i);
      case RequestOp(id, target, rtt, ioOk, now) => RequestKeepsGate(before, id, target, rtt, ioOk, now);
      case RemoveOp(id, stop) => RemovedFromPending(before, id, stop);
    }
  }

  /** Without removals the gate stays as sufficient as it was. */
  lemma {:induction false} SufficesAlong(p: Probe, ops: seq<ProbeOp>, k: nat)
    requires Invariant(p) && GateShut(p, ops) && k <= |ops| && NoRemoval(ops[k..])
    ensures GateSuffices(RunOf(p, ops)) <==> GateSuffices(RunOf(p, ops[..k]))
  {
    hide Invariant, Request, Service, GateSuffices, HasScheduled, GateShut;
    if k == |ops| {
      assert ops[..k] == ops;
    } else {
      var first, last := ops[..|ops| - 1], ops[|ops| - 1];
      ShorterIsShut(p, ops);
      assert first[..k] == ops[..k];
      assert forall j :: 0 <= j < |first[k..]| ==> first[k..][j] == ops[k..][j];
      assert ops[k..][|ops| - 1 - k] == last;
      SufficesAlong(p, first, k);
      var before := RunOf(p, first);
      match last
      case ServiceOp(i) =>
        ServiceAtGate(before, i);
        UpdateKeepsGate(before, i.update);
      case RequestOp(id, target, rtt, ioOk, now) =>
        RequestKeepsGate(before, id, target, rtt, ioOk, now);
    }
  }

  /** Follow a run from any point, through requests, service calls and removals, until a service
      call opens the gate. Then every session pending at the start and not removed since has been
      updated, if and only if the gate sufficed after the last removal (or at any later point, or
      at the start if nothing was removed). */
  lemma GateCoverage(p: Probe, ops: seq<ProbeOp>, i: ServiceInput, k: nat)
    requires Invariant(p) && GateShut(p, ops) && k <= |ops| && NoRemoval(ops[k..])
    requires UpdateScheduled(RunOf(p, ops), i.update).gate == 0
    ensures p.history.pending - RemovedBy(ops) <= UpdatedBy(p, ops + [ServiceOp(i)])
            <==> GateSuffices(RunOf(p, ops[..k]))
  {
    hide Service, Update, UpdateScheduled, Invariant, GateSuffices, HasScheduled, RunOf;
    var before := RunOf(p, ops);
    assert ops[..|ops|] == ops;
    var all := ops + [ServiceOp(i)];
    assert all[..|all| - 1] == ops;
    ShutRun(p, ops);
    SufficesAlong(p, ops, k);
    ServiceAtGate(before, i);
    UpdateKeepsGate(before, i.update);
    UpdateScheduledInvariant(before, i.update);
    UpdateScheduledStaysActive(before, i.update);
    OpenGate(Advance(UpdateScheduled(before, i.update)));
  }

  /** From a recovery on: when the gate opens again, every session that was scheduled when
      servicing resumed and that was not removed has been updated, if and only if the gate
      sufficed after the last removal. */
  lemma RecoveryCoverageIff(lost: Probe, r: ServiceInput, ops: seq<ProbeOp>, i: ServiceInput, k: nat)
    requires Invariant(lost) && !lost.active && Step(lost, ServiceOp(r)).active
    requires k <= |ops| && NoRemoval(ops[k..]) && GateShut(Step(lost, ServiceOp(r)), ops)
    requires UpdateScheduled(RunOf(Step(lost, ServiceOp(r)), ops), i.update).gate == 0
    ensures lost.sessions.Keys - RemovedBy(ops) <= UpdatedBy(Step(lost, ServiceOp(r)), ops + [ServiceOp(i)])
            <==> GateSuffices(RunOf(Step(lost, ServiceOp(r)), ops[..k]))
  {
    hide UpdatedBy, RunOf, GateShut, GateSuffices, UpdateScheduled, Bounded, HandlesFresh, AllSound, NoChannelShared;
    GateCoverage(Step(lost, ServiceOp(r)), ops, i, k);
  }

  /** After a recovery the gate does suffice: when it opens again without a removal in between,
      every session that was scheduled when servicing resumed has been updated. */
  lemma RecoveryCoverage(lost: Probe, r: ServiceInput, ops: seq<ProbeOp>, i: ServiceInput)
    requires Invariant(lost) && !lost.active && Step(lost, ServiceOp(r)).active
    requires NoRemoval(ops) && GateShut(Step(lost, ServiceOp(r)), ops)
    requires UpdateScheduled(RunOf(Step(lost, ServiceOp(r)), ops), i.update).gate == 0
    ensures lost.sessions.Keys <= UpdatedBy(Step(lost, ServiceOp(r)), ops + [ServiceOp(i)])
  {
    hide UpdatedBy, GateShut, GateSuffices, UpdateScheduled, Invariant, Step;
    ResumedSuffices(lost, r);
    NothingRemoved(ops);
    assert ops[0..] == ops && ops[..0] == [];
    RecoveryCoverageIff(lost, r, ops, i, 0);
  }

  lemma ResumedSuffices(lost: Probe, r: ServiceInput)
    requires Invariant(lost) && !lost.active && Step(lost, ServiceOp(r)).active
    ensures GateSuffices(Step(lost, ServiceOp(r)))
  {
    hide Bounded, HandlesFresh, AllSound, NoChannelShared, GateSuffices;
    ResumedGateSuffices(lost, r.retryTime);
  }

  lemma NothingRemoved(ops: seq<ProbeOp>)
    requires NoRemoval(ops)
    ensures RemovedBy(ops) == {}
  {
    if ops != [] {
      assert forall j :: 0 <= j < |ops| - 1 ==> ops[..|ops| - 1][j] == ops[j];
      NothingRemoved(ops[..|ops| - 1]);
    }
  }

  /** A removal restarts the schedule without touching the gate. Afterwards the gate suffices
      if and only if nothing is pending or the sessions left from the resumption number at most
      what the gate still counts. */
  lemma RemovalAtGate(p: Probe, id: SessionId, stop: StopInput)
    requires Invariant(p) && p.active && id in p.sessions
    ensures Wired(p)
    ensures var p2 := Remove(p, id, stop);
            && p2.gate == p.gate
            && p2.history.pending == p.history.pending - {id}
            && (GateSuffices(p2) <==> p2.history.pending == {} || p2.history.resumedCount <= p.gate)
  {
    hide Detach, Unscheduled, IndexOf, Bounded, HandlesFresh, AllSound, NoChannelShared, Ahead;
    DetachKeepsRest(p, id, stop);
  }

  /** The proviso is needed: with three sessions, servicing two of them and then removing the
      first opens the gate at the next update while the third has not been updated. */
  lemma RemovalCanSkipASession(p: Probe, a: SessionId, b: SessionId, c: SessionId, stop: StopInput, i: UpdateInput)
    requires Invariant(p) && p.active
    requires p.schedule == [a, b, c] && p.nextIdx == 2 && p.gate == 1
    requires p.history.pending == {c} && p.history.resumedCount == 3
    ensures Wired(p) && Wired(Remove(p, a, stop))
    ensures var p2 := Remove(p, a, stop);
            && !GateSuffices(p2)
            && UpdateScheduled(p2, i).gate == 0
            && c in UpdateScheduled(p2, i).sessions && c in UpdateScheduled(p2, i).history.pending
  {
    hide Remove, UpdateScheduled, Bounded, HandlesFresh, AllSound, NoChannelShared, Ahead;
    assert p.schedule[0] != p.schedule[2] && p.schedule[1] != p.schedule[2];
    assert a in Ids(p.schedule) && c in Ids(p.schedule);
    RemoveInvariant(p, a, stop);
    RemovedThree(p, a, b, c, stop);
    var p2 := Remove(p, a, stop);
    assert c in p2.history.pending;
    assert b in Ids(p2.schedule) && p2.schedule[0] == b;
    OneUpdate(p2, i);
  }

  lemma OneUpdate(p: Probe, i: UpdateInput)
    requires Wired(p) && HasScheduled(p) && p.gate > 0
    ensures var p2 := UpdateScheduled(p, i);
            && p2.gate == p.gate - 1 && p2.sessions.Keys == p.sessions.Keys
            && p2.history.pending == p.history.pending - {p.schedule[p.nextIdx]}
  {
    hide Update;
    UpdateMovesForward(LocalOf(p, p.schedule[p.nextIdx]), p.epoch, i);
  }

  lemma RemovedThree(p: Probe, a: SessionId, b: SessionId, c: SessionId, stop: StopInput)
    requires Wired(p) && a in p.sessions && p.schedule == [a, b, c]
    ensures var p2 := Remove(p, a, stop);
            && p2.schedule == [b, c] && p2.nextIdx == 0 && p2.gate == p.gate && p2.active == p.active
            && p2.sessions == p.sessions - {a}
            && p2.history.pending == p.history.pending - {a}
            && (p.history.resumedCount > 0 ==> p2.history.resumedCount == p.history.resumedCount - 1)
  {
    hide Released;
    assert IndexOf(p.schedule, a) == 0;
  }
}
