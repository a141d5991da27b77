/** Exactly when the shared counters equal the number of holders: what each operation of a
    probe must not do, and that nothing else loses exactness. */
module ProbeExact {
  import opened Clock
  import opened SharedStates
  import opened SessionModel
  import opened SessionTiming
  import opened SessionSharing
  import opened SessionDecisions
  import opened ProbeModel
  import opened ProbeProofs
  import opened ProbeRuns

  /** On every core both counters are the number of holders. */
  ghost predicate AllCounted(p: Probe) {
    forall core :: core in p.cores ==>
      p.cores[core].c.clear == |ClearHolders(p.sessions, core)|
      && p.cores[core].c.catches == |CatchHolders(p.sessions, core)|
  }

  /** On every core the catch is on while somebody holds it. */
  ghost predicate AllKept(p: Probe) {
    forall core :: core in p.cores && CatchHolders(p.sessions, core) != {} ==> p.cores[core].hw.catchOn
  }

  ghost predicate NoHolders(p: Probe) {
    forall core :: core in p.cores ==>
      ClearHolders(p.sessions, core) == {} && CatchHolders(p.sessions, core) == {}
  }

  ghost function OtherClear(p: Probe, id: SessionId): nat
    requires id in p.sessions
  {
    |ClearHolders(p.sessions, p.sessions[id].target.core) - {id}|
  }

  ghost function OtherCatch(p: Probe, id: SessionId): nat
    requires id in p.sessions
  {
    |CatchHolders(p.sessions, p.sessions[id].target.core) - {id}|
  }

  lemma CatchHoldersAreClearHolders(p: Probe, id: SessionId)
    requires id in p.sessions
    ensures OtherCatch(p, id) <= OtherClear(p, id) <= |p.sessions|
  {
    var core := p.sessions[id].target.core;
    Subset(CatchHolders(p.sessions, core) - {id}, ClearHolders(p.sessions, core) - {id});
    Subset(ClearHolders(p.sessions, core) - {id}, p.sessions.Keys);
    assert |p.sessions| == |p.sessions.Keys|;
  }

  lemma Subset(a: set<SessionId>, b: set<SessionId>)
    requires a <= b
    ensures |a| <= |b|
  {
    assert b == a + (b - a);
  }

  lemma CountedAt(p: Probe, id: SessionId)
    requires Wired(p) && AllCounted(p) && id in p.sessions
    ensures Counted(LocalOf(p, id), OtherClear(p, id), OtherCatch(p, id))
    ensures AllKept(p) ==> CatchKept(LocalOf(p, id), OtherCatch(p, id))
  {
    var core := p.sessions[id].target.core;
    WithoutOne(ClearHolders(p.sessions, core), id);
    WithoutOne(CatchHolders(p.sessions, core), id);
    if OtherCatch(p, id) > 0 || HoldsCatch(p.sessions[id]) {
      assert CatchHolders(p.sessions, core) != {};
    }
  }

  // ----- changing or dropping one session

  /** All cores but one look the same, so exactness is decided on that one. */
  lemma OneCellCounted(p: Probe, p2: Probe, here: nat)
    requires AllCounted(p) && here in p.cores && p2.cores.Keys == p.cores.Keys
    requires forall core :: core in p.cores && core != here ==>
               && p2.cores[core] == p.cores[core]
               && ClearHolders(p2.sessions, core) == ClearHolders(p.sessions, core)
               && CatchHolders(p2.sessions, core) == CatchHolders(p.sessions, core)
    ensures AllCounted(p2) <==>
              && p2.cores[here].c.clear == |ClearHolders(p2.sessions, here)|
              && p2.cores[here].c.catches == |CatchHolders(p2.sessions, here)|
    ensures AllKept(p) && (CatchHolders(p2.sessions, here) != {} ==> p2.cores[here].hw.catchOn) ==> AllKept(p2)
  {
    hide ClearHolders, CatchHolders;
  }

  lemma WithLocalCountedIff(p: Probe, id: SessionId, l: Local)
    requires Wired(p) && AllCounted(p) && id in p.sessions && l.s.target == p.sessions[id].target
    ensures AllCounted(WithLocal(p, id, l)) <==> Counted(l, OtherClear(p, id), OtherCatch(p, id))
    ensures AllKept(p) && CatchKept(l, OtherCatch(p, id)) ==> AllKept(WithLocal(p, id, l))
  {
    var p2 := WithLocal(p, id, l);
    var here := l.s.target.core;
    forall core | core in p.cores && core != here
      ensures ClearHolders(p2.sessions, core) == ClearHolders(p.sessions, core)
      ensures CatchHolders(p2.sessions, core) == CatchHolders(p.sessions, core)
    {
      HoldersElsewhere(p.sessions, id, l.s, core);
    }
    OneCellCounted(p, p2, here);
    HoldersHere(p.sessions, id, l.s);
    CountsOf(p2.sessions, id);
  }

  lemma CountsOf(sessions: map<SessionId, Session>, id: SessionId)
    requires id in sessions
    ensures var core := sessions[id].target.core;
            && |ClearHolders(sessions, core)| == |ClearHolders(sessions, core) - {id}| + Bit(HoldsClear(sessions[id]))
            && |CatchHolders(sessions, core)| == |CatchHolders(sessions, core) - {id}| + Bit(HoldsCatch(sessions[id]))
  {
    var core := sessions[id].target.core;
    WithoutOne(ClearHolders(sessions, core), id);
    WithoutOne(CatchHolders(sessions, core), id);
  }

  lemma DetachCountedIff(p: Probe, id: SessionId, i: StopInput)
    requires Wired(p) && AllCounted(p) && id in p.sessions
    ensures var l := Released(LocalOf(p, id), p.active, i);
            && (AllCounted(Detach(p, id, i)) <==>
                  l.c.clear == OtherClear(p, id) && l.c.catches == OtherCatch(p, id))
            && (AllKept(p) && (OtherCatch(p, id) > 0 ==> l.hw.catchOn) ==> AllKept(Detach(p, id, i)))
  {
    hide Released;
    var l := Released(LocalOf(p, id), p.active, i);
    ReleasedKeepsTarget(LocalOf(p, id), p.active, i);
    var p2 := Detach(p, id, i);
    var here := l.s.target.core;
    forall core | core in p.cores && core != here
      ensures ClearHolders(p2.sessions, core) == ClearHolders(p.sessions, core)
      ensures CatchHolders(p2.sessions, core) == CatchHolders(p.sessions, core)
    {
      HoldersElsewhere(p.sessions, id, l.s, core);
    }
    OneCellCounted(p, p2, here);
    HoldersHere(p.sessions, id, l.s);
  }

  // ----- each operation

  /** The scheduled session fails before it raised a counter that its siblings hold. */
  ghost predicate ScheduledRobs(p: Probe, i: UpdateInput)
    requires Wired(p)
  {
    HasScheduled(p) &&
    var id := p.schedule[p.nextIdx];
    FailsUncounted(LocalOf(p, id), i, OtherClear(p, id), OtherCatch(p, id))
  }

  lemma UpdateCountedIff(p: Probe, i: UpdateInput)
    requires Wired(p) && AllCounted(p) && |p.sessions| < USIZE_RANGE - 1
    ensures var p2 := Advance(UpdateScheduled(p, i));
            && (AllCounted(p2) <==> !ScheduledRobs(p, i))
            && (AllKept(p) && !ScheduledRobs(p, i) ==> AllKept(p2))
  {
    hide Update, Counted, CatchKept, UpdateRobs, FailsUncounted, OtherClear, OtherCatch, ClearHolders, CatchHolders;
    if HasScheduled(p) {
      var id := p.schedule[p.nextIdx];
      var l := LocalOf(p, id);
      CountedAt(p, id);
      CatchHoldersAreClearHolders(p, id);
      UpdateExactIff(l, p.epoch, i, OtherClear(p, id), OtherCatch(p, id));
      ExactnessIsLostIff(l, p.epoch, i, OtherClear(p, id), OtherCatch(p, id));
      UpdateMovesForward(l, p.epoch, i);
      WithLocalCountedIff(p, id, Update(l, p.epoch, i));
    }
  }

  lemma EnterCountedIff(p: Probe, now: Time)
    ensures AllCounted(EnterRecovery(p, now)) <==> NoHolders(p)
    ensures NoHolders(p) ==> AllKept(EnterRecovery(p, now))
  {
    hide ClearHolders, CatchHolders;
    var p2 := EnterRecovery(p, now);
    if AllCounted(p2) {
      forall core | core in p.cores
        ensures ClearHolders(p.sessions, core) == {} && CatchHolders(p.sessions, core) == {}
      {
        assert core in p2.cores;
      }
    }
  }

  ghost predicate RemovalRobs(p: Probe, id: SessionId)
    requires id in p.sessions
  {
    var s := p.sessions[id];
    if p.active then ShutDownRobs(s, OtherClear(p, id), OtherCatch(p, id))
    else HoldsClear(s) || HoldsCatch(s)
  }

  lemma RemoveCountedIff(p: Probe, id: SessionId, i: StopInput)
    requires Wired(p) && AllCounted(p) && id in p.sessions
    ensures AllCounted(Remove(p, id, i)) <==> !RemovalRobs(p, id)
    ensures AllKept(p) && !RemovalRobs(p, id) ==> AllKept(Remove(p, id, i))
  {
    hide ShutDown, OtherClear, OtherCatch, ClearHolders, CatchHolders, Detach, Unscheduled, IndexOf;
    CountedAt(p, id);
    DetachCountedIff(p, id, i);
    if p.active {
      ShutDownExactIff(LocalOf(p, id), i, OtherClear(p, id), OtherCatch(p, id));
      ShutDownEnds(LocalOf(p, id), i);
    }
  }

  /** While the counters are exact, the breakpoint of an attached session survives every update
      of a sibling that does not use the same address. */
  lemma AttachedSessionsKeepBreakpoints(p: Probe, i: UpdateInput, other: SessionId, address: nat)
    requires Wired(p) && AllCounted(p) && HasScheduled(p) && p.schedule[p.nextIdx] != other
    requires other in p.sessions && HoldsClear(p.sessions[other])
    requires address in p.cores[p.sessions[other].target.core].hw.breakpoints
    requires p.sessions[p.schedule[p.nextIdx]].rtt.stopOnBreakpoint != Some(address)
    ensures var core := p.sessions[other].target.core;
            && core in UpdateScheduled(p, i).cores
            && address in UpdateScheduled(p, i).cores[core].hw.breakpoints
  {
    hide Update;
    var id := p.schedule[p.nextIdx];
    var l := LocalOf(p, id);
    UpdateMovesForward(l, p.epoch, i);
    var core := l.s.target.core;
    if p.sessions[other].target.core == core {
      assert other in ClearHolders(p.sessions, core);
      BreakpointsOfOthersSurvive(l, p.epoch, i, address);
    }
  }

  // ----- when a service call enters recovery

  predicate IsScheduled(p: Probe, id: SessionId) {
    HasScheduled(p) && id == p.schedule[p.nextIdx]
  }

  /** No session but the scheduled one runs. */
  predicate OthersIdle(p: Probe) {
    forall id :: id in p.sessions && !IsScheduled(p, id) ==> !IsRunning(p.sessions[id])
  }

  ghost predicate OtherIsLost(p: Probe) {
    exists id :: id in p.sessions && !IsScheduled(p, id) && IsStoppedByCoreAttach(p.sessions[id])
  }

  ghost predicate OtherIsAttached(p: Probe) {
    exists id :: id in p.sessions && !IsScheduled(p, id) && HoldsClear(p.sessions[id])
  }

  /** The guard of recovery, before the call: the check is due, the gate waits for at most this
      update, nobody runs or will be left running, and somebody is or will be left lost. */
  ghost predicate EntersRecovery(p: Probe, i: ServiceInput)
    requires Wired(p)
  {
    && p.active && p.check.Due(i.checkTime)
    && p.gate <= (if HasScheduled(p) then 1 else 0)
    && OthersIdle(p)
    && (HasScheduled(p) ==> !LeftRunning(LocalOf(p, p.schedule[p.nextIdx]), i.update))
    && (OtherIsLost(p) || (HasScheduled(p) && LeftLost(LocalOf(p, p.schedule[p.nextIdx]), i.update)))
  }

  /** Somebody else is attached, or the scheduled session will be left so. */
  ghost predicate HoldersRemain(p: Probe, i: UpdateInput)
    requires Wired(p)
  {
    OtherIsAttached(p) || (HasScheduled(p) && LeftAttached(LocalOf(p, p.schedule[p.nextIdx]), i))
  }

  /** The sessions after the update: the scheduled one has been updated, the others are as before. */
  lemma SessionsAfter(p: Probe, i: UpdateInput)
    requires Wired(p)
    ensures var p1 := Advance(UpdateScheduled(p, i));
            && p1.sessions.Keys == p.sessions.Keys
            && (forall id :: id in p.sessions && !IsScheduled(p, id) ==> p1.sessions[id] == p.sessions[id])
            && (HasScheduled(p) ==>
                  var id := p.schedule[p.nextIdx];
                  p1.sessions[id] == Update(LocalOf(p, id), p.epoch, i).s)
            && p1.active == p.active && p1.check == p.check
            && p1.gate == (if HasScheduled(p) && p.gate > 0 then p.gate - 1 else p.gate)
  {
    hide Update;
  }

  lemma EntersRecoveryIff(p: Probe, i: ServiceInput)
    requires Invariant(p) && p.active
    ensures Wired(p)
    ensures !Service(p, i).active <==> EntersRecovery(p, i)
  {
    hide Invariant, Update, UpdateScheduled, LooksDead, LeftRunning, LeftLost, LocalOf;
    InvariantIsWired(p);
    var p1 := Advance(UpdateScheduled(p, i.update));
    UpdateScheduledInvariant(p, i.update);
    SessionsAfter(p, i.update);
    LooksDeadMeans(p1);
    if HasScheduled(p) {
      var id := p.schedule[p.nextIdx];
      LeftIff(LocalOf(p, id), p.epoch, i.update);
      assert id in p1.sessions;
    }
    SomebodyLost(p, p1);
  }

  /** Being lost splits into the scheduled session and the others. */
  lemma SomebodyLost(p: Probe, p1: Probe)
    requires p1.sessions.Keys == p.sessions.Keys
    requires forall id :: id in p.sessions && !IsScheduled(p, id) ==> p1.sessions[id] == p.sessions[id]
    ensures (exists id :: id in p1.sessions && IsStoppedByCoreAttach(p1.sessions[id])) <==>
              || OtherIsLost(p)
              || (HasScheduled(p) && IsStoppedByCoreAttach(p1.sessions[p.schedule[p.nextIdx]]))
  {
    if OtherIsLost(p) {
      var id :| id in p.sessions && !IsScheduled(p, id) && IsStoppedByCoreAttach(p.sessions[id]);
      assert id in p1.sessions && IsStoppedByCoreAttach(p1.sessions[id]);
    }
    if HasScheduled(p) && IsStoppedByCoreAttach(p1.sessions[p.schedule[p.nextIdx]]) {
      assert p.schedule[p.nextIdx] in p1.sessions;
    }
  }

  /** Once nobody runs, holders are the sessions that are attached. */
  lemma NoHoldersIff(p: Probe, i: ServiceInput)
    requires Wired(p) && EntersRecovery(p, i) && Wired(Advance(UpdateScheduled(p, i.update)))
    ensures NoHolders(Advance(UpdateScheduled(p, i.update))) <==> !HoldersRemain(p, i.update)
  {
    hide Update, UpdateScheduled, LeftRunning, LeftLost, LeftAttached, LocalOf, NoHolders;
    var p1 := Advance(UpdateScheduled(p, i.update));
    SessionsAfter(p, i.update);
    if HasScheduled(p) {
      LeftIff(LocalOf(p, p.schedule[p.nextIdx]), p.epoch, i.update);
      assert p.schedule[p.nextIdx] in p1.sessions;
    }
    NoHoldersMeans(p1);
    if OtherIsAttached(p) {
      var id :| id in p.sessions && !IsScheduled(p, id) && HoldsClear(p.sessions[id]);
      assert id in p1.sessions && HoldsClear(p1.sessions[id]);
    }
  }

  lemma NoHoldersMeans(p: Probe)
    requires Wired(p)
    ensures NoHolders(p) <==> forall id :: id in p.sessions ==> !HoldsClear(p.sessions[id])
  {
    if NoHolders(p) {
      forall id | id in p.sessions
        ensures !HoldsClear(p.sessions[id])
      {
        assert id !in ClearHolders(p.sessions, p.sessions[id].target.core);
      }
    }
  }

  // ----- whole runs

  /** What an operation must not do for exactness to survive it: take a count from others, or
      enter recovery while somebody holds one. */
  ghost predicate Fair(p: Probe, op: ProbeOp)
    requires Invariant(p)
  {
    match op
    case ServiceOp(i) =>
      InvariantIsWired(p);
      if !p.active then true
      else if EntersRecovery(p, i) then !HoldersRemain(p, i.update)
      else !ScheduledRobs(p, i.update)
    case RequestOp(id, target, rtt, ioOk, now) => true
    case RemoveOp(id, stop) => id in p.sessions ==> !RemovalRobs(p, id)
  }

  lemma SameCountsAlike(p: Probe, p2: Probe)
    requires p2.cores == p.cores && p2.sessions == p.sessions
    ensures AllCounted(p2) == AllCounted(p) && AllKept(p2) == AllKept(p) && NoHolders(p2) == NoHolders(p)
  {
  }

  lemma ServiceCountedIff(p: Probe, i: ServiceInput)
    requires Invariant(p) && AllCounted(p) && |p.sessions| < USIZE_RANGE - 1
    ensures Wired(p)
    ensures AllCounted(Service(p, i)) <==> Fair(p, ServiceOp(i))
    ensures AllKept(p) && Fair(p, ServiceOp(i)) ==> AllKept(Service(p, i))
  {
    hide Invariant, UpdateScheduled, AllCounted, AllKept, NoHolders, LooksDead;
    hide ScheduledRobs, EntersRecovery, HoldersRemain;
    InvariantIsWired(p);
    if p.active {
      EntersRecoveryIff(p, i);
      UpdateScheduledInvariant(p, i.update);
      InvariantIsWired(Advance(UpdateScheduled(p, i.update)));
      if EntersRecovery(p, i) {
        NoHoldersIff(p, i);
      }
      UpdateCountedIff(p, i.update);
      UpdateScheduledStaysActive(p, i.update);
      var p1 := Advance(UpdateScheduled(p, i.update));
      var checked := HealthChecked(p1, i.checkTime);
      SameCountsAlike(p1, checked);
      EnterCountedIff(checked, i.checkTime);
    } else {
      SameCountsAlike(p, Service(p, i));
    }
  }

  lemma RequestCounted(p: Probe, id: SessionId, target: TargetConfig, rtt: RttConfig, ioOk: bool, now: Time)
    requires Wired(p) && AllCounted(p) && id !in p.sessions
    ensures var p2 := Request(p, id, target, rtt, ioOk, now);
            AllCounted(p2) && (AllKept(p) ==> AllKept(p2))
  {
    hide ClearHolders, CatchHolders;
    var p1 := Register(p, target.core);
    if target.core !in p.cores {
      NobodyHere(p, target.core);
    }
    var s := NewSession(id, target, rtt, now);
    forall core | core in p1.cores
      ensures ClearHolders(p1.sessions[s.id := s], core) == ClearHolders(p1.sessions, core)
      ensures CatchHolders(p1.sessions[s.id := s], core) == CatchHolders(p1.sessions, core)
    {
      HoldersWithIdle(p1.sessions, s, core);
    }
  }

  lemma NobodyHere(p: Probe, core: nat)
    requires Wired(p) && core !in p.cores
    ensures ClearHolders(p.sessions, core) == {} && CatchHolders(p.sessions, core) == {}
  {
  }

  /** One operation leaves exact counters exact if and only if it is fair. */
  lemma StepExactIff(p: Probe, op: ProbeOp)
    requires Invariant(p) && AllCounted(p) && |p.sessions| < USIZE_RANGE - 1
    ensures AllCounted(Step(p, op)) <==> Fair(p, op)
    ensures AllKept(p) && Fair(p, op) ==> AllKept(Step(p, op))
  {
    hide Invariant, Service, Request, Remove, AllCounted, AllKept, RemovalRobs;
    InvariantIsWired(p);
    match op
    case ServiceOp(i) => ServiceCountedIff(p, i);
    case RequestOp(id, target, rtt, ioOk, now) =>
      if id !in p.sessions {
        RequestCounted(p, id, target, rtt, ioOk, now);
      }
    case RemoveOp(id, stop) =>
      if id in p.sessions {
        RemoveCountedIff(p, id, stop);
      } else {
        RemoveNobody(p, id, stop);
      }
  }

  lemma RemoveNobody(p: Probe, id: SessionId, stop: StopInput)
    requires Wired(p) && id !in p.sessions
    ensures Remove(p, id, stop) == p
  {
  }

  /** On a run of fair operations the counters are exact at every point, and every catch that
      is held is on. */
  lemma {:induction false} FairRunIsExact(p: Probe, ops: seq<ProbeOp>)
    requires Invariant(p) && AllCounted(p) && AllKept(p)
    requires forall k :: 0 <= k < |ops| ==>
               Fair(RunOf(p, ops[..k]), ops[k]) && |RunOf(p, ops[..k]).sessions| < USIZE_RANGE - 1
    ensures AllCounted(RunOf(p, ops)) && AllKept(RunOf(p, ops))
  {
    hide Invariant, Step, AllCounted, AllKept, Fair;
    if ops != [] {
      var first := ops[..|ops| - 1];
      forall k | 0 <= k < |first|
        ensures Fair(RunOf(p, first[..k]), first[k]) && |RunOf(p, first[..k]).sessions| < USIZE_RANGE - 1
      {
        assert first[..k] == ops[..k];
      }
      FairRunIsExact(p, first);
      StepExactIff(RunOf(p, first), ops[|ops| - 1]);
    }
  }

  ghost predicate ExactThroughout(p: Probe, ops: seq<ProbeOp>)
    requires Invariant(p)
  {
    forall k :: 0 <= k <= |ops| ==> AllCounted(RunOf(p, ops[..k]))
  }

  ghost predicate FairThroughout(p: Probe, ops: seq<ProbeOp>)
    requires Invariant(p)
  {
    forall k :: 0 <= k < |ops| ==> Fair(RunOf(p, ops[..k]), ops[k])
  }

  /** There are never so many sessions that a counter could wrap. */
  ghost predicate NeverWraps(p: Probe, ops: seq<ProbeOp>)
    requires Invariant(p)
  {
    forall k :: 0 <= k < |ops| ==> |RunOf(p, ops[..k]).sessions| < USIZE_RANGE - 1
  }

  /** All of these split into the run without its last operation and that operation. */
  lemma ThroughoutSplits(p: Probe, ops: seq<ProbeOp>)
    requires Invariant(p) && ops != []
    ensures var first := ops[..|ops| - 1];
            && (ExactThroughout(p, ops) <==> ExactThroughout(p, first) && AllCounted(RunOf(p, ops)))
            && (ExactThroughout(p, first) ==> AllCounted(RunOf(p, first)))
            && (FairThroughout(p, ops) <==> FairThroughout(p, first) && Fair(RunOf(p, first), ops[|ops| - 1]))
            && (NeverWraps(p, ops) ==> NeverWraps(p, first) && |RunOf(p, first).sessions| < USIZE_RANGE - 1)
  {
    hide Invariant, RunOf, AllCounted, Fair;
    var first := ops[..|ops| - 1];
    assert forall k :: 0 <= k <= |first| ==> first[..k] == ops[..k];
    assert first[..|first|] == first && ops[..|ops|] == ops;
  }

  lemma NothingThroughout(p: Probe, ops: seq<ProbeOp>)
    requires Invariant(p) && ops == []
    ensures FairThroughout(p, ops) && (ExactThroughout(p, ops) <==> AllCounted(p))
  {
    hide AllCounted;
    assert ops[..0] == ops;
  }

  lemma LastStep(p: Probe, ops: seq<ProbeOp>)
    requires Invariant(p) && ops != []
    ensures RunOf(p, ops) == Step(RunOf(p, ops[..|ops| - 1]), ops[|ops| - 1])
  {
    hide Step, Invariant;
  }

  /** A run that starts with exact counters has exact counters at every point if and only if every
      single operation is fair. */
  lemma {:induction false} ExactIffFair(p: Probe, ops: seq<ProbeOp>)
    requires Invariant(p) && AllCounted(p) && NeverWraps(p, ops)
    ensures ExactThroughout(p, ops) <==> FairThroughout(p, ops)
  {
    hide Invariant, Step, RunOf, AllCounted, AllKept, Fair, ExactThroughout, FairThroughout, NeverWraps;
    if ops == [] {
      NothingThroughout(p, ops);
    } else {
      var first := ops[..|ops| - 1];
      ThroughoutSplits(p, ops);
      ExactIffFair(p, first);
      LastStep(p, ops);
      if ExactThroughout(p, first) {
        StepExactIff(RunOf(p, first), ops[|ops| - 1]);
      }
    }
  }
}
