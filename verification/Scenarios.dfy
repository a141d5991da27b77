/** Runs from a new probe on: inputs on which what is documented or expected does not hold, and
    what holds instead when sessions share a core. */
module Scenarios {
  import opened Clock
  import opened RateLimiters
  import opened SharedStates
  import opened SessionModel
  import opened SessionTiming
  import opened SessionSharing
  import opened SessionDecisions
  import opened SessionControl
  import opened ProbeModel
  import opened ProbeProofs
  import opened ProbeRuns
  import opened ProbeExact

  // ----- single steps of a run

  lemma RunOneMore(p: Probe, ops: seq<ProbeOp>, op: ProbeOp)
    requires Invariant(p)
    ensures RunOf(p, ops + [op]) == Step(RunOf(p, ops), op)
  {
    hide Step;
    assert (ops + [op])[..|ops|] == ops;
  }

  /** A service call that does not enter recovery updates the scheduled session and moves on. */
  lemma QuietService(p: Probe, i: ServiceInput)
    requires Invariant(p) && p.active && HasScheduled(p)
    ensures Wired(p)
    ensures !EntersRecovery(p, i) ==>
              var id := p.schedule[p.nextIdx];
              var l := Update(LocalOf(p, id), p.epoch, i.update);
              var p2 := Service(p, i);
              && p2.active && p2.schedule == p.schedule && p2.epoch == p.epoch
              && p2.nextIdx == (if p.nextIdx + 1 >= |p.schedule| then 0 else p.nextIdx + 1)
              && p2.gate == (if p.gate == 0 then 0 else p.gate - 1)
              && p2.sessions == p.sessions[id := l.s]
              && p2.cores == p.cores[p.sessions[id].target.core := Cell(l.c, l.hw)]
              && p2.history.pending == p.history.pending - {id}
              && p2.history.resumedCount == p.history.resumedCount
  {
    hide Invariant, Update, LooksDead, EntersRecovery;
    InvariantIsWired(p);
    EntersRecoveryIff(p, i);
    var id := p.schedule[p.nextIdx];
    UpdateMovesForward(LocalOf(p, id), p.epoch, i.update);
  }

  // ----- configurations and inputs

  const BOOTLOADER: TargetConfig := TargetConfig(false, 0, false, true, false)
  const APPLICATION: TargetConfig := TargetConfig(false, 0, false, false, false)
  const COMPANION: TargetConfig := TargetConfig(false, 0, false, false, true)
  const RECOVERING: TargetConfig := TargetConfig(true, 0, false, false, false)

  function OnChannel(n: nat): RttConfig {
    RttConfig(None, None, None, n, n, false, false, DEFAULT_RTT_BUFFER_SIZE, 1, 100)
  }

  function StoppingAt(address: nat): RttConfig {
    OnChannel(1).(stopOnBreakpoint := Some(address))
  }

  /** Every call works; once it runs, a session finds no data and its core halted by a reset. */
  function Smooth(now: Time): UpdateInput {
    UpdateInput(
      Readings(now, now, now, now, now),
      RecoverInput(true, true),
      InitInput(true, Some(Running), true, true, true, true, true, true, true, Some(Running), true, true),
      AttachInput(true, Found, true, true, true, true, true, true, true, true),
      RunInput(true, Some([]), true, 0, Some(Halted(Exception)), true, U32(0)),
      StopInput(true, true, true, true),
      true)
  }

  lemma SmoothSetup(target: TargetConfig, rtt: RttConfig, c: Counters, now: Time)
    ensures SetupWorks(target, rtt, c, Smooth(now).init)
  {
  }

  /** The same, but a session in Init cannot reach its core. */
  function CoreGone(now: Time): UpdateInput {
    Smooth(now).(init := Smooth(now).init.(coreOk := false))
  }

  function Turn(now: Time, i: UpdateInput): ServiceInput {
    ServiceInput(now, true, i, now)
  }

  // ----- two sessions on one core

  function TwoRequests(first: TargetConfig, now: Time): seq<ProbeOp> {
    [RequestOp(0, first, OnChannel(1), true, now)] + [RequestOp(1, APPLICATION, OnChannel(2), true, now)]
  }

  /** Both requests are accepted, although they are for the same core. */
  lemma AfterTwoRequests(first: TargetConfig, now: Time)
    requires first.core == 0
    ensures Invariant(NewProbe(now, map[]))
    ensures var p := RunOf(NewProbe(now, map[]), TwoRequests(first, now));
            && p.active && p.schedule == [0, 1] && p.nextIdx == 0 && p.gate == 0
            && p.sessions == map[0 := NewSession(0, first, OnChannel(1), now),
                                 1 := NewSession(1, APPLICATION, OnChannel(2), now)]
            && p.cores == map[0 := Cell(ZERO, UNTOUCHED)]
  {
    hide Invariant;
    NewProbeInvariant(now, map[]);
    var p0 := NewProbe(now, map[]);
    var r0, r1 := RequestOp(0, first, OnChannel(1), true, now), RequestOp(1, APPLICATION, OnChannel(2), true, now);
    RunOneMore(p0, [], r0);
    assert [] + [r0] == [r0];
    RunOneMore(p0, [r0], r1);
    var p1 := Step(p0, r0);
    assert p1.sessions == map[0 := NewSession(0, first, OnChannel(1), now)];
    assert p1.schedule == [0];
    assert !Taken(p1, APPLICATION, OnChannel(2));
  }

  /** A bootloader session that is attached and an application session still to be set up. */
  ghost predicate BootloaderFirst(p: Probe, now: Time) {
    && p.active && p.schedule == [0, 1] && p.nextIdx == 1 && p.gate == 0
    && p.sessions.Keys == {0, 1} && p.cores.Keys == {0}
    && p.sessions[0].target == BOOTLOADER && p.sessions[0].state.RttAttach?
    && p.sessions[1] == NewSession(1, APPLICATION, OnChannel(2), now)
    && p.cores[0].c == Counters(1, 1)
  }

  function BootloaderServed(now: Time): seq<ProbeOp> {
    TwoRequests(BOOTLOADER, now) + [ServiceOp(Turn(now, Smooth(now)))]
  }

  lemma SetupOfBootloader(now: Time, epoch: nat)
    ensures var l2 := Update(Local(NewSession(0, BOOTLOADER, OnChannel(1), now), ZERO, UNTOUCHED), epoch, Smooth(now));
            l2.s.state.RttAttach? && l2.c == Counters(1, 1) && l2.s.target == BOOTLOADER
  {
  }

  lemma AfterBootloaderServed(now: Time)
    ensures Invariant(NewProbe(now, map[]))
    ensures BootloaderFirst(RunOf(NewProbe(now, map[]), BootloaderServed(now)), now)
  {
    hide Invariant, Service, Update, EntersRecovery, LeftLost, Smooth, RunOf, NewProbe;
    AfterTwoRequests(BOOTLOADER, now);
    var p := RunOf(NewProbe(now, map[]), TwoRequests(BOOTLOADER, now));
    RunOneMore(NewProbe(now, map[]), TwoRequests(BOOTLOADER, now), ServiceOp(Turn(now, Smooth(now))));
    QuietService(p, Turn(now, Smooth(now)));
    SetupOfBootloader(now, p.epoch);
    NobodyLost(p, Turn(now, Smooth(now)));
  }

  /** Without recovering sessions there is no recovery. */
  lemma NobodyLost(p: Probe, i: ServiceInput)
    requires Wired(p)
    requires forall id :: id in p.sessions ==> !p.sessions[id].target.autoRecover && !p.sessions[id].state.Stopped?
    ensures !EntersRecovery(p, i)
  {
    hide LeftRunning;
  }

  /** The counters lose exactness on a run: the application fails to reach the core and takes
      both counts of the bootloader, which is still attached. */
  lemma CountsAreTakenOnARun(now: Time)
    ensures Invariant(NewProbe(now, map[]))
    ensures var p := RunOf(NewProbe(now, map[]), BootloaderServed(now));
            AllCounted(p) && p.cores.Keys == {0} && p.cores[0].c == Counters(1, 1)
    ensures var p2 := RunOf(NewProbe(now, map[]), BootloaderServed(now) + [ServiceOp(Turn(now, CoreGone(now)))]);
            && !AllCounted(p2) && 0 in p2.cores && p2.cores[0].c == Counters(0, 0)
            && 0 in p2.sessions && p2.sessions[0].target.core == 0
            && HoldsClear(p2.sessions[0]) && HoldsCatch(p2.sessions[0])
  {
    hide Invariant, Service, RunOf, NewProbe, BootloaderServed, CoreGone, Turn, Update;
    AfterBootloaderServed(now);
    RunOneMore(NewProbe(now, map[]), BootloaderServed(now), ServiceOp(Turn(now, CoreGone(now))));
    CountsTaken(RunOf(NewProbe(now, map[]), BootloaderServed(now)), now);
  }

  lemma CountsTaken(p: Probe, now: Time)
    requires Invariant(p) && BootloaderFirst(p, now)
    ensures Wired(p) && AllCounted(p)
    ensures var p2 := Service(p, Turn(now, CoreGone(now)));
            && !AllCounted(p2) && 0 in p2.cores && p2.cores[0].c == Counters(0, 0)
            && 0 in p2.sessions && p2.sessions[0].target.core == 0
            && HoldsClear(p2.sessions[0]) && HoldsCatch(p2.sessions[0])
  {
    hide Invariant, Service, Update, EntersRecovery;
    assert ClearHolders(p.sessions, 0) == {0} && CatchHolders(p.sessions, 0) == {0};
    var i := Turn(now, CoreGone(now));
    QuietService(p, i);
    NobodyLost(p, i);
    CountsCanBeTaken(p.sessions[1], p.cores[0].hw, p.epoch, i.update);
    assert 0 in ClearHolders(Service(p, i).sessions, 0);
  }

  // ----- a bootloader does not have its core to itself

  /** A request for the core of an attached bootloader is accepted like any other. */
  lemma BootloaderDoesNotExclude(
    p: Probe, boot: SessionId, id: SessionId, target: TargetConfig, rtt: RttConfig, now: Time)
    requires Invariant(p) && p.active && boot in p.sessions && id !in p.sessions
    requires p.sessions[boot].target.bootloader && HoldsClear(p.sessions[boot])
    requires target.core == p.sessions[boot].target.core
    requires forall other :: other in p.sessions ==>
               || p.sessions[other].target.core != target.core
               || p.sessions[other].rtt.controlBlock != rtt.controlBlock
               || p.sessions[other].rtt.upChannel != rtt.upChannel
    ensures RequestOutcome(p, target, rtt, true).None?
    ensures var p2 := Step(p, RequestOp(id, target, rtt, true, now));
            && id in p2.sessions && p2.sessions[id] == NewSession(id, target, rtt, now)
            && id in p2.schedule
            && boot in p2.sessions && p2.sessions[boot] == p.sessions[boot]
  {
    hide Invariant, NewSession;
    assert !Taken(p, target, rtt);
    NewSessionId(id, target, rtt, now);
    assert Step(p, RequestOp(id, target, rtt, true, now)).schedule[|p.schedule|] == id;
  }

  lemma NewSessionId(id: SessionId, target: TargetConfig, rtt: RttConfig, now: Time)
    ensures NewSession(id, target, rtt, now).id == id && NewSession(id, target, rtt, now).target == target
  {
  }

  /** Nor is a sibling suspended: when its turn comes it leaves Init if and only if its setup
      works, and it leaves the core of the bootloader alone if and only if it keeps its hands off
      by itself. The bootloader's session has no part in either. */
  lemma BootloaderDoesNotSuspend(p: Probe, boot: SessionId, i: ServiceInput)
    requires Invariant(p) && p.active && HasScheduled(p) && boot in p.sessions && boot != p.schedule[p.nextIdx]
    requires p.sessions[boot].target.bootloader && HoldsClear(p.sessions[boot])
    requires p.sessions[p.schedule[p.nextIdx]].target.core == p.sessions[boot].target.core
    ensures Wired(p)
    ensures var id, core, p2 := p.schedule[p.nextIdx], p.sessions[boot].target.core, Service(p, i);
            var l := LocalOf(p, id);
            && boot in p2.sessions && p2.sessions[boot] == p.sessions[boot]
            && id in p2.sessions && core in p2.cores
            && (l.s.state.Init? ==>
                  (p2.sessions[id].state.RttAttach? <==> SetupWorks(l.s.target, l.s.rtt, l.c, i.update.init)))
            && (LeftAlone(p.cores[core].hw, p2.cores[core].hw) <==> HandsOff(l, i.update))
  {
    hide Invariant, Update, LooksDead, SetupWorks, HandsOff;
    InvariantIsWired(p);
    var id := p.schedule[p.nextIdx];
    var l := LocalOf(p, id);
    UpdateMovesForward(l, p.epoch, i.update);
    HandsOffIff(l, p.epoch, i.update);
    if l.s.state.Init? {
      InitMovesOnIff(l, p.epoch, i.update);
    }
  }

  lemma SetUpInItsTurn(p: Probe, i: ServiceInput, id: SessionId)
    requires Wired(p) && id in p.sessions && p.sessions[id].state.Init?
    ensures var l := LocalOf(p, id);
            var l2 := Update(l, p.epoch, i.update);
            && l2.s.target == l.s.target
            && (SetupWorks(l.s.target, l.s.rtt, l.c, i.update.init) ==> l2.s.state.RttAttach?)
  {
    hide Update, SetupWorks;
    InitMovesOnIff(LocalOf(p, id), p.epoch, i.update);
    UpdateMovesForward(LocalOf(p, id), p.epoch, i.update);
  }

  /** A run on which this happens: the application is set up while the bootloader is attached. */
  lemma ApplicationIsSetUpBesideBootloader(now: Time)
    ensures Invariant(NewProbe(now, map[]))
    ensures var p := RunOf(NewProbe(now, map[]), BootloaderServed(now) + [ServiceOp(Turn(now, Smooth(now)))]);
            && p.sessions.Keys == {0, 1}
            && p.sessions[0].target == BOOTLOADER && p.sessions[0].state.RttAttach?
            && p.sessions[1].target == APPLICATION && p.sessions[1].state.RttAttach?
            && p.sessions[0].target.core == p.sessions[1].target.core
  {
    hide Invariant, Service, RunOf, NewProbe, BootloaderServed, BootloaderFirst, Smooth, Turn;
    AfterBootloaderServed(now);
    RunOneMore(NewProbe(now, map[]), BootloaderServed(now), ServiceOp(Turn(now, Smooth(now))));
    ApplicationServed(RunOf(NewProbe(now, map[]), BootloaderServed(now)), now);
  }

  lemma QuietBesideBootloader(p: Probe, now: Time, i: ServiceInput)
    requires Wired(p) && BootloaderFirst(p, now)
    ensures !EntersRecovery(p, i)
    ensures p.sessions[1].state.Init? && p.sessions[1].target == APPLICATION
  {
    hide EntersRecovery;
    NobodyLost(p, i);
  }

  lemma LocalOfApplication(p: Probe, now: Time)
    requires Wired(p) && BootloaderFirst(p, now)
    ensures var l := LocalOf(p, 1);
            l.s.target == APPLICATION && l.s.rtt == OnChannel(2) && l.c == p.cores[0].c
  {
  }

  lemma ApplicationServed(p: Probe, now: Time)
    requires Invariant(p) && BootloaderFirst(p, now)
    ensures Wired(p)
    ensures var p2 := Service(p, Turn(now, Smooth(now)));
            && p2.sessions.Keys == {0, 1}
            && p2.sessions[0].target == BOOTLOADER && p2.sessions[0].state.RttAttach?
            && p2.sessions[1].target == APPLICATION && p2.sessions[1].state.RttAttach?
  {
    hide Invariant, Service, Update, EntersRecovery, Smooth, SetupWorks, LocalOf, NewSession;
    var i := Turn(now, Smooth(now));
    QuietService(p, i);
    QuietBesideBootloader(p, now, i);
    SetUpInItsTurn(p, i, 1);
    LocalOfApplication(p, now);
    SmoothSetup(APPLICATION, OnChannel(2), p.cores[0].c, now);
  }

  // ----- a companion drives its core

  function CompanionServed(address: nat, now: Time, turns: nat): seq<ProbeOp> {
    if turns == 0 then [RequestOp(0, COMPANION, StoppingAt(address), true, now)]
    else CompanionServed(address, now, turns - 1) + [ServiceOp(Turn(now, Smooth(now)))]
  }

  /** One update of the only session of a probe after the other. */
  function Updates(l: Local, i: UpdateInput, turns: nat): Local {
    if turns == 0 then l else Update(Updates(l, i, turns - 1), 0, i)
  }

  function CompanionAlone(address: nat, now: Time): Local {
    Local(NewSession(0, COMPANION, StoppingAt(address), now), ZERO, UNTOUCHED)
  }

  lemma CompanionUpdates(address: nat, now: Time)
    ensures var l, i := CompanionAlone(address, now), Smooth(now);
            var l1, l2, l3 := Updates(l, i, 1), Updates(l, i, 2), Updates(l, i, 3);
            && l1.s.state.RttAttach? && l1.hw.catchOn && l1.hw.breakpoints == {address}
            && l2.s.state.Run? && l2.hw.control == []
            && l3.s.state == Stopped(ByResetCatch) && l3.hw.control == [RunCore]
  {
    var l, i := CompanionAlone(address, now), Smooth(now);
    assert Updates(l, i, 0) == l;
    var l1 := Updates(l, i, 1);
    assert l1 == Update(l, 0, i);
    assert l1.s.state.RttAttach? && l1.hw.catchOn && l1.hw.breakpoints == {address} && l1.hw.control == [];
    var l2 := Updates(l, i, 2);
    assert l2 == Update(l1, 0, i);
    assert l2.s.state.Run? && l2.hw.control == [];
    assert Updates(l, i, 3) == Update(l2, 0, i);
  }

  ghost predicate OnlyCompanion(p: Probe, l: Local) {
    && p.active && p.epoch == 0 && p.schedule == [0] && p.nextIdx == 0
    && p.sessions == map[0 := l.s] && p.cores == map[0 := Cell(l.c, l.hw)]
    && l.s.id == 0 && l.s.target == COMPANION
  }

  lemma CompanionRequested(address: nat, now: Time)
    ensures Invariant(NewProbe(now, map[]))
    ensures OnlyCompanion(RunOf(NewProbe(now, map[]), CompanionServed(address, now, 0)), CompanionAlone(address, now))
  {
    hide Invariant;
    NewProbeInvariant(now, map[]);
    var op := RequestOp(0, COMPANION, StoppingAt(address), true, now);
    RunOneMore(NewProbe(now, map[]), [], op);
    assert [] + [op] == [op];
  }

  lemma CompanionServedOnce(p: Probe, l: Local, now: Time)
    requires Invariant(p) && OnlyCompanion(p, l) && !l.s.state.Stopped?
    ensures Wired(p)
    ensures OnlyCompanion(Service(p, Turn(now, Smooth(now))), Update(l, 0, Smooth(now)))
  {
    hide Invariant, Service, Update, EntersRecovery, Smooth;
    var i := Turn(now, Smooth(now));
    QuietService(p, i);
    NobodyLost(p, i);
    UpdateMovesForward(l, 0, i.update);
  }

  lemma {:induction false} CompanionIsServed(address: nat, now: Time, turns: nat)
    requires turns <= 3
    ensures Invariant(NewProbe(now, map[]))
    ensures OnlyCompanion(RunOf(NewProbe(now, map[]), CompanionServed(address, now, turns)),
                          Updates(CompanionAlone(address, now), Smooth(now), turns))
  {
    hide Invariant, Service, Update, Smooth, RunOf, NewProbe, OnlyCompanion, CompanionAlone, Turn;
    CompanionRequested(address, now);
    if turns > 0 {
      var before := CompanionServed(address, now, turns - 1);
      var l := Updates(CompanionAlone(address, now), Smooth(now), turns - 1);
      CompanionIsServed(address, now, turns - 1);
      RunOneMore(NewProbe(now, map[]), before, ServiceOp(Turn(now, Smooth(now))));
      CompanionUpdates(address, now);
      NotStoppedAlone(address, now);
      CompanionServedOnce(RunOf(NewProbe(now, map[]), before), l, now);
    }
  }

  lemma NotStoppedAlone(address: nat, now: Time)
    ensures !Updates(CompanionAlone(address, now), Smooth(now), 0).s.state.Stopped?
  {
    hide Smooth;
  }

  /** A companion on its own, with no reset configured, clears its core, enables the catch and
      arms its breakpoint; and when it stops at a reset of the core it starts the core again. */
  lemma CompanionDrivesItsCore(address: nat, now: Time)
    ensures Invariant(NewProbe(now, map[]))
    ensures var p1 := RunOf(NewProbe(now, map[]), CompanionServed(address, now, 1));
            && p1.cores.Keys == {0} && p1.sessions.Keys == {0} && p1.sessions[0].target == COMPANION
            && p1.cores[0].hw.catchOn && p1.cores[0].hw.breakpoints == {address}
    ensures var p3 := RunOf(NewProbe(now, map[]), CompanionServed(address, now, 3));
            && p3.cores.Keys == {0} && p3.sessions.Keys == {0} && p3.sessions[0].target == COMPANION
            && p3.cores[0].hw.control == [RunCore]
    ensures !COMPANION.reset
  {
    hide Invariant, RunOf, Updates, NewProbe, CompanionServed, Smooth;
    CompanionIsServed(address, now, 1);
    CompanionIsServed(address, now, 3);
    CompanionUpdates(address, now);
  }

  // ----- the gate lets a session be skipped

  /** Three sessions of a lost probe: after the recovery and two more service calls the gate
      waits for one update, the third session's, which alone is pending. */
  lemma TwoServedAfterRecovery(
    lost: Probe, a: SessionId, b: SessionId, c: SessionId, r: ServiceInput, i1: ServiceInput, i2: ServiceInput)
    requires Invariant(lost) && !lost.active && lost.schedule == [a, b, c] && lost.gate == 3
    requires lost.retry.Due(r.retryTime) && r.setupOk
    ensures var p0 := Step(lost, ServiceOp(r));
            var p1 := Step(p0, ServiceOp(i1));
            var p2 := Step(p1, ServiceOp(i2));
            && p0.active && p0.gate == 3 && p1.active && p1.gate == 2
            && p2.active && p2.schedule == [a, b, c] && p2.nextIdx == 2 && p2.gate == 1
            && p2.history.pending == {c} && p2.history.resumedCount == 3
            && a in p2.sessions && b in p2.sessions && c in p2.sessions
  {
    hide Invariant, Step;
    Recovered(lost, a, b, c, r);
    var p0 := Step(lost, ServiceOp(r));
    QuietWhileShut(p0, i1);
    QuietWhileShut(Step(p0, ServiceOp(i1)), i2);
  }

  lemma Recovered(lost: Probe, a: SessionId, b: SessionId, c: SessionId, r: ServiceInput)
    requires Invariant(lost) && !lost.active && lost.schedule == [a, b, c] && lost.gate == 3
    requires lost.retry.Due(r.retryTime) && r.setupOk
    ensures var p0 := Step(lost, ServiceOp(r));
            && p0.active && p0.gate == 3 && p0.schedule == [a, b, c] && p0.nextIdx == 0
            && a in p0.sessions && b in p0.sessions && c in p0.sessions
            && p0.history.pending == {a, b, c} && p0.history.resumedCount == 3
            && a != b && b != c && a != c
  {
    hide Bounded, HandlesFresh, AllSound, NoChannelShared;
    assert lost.schedule[0] == a && lost.schedule[1] == b && lost.schedule[2] == c;
    assert Ids(lost.schedule) == {a, b, c};
  }

  /** While the gate waits for more than one update there is no recovery. */
  lemma QuietWhileShut(p: Probe, i: ServiceInput)
    requires Invariant(p) && p.active && p.gate > 1 && p.nextIdx < |p.schedule|
    ensures var p2 := Step(p, ServiceOp(i));
            && p2.active && p2.schedule == p.schedule && p2.gate == p.gate - 1
            && p2.nextIdx == (if p.nextIdx + 1 >= |p.schedule| then 0 else p.nextIdx + 1)
            && p2.history.pending == p.history.pending - {p.schedule[p.nextIdx]}
            && p2.history.resumedCount == p.history.resumedCount
            && p2.sessions.Keys == p.sessions.Keys
  {
    hide Bounded, HandlesFresh, AllSound, NoChannelShared, Covered, Update, LooksDead, Service;
    assert p.schedule[p.nextIdx] in Ids(p.schedule);
    QuietService(p, i);
  }

  /** The step into recovery. */
  lemma LosingService(p: Probe, i: ServiceInput)
    requires Invariant(p) && p.active
    ensures Wired(p)
    ensures EntersRecovery(p, i) ==>
              var p2 := Service(p, i);
              && !p2.active && p2.schedule == p.schedule && p2.gate == |p.sessions| && p2.retry == p.retry
              && p2.sessions.Keys == p.sessions.Keys
  {
    hide Invariant, Update, LooksDead, EntersRecovery;
    InvariantIsWired(p);
    EntersRecoveryIff(p, i);
    if HasScheduled(p) {
      UpdateMovesForward(LocalOf(p, p.schedule[p.nextIdx]), p.epoch, i.update);
    }
    assert Service(p, i).sessions.Keys == p.sessions.Keys;
    assert |Service(p, i).sessions| == |Service(p, i).sessions.Keys| && |p.sessions| == |p.sessions.Keys|;
  }

  function RequestOn(id: SessionId, now: Time): ProbeOp {
    RequestOp(id, RECOVERING, OnChannel(id), true, now)
  }

  function ThreeRequests(now: Time): seq<ProbeOp> {
    [RequestOn(0, now)] + [RequestOn(1, now)] + [RequestOn(2, now)]
  }

  function Waiting(id: SessionId, now: Time): Session {
    NewSession(id, RECOVERING, OnChannel(id), now)
  }

  lemma AfterThreeRequests(now: Time)
    ensures Invariant(NewProbe(now, map[]))
    ensures var p := RunOf(NewProbe(now, map[]), ThreeRequests(now));
            && p.active && p.schedule == [0, 1, 2] && p.nextIdx == 0 && p.gate == 0
            && p.sessions == map[0 := Waiting(0, now), 1 := Waiting(1, now), 2 := Waiting(2, now)]
            && p.check == NewLimiter(HEALTH_CHECK_INTERVAL, now) && p.retry == NewLimiter(RECOVERY_RETRY_INTERVAL, now)
  {
    hide Invariant;
    NewProbeInvariant(now, map[]);
    var p0 := NewProbe(now, map[]);
    RunOneMore(p0, [], RequestOn(0, now));
    assert [] + [RequestOn(0, now)] == [RequestOn(0, now)];
    RunOneMore(p0, [RequestOn(0, now)], RequestOn(1, now));
    RunOneMore(p0, [RequestOn(0, now)] + [RequestOn(1, now)], RequestOn(2, now));
    var p1 := Step(p0, RequestOn(0, now));
    assert p1.sessions == map[0 := Waiting(0, now)] && p1.schedule == [0];
    var p2 := Step(p1, RequestOn(1, now));
    assert p2.sessions == map[0 := Waiting(0, now), 1 := Waiting(1, now)] && p2.schedule == [0, 1];
  }

  function ProbeLost(now: Time): seq<ProbeOp> {
    ThreeRequests(now) + [ServiceOp(Turn(now, CoreGone(now)))]
  }

  lemma AfterProbeLost(now: Time)
    ensures Invariant(NewProbe(now, map[]))
    ensures var p := RunOf(NewProbe(now, map[]), ProbeLost(now));
            && !p.active && p.schedule == [0, 1, 2] && p.gate == 3 && p.sessions.Keys == {0, 1, 2}
            && p.retry == NewLimiter(RECOVERY_RETRY_INTERVAL, now)
  {
    hide Invariant, Service, Update, RunOf, NewProbe, EntersRecovery;
    AfterThreeRequests(now);
    var p := RunOf(NewProbe(now, map[]), ThreeRequests(now));
    RunOneMore(NewProbe(now, map[]), ThreeRequests(now), ServiceOp(Turn(now, CoreGone(now))));
    LosingService(p, Turn(now, CoreGone(now)));
    FirstIsLost(p, now);
    assert |p.sessions| == |p.sessions.Keys| && p.sessions.Keys == {0, 1, 2};
  }

  lemma FirstIsLost(p: Probe, now: Time)
    requires Wired(p) && p.active && p.schedule == [0, 1, 2] && p.nextIdx == 0 && p.gate == 0
    requires p.sessions == map[0 := Waiting(0, now), 1 := Waiting(1, now), 2 := Waiting(2, now)]
    requires p.check == NewLimiter(HEALTH_CHECK_INTERVAL, now)
    ensures EntersRecovery(p, Turn(now, CoreGone(now)))
  {
  }

  function AfterRecovery(stop: StopInput, now: Time): seq<ProbeOp> {
    var turn := ServiceOp(Turn(now, Smooth(now)));
    [turn] + [turn] + [RemoveOp(0, stop)]
  }

  /** A run on which a session is skipped: three sessions, a recovery, two service calls, and the
      removal of the first session. The next service call opens the gate, and the third session,
      which is still there, has not been updated since servicing resumed. */
  lemma SessionIsSkippedOnARun(now: Time, stop: StopInput)
    ensures Invariant(NewProbe(now, map[]))
    ensures var lost := RunOf(NewProbe(now, map[]), ProbeLost(now));
            var turn := Turn(now, Smooth(now));
            var resumed := Step(lost, ServiceOp(turn));
            var ops := AfterRecovery(stop, now);
            && !lost.active && lost.sessions.Keys == {0, 1, 2} && resumed.active
            && GateShut(resumed, ops) && RemovedBy(ops) == {0}
            && UpdateScheduled(RunOf(resumed, ops), turn.update).gate == 0
            && 2 in RunOf(resumed, ops).sessions
            && 2 !in UpdatedBy(resumed, ops + [ServiceOp(turn)])
  {
    hide Invariant, Service, Remove, UpdateScheduled, RunOf, NewProbe, GateShut, Update, ProbeLost;
    AfterProbeLost(now);
    var lost := RunOf(NewProbe(now, map[]), ProbeLost(now));
    var turn := Turn(now, Smooth(now));
    TwoServedAfterRecovery(lost, 0, 1, 2, turn, turn, turn);
    var resumed := Step(lost, ServiceOp(turn));
    RunsAfterRecovery(resumed, stop, now);
    var p2 := Step(Step(resumed, ServiceOp(turn)), ServiceOp(turn));
    InvariantIsWired(p2);
    RemovalCanSkipASession(p2, 0, 1, 2, stop, turn.update);
    RemovedThree(p2, 0, 1, 2, stop);
    var ops := AfterRecovery(stop, now);
    ShutAfterRecovery(resumed, stop, now);
    ShutRun(resumed, ops);
    OneMoreUpdated(resumed, ops, turn);
    RemovedAfterRecovery(stop, now);
  }

  lemma RunsAfterRecovery(resumed: Probe, stop: StopInput, now: Time)
    requires Invariant(resumed)
    ensures var turn := ServiceOp(Turn(now, Smooth(now)));
            && RunOf(resumed, []) == resumed
            && RunOf(resumed, [turn]) == Step(resumed, turn)
            && RunOf(resumed, [turn] + [turn]) == Step(Step(resumed, turn), turn)
            && RunOf(resumed, AfterRecovery(stop, now)) == Step(Step(Step(resumed, turn), turn), RemoveOp(0, stop))
  {
    hide Step, Invariant, Smooth, Turn;
    var turn := ServiceOp(Turn(now, Smooth(now)));
    RunOneMore(resumed, [], turn);
    assert [] + [turn] == [turn];
    RunOneMore(resumed, [turn], turn);
    RunOneMore(resumed, [turn] + [turn], RemoveOp(0, stop));
  }

  lemma ShutAfterRecovery(resumed: Probe, stop: StopInput, now: Time)
    requires Invariant(resumed) && resumed.active && resumed.gate > 0
    requires var turn := ServiceOp(Turn(now, Smooth(now)));
             var p1 := Step(resumed, turn);
             var p2 := Step(p1, turn);
             var p3 := Step(p2, RemoveOp(0, stop));
             p1.active && p1.gate > 0 && p2.active && p2.gate > 0 && p3.active && p3.gate > 0
    ensures GateShut(resumed, AfterRecovery(stop, now))
  {
    hide Step, Invariant, RunOf, Smooth, Turn;
    RunsAfterRecovery(resumed, stop, now);
    var ops := AfterRecovery(stop, now);
    var turn := ServiceOp(Turn(now, Smooth(now)));
    assert ops[..0] == [] && ops[..1] == [turn] && ops[..2] == [turn] + [turn] && ops[..3] == ops;
  }

  lemma OneMoreUpdated(p: Probe, ops: seq<ProbeOp>, i: ServiceInput)
    requires Invariant(p) && RunOf(p, ops).active && HasScheduled(RunOf(p, ops))
    ensures UpdatedBy(p, ops + [ServiceOp(i)])
            == UpdatedBy(p, ops) + {RunOf(p, ops).schedule[RunOf(p, ops).nextIdx]}
  {
    hide Invariant, RunOf;
    assert (ops + [ServiceOp(i)])[..|ops|] == ops;
  }

  lemma RemovedAfterRecovery(stop: StopInput, now: Time)
    ensures RemovedBy(AfterRecovery(stop, now)) == {0}
  {
    hide Smooth, Turn, RemovedBy;
    var turn := ServiceOp(Turn(now, Smooth(now)));
    RemovedByOneMore([], turn);
    assert [] + [turn] == [turn];
    RemovedByOneMore([turn], turn);
    RemovedByOneMore([turn] + [turn], RemoveOp(0, stop));
  }

  lemma RemovedByOneMore(ops: seq<ProbeOp>, op: ProbeOp)
    ensures RemovedBy([]) == {}
    ensures RemovedBy(ops + [op]) == RemovedBy(ops) + if op.RemoveOp? then {op.id} else {}
  {
    assert (ops + [op])[..|ops|] == ops;
  }
}
