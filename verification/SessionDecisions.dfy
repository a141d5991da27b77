/** Exactly when a session moves on, what it does when it cannot, and what it leaves behind. */
module SessionDecisions {
  import opened Clock
  import opened SharedStates
  import opened SessionModel
  import opened SessionProofs
  import opened SessionTiming
  import opened SessionSharing

  // ----- Init

  /** Everything the setup of a core needs, given what the counters say is to be done. */
  predicate SetupWorks(target: TargetConfig, rtt: RttConfig, c: Counters, i: InitInput) {
    && i.coreOk && i.status.Some? && i.statusAfter == Some(Running)
    && (target.reset ==> i.resetOk)
    && (c.clear == 0 ==> i.disableOk && i.clearAllOk)
    && (EnablesCatchEarly(target) && c.catches == 0 ==> i.enableOk)
    && (!target.companion && (target.reset || i.status.value.Halted?) ==> i.registersOk && i.runOk)
    && (rtt.stopOnBreakpoint.Some? ==> i.unitsOk && i.setBreakpointOk)
  }

  lemma SetupOutcome(target: TargetConfig, rtt: RttConfig, c: Counters, hw: CoreState, i: InitInput)
    ensures var o := DoInit(target, rtt, c, hw, i);
            && (o.error.None? <==> SetupWorks(target, rtt, c, i))
            && (o.error.None? && rtt.stopOnBreakpoint.Some? ==> rtt.stopOnBreakpoint.value in o.hw.breakpoints)
            && (o.error.None? && EnablesCatchEarly(target) && c.catches == 0 ==> o.hw.catchOn)
            && (o.error.None? && c.clear == 0 && rtt.stopOnBreakpoint.None? ==> o.hw.breakpoints == {})
            && (i.coreOk <==> o.error != Some(CoreAttach))
  {
    hide RaisedClearCore, RaisedCatchCore, EpilogueCore;
    if SetupWorks(target, rtt, c, i) {
      var hw1 := RaisedClearCore(c, PrologueCore(target, hw, i), i);
      RaisedCores(c, PrologueCore(target, hw, i), i);
      RaisedCores(RaisedClear(c), hw1, i);
      var hw2 := if EnablesCatchEarly(target) then RaisedCatchCore(RaisedClear(c), hw1, i.enableOk, i.latched) else hw1;
      EpilogueArms(target, rtt, hw2, i);
    }
  }

  lemma RaisedCores(c: Counters, hw: CoreState, i: InitInput)
    ensures c.clear == 0 && !ClearFails(c, i) ==> RaisedClearCore(c, hw, i).breakpoints == {}
    ensures c.catches == 0 && i.enableOk ==> RaisedCatchCore(c, hw, i.enableOk, i.latched).catchOn
    ensures RaisedCatchCore(c, hw, i.enableOk, i.latched).breakpoints == hw.breakpoints
  {
  }

  lemma EpilogueArms(target: TargetConfig, rtt: RttConfig, hw: CoreState, i: InitInput)
    requires i.status.Some? && InitEpilogueError(target, rtt, i).None?
    ensures var hw2 := EpilogueCore(target, rtt, hw, i);
            && hw2.catchOn == hw.catchOn
            && (rtt.stopOnBreakpoint.Some? ==> rtt.stopOnBreakpoint.value in hw2.breakpoints)
            && (rtt.stopOnBreakpoint.None? ==> hw2.breakpoints == hw.breakpoints)
  {
  }

  /** A session leaves Init for RttAttach if and only if the setup works, and then its breakpoint
      is armed; it has sent nothing, read nothing and starts counting attempts afresh. */
  lemma InitMovesOnIff(l: Local, epoch: nat, i: UpdateInput)
    requires l.s.state.Init?
    ensures var l2 := Update(l, epoch, i);
            && (l2.s.state.RttAttach? <==> SetupWorks(l.s.target, l.s.rtt, l.c, i.init))
            && (l2.s.state.RttAttach? ==>
                  && l2.s.state.startedAt == i.time.t2
                  && l2.s.log == l.s.log.(attempts := 0)
                  && (i.time.t1 <= i.time.t2 ==> l2.s.attachRetry.Due(i.time.t2))
                  && (l.s.rtt.stopOnBreakpoint.Some? ==>
                        l.s.rtt.stopOnBreakpoint.value in l2.hw.breakpoints))
            && (!l2.s.state.RttAttach? ==> !CanStop(l2.s))
  {
    hide DoInit, StopCommands, StoppedCore, SetupWorks;
    SetupOutcome(l.s.target, l.s.rtt, l.c, l.hw, i.init);
  }

  // ----- RttAttach

  /** Everything an attach attempt needs. */
  predicate AttachWorks(target: TargetConfig, rtt: RttConfig, c: Counters, i: AttachInput) {
    && i.coreOk && i.region.Found? && i.upFound && i.modeOk
    && (!rtt.disableControlPlane ==> i.downFound && i.startOk && (rtt.restart ==> i.stopOk))
    && (!EnablesCatchEarly(target) && c.catches == 0 ==> i.enableOk)
  }

  lemma AttachOutcomeIs(target: TargetConfig, rtt: RttConfig, c: Counters, hw: CoreState, i: AttachInput)
    ensures var o := DoRttAttach(target, rtt, c, hw, i);
            && (o.error.None? <==> AttachWorks(target, rtt, c, i))
            && (o.error == Some(ControlBlockNotFound) <==> i.coreOk && i.region.NotFound?)
            && (o.error.None? && !EnablesCatchEarly(target) && c.catches == 0 ==> o.hw.catchOn)
  {
  }

  /** Between attempts, and after one that found no control block before the timeout, the session
      stays; it enters Run if and only if an attempt is due and works and the client knows or can
      be told; anything else ends the episode. */
  lemma AttachMovesOnIff(l: Local, epoch: nat, i: UpdateInput)
    requires l.s.state.RttAttach?
    ensures var s2 := Update(l, epoch, i).s;
            var due := l.s.attachRetry.Due(i.time.t1);
            && (s2.state.Run? <==>
                  due && AttachWorks(l.s.target, l.s.rtt, l.c, i.attach) && (l.s.responded || i.attach.responseOk))
            && (s2.state.Run? ==> s2.responded && s2.state.handles.epoch == epoch)
            && (s2.state.RttAttach? <==>
                  || !due
                  || (i.attach.coreOk && i.attach.region.NotFound? && l.s.rtt.attachTimeoutMs.Some?
                      && DurationSince(i.time.t2, l.s.state.startedAt)
                         <= l.s.rtt.attachTimeoutMs.value * MILLISECOND))
            && (s2.state.RttAttach? ==> s2.state == l.s.state)
            && !s2.state.Init?
  {
    hide DoRttAttach, StopCommands, StoppedCore, AttachWorks;
    AttachOutcomeIs(l.s.target, l.s.rtt, l.c, l.hw, i.attach);
  }

  // ----- Run

  /** Whether this update reads the channel, and gets something. */
  predicate GetsData(s: Session, time: Readings, i: RunInput) {
    ReadDue(s, time.t1) && i.read.Some? && i.read.value != []
  }

  /** What keeps a session running: the core is there, a due read works, data that came reaches
      the client, and without data the core is not seen to have left the running state. */
  predicate KeepsRunning(s: Session, time: Readings, i: RunInput) {
    && i.coreOk
    && (ReadDue(s, time.t1) ==> i.read.Some?)
    && if GetsData(s, time, i) then i.writeOk
       else s.stopping.Due(time.t2) ==> i.status == Some(Running)
  }

  lemma RunOutcomeIs(s: Session, time: Readings, i: RunInput)
    ensures var o := DoRun(s, time, i);
            && (o.error.None? && o.condition.NotReached? <==> KeepsRunning(s, time, i))
            && (GetsData(s, time, i) && i.coreOk ==>
                  o.s.lastReadHadData && o.s.log.chunks == s.log.chunks + [Chunk(s.rtt, i.read.value)])
            && (!GetsData(s, time, i) || !i.coreOk ==> o.s.log.chunks == s.log.chunks && o.s.log.out == s.log.out)
            && (i.coreOk && ReadDue(s, time.t1) && i.read == Some([]) ==> !o.s.lastReadHadData)
            && (i.coreOk && !ReadDue(s, time.t1) ==> o.s.lastReadHadData == s.lastReadHadData)
  {
    hide HaltCondition;
    HaltConditionIs(i);
  }

  lemma HaltConditionIs(i: RunInput)
    ensures HaltCondition(i) == (None, NotReached) <==> i.status == Some(Running)
    ensures HaltCondition(i).0.Some? ==> HaltCondition(i).1 == NotReached
    ensures HaltCondition(i).1.AtBreakpoint? <==>
              i.status == Some(Halted(BreakpointHalt)) && i.registersOk
  {
  }

  /** A session stays in Run if and only if nothing went wrong and no stopping condition was
      seen; what it read in this update is added to what it has read, even if it stops. */
  lemma RunStaysIff(l: Local, epoch: nat, i: UpdateInput)
    requires l.s.state.Run?
    ensures var s2 := Update(l, epoch, i).s;
            && (s2.state.Run? <==> KeepsRunning(l.s, i.time, i.run))
            && (s2.state.Run? ==> s2.state == l.s.state)
            && s2.log.chunks == (if i.run.coreOk && GetsData(l.s, i.time, i.run)
                                 then l.s.log.chunks + [Chunk(l.s.rtt, i.run.read.value)] else l.s.log.chunks)
  {
    hide DoRun, StopCommands, StoppedCore, KeepsRunning, GetsData;
    RunOutcomeIs(l.s, i.time, i.run);
    DoRunKeepsState(l.s, i.time, i.run);
  }

  // ----- Stopped

  /** A recovering session goes back to Init if and only if a check is due and the core answers;
      without auto-recovery it stays stopped for good. A check is recorded if and only if one is
      made, and the next one is not due before the interval has passed. */
  lemma StoppedMovesOnIff(l: Local, epoch: nat, i: UpdateInput)
    requires l.s.state.Stopped?
    ensures var s2 := Update(l, epoch, i).s;
            && (s2.state.Init? <==>
                  l.s.target.autoRecover && l.s.recovery.Due(i.time.t1) && i.recover.coreOk && i.recover.statusOk)
            && (!s2.state.Init? ==> s2.state.Stopped?)
            && (!l.s.target.autoRecover ==> s2 == l.s)
            && s2 == l.s.(state := s2.state, recovery := s2.recovery, log := s2.log)
            && s2.log == l.s.log.(recoveryChecks := s2.log.recoveryChecks, firstCheck := s2.log.firstCheck)
            && s2.log.recoveryChecks
               == l.s.log.recoveryChecks + (if l.s.target.autoRecover && l.s.recovery.Due(i.time.t1) then 1 else 0)
            && (l.s.target.autoRecover && l.s.recovery.Due(i.time.t1) && l.s.recovery.limit > 0 ==>
                  forall later :: s2.recovery.Due(later) <==> later >= i.time.t1 + l.s.recovery.limit)
  {
  }

  // ----- what a failure leads to

  /** A session that fails stops if it may recover and the client is still there; otherwise it is
      shut down, and a client that had no answer yet gets exactly the error. */
  lemma FailureEnds(l: Local, error: Error, i: UpdateInput)
    requires CanStop(l.s)
    ensures var s2 := HandleError(l, error, i).s;
            if l.s.target.autoRecover && error != ClientDisconnected then
              s2.state == Stopped(ByError(error)) && s2.log.out == l.s.log.out && s2.responded == l.s.responded
            else
              && s2.state.Shutdown? && s2.responded
              && s2.log.out == l.s.log.out + (if !l.s.responded && i.errorResponseOk then [Failed(error)] else [])
  {
    hide StopCommands, StoppedCore;
  }

  /** A session that is shut down has answered its client, or tried to. */
  predicate Answered(s: Session) {
    s.state.Shutdown? ==> s.responded
  }

  /** No update shuts a session down without an answer to its client. */
  lemma UpdateAnswers(l: Local, epoch: nat, i: UpdateInput)
    requires Answered(l.s)
    ensures Answered(Update(l, epoch, i).s)
  {
    hide DoInit, DoRttAttach, DoRun, Stop, HandleError;
    DoRunKeepsState(l.s, i.time, i.run);
    var run := DoRun(l.s, i.time, i.run);
    StopIsNoShutdown(l.(s := run.s), ByResetCatch, i.stop);
    if run.condition.AtBreakpoint? {
      StopIsNoShutdown(l.(s := run.s), ByBreakpoint(run.condition.address), i.stop);
    }
    var o := UpdateInner(l, epoch, i);
    if o.error.Some? {
      FailureEnds(o.l, o.error.value, i);
    }
  }

  lemma StopIsNoShutdown(l: Local, reason: StoppedReason, i: StopInput)
    ensures Stop(l, reason, i).s.state.Shutdown? ==> l.s.state.Shutdown?
  {
    hide StopCommands, StoppedCore;
  }

  /** Over a life without a shutdown from outside, a session that ends has answered its client. */
  lemma {:induction false} LifeAnswers(s: Session, calls: seq<Call>)
    requires Answered(s) && forall k :: 0 <= k < |calls| ==> calls[k].UpdateCall?
    ensures Answered(Life(s, calls))
  {
    hide Update, Answered;
    if calls != [] {
      var first, last := calls[..|calls| - 1], calls[|calls| - 1];
      LifeAnswers(s, first);
      UpdateAnswers(Local(Life(s, first), last.c, last.hw), last.epoch, last.i);
    }
  }

  // ----- where an update leaves a session

  predicate LeftAttached(l: Local, i: UpdateInput) {
    match l.s.state
    case Init => SetupWorks(l.s.target, l.s.rtt, l.c, i.init)
    case RttAttach(_) => !l.s.attachRetry.Due(i.time.t1) || WaitsForControlBlock(l.s, i)
    case Run(_) => false
    case Stopped(_) => false
    case Shutdown => false
  }

  predicate LeftRunning(l: Local, i: UpdateInput) {
    match l.s.state
    case Init => false
    case RttAttach(_) =>
      && l.s.attachRetry.Due(i.time.t1)
      && AttachWorks(l.s.target, l.s.rtt, l.c, i.attach)
      && (l.s.responded || i.attach.responseOk)
    case Run(_) => KeepsRunning(l.s, i.time, i.run)
    case Stopped(_) => false
    case Shutdown => false
  }

  /** The session waits for recovery because it could not attach to its core, now or before. */
  predicate LeftLost(l: Local, i: UpdateInput) {
    var recovers := l.s.target.autoRecover;
    match l.s.state
    case Init => recovers && !i.init.coreOk
    case RttAttach(_) => recovers && l.s.attachRetry.Due(i.time.t1) && !i.attach.coreOk
    case Run(_) => recovers && !i.run.coreOk
    case Stopped(reason) =>
      if recovers && l.s.recovery.Due(i.time.t1)
      then !i.recover.coreOk || (!i.recover.statusOk && reason == ByError(CoreAttach))
      else reason == ByError(CoreAttach)
    case Shutdown => false
  }

  lemma LeftIff(l: Local, epoch: nat, i: UpdateInput)
    ensures var s2 := Update(l, epoch, i).s;
            && (s2.state.RttAttach? <==> LeftAttached(l, i))
            && (IsRunning(s2) <==> LeftRunning(l, i))
            && (IsStoppedByCoreAttach(s2) <==> LeftLost(l, i))
  {
    hide Update, SetupWorks, AttachWorks, KeepsRunning;
    LostIff(l, epoch, i);
    UpdateMovesForward(l, epoch, i);
    match l.s.state
    case Init => InitMovesOnIff(l, epoch, i);
    case RttAttach(_) => AttachMovesOnIff(l, epoch, i);
    case Run(_) => RunStaysIff(l, epoch, i);
    case Stopped(_) => StoppedMovesOnIff(l, epoch, i);
    case Shutdown =>
  }

  lemma LostIff(l: Local, epoch: nat, i: UpdateInput)
    ensures IsStoppedByCoreAttach(Update(l, epoch, i).s) <==> LeftLost(l, i)
  {
    hide DoInit, DoRttAttach, DoRun, HandleError, StopCommands, StoppedCore;
    SetupOutcome(l.s.target, l.s.rtt, l.c, l.hw, i.init);
    AttachErrors(l.s.target, l.s.rtt, l.c, l.hw, i.attach);
    RunErrors(l.s, i.time, i.run);
    DoRunKeepsState(l.s, i.time, i.run);
    var o := UpdateInner(l, epoch, i);
    if o.error.Some? {
      FailureStops(o.l, o.error.value, i);
    }
  }

  lemma AttachErrors(target: TargetConfig, rtt: RttConfig, c: Counters, hw: CoreState, i: AttachInput)
    ensures DoRttAttach(target, rtt, c, hw, i).error == Some(CoreAttach) <==> !i.coreOk
  {
  }

  lemma RunErrors(s: Session, time: Readings, i: RunInput)
    ensures DoRun(s, time, i).error == Some(CoreAttach) <==> !i.coreOk
  {
    hide ReadDue, Chunk, AfterReadCheck;
  }

  lemma FailureStops(l: Local, error: Error, i: UpdateInput)
    requires CanStop(l.s)
    ensures var s2 := HandleError(l, error, i).s;
            if l.s.target.autoRecover && error != ClientDisconnected
            then s2.state == Stopped(ByError(error)) else s2.state.Shutdown?
  {
    hide StopCommands, StoppedCore;
  }

  // ----- when an update costs the siblings a count

  /** The setup gets as far as the first counter. */
  predicate ReachesCounters(target: TargetConfig, i: InitInput) {
    i.coreOk && i.status.Some? && (target.reset ==> i.resetOk)
  }

  /** An attach attempt gets as far as the catch. */
  predicate ReachesCatch(rtt: RttConfig, i: AttachInput) {
    && i.coreOk && i.region.Found? && i.upFound && i.modeOk
    && (!rtt.disableControlPlane ==> i.downFound && i.startOk && (rtt.restart ==> i.stopOk))
  }

  /** The control block is missing and the timeout has not passed. */
  predicate WaitsForControlBlock(s: Session, i: UpdateInput)
    requires s.state.RttAttach?
  {
    && i.attach.coreOk && i.attach.region.NotFound? && s.rtt.attachTimeoutMs.Some?
    && DurationSince(i.time.t2, s.state.startedAt) <= s.rtt.attachTimeoutMs.value * MILLISECOND
  }

  /** The session fails before it raised a counter that `n1` (`n2`) others hold. */
  predicate FailsUncounted(l: Local, i: UpdateInput, n1: nat, n2: nat) {
    var early := EnablesCatchEarly(l.s.target);
    match l.s.state
    case Init =>
      if !ReachesCounters(l.s.target, i.init) then n1 > 0 || n2 > 0
      else
        && n2 > 0 && !SetupWorks(l.s.target, l.s.rtt, l.c, i.init)
        && (early ==> l.c.clear == 0 && !(i.init.disableOk && i.init.clearAllOk))
    case RttAttach(_) =>
      && n2 > 0 && !early
      && l.s.attachRetry.Due(i.time.t1)
      && !ReachesCatch(l.s.rtt, i.attach) && !WaitsForControlBlock(l.s, i)
    case Run(_) => false
    case Stopped(_) => false
    case Shutdown => false
  }

  lemma InitRobsIff(l: Local, epoch: nat, i: UpdateInput, n1: nat, n2: nat)
    requires l.s.state.Init?
    ensures UpdateRobs(l, epoch, i, n1, n2) <==> FailsUncounted(l, i, n1, n2)
  {
    hide Update, SetupWorks, RaisedClearCore, RaisedCatchCore, EpilogueCore;
    InitMovesOnIff(l, epoch, i);
    InitTakes(l, i.init);
  }

  /** How far a setup gets before it fails decides which counters it raised. */
  lemma InitTakes(l: Local, i: InitInput)
    ensures var o := DoInit(l.s.target, l.s.rtt, l.c, l.hw, i);
            && (o.tookClear <==> ReachesCounters(l.s.target, i))
            && (o.tookCatch <==>
                  && ReachesCounters(l.s.target, i) && EnablesCatchEarly(l.s.target)
                  && !(l.c.clear == 0 && !(i.disableOk && i.clearAllOk)))
            && (SetupWorks(l.s.target, l.s.rtt, l.c, i) ==> o.tookClear)
  {
    hide RaisedClearCore, RaisedCatchCore, EpilogueCore, InitEpilogueError;
  }

  lemma AttachRobsIff(l: Local, epoch: nat, i: UpdateInput, n1: nat, n2: nat)
    requires l.s.state.RttAttach?
    ensures UpdateRobs(l, epoch, i, n1, n2) <==> FailsUncounted(l, i, n1, n2)
  {
    hide Update, DoRttAttach;
    AttachMovesOnIff(l, epoch, i);
    AttachTakes(l, i.attach);
  }

  lemma AttachTakes(l: Local, i: AttachInput)
    ensures DoRttAttach(l.s.target, l.s.rtt, l.c, l.hw, i).tookCatch
            <==> ReachesCatch(l.s.rtt, i) && !EnablesCatchEarly(l.s.target)
  {
  }

  /** From exact counters an update loses exactness if and only if the session fails before it
      raised a counter that others hold. */
  lemma ExactnessIsLostIff(l: Local, epoch: nat, i: UpdateInput, n1: nat, n2: nat)
    requires Counted(l, n1, n2) && n1 < USIZE_RANGE - 1 && n2 < USIZE_RANGE - 1
    ensures Counted(Update(l, epoch, i), n1, n2) <==> !FailsUncounted(l, i, n1, n2)
  {
    hide Update, Counted, UpdateRobs, FailsUncounted;
    UpdateExactIff(l, epoch, i, n1, n2);
    match l.s.state
    case Init => InitRobsIff(l, epoch, i, n1, n2);
    case RttAttach(_) => AttachRobsIff(l, epoch, i, n1, n2);
    case Run(_) => NoCountNoRob(l, epoch, i, n1, n2);
    case Stopped(_) => NoCountNoRob(l, epoch, i, n1, n2);
    case Shutdown => NoCountNoRob(l, epoch, i, n1, n2);
  }

  /** A running session holds both counts and a stopped one lowers nothing. */
  lemma NoCountNoRob(l: Local, epoch: nat, i: UpdateInput, n1: nat, n2: nat)
    requires l.s.state.Run? || l.s.state.Stopped? || l.s.state.Shutdown?
    ensures !UpdateRobs(l, epoch, i, n1, n2) && !FailsUncounted(l, i, n1, n2)
  {
    hide Update;
  }
}
