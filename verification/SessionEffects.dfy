/** What a session says, writes and leaves behind in each kind of step: which error a failure
    reports, when a Stop is written, what is gone after a stop, and what a fresh Run begins with. */
module SessionEffects {
  import opened Clock
  import opened RateLimiters
  import opened SharedStates
  import opened SessionModel
  import opened SessionProofs
  import opened SessionTiming
  import opened SessionDecisions
  import opened SessionControl

  // ----- stopping

  /** A Stop is written exactly by a running session with a down channel, when the core can be
      reached and the write works; nothing else is written on stopping or shutting down. */
  lemma StopIsWrittenIff(l: Local, reason: StoppedReason, i: StopInput)
    requires CanStop(l.s)
    ensures var running := l.s.state.Run? && l.s.state.handles.hasDownChannel;
            var written := if running && i.coreOk && i.commandOk then [StopTracing] else [];
            && Stop(l, reason, i).s.log.cmds == l.s.log.cmds + written
            && ShutDown(l, i).s.log.cmds == l.s.log.cmds + written
  {
    hide StoppedCore;
  }

  /** After a stop that reached the core, of all breakpoints exactly the session's own is gone, if
      clearing it worked; a stop that cannot reach the core leaves all of them. */
  lemma StopDisarmsIff(l: Local, reason: StoppedReason, i: StopInput, address: nat)
    requires CanStop(l.s)
    ensures address in Stop(l, reason, i).hw.breakpoints <==>
              && address in l.hw.breakpoints
              && !(i.coreOk && i.clearOk && l.s.rtt.stopOnBreakpoint == Some(address))
    ensures ShutDown(l, i).hw.breakpoints == Stop(l, ByShutdown, i).hw.breakpoints
  {
    hide StopCommands;
  }

  /** The catch goes off exactly when the counter says that this was its last holder, the core can
      be reached and it obeys. */
  lemma StopSwitchesCatchOffIff(l: Local, reason: StoppedReason, i: StopInput)
    requires CanStop(l.s)
    ensures Stop(l, reason, i).hw.catchOn <==>
              l.hw.catchOn && !(l.c.catches <= 1 && i.coreOk && i.disableOk)
    ensures ShutDown(l, i).hw.catchOn == Stop(l, ByShutdown, i).hw.catchOn
  {
    hide StopCommands;
  }

  // ----- which error a failure reports

  /** The setup gets the core as far as its second look at the status. */
  predicate GetsCoreGoing(target: TargetConfig, c: Counters, i: InitInput) {
    && ReachesCounters(target, i)
    && (c.clear == 0 ==> i.disableOk && i.clearAllOk)
    && (EnablesCatchEarly(target) && c.catches == 0 ==> i.enableOk)
    && (!target.companion && (target.reset || i.status.value.Halted?) ==> i.registersOk && i.runOk)
  }

  lemma SetupErrorIs(target: TargetConfig, rtt: RttConfig, c: Counters, hw: CoreState, i: InitInput)
    ensures var error, going := DoInit(target, rtt, c, hw, i).error, GetsCoreGoing(target, c, i);
            && (error.None? <==> SetupWorks(target, rtt, c, i))
            && (error == Some(CoreAttach) <==> !i.coreOk)
            && (error == Some(CoreStatusFailed) <==>
                  i.coreOk && (i.status.None? || (going && i.statusAfter.None?)))
            && (error == Some(CoreNotRunning(target.core)) <==>
                  going && i.statusAfter.Some? && i.statusAfter != Some(Running))
            && (error == Some(ProbeFailed) <==>
                  && i.coreOk && i.status.Some?
                  && (!going || (i.statusAfter == Some(Running) && !SetupWorks(target, rtt, c, i))))
  {
    hide RaisedClearCore, RaisedCatchCore, EpilogueCore;
  }

  lemma AttachErrorIs(target: TargetConfig, rtt: RttConfig, c: Counters, hw: CoreState, i: AttachInput)
    ensures var error := DoRttAttach(target, rtt, c, hw, i).error;
            var found := i.coreOk && i.region.Found?;
            && (error.None? <==> AttachWorks(target, rtt, c, i))
            && (error == Some(CoreAttach) <==> !i.coreOk)
            && (error == Some(ControlBlockNotFound) <==> i.coreOk && i.region.NotFound?)
            && (error == Some(UpChannelInvalid(rtt.upChannel)) <==> found && !i.upFound)
            && (error == Some(DownChannelInvalid(rtt.downChannel)) <==>
                  found && i.upFound && i.modeOk && !rtt.disableControlPlane && !i.downFound)
            && (error == Some(ProbeFailed) <==> ReachesCatch(rtt, i) && !AttachWorks(target, rtt, c, i))
            && (error == Some(OtherRtt) <==>
                  && i.coreOk && !ReachesCatch(rtt, i)
                  && (i.region.RegionError? ||
                      (i.region.Found? && i.upFound &&
                       (!i.modeOk || (!rtt.disableControlPlane && i.downFound)))))
  {
    hide RaisedCatchCore;
  }

  lemma RunErrorIs(s: Session, time: Readings, i: RunInput)
    ensures var error := DoRun(s, time, i).error;
            var noData := i.coreOk && (ReadDue(s, time.t1) ==> i.read == Some([]));
            && (error == Some(CoreAttach) <==> !i.coreOk)
            && (error == Some(OtherRtt) <==> i.coreOk && ReadDue(s, time.t1) && i.read.None?)
            && (error == Some(ClientDisconnected) <==> i.coreOk && GetsData(s, time, i) && !i.writeOk)
            && (error == Some(CoreStatusFailed) <==> noData && s.stopping.Due(time.t2) && i.status.None?)
            && (error == Some(ProbeFailed) <==>
                  && noData && s.stopping.Due(time.t2)
                  && i.status.Some? && i.status.value.Halted? && !i.registersOk)
            && (error.Some? ==>
                  error.value in {CoreAttach, OtherRtt, ClientDisconnected, CoreStatusFailed, ProbeFailed})
  {
    ChunkIsFront(s.rtt, if i.read.Some? then i.read.value else []);
  }

  /** What a session with this failure becomes, and what its client is told: a session that may
      recover waits with the error as its reason; any other is shut down, and a client that has no
      answer yet is told the error, if that can be written. */
  predicate Reports(s: Session, s2: Session, error: Error, told: bool) {
    if s.target.autoRecover && error != ClientDisconnected then
      s2.state == Stopped(ByError(error)) && s2.log.out == s.log.out && s2.responded == s.responded
    else
      && s2.state.Shutdown? && s2.responded
      && s2.log.out == s.log.out + (if !s.responded && told then [Failed(error)] else [])
  }

  lemma FailedSetupReports(l: Local, epoch: nat, i: UpdateInput)
    requires l.s.state.Init?
    ensures var error := DoInit(l.s.target, l.s.rtt, l.c, l.hw, i.init).error;
            error.Some? ==> Reports(l.s, Update(l, epoch, i).s, error.value, i.errorResponseOk)
  {
    hide DoInit, HandleError;
    var o := UpdateInner(l, epoch, i);
    if o.error.Some? {
      FailureEnds(o.l, o.error.value, i);
    }
  }

  /** An attempt that failed for good, or whose success the client cannot be told. */
  lemma FailedAttachReports(l: Local, epoch: nat, i: UpdateInput)
    requires l.s.state.RttAttach? && l.s.attachRetry.Due(i.time.t1)
    ensures var error := DoRttAttach(l.s.target, l.s.rtt, l.c, l.hw, i.attach).error;
            var s2 := Update(l, epoch, i).s;
            && (error.Some? && !WaitsForControlBlock(l.s, i) ==> Reports(l.s, s2, error.value, i.errorResponseOk))
            && (error.None? && !l.s.responded && !i.attach.responseOk ==>
                  Reports(l.s, s2, ResponseJson, i.errorResponseOk))
            && (s2.state.Run? ==> s2.log.out == l.s.log.out + if l.s.responded then [] else [Started(l.s.id)])
  {
    hide DoRttAttach, HandleError;
    AttachOutcomeIs(l.s.target, l.s.rtt, l.c, l.hw, i.attach);
    var o := UpdateInner(l, epoch, i);
    if o.error.Some? {
      FailureEnds(o.l, o.error.value, i);
    }
  }

  lemma FailedRunReports(l: Local, epoch: nat, i: UpdateInput)
    requires l.s.state.Run?
    ensures var o := DoRun(l.s, i.time, i.run);
            o.error.Some? ==>
              && Reports(l.s.(log := o.s.log), Update(l, epoch, i).s, o.error.value, i.errorResponseOk)
              && (o.error != Some(ClientDisconnected) ==> o.s.log.out == l.s.log.out)
  {
    hide DoRun, HandleError;
    DoRunKeepsState(l.s, i.time, i.run);
    RunErrorIs(l.s, i.time, i.run);
    RunOutcomeIs(l.s, i.time, i.run);
    FailuresSayNothing(l.s, i.time, i.run);
    var o := UpdateInner(l, epoch, i);
    if o.error.Some? {
      FailureEnds(o.l, o.error.value, i);
    }
  }

  lemma FailuresSayNothing(s: Session, time: Readings, i: RunInput)
    ensures var o := DoRun(s, time, i);
            && o.s.responded == s.responded
            && (o.error.Some? && o.error != Some(ClientDisconnected) ==> o.s.log.out == s.log.out)
  {
    hide ReadDue, Chunk, HaltCondition;
  }

  // ----- a stopping condition

  /** `a` is the low part of the program counter, 32 bits of a 32-bit register, otherwise 64. */
  predicate IsAddress(a: nat, pc: RegisterValue) {
    match pc
    case U32(v) => a < 0x1_0000_0000 && (v - a) % 0x1_0000_0000 == 0
    case U64(v) => a < 0x1_0000_0000_0000_0000 && (v - a) % 0x1_0000_0000_0000_0000 == 0
    case U128(v) => a < 0x1_0000_0000_0000_0000 && (v - a) % 0x1_0000_0000_0000_0000 == 0
  }

  lemma AddressIs(a: nat, pc: RegisterValue)
    ensures Address(pc) == a <==> IsAddress(a, pc)
  {
    match pc
    case U32(v) => LowPart(v, a, 0x1_0000_0000);
    case U64(v) => LowPart(v, a, 0x1_0000_0000_0000_0000);
    case U128(v) => LowPart(v, a, 0x1_0000_0000_0000_0000);
  }

  lemma LowPart(v: nat, a: nat, width: nat)
    requires width > 0
    ensures v % width == a <==> a < width && (v - a) % width == 0
  {
    var q, r := v / width, v % width;
    assert v == q * width + r;
    if a < width && (v - a) % width == 0 {
      var q2 := (v - a) / width;
      assert v == q2 * width + a;
      SameQuotient(width, q, r, q2, a);
    } else if r == a {
      assert v - a == q * width;
      SameQuotient(width, (v - a) / width, (v - a) % width, q, 0);
    }
  }

  lemma SameQuotient(width: nat, q: int, r: nat, q2: int, r2: nat)
    requires width > 0 && r < width && r2 < width && q * width + r == q2 * width + r2
    ensures q == q2 && r == r2
  {
    assert (q + 1) * width == q * width + width && (q2 + 1) * width == q2 * width + width;
    MultiplesGrow(q + 1, q2, width);
    MultiplesGrow(q2 + 1, q, width);
  }

  /** A session stops because of its core exactly when this turn sees that the core has left the
      running state: at the address of a breakpoint halt, or else for a reset. */
  lemma StoppingConditionIs(l: Local, epoch: nat, i: UpdateInput, a: nat)
    requires l.s.state.Run?
    ensures var s2 := Update(l, epoch, i).s;
            var sees := SeesCondition(l.s, i.time, i.run);
            var atBreakpoint := i.run.status == Some(Halted(BreakpointHalt));
            && (s2.state == Stopped(ByBreakpoint(a)) <==> sees && atBreakpoint && IsAddress(a, i.run.pc))
            && (s2.state == Stopped(ByResetCatch) <==> sees && !atBreakpoint)
            && (sees ==> s2.log.out == l.s.log.out && s2.responded == l.s.responded)
  {
    hide DoRun, HandleError, StopCommands, StoppedCore, SeesCondition, IsAddress, Address;
    AddressIs(a, i.run.pc);
    ConditionIs(l.s, i.time, i.run);
    DoRunKeepsState(l.s, i.time, i.run);
    var o := UpdateInner(l, epoch, i);
    if o.error.Some? {
      FailureEnds(o.l, o.error.value, i);
    }
  }

  lemma ConditionIs(s: Session, time: Readings, i: RunInput)
    ensures var o := DoRun(s, time, i);
            && (SeesCondition(s, time, i) <==> o.error.None? && !o.condition.NotReached?)
            && (SeesCondition(s, time, i) ==>
                  && o.s.log.out == s.log.out && o.s.responded == s.responded
                  && o.condition == if i.status == Some(Halted(BreakpointHalt))
                                    then AtBreakpoint(Address(i.pc)) else AtResetCatch)
  {
    hide Address;
    ChunkIsFront(s.rtt, if i.read.Some? then i.read.value else []);
  }

  // ----- what Run begins with

  /** When a session enters Run it reads at the short interval, and its first read, its first look
      for a stopping condition and its first look for recovery are due at once. */
  lemma RunBeginsDue(l: Local, epoch: nat, i: UpdateInput, later: Time)
    requires l.s.state.RttAttach? && Update(l, epoch, i).s.state.Run? && Ordered(i.time) && i.time.t5 <= later
    ensures var s2 := Update(l, epoch, i).s;
            && s2.poll.Due(later) && s2.idle.Due(later) && s2.stopping.Due(later) && s2.recovery.Due(later)
            && ReadDue(s2, later)
            && s2.lastReadHadData == l.s.lastReadHadData
            && s2.log.runs == l.s.log.runs + 1 && s2.log.openers == l.s.log.openers + [s2.log.opener]
            && s2.log.pollReads == s2.log.idleReads == s2.log.statusChecks == 0 && s2.log.runStart == i.time.t5
  {
    hide DoRttAttach, HandleError;
    var o := UpdateInner(l, epoch, i);
    if o.error.Some? {
      FailureEnds(o.l, o.error.value, i);
    }
  }

  /** A session that stops goes back to the short interval for its next Run. */
  lemma StopForgetsIdling(l: Local, reason: StoppedReason, i: StopInput)
    requires CanStop(l.s)
    ensures Stop(l, reason, i).s.lastReadHadData && Stop(l, reason, i).s.log.recoveryChecks == 0
    ensures Stop(l, reason, i).s.state == Stopped(reason)
    ensures Stop(l, reason, i).c == Counters(if l.c.clear == 0 then 0 else l.c.clear - 1,
                                             if l.c.catches == 0 then 0 else l.c.catches - 1)
  {
    hide StopCommands, StoppedCore;
  }

  // ----- every Run episode that is left has its Stop

  /** Every episode but the one that still runs was ended with a Stop. */
  predicate LeftAreStopped(s: Session) {
    && (s.state.Run? ==> s.log.openers != [] && s.log.openers[|s.log.openers| - 1] == s.log.opener)
    && (!s.rtt.disableControlPlane ==>
          forall k :: 0 <= k < |s.log.openers| && !(s.state.Run? && k == |s.log.openers| - 1) ==>
            ByStopOf(s.log.openers[k]) in s.log.writers)
  }

  /** Whatever stop this call comes to reaches the core and can write. */
  predicate CanTakeLeave(call: Call) {
    match call
    case UpdateCall(_, _, _, i) => i.stop.coreOk && i.stop.commandOk
    case ShutDownCall(_, _, i) => i.coreOk && i.commandOk
  }

  lemma StopIsLeaving(l: Local, reason: StoppedReason, i: StopInput)
    requires LeftAreStopped(l.s) && CommandsHold(l.s) && i.coreOk && i.commandOk
    ensures LeftAreStopped(Stop(l, reason, i).s) && LeftAreStopped(ShutDown(l, i).s)
  {
    hide StoppedCore, CommandGrammar, Linked, EndsWithStart, LastIsBy;
    if CanStop(l.s) && StopCommands(l.s, i) != [] {
      assert seq(1, k => ByStopOf(l.s.log.opener))[0] == ByStopOf(l.s.log.opener);
    }
  }

  lemma FailureIsLeaving(l: Local, error: Error, i: UpdateInput)
    requires LeftAreStopped(l.s) && CommandsHold(l.s) && i.stop.coreOk && i.stop.commandOk
    ensures LeftAreStopped(HandleError(l, error, i).s)
  {
    hide Stop, ShutDown, CommandGrammar, Linked, EndsWithStart, LastIsBy;
    StopIsLeaving(l, ByError(error), i.stop);
    var s1 :=
      if l.s.responded then l.s
      else
        l.s.(responded := true,
             log := if i.errorResponseOk then l.s.log.(out := l.s.log.out + [Failed(error)]) else l.s.log);
    StopIsLeaving(l.(s := s1), ByShutdown, i.stop);
  }

  lemma DoRunKeepsEpisodes(s: Session, time: Readings, i: RunInput)
    ensures var s2 := DoRun(s, time, i).s;
            && s2.state == s.state && s2.rtt == s.rtt
            && s2.log.openers == s.log.openers && s2.log.opener == s.log.opener
            && s2.log.cmds == s.log.cmds && s2.log.writers == s.log.writers && s2.log.tries == s.log.tries
  {
    hide ReadDue, Chunk, HaltCondition, DataEvent, Prefix;
  }

  lemma RunIsLeaving(l: Local, i: UpdateInput)
    requires LeftAreStopped(l.s) && CommandsHold(l.s) && l.s.state.Run? && i.stop.coreOk && i.stop.commandOk
    ensures var o := InnerRun(l, i);
            LeftAreStopped(o.l.s) && (o.error.Some? ==> CommandsHold(o.l.s))
  {
    hide DoRun, Stop, CommandGrammar, Linked, EndsWithStart, LastIsBy;
    DoRunKeepsEpisodes(l.s, i.time, i.run);
    var run := DoRun(l.s, i.time, i.run);
    StopIsLeaving(l.(s := run.s), ByResetCatch, i.stop);
    if run.condition.AtBreakpoint? {
      StopIsLeaving(l.(s := run.s), ByBreakpoint(run.condition.address), i.stop);
    }
  }

  /** Attaching leaves earlier Stops where they are, and opens at most one more episode. */
  lemma AttachIsLeaving(l: Local, epoch: nat, i: UpdateInput)
    requires LeftAreStopped(l.s) && l.s.state.RttAttach?
    ensures LeftAreStopped(InnerAttach(l, epoch, i).l.s)
  {
    hide DoRttAttach, RetriesAttach;
  }

  lemma UpdateIsLeaving(l: Local, epoch: nat, i: UpdateInput)
    requires LeftAreStopped(l.s) && Sound(l.s) && i.stop.coreOk && i.stop.commandOk
    ensures LeftAreStopped(Update(l, epoch, i).s)
  {
    hide InnerAttach, InnerRun, DoInit, HandleError, Sound, CommandsHold, GrammarHolds, FidelityHolds;
    SoundCommands(l.s);
    match l.s.state {
      case Init => InnerInitIsSound(l, i);
      case RttAttach(_) => AttachIsLeaving(l, epoch, i); InnerAttachIsSound(l, epoch, i);
      case Run(_) => RunIsLeaving(l, i);
      case Stopped(_) =>
      case Shutdown =>
    }
    var o := UpdateInner(l, epoch, i);
    if o.error.Some? {
      FailureIsLeaving(o.l, o.error.value, i);
    }
  }

  lemma SoundCommands(s: Session)
    requires Sound(s)
    ensures CommandsHold(s)
  {
  }

  lemma {:induction false} LifeIsLeaving(s: Session, calls: seq<Call>)
    requires LeftAreStopped(s) && Sound(s) && forall k :: 0 <= k < |calls| ==> CanTakeLeave(calls[k])
    ensures LeftAreStopped(Life(s, calls)) && Sound(Life(s, calls))
  {
    hide Sound, LeftAreStopped, Update, ShutDown;
    LifeIsSound(s, calls);
    if calls != [] {
      var first := calls[..|calls| - 1];
      LifeIsLeaving(s, first);
      assert CanTakeLeave(calls[|first|]);
      match calls[|first|]
      case UpdateCall(c, hw, epoch, i) => UpdateIsLeaving(Local(Life(s, first), c, hw), epoch, i);
      case ShutDownCall(c, hw, i) =>
        SoundCommands(Life(s, first));
        StopIsLeaving(Local(Life(s, first), c, hw), ByShutdown, i);
    }
  }

  /** If every stop reaches the core and can write, then every Run episode that has been left ended
      with a Stop: right after the Start that its attempt wrote comes the Stop of that episode. */
  lemma EveryEpisodeIsStopped(id: SessionId, target: TargetConfig, rtt: RttConfig, born: Time, calls: seq<Call>, k: nat)
    returns (at: nat)
    requires !rtt.disableControlPlane && forall j :: 0 <= j < |calls| ==> CanTakeLeave(calls[j])
    requires var s := Life(NewSession(id, target, rtt, born), calls);
             k < |s.log.openers| && !(s.state.Run? && k == |s.log.openers| - 1)
    ensures var log := Life(NewSession(id, target, rtt, born), calls).log;
            && 0 < at < |log.cmds| == |log.writers|
            && log.cmds[at] == StopTracing && log.writers[at] == ByStopOf(log.openers[k])
            && log.cmds[at - 1] == StartTracing && log.writers[at - 1] == ByAttempt(log.openers[k])
  {
    hide Life, Sound, LeftAreStopped, Linked;
    var s0 := NewSession(id, target, rtt, born);
    NewSessionIsSound(id, target, rtt, born);
    NothingLeftYet(s0);
    LifeIsLeaving(s0, calls);
    LifeKeepsIdentity(s0, calls);
    at := WhereStopped(Life(s0, calls), k);
  }

  lemma NothingLeftYet(s: Session)
    requires s.log.openers == [] && s.state.Init?
    ensures LeftAreStopped(s)
  {
  }

  lemma WhereStopped(s: Session, k: nat) returns (at: nat)
    requires LeftAreStopped(s) && Sound(s) && !s.rtt.disableControlPlane
    requires k < |s.log.openers| && !(s.state.Run? && k == |s.log.openers| - 1)
    ensures var log := s.log;
            && 0 < at < |log.cmds| == |log.writers|
            && log.cmds[at] == StopTracing && log.writers[at] == ByStopOf(log.openers[k])
            && log.cmds[at - 1] == StartTracing && log.writers[at - 1] == ByAttempt(log.openers[k])
  {
    hide CommandGrammar, GrammarHolds, FidelityHolds;
    assert ByStopOf(s.log.openers[k]) in s.log.writers;
    at :| 0 <= at < |s.log.writers| && s.log.writers[at] == ByStopOf(s.log.openers[k]);
    assert FollowsItsStart(s.log.cmds, s.log.writers, at);
  }

  // ----- what a setup leaves in the core

  /** Exactly which catch and which breakpoints an initialization leaves, however far it got. */
  lemma SetupLeaves(target: TargetConfig, rtt: RttConfig, c: Counters, hw: CoreState, i: InitInput, address: nat)
    ensures var hw2 := DoInit(target, rtt, c, hw, i).hw;
            var clears := ReachesCounters(target, i) && c.clear == 0 && i.disableOk;
            var goesOn := ReachesCounters(target, i) && (c.clear == 0 ==> i.disableOk && i.clearAllOk);
            var enables := goesOn && EnablesCatchEarly(target) && c.catches == 0 && (i.enableOk || i.latched);
            var going := GetsCoreGoing(target, c, i) && i.statusAfter == Some(Running);
            && (hw2.catchOn <==> (hw.catchOn && !clears) || enables)
            && (address in hw2.breakpoints <==>
                  || (address in hw.breakpoints && !(clears && i.clearAllOk))
                  || (going && rtt.stopOnBreakpoint == Some(address) && i.unitsOk && i.setBreakpointOk))
  {
    hide RaisedClearCore, RaisedCatchCore, PrologueCore, EpilogueCore, InitEpilogueError;
    var hw0 := PrologueCore(target, hw, i);
    PrologueLeaves(target, hw, i);
    var hw1 := RaisedClearCore(c, hw0, i);
    RaisingLeaves(c, hw0, i);
    RaisingLeaves(RaisedClear(c), hw1, i);
    if i.status.Some? {
      EpilogueLeaves(target, rtt, hw1, i, address);
      EpilogueLeaves(target, rtt, RaisedCatchCore(RaisedClear(c), hw1, i.enableOk, i.latched), i, address);
    }
  }

  lemma PrologueLeaves(target: TargetConfig, hw: CoreState, i: InitInput)
    ensures var hw2 := PrologueCore(target, hw, i);
            hw2.catchOn == hw.catchOn && hw2.breakpoints == hw.breakpoints
  {
  }

  lemma RaisingLeaves(c: Counters, hw: CoreState, i: InitInput)
    ensures var hw2 := RaisedClearCore(c, hw, i);
            && (hw2.catchOn <==> hw.catchOn && !(c.clear == 0 && i.disableOk))
            && hw2.breakpoints == if c.clear == 0 && i.disableOk && i.clearAllOk then {} else hw.breakpoints
    ensures var hw2 := RaisedCatchCore(c, hw, i.enableOk, i.latched);
            && (hw2.catchOn <==> hw.catchOn || (c.catches == 0 && (i.enableOk || i.latched)))
            && hw2.breakpoints == hw.breakpoints
  {
  }

  lemma EpilogueLeaves(target: TargetConfig, rtt: RttConfig, hw: CoreState, i: InitInput, address: nat)
    requires i.status.Some?
    ensures var hw2 := EpilogueCore(target, rtt, hw, i);
            var going := (StartsCore(target, i) ==> i.registersOk && i.runOk) && i.statusAfter == Some(Running);
            && hw2.catchOn == hw.catchOn
            && (address in hw2.breakpoints <==>
                  || address in hw.breakpoints
                  || (going && rtt.stopOnBreakpoint == Some(address) && i.unitsOk && i.setBreakpointOk))
  {
  }

  /** An attach attempt that gets that far enables the catch if nobody holds it, and touches no
      breakpoint. */
  lemma AttachLeaves(target: TargetConfig, rtt: RttConfig, c: Counters, hw: CoreState, i: AttachInput)
    ensures var hw2 := DoRttAttach(target, rtt, c, hw, i).hw;
            var enables := ReachesCatch(rtt, i) && !EnablesCatchEarly(target) && c.catches == 0;
            && (hw2.catchOn <==> hw.catchOn || (enables && (i.enableOk || i.latched)))
            && hw2.breakpoints == hw.breakpoints
  {
  }

  // ----- what a turn in Run moves

  /** The size of the host buffer: as configured, but 1024 bytes if that is less than 64. */
  function HostBuffer(rtt: RttConfig): nat {
    if rtt.readBufferSize >= 64 then rtt.readBufferSize else 1024
  }

  /** A turn that reads takes from the front of what is waiting as much as fits into the host buffer,
      and hands exactly that to the client, or the part of it that a failing write got through. */
  lemma TurnMoves(l: Local, epoch: nat, i: UpdateInput)
    requires l.s.state.Run?
    ensures var s2 := Update(l, epoch, i).s;
            if i.run.coreOk && GetsData(l.s, i.time, i.run) then
              var waiting := i.run.read.value;
              var front := waiting[..if |waiting| < HostBuffer(l.s.rtt) then |waiting| else HostBuffer(l.s.rtt)];
              && s2.log.chunks == l.s.log.chunks + [front]
              && (i.run.writeOk ==> s2.log.out == l.s.log.out + [Data(front)])
              && (!i.run.writeOk && 0 < i.run.written <= |front| ==>
                    s2.log.out[..|l.s.log.out| + 1] == l.s.log.out + [Data(front[..i.run.written])])
            else s2.log.chunks == l.s.log.chunks
  {
    hide DoRun, HandleError, StopCommands, StoppedCore;
    DoRunKeepsState(l.s, i.time, i.run);
    DoRunMoves(l.s, i.time, i.run);
    RunStaysIff(l, epoch, i);
    RunOutcomeIs(l.s, i.time, i.run);
    var o := UpdateInner(l, epoch, i);
    if o.error.Some? {
      FailureEnds(o.l, o.error.value, i);
    }
  }

  lemma DoRunMoves(s: Session, time: Readings, i: RunInput)
    ensures i.coreOk && GetsData(s, time, i) ==>
              var o := DoRun(s, time, i);
              var waiting := i.read.value;
              var front := waiting[..if |waiting| < HostBuffer(s.rtt) then |waiting| else HostBuffer(s.rtt)];
              && o.s.log.chunks == s.log.chunks + [front]
              && o.condition.NotReached?
              && (i.writeOk ==> o.error.None? && o.s.log.out == s.log.out + [Data(front)])
              && (!i.writeOk ==> o.error == Some(ClientDisconnected))
              && (!i.writeOk && 0 < i.written <= |front| ==>
                    o.s.log.out == s.log.out + [Data(front[..i.written])])
  {
    hide Chunk;
    if i.read.Some? {
      ChunkIsWhatFits(s.rtt, i.read.value);
      WrittenPart(Chunk(s.rtt, i.read.value), i.written);
    }
  }

  lemma ChunkIsWhatFits(rtt: RttConfig, waiting: seq<byte>)
    ensures HostBuffer(rtt) >= 64
    ensures Chunk(rtt, waiting) == waiting[..if |waiting| < HostBuffer(rtt) then |waiting| else HostBuffer(rtt)]
  {
    assert waiting[..|waiting|] == waiting;
  }

  lemma WrittenPart(bytes: seq<byte>, n: nat)
    ensures 0 < n <= |bytes| ==> DataEvent(Prefix(bytes, n)) == [Data(bytes[..n])]
    ensures bytes != [] ==> DataEvent(bytes) == [Data(bytes)]
  {
    assert bytes[..|bytes|] == bytes;
  }

  // ----- pace

  /** The five intervals of a session, in nanoseconds. */
  predicate KeepsPace(s: Session) {
    && s.poll.limit == (if s.rtt.pollIntervalMs == 0 then 1 else s.rtt.pollIntervalMs) * 1_000_000
    && s.idle.limit == (if s.rtt.idlePollIntervalMs == 0 then 1 else s.rtt.idlePollIntervalMs) * 1_000_000
    && s.attachRetry.limit == 20_000_000
    && s.stopping.limit == 50_000_000
    && s.recovery.limit == 50_000_000
  }

  /** Outside Run a session is set to read at the short interval. */
  predicate ReadyToRead(s: Session) {
    !s.state.Run? ==> s.lastReadHadData
  }

  lemma StopKeepsPace(l: Local, reason: StoppedReason, i: StopInput)
    requires KeepsPace(l.s) && (CanStop(l.s) || ReadyToRead(l.s))
    ensures KeepsPace(Stop(l, reason, i).s) && ReadyToRead(Stop(l, reason, i).s)
    ensures KeepsPace(ShutDown(l, i).s) && ReadyToRead(ShutDown(l, i).s)
  {
    hide StopCommands, StoppedCore;
  }

  lemma FailureKeepsPace(l: Local, error: Error, i: UpdateInput)
    requires KeepsPace(l.s) && CanStop(l.s)
    ensures KeepsPace(HandleError(l, error, i).s) && ReadyToRead(HandleError(l, error, i).s)
  {
    hide Stop, ShutDown;
    StopKeepsPace(l, ByError(error), i.stop);
    var s1 :=
      if l.s.responded then l.s
      else
        l.s.(responded := true,
             log := if i.errorResponseOk then l.s.log.(out := l.s.log.out + [Failed(error)]) else l.s.log);
    StopKeepsPace(l.(s := s1), ByShutdown, i.stop);
  }

  lemma DoRunKeepsPace(s: Session, time: Readings, i: RunInput)
    requires KeepsPace(s)
    ensures KeepsPace(DoRun(s, time, i).s) && DoRun(s, time, i).s.state == s.state
  {
    hide ReadDue, Chunk, HaltCondition, DataEvent, Prefix;
  }

  lemma InnerKeepsPace(l: Local, epoch: nat, i: UpdateInput)
    requires KeepsPace(l.s) && ReadyToRead(l.s)
    ensures var o := UpdateInner(l, epoch, i);
            && KeepsPace(o.l.s)
            && (if o.error.Some? then CanStop(o.l.s) else ReadyToRead(o.l.s))
  {
    hide DoInit, DoRttAttach, DoRun, Stop, RetriesAttach;
    DoRunKeepsPace(l.s, i.time, i.run);
    var run := DoRun(l.s, i.time, i.run);
    if l.s.state.Run? {
      StopKeepsPace(l.(s := run.s), ByResetCatch, i.stop);
      if run.condition.AtBreakpoint? {
        StopKeepsPace(l.(s := run.s), ByBreakpoint(run.condition.address), i.stop);
      }
    }
  }

  lemma UpdateKeepsPace(l: Local, epoch: nat, i: UpdateInput)
    requires KeepsPace(l.s) && ReadyToRead(l.s)
    ensures KeepsPace(Update(l, epoch, i).s) && ReadyToRead(Update(l, epoch, i).s)
  {
    hide UpdateInner, HandleError;
    InnerKeepsPace(l, epoch, i);
    var o := UpdateInner(l, epoch, i);
    if o.error.Some? {
      FailureKeepsPace(o.l, o.error.value, i);
    }
  }

  /** Over every life a session keeps the intervals it was configured with, and comes back to Run
      ready to read at the short one. */
  lemma {:induction false} LifeKeepsPace(
    id: SessionId, target: TargetConfig, rtt: RttConfig, born: Time, calls: seq<Call>)
    ensures var s := Life(NewSession(id, target, rtt, born), calls);
            KeepsPace(s) && ReadyToRead(s)
  {
    hide Update, ShutDown, KeepsPace, ReadyToRead;
    if calls == [] {
      NewKeepsPace(id, target, rtt, born);
    } else {
      var first := calls[..|calls| - 1];
      LifeKeepsPace(id, target, rtt, born, first);
      var s := Life(NewSession(id, target, rtt, born), first);
      match calls[|first|]
      case UpdateCall(c, hw, epoch, i) => UpdateKeepsPace(Local(s, c, hw), epoch, i);
      case ShutDownCall(c, hw, i) => StopKeepsPace(Local(s, c, hw), ByShutdown, i);
    }
  }

  /** A new session has said and written nothing, and none of its clocks keeps it waiting. */
  lemma NewKeepsPace(id: SessionId, target: TargetConfig, rtt: RttConfig, born: Time)
    ensures var s := NewSession(id, target, rtt, born);
            && KeepsPace(s) && ReadyToRead(s) && s.state.Init? && !s.responded
            && s.id == id && s.target == target && s.rtt == rtt && s.log.out == [] && s.log.cmds == []
            && forall later :: later >= born ==>
                 && s.poll.Due(later) && s.idle.Due(later) && s.attachRetry.Due(later)
                 && s.stopping.Due(later) && s.recovery.Due(later)
  {
  }

  /** The pace is exact: of a session that keeps its intervals, an attempt, a read, a look for a
      stopping condition and a look for recovery are due again exactly when the interval has passed
      since the last one, and whatever was not due leaves its clock alone. */
  lemma PaceIsExact(l: Local, epoch: nat, i: UpdateInput, later: Time)
    requires KeepsPace(l.s) && Ordered(i.time) && i.time.t5 <= later
    ensures var s2 := Update(l, epoch, i).s;
            && (l.s.state.RttAttach? && s2.state.RttAttach? ==>
                  (s2.attachRetry.Due(later) <==>
                     if l.s.attachRetry.Due(i.time.t1) then later >= i.time.t1 + 20_000_000
                     else l.s.attachRetry.Due(later)))
            && (l.s.state.Stopped? && l.s.target.autoRecover ==>
                  (s2.recovery.Due(later) <==>
                     if l.s.recovery.Due(i.time.t1) then later >= i.time.t1 + 50_000_000
                     else l.s.recovery.Due(later)))
            && (l.s.state.Run? && s2.state.Run? ==>
                  && (s2.poll.Due(later) <==>
                        if l.s.lastReadHadData && l.s.poll.Due(i.time.t1) then later >= i.time.t1 + l.s.poll.limit
                        else l.s.poll.Due(later))
                  && (s2.idle.Due(later) <==>
                        if !l.s.lastReadHadData && l.s.idle.Due(i.time.t1) then later >= i.time.t1 + l.s.idle.limit
                        else l.s.idle.Due(later))
                  && (s2.stopping.Due(later) <==>
                        if !GetsData(l.s, i.time, i.run) && l.s.stopping.Due(i.time.t2)
                        then later >= i.time.t2 + 50_000_000 else l.s.stopping.Due(later))
                  && (s2.lastReadHadData <==>
                        if ReadDue(l.s, i.time.t1) then GetsData(l.s, i.time, i.run) else l.s.lastReadHadData))
  {
    hide DoInit, DoRttAttach, DoRun, HandleError, Stop;
    RunPaceIsExact(l.s, i.time, i.run, later);
    DoRunKeepsState(l.s, i.time, i.run);
    var o := UpdateInner(l, epoch, i);
    if o.error.Some? {
      FailureEnds(o.l, o.error.value, i);
    }
    if l.s.state.Run? {
      RunStaysIff(l, epoch, i);
      RunOutcomeIs(l.s, i.time, i.run);
    }
  }

  /** Every attempt, every read and every look at the core is counted, and nothing else is. */
  lemma TurnsAreCounted(l: Local, epoch: nat, i: UpdateInput)
    ensures var s, s2 := l.s, Update(l, epoch, i).s;
            var tries := s.state.RttAttach? && s.attachRetry.Due(i.time.t1);
            var fetches := s.state.Run? && i.run.coreOk && ReadDue(s, i.time.t1);
            var looks := && s.state.Run? && i.run.coreOk && s.stopping.Due(i.time.t2)
                         && (ReadDue(s, i.time.t1) ==> i.run.read == Some([]));
            && s2.log.tries == s.log.tries + (if tries then 1 else 0)
            && (s.state.RttAttach? ==> s2.log.attempts == s.log.attempts + (if tries then 1 else 0))
            && (s.state.Run? ==>
                  && s2.log.pollReads == s.log.pollReads + (if fetches && s.lastReadHadData then 1 else 0)
                  && s2.log.idleReads == s.log.idleReads + (if fetches && !s.lastReadHadData then 1 else 0)
                  && s2.log.statusChecks == s.log.statusChecks + (if looks then 1 else 0))
  {
    hide UpdateInner, HandleError;
    InnerIsCounted(l, epoch, i);
    var o := UpdateInner(l, epoch, i);
    if o.error.Some? {
      FailureCountsNothing(o.l, o.error.value, i);
    }
  }

  lemma InnerIsCounted(l: Local, epoch: nat, i: UpdateInput)
    ensures var s, s2 := l.s, UpdateInner(l, epoch, i).l.s;
            var tries := s.state.RttAttach? && s.attachRetry.Due(i.time.t1);
            var fetches := s.state.Run? && i.run.coreOk && ReadDue(s, i.time.t1);
            var looks := && s.state.Run? && i.run.coreOk && s.stopping.Due(i.time.t2)
                         && (ReadDue(s, i.time.t1) ==> i.run.read == Some([]));
            && s2.log.tries == s.log.tries + (if tries then 1 else 0)
            && (s.state.RttAttach? ==> s2.log.attempts == s.log.attempts + (if tries then 1 else 0))
            && (s.state.Run? ==>
                  && s2.log.pollReads == s.log.pollReads + (if fetches && s.lastReadHadData then 1 else 0)
                  && s2.log.idleReads == s.log.idleReads + (if fetches && !s.lastReadHadData then 1 else 0)
                  && s2.log.statusChecks == s.log.statusChecks + (if looks then 1 else 0))
  {
    hide DoInit, DoRttAttach, DoRun, Stop, RetriesAttach, ReadDue;
    if l.s.state.Run? {
      RunIsCounted(l.s, i.time, i.run);
      var run := DoRun(l.s, i.time, i.run);
      StopCountsNothing(l.(s := run.s), ByResetCatch, i.stop);
      if run.condition.AtBreakpoint? {
        StopCountsNothing(l.(s := run.s), ByBreakpoint(run.condition.address), i.stop);
      }
    }
  }

  predicate SameCounts(log: Log, log2: Log) {
    && log2.tries == log.tries && log2.attempts == log.attempts && log2.statusChecks == log.statusChecks
    && log2.pollReads == log.pollReads && log2.idleReads == log.idleReads
  }

  lemma StopCountsNothing(l: Local, reason: StoppedReason, i: StopInput)
    ensures SameCounts(l.s.log, Stop(l, reason, i).s.log) && SameCounts(l.s.log, ShutDown(l, i).s.log)
  {
    hide StopCommands, StoppedCore;
  }

  lemma FailureCountsNothing(l: Local, error: Error, i: UpdateInput)
    ensures SameCounts(l.s.log, HandleError(l, error, i).s.log)
  {
    hide StopCommands, StoppedCore;
  }

  lemma RunIsCounted(s: Session, time: Readings, i: RunInput)
    ensures var s2 := DoRun(s, time, i).s;
            var fetches := i.coreOk && ReadDue(s, time.t1);
            var looks := && i.coreOk && s.stopping.Due(time.t2) && (ReadDue(s, time.t1) ==> i.read == Some([]));
            && s2.log.tries == s.log.tries && s2.log.attempts == s.log.attempts
            && s2.log.pollReads == s.log.pollReads + (if fetches && s.lastReadHadData then 1 else 0)
            && s2.log.idleReads == s.log.idleReads + (if fetches && !s.lastReadHadData then 1 else 0)
            && s2.log.statusChecks == s.log.statusChecks + (if looks then 1 else 0)
  {
    ChunkIsFront(s.rtt, if i.read.Some? then i.read.value else []);
  }

  /** Clocks that a step does not ask are left alone: a setup restarts that of the attempts if it
      works, attempts move no other before Run is entered, and a turn in Run moves neither that of
      the attempts nor that of the recovery. */
  lemma OtherClocksKeep(l: Local, epoch: nat, i: UpdateInput)
    ensures var s, s2 := l.s, Update(l, epoch, i).s;
            && (!s2.state.Run? && !s.state.Run? ==>
                  s2.poll == s.poll && s2.idle == s.idle && s2.stopping == s.stopping)
            && (!s2.state.Run? && !s.state.Stopped? ==> s2.recovery == s.recovery)
            && (s.state.Init? && !s2.state.RttAttach? ==> s2.attachRetry == s.attachRetry)
            && (s.state.Run? ==> s2.attachRetry == s.attachRetry && s2.recovery == s.recovery)
  {
    hide DoInit, DoRttAttach, DoRun, HandleError, Stop, RetriesAttach;
    DoRunKeepsClocks(l.s, i.time, i.run);
    var run := DoRun(l.s, i.time, i.run);
    StopKeepsClocks(l.(s := run.s), ByResetCatch, i.stop);
    if run.condition.AtBreakpoint? {
      StopKeepsClocks(l.(s := run.s), ByBreakpoint(run.condition.address), i.stop);
    }
    var o := UpdateInner(l, epoch, i);
    if o.error.Some? {
      FailureKeepsClocks(o.l, o.error.value, i);
    }
  }

  predicate SameClocks(s: Session, s2: Session) {
    && s2.poll == s.poll && s2.idle == s.idle && s2.stopping == s.stopping
    && s2.recovery == s.recovery && s2.attachRetry == s.attachRetry
  }

  lemma StopKeepsClocks(l: Local, reason: StoppedReason, i: StopInput)
    ensures SameClocks(l.s, Stop(l, reason, i).s) && SameClocks(l.s, ShutDown(l, i).s)
  {
    hide StopCommands, StoppedCore;
  }

  lemma FailureKeepsClocks(l: Local, error: Error, i: UpdateInput)
    ensures SameClocks(l.s, HandleError(l, error, i).s)
  {
    hide StopCommands, StoppedCore;
  }

  lemma DoRunKeepsClocks(s: Session, time: Readings, i: RunInput)
    ensures var s2 := DoRun(s, time, i).s;
            s2.state == s.state && s2.attachRetry == s.attachRetry && s2.recovery == s.recovery
  {
    hide ReadDue, Chunk, HaltCondition, DataEvent, Prefix;
  }

  lemma RunPaceIsExact(s: Session, time: Readings, i: RunInput, later: Time)
    requires KeepsPace(s) && Ordered(time) && time.t5 <= later
    ensures KeepsRunning(s, time, i) ==>
              var s2 := DoRun(s, time, i).s;
              && (s2.poll.Due(later) <==>
                    if s.lastReadHadData && s.poll.Due(time.t1) then later >= time.t1 + s.poll.limit
                    else s.poll.Due(later))
              && (s2.idle.Due(later) <==>
                    if !s.lastReadHadData && s.idle.Due(time.t1) then later >= time.t1 + s.idle.limit
                    else s.idle.Due(later))
              && (s2.stopping.Due(later) <==>
                    if !GetsData(s, time, i) && s.stopping.Due(time.t2)
                    then later >= time.t2 + 50_000_000 else s.stopping.Due(later))
              && (s2.lastReadHadData <==>
                    if ReadDue(s, time.t1) then GetsData(s, time, i) else s.lastReadHadData)
  {
    ChunkIsFront(s.rtt, if i.read.Some? then i.read.value else []);
  }
}
