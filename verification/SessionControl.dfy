/** What a session asks of its core, and exactly when it leaves the core alone. */
module SessionControl {
  import opened SharedStates
  import opened SessionModel
  import opened SessionProofs
  import opened SessionTiming
  import opened SessionDecisions

  // ----- resets and starts

  /** What initialization asks of the core: a reset if and only if one is configured and the
      core answers; then at most one start, never by a companion, and on success exactly when
      the core was reset or found halted. */
  lemma InitControls(l: Local, epoch: nat, i: UpdateInput)
    requires l.s.state.Init?
    ensures var l2 := Update(l, epoch, i);
            var reset := if i.init.coreOk && i.init.status.Some? && l.s.target.reset then [ResetAndHalt] else [];
            var halted := l.s.target.reset || (i.init.status.Some? && i.init.status.value.Halted?);
            && (l2.hw.control == l.hw.control + reset || l2.hw.control == l.hw.control + reset + [RunCore])
            && (l2.hw.control == l.hw.control + reset + [RunCore] ==> halted && !l.s.target.companion)
            && (l2.s.state.RttAttach? && halted && !l.s.target.companion ==>
                  l2.hw.control == l.hw.control + reset + [RunCore])
  {
    hide StopCommands, DoInit, HandleError;
    DoInitControls(l.s.target, l.s.rtt, l.c, l.hw, i.init);
    var reset := if i.init.coreOk && i.init.status.Some? && l.s.target.reset then [ResetAndHalt] else [];
    assert l.hw.control + reset != l.hw.control + reset + [RunCore];
    var o := UpdateInner(l, epoch, i);
    if o.error.Some? {
      FailureKeepsControl(o.l, o.error.value, i);
      FailureStops(o.l, o.error.value, i);
    }
  }

  lemma DoInitControls(target: TargetConfig, rtt: RttConfig, c: Counters, hw: CoreState, i: InitInput)
    ensures var o := DoInit(target, rtt, c, hw, i);
            var reset := if i.coreOk && i.status.Some? && target.reset then [ResetAndHalt] else [];
            var starts := i.status.Some? && StartsCore(target, i);
            && (o.hw.control == hw.control + reset
                || (starts && o.hw.control == hw.control + reset + [RunCore]))
            && (o.error.None? ==> i.status.Some?)
            && (o.error.None? && starts ==> o.hw.control == hw.control + reset + [RunCore])
  {
    hide RaisedClearCore, RaisedCatchCore, ClearFails, EnableFails;
    var hw0 := PrologueCore(target, hw, i);
    RaisingKeepsControl(c, hw0, i);
    RaisingKeepsControl(RaisedClear(c), RaisedClearCore(c, hw0, i), i);
  }

  lemma RaisingKeepsControl(c: Counters, hw: CoreState, i: InitInput)
    ensures RaisedClearCore(c, hw, i).control == hw.control
    ensures RaisedCatchCore(c, hw, i.enableOk, i.latched).control == hw.control
  {
  }

  /** An error never resets or starts the core. */
  lemma FailureKeepsControl(l: Local, error: Error, i: UpdateInput)
    ensures HandleError(l, error, i).hw.control == l.hw.control
    ensures ShutDown(l, i.stop).hw.control == l.hw.control
  {
    hide StopCommands, StoppedCore;
    StoppedCoreControls(l.s.rtt, l.hw, IsLast(l.c.catches), ByError(error), i.stop);
    StoppedCoreControls(l.s.rtt, l.hw, IsLast(l.c.catches), ByShutdown, i.stop);
  }

  lemma StoppedCoreControls(rtt: RttConfig, hw: CoreState, last: bool, reason: StoppedReason, i: StopInput)
    ensures StoppedCore(rtt, hw, last, reason, i).control
            == hw.control + if i.coreOk && Resumes(reason) then [RunCore] else []
  {
  }

  /** Outside Init the core is left alone, except that a session which stops at its breakpoint or
      at a reset starts it again, if and only if it can reach it. */
  lemma RunControls(l: Local, epoch: nat, i: UpdateInput)
    requires !l.s.state.Init?
    ensures var l2 := Update(l, epoch, i);
            l2.hw.control == l.hw.control +
              if l.s.state.Run? && l2.s.state.Stopped? && Resumes(l2.s.state.reason) && i.stop.coreOk
              then [RunCore] else []
  {
    hide StopCommands, StoppedCore, HandleError, DoRun, DoRttAttach;
    DoRunKeepsState(l.s, i.time, i.run);
    var condition := DoRun(l.s, i.time, i.run).condition;
    StoppedCoreControls(
      l.s.rtt, l.hw, IsLast(l.c.catches),
      if condition.AtBreakpoint? then ByBreakpoint(condition.address) else ByResetCatch, i.stop);
    var o := UpdateInner(l, epoch, i);
    if o.error.Some? {
      FailureKeepsControl(o.l, o.error.value, i);
      FailureStops(o.l, o.error.value, i);
    }
    AttachKeepsControl(l.s.target, l.s.rtt, l.c, l.hw, i.attach);
  }

  lemma AttachKeepsControl(target: TargetConfig, rtt: RttConfig, c: Counters, hw: CoreState, i: AttachInput)
    ensures DoRttAttach(target, rtt, c, hw, i).hw.control == hw.control
  {
  }

  // ----- requests of any kind

  /** How much was asked of a core. */
  function Asks(hw: CoreState): nat {
    |hw.control| + hw.settings
  }

  /** Nothing was asked of the core, and it is as it was. */
  predicate LeftAlone(hw: CoreState, hw2: CoreState) {
    && hw2.control == hw.control && hw2.settings == hw.settings
    && hw2.catchOn == hw.catchOn && hw2.breakpoints == hw.breakpoints
  }

  /** Requests only accumulate, and without one nothing changes. */
  predicate Grows(hw: CoreState, hw2: CoreState) {
    && Asks(hw) <= Asks(hw2)
    && (Asks(hw) == Asks(hw2) <==> LeftAlone(hw, hw2))
  }

  lemma GrowsOn(hw: CoreState, hw1: CoreState, hw2: CoreState)
    requires Grows(hw, hw1) && Grows(hw1, hw2)
    ensures Grows(hw, hw2)
    ensures LeftAlone(hw, hw2) <==> LeftAlone(hw, hw1) && LeftAlone(hw1, hw2)
  {
  }

  /** A stop after a failure, or a shutdown, has something to do on the core. */
  predicate StopReaches(rtt: RttConfig, catches: usize, i: StopInput) {
    i.coreOk && (IsLast(catches) || rtt.stopOnBreakpoint.Some?)
  }

  lemma StopAsks(rtt: RttConfig, hw: CoreState, catches: usize, reason: StoppedReason, i: StopInput)
    ensures var hw2 := StoppedCore(rtt, hw, IsLast(catches), reason, i);
            && Grows(hw, hw2)
            && (LeftAlone(hw, hw2) <==> !StopReaches(rtt, catches, i) && !(i.coreOk && Resumes(reason)))
  {
  }

  lemma ShutDownAsks(l: Local, i: StopInput)
    ensures Grows(l.hw, ShutDown(l, i).hw)
    ensures LeftAlone(l.hw, ShutDown(l, i).hw) <==> !CanStop(l.s) || !StopReaches(l.s.rtt, l.c.catches, i)
  {
    hide StoppedCore, StopCommands, StopReaches;
    StopAsks(l.s.rtt, l.hw, l.c.catches, ByShutdown, i);
  }

  lemma FailureAsks(l: Local, error: Error, i: UpdateInput)
    requires CanStop(l.s)
    ensures var hw2 := HandleError(l, error, i).hw;
            && Grows(l.hw, hw2)
            && (LeftAlone(l.hw, hw2) <==> !StopReaches(l.s.rtt, l.c.catches, i.stop))
  {
    hide StoppedCore, StopCommands, StopReaches, Grows, LeftAlone;
    StopAsks(l.s.rtt, l.hw, l.c.catches, ByError(error), i.stop);
    StopAsks(l.s.rtt, l.hw, l.c.catches, ByShutdown, i.stop);
  }

  // ----- each step

  /** Initialization gets by without asking for anything: no reset, nothing to clear, no catch to
      enable, no start and no breakpoint to set. */
  predicate InitAsksNothing(target: TargetConfig, rtt: RttConfig, c: Counters, i: InitInput) {
    && !(i.coreOk && i.status.Some? && target.reset)
    && (ReachesCounters(target, i) ==>
          && c.clear > 0
          && (EnablesCatchEarly(target) ==> c.catches > 0)
          && !(StartsCore(target, i) && i.registersOk)
          && !SetsBreakpoint(target, rtt, i))
  }

  /** The count of catches when a failed initialization stops. */
  function CatchesAfterInit(target: TargetConfig, c: Counters, i: InitInput): usize {
    if EnablesCatchEarly(target) && ReachesCounters(target, i) then WrappingInc(c.catches) else c.catches
  }

  lemma DoInitAsks(target: TargetConfig, rtt: RttConfig, c: Counters, hw: CoreState, i: InitInput)
    ensures var o := DoInit(target, rtt, c, hw, i);
            && Grows(hw, o.hw)
            && (LeftAlone(hw, o.hw) <==> InitAsksNothing(target, rtt, c, i))
            && (LeftAlone(hw, o.hw) ==> o.c.catches == CatchesAfterInit(target, c, i))
  {
    hide Grows, LeftAlone, RaisedClearCore, RaisedCatchCore, EpilogueCore, PrologueCore, SetsBreakpoint, StartsCore;
    hide InitEpilogueError;
    var hw0 := PrologueCore(target, hw, i);
    PrologueAsks(target, hw, i);
    if ReachesCounters(target, i) {
      var c1, hw1 := RaisedClear(c), RaisedClearCore(c, hw0, i);
      RaisingAsks(c, hw0, i);
      GrowsOn(hw, hw0, hw1);
      if !ClearFails(c, i) {
        var early := EnablesCatchEarly(target);
        var hw2 := if early then RaisedCatchCore(c1, hw1, i.enableOk, i.latched) else hw1;
        RaisingAsks(c1, hw1, i);
        NothingAsked(hw1);
        GrowsOn(hw, hw1, hw2);
        EpilogueAsks(target, rtt, hw2, i);
        GrowsOn(hw, hw2, EpilogueCore(target, rtt, hw2, i));
      }
    }
  }

  lemma NothingAsked(hw: CoreState)
    ensures Grows(hw, hw) && LeftAlone(hw, hw)
  {
  }

  lemma PrologueAsks(target: TargetConfig, hw: CoreState, i: InitInput)
    ensures Grows(hw, PrologueCore(target, hw, i))
    ensures LeftAlone(hw, PrologueCore(target, hw, i)) <==> !(i.coreOk && i.status.Some? && target.reset)
  {
  }

  lemma RaisingAsks(c: Counters, hw: CoreState, i: InitInput)
    ensures Grows(hw, RaisedClearCore(c, hw, i))
    ensures LeftAlone(hw, RaisedClearCore(c, hw, i)) <==> c.clear > 0
    ensures Grows(hw, RaisedCatchCore(c, hw, i.enableOk, i.latched))
    ensures LeftAlone(hw, RaisedCatchCore(c, hw, i.enableOk, i.latched)) <==> c.catches > 0
  {
  }

  lemma EpilogueAsks(target: TargetConfig, rtt: RttConfig, hw: CoreState, i: InitInput)
    requires i.status.Some?
    ensures var hw2 := EpilogueCore(target, rtt, hw, i);
            && Grows(hw, hw2)
            && (LeftAlone(hw, hw2) <==>
                  !(StartsCore(target, i) && i.registersOk) && !SetsBreakpoint(target, rtt, i))
  {
  }

  /** An attach attempt has no catch to enable. */
  predicate AttachAsksNothing(target: TargetConfig, rtt: RttConfig, c: Counters, i: AttachInput) {
    ReachesCatch(rtt, i) && !EnablesCatchEarly(target) ==> c.catches > 0
  }

  function CatchesAfterAttach(target: TargetConfig, rtt: RttConfig, c: Counters, i: AttachInput): usize {
    if ReachesCatch(rtt, i) && !EnablesCatchEarly(target) then WrappingInc(c.catches) else c.catches
  }

  lemma DoRttAttachAsks(target: TargetConfig, rtt: RttConfig, c: Counters, hw: CoreState, i: AttachInput)
    ensures var o := DoRttAttach(target, rtt, c, hw, i);
            && Grows(hw, o.hw)
            && (LeftAlone(hw, o.hw) <==> AttachAsksNothing(target, rtt, c, i))
            && o.c.catches == CatchesAfterAttach(target, rtt, c, i)
  {
  }

  /** An attempt works and the client knows or can be told. */
  predicate Joins(l: Local, i: AttachInput) {
    AttachWorks(l.s.target, l.s.rtt, l.c, i) && (l.s.responded || i.responseOk)
  }

  /** A turn in Run comes to see that the core has left the running state. */
  predicate SeesCondition(s: Session, time: Readings, i: RunInput) {
    && i.coreOk && (ReadDue(s, time.t1) ==> i.read.Some?)
    && !GetsData(s, time, i)
    && s.stopping.Due(time.t2)
    && i.status.Some? && i.status != Some(Running)
    && (i.status.value.Halted? ==> i.registersOk)
  }

  // ----- whole updates

  /** What it takes for an update to leave the core alone. */
  predicate HandsOff(l: Local, i: UpdateInput) {
    var target, rtt := l.s.target, l.s.rtt;
    match l.s.state
    case Init =>
      && InitAsksNothing(target, rtt, l.c, i.init)
      && (|| SetupWorks(target, rtt, l.c, i.init)
          || !StopReaches(rtt, CatchesAfterInit(target, l.c, i.init), i.stop))
    case RttAttach(_) =>
      l.s.attachRetry.Due(i.time.t1) ==>
        && AttachAsksNothing(target, rtt, l.c, i.attach)
        && (|| Joins(l, i.attach)
            || WaitsForControlBlock(l.s, i)
            || !StopReaches(rtt, CatchesAfterAttach(target, rtt, l.c, i.attach), i.stop))
    case Run(_) =>
      || KeepsRunning(l.s, i.time, i.run)
      || !(StopReaches(rtt, l.c.catches, i.stop) || (i.stop.coreOk && SeesCondition(l.s, i.time, i.run)))
    case Stopped(_) => true
    case Shutdown => true
  }

  /** An update leaves the core alone if and only if it keeps its hands off. */
  lemma HandsOffIff(l: Local, epoch: nat, i: UpdateInput)
    ensures Grows(l.hw, Update(l, epoch, i).hw)
    ensures LeftAlone(l.hw, Update(l, epoch, i).hw) <==> HandsOff(l, i)
  {
    hide Update, HandsOff;
    match l.s.state
    case Init => InitHandsOff(l, epoch, i);
    case RttAttach(_) => AttachHandsOff(l, epoch, i);
    case Run(_) => RunHandsOff(l, epoch, i);
    case Stopped(_) => StoppedHandsOff(l, epoch, i);
    case Shutdown => StoppedHandsOff(l, epoch, i);
  }

  lemma StoppedHandsOff(l: Local, epoch: nat, i: UpdateInput)
    requires !CanStop(l.s)
    ensures Update(l, epoch, i).hw == l.hw && HandsOff(l, i)
  {
  }

  lemma InitHandsOff(l: Local, epoch: nat, i: UpdateInput)
    requires l.s.state.Init?
    ensures Grows(l.hw, Update(l, epoch, i).hw)
    ensures LeftAlone(l.hw, Update(l, epoch, i).hw) <==> HandsOff(l, i)
  {
    hide DoInit, HandleError, Grows, LeftAlone, SetupWorks, StopReaches, InitAsksNothing, CatchesAfterInit;
    DoInitAsks(l.s.target, l.s.rtt, l.c, l.hw, i.init);
    SetupOutcome(l.s.target, l.s.rtt, l.c, l.hw, i.init);
    var o := UpdateInner(l, epoch, i);
    if o.error.Some? {
      FailureAsks(o.l, o.error.value, i);
      GrowsOn(l.hw, o.l.hw, HandleError(o.l, o.error.value, i).hw);
    }
  }

  lemma AttachHandsOff(l: Local, epoch: nat, i: UpdateInput)
    requires l.s.state.RttAttach?
    ensures Grows(l.hw, Update(l, epoch, i).hw)
    ensures LeftAlone(l.hw, Update(l, epoch, i).hw) <==> HandsOff(l, i)
  {
    hide DoRttAttach, HandleError, Grows, LeftAlone, AttachWorks, StopReaches, AttachAsksNothing, CatchesAfterAttach;
    NothingAsked(l.hw);
    DoRttAttachAsks(l.s.target, l.s.rtt, l.c, l.hw, i.attach);
    AttachOutcomeIs(l.s.target, l.s.rtt, l.c, l.hw, i.attach);
    var o := UpdateInner(l, epoch, i);
    if o.error.Some? {
      FailureAsks(o.l, o.error.value, i);
      GrowsOn(l.hw, o.l.hw, HandleError(o.l, o.error.value, i).hw);
    }
  }

  lemma RunHandsOff(l: Local, epoch: nat, i: UpdateInput)
    requires l.s.state.Run?
    ensures Grows(l.hw, Update(l, epoch, i).hw)
    ensures LeftAlone(l.hw, Update(l, epoch, i).hw) <==> HandsOff(l, i)
  {
    hide DoRun, HandleError, StoppedCore, StopCommands, Grows, LeftAlone, StopReaches, KeepsRunning, SeesCondition;
    NothingAsked(l.hw);
    RunOutcomeIs(l.s, i.time, i.run);
    RunEnds(l.s, i.time, i.run);
    DoRunKeepsState(l.s, i.time, i.run);
    var o := DoRun(l.s, i.time, i.run);
    if o.error.Some? {
      FailureAsks(l.(s := o.s), o.error.value, i);
    } else if o.condition.AtBreakpoint? {
      StopAsks(l.s.rtt, l.hw, l.c.catches, ByBreakpoint(o.condition.address), i.stop);
    } else {
      StopAsks(l.s.rtt, l.hw, l.c.catches, ByResetCatch, i.stop);
    }
  }

  lemma RunEnds(s: Session, time: Readings, i: RunInput)
    ensures var o := DoRun(s, time, i);
            && (!o.condition.NotReached? <==> SeesCondition(s, time, i))
            && (o.error.Some? ==> o.condition.NotReached?)
  {
    ChunkIsFront(s.rtt, if i.read.Some? then i.read.value else []);
  }

  // ----- companions

  /** A companion is documented to drive none of its core's control functionality. This is what
      it takes: no reset is configured, its bootloader has cleared the core and holds the catch,
      it arms no breakpoint of its own, and it does not come to a stop which has to switch the
      catch off, remove a breakpoint or start the core again. */
  predicate CompanionHandsOff(l: Local, i: UpdateInput) {
    var rtt := l.s.rtt;
    match l.s.state
    case Init =>
      if !ReachesCounters(l.s.target, i.init) then
        !(i.init.coreOk && i.init.status.Some? && l.s.target.reset) && !StopReaches(rtt, l.c.catches, i.stop)
      else
        && !l.s.target.reset && l.c.clear > 0 && l.c.catches > 0
        && (i.init.statusAfter == Some(Running) ==> rtt.stopOnBreakpoint.None? || !i.init.unitsOk)
        && (i.init.statusAfter != Some(Running) || rtt.stopOnBreakpoint.Some? ==>
              !StopReaches(rtt, WrappingInc(l.c.catches), i.stop))
    case RttAttach(_) =>
      || !l.s.attachRetry.Due(i.time.t1)
      || Joins(l, i.attach)
      || WaitsForControlBlock(l.s, i)
      || !StopReaches(rtt, l.c.catches, i.stop)
    case Run(_) =>
      || KeepsRunning(l.s, i.time, i.run)
      || !(StopReaches(rtt, l.c.catches, i.stop) || (i.stop.coreOk && SeesCondition(l.s, i.time, i.run)))
    case Stopped(_) => true
    case Shutdown => true
  }

  lemma CompanionHandsOffIff(l: Local, epoch: nat, i: UpdateInput)
    requires l.s.target.companion
    ensures LeftAlone(l.hw, Update(l, epoch, i).hw) <==> CompanionHandsOff(l, i)
  {
    hide Update, LeftAlone, Grows, Joins, KeepsRunning, SeesCondition, StopReaches;
    HandsOffIff(l, epoch, i);
  }

  /** In particular it does reset its core if that is configured, and never starts it during
      initialization. */
  lemma CompanionResetsIfAsked(l: Local, epoch: nat, i: UpdateInput)
    requires l.s.state.Init? && l.s.target.companion && i.init.coreOk && i.init.status.Some?
    ensures Update(l, epoch, i).hw.control
            == l.hw.control + if l.s.target.reset then [ResetAndHalt] else []
  {
    InitControls(l, epoch, i);
  }

  // ----- whole lives

  function CoreAfter(s: Session, call: Call): CoreState {
    match call
    case UpdateCall(c, hw, epoch, i) => Update(Local(s, c, hw), epoch, i).hw
    case ShutDownCall(c, hw, i) => ShutDown(Local(s, c, hw), i).hw
  }

  predicate CallHandsOff(s: Session, call: Call) {
    match call
    case UpdateCall(c, hw, _, i) => HandsOff(Local(s, c, hw), i)
    case ShutDownCall(c, _, i) => CanStop(s) ==> !StopReaches(s.rtt, c.catches, i)
  }

  /** How much a session asks of its core over a life, whatever others ask of it in between. */
  function LifeAsks(s: Session, calls: seq<Call>): int {
    if calls == [] then 0
    else
      var first, last := calls[..|calls| - 1], calls[|calls| - 1];
      LifeAsks(s, first) + Asks(CoreAfter(Life(s, first), last)) - Asks(last.hw)
  }

  lemma CallHandsOffIff(s: Session, call: Call)
    ensures Grows(call.hw, CoreAfter(s, call))
    ensures LeftAlone(call.hw, CoreAfter(s, call)) <==> CallHandsOff(s, call)
  {
    hide Update, ShutDown, HandsOff, Grows, LeftAlone, StopReaches;
    match call
    case UpdateCall(c, hw, epoch, i) => HandsOffIff(Local(s, c, hw), epoch, i);
    case ShutDownCall(c, hw, i) => ShutDownAsks(Local(s, c, hw), i);
  }

  /** Over a whole life a session asks nothing of its core if and only if every single call keeps
      its hands off; and then every call left the core as it found it. */
  lemma {:induction false} LifeHandsOffIff(s: Session, calls: seq<Call>)
    ensures LifeAsks(s, calls) >= 0
    ensures LifeAsks(s, calls) == 0 <==>
              forall k :: 0 <= k < |calls| ==> CallHandsOff(Life(s, calls[..k]), calls[k])
    ensures LifeAsks(s, calls) == 0 ==>
              forall k :: 0 <= k < |calls| ==> LeftAlone(calls[k].hw, CoreAfter(Life(s, calls[..k]), calls[k]))
  {
    hide Life, CallHandsOff, CoreAfter;
    if calls != [] {
      var first, last := calls[..|calls| - 1], calls[|calls| - 1];
      LifeHandsOffIff(s, first);
      CallHandsOffIff(Life(s, first), last);
      assert forall k :: 0 <= k < |first| ==> first[..k] == calls[..k] && first[k] == calls[k];
      assert calls[..|first|] == first;
    }
  }

  /** The same for a companion, in the terms of its own guard. */
  lemma CompanionLifeHandsOffIff(s: Session, calls: seq<Call>)
    requires s.target.companion
    ensures LifeAsks(s, calls) == 0 <==>
              forall k :: 0 <= k < |calls| ==>
                match calls[k]
                case UpdateCall(c, hw, _, i) => CompanionHandsOff(Local(Life(s, calls[..k]), c, hw), i)
                case ShutDownCall(c, _, i) =>
                  CanStop(Life(s, calls[..k])) ==> !StopReaches(s.rtt, c.catches, i)
  {
    hide Life, HandsOff, CompanionHandsOff, StopReaches, LifeAsks, CoreAfter, LeftAlone, Grows, Update;
    LifeHandsOffIff(s, calls);
    forall k | 0 <= k < |calls|
      ensures SameIdentity(s, Life(s, calls[..k]))
      ensures calls[k].UpdateCall? ==>
                var l := Local(Life(s, calls[..k]), calls[k].c, calls[k].hw);
                HandsOff(l, calls[k].i) <==> CompanionHandsOff(l, calls[k].i)
    {
      LifeKeepsIdentity(s, calls[..k]);
      if calls[k].UpdateCall? {
        var l := Local(Life(s, calls[..k]), calls[k].c, calls[k].hw);
        HandsOffIff(l, calls[k].epoch, calls[k].i);
        CompanionHandsOffIff(l, calls[k].epoch, calls[k].i);
      }
    }
  }
}
