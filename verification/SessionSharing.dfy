/** What one session does to the counters and the core it shares with the other sessions on
    that core: `n1` and `n2` stand for the number of those others that hold each counter. */
module SessionSharing {
  import opened SharedStates
  import opened SessionModel
  import opened SessionTiming

  function Bit(b: bool): nat {
    if b then 1 else 0
  }

  // ----- the one-sided bound, on every run

  /** The counters never exceed the number of holders, and a catch that is on has a holder
      unless switching it off was tried and failed. */
  predicate Shares(l: Local, n1: nat, n2: nat) {
    && l.c.clear <= n1 + Bit(HoldsClear(l.s))
    && l.c.catches <= n2 + Bit(HoldsCatch(l.s))
    && (l.hw.catchOn ==> l.hw.orphaned || n2 > 0 || HoldsCatch(l.s))
  }

  /** In the middle of a failing update the session counts at most once on either counter. */
  predicate SharesAtMostOnce(l: Local, n1: nat, n2: nat) {
    CanStop(l.s) && l.c.clear <= n1 + 1 && l.c.catches <= n2 + 1
  }

  lemma StopReleases(l: Local, reason: StoppedReason, i: StopInput, n1: nat, n2: nat)
    requires SharesAtMostOnce(l, n1, n2)
    ensures Shares(Stop(l, reason, i), n1, n2)
    ensures Shares(ShutDown(l, i), n1, n2)
  {
    hide StopCommands;
  }

  lemma ShutDownReleases(l: Local, i: StopInput, n1: nat, n2: nat)
    requires Shares(l, n1, n2)
    ensures Shares(ShutDown(l, i), n1, n2)
  {
    hide Stop;
    if CanStop(l.s) {
      StopReleases(l, ByShutdown, i, n1, n2);
    } else {
      ShutDownOfStopped(l, i);
    }
  }

  lemma ShutDownOfStopped(l: Local, i: StopInput)
    requires !CanStop(l.s)
    ensures ShutDown(l, i) == l.(s := l.s.(state := Shutdown))
  {
  }

  lemma InitShares(l: Local, i: UpdateInput, n1: nat, n2: nat)
    requires Shares(l, n1, n2) && l.s.state.Init?
    ensures var o := InnerInit(l, i);
            if o.error.Some? then SharesAtMostOnce(o.l, n1, n2) else Shares(o.l, n1, n2)
  {
    hide InitPrologueError, InitEpilogueError;
  }

  lemma AttachShares(l: Local, epoch: nat, i: UpdateInput, n1: nat, n2: nat)
    requires Shares(l, n1, n2) && l.s.state.RttAttach?
    ensures var o := InnerAttach(l, epoch, i);
            if o.error.Some? then SharesAtMostOnce(o.l, n1, n2) else Shares(o.l, n1, n2)
  {
    hide AttachPrologueError, AttachCommands;
    assert l.c.catches <= n2 + 1;
    AttachOnlyRetriesUncounted(l.s, l.c, l.hw, i.attach);
  }

  /** The one error that is retried comes before the counter is touched. */
  lemma AttachOnlyRetriesUncounted(s: Session, c: Counters, hw: CoreState, i: AttachInput)
    ensures var o := DoRttAttach(s.target, s.rtt, c, hw, i);
            o.error == Some(ControlBlockNotFound) ==> o.c == c && o.hw == hw && o.cmds == []
  {
  }

  lemma RunShares(l: Local, i: UpdateInput, n1: nat, n2: nat)
    requires Shares(l, n1, n2) && l.s.state.Run?
    ensures var o := InnerRun(l, i);
            if o.error.Some? then SharesAtMostOnce(o.l, n1, n2) else Shares(o.l, n1, n2)
  {
    hide DoRun, Stop;
    DoRunKeepsState(l.s, i.time, i.run);
    var o := DoRun(l.s, i.time, i.run);
    match o.condition
    case NotReached =>
    case AtBreakpoint(address) => StopReleases(l.(s := o.s), ByBreakpoint(address), i.stop, n1, n2);
    case AtResetCatch => StopReleases(l.(s := o.s), ByResetCatch, i.stop, n1, n2);
  }

  lemma HandleErrorReleases(l: Local, error: Error, i: UpdateInput, n1: nat, n2: nat)
    requires SharesAtMostOnce(l, n1, n2)
    ensures Shares(HandleError(l, error, i), n1, n2)
  {
    hide Stop, ShutDown;
    StopReleases(l, ByError(error), i.stop, n1, n2);
    var s1 :=
      if l.s.responded then l.s
      else
        l.s.(responded := true,
             log := if i.errorResponseOk then l.s.log.(out := l.s.log.out + [Failed(error)]) else l.s.log);
    StopReleases(l.(s := s1), ByShutdown, i.stop, n1, n2);
  }

  lemma UpdateShares(l: Local, epoch: nat, i: UpdateInput, n1: nat, n2: nat)
    requires Shares(l, n1, n2)
    ensures Shares(Update(l, epoch, i), n1, n2)
  {
    hide InnerInit, InnerAttach, InnerRun, HandleError;
    if CanStop(l.s) {
      match l.s.state {
        case Init => InitShares(l, i, n1, n2);
        case RttAttach(_) => AttachShares(l, epoch, i, n1, n2);
        case Run(_) => RunShares(l, i, n1, n2);
      }
      var o := UpdateInner(l, epoch, i);
      if o.error.Some? {
        HandleErrorReleases(o.l, o.error.value, i, n1, n2);
      }
    }
  }

  // ----- exactness, and exactly when it is lost

  /** Which counters the session holds when this update reaches the point of stopping. */
  function HeldAtStop(l: Local, i: UpdateInput): (bool, bool) {
    match l.s.state
    case Init =>
      var o := DoInit(l.s.target, l.s.rtt, l.c, l.hw, i.init);
      (o.tookClear, o.tookCatch)
    case RttAttach(_) =>
      (true,
       || EnablesCatchEarly(l.s.target)
       || DoRttAttach(l.s.target, l.s.rtt, l.c, l.hw, i.attach).tookCatch)
    case Run(_) => (true, true)
    case Stopped(_) => (false, false)
    case Shutdown => (false, false)
  }

  /** A stop takes a count away from the others if it decrements a counter they hold and this
      session does not. */
  predicate TakesFromOthers(held: (bool, bool), n1: nat, n2: nat) {
    (!held.0 && n1 > 0) || (!held.1 && n2 > 0)
  }

  predicate UpdateRobs(l: Local, epoch: nat, i: UpdateInput, n1: nat, n2: nat) {
    CanStop(l.s) && !CanStop(Update(l, epoch, i).s) && TakesFromOthers(HeldAtStop(l, i), n1, n2)
  }

  predicate ShutDownRobs(s: Session, n1: nat, n2: nat) {
    CanStop(s) && TakesFromOthers((HoldsClear(s), HoldsCatch(s)), n1, n2)
  }

  /** Both counters are the exact number of holders. */
  predicate Counted(l: Local, n1: nat, n2: nat) {
    && l.c.clear == n1 + Bit(HoldsClear(l.s))
    && l.c.catches == n2 + Bit(HoldsCatch(l.s))
  }

  /** The catch is on while somebody holds it. */
  predicate CatchKept(l: Local, n2: nat) {
    n2 > 0 || HoldsCatch(l.s) ==> l.hw.catchOn
  }

  /** The same in the middle of a failing update. */
  predicate InFlight(l: Local, held: (bool, bool), n1: nat, n2: nat) {
    CanStop(l.s) && l.c.clear == n1 + Bit(held.0) && l.c.catches == n2 + Bit(held.1)
  }

  lemma StopCounts(l: Local, reason: StoppedReason, i: StopInput, held: (bool, bool), n1: nat, n2: nat)
    requires InFlight(l, held, n1, n2)
    ensures Counted(Stop(l, reason, i), n1, n2) <==> !TakesFromOthers(held, n1, n2)
    ensures Counted(ShutDown(l, i), n1, n2) <==> !TakesFromOthers(held, n1, n2)
    ensures (n2 > 0 ==> l.hw.catchOn) && !TakesFromOthers(held, n1, n2) ==>
              CatchKept(Stop(l, reason, i), n2) && CatchKept(ShutDown(l, i), n2)
    ensures !CanStop(Stop(l, reason, i).s) && !CanStop(ShutDown(l, i).s)
  {
    hide StopCommands;
  }

  /** Shutting a session down leaves the counters exact if and only if it does not rob others. */
  lemma ShutDownExactIff(l: Local, i: StopInput, n1: nat, n2: nat)
    requires Counted(l, n1, n2)
    ensures Counted(ShutDown(l, i), n1, n2) <==> !ShutDownRobs(l.s, n1, n2)
    ensures CatchKept(l, n2) && !ShutDownRobs(l.s, n1, n2) ==> CatchKept(ShutDown(l, i), n2)
  {
    hide Stop;
    if CanStop(l.s) {
      StopCounts(l, ByShutdown, i, (HoldsClear(l.s), HoldsCatch(l.s)), n1, n2);
    } else {
      ShutDownOfStopped(l, i);
    }
  }

  lemma InitCounts(l: Local, i: UpdateInput, n1: nat, n2: nat)
    requires Counted(l, n1, n2) && l.s.state.Init? && n1 < USIZE_RANGE - 1 && n2 < USIZE_RANGE - 1
    ensures var o := InnerInit(l, i);
            if o.error.Some? then InFlight(o.l, HeldAtStop(l, i), n1, n2) else Counted(o.l, n1, n2)
    ensures n2 <= n1 && CatchKept(l, n2) ==>
              var o := InnerInit(l, i);
              if o.error.Some? then n2 > 0 ==> o.l.hw.catchOn else CatchKept(o.l, n2)
  {
    hide InitPrologueError, InitEpilogueError;
  }

  lemma AttachCounts(l: Local, epoch: nat, i: UpdateInput, n1: nat, n2: nat)
    requires Counted(l, n1, n2) && l.s.state.RttAttach? && n2 < USIZE_RANGE - 1
    ensures var o := InnerAttach(l, epoch, i);
            if o.error.Some? then InFlight(o.l, HeldAtStop(l, i), n1, n2) else Counted(o.l, n1, n2)
    ensures CatchKept(l, n2) ==>
              var o := InnerAttach(l, epoch, i);
              if o.error.Some? then n2 > 0 ==> o.l.hw.catchOn else CatchKept(o.l, n2)
  {
    hide AttachPrologueError, AttachCommands;
    AttachOnlyRetriesUncounted(l.s, l.c, l.hw, i.attach);
  }

  lemma RunCounts(l: Local, i: UpdateInput, n1: nat, n2: nat)
    requires Counted(l, n1, n2) && l.s.state.Run?
    ensures var o := InnerRun(l, i);
            if o.error.Some? then InFlight(o.l, (true, true), n1, n2) else Counted(o.l, n1, n2)
    ensures CatchKept(l, n2) ==>
              var o := InnerRun(l, i);
              if o.error.Some? then n2 > 0 ==> o.l.hw.catchOn else CatchKept(o.l, n2)
  {
    hide DoRun, Stop;
    DoRunKeepsState(l.s, i.time, i.run);
    var o := DoRun(l.s, i.time, i.run);
    match o.condition
    case NotReached =>
    case AtBreakpoint(address) =>
      StopCounts(l.(s := o.s), ByBreakpoint(address), i.stop, (true, true), n1, n2);
    case AtResetCatch =>
      StopCounts(l.(s := o.s), ByResetCatch, i.stop, (true, true), n1, n2);
  }

  lemma HandleErrorCounts(l: Local, error: Error, i: UpdateInput, held: (bool, bool), n1: nat, n2: nat)
    requires InFlight(l, held, n1, n2)
    ensures var l2 := HandleError(l, error, i);
            && !CanStop(l2.s)
            && (Counted(l2, n1, n2) <==> !TakesFromOthers(held, n1, n2))
            && ((n2 > 0 ==> l.hw.catchOn) && !TakesFromOthers(held, n1, n2) ==> CatchKept(l2, n2))
  {
    hide Stop, ShutDown;
    StopCounts(l, ByError(error), i.stop, held, n1, n2);
    var s1 :=
      if l.s.responded then l.s
      else
        l.s.(responded := true,
             log := if i.errorResponseOk then l.s.log.(out := l.s.log.out + [Failed(error)]) else l.s.log);
    StopCounts(l.(s := s1), ByShutdown, i.stop, held, n1, n2);
  }

  /** An update leaves exact counters exact if and only if it does not end in a stop that takes
      a count from others; and then a catch somebody holds stays on. */
  lemma UpdateExactIff(l: Local, epoch: nat, i: UpdateInput, n1: nat, n2: nat)
    requires Counted(l, n1, n2) && n1 < USIZE_RANGE - 1 && n2 < USIZE_RANGE - 1
    ensures Counted(Update(l, epoch, i), n1, n2) <==> !UpdateRobs(l, epoch, i, n1, n2)
    ensures n2 <= n1 && CatchKept(l, n2) && !UpdateRobs(l, epoch, i, n1, n2) ==>
              CatchKept(Update(l, epoch, i), n2)
  {
    hide InnerInit, InnerAttach, InnerRun, HandleError;
    if CanStop(l.s) {
      match l.s.state {
        case Init => InitCounts(l, i, n1, n2);
        case RttAttach(_) => AttachCounts(l, epoch, i, n1, n2);
        case Run(_) => RunCounts(l, i, n1, n2);
      }
      var o := UpdateInner(l, epoch, i);
      if o.error.Some? {
        HandleErrorCounts(o.l, o.error.value, i, HeldAtStop(l, i), n1, n2);
      } else {
        OnlyRunStopsWithoutError(l, epoch, i);
      }
    }
  }

  lemma OnlyRunStopsWithoutError(l: Local, epoch: nat, i: UpdateInput)
    requires CanStop(l.s) && UpdateInner(l, epoch, i).error.None?
    ensures !CanStop(UpdateInner(l, epoch, i).l.s) ==> l.s.state.Run?
  {
    hide DoInit, DoRttAttach, DoRun;
  }

  /** Counting is not exact on every run: with one other session running, a session that fails
      to reach the core before it raised anything takes both of the other's counts. */
  lemma CountsCanBeTaken(s: Session, hw: CoreState, epoch: nat, i: UpdateInput)
    requires s.state.Init? && !i.init.coreOk
    ensures var l := Local(s, Counters(1, 1), hw);
            Counted(l, 1, 1) && Update(l, epoch, i).c == Counters(0, 0)
  {
    hide StopCommands, StoppedCore;
  }

  // ----- breakpoints of siblings

  lemma StopSparesOthers(l: Local, reason: StoppedReason, i: StopInput, address: nat)
    requires address in l.hw.breakpoints && l.s.rtt.stopOnBreakpoint != Some(address)
    ensures address in Stop(l, reason, i).hw.breakpoints && address in ShutDown(l, i).hw.breakpoints
  {
    hide StopCommands;
  }

  lemma DoInitSparesOthers(l: Local, i: InitInput, address: nat)
    requires l.c.clear > 0 && address in l.hw.breakpoints
    ensures address in DoInit(l.s.target, l.s.rtt, l.c, l.hw, i).hw.breakpoints
  {
    hide InitPrologueError, InitEpilogueError, SetsBreakpoint, StartsCore;
  }

  lemma DoRttAttachSparesOthers(l: Local, i: AttachInput, address: nat)
    requires address in l.hw.breakpoints
    ensures address in DoRttAttach(l.s.target, l.s.rtt, l.c, l.hw, i).hw.breakpoints
  {
    hide AttachPrologueError, AttachCommands;
  }

  lemma InnerSparesOthers(l: Local, epoch: nat, i: UpdateInput, address: nat)
    requires l.c.clear > 0
    requires address in l.hw.breakpoints && l.s.rtt.stopOnBreakpoint != Some(address)
    ensures address in UpdateInner(l, epoch, i).l.hw.breakpoints
    ensures UpdateInner(l, epoch, i).l.s.rtt == l.s.rtt
  {
    hide DoInit, DoRttAttach, DoRun, Stop;
    DoInitSparesOthers(l, i.init, address);
    DoRttAttachSparesOthers(l, i.attach, address);
    if l.s.state.Run? {
      DoRunKeepsState(l.s, i.time, i.run);
      var l1 := l.(s := DoRun(l.s, i.time, i.run).s);
      var condition := DoRun(l.s, i.time, i.run).condition;
      if condition.AtBreakpoint? {
        StopSparesOthers(l1, ByBreakpoint(condition.address), i.stop, address);
        StopKeepsConfig(l1, ByBreakpoint(condition.address), i.stop);
      }
      StopSparesOthers(l1, ByResetCatch, i.stop, address);
      StopKeepsConfig(l1, ByResetCatch, i.stop);
    }
  }

  lemma StopKeepsConfig(l: Local, reason: StoppedReason, i: StopInput)
    ensures Stop(l, reason, i).s.rtt == l.s.rtt
  {
  }

  /** A session clears out a core only when the counter says that nobody else is attached to it:
      as long as the counter is positive, breakpoints that are not its own survive its updates. */
  lemma BreakpointsOfOthersSurvive(l: Local, epoch: nat, i: UpdateInput, address: nat)
    requires l.c.clear > 0
    requires address in l.hw.breakpoints && l.s.rtt.stopOnBreakpoint != Some(address)
    ensures address in Update(l, epoch, i).hw.breakpoints
  {
    hide Stop, ShutDown, UpdateInner;
    if CanStop(l.s) {
      var o := UpdateInner(l, epoch, i);
      InnerSparesOthers(l, epoch, i, address);
      if o.error.Some? {
        StopSparesOthers(o.l, ByError(o.error.value), i.stop, address);
        var s1 :=
          if o.l.s.responded then o.l.s
          else
            o.l.s.(responded := true,
                   log := if i.errorResponseOk
                          then o.l.s.log.(out := o.l.s.log.out + [Failed(o.error.value)])
                          else o.l.s.log);
        StopSparesOthers(o.l.(s := s1), ByShutdown, i.stop, address);
      }
    } else {
      StoppedTouchesNothing(l, epoch, i);
    }
  }

  lemma StoppedTouchesNothing(l: Local, epoch: nat, i: UpdateInput)
    requires !CanStop(l.s)
    ensures Update(l, epoch, i).c == l.c && Update(l, epoch, i).hw == l.hw
  {
  }
}
