/** The order in which a session moves through its states, and how often it touches the
    target: attach attempts per RttAttach episode and reads per Run episode. */
module SessionTiming {
  import opened Clock
  import opened RateLimiters
  import opened SessionModel
  import opened SessionProofs

  // ----- lifecycle order

  predicate SameIdentity(s: Session, s2: Session) {
    s2.id == s.id && s2.target == s.target && s2.rtt == s.rtt
  }

  /** States only move up, except that a recovering session may leave Stopped for Init (or
      stay stopped for a new reason). */
  predicate MovesForward(s: Session, s2: Session) {
    || s2.state == s.state
    || Rank(s.state) < Rank(s2.state)
    || (s.target.autoRecover && s.state.Stopped? && (s2.state.Init? || s2.state.Stopped?))
  }

  lemma DoRunKeepsState(s: Session, time: Readings, i: RunInput)
    ensures var s2 := DoRun(s, time, i).s;
            s2.state == s.state && SameIdentity(s, s2)
  {
    hide ReadDue, Chunk, HaltCondition;
  }

  lemma StopMovesForward(l: Local, reason: StoppedReason, i: StopInput)
    ensures MovesForward(l.s, Stop(l, reason, i).s) && SameIdentity(l.s, Stop(l, reason, i).s)
    ensures MovesForward(l.s, ShutDown(l, i).s) && SameIdentity(l.s, ShutDown(l, i).s)
  {
    hide StopCommands, StoppedCore;
  }

  lemma FailureMovesForward(l: Local, error: Error, i: UpdateInput)
    ensures MovesForward(l.s, HandleError(l, error, i).s) && SameIdentity(l.s, HandleError(l, error, i).s)
  {
    hide Stop, ShutDown;
    StopMovesForward(l, ByError(error), i.stop);
    var s1 :=
      if l.s.responded then l.s
      else
        l.s.(responded := true,
             log := if i.errorResponseOk then l.s.log.(out := l.s.log.out + [Failed(error)]) else l.s.log);
    StopMovesForward(l.(s := s1), ByShutdown, i.stop);
  }

  lemma InnerMovesForward(l: Local, epoch: nat, i: UpdateInput)
    ensures var o := UpdateInner(l, epoch, i);
            && MovesForward(l.s, o.l.s) && SameIdentity(l.s, o.l.s)
            && (o.error.Some? ==> o.l.s.state == l.s.state)
  {
    hide DoInit, DoRttAttach, DoRun, Stop, RetriesAttach;
    DoRunKeepsState(l.s, i.time, i.run);
    var l1 := l.(s := DoRun(l.s, i.time, i.run).s);
    var condition := DoRun(l.s, i.time, i.run).condition;
    StopMovesForward(l1, if condition.AtBreakpoint? then ByBreakpoint(condition.address) else ByResetCatch, i.stop);
  }

  lemma UpdateMovesForward(l: Local, epoch: nat, i: UpdateInput)
    ensures var s2 := Update(l, epoch, i).s;
            MovesForward(l.s, s2) && SameIdentity(l.s, s2)
  {
    hide UpdateInner, HandleError;
    var o := UpdateInner(l, epoch, i);
    InnerMovesForward(l, epoch, i);
    if o.error.Some? {
      FailureMovesForward(o.l, o.error.value, i);
    }
  }

  lemma CallMovesForward(s: Session, call: Call)
    ensures MovesForward(s, After(s, call)) && SameIdentity(s, After(s, call))
    ensures s.state.Shutdown? ==> After(s, call) == s
  {
    hide UpdateInner, HandleError;
    match call
    case UpdateCall(c, hw, epoch, i) => UpdateMovesForward(Local(s, c, hw), epoch, i);
    case ShutDownCall(c, hw, i) =>
  }

  lemma {:induction false} LifeKeepsIdentity(s: Session, calls: seq<Call>)
    ensures SameIdentity(s, Life(s, calls))
  {
    hide After;
    if calls != [] {
      LifeKeepsIdentity(s, calls[..|calls| - 1]);
      CallMovesForward(Life(s, calls[..|calls| - 1]), calls[|calls| - 1]);
    }
  }

  /** Without auto-recovery a session never goes back to an earlier state. */
  lemma {:induction false} LifeNeverGoesBack(s: Session, calls: seq<Call>, k: nat)
    requires !s.target.autoRecover && k <= |calls|
    ensures Rank(Life(s, calls[..k]).state) <= Rank(Life(s, calls).state)
    ensures Rank(Life(s, calls[..k]).state) == Rank(Life(s, calls).state) ==>
              Life(s, calls[..k]).state == Life(s, calls).state
  {
    hide After;
    if k == |calls| {
      assert calls[..k] == calls;
    } else {
      var before := calls[..|calls| - 1];
      LifeNeverGoesBack(s, before, k);
      assert before[..k] == calls[..k];
      LifeKeepsIdentity(s, before);
      CallMovesForward(Life(s, before), calls[|calls| - 1]);
    }
  }

  /** A session that was shut down never changes again: it does nothing and says nothing. */
  lemma {:induction false} ShutdownIsFinal(s: Session, calls: seq<Call>)
    requires s.state.Shutdown?
    ensures Life(s, calls) == s
  {
    hide After;
    if calls != [] {
      ShutdownIsFinal(s, calls[..|calls| - 1]);
      CallMovesForward(s, calls[|calls| - 1]);
    }
  }

  // ----- how often the target is touched

  /** n events at most `limit` apart from each other fit between `start` and `last`. */
  predicate Spaced(n: nat, limit: nat, start: Time, last: Time) {
    n > 0 ==> start + (n - 1) * limit <= last
  }

  lemma OneMoreFits(n: nat, limit: nat, start: Time, last: Time, now: Time)
    requires Spaced(n, limit, start, last) && now >= start && now >= last + limit
    ensures Spaced(n + 1, limit, start, now)
  {
    OneMoreStep(n, limit);
  }

  /** With a timeout of T ms at most T/20 + 2 attempts, without one a single attempt. */
  predicate AttemptBound(s: Session) {
    match s.rtt.attachTimeoutMs
    case None => s.log.attempts <= 1
    case Some(ms) => s.log.attempts <= ms / 20 + 2
  }

  predicate AttachTimed(s: Session, now: Time) {
    && s.attachRetry.limit == ATTACH_RETRY_INTERVAL
    && AttemptBound(s)
    && (s.state.RttAttach? ==>
          && s.state.startedAt <= now
          && Spaced(s.log.attempts, ATTACH_RETRY_INTERVAL, s.state.startedAt, s.attachRetry.last)
          && (s.log.attempts > 0 ==>
                && s.attachRetry.last <= now
                && s.rtt.attachTimeoutMs.Some?
                && (s.log.attempts - 1) * 20 <= s.rtt.attachTimeoutMs.value))
  }

  predicate ReadsSpaced(count: nat, l: Limiter, start: Time, now: Time) {
    Spaced(count, l.limit, start, l.last) && (count > 0 ==> l.last <= now)
  }

  predicate ReadsTimed(s: Session, now: Time) {
    && s.poll.limit == Interval(s.rtt.pollIntervalMs)
    && s.idle.limit == Interval(s.rtt.idlePollIntervalMs)
    && s.log.runStart <= now
    && ReadsSpaced(s.log.pollReads, s.poll, s.log.runStart, now)
    && ReadsSpaced(s.log.idleReads, s.idle, s.log.runStart, now)
  }

  /** Looks for a stopping condition in a Run episode, and looks for recovery in a Stopped one. */
  predicate ChecksTimed(s: Session, now: Time) {
    && s.stopping.limit == STOPPING_CONDITION_CHECK_INTERVAL
    && s.recovery.limit == RECOVERY_CHECK_INTERVAL
    && s.log.firstCheck <= now
    && ReadsSpaced(s.log.statusChecks, s.stopping, s.log.runStart, now)
    && ReadsSpaced(s.log.recoveryChecks, s.recovery, s.log.firstCheck, now)
  }

  predicate Timed(s: Session, now: Time) {
    AttachTimed(s, now) && ReadsTimed(s, now) && ChecksTimed(s, now)
  }

  /** What is left of it when an attempt failed for good and the session is about to stop. */
  predicate TimedOut(s: Session, now: Time) {
    s.attachRetry.limit == ATTACH_RETRY_INTERVAL && AttemptBound(s) && ReadsTimed(s, now) && ChecksTimed(s, now)
  }

  lemma NewSessionIsTimed(id: SessionId, target: TargetConfig, rtt: RttConfig, now: Time)
    ensures Timed(NewSession(id, target, rtt, now), now)
  {
  }

  lemma TimedLater(s: Session, now: Time, later: Time)
    requires Timed(s, now) && now <= later
    ensures Timed(s, later)
  {
  }

  /** Stopping touches neither the attach clock nor the read clocks. */
  lemma StopIsTimed(l: Local, reason: StoppedReason, i: StopInput, now: Time)
    requires Timed(l.s, now) || (TimedOut(l.s, now) && CanStop(l.s))
    ensures Timed(Stop(l, reason, i).s, now) && Timed(ShutDown(l, i).s, now)
  {
    hide StopCommands, StoppedCore, Spaced, Interval;
    NoneIsSpaced(l.s.recovery.limit, l.s.log.firstCheck, l.s.recovery.last);
  }

  lemma NoneIsSpaced(limit: nat, start: Time, last: Time)
    ensures Spaced(0, limit, start, last)
  {
  }

  lemma HandleErrorIsTimed(l: Local, error: Error, i: UpdateInput, now: Time)
    requires TimedOut(l.s, now) && CanStop(l.s)
    ensures Timed(HandleError(l, error, i).s, now)
  {
    hide Stop, ShutDown, Spaced, Interval;
    if l.s.target.autoRecover && !error.ClientDisconnected? {
      StopIsTimed(l, ByError(error), i.stop, now);
    } else {
      var s1 :=
        if l.s.responded then l.s
        else
          l.s.(responded := true,
               log := if i.errorResponseOk then l.s.log.(out := l.s.log.out + [Failed(error)]) else l.s.log);
      StopIsTimed(l.(s := s1), ByShutdown, i.stop, now);
    }
  }

  lemma ReadCheckIsSpaced(count: nat, l: Limiter, start: Time, before: Time, now: Time)
    requires ReadsSpaced(count, l, start, before) && start <= before <= now
    ensures ReadsSpaced(if l.Due(now) then count + 1 else count, l.Checked(now), start, now)
  {
    if l.Due(now) {
      if count == 0 {
        assert Spaced(1, l.limit, start, now);
      } else {
        OneMoreFits(count, l.limit, start, l.last, now);
      }
    }
  }

  lemma AfterReadCheckIsTimed(s: Session, time: Time, now: Time)
    requires Timed(s, now) && s.state.Run? && now <= time
    ensures Timed(AfterReadCheck(s, time), time)
  {
    hide Spaced, Interval;
    ReadCheckIsSpaced(s.log.pollReads, s.poll, s.log.runStart, now, time);
    ReadCheckIsSpaced(s.log.idleReads, s.idle, s.log.runStart, now, time);
  }

  lemma CheckStoppingIsTimed(s: Session, time: Time, i: RunInput, now: Time)
    requires Timed(s, now) && s.state.Run? && now <= time
    ensures Timed(CheckStopping(s, time, i).s, time)
  {
    hide Spaced, Interval, HaltCondition;
    ReadCheckIsSpaced(s.log.statusChecks, s.stopping, s.log.runStart, now, time);
  }

  lemma DeliverIsTimed(s: Session, chunk: seq<byte>, i: RunInput, now: Time)
    requires Timed(s, now) && chunk != []
    ensures Timed(Deliver(s, chunk, i).s, now)
  {
    hide Spaced, Interval, DataEvent, Prefix;
  }

  lemma ReadFlagIsUntimed(s: Session, hadData: bool, now: Time)
    ensures Timed(s.(lastReadHadData := hadData), now) == Timed(s, now)
  {
    hide Spaced, Interval;
  }

  lemma DoRunIsTimed(s: Session, time: Readings, i: RunInput, now: Time)
    requires Timed(s, now) && s.state.Run? && now <= time.t1 && Ordered(time)
    ensures Timed(DoRun(s, time, i).s, time.t5)
  {
    hide Timed, Chunk, ReadDue, CheckStopping, Deliver, AfterReadCheck;
    TimedLater(s, now, time.t5);
    var s1 := AfterReadCheck(s, time.t1);
    AfterReadCheckIsTimed(s, time.t1, now);
    TimedLater(s1, time.t1, time.t5);
    if i.coreOk && !(ReadDue(s, time.t1) && i.read.None?) {
      var due := ReadDue(s, time.t1);
      var chunk := if due then Chunk(s.rtt, i.read.value) else [];
      var s2 := if due then s1.(lastReadHadData := chunk != []) else s1;
      ReadFlagIsUntimed(s1, chunk != [], time.t1);
      ReadFlagIsUntimed(s1, chunk != [], time.t5);
      ReadCheckKeepsState(s, time.t1);
      if chunk != [] {
        DeliverIsTimed(s2, chunk, i, time.t5);
      } else {
        CheckStoppingIsTimed(s2, time.t2, i, time.t1);
        TimedLater(CheckStopping(s2, time.t2, i).s, time.t2, time.t5);
      }
    }
  }

  lemma ReadCheckKeepsState(s: Session, time: Time)
    ensures AfterReadCheck(s, time).state == s.state
  {
  }

  /** What an attempt leaves is within the bounds, whether or not the session stays to retry. */
  lemma TriedIsTimed(s: Session, i: UpdateInput, now: Time)
    requires Timed(s, now) && s.state.RttAttach? && now <= i.time.t1 && Ordered(i.time)
    requires s.attachRetry.Due(i.time.t1)
    ensures var s2 := s.(attachRetry := s.attachRetry.Checked(i.time.t1), log := Tried(s.log));
            && TimedOut(s2, i.time.t5)
            && (RetriesAttach(s2, ControlBlockNotFound, i.time.t2) ==> Timed(s2, i.time.t5))
  {
    hide Interval;
    if s.log.attempts > 0 {
      OneMoreFits(s.log.attempts, ATTACH_RETRY_INTERVAL, s.state.startedAt, s.attachRetry.last, i.time.t1);
    }
  }

  /** Nothing in the bounds depends on what was written. */
  lemma WritingIsUntimed(s: Session, log: Log, responded: bool, now: Time)
    requires log == s.log.(cmds := log.cmds, writers := log.writers, out := log.out)
    ensures var s2 := s.(log := log, responded := responded);
            Timed(s2, now) == Timed(s, now) && TimedOut(s2, now) == TimedOut(s, now)
  {
    hide Interval;
  }

  lemma InnerAttachIsTimed(l: Local, epoch: nat, i: UpdateInput, now: Time)
    requires Timed(l.s, now) && l.s.state.RttAttach? && now <= i.time.t1 && Ordered(i.time)
    ensures var o := InnerAttach(l, epoch, i);
            if o.error.Some? then TimedOut(o.l.s, i.time.t5) && CanStop(o.l.s) else Timed(o.l.s, i.time.t5)
  {
    hide DoRttAttach, Timed, TimedOut, EnterRun;
    if !l.s.attachRetry.Due(i.time.t1) {
      TimedLater(l.s, now, i.time.t5);
    } else {
      TriedIsTimed(l.s, i, now);
      var o := DoRttAttach(l.s.target, l.s.rtt, l.c, l.hw, i.attach);
      var s1 := l.s.(attachRetry := l.s.attachRetry.Checked(i.time.t1), log := Tried(l.s.log));
      var log := Wrote(s1.log, o.cmds, ByAttempt(s1.log.tries));
      WritingIsUntimed(s1, log, s1.responded, i.time.t5);
      WritingIsUntimed(s1, log.(out := log.out + [Started(s1.id)]), true, i.time.t5);
      var s2 := s1.(log := log);
      var s3 := if s2.responded then s2
                else s2.(responded := true, log := s2.log.(out := s2.log.out + [Started(s2.id)]));
      EnterRunFromTimedOut(s3, !l.s.rtt.disableControlPlane, epoch, i.time);
    }
  }

  /** The instants of one update follow each other, so it does not matter at which of them the
      session was within its bounds. */
  lemma EnterRunFromTimedOut(s: Session, hasDownChannel: bool, epoch: nat, time: Readings)
    requires TimedOut(s, time.t5) && Ordered(time)
    ensures Timed(EnterRun(s, hasDownChannel, epoch, time), time.t5)
  {
    hide Interval;
  }

  lemma InnerRunIsTimed(l: Local, i: UpdateInput, now: Time)
    requires Timed(l.s, now) && l.s.state.Run? && now <= i.time.t1 && Ordered(i.time)
    ensures var o := InnerRun(l, i);
            if o.error.Some? then TimedOut(o.l.s, i.time.t5) && CanStop(o.l.s) else Timed(o.l.s, i.time.t5)
  {
    hide DoRun, Stop, Spaced, Interval;
    DoRunIsTimed(l.s, i.time, i.run, now);
    DoRunKeepsState(l.s, i.time, i.run);
    var o := DoRun(l.s, i.time, i.run);
    match o.condition
    case NotReached =>
    case AtBreakpoint(address) => StopIsTimed(l.(s := o.s), ByBreakpoint(address), i.stop, i.time.t5);
    case AtResetCatch => StopIsTimed(l.(s := o.s), ByResetCatch, i.stop, i.time.t5);
  }

  lemma InnerInitIsTimed(l: Local, i: UpdateInput, now: Time)
    requires Timed(l.s, now) && l.s.state.Init? && now <= i.time.t1 && Ordered(i.time)
    ensures var o := InnerInit(l, i);
            if o.error.Some? then TimedOut(o.l.s, i.time.t5) && CanStop(o.l.s) else Timed(o.l.s, i.time.t5)
  {
    hide DoInit, Interval;
  }

  lemma UpdateIsTimed(l: Local, epoch: nat, i: UpdateInput, now: Time)
    requires Timed(l.s, now) && now <= i.time.t1 && Ordered(i.time)
    ensures Timed(Update(l, epoch, i).s, i.time.t5)
  {
    hide InnerInit, InnerAttach, InnerRun, HandleError, Interval;
    if CanStop(l.s) {
      match l.s.state {
        case Init => InnerInitIsTimed(l, i, now);
        case RttAttach(_) => InnerAttachIsTimed(l, epoch, i, now);
        case Run(_) => InnerRunIsTimed(l, i, now);
      }
      var o := UpdateInner(l, epoch, i);
      if o.error.Some? {
        HandleErrorIsTimed(o.l, o.error.value, i, i.time.t5);
      }
    } else {
      TimedLater(l.s, now, i.time.t5);
      if l.s.state.Stopped? && l.s.target.autoRecover {
        RecoverIsTimed(l.s, i.time.t1, i.recover, now);
        TimedLater(Recover(l.s, i.time.t1, i.recover), i.time.t1, i.time.t5);
      }
    }
  }

  lemma RecoverIsTimed(s: Session, time: Time, i: RecoverInput, now: Time)
    requires Timed(s, now) && s.state.Stopped? && now <= time
    ensures Timed(Recover(s, time, i), time)
  {
    hide Spaced, Interval;
    TimedLater(s, now, time);
    if s.log.recoveryChecks == 0 {
      FirstIsSpaced(s.recovery.limit, time);
    } else {
      ReadCheckIsSpaced(s.log.recoveryChecks, s.recovery, s.log.firstCheck, now, time);
    }
  }

  lemma FirstIsSpaced(limit: nat, time: Time)
    ensures Spaced(1, limit, time, time)
  {
  }

  // ----- whole lives

  /** The last instant a life has seen. */
  function Latest(born: Time, calls: seq<Call>): Time {
    if calls == [] then born
    else
      var last := calls[|calls| - 1];
      if last.UpdateCall? then last.i.time.t5 else Latest(born, calls[..|calls| - 1])
  }

  /** The clock never runs backwards over the life of a session. */
  ghost predicate Timely(born: Time, calls: seq<Call>) {
    calls == [] ||
    (var before, last := calls[..|calls| - 1], calls[|calls| - 1];
     && Timely(born, before)
     && (last.UpdateCall? ==> Latest(born, before) <= last.i.time.t1 && Ordered(last.i.time)))
  }

  lemma {:induction false} LifeIsTimed(s: Session, born: Time, calls: seq<Call>)
    requires Timed(s, born) && Timely(born, calls)
    ensures Timed(Life(s, calls), Latest(born, calls))
  {
    hide Timed, Update, ShutDown;
    if calls != [] {
      var before := calls[..|calls| - 1];
      LifeIsTimed(s, born, before);
      match calls[|calls| - 1]
      case UpdateCall(c, hw, epoch, i) =>
        UpdateIsTimed(Local(Life(s, before), c, hw), epoch, i, Latest(born, before));
      case ShutDownCall(c, hw, i) =>
        StopIsTimed(Local(Life(s, before), c, hw), ByShutdown, i, Latest(born, before));
    }
  }

  /** In every life, however updates and interference fall: attach attempts stay within the
      bound the timeout gives. */
  lemma AttachAttemptsAreBounded(id: SessionId, target: TargetConfig, rtt: RttConfig, born: Time, calls: seq<Call>)
    requires Timely(born, calls)
    ensures var s := Life(NewSession(id, target, rtt, born), calls);
            s.log.attempts <= match rtt.attachTimeoutMs { case None => 1 case Some(ms) => ms / 20 + 2 }
  {
    hide Life;
    var s := NewSession(id, target, rtt, born);
    NewSessionIsTimed(id, target, rtt, born);
    LifeIsTimed(s, born, calls);
    LifeKeepsIdentity(s, calls);
  }

  /** At any moment of a Run episode that has lasted T, at most T/poll + T/idle + 2 reads of
      the up channel were made, although the two limiters keep separate clocks. */
  lemma ReadsAreBounded(id: SessionId, target: TargetConfig, rtt: RttConfig, born: Time, calls: seq<Call>)
    requires Timely(born, calls)
    ensures var s := Life(NewSession(id, target, rtt, born), calls);
            var elapsed := Latest(born, calls) - s.log.runStart;
            && elapsed >= 0
            && s.log.pollReads + s.log.idleReads
               <= elapsed / Interval(rtt.pollIntervalMs) + elapsed / Interval(rtt.idlePollIntervalMs) + 2
  {
    hide Life, Latest, Timely;
    var s0 := NewSession(id, target, rtt, born);
    NewSessionIsTimed(id, target, rtt, born);
    LifeIsTimed(s0, born, calls);
    LifeKeepsIdentity(s0, calls);
    var s := Life(s0, calls);
    ReadsFit(s.log.pollReads, s.poll, s.log.runStart, Latest(born, calls));
    ReadsFit(s.log.idleReads, s.idle, s.log.runStart, Latest(born, calls));
  }

  lemma ReadsFit(count: nat, l: Limiter, start: Time, now: Time)
    requires ReadsSpaced(count, l, start, now) && start <= now && l.limit > 0
    ensures count <= (now - start) / l.limit + 1
  {
    if count > 0 {
      StepsFit(count - 1, l.limit, now - start);
    }
  }

  /** At any moment of a Run episode that has lasted T ms, the core was looked at for a stopping
      condition at most T/50 + 1 times. */
  lemma StatusChecksAreBounded(id: SessionId, target: TargetConfig, rtt: RttConfig, born: Time, calls: seq<Call>)
    requires Timely(born, calls)
    ensures var s := Life(NewSession(id, target, rtt, born), calls);
            var elapsed := Latest(born, calls) - s.log.runStart;
            elapsed >= 0 && s.log.statusChecks <= elapsed / (50 * MILLISECOND) + 1
  {
    hide Life, Latest, Timely;
    var s0 := NewSession(id, target, rtt, born);
    NewSessionIsTimed(id, target, rtt, born);
    LifeIsTimed(s0, born, calls);
    var s := Life(s0, calls);
    ReadsFit(s.log.statusChecks, s.stopping, s.log.runStart, Latest(born, calls));
  }

  /** At any moment of a Stopped episode, with T ms gone since its first look for recovery, at most
      T/50 + 1 such looks were made. */
  lemma RecoveryChecksAreBounded(id: SessionId, target: TargetConfig, rtt: RttConfig, born: Time, calls: seq<Call>)
    requires Timely(born, calls)
    ensures var s := Life(NewSession(id, target, rtt, born), calls);
            var elapsed := Latest(born, calls) - s.log.firstCheck;
            elapsed >= 0 && s.log.recoveryChecks <= elapsed / (50 * MILLISECOND) + 1
  {
    hide Life, Latest, Timely;
    var s0 := NewSession(id, target, rtt, born);
    NewSessionIsTimed(id, target, rtt, born);
    LifeIsTimed(s0, born, calls);
    var s := Life(s0, calls);
    ReadsFit(s.log.recoveryChecks, s.recovery, s.log.firstCheck, Latest(born, calls));
  }
}
