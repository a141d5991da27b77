/** The `RttSession` of src/rtt_session.rs: a class whose methods update the session, the
    counters it shares with its siblings and the core it works on, each proved to compute the
    function of module SessionModel that describes it. */
module RttSessions {
  import opened Clock
  import opened RateLimiters
  import opened SharedStates
  import opened SessionModel
  import M = SessionModel

  /** One core behind the debug session: what an operation on it does to it. */
  class Core {
    var catchOn: bool
    var breakpoints: set<nat>
    ghost var orphaned: bool
    ghost var control: seq<Control>
    ghost var settings: nat

    ghost function Value(): CoreState
      reads this
    {
      CoreState(catchOn, orphaned, breakpoints, control, settings)
    }

    constructor (hw: CoreState)
      ensures Value() == hw
    {
      catchOn, breakpoints, orphaned := hw.catchOn, hw.breakpoints, hw.orphaned;
      control, settings := hw.control, hw.settings;
    }

    /** Whether the core obeys is for the caller to see. */
    method Ask(what: Control)
      modifies this
      ensures Value() == Asked(old(Value()), what)
    {
      control := control + [what];
    }

    method DisableVectorCatch(ok: bool)
      modifies this
      ensures Value() == CatchDisabled(old(Value()), ok)
    {
      settings := settings + 1;
      if ok {
        catchOn, orphaned := false, false;
      }
    }

    /** A failed enable may or may not have reached the core. */
    method EnableVectorCatch(ok: bool, latched: bool)
      modifies this
      ensures Value() == CatchEnabled(old(Value()), ok, latched)
    {
      settings := settings + 1;
      if ok || latched {
        catchOn := true;
      }
    }

    /** A catch that should have been switched off stays behind. */
    ghost method LeaveVectorCatch()
      modifies this
      ensures Value() == CatchLeft(old(Value()))
    {
      orphaned := orphaned || catchOn;
    }

    method ClearAllBreakpoints(ok: bool)
      modifies this
      ensures Value() == BreakpointsCleared(old(Value()), ok)
    {
      settings := settings + 1;
      if ok {
        breakpoints := {};
      }
    }

    method SetBreakpoint(address: nat, ok: bool)
      modifies this
      ensures Value() == BreakpointSet(old(Value()), address, ok)
    {
      settings := settings + 1;
      if ok {
        breakpoints := breakpoints + {address};
      }
    }

    method ClearBreakpoint(address: nat, ok: bool)
      modifies this
      ensures Value() == BreakpointCleared(old(Value()), address, ok)
    {
      settings := settings + 1;
      if ok {
        breakpoints := breakpoints - {address};
      }
    }
  }

  class RttSession {
    const id: SessionId
    const target: TargetConfig
    const rtt: RttConfig
    const shared: SharedState
    const buffer: array<byte>
    const poll: RateLimiter
    const idle: RateLimiter
    const recovery: RateLimiter
    const attachRetry: RateLimiter
    const stopping: RateLimiter
    var responded: bool
    var state: State
    var lastReadHadData: bool
    ghost var log: Log

    /** The objects that belong to this session alone. */
    ghost const Own: set<object>

    ghost predicate Valid() {
      && buffer.Length == BufferSize(rtt)
      && {this, poll, idle, recovery, attachRetry, stopping, buffer} <= Own
      && shared !in Own
      && poll != idle && poll != recovery && poll != attachRetry && poll != stopping
      && idle != recovery && idle != attachRetry && idle != stopping
      && recovery != attachRetry && recovery != stopping
      && attachRetry != stopping
    }

    ghost function Value(): Session
      reads Own
      requires Valid()
    {
      Session(id, target, rtt, responded, state, lastReadHadData,
              poll.Value(), idle.Value(), recovery.Value(), attachRetry.Value(), stopping.Value(), log)
    }

    ghost predicate On(core: Core) {
      Valid() && core !in Own
    }

    ghost function Here(core: Core): Local
      reads Own, shared, core
      requires On(core)
    {
      Local(Value(), shared.Value(), core.Value())
    }

    lemma ValueKeepsConfig()
      requires Valid()
      ensures Value().id == id && Value().target == target && Value().rtt == rtt
      ensures Value().state == state
    {
    }

    constructor (id: SessionId, target: TargetConfig, rtt: RttConfig, shared: SharedState, now: Time)
      ensures Valid() && fresh(Own)
      ensures this.shared == shared && this.id == id && this.target == target
      ensures Value() == NewSession(id, target, rtt, now)
    {
      this.id, this.target, this.rtt, this.shared := id, target, rtt, shared;
      buffer := new byte[BufferSize(rtt)];
      poll := new RateLimiter(Interval(rtt.pollIntervalMs), now);
      idle := new RateLimiter(Interval(rtt.idlePollIntervalMs), now);
      recovery := new RateLimiter(RECOVERY_CHECK_INTERVAL, now);
      attachRetry := new RateLimiter(ATTACH_RETRY_INTERVAL, now);
      stopping := new RateLimiter(STOPPING_CONDITION_CHECK_INTERVAL, now);
      Own := {this, poll, idle, recovery, attachRetry, stopping, buffer};
      responded, state, lastReadHadData := false, Init, true;
      log := Log([], [], false, [], [], 0, 0, [], 0, 0, 0, 0, 0, now, 0, now);
    }

    method ShutDown(core: Core, i: StopInput)
      requires On(core)
      modifies Own, shared, core
      ensures On(core) && Here(core) == M.ShutDown(old(Here(core)), i)
    {
      if !state.Shutdown? {
        Stop(core, ByShutdown, i);
        state := Shutdown;
      }
    }

    method Stop(core: Core, reason: StoppedReason, i: StopInput)
      requires On(core)
      modifies Own, shared, core
      ensures On(core) && Here(core) == M.Stop(old(Here(core)), reason, i)
    {
      if !state.Stopped? && !state.Shutdown? {
        var _ := shared.DecClear();
        var disable := shared.DecCatch();
        lastReadHadData := true;
        StopCore(core, disable, reason, i);
        log := log.(recoveryChecks := 0);
        state := Stopped(reason);
      }
    }

    /** The part of a stop that needs the core. */
    method StopCore(core: Core, disable: bool, reason: StoppedReason, i: StopInput)
      requires On(core)
      modifies core, `log
      ensures core.Value() == StoppedCore(rtt, old(core.Value()), disable, reason, i)
      ensures log == Wrote(old(log), StopCommands(old(Value()), i), ByStopOf(old(log).opener))
    {
      hide CatchDisabled, CatchLeft, BreakpointCleared, Asked, Wrote;
      NothingWritten(log, ByStopOf(log.opener));
      if i.coreOk {
        // The catch goes with the last count
        if disable {
          GiveUpCatch(core, i.disableOk);
        }
        TakeLeave(i);
        if rtt.stopOnBreakpoint.Some? {
          core.ClearBreakpoint(rtt.stopOnBreakpoint.value, i.clearOk);
        }
        // A core that halted by itself goes on
        if reason.ByBreakpoint? || reason.ByResetCatch? {
          core.Ask(RunCore);
        }
      } else if disable {
        core.LeaveVectorCatch();
      }
    }

    /** A running session tells its target to stop tracing. */
    method TakeLeave(i: StopInput)
      requires Valid() && i.coreOk
      modifies `log
      ensures log == Wrote(old(log), StopCommands(old(Value()), i), ByStopOf(old(log).opener))
    {
      hide Wrote;
      NothingWritten(log, ByStopOf(log.opener));
      if state.Run? && state.handles.hasDownChannel && i.commandOk {
        log := Wrote(log, [StopTracing], ByStopOf(log.opener));
      }
    }

    /** The catch is switched off, or else it stays behind. */
    method GiveUpCatch(core: Core, ok: bool)
      modifies core
      ensures core.Value() == CatchDisabled(if ok then old(core.Value()) else CatchLeft(old(core.Value())), ok)
    {
      if !ok {
        core.LeaveVectorCatch();
      }
      core.DisableVectorCatch(ok);
    }

    /** Count this session in; the first one clears what it finds in the core. */
    method ClearCore(core: Core, i: InitInput) returns (ok: bool)
      requires On(core)
      modifies shared, core
      ensures shared.Value() == RaisedClear(old(shared.Value()))
      ensures core.Value() == RaisedClearCore(old(shared.Value()), old(core.Value()), i)
      ensures ok == !ClearFails(old(shared.Value()), i)
    {
      var first := shared.IncClear();
      if first {
        core.DisableVectorCatch(i.disableOk);
        if !i.disableOk { return false; }
        core.ClearAllBreakpoints(i.clearAllOk);
        if !i.clearAllOk { return false; }
      }
      return true;
    }

    /** Count this session in; the first one enables the CoreReset catch. */
    method RaiseCatch(core: Core, enableOk: bool, latched: bool) returns (ok: bool)
      requires On(core)
      modifies shared, core
      ensures shared.Value() == RaisedCatch(old(shared.Value()))
      ensures core.Value() == RaisedCatchCore(old(shared.Value()), old(core.Value()), enableOk, latched)
      ensures ok == !EnableFails(old(shared.Value()), enableOk)
    {
      var first := shared.IncCatch();
      if first {
        core.EnableVectorCatch(enableOk, latched);
        if !enableOk { return false; }
      }
      return true;
    }

    method DoInit(core: Core, i: InitInput) returns (error: Option<Error>)
      requires On(core)
      modifies shared, core
      ensures On(core)
      ensures var o := M.DoInit(target, rtt, old(shared.Value()), old(core.Value()), i);
              shared.Value() == o.c && core.Value() == o.hw && error == o.error
    {
      hide RttSession.Valid, RttSession.Value, RaisedClear, RaisedClearCore, ClearFails;
      hide RaisedCatch, RaisedCatchCore, EnableFails, EpilogueCore, InitEpilogueError;
      if !i.coreOk { return Some(CoreAttach); }
      if i.status.None? { return Some(CoreStatusFailed); }
      if target.reset {
        core.Ask(ResetAndHalt);
        if !i.resetOk { return Some(ProbeFailed); }
      }

      var ok := ClearCore(core, i);
      if !ok { return Some(ProbeFailed); }

      if target.bootloader || target.companion {
        ok := RaiseCatch(core, i.enableOk, i.latched);
        if !ok { return Some(ProbeFailed); }
      }

      error := Launch(core, i);
    }

    /** The part of initialization that gets the core running. */
    method Launch(core: Core, i: InitInput) returns (error: Option<Error>)
      requires i.status.Some?
      modifies core
      ensures core.Value() == EpilogueCore(target, rtt, old(core.Value()), i)
      ensures error == InitEpilogueError(target, rtt, i)
    {
      // A companion leaves starting to its bootloader
      if !target.companion && (target.reset || i.status.value.Halted?) {
        if !i.registersOk { return Some(ProbeFailed); }
        core.Ask(RunCore);
        if !i.runOk { return Some(ProbeFailed); }
      }
      if i.statusAfter.None? { return Some(CoreStatusFailed); }
      if !i.statusAfter.value.Running? { return Some(CoreNotRunning(target.core)); }

      if rtt.stopOnBreakpoint.Some? {
        if !i.unitsOk { return Some(ProbeFailed); }
        core.SetBreakpoint(rtt.stopOnBreakpoint.value, i.setBreakpointOk);
        if !i.setBreakpointOk { return Some(ProbeFailed); }
      }
      return None;
    }

    /** On success the result says whether a down channel was opened. */
    method DoRttAttach(core: Core, i: AttachInput) returns (error: Option<Error>, hasDownChannel: bool)
      requires On(core)
      modifies shared, core, `log
      ensures On(core)
      ensures var o := M.DoRttAttach(target, rtt, old(shared.Value()), old(core.Value()), i);
              && shared.Value() == o.c && core.Value() == o.hw && error == o.error
              && log == Wrote(old(log), o.cmds, ByAttempt(old(log).tries))
      ensures error.None? ==> hasDownChannel == !rtt.disableControlPlane
    {
      hasDownChannel := false;
      if !i.coreOk { return Some(CoreAttach), false; }
      if i.region.NotFound? { return Some(ControlBlockNotFound), false; }
      if i.region.RegionError? { return Some(OtherRtt), false; }
      if !i.upFound { return Some(UpChannelInvalid(rtt.upChannel)), false; }
      if !i.modeOk { return Some(OtherRtt), false; }

      if !rtt.disableControlPlane {
        if !i.downFound { return Some(DownChannelInvalid(rtt.downChannel)), false; }
        if rtt.restart {
          if !i.stopOk { return Some(OtherRtt), false; }
          log := Wrote(log, [StopTracing], ByAttempt(log.tries));
        }
        if !i.startOk { return Some(OtherRtt), false; }
        log := Wrote(log, [StartTracing], ByAttempt(log.tries));
        hasDownChannel := true;
      }

      if !target.bootloader && !target.companion {
        var ok := RaiseCatch(core, i.enableOk, i.latched);
        if !ok { return Some(ProbeFailed), hasDownChannel; }
      }
      return None, hasDownChannel;
    }

    /** Fills the front of the host buffer, as much as fits; older bytes stay behind it. */
    method ReadUpChannel(waiting: seq<byte>) returns (n: nat)
      requires Valid()
      modifies buffer
      ensures n <= buffer.Length && buffer[..n] == Chunk(rtt, waiting)
    {
      n := if |waiting| <= buffer.Length then |waiting| else buffer.Length;
      for k := 0 to n
        invariant buffer[..k] == waiting[..k]
      {
        buffer[k] := waiting[k];
      }
    }

    /** Picks the limiter by the previous read and asks it. */
    method CheckReadLimiter(now: Time) returns (due: bool)
      requires Valid()
      modifies Own
      ensures due == ReadDue(old(Value()), now)
      ensures Value() == AfterReadCheck(old(Value()), now)
    {
      if lastReadHadData {
        due := poll.Check(now);
        log := log.(pollReads := log.pollReads + if due then 1 else 0);
      } else {
        due := idle.Check(now);
        log := log.(idleReads := log.idleReads + if due then 1 else 0);
      }
    }

    method DoRun(time: Readings, i: RunInput) returns (error: Option<Error>, condition: StoppingCondition)
      requires Valid()
      modifies Own
      ensures var o := M.DoRun(old(Value()), time, i);
              Value() == o.s && error == o.error && condition == o.condition
    {
      condition := NotReached;
      if !i.coreOk { return Some(CoreAttach), NotReached; }

      var n := 0;
      var due := CheckReadLimiter(time.t1);
      if due {
        if i.read.None? { return Some(OtherRtt), NotReached; }
        n := ReadUpChannel(i.read.value);
        lastReadHadData := n != 0;
      }

      if n != 0 {
        ghost var chunk := buffer[..n];
        log := log.(chunks := log.chunks + [chunk]);
        if i.writeOk {
          log := log.(out := log.out + [Data(buffer[..n])]);
        } else {
          log := log.(out := log.out + DataEvent(Prefix(chunk, i.written)), deliveryFailed := true);
          return Some(ClientDisconnected), NotReached;
        }
      } else {
        var check := stopping.Check(time.t2);
        if check {
          log := log.(statusChecks := log.statusChecks + 1);
          var (failure, reached) := HaltCondition(i);
          return failure, reached;
        }
      }
      return None, NotReached;
    }

    method UpdateInner(core: Core, epoch: nat, i: UpdateInput) returns (error: Option<Error>)
      requires On(core)
      modifies Own, shared, core
      ensures On(core)
      ensures var o := M.UpdateInner(old(Here(core)), epoch, i);
              Here(core) == o.l && error == o.error
    {
      // The state is taken out and Init left in its place until the step is decided
      var current := state;
      state := Init;
      match current
      case Init =>
        error := DoInit(core, i.init);
        if error.Some? { return; }
        attachRetry.Reset(i.time.t1);
        log := log.(attempts := 0);
        state := RttAttach(i.time.t2);
      case RttAttach(startedAt) =>
        state := current;
        error := AttachStep(core, epoch, i);
      case Run(handles) =>
        var condition;
        error, condition := RunStep(i.time, i.run, current);
        if error.Some? { return; }
        match condition {
          case NotReached =>
          case AtBreakpoint(address) => Stop(core, ByBreakpoint(address), i.stop);
          case AtResetCatch => Stop(core, ByResetCatch, i.stop);
        }
      case Stopped(_) =>
        state := current;
        error := None;
      case Shutdown =>
        state := current;
        error := None;
    }

    /** The Run branch up to the decision: read with the state taken out, then put it back. */
    method RunStep(time: Readings, i: RunInput, current: State)
      returns (error: Option<Error>, condition: StoppingCondition)
      requires Valid()
      modifies Own
      ensures var o := M.DoRun(old(Value()).(state := current), time, i);
              Value() == o.s && error == o.error && condition == o.condition
    {
      DoRunIgnoresState(Value(), current, time, i);
      error, condition := DoRun(time, i);
      state := current;
    }

    /** The RttAttach branch. */
    method AttachStep(core: Core, epoch: nat, i: UpdateInput) returns (error: Option<Error>)
      requires On(core) && state.RttAttach?
      modifies Own, shared, core
      ensures On(core)
      ensures var o := M.InnerAttach(old(Here(core)), epoch, i);
              Here(core) == o.l && error == o.error
    {
      hide M.DoRttAttach, M.EnterRun;
      var due := attachRetry.Check(i.time.t1);
      if !due { return None; }

      log := Tried(log);
      var hasDownChannel;
      error, hasDownChannel := DoRttAttach(core, i.attach);
      if error.Some? {
        if rtt.attachTimeoutMs.Some? && error.value.ControlBlockNotFound? {
          if DurationSince(i.time.t2, state.startedAt) <= rtt.attachTimeoutMs.value * MILLISECOND {
            // The next attempt may find it
            return None;
          }
        }
        return;
      }

      if !responded {
        if !i.attach.responseOk { return Some(ResponseJson); }
        log := log.(out := log.out + [Started(id)]);
        responded := true;
      }

      EnterRun(hasDownChannel, epoch, i.time);
    }

    method EnterRun(hasDownChannel: bool, epoch: nat, time: Readings)
      requires Valid()
      modifies Own
      ensures Value() == M.EnterRun(old(Value()), hasDownChannel, epoch, time)
    {
      poll.Reset(time.t2);
      idle.Reset(time.t3);
      recovery.Reset(time.t4);
      stopping.Reset(time.t5);
      log := log.(runs := log.runs + 1, opener := log.tries, openers := log.openers + [log.tries],
                  pollReads := 0, idleReads := 0, statusChecks := 0, runStart := time.t5,
                  recoveryChecks := 0);
      state := Run(Handles(epoch, hasDownChannel));
    }

    /** One turn of the session, whatever state it is in. */
    method Update(core: Core, epoch: nat, i: UpdateInput)
      requires On(core)
      modifies Own, shared, core
      ensures On(core) && Here(core) == M.Update(old(Here(core)), epoch, i)
    {
      if state.Shutdown? { return; }

      if state.Stopped? && target.autoRecover {
        TryRecover(i.time.t1, i.recover);
      } else {
        var error := UpdateInner(core, epoch, i);
        if error.Some? {
          HandleError(core, error.value, i);
        }
      }
    }

    method TryRecover(now: Time, i: RecoverInput)
      requires Valid() && state.Stopped?
      modifies Own
      ensures Value() == M.Recover(old(Value()), now, i)
    {
      var due := recovery.Check(now);
      if due {
        log := LookedAfter(log, now);
        if i.coreOk {
          if i.statusOk {
            state := Init;
          }
        } else {
          state := Stopped(ByError(CoreAttach));
        }
      }
    }

    method HandleError(core: Core, error: Error, i: UpdateInput)
      requires On(core)
      modifies Own, shared, core
      ensures On(core) && Here(core) == M.HandleError(old(Here(core)), error, i)
    {
      if target.autoRecover && error != ClientDisconnected {
        Stop(core, ByError(error), i.stop);
      } else {
        if !responded {
          if i.errorResponseOk {
            log := log.(out := log.out + [Failed(error)]);
          }
          responded := true;
        }
        ShutDown(core, i.stop);
      }
    }
  }
}
