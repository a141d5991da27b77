/** One RTT session as a value: its configuration, its state, what it did so far, and the
    function each operation of src/rtt_session.rs computes. */
module SessionModel {
  import opened Clock
  import opened RateLimiters
  import opened SharedStates

  datatype Option<+T> = None | Some(value: T)

  type byte = b: nat | b < 256

  type SessionId = nat

  // ----- configuration (rtt-proxy/src/lib.rs)

  datatype TargetConfig = TargetConfig(
    autoRecover: bool,
    core: nat,
    reset: bool,
    bootloader: bool,
    companion: bool)

  datatype RttConfig = RttConfig(
    attachTimeoutMs: Option<nat>,
    stopOnBreakpoint: Option<nat>,
    controlBlock: Option<nat>,
    upChannel: nat,
    downChannel: nat,
    disableControlPlane: bool,
    restart: bool,
    readBufferSize: nat,
    pollIntervalMs: nat,
    idlePollIntervalMs: nat)

  const DEFAULT_RTT_BUFFER_SIZE: nat := 1024
  const STOPPING_CONDITION_CHECK_INTERVAL: nat := 50 * MILLISECOND
  const RECOVERY_CHECK_INTERVAL: nat := 50 * MILLISECOND
  const ATTACH_RETRY_INTERVAL: nat := 20 * MILLISECOND

  /** Buffers below 64 bytes fall back to the default size. */
  function BufferSize(rtt: RttConfig): nat {
    if rtt.readBufferSize < 64 then DEFAULT_RTT_BUFFER_SIZE else rtt.readBufferSize
  }

  /** A configured polling interval, at least one millisecond. */
  function Interval(ms: nat): nat {
    (if ms < 1 then 1 else ms) * MILLISECOND
  }

  /** Sessions that enable the CoreReset catch before RTT attach. */
  predicate EnablesCatchEarly(target: TargetConfig) {
    target.bootloader || target.companion
  }

  // ----- lifecycle

  datatype Error =
    | Io
    | ResponseJson
    | ProbeFailed
    | ControlBlockNotFound
    | OtherRtt
    | DownChannelInvalid(channel: nat)
    | UpChannelInvalid(channel: nat)
    | CoreNotRunning(core: nat)
    | CoreStatusFailed
    | CoreAttach
    | ClientDisconnected

  datatype StoppedReason =
    | ByShutdown
    | ByError(error: Error)
    | ByResetCatch
    | ByBreakpoint(address: nat)

  /** Handles belong to the debug session (numbered by epoch) they were created from. */
  datatype Handles = Handles(epoch: nat, hasDownChannel: bool)

  datatype State =
    | Init
    | RttAttach(startedAt: Time)
    | Run(handles: Handles)
    | Stopped(reason: StoppedReason)
    | Shutdown

  // ----- what a session does to the outside world

  datatype ClientEvent =
    | Started(id: SessionId)
    | Failed(error: Error)
    | Data(bytes: seq<byte>)

  datatype Command = StartTracing | StopTracing

  /** Who wrote a command: the attach attempt with this number, or the stop that ended the Run
      episode which that attempt opened. */
  datatype Writer = ByAttempt(n: nat) | ByStopOf(n: nat)

  /** The record of a session's effects. Only `out`, `chunks` and `cmds` are visible outside;
      `attempts`, the reads, the two kinds of checks and the two instants describe the current
      RttAttach, Run or Stopped episode. No operation reads the record. */
  datatype Log = Log(
    out: seq<ClientEvent>,     // written to the client, in order
    chunks: seq<seq<byte>>,    // non-empty reads from the up channel, in order
    deliveryFailed: bool,      // whether writing data to the client ever failed
    cmds: seq<Command>,        // written to the down channel, in order
    writers: seq<Writer>,      // who wrote each of them
    tries: nat,                // attach attempts so far; they are numbered from 1
    opener: nat,               // the attempt that opened the latest Run episode
    openers: seq<nat>,         // the attempts that opened a Run episode, in order
    runs: nat,                 // Run episodes so far
    attempts: nat,             // RTT attach attempts since RttAttach was entered
    pollReads: nat,            // up-channel reads since Run was entered, by limiter
    idleReads: nat,
    statusChecks: nat,         // looks at the core for a stopping condition since then
    runStart: Time,
    recoveryChecks: nat,       // looks at the core for recovery since the session stopped
    firstCheck: Time)

  function Wrote(log: Log, cmds: seq<Command>, who: Writer): Log {
    log.(cmds := log.cmds + cmds, writers := log.writers + seq(|cmds|, k => who))
  }

  lemma NothingWritten(log: Log, who: Writer)
    ensures Wrote(log, [], who) == log
  {
    assert log.cmds + [] == log.cmds && log.writers + [] == log.writers;
  }

  datatype Session = Session(
    id: SessionId,
    target: TargetConfig,
    rtt: RttConfig,
    responded: bool,
    state: State,
    lastReadHadData: bool,
    poll: Limiter,
    idle: Limiter,
    recovery: Limiter,
    attachRetry: Limiter,
    stopping: Limiter,
    log: Log)

  predicate IsShutdown(s: Session) { s.state.Shutdown? }
  predicate IsRunning(s: Session) { s.state.Run? }
  predicate IsStoppedByCoreAttach(s: Session) {
    s.state.Stopped? && s.state.reason == ByError(CoreAttach)
  }

  function NewSession(id: SessionId, target: TargetConfig, rtt: RttConfig, now: Time): Session {
    Session(id, target, rtt, false, Init, true,
            NewLimiter(Interval(rtt.pollIntervalMs), now),
            NewLimiter(Interval(rtt.idlePollIntervalMs), now),
            NewLimiter(RECOVERY_CHECK_INTERVAL, now),
            NewLimiter(ATTACH_RETRY_INTERVAL, now),
            NewLimiter(STOPPING_CONDITION_CHECK_INTERVAL, now),
            Log([], [], false, [], [], 0, 0, [], 0, 0, 0, 0, 0, now, 0, now))
  }

  // ----- the core a session works on

  datatype Control = ResetAndHalt | RunCore

  /** What the proxy left in one core: whether its CoreReset catch is on, and its breakpoints.
      `orphaned` marks a catch that nobody answers for: the session that was told to switch it
      off, or was dropped without being stopped, could not do so, or it was found on. What was
      asked of the core, successful or not, is recorded too: the resets and starts in `control`,
      and in `settings` the number of operations on its catch and its breakpoints. */
  datatype CoreState = CoreState(
    catchOn: bool,
    orphaned: bool,
    breakpoints: set<nat>,
    control: seq<Control>,
    settings: nat)

  /** A core nothing is known about. */
  const UNTOUCHED: CoreState := CoreState(false, false, {}, [], 0)

  function Asked(hw: CoreState, what: Control): CoreState {
    hw.(control := hw.control + [what])
  }

  function Adjusted(hw: CoreState): CoreState {
    hw.(settings := hw.settings + 1)
  }

  function CatchDisabled(hw: CoreState, ok: bool): CoreState {
    Adjusted(if ok then hw.(catchOn := false, orphaned := false) else hw)
  }

  function CatchLeft(hw: CoreState): CoreState {
    hw.(orphaned := hw.orphaned || hw.catchOn)
  }

  /** A catch found on when a core is first used is nobody's. */
  function AsFound(found: map<nat, CoreState>, core: nat): CoreState {
    if core in found then CatchLeft(found[core]) else UNTOUCHED
  }

  /** A failed enable may or may not have reached the core. */
  function CatchEnabled(hw: CoreState, ok: bool, latched: bool): CoreState {
    Adjusted(if ok || latched then hw.(catchOn := true) else hw)
  }

  function BreakpointsCleared(hw: CoreState, ok: bool): CoreState {
    Adjusted(if ok then hw.(breakpoints := {}) else hw)
  }

  function BreakpointSet(hw: CoreState, address: nat, ok: bool): CoreState {
    Adjusted(if ok then hw.(breakpoints := hw.breakpoints + {address}) else hw)
  }

  function BreakpointCleared(hw: CoreState, address: nat, ok: bool): CoreState {
    Adjusted(if ok then hw.(breakpoints := hw.breakpoints - {address}) else hw)
  }

  /** A session together with the counters and the core it shares with its siblings. */
  datatype Local = Local(s: Session, c: Counters, hw: CoreState)

  // ----- who holds the counters

  /** Between updates, holding a counter is a matter of the state. */
  predicate HoldsClear(s: Session) {
    s.state.RttAttach? || s.state.Run?
  }

  predicate HoldsCatch(s: Session) {
    s.state.Run? || (s.state.RttAttach? && EnablesCatchEarly(s.target))
  }

  // ----- everything an update may learn from the probe, the client and the clock

  datatype HaltReason = BreakpointHalt | Exception | OtherHalt
  datatype CoreStatus = Running | Halted(why: HaltReason) | OtherStatus
  datatype Region = Found | NotFound | RegionError
  datatype RegisterValue = U32(v: nat) | U64(v: nat) | U128(v: nat)

  datatype RecoverInput = RecoverInput(coreOk: bool, statusOk: bool)

  datatype InitInput = InitInput(
    coreOk: bool,
    status: Option<CoreStatus>,
    resetOk: bool,             // reset_and_halt and the two register reads after it
    disableOk: bool,
    clearAllOk: bool,
    enableOk: bool,
    latched: bool,
    registersOk: bool,         // the two register reads before run
    runOk: bool,
    statusAfter: Option<CoreStatus>,
    unitsOk: bool,
    setBreakpointOk: bool)

  datatype AttachInput = AttachInput(
    coreOk: bool,
    region: Region,
    upFound: bool,
    modeOk: bool,
    downFound: bool,
    stopOk: bool,
    startOk: bool,
    enableOk: bool,
    latched: bool,
    responseOk: bool)

  datatype RunInput = RunInput(
    coreOk: bool,
    read: Option<seq<byte>>,   // None: the read failed; Some: the bytes waiting in the channel
    writeOk: bool,
    written: nat,              // bytes a failing write got through
    status: Option<CoreStatus>,
    registersOk: bool,
    pc: RegisterValue)

  datatype StopInput = StopInput(
    coreOk: bool,
    disableOk: bool,
    commandOk: bool,
    clearOk: bool)

  /** Successive readings of the clock during one update. */
  datatype Readings = Readings(t1: Time, t2: Time, t3: Time, t4: Time, t5: Time)

  predicate Ordered(t: Readings) {
    t.t1 <= t.t2 <= t.t3 <= t.t4 <= t.t5
  }

  datatype UpdateInput = UpdateInput(
    time: Readings,
    recover: RecoverInput,
    init: InitInput,
    attach: AttachInput,
    run: RunInput,
    stop: StopInput,
    errorResponseOk: bool)

  // ----- stop and shutdown (src/rtt_session.rs:209-273)

  /** A Stop command goes out when the core is reachable and the session holds a down channel. */
  function StopCommands(s: Session, i: StopInput): seq<Command> {
    if i.coreOk && s.state.Run? && s.state.handles.hasDownChannel && i.commandOk
    then [StopTracing] else []
  }

  /** A core that halted by itself is started again. */
  predicate Resumes(reason: StoppedReason) {
    reason.ByBreakpoint? || reason.ByResetCatch?
  }

  function StoppedCore(rtt: RttConfig, hw: CoreState, last: bool, reason: StoppedReason, i: StopInput): CoreState {
    if !i.coreOk then
      if last then CatchLeft(hw) else hw
    else
      var hw1 :=
        if !last then hw
        else CatchDisabled(if i.disableOk then hw else CatchLeft(hw), i.disableOk);
      var hw2 :=
        if rtt.stopOnBreakpoint.Some? then BreakpointCleared(hw1, rtt.stopOnBreakpoint.value, i.clearOk)
        else hw1;
      if Resumes(reason) then Asked(hw2, RunCore) else hw2
  }

  predicate CanStop(s: Session) {
    !s.state.Stopped? && !s.state.Shutdown?
  }

  function Stop(l: Local, reason: StoppedReason, i: StopInput): Local {
    if !CanStop(l.s) then l
    else
      Local(
        l.s.(lastReadHadData := true,
             log := Wrote(l.s.log, StopCommands(l.s, i), ByStopOf(l.s.log.opener)).(recoveryChecks := 0),
             state := Stopped(reason)),
        Counters(ClampedDec(l.c.clear), ClampedDec(l.c.catches)),
        StoppedCore(l.s.rtt, l.hw, IsLast(l.c.catches), reason, i))
  }

  function ShutDown(l: Local, i: StopInput): Local {
    if l.s.state.Shutdown? then l
    else
      var l1 := Stop(l, ByShutdown, i);
      l1.(s := l1.s.(state := Shutdown))
  }

  // ----- raising the two counters; the first holder also works on the core

  predicate EnableFails(c: Counters, ok: bool) {
    c.catches == 0 && !ok
  }

  function RaisedCatch(c: Counters): Counters {
    c.(catches := WrappingInc(c.catches))
  }

  function RaisedCatchCore(c: Counters, hw: CoreState, ok: bool, latched: bool): CoreState {
    if c.catches == 0 then CatchEnabled(hw, ok, latched) else hw
  }

  function RaisedClear(c: Counters): Counters {
    c.(clear := WrappingInc(c.clear))
  }

  function ClearedCore(hw: CoreState, i: InitInput): CoreState {
    var hw1 := CatchDisabled(hw, i.disableOk);
    if i.disableOk then BreakpointsCleared(hw1, i.clearAllOk) else hw1
  }

  function RaisedClearCore(c: Counters, hw: CoreState, i: InitInput): CoreState {
    if c.clear == 0 then ClearedCore(hw, i) else hw
  }

  predicate ClearFails(c: Counters, i: InitInput) {
    c.clear == 0 && !(i.disableOk && i.clearAllOk)
  }

  // ----- do_init (src/rtt_session.rs:426-495)

  /** `tookClear` and `tookCatch` record which of the two counters the call incremented. */
  datatype InitOutcome = InitOutcome(
    c: Counters, hw: CoreState, error: Option<Error>, tookClear: bool, tookCatch: bool)

  /** Everything up to the first counter. */
  function InitPrologueError(target: TargetConfig, i: InitInput): Option<Error> {
    if !i.coreOk then Some(CoreAttach)
    else if i.status.None? then Some(CoreStatusFailed)
    else if target.reset && !i.resetOk then Some(ProbeFailed)
    else None
  }

  /** The core is reset first, if that is asked for. */
  function PrologueCore(target: TargetConfig, hw: CoreState, i: InitInput): CoreState {
    if i.coreOk && i.status.Some? && target.reset then Asked(hw, ResetAndHalt) else hw
  }

  /** A core that is halted is started, except by a companion. */
  predicate StartsCore(target: TargetConfig, i: InitInput)
    requires i.status.Some?
  {
    !target.companion && (target.reset || i.status.value.Halted?)
  }

  /** Everything after the counters; sets the stopping breakpoint at the very end. */
  function InitEpilogueError(target: TargetConfig, rtt: RttConfig, i: InitInput): Option<Error>
    requires i.status.Some?
  {
    if StartsCore(target, i) && !(i.registersOk && i.runOk) then Some(ProbeFailed)
    else if i.statusAfter.None? then Some(CoreStatusFailed)
    else if !i.statusAfter.value.Running? then Some(CoreNotRunning(target.core))
    else if rtt.stopOnBreakpoint.Some? && !(i.unitsOk && i.setBreakpointOk) then Some(ProbeFailed)
    else None
  }

  /** The breakpoint is set on a core that runs. */
  predicate SetsBreakpoint(target: TargetConfig, rtt: RttConfig, i: InitInput)
    requires i.status.Some?
  {
    && (StartsCore(target, i) ==> i.registersOk && i.runOk)
    && i.statusAfter == Some(Running)
    && rtt.stopOnBreakpoint.Some? && i.unitsOk
  }

  function EpilogueCore(target: TargetConfig, rtt: RttConfig, hw: CoreState, i: InitInput): CoreState
    requires i.status.Some?
  {
    var hw1 := if StartsCore(target, i) && i.registersOk then Asked(hw, RunCore) else hw;
    if SetsBreakpoint(target, rtt, i)
    then BreakpointSet(hw1, rtt.stopOnBreakpoint.value, i.setBreakpointOk)
    else hw1
  }

  function DoInit(target: TargetConfig, rtt: RttConfig, c: Counters, hw: CoreState, i: InitInput)
    : InitOutcome
  {
    var prologue := InitPrologueError(target, i);
    var hw0 := PrologueCore(target, hw, i);
    if prologue.Some? then InitOutcome(c, hw0, prologue, false, false)
    else
      var c1 := RaisedClear(c);
      var hw1 := RaisedClearCore(c, hw0, i);
      if ClearFails(c, i) then InitOutcome(c1, hw1, Some(ProbeFailed), true, false)
      else
        var early := EnablesCatchEarly(target);
        var c2 := if early then RaisedCatch(c1) else c1;
        var hw2 := if early then RaisedCatchCore(c1, hw1, i.enableOk, i.latched) else hw1;
        if early && EnableFails(c1, i.enableOk) then InitOutcome(c2, hw2, Some(ProbeFailed), true, true)
        else
          InitOutcome(c2, EpilogueCore(target, rtt, hw2, i), InitEpilogueError(target, rtt, i), true, early)
  }

  // ----- do_rtt_attach (src/rtt_session.rs:497-563)

  datatype AttachOutcome = AttachOutcome(
    c: Counters, hw: CoreState, cmds: seq<Command>, error: Option<Error>, tookCatch: bool)

  /** Up to the first command on the down channel. */
  function AttachPrologueError(rtt: RttConfig, i: AttachInput): Option<Error> {
    if !i.coreOk then Some(CoreAttach)
    else if i.region.NotFound? then Some(ControlBlockNotFound)
    else if i.region.RegionError? then Some(OtherRtt)
    else if !i.upFound then Some(UpChannelInvalid(rtt.upChannel))
    else if !i.modeOk then Some(OtherRtt)
    else if !rtt.disableControlPlane && !i.downFound then Some(DownChannelInvalid(rtt.downChannel))
    else None
  }

  function AttachCommands(rtt: RttConfig, i: AttachInput): (seq<Command>, Option<Error>) {
    if rtt.disableControlPlane then ([], None)
    else if rtt.restart && !i.stopOk then ([], Some(OtherRtt))
    else
      var stop := if rtt.restart then [StopTracing] else [];
      if i.startOk then (stop + [StartTracing], None) else (stop, Some(OtherRtt))
  }

  function DoRttAttach(target: TargetConfig, rtt: RttConfig, c: Counters, hw: CoreState, i: AttachInput)
    : AttachOutcome
  {
    var prologue := AttachPrologueError(rtt, i);
    if prologue.Some? then AttachOutcome(c, hw, [], prologue, false)
    else
      var (cmds, error) := AttachCommands(rtt, i);
      if error.Some? then AttachOutcome(c, hw, cmds, error, false)
      else if EnablesCatchEarly(target) then AttachOutcome(c, hw, cmds, None, false)
      else
        AttachOutcome(
          RaisedCatch(c),
          RaisedCatchCore(c, hw, i.enableOk, i.latched),
          cmds,
          if EnableFails(c, i.enableOk) then Some(ProbeFailed) else None,
          true)
  }

  // ----- do_run (src/rtt_session.rs:565-648)

  datatype StoppingCondition = NotReached | AtBreakpoint(address: nat) | AtResetCatch

  datatype RunOutcome = RunOutcome(s: Session, error: Option<Error>, condition: StoppingCondition)

  /** The program counter as the 64-bit address the source keeps. */
  function Address(pc: RegisterValue): nat {
    match pc
    case U32(v) => v % 0x1_0000_0000
    case U64(v) => v % 0x1_0000_0000_0000_0000
    case U128(v) => v % 0x1_0000_0000_0000_0000
  }

  /** A read fills at most the host buffer. */
  function Chunk(rtt: RttConfig, waiting: seq<byte>): seq<byte> {
    if |waiting| <= BufferSize(rtt) then waiting else waiting[..BufferSize(rtt)]
  }

  function DataEvent(bytes: seq<byte>): seq<ClientEvent> {
    if bytes == [] then [] else [Data(bytes)]
  }

  function Prefix(bytes: seq<byte>, n: nat): seq<byte> {
    if n < |bytes| then bytes[..n] else bytes
  }

  /** The limiter in charge is chosen by the outcome of the previous read. */
  predicate ReadDue(s: Session, now: Time) {
    if s.lastReadHadData then s.poll.Due(now) else s.idle.Due(now)
  }

  function AfterReadCheck(s: Session, now: Time): Session {
    var due := ReadDue(s, now);
    if s.lastReadHadData then
      s.(poll := s.poll.Checked(now),
         log := s.log.(pollReads := s.log.pollReads + if due then 1 else 0))
    else
      s.(idle := s.idle.Checked(now),
         log := s.log.(idleReads := s.log.idleReads + if due then 1 else 0))
  }

  function HaltCondition(i: RunInput): (Option<Error>, StoppingCondition) {
    match i.status
    case None => (Some(CoreStatusFailed), NotReached)
    case Some(Running) => (None, NotReached)
    case Some(Halted(why)) =>
      if !i.registersOk then (Some(ProbeFailed), NotReached)
      else if why.BreakpointHalt? then (None, AtBreakpoint(Address(i.pc)))
      else (None, AtResetCatch)
    case Some(OtherStatus) => (None, AtResetCatch)
  }

  /** The branch without data: look for a stopping condition, rate limited. */
  function CheckStopping(s: Session, now: Time, i: RunInput): RunOutcome {
    if !s.stopping.Due(now) then RunOutcome(s, None, NotReached)
    else
      var s1 := s.(stopping := s.stopping.Checked(now), log := s.log.(statusChecks := s.log.statusChecks + 1));
      var (error, condition) := HaltCondition(i);
      RunOutcome(s1, error, condition)
  }

  /** The branch with data: every byte read is handed to the client. */
  function Deliver(s: Session, chunk: seq<byte>, i: RunInput): RunOutcome
    requires chunk != []
  {
    var sent := if i.writeOk then chunk else Prefix(chunk, i.written);
    RunOutcome(
      s.(log := s.log.(
        chunks := s.log.chunks + [chunk],
        out := s.log.out + DataEvent(sent),
        deliveryFailed := s.log.deliveryFailed || !i.writeOk)),
      if i.writeOk then None else Some(ClientDisconnected),
      NotReached)
  }

  /** No part of reading and delivering looks at the lifecycle state. */
  lemma DoRunIgnoresState(s: Session, state: State, time: Readings, i: RunInput)
    ensures var o := DoRun(s, time, i);
            DoRun(s.(state := state), time, i) == o.(s := o.s.(state := state))
  {
  }

  function DoRun(s: Session, time: Readings, i: RunInput): RunOutcome {
    if !i.coreOk then RunOutcome(s, Some(CoreAttach), NotReached)
    else
      var due := ReadDue(s, time.t1);
      var s1 := AfterReadCheck(s, time.t1);
      if due && i.read.None? then RunOutcome(s1, Some(OtherRtt), NotReached)
      else
        var chunk := if due then Chunk(s.rtt, i.read.value) else [];
        var s2 := if due then s1.(lastReadHadData := chunk != []) else s1;
        if chunk != [] then Deliver(s2, chunk, i) else CheckStopping(s2, time.t2, i)
  }

  // ----- update_inner and update (src/rtt_session.rs:276-424)

  datatype InnerOutcome = InnerOutcome(l: Local, error: Option<Error>)

  function InnerInit(l: Local, i: UpdateInput): InnerOutcome
    requires l.s.state.Init?
  {
    var o := DoInit(l.s.target, l.s.rtt, l.c, l.hw, i.init);
    if o.error.Some? then InnerOutcome(Local(l.s, o.c, o.hw), o.error)
    else
      InnerOutcome(
        Local(l.s.(attachRetry := l.s.attachRetry.Restarted(i.time.t1),
                   log := l.s.log.(attempts := 0),
                   state := RttAttach(i.time.t2)),
              o.c, o.hw),
        None)
  }

  /** A missing control block is retried until the attach timeout has passed. */
  predicate RetriesAttach(s: Session, error: Error, now: Time)
    requires s.state.RttAttach?
  {
    && s.rtt.attachTimeoutMs.Some?
    && error.ControlBlockNotFound?
    && DurationSince(now, s.state.startedAt) <= s.rtt.attachTimeoutMs.value * MILLISECOND
  }

  function Tried(log: Log): Log {
    log.(attempts := log.attempts + 1, tries := log.tries + 1)
  }

  function EnterRun(s: Session, hasDownChannel: bool, epoch: nat, time: Readings): Session {
    s.(poll := s.poll.Restarted(time.t2),
       idle := s.idle.Restarted(time.t3),
       recovery := s.recovery.Restarted(time.t4),
       stopping := s.stopping.Restarted(time.t5),
       log := s.log.(runs := s.log.runs + 1, opener := s.log.tries, openers := s.log.openers + [s.log.tries],
                     pollReads := 0, idleReads := 0, statusChecks := 0, runStart := time.t5,
                     recoveryChecks := 0),
       state := Run(Handles(epoch, hasDownChannel)))
  }

  function InnerAttach(l: Local, epoch: nat, i: UpdateInput): InnerOutcome
    requires l.s.state.RttAttach?
  {
    var s1 := l.s.(attachRetry := l.s.attachRetry.Checked(i.time.t1));
    if !l.s.attachRetry.Due(i.time.t1) then InnerOutcome(l.(s := s1), None)
    else
      var o := DoRttAttach(l.s.target, l.s.rtt, l.c, l.hw, i.attach);
      var s2 := s1.(log := Wrote(Tried(s1.log), o.cmds, ByAttempt(s1.log.tries + 1)));
      if o.error.Some? then
        InnerOutcome(
          Local(s2, o.c, o.hw),
          if RetriesAttach(s2, o.error.value, i.time.t2) then None else o.error)
      else if !s2.responded && !i.attach.responseOk then
        InnerOutcome(Local(s2, o.c, o.hw), Some(ResponseJson))
      else
        var s3 := if s2.responded then s2
                  else s2.(responded := true, log := s2.log.(out := s2.log.out + [Started(s2.id)]));
        InnerOutcome(Local(EnterRun(s3, !l.s.rtt.disableControlPlane, epoch, i.time), o.c, o.hw), None)
  }

  function InnerRun(l: Local, i: UpdateInput): InnerOutcome
    requires l.s.state.Run?
  {
    var o := DoRun(l.s, i.time, i.run);
    var l1 := l.(s := o.s);
    if o.error.Some? then InnerOutcome(l1, o.error)
    else
      match o.condition
      case NotReached => InnerOutcome(l1, None)
      case AtBreakpoint(address) => InnerOutcome(Stop(l1, ByBreakpoint(address), i.stop), None)
      case AtResetCatch => InnerOutcome(Stop(l1, ByResetCatch, i.stop), None)
  }

  function UpdateInner(l: Local, epoch: nat, i: UpdateInput): InnerOutcome {
    match l.s.state
    case Init => InnerInit(l, i)
    case RttAttach(_) => InnerAttach(l, epoch, i)
    case Run(_) => InnerRun(l, i)
    case Stopped(_) => InnerOutcome(l, None)
    case Shutdown => InnerOutcome(l, None)
  }

  /** One more look for recovery. */
  function LookedAfter(log: Log, now: Time): Log {
    log.(recoveryChecks := log.recoveryChecks + 1,
         firstCheck := if log.recoveryChecks == 0 then now else log.firstCheck)
  }

  /** The rate-limited way from Stopped back to Init. */
  function Recover(s: Session, now: Time, i: RecoverInput): Session {
    var s1 := s.(recovery := s.recovery.Checked(now), log := LookedAfter(s.log, now));
    if !s.recovery.Due(now) then s
    else if !i.coreOk then s1.(state := Stopped(ByError(CoreAttach)))
    else if i.statusOk then s1.(state := Init)
    else s1
  }

  /** What becomes of an error: stop and wait for recovery, or tell the client and shut down. */
  function HandleError(l: Local, error: Error, i: UpdateInput): Local {
    if l.s.target.autoRecover && !error.ClientDisconnected? then
      Stop(l, ByError(error), i.stop)
    else
      var s1 :=
        if l.s.responded then l.s
        else
          l.s.(responded := true,
               log := if i.errorResponseOk then l.s.log.(out := l.s.log.out + [Failed(error)]) else l.s.log);
      ShutDown(l.(s := s1), i.stop)
  }

  function Update(l: Local, epoch: nat, i: UpdateInput): Local {
    if l.s.state.Shutdown? then l
    else if l.s.state.Stopped? && l.s.target.autoRecover then
      l.(s := Recover(l.s, i.time.t1, i.recover))
    else
      var o := UpdateInner(l, epoch, i);
      if o.error.Some? then HandleError(o.l, o.error.value, i) else o.l
  }
}
