/** A debug probe with its sessions as a value, and the function each operation of
    `ProbeState` in src/manager.rs computes. */
module ProbeModel {
  import opened Clock
  import opened RateLimiters
  import opened SharedStates
  import opened SessionModel

  const RECOVERY_RETRY_INTERVAL: nat := 50 * MILLISECOND
  const HEALTH_CHECK_INTERVAL: nat := 100 * MILLISECOND

  /** The counters registered for a core and what was left in the core itself. */
  datatype Cell = Cell(c: Counters, hw: CoreState)

  /** One call of `enter_recovery`: when, with how many sessions, after how many updates. */
  datatype Entry = Entry(time: Time, sessions: nat, updates: nat)

  /** A record of what happened to the probe. No operation reads it.
      Of the sessions that were scheduled when servicing last resumed after a recovery,
      `resumedCount` are still there, and `pending` are those among them that have not been
      updated since. `ended` keeps what became of the sessions that were removed. */
  datatype History = History(
    clock: Time,
    updates: nat,
    entries: seq<Entry>,
    setups: seq<Time>,
    checks: seq<Time>,
    pending: set<SessionId>,
    resumedCount: nat,
    ended: map<SessionId, Session>)

  /** `found` is what earlier uses of the probe, or anybody else, left in its cores. */
  datatype Probe = Probe(
    found: map<nat, CoreState>,
    active: bool,
    epoch: nat,
    cores: map<nat, Cell>,
    sessions: map<SessionId, Session>,
    schedule: seq<SessionId>,
    nextIdx: nat,
    gate: nat,
    retry: Limiter,
    check: Limiter,
    history: History)

  /** Sessions are filed under their own id and their core is registered. */
  predicate Wired(p: Probe) {
    forall id :: id in p.sessions ==> p.sessions[id].id == id && p.sessions[id].target.core in p.cores
  }

  function NewProbe(now: Time, found: map<nat, CoreState>): Probe {
    Probe(found, true, 0, map[], map[], [], 0, 0,
          NewLimiter(RECOVERY_RETRY_INTERVAL, now),
          NewLimiter(HEALTH_CHECK_INTERVAL, now),
          History(now, 0, [], [], [], {}, 0, map[]))
  }

  // ----- one session in its place

  function LocalOf(p: Probe, id: SessionId): Local
    requires Wired(p) && id in p.sessions
  {
    var s := p.sessions[id];
    Local(s, p.cores[s.target.core].c, p.cores[s.target.core].hw)
  }

  function WithCell(p: Probe, core: nat, c: Counters, hw: CoreState): Probe {
    p.(cores := p.cores[core := Cell(c, hw)])
  }

  function WithLocal(p: Probe, id: SessionId, l: Local): Probe {
    WithCell(p, l.s.target.core, l.c, l.hw).(sessions := p.sessions[id := l.s])
  }

  function Ids(schedule: seq<SessionId>): set<SessionId> {
    set id | id in schedule
  }

  // ----- service (src/manager.rs:340-426)

  datatype ServiceInput = ServiceInput(
    retryTime: Time, setupOk: bool, update: UpdateInput, checkTime: Time)

  predicate HasScheduled(p: Probe) {
    p.nextIdx < |p.schedule| && p.schedule[p.nextIdx] in p.sessions
  }

  function UpdateScheduled(p: Probe, i: UpdateInput): Probe
    requires Wired(p)
  {
    if !HasScheduled(p) then p
    else
      var id := p.schedule[p.nextIdx];
      WithLocal(p, id, Update(LocalOf(p, id), p.epoch, i)).(
        gate := if p.gate == 0 then 0 else p.gate - 1,
        history := p.history.(
          clock := i.time.t5,
          updates := p.history.updates + 1,
          pending := p.history.pending - {id}))
  }

  function Advance(p: Probe): Probe {
    p.(nextIdx := if p.nextIdx + 1 >= |p.schedule| then 0 else p.nextIdx + 1)
  }

  /** The heuristic as the source spells it. */
  predicate LooksDead(p: Probe) {
    && (exists id :: id in p.sessions && p.sessions[id].target.autoRecover && !IsShutdown(p.sessions[id]))
    && p.sessions.Keys != {}
    && !(exists id :: id in p.sessions && IsRunning(p.sessions[id]))
    && (exists id :: id in p.sessions && IsStoppedByCoreAttach(p.sessions[id]))
  }

  lemma LooksDeadBySessions(p: Probe, p2: Probe)
    requires p2.sessions == p.sessions
    ensures LooksDead(p2) == LooksDead(p)
  {
  }

  function CountersReset(cores: map<nat, Cell>): map<nat, Cell> {
    map core | core in cores :: Cell(ZERO, cores[core].hw)
  }

  function EnterRecovery(p: Probe, now: Time): Probe {
    p.(active := false,
       cores := CountersReset(p.cores),
       nextIdx := 0,
       gate := |p.sessions|,
       history := p.history.(entries := p.history.entries + [Entry(now, |p.sessions|, p.history.updates)]))
  }

  function HealthChecked(p: Probe, now: Time): Probe {
    p.(check := p.check.Checked(now),
       history := p.history.(
         clock := now,
         checks := if p.check.Due(now) then p.history.checks + [now] else p.history.checks))
  }

  function CheckHealth(p: Probe, now: Time): Probe {
    var p1 := HealthChecked(p, now);
    if p.check.Due(now) && p.gate == 0 && LooksDead(p) then EnterRecovery(p1, now) else p1
  }

  function Resume(p: Probe): Probe {
    p.(active := true,
       epoch := p.epoch + 1,
       history := p.history.(
         pending := Ids(p.schedule),
         resumedCount := |p.schedule|))
  }

  function RecoverProbe(p: Probe, now: Time, setupOk: bool): Probe {
    var p1 := p.(retry := p.retry.Checked(now), history := p.history.(clock := now));
    if !p.retry.Due(now) then p1
    else
      var p2 := p1.(history := p1.history.(setups := p1.history.setups + [now]));
      if setupOk then Resume(p2) else p2
  }

  function Service(p: Probe, i: ServiceInput): Probe
    requires Wired(p)
  {
    if !p.active then RecoverProbe(p, i.retryTime, i.setupOk)
    else CheckHealth(Advance(UpdateScheduled(p, i.update)), i.checkTime)
  }

  // ----- adding a session (src/manager.rs:212-256, 327-338)

  datatype RequestError = ProbeNotUsable | AlreadyStarted | ProbeInRecovery | RequestIo

  predicate SameChannel(s: Session, target: TargetConfig, rtt: RttConfig) {
    && s.target.core == target.core
    && s.rtt.controlBlock == rtt.controlBlock
    && s.rtt.upChannel == rtt.upChannel
  }

  predicate Taken(p: Probe, target: TargetConfig, rtt: RttConfig) {
    exists id :: id in p.sessions && SameChannel(p.sessions[id], target, rtt)
  }

  function Register(p: Probe, core: nat): Probe {
    if core in p.cores then p else WithCell(p, core, ZERO, AsFound(p.found, core))
  }

  function Add(p: Probe, s: Session): Probe {
    p.(sessions := p.sessions[s.id := s], schedule := p.schedule + [s.id])
  }

  function RequestOutcome(p: Probe, target: TargetConfig, rtt: RttConfig, ioOk: bool): Option<RequestError> {
    if Taken(p, target, rtt) then Some(AlreadyStarted)
    else if !p.active then Some(ProbeInRecovery)
    else if !ioOk then Some(RequestIo)
    else None
  }

  function Request(p: Probe, id: SessionId, target: TargetConfig, rtt: RttConfig, ioOk: bool, now: Time): Probe {
    if Taken(p, target, rtt) then p
    else
      var p1 := Register(p, target.core);
      if !p.active || !ioOk then p1
      else Add(p1, NewSession(id, target, rtt, now)).(history := p.history.(clock := now))
  }

  // ----- removing sessions (src/manager.rs:302-325)

  function IndexOf(schedule: seq<SessionId>, id: SessionId): (k: nat)
    requires id in schedule
    ensures k < |schedule| && schedule[k] == id && id !in schedule[..k]
  {
    if schedule[0] == id then 0 else 1 + IndexOf(schedule[1..], id)
  }

  function Unscheduled(schedule: seq<SessionId>, id: SessionId): seq<SessionId> {
    if id in schedule then
      var k := IndexOf(schedule, id);
      schedule[..k] + schedule[k + 1..]
    else schedule
  }

  /** What removing a session leaves on its core: it is shut down if there is a debug session
      to do that with, and otherwise just dropped. */
  function Released(l: Local, active: bool, i: StopInput): Local {
    if active then ShutDown(l, i)
    else if HoldsCatch(l.s) then l.(hw := CatchLeft(l.hw))
    else l
  }

  /** What becomes of a session that is removed: shut down, or left as it was if the probe is lost. */
  function Ended(s: Session, active: bool, i: StopInput): Session {
    if active then ShutDown(Local(s, ZERO, UNTOUCHED), i).s else s
  }

  lemma ReleasedIsEnded(l: Local, active: bool, i: StopInput)
    ensures Released(l, active, i).s == Ended(l.s, active, i)
  {
    hide StoppedCore;
  }

  /** The session is taken out of the map; its schedule slot is dealt with by the caller. */
  function Detach(p: Probe, id: SessionId, i: StopInput): Probe
    requires Wired(p) && id in p.sessions
  {
    var l := Released(LocalOf(p, id), p.active, i);
    WithCell(p, l.s.target.core, l.c, l.hw).(
      sessions := p.sessions - {id},
      history := p.history.(ended := p.history.ended[id := l.s]))
  }

  /** The schedule without a session that is gone; it starts over at its first entry. */
  function Dropped(p: Probe, id: SessionId): Probe {
    if id !in p.schedule then p
    else
      p.(schedule := Unscheduled(p.schedule, id),
         nextIdx := 0,
         history := p.history.(
           pending := p.history.pending - {id},
           resumedCount := if IndexOf(p.schedule, id) < p.history.resumedCount
                           then p.history.resumedCount - 1 else p.history.resumedCount))
  }

  function Remove(p: Probe, id: SessionId, i: StopInput): Probe
    requires Wired(p)
  {
    if id in p.sessions then Dropped(Detach(p, id, i), id) else p
  }

  lemma ReleasedKeepsTarget(l: Local, active: bool, i: StopInput)
    ensures Released(l, active, i).s.target == l.s.target
  {
  }

  lemma DetachIsWired(p: Probe, id: SessionId, i: StopInput)
    requires Wired(p) && id in p.sessions
    ensures var p2 := Detach(p, id, i);
            Wired(p2) && p2.sessions == p.sessions - {id} && p2.active == p.active
  {
    hide Released;
    ReleasedKeepsTarget(LocalOf(p, id), p.active, i);
  }

  predicate Distinct(ids: seq<SessionId>) {
    forall j, k :: 0 <= j < k < |ids| ==> ids[j] != ids[k]
  }

  /** All sessions go, in the order the map happens to yield them. The schedule is left behind. */
  function DetachAll(p: Probe, order: seq<SessionId>, stops: SessionId -> StopInput): (p2: Probe)
    requires Wired(p) && Distinct(order) && Ids(order) <= p.sessions.Keys
    ensures Wired(p2) && p2.active == p.active && p2.sessions == p.sessions - Ids(order)
    decreases |order|
  {
    if order == [] then
      assert Ids(order) == {};
      p
    else
      var first, last := order[..|order| - 1], order[|order| - 1];
      assert Ids(order) == Ids(first) + {last};
      var p1 := DetachAll(p, first, stops);
      DetachIsWired(p1, last, stops(last));
      Detach(p1, last, stops(last))
  }

  /** These sessions of `p` have come to their end, each with its own stop, and nothing else has. */
  predicate AllEnded(p: Probe, ids: set<SessionId>, ended: map<SessionId, Session>, stops: SessionId -> StopInput)
    requires ids <= p.sessions.Keys
  {
    && ended.Keys == p.history.ended.Keys + ids
    && (forall id :: id in ids ==> ended[id] == Ended(p.sessions[id], p.active, stops(id)))
    && (forall id :: id in p.history.ended && id !in ids ==> ended[id] == p.history.ended[id])
  }

  lemma {:induction false} DetachAllEnds(p: Probe, order: seq<SessionId>, stops: SessionId -> StopInput)
    requires Wired(p) && Distinct(order) && Ids(order) <= p.sessions.Keys
    ensures AllEnded(p, Ids(order), DetachAll(p, order, stops).history.ended, stops)
    decreases |order|
  {
    hide Released, Ended, AllEnded;
    if order == [] {
      NothingEnds(p, order, stops);
    } else {
      var first, last := order[..|order| - 1], order[|order| - 1];
      assert Ids(order) == Ids(first) + {last};
      DetachAllEnds(p, first, stops);
      var p1 := DetachAll(p, first, stops);
      ReleasedIsEnded(LocalOf(p1, last), p.active, stops(last));
      OneMoreEnds(p, Ids(first), p1.history.ended, last, stops);
    }
  }

  lemma NothingEnds(p: Probe, order: seq<SessionId>, stops: SessionId -> StopInput)
    requires order == []
    ensures Ids(order) <= p.sessions.Keys && AllEnded(p, Ids(order), p.history.ended, stops)
  {
  }

  lemma OneMoreEnds(
    p: Probe, ids: set<SessionId>, ended: map<SessionId, Session>, id: SessionId, stops: SessionId -> StopInput)
    requires ids <= p.sessions.Keys && AllEnded(p, ids, ended, stops) && id in p.sessions
    ensures AllEnded(p, ids + {id}, ended[id := Ended(p.sessions[id], p.active, stops(id))], stops)
  {
    hide Ended;
  }

  /** All sessions of `p` have been removed, in some order, and `p2` is what that left: every one of
      them is shut down, or dropped as it was if the probe is lost. */
  ghost predicate Emptied(p: Probe, p2: Probe, stops: SessionId -> StopInput) {
    && Wired(p)
    && (exists order: seq<SessionId> ::
          Distinct(order) && Ids(order) == p.sessions.Keys && p2 == DetachAll(p, order, stops))
    && AllEnded(p, p.sessions.Keys, p2.history.ended, stops)
  }

  lemma OneMoreDetached(p: Probe, order: seq<SessionId>, id: SessionId, stops: SessionId -> StopInput)
    requires Wired(p) && Distinct(order) && Ids(order) <= p.sessions.Keys
    requires id in p.sessions && id !in Ids(order)
    ensures Distinct(order + [id]) && Ids(order + [id]) == Ids(order) + {id}
    ensures Ids(order + [id]) <= p.sessions.Keys
    ensures DetachAll(p, order + [id], stops) == Detach(DetachAll(p, order, stops), id, stops(id))
  {
    assert (order + [id])[..|order|] == order;
  }

  lemma NothingDetached(p: Probe, stops: SessionId -> StopInput)
    requires Wired(p)
    ensures Distinct([]) && Ids([]) == {} && DetachAll(p, [], stops) == p
  {
  }
}
