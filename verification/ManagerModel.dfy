/** All probes of the proxy as a value, and the function each operation of `Manager` in
    src/manager.rs computes. */
module ManagerModel {
  import opened Clock
  import opened SessionModel
  import opened ProbeModel

  type ProbeId = nat

  type Probes = map<ProbeId, Probe>

  /** A request for a new session, with what the probe, the clock and the system say to it. */
  datatype SessionRequest = SessionRequest(
    found: Option<ProbeId>,   // the probe the selector resolves to
    forceExclusive: bool,
    setupOk: bool,            // opening the probe and attaching to the chip
    id: SessionId,
    target: TargetConfig,
    rtt: RttConfig,
    ioOk: bool,               // cloning the stream and spawning the control thread
    now: Time,
    coresFound: map<nat, CoreState>)   // the cores, if the probe is opened

  predicate AllWired(m: Probes) {
    forall pid :: pid in m ==> Wired(m[pid])
  }

  /** No session id appears in two probes. */
  ghost predicate IdsApart(m: Probes) {
    forall a, b :: a in m && b in m && a != b ==> m[a].sessions.Keys !! m[b].sessions.Keys
  }

  predicate FreshId(m: Probes, id: SessionId) {
    forall pid :: pid in m ==> id !in m[pid].sessions
  }

  /** Probes without sessions are dropped. */
  function Pruned(m: Probes): Probes {
    map pid | pid in m && m[pid].sessions.Keys != {} :: m[pid]
  }

  lemma PrunedIsFresh(m: Probes, id: SessionId)
    requires FreshId(m, id)
    ensures FreshId(Pruned(m), id)
  {
  }

  /** An exclusive request first throws out the probe with all its sessions. */
  function MadeRoom(m: Probes, pid: ProbeId, r: SessionRequest): Probes {
    if r.forceExclusive then m - {pid} else m
  }

  /** The probe to use: the one at hand, or one just opened. */
  function ProbeFor(m: Probes, pid: ProbeId, r: SessionRequest): Probe {
    if pid in m then m[pid] else NewProbe(r.now, r.coresFound)
  }

  predicate CannotOpen(m: Probes, pid: ProbeId, r: SessionRequest) {
    pid !in m && !r.setupOk
  }

  function HandleRequest(m: Probes, r: SessionRequest): Probes {
    var m1 := Pruned(m);
    match r.found
    case None => m1
    case Some(pid) =>
      var m2 := MadeRoom(m1, pid, r);
      if CannotOpen(m2, pid, r) then m2
      else m2[pid := Request(ProbeFor(m2, pid, r), r.id, r.target, r.rtt, r.ioOk, r.now)]
  }

  function RequestResult(m: Probes, r: SessionRequest): Option<RequestError> {
    match r.found
    case None => Some(ProbeNotUsable)
    case Some(pid) =>
      var m2 := MadeRoom(Pruned(m), pid, r);
      if CannotOpen(m2, pid, r) then Some(ProbeNotUsable)
      else RequestOutcome(ProbeFor(m2, pid, r), r.target, r.rtt, r.ioOk)
  }

  /** The session is removed from the probe that has it; ids are unique, so there is at most one. */
  function WithoutSession(m: Probes, id: SessionId, i: StopInput): Probes
    requires AllWired(m)
  {
    map pid | pid in m :: Remove(m[pid], id, i)
  }

  lemma OnlyHolder(m: Probes, pid: ProbeId, id: SessionId, i: StopInput)
    requires AllWired(m) && IdsApart(m) && pid in m && id in m[pid].sessions
    ensures WithoutSession(m, id, i) == m[pid := Remove(m[pid], id, i)]
  {
    hide Detach, Unscheduled, Wired;
    forall other | other in m && other != pid
      ensures id !in m[other].sessions
    {
      assert m[other].sessions.Keys !! m[pid].sessions.Keys;
    }
  }

  lemma NoHolder(m: Probes, id: SessionId, i: StopInput)
    requires AllWired(m) && FreshId(m, id)
    ensures WithoutSession(m, id, i) == m
  {
    hide Detach, Unscheduled, Wired;
  }

  function ShutdownSession(m: Probes, id: SessionId, i: StopInput): Probes
    requires AllWired(m)
  {
    Pruned(WithoutSession(m, id, i))
  }

  function ServiceProbes(m: Probes, inputs: ProbeId -> ServiceInput): Probes
    requires AllWired(m)
  {
    map pid | pid in m :: Service(m[pid], inputs(pid))
  }
}
