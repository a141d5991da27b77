/** Whole runs of the proxy: any sequence of requests, session shutdowns and service ticks over
    any number of probes. */
module ManagerProofs {
  import opened Clock
  import opened SharedStates
  import opened SessionModel
  import opened SessionProofs
  import opened SessionTiming
  import opened ProbeModel
  import opened ProbeProofs
  import opened ProbePacing
  import opened ManagerModel

  /** At most one probe is without sessions, and a probe in recovery never is. */
  ghost predicate HardlyEmpty(m: Probes) {
    && (forall a, b :: a in m && b in m && m[a].sessions.Keys == {} && m[b].sessions.Keys == {} ==> a == b)
    && (forall a :: a in m && m[a].sessions.Keys == {} ==> m[a].active)
  }

  ghost predicate ProbesHold(m: Probes) {
    forall pid :: pid in m ==> Invariant(m[pid]) && Paced(m[pid])
  }

  ghost predicate Holds(m: Probes) {
    ProbesHold(m) && IdsApart(m) && HardlyEmpty(m)
  }

  lemma HoldsIsWired(m: Probes)
    requires ProbesHold(m)
    ensures AllWired(m)
  {
    hide Paced, Bounded, HandlesFresh, AllSound, Covered;
  }

  // ----- each operation keeps the invariant

  lemma PrunedHolds(m: Probes)
    requires ProbesHold(m) && IdsApart(m)
    ensures ProbesHold(Pruned(m)) && IdsApart(Pruned(m)) && HardlyEmpty(Pruned(m))
    ensures forall pid :: pid in Pruned(m) ==> Pruned(m)[pid].sessions.Keys != {}
  {
    hide Invariant, Paced;
  }

  lemma RequestSessions(p: Probe, id: SessionId, target: TargetConfig, rtt: RttConfig, ioOk: bool, now: Time)
    ensures var p2 := Request(p, id, target, rtt, ioOk, now);
            && (RequestOutcome(p, target, rtt, ioOk).None? ==>
                  && p2.sessions == p.sessions[id := NewSession(id, target, rtt, now)]
                  && p2.schedule == p.schedule + [id])
            && (RequestOutcome(p, target, rtt, ioOk).Some? ==>
                  p2.sessions == p.sessions && p2.schedule == p.schedule && p2.history == p.history)
            && p2.active == p.active && p2.nextIdx == p.nextIdx && p2.gate == p.gate
  {
    hide Taken;
  }

  lemma PutRequest(m: Probes, pid: ProbeId, r: SessionRequest)
    requires ProbesHold(m) && IdsApart(m) && FreshId(m, r.id)
    requires forall a :: a in m ==> m[a].sessions.Keys != {}
    ensures var p := ProbeFor(m, pid, r);
            Holds(m[pid := Request(p, r.id, r.target, r.rtt, r.ioOk, r.now)])
  {
    hide Invariant, Paced, Request, RequestOutcome, NewProbe;
    var p := ProbeFor(m, pid, r);
    if pid !in m {
      NewProbeInvariant(r.now, r.coresFound);
      NewProbeIsPaced(r.now, r.coresFound);
    }
    RequestInvariant(p, r.id, r.target, r.rtt, r.ioOk, r.now);
    RequestPaced(p, r.id, r.target, r.rtt, r.ioOk, r.now);
    RequestSessions(p, r.id, r.target, r.rtt, r.ioOk, r.now);
  }

  lemma NewProbeIsPaced(now: Time, found: map<nat, CoreState>)
    ensures Paced(NewProbe(now, found)) && NewProbe(now, found).sessions == map[] && NewProbe(now, found).active
  {
  }

  lemma HandleRequestHolds(m: Probes, r: SessionRequest)
    requires Holds(m) && FreshId(m, r.id)
    ensures Holds(HandleRequest(m, r))
  {
    hide Invariant, Paced, Request;
    PrunedHolds(m);
    match r.found
    case None =>
    case Some(pid) =>
      var m2 := MadeRoom(Pruned(m), pid, r);
      if !CannotOpen(m2, pid, r) {
        PutRequest(m2, pid, r);
      }
  }

  lemma RemoveSessions(p: Probe, id: SessionId, i: StopInput)
    requires Wired(p)
    ensures Remove(p, id, i).sessions == p.sessions - {id}
    ensures id !in p.sessions ==> Remove(p, id, i) == p
  {
    hide Released, Unscheduled, IndexOf;
    if id in p.sessions {
      DetachIsWired(p, id, i);
    } else {
      assert p.sessions - {id} == p.sessions;
    }
  }

  lemma ShutdownSessionHolds(m: Probes, id: SessionId, i: StopInput)
    requires Holds(m)
    ensures AllWired(m) && Holds(ShutdownSession(m, id, i))
  {
    hide Invariant, Paced, Remove, Wired;
    HoldsIsWired(m);
    var m1 := WithoutSession(m, id, i);
    forall pid | pid in m
      ensures Invariant(m1[pid]) && Paced(m1[pid]) && m1[pid].sessions.Keys <= m[pid].sessions.Keys
    {
      RemoveInvariant(m[pid], id, i);
      RemovePaced(m[pid], id, i);
      RemoveSessions(m[pid], id, i);
    }
    PrunedHolds(m1);
  }

  lemma ServiceSessions(p: Probe, i: ServiceInput)
    requires Invariant(p)
    ensures Wired(p) && Service(p, i).sessions.Keys == p.sessions.Keys
    ensures p.sessions.Keys == {} && p.active ==> Service(p, i).active
  {
    hide Update, NoChannelShared, Bounded, HandlesFresh, AllSound, Covered, Distinct;
    if p.active && HasScheduled(p) {
      UpdateMovesForward(LocalOf(p, p.schedule[p.nextIdx]), p.epoch, i.update);
    }
  }

  lemma ServiceProbesHolds(m: Probes, inputs: ProbeId -> ServiceInput)
    requires Holds(m)
    ensures AllWired(m) && Holds(ServiceProbes(m, inputs))
  {
    hide Invariant, Paced, Service, Wired;
    HoldsIsWired(m);
    var m1 := ServiceProbes(m, inputs);
    forall pid | pid in m
      ensures && Invariant(m1[pid]) && Paced(m1[pid]) && m1[pid].sessions.Keys == m[pid].sessions.Keys
              && (m[pid].sessions.Keys == {} && m[pid].active ==> m1[pid].active)
    {
      ServiceInvariant(m[pid], inputs(pid));
      ServicePaced(m[pid], inputs(pid));
      ServiceSessions(m[pid], inputs(pid));
    }
  }

  // ----- runs

  datatype ManagerOp =
    | Handle(r: SessionRequest)
    | EndSession(id: SessionId, stop: StopInput)
    | Tick(inputs: ProbeId -> ServiceInput)

  /** Session ids are random UUIDs, so a request that would reuse one does not occur; and every
      probe is wired, as ProxyHolds proves, so the last two branches always act. */
  ghost function Next(m: Probes, op: ManagerOp): Probes {
    match op
    case Handle(r) => if FreshId(m, r.id) then HandleRequest(m, r) else m
    case EndSession(id, stop) => if AllWired(m) then ShutdownSession(m, id, stop) else m
    case Tick(inputs) => if AllWired(m) then ServiceProbes(m, inputs) else m
  }

  /** The proxy after a sequence of operations, from its start. */
  ghost function Proxy(ops: seq<ManagerOp>): Probes {
    if ops == [] then map[] else Next(Proxy(ops[..|ops| - 1]), ops[|ops| - 1])
  }

  lemma NextHolds(m: Probes, op: ManagerOp)
    requires Holds(m)
    ensures Holds(Next(m, op)) && AllWired(m)
  {
    hide Holds, HandleRequest, ShutdownSession, ServiceProbes;
    assert AllWired(m) by { HoldsWired(m); }
    match op
    case Handle(r) =>
      if FreshId(m, r.id) {
        HandleRequestHolds(m, r);
      }
    case EndSession(id, stop) => ShutdownSessionHolds(m, id, stop);
    case Tick(inputs) => ServiceProbesHolds(m, inputs);
  }

  lemma HoldsWired(m: Probes)
    requires Holds(m)
    ensures AllWired(m)
  {
    hide ProbesHold;
    HoldsIsWired(m);
  }

  /** Every state the proxy can reach satisfies the invariant. */
  lemma {:induction false} ProxyHolds(ops: seq<ManagerOp>)
    ensures Holds(Proxy(ops))
  {
    hide Next, Holds;
    if ops != [] {
      ProxyHolds(ops[..|ops| - 1]);
      NextHolds(Proxy(ops[..|ops| - 1]), ops[|ops| - 1]);
    } else {
      NothingHolds();
    }
  }

  lemma NothingHolds()
    ensures Holds(map[])
  {
  }

  // ----- what that means, for every run, every probe and every session

  lemma CountersNeverExceedHolders(ops: seq<ManagerOp>, pid: ProbeId, core: nat)
    requires pid in Proxy(ops) && core in Proxy(ops)[pid].cores
    ensures var p := Proxy(ops)[pid];
            && p.cores[core].c.clear <= |ClearHolders(p.sessions, core)|
            && p.cores[core].c.catches <= |CatchHolders(p.sessions, core)|
            && (!p.active ==> p.cores[core].c == ZERO)
  {
    hide Proxy, Paced, HandlesFresh, AllSound, Covered, Structured, ClearHolders, CatchHolders;
    ProxyHolds(ops);
    assert Invariant(Proxy(ops)[pid]);
  }

  /** A CoreReset catch that is on is held by a session attached to that core, unless an attempt
      to switch it off failed, a holder was dropped while the probe was lost, or it was found on
      when the probe was opened. */
  lemma NoLeakedCatch(ops: seq<ManagerOp>, pid: ProbeId, core: nat)
    requires pid in Proxy(ops) && core in Proxy(ops)[pid].cores
    requires Proxy(ops)[pid].cores[core].hw.catchOn && !Proxy(ops)[pid].cores[core].hw.orphaned
    ensures exists id :: id in Proxy(ops)[pid].sessions
                         && Proxy(ops)[pid].sessions[id].target.core == core
                         && HoldsCatch(Proxy(ops)[pid].sessions[id])
  {
    hide Proxy, Paced, HandlesFresh, AllSound, Covered, Structured;
    ProxyHolds(ops);
    var p := Proxy(ops)[pid];
    assert Invariant(p);
    assert CatchHolders(p.sessions, core) != {};
    var id :| id in CatchHolders(p.sessions, core);
    assert id in p.sessions;
  }

  /** Nobody is counted on any core, and a catch that is on is one that could not be switched off. */
  ghost predicate LeavesNothing(p: Probe) {
    forall core :: core in p.cores ==>
      p.cores[core].c == ZERO && (p.cores[core].hw.catchOn ==> p.cores[core].hw.orphaned)
  }

  lemma EmptyLeavesNothing(p: Probe)
    requires Bounded(p) && p.sessions.Keys == {}
    ensures LeavesNothing(p)
  {
    forall core | core in p.cores
      ensures ClearHolders(p.sessions, core) == {} && CatchHolders(p.sessions, core) == {}
    {
    }
  }

  /** When ending a session closes a probe, the probe leaves no catch on behind the back of the
      sessions to come, unless switching it off failed or was impossible. */
  lemma EndingLeavesNothing(ops: seq<ManagerOp>, pid: ProbeId, id: SessionId, stop: StopInput)
    requires pid in Proxy(ops) && pid !in Next(Proxy(ops), EndSession(id, stop))
    ensures Wired(Proxy(ops)[pid]) && LeavesNothing(Remove(Proxy(ops)[pid], id, stop))
  {
    hide Proxy, Remove, Paced, Wired, Structured, Covered, HandlesFresh, AllSound, LeavesNothing, Bounded;
    ProxyHolds(ops);
    var p := Proxy(ops)[pid];
    assert Invariant(p);
    HoldsWired(Proxy(ops));
    RemoveInvariant(p, id, stop);
    EmptyLeavesNothing(Remove(p, id, stop));
  }

  /** The same when a request closes a probe: one without sessions is pruned, and one with
      sessions is thrown out by an exclusive request after `p2` is left of it. */
  lemma RequestLeavesNothing(ops: seq<ManagerOp>, pid: ProbeId, p2: Probe, stops: SessionId -> StopInput)
    requires pid in Proxy(ops)
    ensures Proxy(ops)[pid].sessions.Keys == {} ==> LeavesNothing(Proxy(ops)[pid])
    ensures Emptied(Proxy(ops)[pid], p2, stops) ==> LeavesNothing(p2)
  {
    hide Proxy, Paced, Structured, Covered, HandlesFresh, AllSound, LeavesNothing, Emptied, Bounded;
    ProxyHolds(ops);
    var p := Proxy(ops)[pid];
    assert Invariant(p);
    if p.sessions.Keys == {} {
      EmptyLeavesNothing(p);
    }
    if Emptied(p, p2, stops) {
      NothingIsLeft(p, p2, stops);
      assert LeavesNothing(p2) by { LeavesNothingIs(p2); }
    }
  }

  /** A probe that is opened again finds what its earlier use left: taking the catches it finds on
      for nobody's marks none that was not marked before. */
  lemma ReopeningOrphansNothing(p: Probe, core: nat)
    requires LeavesNothing(p) && core in p.cores
    ensures AsFound(map c | c in p.cores :: p.cores[c].hw, core) == p.cores[core].hw
  {
  }

  lemma LeavesNothingIs(p: Probe)
    requires forall core :: core in p.cores ==>
               p.cores[core].c == ZERO && (p.cores[core].hw.catchOn ==> p.cores[core].hw.orphaned)
    ensures LeavesNothing(p)
  {
  }

  /** A running session uses handles of the debug session its probe has now, and no session runs
      while the probe is lost. */
  lemma NoStaleHandles(ops: seq<ManagerOp>, pid: ProbeId, id: SessionId)
    requires pid in Proxy(ops) && id in Proxy(ops)[pid].sessions
    requires IsRunning(Proxy(ops)[pid].sessions[id])
    ensures Proxy(ops)[pid].active
    ensures Proxy(ops)[pid].sessions[id].state.handles.epoch == Proxy(ops)[pid].epoch
  {
    hide Proxy, Paced, Bounded, AllSound, Covered, Structured;
    ProxyHolds(ops);
    assert Invariant(Proxy(ops)[pid]);
  }

  /** What the client and the target get from a session, at any time. */
  lemma EverySessionIsSound(ops: seq<ManagerOp>, pid: ProbeId, id: SessionId)
    requires pid in Proxy(ops) && id in Proxy(ops)[pid].sessions
    ensures var s := Proxy(ops)[pid].sessions[id];
            && s.id == id
            && ClientGrammar(id, s.log.out)
            && CommandGrammar(s.rtt, s.log.cmds)
            && Linked(s.log.cmds, s.log.writers, s.log.tries)
            && Sent(s.log.out) <= Flatten(s.log.chunks)
            && (!s.log.deliveryFailed ==> Sent(s.log.out) == Flatten(s.log.chunks))
            && (s.log.deliveryFailed ==> IsShutdown(s))
            && (!IsShutdown(s) ==> Sent(s.log.out) == Flatten(s.log.chunks))
            && (IsShutdown(s) ==> s.responded)
            && (s.log.chunks != [] ==> Flatten(s.log.chunks[..|s.log.chunks| - 1]) <= Sent(s.log.out))
            && (!s.target.autoRecover ==> s.log.runs <= 1)
  {
    hide Proxy, Paced, Bounded, HandlesFresh, Covered, ClientGrammar, CommandGrammar, Linked, Sent, Flatten;
    ProxyHolds(ops);
    assert Invariant(Proxy(ops)[pid]);
    assert Sound(Proxy(ops)[pid].sessions[id]);
  }

  /** The same for the sessions that were removed, as they were when they ended: their clients got
      every byte that was read, unless delivering them failed. */
  lemma EndedSessionsAreSound(ops: seq<ManagerOp>, pid: ProbeId, id: SessionId)
    requires pid in Proxy(ops) && id in Proxy(ops)[pid].history.ended
    ensures var s := Proxy(ops)[pid].history.ended[id];
            && ClientGrammar(s.id, s.log.out)
            && CommandGrammar(s.rtt, s.log.cmds)
            && Linked(s.log.cmds, s.log.writers, s.log.tries)
            && Sent(s.log.out) <= Flatten(s.log.chunks)
            && (!s.log.deliveryFailed ==> Sent(s.log.out) == Flatten(s.log.chunks))
            && (!s.target.autoRecover ==> s.log.runs <= 1)
  {
    hide Proxy, Paced, Bounded, HandlesFresh, Covered, ClientGrammar, CommandGrammar, Linked, Sent, Flatten;
    ProxyHolds(ops);
    assert Invariant(Proxy(ops)[pid]);
    assert Sound(Proxy(ops)[pid].history.ended[id]);
  }

  /** Whatever a stop writes comes right after the Start of the episode it ends. */
  lemma StopsFollowTheirStarts(ops: seq<ManagerOp>, pid: ProbeId, id: SessionId, k: nat)
    requires pid in Proxy(ops) && id in Proxy(ops)[pid].sessions
    requires var log := Proxy(ops)[pid].sessions[id].log;
             k < |log.writers| && log.writers[k].ByStopOf?
    ensures var log := Proxy(ops)[pid].sessions[id].log;
            && |log.writers| == |log.cmds| && k > 0
            && log.cmds[k] == StopTracing && log.cmds[k - 1] == StartTracing
            && log.writers[k - 1] == ByAttempt(log.writers[k].n)
            && forall j | 0 <= j < |log.cmds| && j != k - 1 && log.cmds[j] == StartTracing ::
                 log.writers[j] != ByAttempt(log.writers[k].n)
  {
    hide Proxy, CommandGrammar, Linked, Sent, Flatten, ClientGrammar;
    EverySessionIsSound(ops, pid, id);
    var log := Proxy(ops)[pid].sessions[id].log;
    LinkedIsPaired(log.cmds, log.writers, log.tries);
    StopAfterStart(log.cmds, log.writers, log.tries, k);
  }

  lemma LinkedIsPaired(w: seq<Command>, writers: seq<Writer>, tries: nat)
    requires Linked(w, writers, tries)
    ensures |writers| == |w|
  {
  }

  /** The schedule of every probe lists its sessions, each once; the index is in range; no two
      sessions of a probe share a channel, no id is in two probes; at most one probe is empty,
      and it is not a lost one. */
  lemma StructureIsKept(ops: seq<ManagerOp>, pid: ProbeId)
    requires pid in Proxy(ops)
    ensures var p := Proxy(ops)[pid];
            && Distinct(p.schedule) && Ids(p.schedule) == p.sessions.Keys
            && (p.nextIdx == 0 || p.nextIdx < |p.schedule|)
            && (forall a, b :: a in p.sessions && b in p.sessions && a != b ==>
                  || p.sessions[a].target.core != p.sessions[b].target.core
                  || p.sessions[a].rtt.controlBlock != p.sessions[b].rtt.controlBlock
                  || p.sessions[a].rtt.upChannel != p.sessions[b].rtt.upChannel)
            && (p.sessions.Keys == {} ==> p.active)
            && forall other :: other in Proxy(ops) && other != pid ==>
                 && p.sessions.Keys !! Proxy(ops)[other].sessions.Keys
                 && (p.sessions.Keys == {} ==> Proxy(ops)[other].sessions.Keys != {})
  {
    hide Proxy, Paced, Bounded, HandlesFresh, AllSound, Covered, NoChannelShared, Distinct, Ids;
    ProxyHolds(ops);
    assert Invariant(Proxy(ops)[pid]);
    NotShared(Proxy(ops)[pid].sessions);
  }

  lemma NotShared(sessions: map<SessionId, Session>)
    requires NoChannelShared(sessions)
    ensures forall a, b :: a in sessions && b in sessions && a != b ==>
              || sessions[a].target.core != sessions[b].target.core
              || sessions[a].rtt.controlBlock != sessions[b].rtt.controlBlock
              || sessions[a].rtt.upChannel != sessions[b].rtt.upChannel
  {
  }

  lemma RecoveriesAreSpaced(ops: seq<ManagerOp>, pid: ProbeId)
    requires pid in Proxy(ops)
    ensures EntriesSpaced(Proxy(ops)[pid].history.entries)
    ensures SetupsSpaced(Proxy(ops)[pid].history.setups)
    ensures ChecksSpaced(Proxy(ops)[pid].history.checks)
  {
    hide Proxy, Invariant, EntriesSpaced, SetupsSpaced, ChecksSpaced;
    ProxyHolds(ops);
    assert Paced(Proxy(ops)[pid]);
  }

  // ----- what a request and a removal leave alone

  /** Nothing but a possibly registered core, with both counters at zero. */
  predicate SameButRegistered(p: Probe, p2: Probe) {
    && p2 == p.(cores := p2.cores)
    && p.cores.Keys <= p2.cores.Keys
    && (forall core :: core in p.cores ==> p2.cores[core] == p.cores[core])
    && (forall core :: core in p2.cores && core !in p.cores ==> p2.cores[core] == Cell(ZERO, AsFound(p.found, core)))
  }

  lemma RejectedRequestOnProbe(p: Probe, id: SessionId, target: TargetConfig, rtt: RttConfig, ioOk: bool, now: Time)
    requires RequestOutcome(p, target, rtt, ioOk).Some?
    ensures SameButRegistered(p, Request(p, id, target, rtt, ioOk, now))
  {
    hide Taken;
  }

  /** A rejected request leaves every probe that has sessions as it was, except that an exclusive
      one may have thrown out the probe it asked for; empty probes go, and at most the probe
      asked for stays behind without sessions. The rejected client has no session. */
  lemma RejectedRequestFrames(m: Probes, r: SessionRequest)
    requires FreshId(m, r.id) && RequestResult(m, r).Some?
    ensures forall pid :: pid in m && m[pid].sessions.Keys != {} && !(r.forceExclusive && r.found == Some(pid)) ==>
              pid in HandleRequest(m, r) && SameButRegistered(m[pid], HandleRequest(m, r)[pid])
    ensures forall pid :: pid in HandleRequest(m, r) && (pid !in m || m[pid].sessions.Keys == {}) ==>
              r.found == Some(pid) && HandleRequest(m, r)[pid].sessions == map[]
    ensures FreshId(HandleRequest(m, r), r.id)
  {
    hide Request, RequestOutcome;
    if r.found.Some? {
      var m2 := MadeRoom(Pruned(m), r.found.value, r);
      if !CannotOpen(m2, r.found.value, r) {
        var p := ProbeFor(m2, r.found.value, r);
        RejectedRequestOnProbe(p, r.id, r.target, r.rtt, r.ioOk, r.now);
      }
    }
  }

  /** An accepted request adds exactly its own new session, to the probe asked for; after an
      exclusive one that session is alone there. Every other probe with sessions is unchanged. */
  lemma AcceptedRequestAddsOne(m: Probes, r: SessionRequest)
    requires FreshId(m, r.id) && RequestResult(m, r).None?
    ensures r.found.Some? && r.found.value in HandleRequest(m, r)
    ensures var pid, s := r.found.value, NewSession(r.id, r.target, r.rtt, r.now);
            var before := if pid in m && !r.forceExclusive then m[pid].sessions else map[];
            && HandleRequest(m, r)[pid].sessions == before[r.id := s]
            && HandleRequest(m, r)[pid].active
    ensures forall pid :: pid != r.found.value ==>
              (pid in HandleRequest(m, r) <==> pid in m && m[pid].sessions.Keys != {})
              && (pid in HandleRequest(m, r) ==> HandleRequest(m, r)[pid] == m[pid])
  {
    hide Request, Taken, NewSession;
    var pid := r.found.value;
    var m2 := MadeRoom(Pruned(m), pid, r);
    var p := ProbeFor(m2, pid, r);
    RequestSessions(p, r.id, r.target, r.rtt, r.ioOk, r.now);
    NewProbeIsPaced(r.now, r.coresFound);
    if pid in m && m[pid].sessions.Keys == {} {
      assert m[pid].sessions == map[];
    }
  }

  /** The probe a request would use as it is: there, with sessions, and not to be thrown out. */
  predicate Reuses(m: Probes, r: SessionRequest) {
    r.found.Some? && r.found.value in m && m[r.found.value].sessions.Keys != {} && !r.forceExclusive
  }

  /** Some session of the probe is on the same core, has the same control block address configured
      (or none, like the request) and reads the same up channel. */
  ghost predicate ChannelInUse(p: Probe, r: SessionRequest) {
    exists id :: && id in p.sessions
                 && p.sessions[id].target.core == r.target.core
                 && p.sessions[id].rtt.controlBlock == r.rtt.controlBlock
                 && p.sessions[id].rtt.upChannel == r.rtt.upChannel
  }

  /** When a request is accepted: the system cooperates, and either the probe at hand is in
      service with the channel free, or there is none to reuse and a new one can be opened. */
  lemma AcceptedIff(m: Probes, r: SessionRequest)
    ensures RequestResult(m, r).None? <==>
              && r.found.Some? && r.ioOk
              && if Reuses(m, r) then m[r.found.value].active && !ChannelInUse(m[r.found.value], r) else r.setupOk
    ensures r.forceExclusive ==>
              RequestResult(m, r) != Some(AlreadyStarted) && RequestResult(m, r) != Some(ProbeInRecovery)
  {
  }

  /** Why a request is refused: a taken channel before a recovery, a recovery before anything else
      that may go wrong. */
  lemma RefusalIs(m: Probes, r: SessionRequest)
    ensures var result := RequestResult(m, r);
            && (result == Some(ProbeNotUsable) <==> r.found.None? || (!Reuses(m, r) && !r.setupOk))
            && (result == Some(AlreadyStarted) <==> Reuses(m, r) && ChannelInUse(m[r.found.value], r))
            && (result == Some(ProbeInRecovery) <==>
                  Reuses(m, r) && !ChannelInUse(m[r.found.value], r) && !m[r.found.value].active)
            && (result == Some(RequestIo) <==>
                  && r.found.Some? && !r.ioOk
                  && if Reuses(m, r) then m[r.found.value].active && !ChannelInUse(m[r.found.value], r) else r.setupOk)
  {
  }

  /** The probe asked for is filed afterwards if and only if it could be reused or opened; a probe
      that was opened is in service, with its first debug session and the cores it found. */
  lemma FiledIff(m: Probes, r: SessionRequest, pid: ProbeId)
    requires r.found == Some(pid)
    ensures pid in HandleRequest(m, r) <==> Reuses(m, r) || r.setupOk
    ensures !Reuses(m, r) && r.setupOk ==>
              var p := HandleRequest(m, r)[pid];
              p.active && p.epoch == 0 && p.gate == 0 && p.found == r.coresFound && p.history.entries == []
    ensures r.found.None? ==> HandleRequest(m, r) == Pruned(m)
  {
    hide Taken, NewSession;
  }

  /** Ending a session removes exactly that session, wherever it is, and every probe this or an
      earlier request left empty. */
  lemma EndSessionRemovesOne(m: Probes, id: SessionId, i: StopInput)
    requires Holds(m)
    ensures AllWired(m)
    ensures forall pid :: pid in ShutdownSession(m, id, i) <==> pid in m && m[pid].sessions.Keys - {id} != {}
    ensures forall pid :: pid in ShutdownSession(m, id, i) ==>
              && ShutdownSession(m, id, i)[pid].sessions == m[pid].sessions - {id}
              && (id !in m[pid].sessions ==> ShutdownSession(m, id, i)[pid] == m[pid])
  {
    hide Remove, Wired, ProbesHold;
    HoldsIsWired(m);
    forall pid | pid in m
      ensures Remove(m[pid], id, i).sessions == m[pid].sessions - {id}
      ensures id !in m[pid].sessions ==> Remove(m[pid], id, i) == m[pid]
    {
      RemoveSessions(m[pid], id, i);
    }
  }

  // ----- time: bounds on every session of a timely run

  /** The clock of a probe does not run backwards. */
  predicate TimelyService(p: Probe, i: ServiceInput) {
    if p.active then
      p.history.clock <= i.update.time.t1 && Ordered(i.update.time) && i.update.time.t5 <= i.checkTime
    else p.history.clock <= i.retryTime
  }

  ghost predicate TimelyOp(m: Probes, op: ManagerOp) {
    match op
    case Handle(r) => r.found.Some? && r.found.value in m ==> m[r.found.value].history.clock <= r.now
    case EndSession(_, _) => true
    case Tick(inputs) => forall pid :: pid in m ==> TimelyService(m[pid], inputs(pid))
  }

  ghost predicate SessionsTimed(p: Probe) {
    forall id :: id in p.sessions ==> Timed(p.sessions[id], p.history.clock)
  }

  lemma UpdateScheduledTimed(p: Probe, i: UpdateInput)
    requires Wired(p) && SessionsTimed(p) && p.history.clock <= i.time.t1 && Ordered(i.time)
    ensures forall id :: id in UpdateScheduled(p, i).sessions ==> Timed(UpdateScheduled(p, i).sessions[id], i.time.t5)
  {
    hide Update, Timed;
    forall id | id in p.sessions
      ensures Timed(p.sessions[id], i.time.t5)
    {
      TimedLater(p.sessions[id], p.history.clock, i.time.t5);
    }
    if HasScheduled(p) {
      UpdateIsTimed(LocalOf(p, p.schedule[p.nextIdx]), p.epoch, i, p.history.clock);
    }
  }

  lemma SessionsTimedLater(sessions: map<SessionId, Session>, now: Time, later: Time)
    requires now <= later && forall id :: id in sessions ==> Timed(sessions[id], now)
    ensures forall id :: id in sessions ==> Timed(sessions[id], later)
  {
    hide Timed;
    forall id | id in sessions
      ensures Timed(sessions[id], later)
    {
      TimedLater(sessions[id], now, later);
    }
  }

  lemma CheckHealthSessions(p: Probe, now: Time)
    ensures CheckHealth(p, now).sessions == p.sessions && CheckHealth(p, now).history.clock == now
  {
    hide LooksDead;
  }

  lemma ServiceTimed(p: Probe, i: ServiceInput)
    requires Wired(p) && SessionsTimed(p) && TimelyService(p, i)
    ensures SessionsTimed(Service(p, i))
  {
    hide Timed, UpdateScheduled, CheckHealth;
    if p.active {
      UpdateScheduledTimed(p, i.update);
      var p1 := Advance(UpdateScheduled(p, i.update));
      SessionsTimedLater(p1.sessions, i.update.time.t5, i.checkTime);
      CheckHealthSessions(p1, i.checkTime);
    } else {
      SessionsTimedLater(p.sessions, p.history.clock, i.retryTime);
    }
  }

  lemma RequestTimed(p: Probe, id: SessionId, target: TargetConfig, rtt: RttConfig, ioOk: bool, now: Time)
    requires SessionsTimed(p) && p.history.clock <= now
    ensures SessionsTimed(Request(p, id, target, rtt, ioOk, now))
  {
    hide Timed, Taken, NewSession;
    SessionsTimedLater(p.sessions, p.history.clock, now);
    NewSessionIsTimed(id, target, rtt, now);
  }

  lemma RemoveTimed(p: Probe, id: SessionId, i: StopInput)
    requires Wired(p) && SessionsTimed(p)
    ensures SessionsTimed(Remove(p, id, i))
  {
    hide Timed, Detach, Unscheduled, IndexOf;
    RemoveSessions(p, id, i);
    if id in p.sessions {
      DetachKeepsRest(p, id, i);
    }
  }

  ghost predicate AllTimed(m: Probes) {
    forall pid :: pid in m ==> SessionsTimed(m[pid])
  }

  lemma NextTimed(m: Probes, op: ManagerOp)
    requires Holds(m) && AllTimed(m) && TimelyOp(m, op)
    ensures AllTimed(Next(m, op))
  {
    hide ProbesHold, SessionsTimed, Request, Remove, Service, NewProbe, Wired;
    HoldsIsWired(m);
    match op
    case Handle(r) =>
      if FreshId(m, r.id) && r.found.Some? {
        NewProbeTimed(r.now, r.coresFound);
        var m2 := MadeRoom(Pruned(m), r.found.value, r);
        RequestTimed(ProbeFor(m2, r.found.value, r), r.id, r.target, r.rtt, r.ioOk, r.now);
      }
    case EndSession(id, stop) =>
      forall pid | pid in m
        ensures SessionsTimed(Remove(m[pid], id, stop))
      {
        RemoveTimed(m[pid], id, stop);
      }
    case Tick(inputs) =>
      forall pid | pid in m
        ensures SessionsTimed(Service(m[pid], inputs(pid)))
      {
        ServiceTimed(m[pid], inputs(pid));
      }
  }

  lemma NewProbeTimed(now: Time, found: map<nat, CoreState>)
    ensures SessionsTimed(NewProbe(now, found)) && NewProbe(now, found).history.clock == now
  {
  }

  ghost predicate TimelyRun(ops: seq<ManagerOp>) {
    forall k :: 0 <= k < |ops| ==> TimelyOp(Proxy(ops[..k]), ops[k])
  }

  lemma {:induction false} ProxyTimed(ops: seq<ManagerOp>)
    requires TimelyRun(ops)
    ensures AllTimed(Proxy(ops))
  {
    hide Next, TimelyOp, Holds, SessionsTimed;
    if ops != [] {
      var first := ops[..|ops| - 1];
      forall k | 0 <= k < |first|
        ensures TimelyOp(Proxy(first[..k]), first[k])
      {
        assert first[..k] == ops[..k];
      }
      ProxyTimed(first);
      ProxyHolds(first);
      NextTimed(Proxy(first), ops[|ops| - 1]);
    }
  }

  /** In a timely run every session keeps its attach attempts within the bound of its timeout,
      and its reads in the current Run episode within T/poll + T/idle + 2. */
  lemma TouchesAreBounded(ops: seq<ManagerOp>, pid: ProbeId, id: SessionId)
    requires TimelyRun(ops) && pid in Proxy(ops) && id in Proxy(ops)[pid].sessions
    ensures var p := Proxy(ops)[pid];
            var s := p.sessions[id];
            var elapsed := p.history.clock - s.log.runStart;
            var sinceFirst := p.history.clock - s.log.firstCheck;
            && (s.rtt.attachTimeoutMs.None? ==> s.log.attempts <= 1)
            && (s.rtt.attachTimeoutMs.Some? ==> s.log.attempts <= s.rtt.attachTimeoutMs.value / 20 + 2)
            && elapsed >= 0 && sinceFirst >= 0
            && s.log.statusChecks <= elapsed / (50 * MILLISECOND) + 1
            && s.log.recoveryChecks <= sinceFirst / (50 * MILLISECOND) + 1
            && s.log.pollReads + s.log.idleReads
               <= elapsed / Interval(s.rtt.pollIntervalMs) + elapsed / Interval(s.rtt.idlePollIntervalMs) + 2
  {
    hide Proxy;
    ProxyTimed(ops);
    var p := Proxy(ops)[pid];
    var s := p.sessions[id];
    assert SessionsTimed(p);
    ReadsFit(s.log.pollReads, s.poll, s.log.runStart, p.history.clock);
    ReadsFit(s.log.idleReads, s.idle, s.log.runStart, p.history.clock);
    ReadsFit(s.log.statusChecks, s.stopping, s.log.runStart, p.history.clock);
    ReadsFit(s.log.recoveryChecks, s.recovery, s.log.firstCheck, p.history.clock);
  }
}
