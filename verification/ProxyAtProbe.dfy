/** The proxy as one of its probes sees it: as long as a probe stays open, its state is that of a run
    of its own, so that what holds over every run of a probe holds in the proxy. */
module ProxyAtProbe {
  import opened SessionModel
  import opened SessionProofs
  import opened ProbeModel
  import opened ProbeProofs
  import opened ProbeRuns
  import opened ProbePacing
  import opened ManagerModel
  import opened ManagerProofs
  import opened ProxyUses

  /** What an operation of the proxy is for one of its probes. */
  ghost function SeenBy(m: Probes, op: ManagerOp, pid: ProbeId): seq<ProbeOp> {
    match op
    case Handle(r) =>
      if FreshId(m, r.id) && r.found == Some(pid) then [RequestOp(r.id, r.target, r.rtt, r.ioOk, r.now)] else []
    case EndSession(id, stop) => [RemoveOp(id, stop)]
    case Tick(inputs) => [ServiceOp(inputs(pid))]
  }

  lemma RunOfOne(p: Probe, op: ProbeOp)
    requires Invariant(p)
    ensures RunOf(p, []) == p && RunOf(p, [op]) == Step(p, op)
  {
    hide Step, Invariant;
    assert [op][..0] == [];
  }

  lemma StepIsSeen(m: Probes, op: ManagerOp, pid: ProbeId)
    requires Holds(m) && pid in m && !Closes(m, op, pid)
    ensures pid in Next(m, op) && Invariant(m[pid])
    ensures Next(m, op)[pid] == RunOf(m[pid], SeenBy(m, op, pid))
  {
    hide Invariant, Paced, RunOf, Request, Remove, Service, IdsApart, HardlyEmpty, AllWired;
    HoldsWired(m);
    assert Invariant(m[pid]);
    match op
    case Handle(r) =>
      RunOfOne(m[pid], RequestOp(r.id, r.target, r.rtt, r.ioOk, r.now));
    case EndSession(id, stop) =>
      RunOfOne(m[pid], RemoveOp(id, stop));
      EndedElsewhere(m, id, stop, pid);
    case Tick(inputs) =>
      RunOfOne(m[pid], ServiceOp(inputs(pid)));
  }

  lemma EndedElsewhere(m: Probes, id: SessionId, stop: StopInput, pid: ProbeId)
    requires AllWired(m) && pid in m && m[pid].sessions.Keys - {id} != {}
    ensures pid in ShutdownSession(m, id, stop) && ShutdownSession(m, id, stop)[pid] == Remove(m[pid], id, stop)
  {
    hide Remove, Wired;
    assert Wired(m[pid]);
    RemoveSessions(m[pid], id, stop);
  }

  /** What a sequence of operations is for one of the probes. */
  ghost function Seen(start: seq<ManagerOp>, ops: seq<ManagerOp>, pid: ProbeId): seq<ProbeOp> {
    if ops == [] then []
    else
      var first := ops[..|ops| - 1];
      Seen(start, first, pid) + SeenBy(Proxy(start + first), ops[|ops| - 1], pid)
  }

  ghost predicate StaysOpen(start: seq<ManagerOp>, ops: seq<ManagerOp>, pid: ProbeId) {
    forall k :: 0 <= k < |ops| ==>
      pid in Proxy(start + ops[..k]) && !Closes(Proxy(start + ops[..k]), ops[k], pid)
  }

  lemma ProxyOneMore(start: seq<ManagerOp>, ops: seq<ManagerOp>)
    requires ops != []
    ensures Proxy(start + ops) == Next(Proxy(start + ops[..|ops| - 1]), ops[|ops| - 1])
  {
    hide Next, Proxy;
    var all := start + ops;
    assert all[..|all| - 1] == start + ops[..|ops| - 1];
    ProxyLast(all);
  }

  lemma ProxyLast(ops: seq<ManagerOp>)
    requires ops != []
    ensures Proxy(ops) == Next(Proxy(ops[..|ops| - 1]), ops[|ops| - 1])
  {
    hide Next;
  }

  lemma RunOfMore(p: Probe, ops: seq<ProbeOp>, more: seq<ProbeOp>)
    requires Invariant(p) && |more| <= 1
    ensures RunOf(p, ops + more) == RunOf(RunOf(p, ops), more)
  {
    hide Step, Invariant;
    if more == [] {
      assert ops + more == ops;
    } else {
      assert (ops + more)[..|ops|] == ops;
      assert more == [more[0]];
      RunOfOne(RunOf(p, ops), more[0]);
    }
  }

  lemma SeenByOne(m: Probes, op: ManagerOp, pid: ProbeId)
    ensures |SeenBy(m, op, pid)| <= 1
  {
  }

  lemma ShorterStaysOpen(start: seq<ManagerOp>, ops: seq<ManagerOp>, pid: ProbeId)
    requires StaysOpen(start, ops, pid) && ops != []
    ensures var first := ops[..|ops| - 1];
            && StaysOpen(start, first, pid)
            && pid in Proxy(start + first) && !Closes(Proxy(start + first), ops[|ops| - 1], pid)
  {
    hide Proxy, Closes;
    var first := ops[..|ops| - 1];
    assert forall k :: 0 <= k < |first| ==> first[..k] == ops[..k];
  }

  /** As long as a probe stays open, the proxy at this probe is the run of the probe under what the
      operations are for it. */
  lemma {:induction false} ProxyIsRunOf(start: seq<ManagerOp>, ops: seq<ManagerOp>, pid: ProbeId)
    requires pid in Proxy(start) && StaysOpen(start, ops, pid)
    ensures pid in Proxy(start + ops) && Invariant(Proxy(start)[pid])
    ensures Proxy(start + ops)[pid] == RunOf(Proxy(start)[pid], Seen(start, ops, pid))
  {
    hide Proxy, Next, StaysOpen, SeenBy, RunOf, Holds, Invariant, Closes;
    ProxyHolds(start);
    InvariantAt(Proxy(start), pid);
    var p := Proxy(start)[pid];
    if ops == [] {
      assert start + ops == start;
      RunOfNone(p);
    } else {
      var first, last := ops[..|ops| - 1], ops[|ops| - 1];
      ShorterStaysOpen(start, ops, pid);
      ProxyIsRunOf(start, first, pid);
      ProxyHolds(start + first);
      StepIsSeen(Proxy(start + first), last, pid);
      ProxyOneMore(start, ops);
      SeenByOne(Proxy(start + first), last, pid);
      RunOfMore(p, Seen(start, first, pid), SeenBy(Proxy(start + first), last, pid));
    }
  }

  lemma RunOfNone(p: Probe)
    requires Invariant(p)
    ensures RunOf(p, []) == p
  {
  }

  lemma InvariantAt(m: Probes, pid: ProbeId)
    requires Holds(m) && pid in m
    ensures Invariant(m[pid])
  {
  }

  // ----- ticks

  function Ticks(inputs: seq<ProbeId -> ServiceInput>): seq<ManagerOp> {
    if inputs == [] then [] else Ticks(inputs[..|inputs| - 1]) + [Tick(inputs[|inputs| - 1])]
  }

  function InputsAt(inputs: seq<ProbeId -> ServiceInput>, pid: ProbeId): seq<ServiceInput> {
    if inputs == [] then [] else InputsAt(inputs[..|inputs| - 1], pid) + [inputs[|inputs| - 1](pid)]
  }

  /** Every tick serves every probe once: the proxy after a sequence of ticks is, at every probe, the
      probe after as many service calls. */
  lemma {:induction false} TicksAreServices(start: seq<ManagerOp>, inputs: seq<ProbeId -> ServiceInput>, pid: ProbeId)
    requires pid in Proxy(start)
    ensures pid in Proxy(start + Ticks(inputs)) && Invariant(Proxy(start)[pid])
    ensures Proxy(start + Ticks(inputs))[pid] == RunOf(Proxy(start)[pid], Services(InputsAt(inputs, pid)))
    ensures |InputsAt(inputs, pid)| == |inputs|
  {
    hide Proxy, Next, RunOf, Holds, Invariant;
    ProxyHolds(start);
    InvariantAt(Proxy(start), pid);
    var p := Proxy(start)[pid];
    if inputs == [] {
      assert start + Ticks(inputs) == start;
      RunOfNone(p);
    } else {
      var first, last := inputs[..|inputs| - 1], inputs[|inputs| - 1];
      TicksAreServices(start, first, pid);
      var ticks := Ticks(inputs);
      assert ticks[..|ticks| - 1] == Ticks(first) && ticks[|ticks| - 1] == Tick(last);
      ProxyOneMore(start, ticks);
      ProxyHolds(start + Ticks(first));
      StepIsSeen(Proxy(start + Ticks(first)), Tick(last), pid);
      RunOfMore(p, Services(InputsAt(first, pid)), [ServiceOp(last(pid))]);
      ServicesOneMore(InputsAt(first, pid), last(pid));
    }
  }

  lemma ServicesOneMore(inputs: seq<ServiceInput>, i: ServiceInput)
    ensures Services(inputs + [i]) == Services(inputs) + [ServiceOp(i)]
  {
    assert (inputs + [i])[..|inputs|] == inputs;
  }

  /** One tick updates, at every probe in service, exactly the scheduled session. */
  lemma TickUpdatesScheduled(start: seq<ManagerOp>, inputs: ProbeId -> ServiceInput, pid: ProbeId, id: SessionId)
    requires pid in Proxy(start) && id in Proxy(start)[pid].sessions
    ensures Wired(Proxy(start)[pid])
    ensures pid in Proxy(start + [Tick(inputs)]) && id in Proxy(start + [Tick(inputs)])[pid].sessions
    ensures var p, s2 := Proxy(start)[pid], Proxy(start + [Tick(inputs)])[pid].sessions[id];
            var l := LocalOf(p, id);
            if p.active && HasScheduled(p) && id == p.schedule[p.nextIdx]
            then s2 == After(l.s, UpdateCall(l.c, l.hw, p.epoch, inputs(pid).update))
            else s2 == l.s
  {
    hide Proxy, Holds, Invariant, Service, After;
    ProxyHolds(start);
    HoldsWired(Proxy(start));
    InvariantAt(Proxy(start), pid);
    assert (start + [Tick(inputs)])[..|start|] == start;
    ProxyOneMore(start, [Tick(inputs)]);
    assert start + [] == start;
    ServiceIsOneCall(Proxy(start)[pid], inputs(pid), id);
  }

  /** The probe is in service before, between and after the ticks. */
  ghost predicate InService(start: seq<ManagerOp>, inputs: seq<ProbeId -> ServiceInput>, pid: ProbeId) {
    forall k :: 0 <= k <= |inputs| ==>
      pid in Proxy(start + Ticks(inputs[..k])) && Proxy(start + Ticks(inputs[..k]))[pid].active
  }

  lemma {:induction false} InputsAtPrefix(inputs: seq<ProbeId -> ServiceInput>, pid: ProbeId, k: nat)
    requires k <= |inputs|
    ensures |InputsAt(inputs, pid)| == |inputs|
    ensures InputsAt(inputs[..k], pid) == InputsAt(inputs, pid)[..k]
  {
    if inputs != [] {
      var first := inputs[..|inputs| - 1];
      InputsAtPrefix(first, pid, if k < |inputs| then k else |first|);
      if k < |inputs| {
        assert inputs[..k] == first[..k];
      } else {
        assert inputs[..k] == inputs;
        assert InputsAt(inputs, pid)[..k] == InputsAt(inputs, pid);
      }
    }
  }

  lemma InServiceStays(start: seq<ManagerOp>, inputs: seq<ProbeId -> ServiceInput>, pid: ProbeId)
    requires pid in Proxy(start) && InService(start, inputs, pid)
    ensures Invariant(Proxy(start)[pid])
    ensures StaysInService(Proxy(start)[pid], InputsAt(inputs, pid))
  {
    hide Proxy, RunOf, Invariant, Services, Ticks;
    TicksAreServices(start, inputs, pid);
    var p := Proxy(start)[pid];
    forall k | 0 <= k <= |inputs|
      ensures RunOf(p, Services(InputsAt(inputs, pid)[..k])).active
    {
      InputsAtPrefix(inputs, pid, k);
      TicksAreServices(start, inputs[..k], pid);
    }
  }

  /** Exact round robin in the proxy: over any number of ticks with the probe in service, each of its
      sessions has its turn once per full round, and once more if the partial round passed it. */
  lemma RoundRobinOfTicks(start: seq<ManagerOp>, inputs: seq<ProbeId -> ServiceInput>, pid: ProbeId, pos: nat)
    requires pid in Proxy(start) && InService(start, inputs, pid) && pos < |Proxy(start)[pid].schedule|
    ensures Invariant(Proxy(start)[pid]) && Proxy(start)[pid].nextIdx < |Proxy(start)[pid].schedule|
    ensures var p := Proxy(start)[pid];
            && TimesUpdated(p, InputsAt(inputs, pid), p.schedule[pos])
               == Turns(|inputs|, |p.schedule|, Distance(p.nextIdx, pos, |p.schedule|))
            && (|inputs| >= |p.schedule| ==> TimesUpdated(p, InputsAt(inputs, pid), p.schedule[pos]) >= 1)
  {
    hide Proxy, InService, TimesUpdated, StaysInService, Turns;
    InServiceStays(start, inputs, pid);
    TicksAreServices(start, inputs, pid);
    var p := Proxy(start)[pid];
    IndexInRange(p);
    ExactRoundRobin(p, InputsAt(inputs, pid), pos);
    RoundRobinIsFair(p, InputsAt(inputs, pid), pos, pos);
  }

  lemma IndexInRange(p: Probe)
    requires Invariant(p) && p.schedule != []
    ensures p.nextIdx < |p.schedule|
  {
  }

  /** And every tick counts: with the probe in service and sessions on it, there is one update each. */
  lemma {:induction false} EveryTickUpdates(start: seq<ManagerOp>, inputs: seq<ProbeId -> ServiceInput>, pid: ProbeId)
    requires pid in Proxy(start) && InService(start, inputs, pid) && Proxy(start)[pid].sessions.Keys != {}
    ensures pid in Proxy(start + Ticks(inputs))
    ensures var p, p2 := Proxy(start)[pid], Proxy(start + Ticks(inputs))[pid];
            p2.history.updates == p.history.updates + |inputs| && p2.sessions.Keys == p.sessions.Keys
  {
    hide Proxy, Holds, Invariant, Service, Next;
    TicksAreServices(start, inputs, pid);
    if inputs == [] {
      assert start + Ticks(inputs) == start;
    } else {
      var first, last := inputs[..|inputs| - 1], inputs[|inputs| - 1];
      ShorterInService(start, inputs, pid);
      EveryTickUpdates(start, first, pid);
      var ticks := Ticks(inputs);
      assert ticks[..|ticks| - 1] == Ticks(first) && ticks[|ticks| - 1] == Tick(last);
      ProxyOneMore(start, ticks);
      ProxyHolds(start + Ticks(first));
      TickServes(Proxy(start + Ticks(first)), last, pid);
    }
  }

  lemma ShorterInService(start: seq<ManagerOp>, inputs: seq<ProbeId -> ServiceInput>, pid: ProbeId)
    requires InService(start, inputs, pid) && inputs != []
    ensures var first := inputs[..|inputs| - 1];
            && InService(start, first, pid)
            && pid in Proxy(start + Ticks(first)) && Proxy(start + Ticks(first))[pid].active
  {
    hide Proxy, Ticks;
    var first := inputs[..|inputs| - 1];
    assert forall k :: 0 <= k <= |first| ==> first[..k] == inputs[..k];
    assert first[..|first|] == first;
  }

  lemma TickServes(m: Probes, inputs: ProbeId -> ServiceInput, pid: ProbeId)
    requires Holds(m) && pid in m && m[pid].active && m[pid].sessions.Keys != {}
    ensures pid in Next(m, Tick(inputs))
    ensures Next(m, Tick(inputs))[pid].history.updates == m[pid].history.updates + 1
    ensures Next(m, Tick(inputs))[pid].sessions.Keys == m[pid].sessions.Keys
  {
    hide Invariant, Paced, Service, AllWired;
    HoldsWired(m);
    assert AllWired(m) && Invariant(m[pid]);
    ServiceCountsUpdate(m[pid], inputs(pid));
    ServiceSessions(m[pid], inputs(pid));
    TickAt(m, inputs, pid);
  }

  lemma TickAt(m: Probes, inputs: ProbeId -> ServiceInput, pid: ProbeId)
    requires AllWired(m) && pid in m
    ensures pid in Next(m, Tick(inputs)) && Next(m, Tick(inputs))[pid] == ProbeModel.Service(m[pid], inputs(pid))
  {
    hide Service;
  }

  // ----- what is proved of runs of a probe, in the proxy

  /** As long as a probe stays open, the number of its debug session grows by the setups that work. */
  lemma EpochCountsSetupsInProxy(start: seq<ManagerOp>, ops: seq<ManagerOp>, pid: ProbeId)
    requires pid in Proxy(start) && StaysOpen(start, ops, pid)
    ensures pid in Proxy(start + ops) && Invariant(Proxy(start)[pid])
    ensures Proxy(start + ops)[pid].epoch
            == Proxy(start)[pid].epoch + WorkingSetups(Proxy(start)[pid], Seen(start, ops, pid))
  {
    hide Proxy, StaysOpen, RunOf, Invariant;
    ProxyIsRunOf(start, ops, pid);
    EpochCountsSetups(Proxy(start)[pid], Seen(start, ops, pid));
  }
}
