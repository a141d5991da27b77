/** How a probe paces its work: recoveries and setup attempts are spaced, and servicing is an
    exact round robin. */
module ProbePacing {
  import opened Clock
  import opened RateLimiters
  import opened SessionModel
  import opened ProbeModel
  import opened ProbeProofs
  import opened ProbeRuns

  // ----- spacing of recoveries

  /** Between two entries into recovery at least the health check interval passes, and at least
      as many session updates happen as there were sessions at the first entry. */
  predicate EntriesSpaced(entries: seq<Entry>) {
    forall k :: 0 <= k < |entries| - 1 ==>
      && entries[k + 1].time - entries[k].time >= 100 * MILLISECOND
      && entries[k + 1].updates - entries[k].updates >= entries[k].sessions
  }

  /** Health checks, whether or not they end in recovery. */
  predicate ChecksSpaced(checks: seq<Time>) {
    forall k :: 0 <= k < |checks| - 1 ==> checks[k + 1] - checks[k] >= 100 * MILLISECOND
  }

  predicate SetupsSpaced(setups: seq<Time>) {
    forall k :: 0 <= k < |setups| - 1 ==> setups[k + 1] - setups[k] >= 50 * MILLISECOND
  }

  /** The limiters remember the latest entry and the latest attempt, and the gate counts the
      updates still missing since the latest entry. */
  predicate Paced(p: Probe) {
    var h := p.history;
    && p.check.limit == 100 * MILLISECOND && p.retry.limit == 50 * MILLISECOND
    && EntriesSpaced(h.entries) && SetupsSpaced(h.setups) && ChecksSpaced(h.checks)
    && (h.checks != [] ==> h.checks[|h.checks| - 1] == p.check.last)
    && (h.setups != [] ==> h.setups[|h.setups| - 1] == p.retry.last)
    && (h.entries != [] ==>
          var e := h.entries[|h.entries| - 1];
          e.time <= p.check.last && e.sessions + e.updates <= p.gate + h.updates)
  }

  lemma HealthCheckedPaced(p: Probe, now: Time)
    requires Paced(p)
    ensures Paced(HealthChecked(p, now))
  {
    hide EntriesSpaced, SetupsSpaced;
  }

  lemma EnterRecoveryPaced(p: Probe, now: Time)
    requires Paced(p) && p.check.Due(now) && p.gate == 0
    ensures Paced(EnterRecovery(HealthChecked(p, now), now))
  {
    hide SetupsSpaced, ChecksSpaced;
    HealthCheckedPaced(p, now);
  }

  lemma CheckHealthPaced(p: Probe, now: Time)
    requires Paced(p)
    ensures Paced(CheckHealth(p, now))
  {
    hide LooksDead, Paced, HealthChecked, EnterRecovery;
    HealthCheckedPaced(p, now);
    if p.check.Due(now) && p.gate == 0 {
      EnterRecoveryPaced(p, now);
    }
  }

  lemma RecoverPaced(p: Probe, now: Time, setupOk: bool)
    requires Paced(p)
    ensures Paced(RecoverProbe(p, now, setupOk))
  {
    hide EntriesSpaced, ChecksSpaced, Ids;
  }

  lemma UpdatePaced(p: Probe, i: UpdateInput)
    requires Wired(p) && Paced(p)
    ensures Paced(Advance(UpdateScheduled(p, i)))
  {
    hide Update, EntriesSpaced, SetupsSpaced, ChecksSpaced;
  }

  lemma RemovePaced(p: Probe, id: SessionId, i: StopInput)
    requires Wired(p) && Paced(p)
    ensures Paced(Remove(p, id, i))
  {
    hide Released, Unscheduled, IndexOf, EntriesSpaced, SetupsSpaced, ChecksSpaced;
  }

  lemma RequestPaced(p: Probe, id: SessionId, target: TargetConfig, rtt: RttConfig, ioOk: bool, now: Time)
    requires Paced(p)
    ensures Paced(Request(p, id, target, rtt, ioOk, now))
  {
    hide Taken, NewSession, EntriesSpaced, SetupsSpaced, ChecksSpaced;
  }

  lemma ServicePaced(p: Probe, i: ServiceInput)
    requires Wired(p) && Paced(p)
    ensures Paced(Service(p, i))
  {
    hide Paced, CheckHealth, RecoverProbe, UpdateScheduled;
    if p.active {
      UpdatePaced(p, i.update);
      CheckHealthPaced(Advance(UpdateScheduled(p, i.update)), i.checkTime);
    } else {
      RecoverPaced(p, i.retryTime, i.setupOk);
    }
  }

  /** Over every run, removals included, recoveries and setup attempts are spaced. */
  lemma {:induction false} RunIsPaced(p: Probe, ops: seq<ProbeOp>)
    requires Invariant(p) && Paced(p)
    ensures Paced(RunOf(p, ops))
  {
    hide Paced, Service, Request, Remove;
    if ops != [] {
      var before := RunOf(p, ops[..|ops| - 1]);
      RunIsPaced(p, ops[..|ops| - 1]);
      InvariantIsWired(before);
      match ops[|ops| - 1]
      case ServiceOp(i) => ServicePaced(before, i);
      case RequestOp(id, target, rtt, ioOk, now) => RequestPaced(before, id, target, rtt, ioOk, now);
      case RemoveOp(id, stop) => RemovePaced(before, id, stop);
    }
  }

  // ----- round robin

  ghost function Services(inputs: seq<ServiceInput>): seq<ProbeOp> {
    if inputs == [] then [] else Services(inputs[..|inputs| - 1]) + [ServiceOp(inputs[|inputs| - 1])]
  }

  /** How often a session is updated over a number of service calls. */
  ghost function TimesUpdated(p: Probe, inputs: seq<ServiceInput>, id: SessionId): nat
    requires Invariant(p)
    decreases |inputs|
  {
    if inputs == [] then 0
    else
      var first := inputs[..|inputs| - 1];
      var before := RunOf(p, Services(first));
      TimesUpdated(p, first, id) +
      if before.active && HasScheduled(before) && before.schedule[before.nextIdx] == id then 1 else 0
  }

  /** How far position `pos` lies behind position `start` in a circle of n. */
  function Distance(start: nat, pos: nat, n: nat): (d: nat)
    requires start < n && pos < n
    ensures d < n
  {
    if pos >= start then pos - start else pos + n - start
  }

  lemma NextInCircle(k: nat, n: nat)
    requires n > 0
    ensures k % n + 1 < n ==> (k + 1) % n == k % n + 1 && (k + 1) / n == k / n
    ensures k % n + 1 == n ==> (k + 1) % n == 0 && (k + 1) / n == k / n + 1
  {
    var q, r := k / n, k % n;
    assert k == q * n + r;
    if r + 1 < n {
      DivModUnique(k + 1, n, q, r + 1);
    } else {
      assert (q + 1) * n == q * n + n;
      DivModUnique(k + 1, n, q + 1, 0);
    }
  }

  lemma DivModUnique(k: nat, n: nat, q: nat, r: nat)
    requires n > 0 && r < n && k == q * n + r
    ensures k / n == q && k % n == r
  {
    var q2, r2 := k / n, k % n;
    assert k == q2 * n + r2;
    MultiplesGrow(q + 1, q2, n);
    MultiplesGrow(q2 + 1, q, n);
    assert (q + 1) * n == q * n + n && (q2 + 1) * n == q2 * n + n;
  }

  ghost predicate StaysInService(p: Probe, inputs: seq<ServiceInput>)
    requires Invariant(p)
  {
    forall k :: 0 <= k <= |inputs| ==> RunOf(p, Services(inputs[..k])).active
  }

  /** The schedule is as it was, and the index has moved on by the number of calls. */
  ghost predicate OnSchedule(p: Probe, now: Probe, k: nat)
    requires Structured(p) && p.schedule != []
  {
    && now.active && now.schedule == p.schedule && now.nextIdx < |p.schedule|
    && Distance(p.nextIdx, now.nextIdx, |p.schedule|) == k % |p.schedule|
  }

  lemma OneMoreService(p: Probe, now: Probe, k: nat, i: ServiceInput)
    requires Structured(p) && p.schedule != []
    requires Invariant(now) && OnSchedule(p, now, k) && Service(now, i).active
    ensures HasScheduled(now) && OnSchedule(p, Service(now, i), k + 1)
  {
    hide Update, LooksDead, NoChannelShared, Bounded, HandlesFresh, AllSound, Covered;
    NextInCircle(k, |p.schedule|);
    assert now.schedule[now.nextIdx] in Ids(now.schedule);
  }

  lemma WhoseTurn(p: Probe, now: Probe, k: nat, pos: nat)
    requires Structured(p) && pos < |p.schedule| && p.nextIdx < |p.schedule|
    requires Structured(now) && OnSchedule(p, now, k)
    ensures HasScheduled(now)
    ensures now.schedule[now.nextIdx] == p.schedule[pos] <==> Distance(p.nextIdx, pos, |p.schedule|) == k % |p.schedule|
  {
    hide NoChannelShared;
    assert now.schedule[now.nextIdx] in Ids(now.schedule);
  }

  function Turns(k: nat, n: nat, distance: nat): nat
    requires n > 0
  {
    k / n + if distance < k % n then 1 else 0
  }

  lemma OneMoreTurn(k: nat, n: nat, distance: nat)
    requires distance < n
    ensures Turns(k + 1, n, distance) == Turns(k, n, distance) + if distance == k % n then 1 else 0
  {
    NextInCircle(k, n);
  }

  lemma NoTurnYet(n: nat, distance: nat)
    requires distance < n
    ensures Turns(0, n, distance) == 0
  {
    DivModUnique(0, n, 0, 0);
  }

  lemma InServiceAt(p: Probe, inputs: seq<ServiceInput>, k: nat)
    requires Invariant(p) && StaysInService(p, inputs) && k <= |inputs|
    ensures RunOf(p, Services(inputs[..k])).active
  {
    hide Invariant, RunOf, Services;
  }

  lemma ShorterStaysInService(p: Probe, inputs: seq<ServiceInput>)
    requires Invariant(p) && inputs != [] && StaysInService(p, inputs)
    ensures StaysInService(p, inputs[..|inputs| - 1])
    ensures RunOf(p, Services(inputs)).active
  {
    hide Invariant, RunOf, Services;
    var n := |inputs| - 1;
    InServiceAt(p, inputs, n + 1);
    assert inputs[..n + 1] == inputs;
    forall k | 0 <= k <= n
      ensures RunOf(p, Services(inputs[..n][..k])).active
    {
      InServiceAt(p, inputs, k);
      assert inputs[..n][..k] == inputs[..k];
    }
  }

  lemma {:induction false} StaysOnSchedule(p: Probe, inputs: seq<ServiceInput>)
    requires Invariant(p) && p.nextIdx < |p.schedule| && StaysInService(p, inputs)
    ensures Structured(p)
    ensures OnSchedule(p, RunOf(p, Services(inputs)), |inputs|)
  {
    hide Service, OnSchedule, Bounded, Covered, HandlesFresh, AllSound, Structured;
    if inputs == [] {
      assert inputs[..0] == inputs;
      OnScheduleAtStart(p);
    } else {
      var first, last := inputs[..|inputs| - 1], inputs[|inputs| - 1];
      ShorterStaysInService(p, inputs);
      StaysOnSchedule(p, first);
      assert first + [last] == inputs;
      LastOp(p, first, last);
      OneMoreService(p, RunOf(p, Services(first)), |first|, last);
    }
  }

  lemma CountOne(p: Probe, first: seq<ServiceInput>, last: ServiceInput, id: SessionId)
    requires Invariant(p)
    ensures var now := RunOf(p, Services(first));
            TimesUpdated(p, first + [last], id) == TimesUpdated(p, first, id)
              + if now.active && HasScheduled(now) && now.schedule[now.nextIdx] == id then 1 else 0
  {
    hide Invariant, RunOf, Services, HasScheduled;
    assert (first + [last])[..|first|] == first;
  }

  /** Over any k service calls without an entry into recovery, the session at position `pos` is
      updated exactly once in every full round, and once more if the last, partial round has
      come past it. So update counts differ by at most one, and nobody waits longer than one
      round. */
  lemma {:induction false} ExactRoundRobin(p: Probe, inputs: seq<ServiceInput>, pos: nat)
    requires Invariant(p) && pos < |p.schedule| && p.nextIdx < |p.schedule| && StaysInService(p, inputs)
    ensures TimesUpdated(p, inputs, p.schedule[pos])
            == Turns(|inputs|, |p.schedule|, Distance(p.nextIdx, pos, |p.schedule|))
  {
    hide Invariant, Turns, OnSchedule, Distance, RunOf, Services, StaysInService, HasScheduled, Structured;
    var n := |p.schedule|;
    if inputs == [] {
      NoTurnYet(n, Distance(p.nextIdx, pos, n));
    } else {
      var first, last := inputs[..|inputs| - 1], inputs[|inputs| - 1];
      assert first + [last] == inputs;
      ShorterStaysInService(p, inputs);
      ExactRoundRobin(p, first, pos);
      CountOne(p, first, last, p.schedule[pos]);
      var now := RunOf(p, Services(first));
      StaysOnSchedule(p, first);
      ActiveOnSchedule(p, now, |first|);
      InvariantIsStructured(now);
      WhoseTurn(p, now, |first|, pos);
      OneMoreTurn(|first|, n, Distance(p.nextIdx, pos, n));
    }
  }

  lemma ActiveOnSchedule(p: Probe, now: Probe, k: nat)
    requires Structured(p) && p.schedule != [] && OnSchedule(p, now, k)
    ensures now.active
  {
  }

  lemma OnScheduleAtStart(p: Probe)
    requires Structured(p) && p.schedule != [] && p.nextIdx < |p.schedule| && p.active
    ensures OnSchedule(p, p, 0)
  {
    DivModUnique(0, |p.schedule|, 0, 0);
  }

  lemma InvariantIsStructured(p: Probe)
    requires Invariant(p)
    ensures Structured(p)
  {
  }

  lemma LastOp(p: Probe, first: seq<ServiceInput>, last: ServiceInput)
    requires Invariant(p)
    ensures Wired(RunOf(p, Services(first)))
    ensures RunOf(p, Services(first + [last])) == Service(RunOf(p, Services(first)), last)
  {
    hide Service;
    assert (first + [last])[..|first|] == first;
    var ops := Services(first) + [ServiceOp(last)];
    assert ops[..|ops| - 1] == Services(first);
  }

  /** Update counts of two sessions never differ by more than one, and within one round of
      service calls every session is updated. */
  lemma RoundRobinIsFair(p: Probe, inputs: seq<ServiceInput>, a: nat, b: nat)
    requires Invariant(p) && a < |p.schedule| && b < |p.schedule| && p.nextIdx < |p.schedule|
    requires StaysInService(p, inputs)
    ensures TimesUpdated(p, inputs, p.schedule[a]) <= TimesUpdated(p, inputs, p.schedule[b]) + 1
    ensures |inputs| >= |p.schedule| ==> TimesUpdated(p, inputs, p.schedule[a]) >= 1
  {
    hide Invariant, StaysInService, TimesUpdated;
    ExactRoundRobin(p, inputs, a);
    ExactRoundRobin(p, inputs, b);
    if |inputs| >= |p.schedule| {
      StepsFit(1, |p.schedule|, |inputs|);
    }
  }
}
