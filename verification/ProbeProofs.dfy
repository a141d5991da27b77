/** What every operation of a probe keeps: its structure, the bound on the shared counters and
    the catches they guard, the freshness of RTT handles, and the soundness of its sessions. */
module ProbeProofs {
  import opened Clock
  import opened SharedStates
  import opened SessionModel
  import opened SessionProofs
  import opened SessionTiming
  import opened SessionSharing
  import opened SessionDecisions
  import opened ProbeModel

  // ----- structure

  predicate NoChannelShared(sessions: map<SessionId, Session>) {
    forall a, b :: a in sessions && b in sessions && a != b ==>
      !SameChannel(sessions[a], sessions[b].target, sessions[b].rtt)
  }

  /** The schedule lists exactly the sessions, each once, and the index points into it. */
  predicate Structured(p: Probe) {
    && Wired(p)
    && Distinct(p.schedule)
    && Ids(p.schedule) == p.sessions.Keys
    && (p.nextIdx == 0 || p.nextIdx < |p.schedule|)
    && NoChannelShared(p.sessions)
  }

  // ----- counters and catches

  ghost function ClearHolders(sessions: map<SessionId, Session>, core: nat): set<SessionId> {
    set id | id in sessions && sessions[id].target.core == core && HoldsClear(sessions[id])
  }

  ghost function CatchHolders(sessions: map<SessionId, Session>, core: nat): set<SessionId> {
    set id | id in sessions && sessions[id].target.core == core && HoldsCatch(sessions[id])
  }

  ghost predicate CellBounded(cell: Cell, clearHolders: nat, catchHolders: nat) {
    && cell.c.clear <= clearHolders
    && cell.c.catches <= catchHolders
    && (cell.hw.catchOn ==> cell.hw.orphaned || catchHolders > 0)
  }

  /** On every core the counters are at most the holders and a catch has a holder, unless it was
      orphaned; while the probe is lost all counters are zero. */
  ghost predicate Bounded(p: Probe) {
    forall core :: core in p.cores ==>
      && CellBounded(p.cores[core], |ClearHolders(p.sessions, core)|, |CatchHolders(p.sessions, core)|)
      && (!p.active ==> p.cores[core].c == ZERO)
  }

  /** Removing one element takes one off the size. */
  lemma WithoutOne(s: set<SessionId>, id: SessionId)
    ensures |s - {id}| + Bit(id in s) == |s|
  {
    if id in s {
      assert s == (s - {id}) + {id};
    } else {
      assert s - {id} == s;
    }
  }

  /** The session at `id` against the others on its core. */
  lemma BoundedAt(p: Probe, id: SessionId)
    requires Wired(p) && Bounded(p) && id in p.sessions
    ensures var core := p.sessions[id].target.core;
            Shares(LocalOf(p, id), |ClearHolders(p.sessions, core) - {id}|, |CatchHolders(p.sessions, core) - {id}|)
  {
    var core := p.sessions[id].target.core;
    WithoutOne(ClearHolders(p.sessions, core), id);
    WithoutOne(CatchHolders(p.sessions, core), id);
  }

  lemma HoldersElsewhere(sessions: map<SessionId, Session>, id: SessionId, s: Session, core: nat)
    requires id in sessions && s.target == sessions[id].target && core != s.target.core
    ensures ClearHolders(sessions[id := s], core) == ClearHolders(sessions, core)
    ensures CatchHolders(sessions[id := s], core) == CatchHolders(sessions, core)
    ensures ClearHolders(sessions - {id}, core) == ClearHolders(sessions, core)
    ensures CatchHolders(sessions - {id}, core) == CatchHolders(sessions, core)
  {
  }

  lemma HoldersHere(sessions: map<SessionId, Session>, id: SessionId, s: Session)
    requires id in sessions && s.target == sessions[id].target
    ensures var core := s.target.core;
            && ClearHolders(sessions[id := s], core) - {id} == ClearHolders(sessions, core) - {id}
            && CatchHolders(sessions[id := s], core) - {id} == CatchHolders(sessions, core) - {id}
            && ClearHolders(sessions - {id}, core) == ClearHolders(sessions, core) - {id}
            && CatchHolders(sessions - {id}, core) == CatchHolders(sessions, core) - {id}
  {
  }

  /** Changing one session in a way that respects its siblings keeps the bound. */
  lemma WithLocalBounded(p: Probe, id: SessionId, l: Local)
    requires Wired(p) && Bounded(p) && p.active && id in p.sessions
    requires l.s.target == p.sessions[id].target
    requires var core := l.s.target.core;
             Shares(l, |ClearHolders(p.sessions, core) - {id}|, |CatchHolders(p.sessions, core) - {id}|)
    ensures Bounded(WithLocal(p, id, l))
  {
    var p2 := WithLocal(p, id, l);
    forall core | core in p2.cores
      ensures CellBounded(p2.cores[core], |ClearHolders(p2.sessions, core)|, |CatchHolders(p2.sessions, core)|)
    {
      if core == l.s.target.core {
        CellBoundedHere(p.sessions, id, l);
      } else {
        hide ClearHolders, CatchHolders;
        HoldersElsewhere(p.sessions, id, l.s, core);
      }
    }
  }

  lemma CellBoundedHere(sessions: map<SessionId, Session>, id: SessionId, l: Local)
    requires id in sessions && l.s.target == sessions[id].target
    requires var core := l.s.target.core;
             Shares(l, |ClearHolders(sessions, core) - {id}|, |CatchHolders(sessions, core) - {id}|)
    ensures var core := l.s.target.core;
            CellBounded(Cell(l.c, l.hw), |ClearHolders(sessions[id := l.s], core)|,
                        |CatchHolders(sessions[id := l.s], core)|)
  {
    var core := l.s.target.core;
    HoldersHere(sessions, id, l.s);
    WithoutOne(ClearHolders(sessions[id := l.s], core), id);
    WithoutOne(CatchHolders(sessions[id := l.s], core), id);
  }

  /** The bound speaks about the cores and the sessions only. */
  lemma BoundedAlike(p: Probe, p2: Probe)
    requires Bounded(p) && p2.cores == p.cores && p2.sessions == p.sessions && p2.active == p.active
    ensures Bounded(p2)
  {
  }

  // ----- handles

  /** Every running session holds handles of the present debug session, and there is one. */
  ghost predicate HandlesFresh(p: Probe) {
    forall id :: id in p.sessions && p.sessions[id].state.Run? ==>
      p.active && p.sessions[id].state.handles.epoch == p.epoch
  }

  lemma UpdateKeepsHandles(l: Local, epoch: nat, i: UpdateInput)
    ensures var s2 := Update(l, epoch, i).s;
            s2.state.Run? ==> s2.state.handles.epoch == epoch || s2.state == l.s.state
  {
    hide DoInit, DoRttAttach, DoRun, StopCommands, StoppedCore;
    if l.s.state.Run? {
      DoRunKeepsState(l.s, i.time, i.run);
    }
  }

  // ----- the invariant

  /** Sessions are sound, those that have ended too; and none in the map is shut down without an
      answer to its client. */
  ghost predicate AllSound(p: Probe) {
    && (forall id :: id in p.sessions ==> Sound(p.sessions[id]) && Answered(p.sessions[id]))
    && (forall id :: id in p.history.ended ==> Sound(p.history.ended[id]))
  }

  ghost predicate Invariant(p: Probe) {
    Structured(p) && Bounded(p) && HandlesFresh(p) && AllSound(p) && Covered(p)
  }

  /** The sessions still to be updated since servicing resumed are the last ones among those
      of that time, and the schedule has not passed any of them. While the probe is lost, the
      gate covers the whole schedule. */
  ghost predicate Covered(p: Probe) {
    if !p.active then p.nextIdx == 0 && |p.schedule| <= p.gate
    else Ahead(p.history.pending, p.history.resumedCount, p.schedule, p.nextIdx)
  }

  ghost predicate Ahead(pending: set<SessionId>, n: nat, schedule: seq<SessionId>, idx: nat) {
    pending != {} ==> exists from: nat :: AheadFrom(pending, n, schedule, idx, from)
  }

  predicate AheadFrom(pending: set<SessionId>, n: nat, schedule: seq<SessionId>, idx: nat, from: nat) {
    idx <= from < n <= |schedule| && pending == Ids(schedule[from..n])
  }

  lemma NewProbeInvariant(now: Time, found: map<nat, CoreState>)
    ensures Invariant(NewProbe(now, found))
  {
  }

  // ----- one update

  lemma WithLocalStructured(p: Probe, id: SessionId, l: Local)
    requires Structured(p) && id in p.sessions && SameIdentity(p.sessions[id], l.s)
    ensures Structured(WithLocal(p, id, l))
  {
  }

  lemma WithLocalKeeps(p: Probe, id: SessionId, l: Local)
    requires Structured(p) && Bounded(p) && HandlesFresh(p) && AllSound(p) && p.active && id in p.sessions
    requires SameIdentity(p.sessions[id], l.s)
    requires var core := l.s.target.core;
             Shares(l, |ClearHolders(p.sessions, core) - {id}|, |CatchHolders(p.sessions, core) - {id}|)
    requires l.s.state.Run? ==> l.s.state.handles.epoch == p.epoch
    requires Sound(l.s) && Answered(l.s)
    ensures var p2 := WithLocal(p, id, l);
            Structured(p2) && Bounded(p2) && HandlesFresh(p2) && AllSound(p2)
  {
    hide Sound, Shares, Bounded, Structured, ClearHolders, CatchHolders;
    WithLocalStructured(p, id, l);
    assert Wired(p) by { StructuredIsWired(p); }
    WithLocalBounded(p, id, l);
  }

  lemma StructuredIsWired(p: Probe)
    requires Structured(p)
    ensures Wired(p)
  {
  }

  lemma UpdatedKeeps(p: Probe, id: SessionId, i: UpdateInput)
    requires Structured(p) && Bounded(p) && HandlesFresh(p) && AllSound(p) && p.active && id in p.sessions
    ensures Wired(p)
    ensures var p2 := WithLocal(p, id, Update(LocalOf(p, id), p.epoch, i));
            Structured(p2) && Bounded(p2) && HandlesFresh(p2) && AllSound(p2)
  {
    hide Sound, Shares, Bounded, Update, ClearHolders, CatchHolders, NoChannelShared;
    var l := LocalOf(p, id);
    var core := l.s.target.core;
    BoundedAt(p, id);
    UpdateMovesForward(l, p.epoch, i);
    UpdateShares(l, p.epoch, i, |ClearHolders(p.sessions, core) - {id}|, |CatchHolders(p.sessions, core) - {id}|);
    UpdateKeepsHandles(l, p.epoch, i);
    UpdateIsSound(l, p.epoch, i);
    UpdateAnswers(l, p.epoch, i);
    WithLocalKeeps(p, id, Update(l, p.epoch, i));
  }

  /** Of a part of the schedule, the front id goes, and ids before it are not in it. */
  lemma SliceStep(ids: seq<SessionId>, from: nat, to: nat)
    requires Distinct(ids) && from < to <= |ids|
    ensures Ids(ids[from..to]) - {ids[from]} == Ids(ids[from + 1..to])
    ensures ids[from] in Ids(ids[from..to])
    ensures forall k :: 0 <= k < from ==> ids[k] !in Ids(ids[from..to])
  {
    assert ids[from..to] == [ids[from]] + ids[from + 1..to];
  }

  lemma AheadAfterUpdate(pending: set<SessionId>, n: nat, schedule: seq<SessionId>, idx: nat)
    requires Ahead(pending, n, schedule, idx) && Distinct(schedule) && idx < |schedule|
    ensures Ahead(pending - {schedule[idx]}, n, schedule, if idx + 1 >= |schedule| then 0 else idx + 1)
  {
    if pending != {} {
      var from: nat :| AheadFrom(pending, n, schedule, idx, from);
      AheadFromAfterUpdate(pending, n, schedule, idx, from);
    }
  }

  lemma AheadFromAfterUpdate(pending: set<SessionId>, n: nat, schedule: seq<SessionId>, idx: nat, from: nat)
    requires AheadFrom(pending, n, schedule, idx, from) && Distinct(schedule)
    ensures var rest := pending - {schedule[idx]};
            if idx < from then rest != {} && AheadFrom(rest, n, schedule, idx + 1, from)
            else if from + 1 < n then rest != {} && AheadFrom(rest, n, schedule, idx + 1, from + 1)
            else rest == {}
  {
    hide Ids, Distinct;
    SliceStep(schedule, from, n);
    if idx < from {
      assert pending - {schedule[idx]} == pending;
    } else if from + 1 < n {
      SliceStep(schedule, from + 1, n);
    } else {
      NoIds(schedule[n..n]);
    }
  }

  lemma NoIds(ids: seq<SessionId>)
    requires ids == []
    ensures Ids(ids) == {}
  {
  }

  lemma UpdatedCovered(p: Probe, i: UpdateInput)
    requires Structured(p) && Covered(p) && p.active
    ensures Covered(Advance(UpdateScheduled(p, i)))
  {
    hide Update, NoChannelShared, Ahead, Distinct;
    if HasScheduled(p) {
      AheadAfterUpdate(p.history.pending, p.history.resumedCount, p.schedule, p.nextIdx);
    } else {
      assert Ids(p.schedule) == {} ==> p.schedule == [] by { EmptyIds(p.schedule); }
      NothingAhead(p.history.pending, p.history.resumedCount, p.schedule, p.nextIdx);
    }
  }

  lemma EmptyIds(ids: seq<SessionId>)
    ensures Ids(ids) == {} ==> ids == []
  {
    if ids != [] {
      assert ids[0] in Ids(ids);
    }
  }

  /** A lost index means an empty schedule, and then nothing is pending. */
  lemma NothingAhead(pending: set<SessionId>, n: nat, schedule: seq<SessionId>, idx: nat)
    requires Ahead(pending, n, schedule, idx) && schedule == []
    ensures pending == {}
  {
  }

  lemma UpdateScheduledInvariant(p: Probe, i: UpdateInput)
    requires Invariant(p) && p.active
    ensures Wired(p) && Invariant(Advance(UpdateScheduled(p, i)))
  {
    hide Sound, Bounded, Update, NoChannelShared, Covered;
    UpdatedCovered(p, i);
    if HasScheduled(p) {
      var id := p.schedule[p.nextIdx];
      UpdatedKeeps(p, id, i);
      BoundedAlike(WithLocal(p, id, Update(LocalOf(p, id), p.epoch, i)), Advance(UpdateScheduled(p, i)));
    } else {
      BoundedAlike(p, Advance(UpdateScheduled(p, i)));
    }
  }

  // ----- entering and leaving recovery

  lemma DistinctSize(ids: seq<SessionId>)
    requires Distinct(ids)
    ensures |Ids(ids)| == |ids|
  {
    if ids != [] {
      var first, last := ids[..|ids| - 1], ids[|ids| - 1];
      DistinctSize(first);
      assert Ids(ids) == Ids(first) + {last};
    } else {
      assert Ids(ids) == {};
    }
  }

  lemma CheckHealthInvariant(p: Probe, now: Time)
    requires Invariant(p) && p.active
    ensures Invariant(CheckHealth(p, now))
  {
    hide Sound, NoChannelShared, ClearHolders, CatchHolders;
    DistinctSize(p.schedule);
    assert |p.sessions| == |p.sessions.Keys|;
  }

  lemma RecoverInvariant(p: Probe, now: Time, setupOk: bool)
    requires Invariant(p) && !p.active
    ensures Invariant(RecoverProbe(p, now, setupOk))
  {
    hide Sound, NoChannelShared, ClearHolders, CatchHolders, Ids;
    assert p.schedule[0..|p.schedule|] == p.schedule;
    if p.schedule == [] {
      NoIds(p.schedule);
    } else {
      assert AheadFrom(Ids(p.schedule), |p.schedule|, p.schedule, 0, 0);
    }
  }

  lemma ServiceInvariant(p: Probe, i: ServiceInput)
    requires Invariant(p)
    ensures Wired(p) && Invariant(Service(p, i))
  {
    hide Invariant, CheckHealth, RecoverProbe, UpdateScheduled;
    InvariantIsWired(p);
    if p.active {
      UpdateScheduledInvariant(p, i.update);
      UpdateScheduledStaysActive(p, i.update);
      CheckHealthInvariant(Advance(UpdateScheduled(p, i.update)), i.checkTime);
    } else {
      RecoverInvariant(p, i.retryTime, i.setupOk);
    }
  }

  lemma InvariantIsWired(p: Probe)
    requires Invariant(p)
    ensures Wired(p)
  {
  }

  lemma UpdateScheduledStaysActive(p: Probe, i: UpdateInput)
    requires Wired(p)
    ensures UpdateScheduled(p, i).active == p.active
  {
    hide Update;
  }

  // ----- adding

  lemma RegisterInvariant(p: Probe, core: nat)
    requires Invariant(p)
    ensures Invariant(Register(p, core))
    ensures Register(p, core).sessions == p.sessions && Register(p, core).active == p.active
  {
    hide Sound, NoChannelShared, ClearHolders, CatchHolders;
  }

  lemma HoldersWithIdle(sessions: map<SessionId, Session>, s: Session, core: nat)
    requires s.id !in sessions && s.state.Init?
    ensures ClearHolders(sessions[s.id := s], core) == ClearHolders(sessions, core)
    ensures CatchHolders(sessions[s.id := s], core) == CatchHolders(sessions, core)
  {
  }

  lemma AddedBounded(p: Probe, s: Session)
    requires Bounded(p) && s.id !in p.sessions && s.state.Init?
    ensures Bounded(Add(p, s))
  {
    hide ClearHolders, CatchHolders;
    forall core | core in p.cores
      ensures ClearHolders(Add(p, s).sessions, core) == ClearHolders(p.sessions, core)
      ensures CatchHolders(Add(p, s).sessions, core) == CatchHolders(p.sessions, core)
    {
      HoldersWithIdle(p.sessions, s, core);
    }
  }

  lemma AddedStructured(p: Probe, s: Session)
    requires Structured(p) && s.id !in p.sessions && s.target.core in p.cores
    requires !Taken(p, s.target, s.rtt)
    ensures Structured(Add(p, s))
  {
    assert Ids(p.schedule + [s.id]) == Ids(p.schedule) + {s.id};
  }

  lemma AddedCovered(p: Probe, s: Session)
    requires Structured(p) && Covered(p) && p.active
    ensures Covered(Add(p, s))
  {
    var pending, n := p.history.pending, p.history.resumedCount;
    if pending != {} {
      var from: nat :| AheadFrom(pending, n, p.schedule, p.nextIdx, from);
      assert (p.schedule + [s.id])[from..n] == p.schedule[from..n];
      assert AheadFrom(pending, n, p.schedule + [s.id], p.nextIdx, from);
    }
  }

  lemma RequestInvariant(p: Probe, id: SessionId, target: TargetConfig, rtt: RttConfig, ioOk: bool, now: Time)
    requires Invariant(p) && id !in p.sessions
    ensures Invariant(Request(p, id, target, rtt, ioOk, now))
  {
    hide Invariant, Taken, Register, Add, NewSession;
    if !Taken(p, target, rtt) {
      RegisterInvariant(p, target.core);
      if p.active && ioOk {
        AddInvariant(p, id, target, rtt, now);
      }
    }
  }

  lemma AddInvariant(p: Probe, id: SessionId, target: TargetConfig, rtt: RttConfig, now: Time)
    requires Invariant(p) && Invariant(Register(p, target.core)) && p.active && id !in p.sessions
    requires !Taken(p, target, rtt)
    ensures var p2 := Add(Register(p, target.core), NewSession(id, target, rtt, now));
            Invariant(p2.(history := p.history.(clock := now)))
  {
    hide Sound, Bounded, Structured, Covered;
    var p1 := Register(p, target.core);
    var s := NewSession(id, target, rtt, now);
    NewSessionIsSound(id, target, rtt, now);
    AddedStructured(p1, s);
    AddedCovered(p1, s);
    AddedBounded(p1, s);
    ClockIsApart(Add(p1, s), now);
  }

  lemma ClockIsApart(p: Probe, now: Time)
    ensures var p2 := p.(history := p.history.(clock := now));
            && Structured(p2) == Structured(p) && Bounded(p2) == Bounded(p) && Covered(p2) == Covered(p)
            && HandlesFresh(p2) == HandlesFresh(p) && AllSound(p2) == AllSound(p)
  {
    hide Sound, NoChannelShared, ClearHolders, CatchHolders;
  }

  // ----- removing

  lemma ReleasedHoldsNothing(p: Probe, id: SessionId, i: StopInput)
    requires Wired(p) && Bounded(p) && id in p.sessions
    ensures var l := Released(LocalOf(p, id), p.active, i);
            var core := p.sessions[id].target.core;
            && l.s.target == p.sessions[id].target
            && CellBounded(Cell(l.c, l.hw), |ClearHolders(p.sessions, core) - {id}|,
                           |CatchHolders(p.sessions, core) - {id}|)
            && (!p.active ==> l.c == ZERO)
  {
    hide ClearHolders, CatchHolders, Stop;
    var l := LocalOf(p, id);
    var core := l.s.target.core;
    BoundedAt(p, id);
    ReleasedKeepsTarget(l, p.active, i);
    if p.active {
      ShutDownReleases(l, i, |ClearHolders(p.sessions, core) - {id}|, |CatchHolders(p.sessions, core) - {id}|);
      ShutDownEnds(l, i);
    }
  }

  lemma ShutDownEnds(l: Local, i: StopInput)
    ensures ShutDown(l, i).s.state.Shutdown?
  {
  }

  lemma DetachBounded(p: Probe, id: SessionId, i: StopInput)
    requires Wired(p) && Bounded(p) && id in p.sessions
    ensures Bounded(Detach(p, id, i))
  {
    hide Released, ClearHolders, CatchHolders;
    var l := Released(LocalOf(p, id), p.active, i);
    ReleasedHoldsNothing(p, id, i);
    var p2 := Detach(p, id, i);
    forall core | core in p2.cores
      ensures CellBounded(p2.cores[core], |ClearHolders(p2.sessions, core)|, |CatchHolders(p2.sessions, core)|)
    {
      if core == l.s.target.core {
        HoldersHere(p.sessions, id, l.s);
      } else {
        HoldersElsewhere(p.sessions, id, l.s, core);
      }
    }
  }

  /** Taking one id out of a schedule. */
  lemma UnscheduledOne(ids: seq<SessionId>, id: SessionId)
    requires Distinct(ids) && id in ids
    ensures Distinct(Unscheduled(ids, id))
    ensures Ids(Unscheduled(ids, id)) == Ids(ids) - {id}
    ensures |Unscheduled(ids, id)| == |ids| - 1
  {
    hide IndexOf;
    var k := IndexOf(ids, id);
    assert ids == ids[..k] + [ids[k]] + ids[k + 1..];
  }

  lemma InPart(ids: seq<SessionId>, id: SessionId, from: nat, to: nat)
    requires Distinct(ids) && id in ids && from <= to <= |ids|
    ensures id in Ids(ids[from..to]) <==> from <= IndexOf(ids, id) < to
  {
    hide IndexOf;
    var k := IndexOf(ids, id);
    if from <= k < to {
      assert ids[from..to][k - from] == id;
    }
  }

  /** What taking an id out does to the parts of the schedule before, around and behind it. */
  lemma PartBehind(ids: seq<SessionId>, id: SessionId, from: nat, to: nat)
    requires id in ids && IndexOf(ids, id) < from <= to <= |ids|
    ensures Unscheduled(ids, id)[from - 1..to - 1] == ids[from..to]
  {
    hide IndexOf;
  }

  lemma PartBefore(ids: seq<SessionId>, id: SessionId, from: nat, to: nat)
    requires id in ids && from <= to <= IndexOf(ids, id)
    ensures Unscheduled(ids, id)[from..to] == ids[from..to]
  {
    hide IndexOf;
  }

  lemma PartAround(ids: seq<SessionId>, id: SessionId, from: nat, to: nat)
    requires Distinct(ids) && id in ids && from <= IndexOf(ids, id) < to <= |ids|
    ensures Ids(Unscheduled(ids, id)[from..to - 1]) == Ids(ids[from..to]) - {id}
  {
    hide IndexOf, Ids, Distinct;
    var k := IndexOf(ids, id);
    SliceAround(ids, k, from, to);
    SliceAcross(ids, k, from, to);
    NotTwice(ids, k, from, to);
    DropMiddle(ids[from..k], id, ids[k + 1..to]);
  }

  lemma SliceAround(ids: seq<SessionId>, k: nat, from: nat, to: nat)
    requires from <= k < to <= |ids|
    ensures ids[from..to] == ids[from..k] + [ids[k]] + ids[k + 1..to]
  {
  }

  lemma SliceAcross(ids: seq<SessionId>, k: nat, from: nat, to: nat)
    requires from <= k < to <= |ids|
    ensures (ids[..k] + ids[k + 1..])[from..to - 1] == ids[from..k] + ids[k + 1..to]
  {
    var rest := ids[..k] + ids[k + 1..];
    assert rest[from..k] == ids[from..k];
    assert rest[k..to - 1] == ids[k + 1..to];
    assert rest[from..to - 1] == rest[from..k] + rest[k..to - 1];
  }

  lemma NotTwice(ids: seq<SessionId>, k: nat, from: nat, to: nat)
    requires Distinct(ids) && from <= k < to <= |ids|
    ensures ids[k] !in ids[from..k] && ids[k] !in ids[k + 1..to]
  {
  }

  lemma DropMiddle(a: seq<SessionId>, id: SessionId, b: seq<SessionId>)
    requires id !in a && id !in b
    ensures Ids(a + b) == Ids(a + [id] + b) - {id}
  {
  }

  lemma DetachStructure(p: Probe, id: SessionId, i: StopInput)
    requires Structured(p) && id in p.sessions
    requires HandlesFresh(p) && AllSound(p)
    ensures var p2 := Detach(p, id, i);
            && p2 == p.(cores := p2.cores, sessions := p.sessions - {id}, history := p2.history)
            && Wired(p2) && NoChannelShared(p2.sessions) && HandlesFresh(p2) && AllSound(p2)
  {
    hide Released, Sound, Answered;
    DetachIsWired(p, id, i);
    DetachKeepsRest(p, id, i);
    ReleasedIsSound(LocalOf(p, id), p.active, i);
  }

  lemma ReleasedIsSound(l: Local, active: bool, i: StopInput)
    requires Sound(l.s)
    ensures Sound(Released(l, active, i).s)
  {
    hide Sound, ShutDown;
    SoundShutDown(l, i);
  }

  lemma AheadAfterRemoval(pending: set<SessionId>, n: nat, schedule: seq<SessionId>, idx: nat, id: SessionId)
    requires Ahead(pending, n, schedule, idx) && Distinct(schedule) && id in schedule
    ensures Ahead(pending - {id}, if IndexOf(schedule, id) < n then n - 1 else n, Unscheduled(schedule, id), 0)
  {
    if pending != {} {
      var from: nat :| AheadFrom(pending, n, schedule, idx, from);
      AheadFromAfterRemoval(pending, n, schedule, idx, id, from);
    }
  }

  lemma AheadFromAfterRemoval(
    pending: set<SessionId>, n: nat, schedule: seq<SessionId>, idx: nat, id: SessionId, from: nat)
    requires AheadFrom(pending, n, schedule, idx, from) && Distinct(schedule) && id in schedule
    ensures var k, rest, left := IndexOf(schedule, id), Unscheduled(schedule, id), pending - {id};
            if k < from then AheadFrom(left, n - 1, rest, 0, from - 1)
            else if n <= k then AheadFrom(left, n, rest, 0, from)
            else left == {} || AheadFrom(left, n - 1, rest, 0, from)
  {
    hide Ids, Unscheduled, IndexOf, Distinct;
    var k := IndexOf(schedule, id);
    UnscheduledOne(schedule, id);
    InPart(schedule, id, from, n);
    if from <= k < n {
      PartAround(schedule, id, from, n);
      if n - 1 == from {
        NoIds(Unscheduled(schedule, id)[from..from]);
      }
    } else {
      assert pending - {id} == pending;
      if k < from {
        PartBehind(schedule, id, from, n);
      } else {
        PartBefore(schedule, id, from, n);
      }
    }
  }

  lemma RemovedCovered(p: Probe, id: SessionId, i: StopInput)
    requires Structured(p) && Covered(p) && id in p.sessions
    ensures Covered(Remove(p, id, i))
  {
    hide Detach, Unscheduled, IndexOf, Ahead, Distinct;
    UnscheduledOne(p.schedule, id);
    DetachKeepsRest(p, id, i);
    if p.active {
      AheadAfterRemoval(p.history.pending, p.history.resumedCount, p.schedule, p.nextIdx, id);
    }
  }

  lemma DetachKeepsRest(p: Probe, id: SessionId, i: StopInput)
    requires Wired(p) && id in p.sessions
    ensures var p2 := Detach(p, id, i);
            && p2 == p.(cores := p2.cores, sessions := p.sessions - {id}, history := p2.history)
            && p2.history == p.history.(ended := p2.history.ended)
            && p2.history.ended == p.history.ended[id := Released(LocalOf(p, id), p.active, i).s]
  {
    hide Released;
  }

  lemma RemoveInvariant(p: Probe, id: SessionId, i: StopInput)
    requires Invariant(p)
    ensures Wired(p) && Invariant(Remove(p, id, i))
  {
    hide Sound, Bounded, Covered, Detach, Unscheduled, NoChannelShared, Distinct;
    if id in p.sessions {
      RemovedCovered(p, id, i);
      UnscheduledOne(p.schedule, id);
      DetachStructure(p, id, i);
      DetachBounded(p, id, i);
      BoundedAlike(Detach(p, id, i), Remove(p, id, i));
    }
  }

  /** Shutting down all sessions, in any order, releases everything: both counters of every
      core are zero, and no catch stays on unless switching it off failed or was impossible. */
  lemma NothingIsLeft(p: Probe, p2: Probe, stops: SessionId -> StopInput)
    requires Bounded(p) && Emptied(p, p2, stops)
    ensures p2.sessions == map[]
    ensures forall core :: core in p2.cores ==>
              p2.cores[core].c == ZERO && (p2.cores[core].hw.catchOn ==> p2.cores[core].hw.orphaned)
  {
    hide Bounded, AllEnded, Distinct, ClearHolders, CatchHolders;
    var order :| Distinct(order) && Ids(order) == p.sessions.Keys && p2 == DetachAll(p, order, stops);
    DetachAllBounded(p, order, stops);
    assert p2.sessions == map[];
    EmptyIsReleased(p2);
  }

  lemma EmptyIsReleased(p: Probe)
    requires Bounded(p) && p.sessions == map[]
    ensures forall core :: core in p.cores ==>
              p.cores[core].c == ZERO && (p.cores[core].hw.catchOn ==> p.cores[core].hw.orphaned)
  {
    forall core | core in p.cores
      ensures ClearHolders(p.sessions, core) == {} && CatchHolders(p.sessions, core) == {}
    {
    }
  }

  lemma {:induction false} DetachAllBounded(p: Probe, order: seq<SessionId>, stops: SessionId -> StopInput)
    requires Wired(p) && Bounded(p) && Distinct(order) && Ids(order) <= p.sessions.Keys
    ensures Bounded(DetachAll(p, order, stops))
  {
    hide Bounded, Detach;
    if order != [] {
      var first, last := order[..|order| - 1], order[|order| - 1];
      assert Ids(order) == Ids(first) + {last};
      DetachAllBounded(p, first, stops);
      DetachBounded(DetachAll(p, first, stops), last, stops(last));
    }
  }
}
