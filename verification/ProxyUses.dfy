/** The uses of a probe one after the other: what a probe leaves in its cores when it is closed is
    what it finds there when it is opened again. */
module ProxyUses {
  import opened Clock
  import opened SessionModel
  import opened ProbeModel
  import opened ProbeProofs
  import opened ProbeRuns
  import opened ManagerModel
  import opened ManagerProofs

  /** The probes in use, and what was left in the cores of those that were in use before. */
  datatype World = World(probes: Probes, left: map<ProbeId, map<nat, CoreState>>)

  /** An operation; `order` and `stops` say how the sessions go that an exclusive request throws out. */
  datatype Happening = Happening(op: ManagerOp, order: seq<SessionId>, stops: SessionId -> StopInput)

  function CoresLeft(p: Probe): map<nat, CoreState> {
    map core | core in p.cores.Keys + p.found.Keys ::
      if core in p.cores then p.cores[core].hw else AsFound(p.found, core)
  }

  predicate ThrowsOut(r: SessionRequest, pid: ProbeId) {
    r.forceExclusive && r.found == Some(pid)
  }

  /** Whether an operation closes a probe, even if it opens it again. */
  predicate Closes(m: Probes, op: ManagerOp, pid: ProbeId)
    requires pid in m
  {
    match op
    case Handle(r) => m[pid].sessions.Keys == {} || ThrowsOut(r, pid)
    case EndSession(id, _) => m[pid].sessions.Keys - {id} == {}
    case Tick(_) => false
  }

  predicate IsOrder(p: Probe, order: seq<SessionId>) {
    Distinct(order) && Ids(order) == p.sessions.Keys
  }

  /** The probe as it is when it is closed. */
  ghost function Closing(p: Probe, h: Happening): Probe
    requires Wired(p)
  {
    match h.op
    case Handle(_) =>
      if p.sessions.Keys != {} && IsOrder(p, h.order) then DetachAll(p, h.order, h.stops) else p
    case EndSession(id, stop) => Remove(p, id, stop)
    case Tick(_) => p
  }

  ghost function LeftAfter(w: World, h: Happening): map<ProbeId, map<nat, CoreState>>
    requires AllWired(w.probes)
  {
    map pid | pid in w.probes.Keys + w.left.Keys && (pid in w.left || Closes(w.probes, h.op, pid)) ::
      if pid in w.probes && Closes(w.probes, h.op, pid) then CoresLeft(Closing(w.probes[pid], h)) else w.left[pid]
  }

  /** The probe a request opens, if it opens one. */
  predicate Opens(m: Probes, r: SessionRequest, pid: ProbeId) {
    r.found == Some(pid) && pid !in MadeRoom(Pruned(m), pid, r)
  }

  /** The new session has an id of its own, the sessions thrown out are those of the probe, and a
      probe that was in use before finds its cores as it left them. */
  ghost predicate Proper(w: World, h: Happening)
    requires AllWired(w.probes)
  {
    h.op.Handle? ==>
      var r := h.op.r;
      && FreshId(w.probes, r.id)
      && (forall pid :: pid in w.probes && w.probes[pid].sessions.Keys != {} && ThrowsOut(r, pid) ==>
            IsOrder(w.probes[pid], h.order))
      && (forall pid :: Opens(w.probes, r, pid) && pid in LeftAfter(w, h) ==> r.coresFound == LeftAfter(w, h)[pid])
  }

  ghost function WorldNext(w: World, h: Happening): World {
    if AllWired(w.probes) then World(Next(w.probes, h.op), LeftAfter(w, h)) else w
  }

  ghost function Uses(hs: seq<Happening>): World {
    if hs == [] then World(map[], map[]) else WorldNext(Uses(hs[..|hs| - 1]), hs[|hs| - 1])
  }

  ghost predicate ProperRun(hs: seq<Happening>) {
    forall k :: 0 <= k < |hs| ==> AllWired(Uses(hs[..k]).probes) && Proper(Uses(hs[..k]), hs[k])
  }

  function Operations(hs: seq<Happening>): seq<ManagerOp> {
    if hs == [] then [] else Operations(hs[..|hs| - 1]) + [hs[|hs| - 1].op]
  }

  /** As far as the probes in use are concerned, this is the run of the proxy. */
  lemma {:induction false} UsesAreProxy(hs: seq<Happening>)
    ensures Uses(hs).probes == Proxy(Operations(hs))
    ensures Holds(Uses(hs).probes) && AllWired(Uses(hs).probes)
  {
    hide Next, Holds, AllWired, LeftAfter;
    if hs != [] {
      var first := hs[..|hs| - 1];
      UsesAreProxy(first);
      var ops := Operations(hs);
      assert ops[..|ops| - 1] == Operations(first);
    }
    ProxyHolds(Operations(hs));
    HoldsWired(Proxy(Operations(hs)));
  }

  // ----- what is left, on every run

  /** A catch that is on is one that nobody answers for. */
  predicate Accounted(cores: map<nat, CoreState>) {
    forall core :: core in cores && cores[core].catchOn ==> cores[core].orphaned
  }

  lemma ClosingIsBounded(p: Probe, h: Happening, m: Probes, pid: ProbeId)
    requires pid in m && m[pid] == p && Invariant(p) && Closes(m, h.op, pid)
    requires h.op.Handle? && p.sessions.Keys != {} ==> IsOrder(p, h.order)
    ensures Wired(p) && Bounded(Closing(p, h)) && Closing(p, h).sessions.Keys == {}
  {
    hide Bounded, Remove, DetachAll, HandlesFresh, AllSound, Covered, NoChannelShared;
    match h.op
    case Handle(_) =>
      if p.sessions.Keys != {} {
        DetachAllBounded(p, h.order, h.stops);
      }
    case EndSession(id, stop) =>
      RemoveInvariant(p, id, stop);
      RemoveSessions(p, id, stop);
  }

  lemma ClosedIsAccounted(p: Probe)
    requires Bounded(p) && p.sessions.Keys == {}
    ensures Accounted(CoresLeft(p))
  {
    EmptyLeavesNothing(p);
  }

  /** What a closed probe leaves in its cores is taken over unchanged when it is opened again, and a
      catch among it that is on is one that could not be switched off, or was found on. */
  lemma {:induction false} LeftIsAccounted(hs: seq<Happening>)
    requires ProperRun(hs)
    ensures forall pid :: pid in Uses(hs).left ==> Accounted(Uses(hs).left[pid])
    ensures forall pid, core :: pid in Uses(hs).left && core in Uses(hs).left[pid] ==>
              AsFound(Uses(hs).left[pid], core) == Uses(hs).left[pid][core]
  {
    hide Accounted, Next, CoresLeft, Closing, Invariant, Proper;
    if hs != [] {
      var first, last := hs[..|hs| - 1], hs[|hs| - 1];
      ShorterIsProper(hs);
      LeftIsAccounted(first);
      UsesAreProxy(first);
      var w := Uses(first);
      forall pid | pid in w.probes && Closes(w.probes, last.op, pid)
        ensures Accounted(CoresLeft(Closing(w.probes[pid], last)))
      {
        ClosingIsAccounted(w, last, pid);
      }
    }
    TakenOver(Uses(hs).left);
  }

  lemma ShorterIsProper(hs: seq<Happening>)
    requires ProperRun(hs) && hs != []
    ensures var first := hs[..|hs| - 1];
            && ProperRun(first)
            && AllWired(Uses(first).probes) && Proper(Uses(first), hs[|hs| - 1])
  {
    hide Uses, Proper;
    var first := hs[..|hs| - 1];
    assert forall k :: 0 <= k < |first| ==> first[..k] == hs[..k];
  }

  lemma ClosingIsAccounted(w: World, h: Happening, pid: ProbeId)
    requires Holds(w.probes) && AllWired(w.probes) && Proper(w, h) && pid in w.probes && Closes(w.probes, h.op, pid)
    ensures Accounted(CoresLeft(Closing(w.probes[pid], h)))
  {
    hide Accounted, CoresLeft, Closing, Invariant, Bounded, LeftAfter;
    assert Invariant(w.probes[pid]);
    ClosingIsBounded(w.probes[pid], h, w.probes, pid);
    ClosedIsAccounted(Closing(w.probes[pid], h));
  }

  lemma TakenOver(left: map<ProbeId, map<nat, CoreState>>)
    requires forall pid :: pid in left ==> Accounted(left[pid])
    ensures forall pid, core :: pid in left && core in left[pid] ==> AsFound(left[pid], core) == left[pid][core]
  {
  }

  // ----- no catch without a holder, from one use to the next

  predicate NothingOn(cores: map<nat, CoreState>) {
    forall core :: core in cores ==> !cores[core].catchOn && !cores[core].orphaned
  }

  /** Every stop can switch the catch off, no holder is dropped, and cores that were never in use
      are found with no catch on. */
  ghost predicate CleanHappening(w: World, h: Happening)
    requires AllWired(w.probes)
  {
    match h.op
    case Handle(r) =>
      forall pid :: r.found == Some(pid) ==>
        && (pid in w.probes && ThrowsOut(r, pid) ==>
              forall id :: id in w.probes[pid].sessions ==> Clean(w.probes[pid], RemoveOp(id, h.stops(id))))
        && (Opens(w.probes, r, pid) && pid !in LeftAfter(w, h) ==> NothingOn(r.coresFound))
    case EndSession(id, stop) =>
      forall pid :: pid in w.probes && id in w.probes[pid].sessions ==> Clean(w.probes[pid], RemoveOp(id, stop))
    case Tick(inputs) =>
      forall pid :: pid in w.probes ==> Clean(w.probes[pid], ServiceOp(inputs(pid)))
  }

  /** No catch was left behind, in use or not. */
  ghost predicate NoneLeft(w: World) {
    && (forall pid :: pid in w.probes ==> NoOrphans(w.probes[pid]))
    && (forall pid :: pid in w.left ==> NothingOn(w.left[pid]))
  }

  lemma {:induction false} DetachAllNoOrphans(p: Probe, order: seq<SessionId>, stops: SessionId -> StopInput)
    requires Wired(p) && NoOrphans(p) && Distinct(order) && Ids(order) <= p.sessions.Keys
    requires forall id :: id in p.sessions ==> Clean(p, RemoveOp(id, stops(id)))
    ensures NoOrphans(DetachAll(p, order, stops))
    decreases |order|
  {
    hide NoOrphans, Detach;
    if order != [] {
      var first, last := order[..|order| - 1], order[|order| - 1];
      assert Ids(order) == Ids(first) + {last};
      DetachAllNoOrphans(p, first, stops);
      DetachNoOrphans(DetachAll(p, first, stops), last, stops(last));
    }
  }

  lemma DetachNoOrphans(p: Probe, id: SessionId, stop: StopInput)
    requires Wired(p) && id in p.sessions && NoOrphans(p) && Clean(p, RemoveOp(id, stop))
    ensures NoOrphans(Detach(p, id, stop))
  {
    hide ShutDown;
    if p.active {
      NotOrphanedByShutDown(LocalOf(p, id), stop);
    }
  }

  lemma ClosingNoOrphans(w: World, h: Happening, pid: ProbeId)
    requires Holds(w.probes) && AllWired(w.probes) && Proper(w, h) && pid in w.probes && Closes(w.probes, h.op, pid)
    requires CleanHappening(w, h) && NoOrphans(w.probes[pid])
    ensures NoOrphans(Closing(w.probes[pid], h))
  {
    hide NoOrphans, Invariant, Remove, DetachAll, LeftAfter, Clean;
    var p := w.probes[pid];
    assert Invariant(p);
    match h.op
    case Handle(r) =>
      if p.sessions.Keys != {} {
        DetachAllNoOrphans(p, h.order, h.stops);
      }
    case EndSession(id, stop) =>
      if id in p.sessions {
        RemoveNoOrphans(p, id, stop);
      } else {
        RemoveSessions(p, id, stop);
      }
  }

  lemma NothingOnIsLeft(p: Probe)
    requires NoOrphans(p) && Accounted(CoresLeft(p))
    ensures NothingOn(CoresLeft(p))
  {
  }

  lemma LeftStaysClean(w: World, h: Happening)
    requires Holds(w.probes) && AllWired(w.probes) && Proper(w, h) && CleanHappening(w, h) && NoneLeft(w)
    ensures forall pid :: pid in LeftAfter(w, h) ==> NothingOn(LeftAfter(w, h)[pid])
  {
    hide NoOrphans, NothingOn, Accounted, CoresLeft, Closing, Invariant, Proper, CleanHappening;
    forall pid | pid in w.probes && Closes(w.probes, h.op, pid)
      ensures NothingOn(CoresLeft(Closing(w.probes[pid], h)))
    {
      ClosingIsAccounted(w, h, pid);
      ClosingNoOrphans(w, h, pid);
      NothingOnIsLeft(Closing(w.probes[pid], h));
    }
  }

  lemma RequestNoOrphans(p: Probe, r: SessionRequest)
    requires NoOrphans(p)
    ensures NoOrphans(Request(p, r.id, r.target, r.rtt, r.ioOk, r.now))
  {
    hide Taken, NewSession;
  }

  lemma OpenedNoOrphans(now: Time, found: map<nat, CoreState>)
    requires NothingOn(found)
    ensures NoOrphans(NewProbe(now, found))
  {
  }

  lemma HandledNoOrphans(m: Probes, r: SessionRequest)
    requires forall pid :: pid in m ==> NoOrphans(m[pid])
    requires forall pid :: Opens(m, r, pid) ==> NothingOn(r.coresFound)
    ensures forall pid :: pid in HandleRequest(m, r) ==> NoOrphans(HandleRequest(m, r)[pid])
  {
    hide NoOrphans, NothingOn, Request, NewProbe;
    if r.found.Some? {
      var pid := r.found.value;
      var m2 := MadeRoom(Pruned(m), pid, r);
      if pid !in m2 {
        assert Opens(m, r, pid);
        OpenedNoOrphans(r.now, r.coresFound);
      }
      RequestNoOrphans(ProbeFor(m2, pid, r), r);
    }
  }

  lemma HandledStaysClean(w: World, h: Happening)
    requires Holds(w.probes) && AllWired(w.probes) && Proper(w, h) && CleanHappening(w, h) && NoneLeft(w)
    requires h.op.Handle?
    ensures forall pid :: pid in HandleRequest(w.probes, h.op.r) ==> NoOrphans(HandleRequest(w.probes, h.op.r)[pid])
  {
    hide NoOrphans, NothingOn, HandleRequest, LeftAfter, Clean, Opens, Holds, AllWired;
    LeftStaysClean(w, h);
    forall pid: ProbeId | Opens(w.probes, h.op.r, pid)
      ensures NothingOn(h.op.r.coresFound)
    {
      assert h.op.r.found == Some(pid) by { OpensTheFound(w.probes, h.op.r, pid); }
    }
    HandledNoOrphans(w.probes, h.op.r);
  }

  lemma OpensTheFound(m: Probes, r: SessionRequest, pid: ProbeId)
    requires Opens(m, r, pid)
    ensures r.found == Some(pid)
  {
  }

  lemma ProbesStayClean(w: World, h: Happening)
    requires Holds(w.probes) && AllWired(w.probes) && Proper(w, h) && CleanHappening(w, h) && NoneLeft(w)
    ensures forall pid :: pid in Next(w.probes, h.op) ==> NoOrphans(Next(w.probes, h.op)[pid])
  {
    hide NoOrphans, Invariant, Remove, Service, HandleRequest, LeftAfter, Closing, NothingOn;
    match h.op
    case Handle(r) => HandledStaysClean(w, h);
    case EndSession(id, stop) =>
      forall pid | pid in w.probes
        ensures NoOrphans(Remove(w.probes[pid], id, stop))
      {
        if id in w.probes[pid].sessions {
          RemoveNoOrphans(w.probes[pid], id, stop);
        } else {
          RemoveSessions(w.probes[pid], id, stop);
        }
      }
    case Tick(inputs) =>
      forall pid | pid in w.probes
        ensures NoOrphans(ProbeModel.Service(w.probes[pid], inputs(pid)))
      {
        ServiceNoOrphans(w.probes[pid], inputs(pid));
      }
  }

  ghost predicate CleanRun(hs: seq<Happening>)
    requires ProperRun(hs)
  {
    forall k :: 0 <= k < |hs| ==> CleanHappening(Uses(hs[..k]), hs[k])
  }

  lemma ShorterIsClean(hs: seq<Happening>)
    requires ProperRun(hs) && CleanRun(hs) && hs != []
    ensures var first := hs[..|hs| - 1];
            && ProperRun(first) && CleanRun(first)
            && AllWired(Uses(first).probes) && Proper(Uses(first), hs[|hs| - 1])
            && CleanHappening(Uses(first), hs[|hs| - 1])
  {
    hide Uses, Proper, CleanHappening;
    ShorterIsProper(hs);
    var first := hs[..|hs| - 1];
    assert forall k :: 0 <= k < |first| ==> first[..k] == hs[..k];
  }

  lemma {:induction false} NoneIsLeft(hs: seq<Happening>)
    requires ProperRun(hs) && CleanRun(hs)
    ensures NoneLeft(Uses(hs))
  {
    hide NoOrphans, NothingOn, Next, LeftAfter, Proper, CleanHappening;
    if hs != [] {
      var first, last := hs[..|hs| - 1], hs[|hs| - 1];
      ShorterIsClean(hs);
      NoneIsLeft(first);
      UsesAreProxy(first);
      LeftStaysClean(Uses(first), last);
      ProbesStayClean(Uses(first), last);
    }
  }

  /** However often probes are closed and opened again: as long as every stop can switch the catch
      off and no holder is dropped, a catch that is on has a holder attached to its core, and no
      core of a closed probe has its catch on. */
  lemma NoLeakedCatchAcrossUses(hs: seq<Happening>, pid: ProbeId, core: nat)
    requires ProperRun(hs) && CleanRun(hs)
    ensures var w := Uses(hs);
            && (pid in w.probes && core in w.probes[pid].cores && w.probes[pid].cores[core].hw.catchOn ==>
                  CatchHolders(w.probes[pid].sessions, core) != {})
            && (pid in w.probes && core !in w.probes[pid].cores ==> !AsFound(w.probes[pid].found, core).catchOn)
            && (pid in w.left && core in w.left[pid] ==> !w.left[pid][core].catchOn)
  {
    hide Uses, ProperRun, CleanRun, CatchHolders, ClearHolders, Structured, HandlesFresh, AllSound, Covered;
    NoneIsLeft(hs);
    UsesAreProxy(hs);
    if pid in Uses(hs).probes {
      assert Invariant(Uses(hs).probes[pid]);
    }
  }
}
