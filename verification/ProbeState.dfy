/** The `ProbeState` of src/manager.rs: the sessions of one debug probe, their schedule, the
    counters they share per core, and the recovery of the probe. */
module ProbeStates {
  import opened Clock
  import opened RateLimiters
  import opened SharedStates
  import opened SessionModel
  import opened RttSessions
  import opened ProbeModel
  import P = ProbeModel

  class ProbeState {
    var active: bool
    var epoch: nat   // which debug session this is, counting successful setups
    var sharedStates: map<nat, SharedState>
    var cores: map<nat, Core>
    var sessions: map<SessionId, RttSession>
    var schedule: seq<SessionId>
    var nextIdx: nat
    var gate: nat
    const retry: RateLimiter
    const check: RateLimiter
    const found: map<nat, CoreState>
    ghost var history: History
    /** The other objects this one is made of. */
    ghost var Parts: set<object>

    /** Every core has its own counters, every session its own objects, and a session uses the
        counters registered for its core. */
    ghost predicate Valid()
      reads `sessions, `cores, `sharedStates, `Parts
    {
      && this !in Parts && retry !in Parts && check !in Parts && retry != check
      && CoresValid()
      && (forall id :: id in sessions ==> SessionValid(id, sessions[id]))
      && Apart()
    }

    ghost predicate Apart()
      reads `sessions
    {
      forall a, b :: a in sessions && b in sessions && a != b ==> sessions[a].Own !! sessions[b].Own
    }

    ghost predicate CoresValid()
      reads `cores, `sharedStates, `Parts
    {
      && cores.Keys == sharedStates.Keys
      && (forall c :: c in cores ==> cores[c] in Parts && sharedStates[c] in Parts)
      && (forall a, b :: a in cores && b in cores && a != b ==>
            cores[a] != cores[b] && sharedStates[a] != sharedStates[b])
    }

    ghost predicate SessionValid(id: SessionId, s: RttSession)
      reads `cores, `sharedStates, `Parts
    {
      && s.Valid() && s.id == id && s.Own <= Parts
      && s.target.core in cores && s.target.core in sharedStates
      && s.shared == sharedStates[s.target.core]
      && (forall c :: c in cores ==> cores[c] !in s.Own)
      && (forall c :: c in sharedStates ==> sharedStates[c] !in s.Own)
    }

    ghost function CellValues(): map<nat, Cell>
      reads `cores, `sharedStates, `Parts, Parts
      requires CoresValid()
    {
      map c | c in cores :: Cell(sharedStates[c].Value(), cores[c].Value())
    }

    ghost function SessionValues(): map<SessionId, Session>
      reads `sessions, `cores, `sharedStates, `Parts, Parts
      requires Valid()
    {
      map id | id in sessions :: sessions[id].Value()
    }

    ghost function Value(): Probe
      reads this, retry, check, Parts
      requires Valid()
    {
      Probe(found, active, epoch, CellValues(), SessionValues(), schedule, nextIdx, gate,
            retry.Value(), check.Value(), history)
    }

    lemma ValueIsWired()
      requires Valid()
      ensures Wired(Value())
    {
    }

    constructor (now: Time, found: map<nat, CoreState>)
      ensures Valid() && fresh(Parts) && fresh(retry) && fresh(check)
      ensures Value() == NewProbe(now, found)
    {
      this.found := found;
      active, sharedStates, cores, sessions, schedule, nextIdx, gate := true, map[], map[], map[], [], 0, 0;
      retry := new RateLimiter(RECOVERY_RETRY_INTERVAL, now);
      check := new RateLimiter(HEALTH_CHECK_INTERVAL, now);
      epoch := 0;
      history := History(now, 0, [], [], [], {}, 0, map[]);
      new;
      Parts := {};
    }

    /** A session with its counters and its core, read off the value. */
    lemma LocalIs(id: SessionId)
      requires Valid() && id in sessions
      ensures Wired(Value())
      ensures SessionValid(id, sessions[id])
      ensures LocalOf(Value(), id) == sessions[id].Here(cores[sessions[id].target.core])
    {
      assert SessionValid(id, sessions[id]);
      ValueIsWired();
    }

    twostate lemma OneSessionChanged(id: SessionId)
      requires old(Valid()) && Valid() && old(sessions) == sessions && id in sessions
      requires forall b | b in sessions && b != id :: sessions[b].Value() == old(sessions[b].Value())
      ensures SessionValues() == old(SessionValues())[id := sessions[id].Value()]
    {
      hide RttSession.Value, RttSession.Valid, ProbeState.CoresValid, ProbeState.Apart;
    }

    twostate lemma NoSessionChanged()
      requires old(Valid()) && Valid() && old(sessions) == sessions
      requires forall b | b in sessions :: sessions[b].Value() == old(sessions[b].Value())
      ensures SessionValues() == old(SessionValues())
    {
      hide RttSession.Value, RttSession.Valid, ProbeState.CoresValid, ProbeState.Apart;
    }

    twostate lemma OneSessionForgotten(id: SessionId)
      requires old(Valid()) && Valid() && old(sessions) - {id} == sessions
      requires forall b | b in sessions :: sessions[b].Value() == old(sessions[b].Value())
      ensures SessionValues() == old(SessionValues()) - {id}
    {
      hide RttSession.Value, RttSession.Valid, ProbeState.CoresValid, ProbeState.Apart;
    }

    twostate lemma OneSessionAdded(new s: RttSession)
      requires old(Valid()) && Valid() && s.Valid() && old(sessions)[s.id := s] == sessions && s.id !in old(sessions)
      requires forall b | b in old(sessions) :: sessions[b].Value() == old(sessions[b].Value())
      ensures SessionValues() == old(SessionValues())[s.id := s.Value()]
    {
      hide RttSession.Value, RttSession.Valid, ProbeState.CoresValid, ProbeState.Apart;
    }

    twostate lemma NoCellChanged()
      requires old(CoresValid()) && CoresValid() && old(cores) == cores && old(sharedStates) == sharedStates
      requires forall c | c in cores ::
                 && cores[c].Value() == old(cores[c].Value())
                 && sharedStates[c].Value() == old(sharedStates[c].Value())
      ensures CellValues() == old(CellValues())
    {
    }

    twostate lemma OneCellAdded(core: nat)
      requires old(CoresValid()) && CoresValid() && core in cores && core !in old(cores)
      requires cores == old(cores)[core := cores[core]]
      requires sharedStates == old(sharedStates)[core := sharedStates[core]]
      requires forall k | k in old(cores) ::
                 && cores[k].Value() == old(cores[k].Value())
                 && sharedStates[k].Value() == old(sharedStates[k].Value())
      ensures CellValues() == old(CellValues())[core := Cell(sharedStates[core].Value(), cores[core].Value())]
    {
    }

    twostate lemma OneCellChanged(core: nat)
      requires old(Valid()) && Valid() && old(cores) == cores && old(sharedStates) == sharedStates && core in cores
      requires forall c | c in cores && c != core ::
                 && cores[c].Value() == old(cores[c].Value())
                 && sharedStates[c].Value() == old(sharedStates[c].Value())
      ensures CellValues() == old(CellValues())[core := Cell(sharedStates[core].Value(), cores[core].Value())]
    {
    }

    lemma StatesAre()
      requires Valid()
      ensures forall id | id in sessions ::
                && SessionValues()[id].state == sessions[id].state
                && SessionValues()[id].target == sessions[id].target
                && SessionValues()[id].rtt == sessions[id].rtt
    {
      hide RttSession.Value;
      forall id | id in sessions
        ensures && SessionValues()[id].state == sessions[id].state
                && SessionValues()[id].target == sessions[id].target
                && SessionValues()[id].rtt == sessions[id].rtt
      {
        assert SessionValid(id, sessions[id]);
        sessions[id].ValueKeepsConfig();
      }
    }

    lemma KeysAre()
      requires Valid()
      ensures this !in Parts && retry !in Parts && check !in Parts && retry != check
      ensures SessionValues().Keys == sessions.Keys && CellValues().Keys == cores.Keys
    {
    }

    lemma CountIs()
      requires Valid()
      ensures |SessionValues()| == |sessions|
      ensures (set c | c in sharedStates :: sharedStates[c]) <= Parts
    {
      KeysAre();
      hide ProbeState.SessionValues;
      var values := SessionValues();
      assert values.Keys == sessions.Keys;
      assert |values| == |values.Keys|;
      assert |sessions| == |sessions.Keys|;
    }

    // ----- service

    method UpdateParts(id: SessionId, i: UpdateInput)
      requires Valid() && id in sessions
      modifies Parts
      ensures Valid() && SessionValid(id, sessions[id])
      ensures var l := Update(old(sessions[id].Here(cores[sessions[id].target.core])), epoch, i);
              && l.s.target == sessions[id].target
              && SessionValues() == old(SessionValues())[id := l.s]
              && CellValues() == old(CellValues())[sessions[id].target.core := Cell(l.c, l.hw)]
    {
      hide Update, RttSession.Value, RttSession.Valid;
      var s := sessions[id];
      assert SessionValid(id, s);
      s.Update(cores[s.target.core], epoch, i);
      forall b | b in sessions && b != id
        ensures sessions[b].Value() == old(sessions[b].Value())
      {
        assert SessionValid(b, sessions[b]);
        assert sessions[b].Own !! s.Own;
      }
      s.ValueKeepsConfig();
      OneSessionChanged(id);
      OneCellChanged(s.target.core);
    }

    method UpdateSession(id: SessionId, i: UpdateInput)
      requires Valid() && id in sessions
      modifies Parts
      ensures Valid() && Wired(old(Value()))
      ensures Value() == WithLocal(old(Value()), id, Update(LocalOf(old(Value()), id), epoch, i))
    {
      hide Update, Wired, LocalOf, RttSession.Here, RttSession.On, RttSession.Value, RttSession.Valid;
      hide ProbeState.SessionValues, ProbeState.CellValues, ProbeState.Valid, ProbeState.SessionValid;
      LocalIs(id);
      KeysAre();
      UpdateParts(id, i);
    }

    method UpdateScheduled(i: UpdateInput)
      requires Valid()
      modifies `gate, `history, Parts
      ensures Valid() && Wired(old(Value()))
      ensures Value() == P.UpdateScheduled(old(Value()), i)
    {
      hide Update, Wired, LocalOf, WithLocal;
      hide ProbeState.SessionValues, ProbeState.CellValues, ProbeState.Valid;
      ValueIsWired();
      KeysAre();
      if nextIdx < |schedule| && schedule[nextIdx] in sessions {
        var id := schedule[nextIdx];
        UpdateSession(id, i);
        gate := if gate == 0 then 0 else gate - 1;
        history := history.(clock := i.time.t5, updates := history.updates + 1, pending := history.pending - {id});
      }
    }

    method AnyUsesRecovery() returns (any: bool)
      requires Valid()
      ensures any == exists id :: id in Value().sessions && Value().sessions[id].target.autoRecover
                                  && !IsShutdown(Value().sessions[id])
    {
      hide ProbeState.SessionValues, ProbeState.CellValues, ProbeState.Valid;
      StatesAre();
      KeysAre();
      assert forall id :: id in sessions <==> id in Value().sessions;
      any := exists id | id in sessions :: sessions[id].target.autoRecover && !sessions[id].state.Shutdown?;
    }

    method AnyRunning() returns (any: bool)
      requires Valid()
      ensures any == exists id :: id in Value().sessions && IsRunning(Value().sessions[id])
    {
      hide ProbeState.SessionValues, ProbeState.CellValues, ProbeState.Valid;
      StatesAre();
      KeysAre();
      assert forall id :: id in sessions <==> id in Value().sessions;
      any := exists id | id in sessions :: sessions[id].state.Run?;
    }

    method AnyStoppedByCoreAttach() returns (any: bool)
      requires Valid()
      ensures any == exists id :: id in Value().sessions && IsStoppedByCoreAttach(Value().sessions[id])
    {
      hide ProbeState.SessionValues, ProbeState.CellValues, ProbeState.Valid;
      StatesAre();
      KeysAre();
      assert forall id :: id in sessions <==> id in Value().sessions;
      any := exists id | id in sessions ::
        sessions[id].state.Stopped? && sessions[id].state.reason == ByError(CoreAttach);
    }

    /** What the health check looks at. */
    method LooksDead() returns (dead: bool)
      requires Valid()
      ensures dead == P.LooksDead(Value())
    {
      hide ProbeState.SessionValues, ProbeState.CellValues, ProbeState.Valid;
      hide IsShutdown, IsRunning, IsStoppedByCoreAttach;
      KeysAre();
      var usesRecovery := AnyUsesRecovery();
      dead := false;
      if sessions.Keys != {} && usesRecovery {
        var running := AnyRunning();
        var stopped := AnyStoppedByCoreAttach();
        dead := !running && stopped;
      }
    }

    method ResetCounters()
      requires Valid()
      modifies set c | c in sharedStates :: sharedStates[c]
      ensures Valid()
      ensures SessionValues() == old(SessionValues())
      ensures CellValues() == CountersReset(old(CellValues()))
    {
      hide RttSession.Value, RttSession.Valid, ProbeState.Apart, ProbeState.SessionValues;
      var todo := sharedStates.Keys;
      while todo != {}
        invariant todo <= sharedStates.Keys
        invariant forall c | c in sharedStates && c !in todo :: sharedStates[c].Value() == ZERO
      {
        var c :| c in todo;
        sharedStates[c].Reset();
        todo := todo - {c};
      }
      forall id | id in sessions
        ensures sessions[id].Value() == old(sessions[id].Value())
      {
        assert SessionValid(id, sessions[id]);
      }
      NoSessionChanged();
    }

    method EnterRecovery(now: Time)
      requires Valid()
      modifies `active, `nextIdx, `gate, `history, Parts
      ensures Valid()
      ensures Value() == P.EnterRecovery(old(Value()), now)
    {
      hide ProbeState.SessionValues, ProbeState.CellValues, ProbeState.Valid, ProbeState.CoresValid;
      hide CountersReset;
      KeysAre();
      CountIs();
      active := false;
      ResetCounters();
      nextIdx := 0;
      gate := |sessions|;
      history := history.(entries := history.entries + [Entry(now, |sessions|, history.updates)]);
    }

    method CheckHealth(now: Time)
      requires Valid()
      modifies `active, `nextIdx, `gate, `history, check, Parts
      ensures Valid()
      ensures Value() == P.CheckHealth(old(Value()), now)
    {
      hide P.LooksDead, P.EnterRecovery;
      hide ProbeState.SessionValues, ProbeState.CellValues, ProbeState.Valid;
      KeysAre();
      var due := check.Check(now);
      history := history.(clock := now, checks := if due then history.checks + [now] else history.checks);
      if due && gate == 0 {
        LooksDeadBySessions(old(Value()), Value());
        var dead := LooksDead();
        if dead {
          EnterRecovery(now);
        }
      }
    }

    method Recover(now: Time, setupOk: bool)
      requires Valid()
      modifies `active, `epoch, `history, retry
      ensures Valid()
      ensures Value() == P.RecoverProbe(old(Value()), now, setupOk)
    {
      hide ProbeState.SessionValues, ProbeState.CellValues, ProbeState.Valid;
      KeysAre();
      var due := retry.Check(now);
      history := history.(clock := now);
      if due {
        history := history.(setups := history.setups + [now]);
        if setupOk {
          active := true;
          epoch := epoch + 1;
          history := history.(pending := Ids(schedule), resumedCount := |schedule|);
        }
      }
    }

    method Service(i: ServiceInput)
      requires Valid()
      modifies this, retry, check, Parts
      ensures Valid() && Parts == old(Parts) && Wired(old(Value()))
      ensures Value() == P.Service(old(Value()), i)
    {
      hide P.LooksDead, P.CheckHealth, P.RecoverProbe, P.UpdateScheduled, Wired;
      hide ProbeState.SessionValues, ProbeState.CellValues, ProbeState.Valid;
      ValueIsWired();
      KeysAre();
      if !active {
        Recover(i.retryTime, i.setupOk);
        return;
      }
      UpdateScheduled(i.update);

      // On to the next slot
      nextIdx := nextIdx + 1;
      if nextIdx >= |schedule| {
        nextIdx := 0;
      }

      CheckHealth(i.checkTime);
    }

    // ----- adding a session

    method Enroll(core: nat, counters: SharedState, handle: Core)
      requires Valid() && core !in sharedStates
      requires counters !in Parts && handle !in Parts
      modifies `sharedStates, `cores, `Parts
      ensures Valid() && sharedStates == old(sharedStates)[core := counters]
      ensures Parts == old(Parts) + {counters, handle}
      ensures CellValues() == old(CellValues())[core := Cell(counters.Value(), handle.Value())]
      ensures SessionValues() == old(SessionValues())
    {
      hide RttSession.Value, RttSession.Valid, ProbeState.Apart, ProbeState.SessionValues, ProbeState.CellValues;
      hide ProbeState.SessionValid;
      sharedStates := sharedStates[core := counters];
      cores := cores[core := handle];
      Parts := Parts + {counters, handle};
      SessionsEnrolled(core);
      OneCellAdded(core);
    }

    /** A new core does not concern the sessions. */
    twostate lemma SessionsEnrolled(core: nat)
      requires old(Valid()) && CoresValid() && sessions == old(sessions)
      requires this !in Parts && retry !in Parts && check !in Parts
      requires core in cores && core !in old(cores) && cores[core] !in old(Parts) && sharedStates[core] !in old(Parts)
      requires cores == old(cores)[core := cores[core]]
      requires sharedStates == old(sharedStates)[core := sharedStates[core]]
      requires old(Parts) <= Parts
      requires forall o :: o in old(Parts) ==> unchanged(o)
      ensures Valid() && SessionValues() == old(SessionValues())
    {
      hide RttSession.Value, RttSession.Valid, ProbeState.SessionValues, ProbeState.CellValues;
      forall id | id in sessions
        ensures SessionValid(id, sessions[id]) && sessions[id].Value() == old(sessions[id].Value())
      {
        assert old(SessionValid(id, sessions[id]));
      }
      NoSessionChanged();
    }

    /** The counters of a core, created on first use. */
    method SharedStateForCore(core: nat) returns (shared: SharedState)
      requires Valid()
      modifies `sharedStates, `cores, `Parts
      ensures Valid() && fresh(Parts - old(Parts)) && old(Parts) <= Parts
      ensures core in sharedStates && shared == sharedStates[core]
      ensures Value() == Register(old(Value()), core)
    {
      hide RttSession.Value, RttSession.Valid;
      hide ProbeState.SessionValues, ProbeState.CellValues, ProbeState.Valid, ProbeState.CoresValid;
      KeysAre();
      SameKeys();
      if core !in sharedStates {
        var counters := new SharedState();
        var c := new Core(AsFound(found, core));
        Enroll(core, counters, c);
      }
      shared := sharedStates[core];
    }

    lemma SameKeys()
      requires Valid()
      ensures cores.Keys == sharedStates.Keys
    {
    }

    /** The session is filed and may be reached through the map. */
    method File(s: RttSession)
      requires Valid() && s.Valid() && s.id !in sessions
      requires s.target.core in sharedStates && s.shared == sharedStates[s.target.core]
      requires s.Own !! Parts && this !in s.Own && retry !in s.Own && check !in s.Own
      modifies `sessions, `Parts
      ensures Valid() && Parts == old(Parts) + s.Own
      ensures SessionValues() == old(SessionValues())[s.id := s.Value()]
      ensures CellValues() == old(CellValues())
    {
      hide RttSession.Value, RttSession.Valid, ProbeState.SessionValues, ProbeState.CellValues;
      hide ProbeState.Apart, ProbeState.SessionValid;
      CoresStayOut(s);
      sessions := sessions[s.id := s];
      Parts := Parts + s.Own;
      SessionFiled(s);
      OneSessionAdded(s);
      NoCellChanged();
    }

    lemma CoresStayOut(s: RttSession)
      requires CoresValid() && s.Own !! Parts
      ensures cores.Keys == sharedStates.Keys
      ensures forall c :: c in cores ==> cores[c] !in s.Own
      ensures forall c :: c in sharedStates ==> sharedStates[c] !in s.Own
    {
    }

    /** A session with objects of its own fits in with the others. */
    twostate lemma SessionFiled(new s: RttSession)
      requires old(Valid()) && s.Valid() && s.id !in old(sessions) && sessions == old(sessions)[s.id := s]
      requires s.target.core in cores && s.target.core in sharedStates && s.shared == sharedStates[s.target.core]
      requires forall o :: o in old(Parts) ==> unchanged(o)
      requires s.Own !! old(Parts) && Parts == old(Parts) + s.Own
      requires cores == old(cores) && sharedStates == old(sharedStates) && CoresValid()
      requires this !in Parts && retry !in Parts && check !in Parts
      requires forall c :: c in cores ==> cores[c] !in s.Own
      requires forall c :: c in sharedStates ==> sharedStates[c] !in s.Own
      ensures Valid()
      ensures forall id | id in old(sessions) :: sessions[id].Value() == old(sessions[id].Value())
    {
      hide RttSession.Value, RttSession.Valid, ProbeState.CoresValid;
      forall id | id in sessions
        ensures SessionValid(id, sessions[id])
        ensures id in old(sessions) ==> sessions[id].Value() == old(sessions[id].Value())
      {
        if id != s.id {
          assert old(SessionValid(id, sessions[id]));
        }
      }
      assert Apart() by {
        forall id | id in old(sessions)
          ensures old(sessions)[id].Own !! s.Own
        {
          assert old(SessionValid(id, sessions[id]));
        }
      }
    }

    method AddRttSession(s: RttSession)
      requires Valid() && s.Valid() && s.id !in sessions
      requires s.target.core in sharedStates && s.shared == sharedStates[s.target.core]
      requires s.Own !! Parts && this !in s.Own && retry !in s.Own && check !in s.Own
      modifies `sessions, `Parts, `schedule
      ensures Valid() && Parts == old(Parts) + s.Own
      ensures Value() == Add(old(Value()), s.Value())
    {
      hide RttSession.Value, RttSession.Valid;
      hide ProbeState.SessionValues, ProbeState.CellValues, ProbeState.Valid, ProbeState.CoresValid;
      IdIs(s);
      KeysAre();
      File(s);
      schedule := schedule + [s.id];
      assert s.Value() == old(s.Value());
    }

    lemma IdIs(s: RttSession)
      requires s.Valid()
      ensures s.Value().id == s.id
    {
    }

    method ChannelTaken(target: TargetConfig, rtt: RttConfig) returns (taken: bool)
      requires Valid()
      ensures taken == Taken(Value(), target, rtt)
    {
      hide RttSession.Value, RttSession.Valid;
      StatesAre();
      KeysAre();
      hide ProbeState.SessionValues, ProbeState.CellValues, ProbeState.Valid;
      taken := exists other | other in sessions ::
        && sessions[other].target.core == target.core
        && sessions[other].rtt.controlBlock == rtt.controlBlock
        && sessions[other].rtt.upChannel == rtt.upChannel;
    }

    /** The part of `handle_new_session_req` that deals with the probe it found or opened. */
    method Request(id: SessionId, target: TargetConfig, rtt: RttConfig, ioOk: bool, now: Time)
      returns (error: Option<RequestError>)
      requires Valid() && id !in sessions
      modifies this
      ensures Valid() && fresh(Parts - old(Parts)) && old(Parts) <= Parts
      ensures Value() == P.Request(old(Value()), id, target, rtt, ioOk, now)
      ensures error == RequestOutcome(old(Value()), target, rtt, ioOk)
    {
      hide RttSession.Value, RttSession.Valid, Taken, Register, Add, NewSession;
      hide ProbeState.SessionValues, ProbeState.CellValues, ProbeState.Valid, ProbeState.CoresValid;
      KeysAre();
      var taken := ChannelTaken(target, rtt);
      if taken { return Some(AlreadyStarted); }

      var shared := SharedStateForCore(target.core);
      if !active { return Some(ProbeInRecovery); }
      if !ioOk { return Some(RequestIo); }

      var s := new RttSession(id, target, rtt, shared, now);
      AddRttSession(s);
      history := history.(clock := now);
      return None;
    }

    // ----- removing sessions

    method ReleaseParts(id: SessionId, i: StopInput)
      requires Valid() && id in sessions
      modifies Parts
      ensures Valid() && SessionValid(id, sessions[id])
      ensures var l := Released(old(sessions[id].Here(cores[sessions[id].target.core])), active, i);
              && l.s.target == sessions[id].target && l.s == sessions[id].Value()
              && SessionValues() == old(SessionValues())[id := l.s]
              && CellValues() == old(CellValues())[sessions[id].target.core := Cell(l.c, l.hw)]
    {
      hide SessionModel.ShutDown, RttSession.Value, RttSession.Valid;
      var s := sessions[id];
      assert SessionValid(id, s);
      if active {
        s.ShutDown(cores[s.target.core], i);
      } else if HoldsCatch(s.Value()) {
        cores[s.target.core].LeaveVectorCatch();
      }
      forall b | b in sessions && b != id
        ensures sessions[b].Value() == old(sessions[b].Value())
      {
        assert SessionValid(b, sessions[b]);
        assert sessions[b].Own !! s.Own;
      }
      s.ValueKeepsConfig();
      OneSessionChanged(id);
      OneCellChanged(s.target.core);
    }

    /** The session leaves the map; what became of it is recorded. */
    method Forget(id: SessionId)
      requires Valid() && id in sessions
      modifies `sessions, `history
      ensures Valid() && sessions == old(sessions) - {id}
      ensures SessionValues() == old(SessionValues()) - {id}
      ensures history == old(history).(ended := old(history).ended[id := old(sessions[id]).Value()])
    {
      hide RttSession.Value, RttSession.Valid, ProbeState.CoresValid, ProbeState.SessionValues;
      history := history.(ended := history.ended[id := sessions[id].Value()]);
      sessions := sessions - {id};
      OneSessionForgotten(id);
    }

    method Detach(id: SessionId, i: StopInput)
      requires Valid() && id in sessions
      modifies `sessions, `history, Parts
      ensures Valid() && Wired(old(Value()))
      ensures Value() == P.Detach(old(Value()), id, i)
      ensures sessions == old(sessions) - {id}
      ensures old(sessions[id]).Valid()
      ensures old(sessions[id]).Value() == Released(LocalOf(old(Value()), id), active, i).s
    {
      hide Released, Wired, LocalOf, RttSession.Here, RttSession.On, RttSession.Value, RttSession.Valid;
      hide ProbeState.SessionValues, ProbeState.CellValues, ProbeState.Valid, ProbeState.SessionValid;
      hide ProbeState.CoresValid;
      LocalIs(id);
      KeysAre();
      ReleaseParts(id, i);
      ChangedThenForgotten(old(SessionValues()), id, sessions[id].Value());
      Forget(id);
    }

    lemma ChangedThenForgotten(values: map<SessionId, Session>, id: SessionId, s: Session)
      requires id in values
      ensures values[id := s] - {id} == values - {id}
    {
    }

    method ShutdownRttSession(id: SessionId, i: StopInput)
      requires Valid()
      modifies this, Parts
      ensures Valid() && Parts == old(Parts) && Wired(old(Value()))
      ensures Value() == P.Remove(old(Value()), id, i)
      ensures id in old(sessions) ==>
                && old(sessions[id]).Valid()
                && old(sessions[id]).Value() == Released(LocalOf(old(Value()), id), active, i).s
    {
      hide P.Detach, Dropped, Wired, Unscheduled, IndexOf, RttSession.Value, RttSession.Valid;
      hide ProbeState.SessionValues, ProbeState.CellValues, ProbeState.Valid, ProbeState.CoresValid;
      ValueIsWired();
      KeysAre();
      if id in sessions {
        LocalIs(id);
        Detach(id, i);
        Unschedule(id);
      }
    }

    method Unschedule(id: SessionId)
      requires Valid()
      modifies `schedule, `nextIdx, `history
      ensures Valid()
      ensures Value() == Dropped(old(Value()), id)
    {
      hide Unscheduled, IndexOf, RttSession.Value, RttSession.Valid;
      hide ProbeState.SessionValues, ProbeState.CellValues, ProbeState.Valid, ProbeState.CoresValid;
      KeysAre();
      if id in schedule {
        history := history.(
          pending := history.pending - {id},
          resumedCount := if IndexOf(schedule, id) < history.resumedCount
                          then history.resumedCount - 1 else history.resumedCount);
        schedule := Unscheduled(schedule, id);
        nextIdx := 0;
      }
    }

    /** The sessions go in whatever order the map yields them. */
    method ShutdownAllRttSessions(stops: SessionId -> StopInput) returns (ghost order: seq<SessionId>)
      requires Valid()
      modifies `sessions, `history, Parts
      ensures Valid() && Parts == old(Parts) && Wired(old(Value()))
      ensures Distinct(order) && Ids(order) == old(Value()).sessions.Keys
      ensures Value() == DetachAll(old(Value()), order, stops)
      ensures AllEnded(old(Value()), old(Value()).sessions.Keys, Value().history.ended, stops)
    {
      hide P.Detach, DetachAll, AllEnded, Wired, Distinct, RttSession.Value, RttSession.Valid;
      hide ProbeState.SessionValues, ProbeState.CellValues, ProbeState.Valid, ProbeState.CoresValid;
      ValueIsWired();
      KeysAre();
      NothingDetached(Value(), stops);
      order := [];
      while sessions.Keys != {}
        invariant Valid()
        invariant Distinct(order) && Ids(order) <= old(Value()).sessions.Keys
        invariant sessions.Keys == old(Value()).sessions.Keys - Ids(order)
        invariant Value() == DetachAll(old(Value()), order, stops)
        decreases sessions.Keys
      {
        var id :| id in sessions.Keys;
        Detach(id, stops(id));
        OneMoreDetached(old(Value()), order, id, stops);
        order := order + [id];
      }
      forall id | id in old(Value()).sessions.Keys
        ensures id in Ids(order)
      {
        assert id !in Ids(order) ==> id in sessions.Keys;
      }
      DetachAllEnds(old(Value()), order, stops);
    }
  }
}
