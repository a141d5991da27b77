/** The `Manager` of src/manager.rs: the probes in use, each with its own objects. */
module Managers {
  import opened Clock
  import opened SessionModel
  import opened ProbeModel
  import opened ProbeStates
  import opened ManagerModel
  import M = ManagerModel

  class Manager {
    var probes: map<ProbeId, ProbeState>
    ghost var Repr: set<object>

    static ghost function Footprint(p: ProbeState): set<object>
      reads p`Parts
    {
      {p, p.retry, p.check} + p.Parts
    }

    ghost predicate ProbeValid(p: ProbeState)
      reads `Repr, Repr
    {
      p in Repr && Footprint(p) <= Repr && p.Valid()
    }

    ghost predicate Valid()
      reads this, Repr
    {
      && this !in Repr
      && (forall pid :: pid in probes ==> ProbeValid(probes[pid]))
      && Apart()
    }

    ghost predicate Apart()
      reads this, Repr
      requires forall pid :: pid in probes ==> probes[pid] in Repr
    {
      forall a, b :: a in probes && b in probes && a != b ==>
        Footprint(probes[a]) !! Footprint(probes[b])
    }

    ghost function Value(): Probes
      reads this, Repr
      requires Valid()
    {
      map pid | pid in probes :: probes[pid].Value()
    }

    constructor ()
      ensures Valid() && Value() == map[]
    {
      probes := map[];
      Repr := {};
    }

    method ServiceOne(pid: ProbeId, i: ServiceInput)
      requires Valid() && pid in probes
      modifies Repr
      ensures Valid() && probes == old(probes) && Repr == old(Repr)
      ensures Wired(old(probes[pid].Value()))
      ensures probes[pid].Value() == Service(old(probes[pid].Value()), i)
      ensures forall other :: other in probes && other != pid ==>
                probes[other].Value() == old(probes[other].Value())
    {
      hide Service, ProbeState.Valid, ProbeState.Value, Wired;
      var p := probes[pid];
      assert ProbeValid(p);
      p.Service(i);
      forall other | other in probes && other != pid
        ensures ProbeValid(probes[other]) && probes[other].Value() == old(probes[other].Value())
        ensures Footprint(probes[other]) == old(Footprint(probes[other]))
      {
        assert old(ProbeValid(probes[other]));
        assert old(Footprint(probes[other])) !! old(Footprint(p));
      }
    }

    method ServiceProbes(inputs: ProbeId -> ServiceInput)
      requires Valid()
      modifies Repr
      ensures Valid() && AllWired(old(Value()))
      ensures Value() == M.ServiceProbes(old(Value()), inputs)
    {
      hide Service, ProbeState.Valid, ProbeState.Value, Wired, Manager.Valid;
      ProbesAreValid();
      var todo := probes.Keys;
      while todo != {}
        invariant todo <= probes.Keys && Valid() && Repr == old(Repr) && probes == old(probes)
        invariant forall pid :: pid in probes ==> probes[pid].Valid()
        invariant forall pid :: pid in todo ==> probes[pid].Value() == old(probes[pid].Value())
        invariant forall pid :: pid in probes && pid !in todo ==>
                    && Wired(old(probes[pid].Value()))
                    && probes[pid].Value() == Service(old(probes[pid].Value()), inputs(pid))
      {
        var pid :| pid in todo;
        ServiceOne(pid, inputs(pid));
        ProbesAreValid();
        todo := todo - {pid};
      }
    }

    // ----- pruning and ending sessions

    method KeepOnly(keep: set<ProbeId>)
      requires Valid()
      modifies `probes
      ensures Valid() && probes == old(probes) - (old(probes).Keys - keep)
      ensures Value() == map pid | pid in old(Value()) && pid in keep :: old(Value())[pid]
      ensures forall pid :: pid in probes ==> probes[pid].Valid() && probes[pid].Value() == old(probes[pid].Value())
    {
      hide ProbeState.Valid, ProbeState.Value, Manager.Value;
      probes := probes - (probes.Keys - keep);
      forall pid | pid in probes
        ensures probes[pid].Value() == old(probes[pid].Value())
      {
      }
      OnlyKept(keep);
    }

    twostate lemma OnlyKept(keep: set<ProbeId>)
      requires old(Valid()) && Valid() && probes.Keys == old(probes).Keys * keep
      requires forall pid :: pid in probes ==>
                 probes[pid] == old(probes)[pid] && probes[pid].Value() == old(probes[pid].Value())
      ensures Value() == map pid | pid in old(Value()) && pid in keep :: old(Value())[pid]
    {
      hide ProbeState.Valid, ProbeState.Value, Manager.Apart;
    }

    /** Probes without sessions are forgotten. */
    method PruneInactiveProbes()
      requires Valid()
      modifies `probes
      ensures Valid() && Value() == Pruned(old(Value()))
      ensures forall pid :: pid in probes <==> pid in old(probes) && old(probes[pid].sessions.Keys != {})
      ensures forall pid :: pid in probes ==>
                probes[pid] == old(probes[pid]) && probes[pid].Value() == old(probes[pid].Value())
    {
      hide ProbeState.Valid, ProbeState.Value, Manager.Valid, Manager.Value;
      hide Pruned;
      SessionKeysAre();
      ProbesAreValid();
      KeptArePruned();
      var keep := set pid | pid in probes && probes[pid].sessions.Keys != {};
      KeepOnly(keep);
    }

    lemma KeptArePruned()
      requires Valid()
      ensures var keep := set pid | pid in probes && probes[pid].sessions.Keys != {};
              (map pid | pid in Value() && pid in keep :: Value()[pid]) == Pruned(Value())
    {
      hide ProbeState.Valid, ProbeState.Value, Manager.Valid, Manager.Value;
      KeysAre();
      SessionKeysAre();
    }

    lemma KeysAre()
      requires Valid()
      ensures Value().Keys == probes.Keys
    {
    }

    method RemoveFrom(pid: ProbeId, id: SessionId, i: StopInput)
      requires Valid() && pid in probes
      modifies Repr
      ensures Valid() && probes == old(probes) && Repr == old(Repr)
      ensures Wired(old(probes[pid].Value()))
      ensures probes[pid].Value() == Remove(old(probes[pid].Value()), id, i)
      ensures forall other :: other in probes && other != pid ==>
                probes[other].Value() == old(probes[other].Value())
    {
      hide Remove, ProbeState.Valid, ProbeState.Value, Wired;
      var p := probes[pid];
      assert ProbeValid(p);
      p.ShutdownRttSession(id, i);
      forall other | other in probes && other != pid
        ensures ProbeValid(probes[other]) && probes[other].Value() == old(probes[other].Value())
        ensures Footprint(probes[other]) == old(Footprint(probes[other]))
      {
        assert old(ProbeValid(probes[other]));
        assert old(Footprint(probes[other])) !! old(Footprint(p));
      }
    }

    method ShutdownSession(id: SessionId, i: StopInput)
      requires Valid() && IdsApart(Value())
      modifies this, Repr
      ensures Valid() && AllWired(old(Value()))
      ensures Value() == M.ShutdownSession(old(Value()), id, i)
    {
      hide Remove, ProbeState.Valid, ProbeState.Value, Manager.Valid, Wired, Pruned, IdsApart;
      ProbesAreValid();
      SessionKeysAre();
      AllProbesWired();
      if exists pid :: pid in probes && id in probes[pid].sessions {
        var pid :| pid in probes && id in probes[pid].sessions;
        RemoveFrom(pid, id, i);
        OneChanged(pid);
        OnlyHolder(old(Value()), pid, id, i);
      } else {
        NoHolder(old(Value()), id, i);
      }
      PruneInactiveProbes();
    }

    // ----- new sessions

    /** The probe is taken out of the map and all its sessions are shut down. */
    method ThrowOut(pid: ProbeId, stops: SessionId -> StopInput)
      requires Valid()
      modifies this, Repr
      ensures Valid() && Repr <= old(Repr)
      ensures probes == old(probes) - {pid} && Value() == old(Value()) - {pid}
      ensures pid in old(probes) ==>
                && old(probes[pid]).Valid() && Footprint(old(probes[pid])) !! Repr + {this}
                && Emptied(old(probes[pid].Value()), old(probes[pid]).Value(), stops)
      ensures forall other :: other in probes ==> probes[other].Value() == old(probes[other].Value())
    {
      hide ProbeState.Valid, ProbeState.Value, Manager.Value, Emptied;
      KeysAre();
      if pid in probes {
        Take(pid, stops);
      } else {
        assert Value() == Value() - {pid};
      }
    }

    method EmptyProbe(pid: ProbeId, stops: SessionId -> StopInput)
      requires Valid() && pid in probes
      modifies Repr
      ensures Valid() && probes == old(probes) && Repr == old(Repr)
      ensures Emptied(old(probes[pid].Value()), probes[pid].Value(), stops)
      ensures forall other :: other in probes && other != pid ==>
                probes[other].Value() == old(probes[other].Value())
    {
      hide ProbeState.Valid, ProbeState.Value, DetachAll, AllEnded, Wired, Distinct, Ids;
      var p := probes[pid];
      assert ProbeValid(p);
      ghost var _ := p.ShutdownAllRttSessions(stops);
      forall other | other in probes && other != pid
        ensures ProbeValid(probes[other]) && probes[other].Value() == old(probes[other].Value())
        ensures Footprint(probes[other]) == old(Footprint(probes[other]))
      {
        assert old(ProbeValid(probes[other]));
        assert old(Footprint(probes[other])) !! old(Footprint(p));
      }
    }

    method Take(pid: ProbeId, stops: SessionId -> StopInput)
      requires Valid() && pid in probes
      modifies `probes, `Repr, Repr
      ensures Valid() && Repr <= old(Repr)
      ensures probes == old(probes) - {pid} && Value() == old(Value()) - {pid}
      ensures old(probes[pid]).Valid() && Footprint(old(probes[pid])) !! Repr + {this}
      ensures Emptied(old(probes[pid].Value()), old(probes[pid]).Value(), stops)
      ensures forall other :: other in probes ==> probes[other].Value() == old(probes[other].Value())
    {
      hide ProbeState.Valid, ProbeState.Value, Manager.Valid, Manager.Value, Emptied;
      ProbesAreValid();
      KeysAre();
      EmptyProbe(pid, stops);
      OneChanged(pid);
      AllBut(Value(), old(Value()), pid);
      Drop(pid);
    }

    /** The probe and its objects no longer belong to the manager. */
    method Drop(pid: ProbeId)
      requires Valid() && pid in probes
      modifies `probes, `Repr
      ensures Valid() && probes == old(probes) - {pid} && Repr == old(Repr) - Footprint(old(probes[pid]))
      ensures Footprint(old(probes[pid])) !! Repr + {this} && old(probes[pid]).Valid()
      ensures Value() == map other | other in old(Value()) && other in old(probes).Keys - {pid} :: old(Value())[other]
      ensures forall other :: other in probes ==> probes[other].Value() == old(probes[other].Value())
    {
      hide ProbeState.Valid, ProbeState.Value, Manager.Valid, Manager.Value, Manager.Apart;
      ghost var p := probes[pid];
      ProbesAreValid();
      ApartFrom(pid);
      KeepOnly(probes.Keys - {pid});
      ShrinkRepr(p);
    }

    lemma ApartFrom(pid: ProbeId)
      requires Valid() && pid in probes
      ensures Footprint(probes[pid]) <= Repr && this !in Repr
      ensures forall other :: other in probes && other != pid ==> Footprint(probes[other]) !! Footprint(probes[pid])
    {
      hide ProbeState.Valid;
      assert ProbeValid(probes[pid]);
    }

    /** A probe that is not filed any more is left out of the footprint. */
    ghost method ShrinkRepr(p: ProbeState)
      requires Valid() && forall pid :: pid in probes ==> Footprint(probes[pid]) !! Footprint(p)
      modifies `Repr
      ensures Valid() && Repr == old(Repr) - Footprint(p) && Value() == old(Value())
      ensures forall pid :: pid in probes ==> probes[pid].Valid() && probes[pid].Value() == old(probes[pid].Value())
    {
      hide ProbeState.Valid, ProbeState.Value;
      Repr := Repr - Footprint(p);
      forall pid | pid in probes
        ensures ProbeValid(probes[pid]) && probes[pid].Value() == old(probes[pid].Value())
      {
        assert old(ProbeValid(probes[pid]));
      }
    }

    lemma AllBut(m: Probes, before: Probes, pid: ProbeId)
      requires pid in before && pid in m && m == before[pid := m[pid]]
      ensures (map other | other in m && other in before.Keys - {pid} :: m[other]) == before - {pid}
    {
    }

    /** A new probe is filed under an id that is not in use. */
    method File(pid: ProbeId, p: ProbeState)
      requires Valid() && pid !in probes && p.Valid() && Footprint(p) !! Repr + {this}
      modifies `probes, `Repr
      ensures Valid() && probes == old(probes)[pid := p] && Repr == old(Repr) + Footprint(p)
      ensures Value() == old(Value())[pid := p.Value()]
    {
      hide ProbeState.Valid, ProbeState.Value, Manager.Value;
      probes := probes[pid := p];
      Repr := Repr + Footprint(p);
      forall other | other in old(probes)
        ensures probes[other].Value() == old(probes[other].Value())
      {
        assert old(ProbeValid(probes[other]));
      }
      OneFiled(pid);
    }

    twostate lemma OneFiled(pid: ProbeId)
      requires old(Valid()) && Valid() && pid in probes && probes == old(probes)[pid := probes[pid]]
      requires pid !in old(probes)
      requires forall other :: other in old(probes) ==> probes[other].Value() == old(probes[other].Value())
      ensures Value() == old(Value())[pid := probes[pid].Value()]
    {
      hide ProbeState.Valid, ProbeState.Value, Manager.Apart;
    }

    method OpenProbe(pid: ProbeId, now: Time, found: map<nat, CoreState>)
      requires Valid() && pid !in probes
      modifies `probes, `Repr
      ensures Valid() && pid in probes && fresh(Repr - old(Repr)) && old(Repr) <= Repr
      ensures Value() == old(Value())[pid := NewProbe(now, found)]
    {
      hide ProbeState.Valid, ProbeState.Value, Manager.Value, Manager.Apart, NewProbe;
      var p := new ProbeState(now, found);
      File(pid, p);
    }

    method RequestParts(pid: ProbeId, r: SessionRequest) returns (error: Option<RequestError>)
      requires Valid() && pid in probes && r.id !in probes[pid].sessions
      modifies this, Repr
      ensures Valid() && probes == old(probes)
      ensures error == RequestOutcome(old(probes[pid].Value()), r.target, r.rtt, r.ioOk)
      ensures probes[pid].Value() == Request(old(probes[pid].Value()), r.id, r.target, r.rtt, r.ioOk, r.now)
      ensures forall other :: other in probes && other != pid ==>
                probes[other].Value() == old(probes[other].Value())
    {
      hide ProbeState.Valid, ProbeState.Value, Request, RequestOutcome;
      var p := probes[pid];
      assert ProbeValid(p);
      error := p.Request(r.id, r.target, r.rtt, r.ioOk, r.now);
      Repr := Repr + Footprint(p);
      forall other | other in probes && other != pid
        ensures ProbeValid(probes[other]) && probes[other].Value() == old(probes[other].Value())
        ensures Footprint(probes[other]) == old(Footprint(probes[other]))
      {
        assert old(ProbeValid(probes[other]));
        assert old(Footprint(probes[other])) !! old(Footprint(p));
      }
    }

    method RequestOn(pid: ProbeId, r: SessionRequest) returns (error: Option<RequestError>)
      requires Valid() && pid in probes && FreshId(Value(), r.id)
      modifies this, Repr
      ensures Valid()
      ensures error == RequestOutcome(old(Value())[pid], r.target, r.rtt, r.ioOk)
      ensures Value() == old(Value())[pid := Request(old(Value())[pid], r.id, r.target, r.rtt, r.ioOk, r.now)]
    {
      hide ProbeState.Valid, ProbeState.Value, Manager.Valid, Manager.Value, Request, RequestOutcome;
      ProbesAreValid();
      KeysAre();
      SessionKeysAre();
      error := RequestParts(pid, r);
      OneChanged(pid);
    }

    method HandleNewSessionReq(r: SessionRequest, stops: SessionId -> StopInput)
      returns (error: Option<RequestError>)
      requires Valid() && FreshId(Value(), r.id)
      modifies this, Repr
      ensures Valid()
      ensures error == RequestResult(old(Value()), r)
      ensures Value() == HandleRequest(old(Value()), r)
      // The sessions an exclusive request finds in its way are shut down
      ensures forall pid |
                r.forceExclusive && r.found == Some(pid)
                && pid in old(probes) && old(probes[pid].sessions.Keys != {}) ::
                && old(probes[pid]).Valid()
                && Emptied(old(probes[pid].Value()), old(probes[pid]).Value(), stops)
    {
      hide ProbeState.Valid, ProbeState.Value, Manager.Valid, Manager.Value, Request, RequestOutcome, NewProbe;
      hide Pruned, Emptied;
      PrunedIsFresh(Value(), r.id);
      PruneInactiveProbes();
      if r.found.None? { return Some(ProbeNotUsable); }
      var pid := r.found.value;

      if r.forceExclusive {
        ThrowOut(pid, stops);
      }

      error := Serve(pid, r);
    }

    /** The part of a request after room was made for it. */
    method Serve(pid: ProbeId, r: SessionRequest) returns (error: Option<RequestError>)
      requires Valid() && FreshId(Value(), r.id)
      modifies this, Repr
      ensures Valid()
      ensures var m := old(Value());
              if CannotOpen(m, pid, r) then error == Some(ProbeNotUsable) && Value() == m
              else
                var p := ProbeFor(m, pid, r);
                && error == RequestOutcome(p, r.target, r.rtt, r.ioOk)
                && Value() == m[pid := Request(p, r.id, r.target, r.rtt, r.ioOk, r.now)]
    {
      hide ProbeState.Valid, ProbeState.Value, Manager.Valid, Manager.Value, Request, RequestOutcome, NewProbe;
      // A probe not in use yet is opened first
      KeysAre();
      if pid !in probes {
        if !r.setupOk { return Some(ProbeNotUsable); }
        OpenProbe(pid, r.now, r.coresFound);
        NewProbeIsEmpty(r.now, r.coresFound);
      }
      error := RequestOn(pid, r);
    }

    lemma NewProbeIsEmpty(now: Time, found: map<nat, CoreState>)
      ensures NewProbe(now, found).sessions == map[]
    {
    }

    /** One probe more is thrown out; those thrown out before are left alone. */
    method ThrowOutNext(pid: ProbeId, stops: SessionId -> StopInput, ghost gone: set<ProbeState>)
      requires Valid() && pid in probes
      requires forall p :: p in gone ==> p.Valid() && Footprint(p) !! Repr + {this}
      modifies this, Repr
      ensures Valid() && this !in Repr && Repr <= old(Repr) && probes == old(probes) - {pid}
      ensures forall other :: other in probes ==>
                probes[other].Valid() && probes[other].Value() == old(probes[other].Value())
      ensures old(probes[pid]).Valid() && Footprint(old(probes[pid])) !! Repr + {this}
      ensures Emptied(old(probes[pid].Value()), old(probes[pid]).Value(), stops)
      ensures forall p :: p in gone ==>
                p.Valid() && Footprint(p) !! Repr + {this} && p.Value() == old(p.Value())
    {
      hide ProbeState.Valid, ProbeState.Value, Manager.Valid, Manager.Value, Emptied;
      ProbesAreValid();
      ThrowOut(pid, stops);
      ProbesAreValid();
    }

    /** Everything is shut down, probe by probe. */
    method Shutdown(stops: SessionId -> StopInput)
      requires Valid()
      modifies this, Repr
      ensures Valid() && Value() == map[]
      ensures forall pid :: pid in old(probes) ==>
                && old(probes[pid]).Valid()
                && Emptied(old(probes[pid].Value()), old(probes[pid]).Value(), stops)
    {
      hide ProbeState.Valid, ProbeState.Value, Manager.Valid, Manager.Value, Manager.Footprint, Emptied;
      ProbesAreValid();
      ghost var all: map<ProbeId, ProbeState>, gone: set<ProbeState> := probes, {};
      while probes.Keys != {}
        invariant Valid() && Repr <= old(Repr)
        invariant forall p :: p in gone ==> p.Valid() && Footprint(p) !! Repr + {this}
        invariant forall pid :: pid in probes ==>
                    && pid in all && probes[pid] == all[pid]
                    && all[pid].Valid() && all[pid].Value() == old(all[pid].Value())
        invariant forall pid :: pid in all && pid !in probes ==>
                    all[pid] in gone && Emptied(old(all[pid].Value()), all[pid].Value(), stops)
        decreases probes.Keys
      {
        var pid :| pid in probes;
        ThrowOutNext(pid, stops, gone);
        gone := gone + {all[pid]};
      }
      KeysAre();
    }

    twostate lemma OneChanged(pid: ProbeId)
      requires old(Valid()) && Valid() && probes == old(probes) && pid in probes
      requires forall other :: other in probes && other != pid ==>
                 probes[other].Value() == old(probes[other].Value())
      ensures Value() == old(Value())[pid := probes[pid].Value()]
    {
      hide ProbeState.Valid, ProbeState.Value, Manager.Apart;
    }

    lemma AllProbesWired()
      requires Valid()
      ensures AllWired(Value())
    {
      hide ProbeState.Valid, ProbeState.Value, Wired;
      forall pid | pid in probes
        ensures Wired(probes[pid].Value())
      {
        assert ProbeValid(probes[pid]);
        probes[pid].ValueIsWired();
      }
    }

    lemma SessionKeysAre()
      requires Valid()
      ensures forall pid :: pid in probes ==>
                Value()[pid] == probes[pid].Value() && Value()[pid].sessions.Keys == probes[pid].sessions.Keys
    {
      hide ProbeState.Valid;
      forall pid | pid in probes
        ensures probes[pid].Value().sessions.Keys == probes[pid].sessions.Keys
      {
        assert ProbeValid(probes[pid]);
        probes[pid].KeysAre();
      }
    }

    lemma ProbesAreValid()
      requires Valid()
      ensures this !in Repr && forall pid :: pid in probes ==> probes[pid].Valid()
    {
      hide ProbeState.Valid;
    }
  }
}
