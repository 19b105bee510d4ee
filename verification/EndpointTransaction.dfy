/** Prepare, commit, roll back and finalize a change of the whole peer set. */
module EndpointTransaction {
  import opened Wrappers
  import opened FecLeases
  import opened CoreInstance
  import opened EndpointProtocol
  import opened EndpointPlane
  import opened EndpointTransition
  import opened EndpointSupervisor

  class PreparedPeerSet {
    const supervisor: Supervisor
    const tx: Transaction

    constructor (supervisor: Supervisor, tx: Transaction)
      ensures this.supervisor == supervisor && this.tx == tx
    {
      this.supervisor, this.tx := supervisor, tx;
    }

    ghost function Before(k: PublicKey): Option<PeerState>
      reads supervisor, supervisor.open
    {
      Lookup(supervisor.Book().before, k)
    }

    ghost function After(k: PublicKey): Option<PeerState>
      reads supervisor, supervisor.open
    {
      Lookup(supervisor.Book().after, k)
    }

    /** The transaction is open, and all is well with every other peer. */
    ghost predicate Apart(k: PublicKey)
      reads supervisor, supervisor.open, supervisor.plane, supervisor.plane.core, tx
    {
      supervisor.Sound({}, {k}) && supervisor.open == tx && k in tx.transitions
    }

    /** ... and with k. */
    ghost predicate Whole(k: PublicKey)
      reads supervisor, supervisor.open, supervisor.plane, supervisor.plane.core, tx
    {
      && Apart(k)
      && Moving(supervisor.plane.Routes(), supervisor.plane.leases, k, tx.transitions[k], Before(k), After(k), tx.stage)
    }

    lemma Extract(k: PublicKey)
      requires supervisor.Valid() && supervisor.open == tx && k in tx.transitions
      ensures Whole(k)
    {
      hide Good, Plane.Valid, Plane.Routes, Supervisor.Shape, Moving, Views;
      TakeOut(supervisor.plane.Routes(), supervisor.plane.leases, supervisor.plane.guarded, supervisor.Book(), k);
    }

    lemma Insert(k: PublicKey)
      requires Whole(k)
      ensures supervisor.Valid()
    {
      hide Good, Plane.Valid, Plane.Routes, Supervisor.Shape, Moving, Views;
      PutBack(supervisor.plane.Routes(), supervisor.plane.leases, supervisor.plane.guarded, supervisor.Book(), k);
    }

    method SetTransition(k: PublicKey, t: Transition)
      requires Apart(k)
      modifies tx`transitions
      ensures Apart(k) && tx.transitions == old(tx.transitions)[k := t] && Before(k) == old(Before(k))
                && After(k) == old(After(k))
      ensures Spares(k, supervisor.plane.Routes(), old(supervisor.Book()), supervisor.plane.Routes(), supervisor.Book())
    {
      hide Good, Plane.Valid, Plane.Routes, Lists, Keyed, Views, SharedOutside;
      ghost var s0 := supervisor.Book();
      tx.transitions := tx.transitions[k := t];
      assert tx.transitions.Keys == old(tx.transitions.Keys);
      SameBooks(k, supervisor.plane.Routes(), supervisor.plane.leases, s0, supervisor.Book(), supervisor.plane.guarded);
    }

    method SetBefore(k: PublicKey, v: PeerState)
      requires Apart(k) && k in tx.before && v.key == k
      modifies supervisor`store
      ensures Apart(k) && Before(k) == Some(v) && After(k) == old(After(k))
      ensures Spares(k, supervisor.plane.Routes(), old(supervisor.Book()), supervisor.plane.Routes(), supervisor.Book())
    {
      hide Good, Plane.Valid, Plane.Routes, Lists, Keyed, Views, SharedOutside, Others, Spares, SameBut;
      ghost var s0, store := supervisor.Book(), supervisor.store;
      ghost var next, ks := store[tx.before[k] := v], tx.transitions.Keys;
      WriteViews(store, tx.before, k, v, supervisor.peers, supervisor.peers.Keys);
      WriteViews(store, tx.before, k, v, tx.before, ks);
      WriteViews(store, tx.before, k, v, tx.after, ks);
      OtherBooks(k, supervisor.plane.Routes(), s0, Views(next, supervisor.peers, supervisor.peers.Keys),
          Views(next, tx.before, ks), Views(next, tx.after, ks));
      supervisor.store := supervisor.store[tx.before[k] := v];
      SameBooks(k, supervisor.plane.Routes(), supervisor.plane.leases, s0, supervisor.Book(), supervisor.plane.guarded);
    }

    method SetAfter(k: PublicKey, v: PeerState)
      requires Apart(k) && k in tx.after && v.key == k
      modifies supervisor`store
      ensures Apart(k) && After(k) == Some(v) && Before(k) == old(Before(k))
      ensures Spares(k, supervisor.plane.Routes(), old(supervisor.Book()), supervisor.plane.Routes(), supervisor.Book())
    {
      hide Good, Plane.Valid, Plane.Routes, Lists, Keyed, Views, SharedOutside, Others, Spares, SameBut;
      ghost var s0, store := supervisor.Book(), supervisor.store;
      ghost var next, ks := store[tx.after[k] := v], tx.transitions.Keys;
      WriteViews(store, tx.after, k, v, supervisor.peers, supervisor.peers.Keys);
      WriteViews(store, tx.after, k, v, tx.before, ks);
      WriteViews(store, tx.after, k, v, tx.after, ks);
      OtherBooks(k, supervisor.plane.Routes(), s0, Views(next, supervisor.peers, supervisor.peers.Keys),
          Views(next, tx.before, ks), Views(next, tx.after, ks));
      supervisor.store := supervisor.store[tx.after[k] := v];
      SameBooks(k, supervisor.plane.Routes(), supervisor.plane.leases, s0, supervisor.Book(), supervisor.plane.guarded);
    }

    // ---------- single steps on one peer ----------

    /** One more candidate, with a route to it. */
    method AcquireCandidate(k: PublicKey, e: Endpoint) returns (ok: bool)
      requires Whole(k) && tx.stage == Open && !tx.transitions[k].installed
      modifies tx`transitions, supervisor.plane`held, supervisor.plane`nextLease, supervisor.plane`leases,
                 supervisor.plane`trace
      ensures Whole(k) && old(supervisor.plane.trace) <= supervisor.plane.trace
      ensures Spares(k, supervisor.plane.Routes(), old(supervisor.Book()), supervisor.plane.Routes(), supervisor.Book())
      ensures Before(k) == old(Before(k)) && After(k) == old(After(k))
      ensures !ok ==> tx.transitions[k] == old(tx.transitions)[k]
      ensures ok ==> exists l :: tx.transitions[k] == old(tx.transitions)[k].(
                                   candidates := old(tx.transitions)[k].candidates + [CandidateRoute(e, Some(l))])
    {
      hide Good, Plane.Valid, Plane.Routes, Supervisor.Shape, Roster, Moving, Spares;
      var t := tx.transitions[k];
      ghost var plane, s, ls := supervisor.plane, supervisor.Book(), supervisor.plane.leases;
      SparesSelf(k, plane.Routes(), s);
      KnownGeneration(k);
      var acquired := supervisor.plane.AcquireEndpointRoute(e.addr, Candidate(k, |t.candidates|));
      if acquired.None? {
        return false;
      }
      var l := acquired.value;
      LeaseAdded(k, plane.Routes(), ls, s, plane.guarded, l, Tag(e.addr, Candidate(k, |t.candidates|)));
      CandidateAcquired(plane.Routes(), ls, k, t, Before(k), After(k), l, e);
      SetTransition(k, t.(candidates := t.candidates + [CandidateRoute(e, Some(l))]));
      ok := true;
    }

    /** Moves the core to candidate i. */
    method InstallCandidate(k: PublicKey, i: nat) returns (ok: bool)
      requires Whole(k) && tx.stage == Open && !tx.transitions[k].restored && !tx.transitions[k].coreFinalized
      requires i < |tx.transitions[k].candidates| && tx.transitions[k].candidates[i].lease.Some?
      modifies tx`transitions, supervisor.plane`trace, supervisor.plane.core
      ensures Whole(k) && old(supervisor.plane.trace) <= supervisor.plane.trace
      ensures Spares(k, old(supervisor.plane.Routes()), old(supervisor.Book()), supervisor.plane.Routes(),
                supervisor.Book())
      ensures Before(k) == old(Before(k)) && After(k) == old(After(k))
      ensures var t := old(tx.transitions)[k];
              tx.transitions[k] == if ok then t.(installed := true, currentGeneration := t.currentGeneration + 1) else t
      ensures ok ==>
                && k in supervisor.plane.Routes()
                && supervisor.plane.Routes()[k].selected == Some(tx.transitions[k].candidates[i].endpoint)
    {
      hide Good, Plane.Valid, Plane.Routes, Supervisor.Shape, Roster, Moving, Spares, CoverAll, Covered;
      var t := tx.transitions[k];
      ghost var plane, s, routes := supervisor.plane, supervisor.Book(), supervisor.plane.Routes();
      SparesSelf(k, routes, s);
      KnownGeneration(k);
      if k in routes {
        CandidateInstalled(routes, plane.leases, k, t, Before(k), After(k), i);
      } else {
        CandidateCovers(plane.leases, k, t.candidates[i].lease.value, t.candidates[i].endpoint);
      }
      ok := supervisor.plane.SetPeerEndpoint(k, t.candidates[i].endpoint, t.currentGeneration + 1);
      if ok {
        plane.CoverNow();
        CoreStep(routes, plane.leases, plane.guarded, s, k, plane.Routes());
        SparesCore(k, routes, s, plane.Routes());
        SetTransition(k, t.(installed := true, currentGeneration := t.currentGeneration + 1));
        SparesTwice(k, routes, s, plane.Routes(), s, plane.Routes(), supervisor.Book());
      }
    }

    lemma KnownGeneration(k: PublicKey)
      requires Whole(k) && tx.stage != Finalizing
      ensures k in supervisor.plane.Routes() ==>
                supervisor.plane.Routes()[k].generation == tx.transitions[k].currentGeneration
      ensures k in supervisor.Book().transitions
                && (tx.transitions[k].coreFinalized || tx.transitions[k].restored ==> tx.transitions[k].installed)
      ensures OwnLeases(supervisor.plane.leases, k, OrBlank(Before(k)).lease, tx.transitions[k].candidates)
    {
      hide Good, Plane.Valid, Plane.Routes, Supervisor.Shape, OwnLeases, Leased, FirmlyCovers, CoversUses;
    }

    lemma States(k: PublicKey)
      requires Apart(k)
      ensures if k in tx.before then tx.before[k] in supervisor.store
                && Before(k) == Some(supervisor.store[tx.before[k]]) && supervisor.store[tx.before[k]].key == k
              else Before(k) == None
      ensures if k in tx.after then tx.after[k] in supervisor.store && After(k) == Some(supervisor.store[tx.after[k]])
                && supervisor.store[tx.after[k]].key == k
              else After(k) == None
    {
    }

    /** Takes the endpoint of an existing peer away. */
    method ClearEndpoint(k: PublicKey) returns (ok: bool)
      requires Whole(k) && tx.stage == Open && !tx.transitions[k].restored && !tx.transitions[k].coreFinalized
      modifies tx`transitions, supervisor.plane`trace, supervisor.plane.core
      ensures Whole(k)
      ensures old(supervisor.plane.trace) <= supervisor.plane.trace
      ensures Spares(k, old(supervisor.plane.Routes()), old(supervisor.Book()), supervisor.plane.Routes(),
                supervisor.Book())
      ensures Before(k) == old(Before(k)) && After(k) == old(After(k))
      ensures var t := old(tx.transitions)[k];
              tx.transitions[k] == if ok then t.(installed := true, currentGeneration := t.currentGeneration + 1) else t
      ensures ok ==> k in supervisor.plane.Routes() && supervisor.plane.Routes()[k].selected == None
                     && supervisor.plane.Routes()[k].generation == tx.transitions[k].currentGeneration
    {
      hide Good, Plane.Valid, Plane.Routes, Supervisor.Shape, Roster, Moving, Spares, CoverAll, Covered;
      var t := tx.transitions[k];
      ghost var plane, s, routes := supervisor.plane, supervisor.Book(), supervisor.plane.Routes();
      SparesSelf(k, routes, s);
      KnownGeneration(k);
      if k in routes {
        EndpointCleared(routes, plane.leases, k, t, Before(k), After(k));
      }
      ok := supervisor.plane.ClearPeerEndpoint(k, t.currentGeneration + 1);
      if ok {
        plane.CoverNow();
        CoreStep(routes, plane.leases, plane.guarded, s, k, plane.Routes());
        SparesCore(k, routes, s, plane.Routes());
        SetTransition(k, t.(installed := true, currentGeneration := t.currentGeneration + 1));
        SparesTwice(k, routes, s, plane.Routes(), s, plane.Routes(), supervisor.Book());
      }
    }

    /** Moves the core back to the endpoint k had, under a fresh generation. */
    method RestoreBefore(k: PublicKey) returns (ok: bool)
      requires Whole(k) && tx.stage == Open && tx.transitions[k].installed && !tx.transitions[k].coreFinalized
      modifies tx`transitions, supervisor`store, supervisor.plane`trace, supervisor.plane.core
      ensures Whole(k)
      ensures old(supervisor.plane.trace) <= supervisor.plane.trace
      ensures Spares(k, old(supervisor.plane.Routes()), old(supervisor.Book()), supervisor.plane.Routes(),
                supervisor.Book())
      ensures After(k) == old(After(k))
      ensures !ok ==> tx.transitions[k] == old(tx.transitions)[k] && Before(k) == old(Before(k))
      ensures ok ==> var t := old(tx.transitions)[k];
                     && tx.transitions[k] == t.(currentGeneration := t.currentGeneration + 1)
                     && Before(k) == AtGeneration(old(Before(k)), t.currentGeneration + 1)
                        && Unmoved(t.origin, true, Before(k))
                     && k in supervisor.plane.Routes()
                        && supervisor.plane.Routes()[k].selected == OrBlank(Before(k)).active
    {
      hide Good, Plane.Valid, Plane.Routes, Supervisor.Shape, Roster, Moving, Spares, CoverAll, Covered, OwnLeases,
          Unmoved;
      States(k);
      KnownGeneration(k);
      ghost var plane, s, routes := supervisor.plane, supervisor.Book(), supervisor.plane.Routes();
      SparesSelf(k, routes, s);
      var t := tx.transitions[k];
      var generation := t.currentGeneration + 1;
      if k in routes {
        BeforeRestored(routes, plane.leases, k, t, Before(k), After(k), t.restored);
      }
      ok := MoveBack(k, generation);
      if ok {
        SetTransition(k, t.(currentGeneration := generation));
        SparesTwice(k, routes, s, plane.Routes(), s, plane.Routes(), supervisor.Book());
        if k in tx.before {
          ghost var s1 := supervisor.Book();
          SetBefore(k, supervisor.store[tx.before[k]].(generation := generation));
          SparesTwice(k, routes, s, plane.Routes(), s1, plane.Routes(), supervisor.Book());
        }
      }
    }

    /** Selects k's old endpoint in the core again, or none if it had none. */
    method MoveBack(k: PublicKey, generation: nat) returns (ok: bool)
      requires Whole(k) && tx.stage == Open && generation == tx.transitions[k].currentGeneration + 1
      modifies supervisor.plane`trace, supervisor.plane.core
      ensures Apart(k)
      ensures old(supervisor.plane.trace) <= supervisor.plane.trace
      ensures Spares(k, old(supervisor.plane.Routes()), old(supervisor.Book()), supervisor.plane.Routes(),
                supervisor.Book())
      ensures !ok ==> supervisor.plane.Routes() == old(supervisor.plane.Routes())
      ensures ok ==> var r, b := old(supervisor.plane.Routes()), OrBlank(Before(k));
                     && k in r
                     && supervisor.plane.Routes() ==
                        r[k := Route(b.active, generation, r[k].uses + if b.active.Some? then {b.active.value} else {})]
    {
      hide Good, Plane.Valid, Plane.Routes, Supervisor.Shape, Roster, Moving, Spares, CoverAll, Covered;
      States(k);
      KnownGeneration(k);
      ghost var plane, s, routes, ls := supervisor.plane, supervisor.Book(), supervisor.plane.Routes(),
          supervisor.plane.leases;
      SparesSelf(k, routes, s);
      if k in tx.before && supervisor.store[tx.before[k]].active.Some? {
        BeforeCovers(routes, ls, k, tx.transitions[k], Before(k), After(k));
        ok := supervisor.plane.SetPeerEndpoint(k, supervisor.store[tx.before[k]].active.value, generation);
      } else {
        ok := supervisor.plane.ClearPeerEndpoint(k, generation);
        if ok {
          assert routes[k].uses + {} == routes[k].uses;
        }
      }
      if ok {
        plane.CoverNow();
        CoreStep(routes, ls, plane.guarded, s, k, plane.Routes());
        SparesCore(k, routes, s, plane.Routes());
      }
    }

    /** Lets the core drop everything but the selected endpoint. */
    method FinalizeCore(k: PublicKey) returns (ok: bool)
      requires Whole(k) && tx.transitions[k].installed
      modifies supervisor.plane`trace, supervisor.plane.core
      ensures Whole(k)
      ensures old(supervisor.plane.trace) <= supervisor.plane.trace
      ensures Spares(k, old(supervisor.plane.Routes()), old(supervisor.Book()), supervisor.plane.Routes(),
                supervisor.Book())
      ensures ok ==>
                && k in supervisor.plane.Routes()
                && supervisor.plane.Routes()[k].uses == SelectedSet(supervisor.plane.Routes()[k])
      ensures k in old(supervisor.plane.Routes()) ==>
                && k in supervisor.plane.Routes()
                && supervisor.plane.Routes()[k].selected == old(supervisor.plane.Routes())[k].selected
    {
      hide Good, Plane.Valid, Plane.Routes, Supervisor.Shape, Roster, Moving, Spares, CoverAll, Covered;
      ghost var plane, s, routes := supervisor.plane, supervisor.Book(), supervisor.plane.Routes();
      var t := tx.transitions[k];
      SparesSelf(k, routes, s);
      ok := supervisor.plane.FinalizePeerEndpoint(k, t.currentGeneration);
      if ok {
        CoreFinalized(routes, plane.leases, k, t, Before(k), After(k), tx.stage, t.coreFinalized);
        plane.CoverNow();
        CoreStep(routes, plane.leases, plane.guarded, s, k, plane.Routes());
        SparesCore(k, routes, s, plane.Routes());
      }
    }

    /** Gives back the route of a candidate nothing uses. */
    method ReleaseCandidate(k: PublicKey, i: nat) returns (ok: bool)
      requires Whole(k) && tx.stage == Open && Home(supervisor.plane.Routes(), k, tx.transitions[k], Before(k))
      requires i < |tx.transitions[k].candidates| && tx.transitions[k].candidates[i].lease.Some?
      modifies tx`transitions, supervisor.plane`held, supervisor.plane`leases, supervisor.plane`trace
      ensures Whole(k)
      ensures old(supervisor.plane.trace) <= supervisor.plane.trace
      ensures Spares(k, old(supervisor.plane.Routes()), old(supervisor.Book()), supervisor.plane.Routes(),
                supervisor.Book())
      ensures Before(k) == old(Before(k)) && After(k) == old(After(k))
      ensures tx.transitions[k] == if ok then Drop(old(tx.transitions)[k], i) else old(tx.transitions)[k]
      ensures ok && k in supervisor.plane.Routes() ==>
                FirmlyCovers(supervisor.plane.leases, k, supervisor.plane.Routes()[k].uses)
    {
      hide Good, Plane.Valid, Plane.Routes, Supervisor.Shape, Roster, Moving, Spares, CoverAll, Covered;
      var t := tx.transitions[k];
      var l := t.candidates[i].lease.value;
      ghost var plane, s, routes, ls := supervisor.plane, supervisor.Book(), supervisor.plane.Routes(),
          supervisor.plane.leases;
      SparesSelf(k, routes, s);
      KnownGeneration(k);
      CandidateReleased(routes, ls, k, t, Before(k), After(k), i);
      LeaseDropped(k, routes, ls, s, plane.guarded, l);
      ok := supervisor.plane.ReleaseLease(l);
      if ok {
        SetTransition(k, Drop(t, i));
      }
    }

    /** While finalizing: the lease of an unchosen candidate. */
    method ReleaseSpare(k: PublicKey, i: nat) returns (ok: bool)
      requires Whole(k) && tx.stage == Finalizing && (tx.transitions[k].installed ==> tx.transitions[k].coreFinalized)
      requires i < |tx.transitions[k].candidates| && tx.transitions[k].candidates[i].lease.Some?
      requires tx.transitions[k].activeCandidate != Some(i)
      modifies tx`transitions, supervisor.plane`held, supervisor.plane`leases, supervisor.plane`trace
      ensures Whole(k)
      ensures old(supervisor.plane.trace) <= supervisor.plane.trace
      ensures Spares(k, old(supervisor.plane.Routes()), old(supervisor.Book()), supervisor.plane.Routes(),
                supervisor.Book())
      ensures Before(k) == old(Before(k)) && After(k) == old(After(k))
      ensures tx.transitions[k] == if ok then Drop(old(tx.transitions)[k], i) else old(tx.transitions)[k]
    {
      hide Good, Plane.Valid, Plane.Routes, Supervisor.Shape, Roster, Moving, Spares, CoverAll, Covered;
      var t := tx.transitions[k];
      var l := t.candidates[i].lease.value;
      ghost var plane, s, routes, ls := supervisor.plane, supervisor.Book(), supervisor.plane.Routes(),
          supervisor.plane.leases;
      SparesSelf(k, routes, s);
      FinalizingFacts(k);
      SpareReleased(routes, ls, k, t, Before(k), After(k), i);
      LeaseDropped(k, routes, ls, s, plane.guarded, l);
      ok := supervisor.plane.ReleaseLease(l);
      if ok {
        SetTransition(k, Drop(t, i));
      }
    }

    /** While finalizing: the lease of the endpoint k had before. */
    method ReleaseOld(k: PublicKey) returns (ok: bool)
      requires Whole(k) && tx.stage == Finalizing && (tx.transitions[k].installed ==> tx.transitions[k].coreFinalized)
      requires Before(k).Some? && Before(k).value.lease.Some? && (k !in tx.after ==> k !in supervisor.plane.guarded)
      modifies supervisor`store, supervisor.plane`held, supervisor.plane`leases, supervisor.plane`trace
      ensures Whole(k)
      ensures old(supervisor.plane.trace) <= supervisor.plane.trace
      ensures Spares(k, old(supervisor.plane.Routes()), old(supervisor.Book()), supervisor.plane.Routes(),
                supervisor.Book())
      ensures After(k) == old(After(k))
      ensures ok ==> Before(k) == Some(old(Before(k)).value.(lease := None))
      ensures !ok ==> Before(k) == old(Before(k))
    {
      hide Good, Plane.Valid, Plane.Routes, Supervisor.Shape, Roster, Moving, Spares, CoverAll, Covered;
      States(k);
      var before := supervisor.store[tx.before[k]];
      ghost var plane, s, routes, ls := supervisor.plane, supervisor.Book(), supervisor.plane.Routes(),
          supervisor.plane.leases;
      SparesSelf(k, routes, s);
      FinalizingFacts(k);
      OldReleased(routes, ls, k, tx.transitions[k], Before(k), After(k));
      LeaseDropped(k, routes, ls, s, plane.guarded, before.lease.value);
      ok := supervisor.plane.ReleaseLease(before.lease.value);
      if ok {
        SetBefore(k, before.(lease := None));
      }
    }

    lemma FinalizingFacts(k: PublicKey)
      requires Whole(k)
      ensures k in supervisor.Book().transitions
      ensures OwnLeases(supervisor.plane.leases, k, OrBlank(Before(k)).lease, tx.transitions[k].candidates)
      ensures tx.stage == Finalizing && k !in tx.after ==> tx.transitions[k].candidates == [] && After(k) == None
      ensures k in tx.after ==> After(k).Some?
    {
      hide Good, Plane.Valid, Plane.Routes, Supervisor.Shape, Tracked, Published, Leased;
      States(k);
    }

    // ---------- preparing ----------

    /** Tries one candidate: it authenticates, or it is as if it had never been there,
        or the core did not follow and the transaction is stuck. */
    method TryCandidate(k: PublicKey, i: nat) returns (verdict: Verdict)
      requires Whole(k) && tx.stage == Open && k in tx.after && Untried(tx.transitions[k])
      requires i < |tx.transitions[k].candidates| && tx.transitions[k].candidates[i].lease.Some?
      modifies tx`transitions, supervisor`store, supervisor.plane`held, supervisor.plane`leases,
                 supervisor.plane`trace, supervisor.plane.core
      ensures Whole(k)
      ensures old(supervisor.plane.trace) <= supervisor.plane.trace
      ensures Spares(k, old(supervisor.plane.Routes()), old(supervisor.Book()), supervisor.plane.Routes(),
                supervisor.Book())
      ensures Fixed(old(tx.transitions)[k], tx.transitions[k])
      ensures verdict == Ready ==>
                && After(k).Some? && tx.transitions[k].installed
                && Published(supervisor.plane.Routes(), k, tx.transitions[k], After(k).value)
                && k in supervisor.plane.core.peers && After(k).value.active.Some?
                && Proof(k, After(k).value.active.value, supervisor.plane.core.peers[k].activation,
                         supervisor.plane.core.ingress, supervisor.plane.core.authenticated)
      ensures verdict == TryNext ==>
                && Untried(tx.transitions[k])
                && OnlyDropped(old(tx.transitions)[k].candidates, tx.transitions[k].candidates, i)
    {
      hide Good, Plane.Valid, Plane.Routes, Supervisor.Shape, Roster, Moving, Spares, CoverAll, Covered, Proof,
          FirmlyCovers;
      ghost var s0, routes0 := supervisor.Book(), supervisor.plane.Routes();
      var e := tx.transitions[k].candidates[i].endpoint;
      var installed := InstallCandidate(k, i);
      if !installed {
        return TryNext;
      }
      KnownGeneration(k);
      ghost var s1, routes1 := supervisor.Book(), supervisor.plane.Routes();
      var ready := supervisor.plane.WaitPeerReady(k, e, tx.transitions[k].currentGeneration);
      if ready {
        Choose(k, i);
        SparesTwice(k, routes0, s0, routes1, s1, supervisor.plane.Routes(), supervisor.Book());
        return Ready;
      }
      var forgotten := Forget(k, i);
      SparesTwice(k, routes0, s0, routes1, s1, supervisor.plane.Routes(), supervisor.Book());
      verdict := if forgotten then TryNext else Stuck;
    }

    /** Candidate i is where k goes. */
    method Choose(k: PublicKey, i: nat)
      requires Whole(k) && tx.stage == Open && k in tx.after && tx.transitions[k].installed
                 && !tx.transitions[k].restored
      requires i < |tx.transitions[k].candidates| && tx.transitions[k].candidates[i].lease.Some?
      requires k in supervisor.plane.Routes()
                 && supervisor.plane.Routes()[k].selected == Some(tx.transitions[k].candidates[i].endpoint)
      requires supervisor.plane.Routes()[k].generation == tx.transitions[k].currentGeneration
      modifies tx`transitions, supervisor`store
      ensures Whole(k)
      ensures Spares(k, supervisor.plane.Routes(), old(supervisor.Book()), supervisor.plane.Routes(), supervisor.Book())
      ensures After(k).Some? && After(k).value.active == Some(old(tx.transitions)[k].candidates[i].endpoint)
      ensures tx.transitions[k] == old(tx.transitions)[k].(activeCandidate := Some(i))
      ensures Published(supervisor.plane.Routes(), k, tx.transitions[k], After(k).value)
    {
      hide Good, Plane.Valid, Plane.Routes, Supervisor.Shape, Roster, Moving, Spares, CoverAll, Covered, Proof,
          FirmlyCovers;
      var t := tx.transitions[k];
      ghost var plane, s := supervisor.plane, supervisor.Book();
      States(k);
      var after := supervisor.store[tx.after[k]].(
        active := Some(t.candidates[i].endpoint), generation := t.currentGeneration, lease := t.candidates[i].lease);
      Choosing(plane.Routes(), plane.leases, k, t, Before(k), After(k), Some(i), Some(after));
      SetTransition(k, t.(activeCandidate := Some(i)));
      ghost var s1 := supervisor.Book();
      SetAfter(k, after);
      SparesTwice(k, plane.Routes(), s, plane.Routes(), s1, plane.Routes(), supervisor.Book());
    }

    /** Candidate i never authenticated: go back and give its route back. */
    method Forget(k: PublicKey, i: nat) returns (ok: bool)
      requires Whole(k) && tx.stage == Open && Untried(tx.transitions[k].(installed := false))
                 && tx.transitions[k].installed
      requires i < |tx.transitions[k].candidates| && tx.transitions[k].candidates[i].lease.Some?
      modifies tx`transitions, supervisor`store, supervisor.plane`held, supervisor.plane`leases,
                 supervisor.plane`trace, supervisor.plane.core
      ensures Whole(k)
      ensures old(supervisor.plane.trace) <= supervisor.plane.trace
      ensures Spares(k, old(supervisor.plane.Routes()), old(supervisor.Book()), supervisor.plane.Routes(),
                supervisor.Book())
      ensures Fixed(old(tx.transitions)[k], tx.transitions[k])
      ensures ok ==>
                && Untried(tx.transitions[k])
                && OnlyDropped(old(tx.transitions)[k].candidates, tx.transitions[k].candidates, i)
    {
      hide Good, Plane.Valid, Plane.Routes, Supervisor.Shape, Roster, Moving, Spares, CoverAll, Covered, Proof,
          FirmlyCovers;
      ghost var s0, routes0 := supervisor.Book(), supervisor.plane.Routes();
      ok := RestoreBefore(k);
      if !ok {
        return;
      }
      ghost var s1, routes1 := supervisor.Book(), supervisor.plane.Routes();
      ok := FinalizeCore(k);
      SparesTwice(k, routes0, s0, routes1, s1, supervisor.plane.Routes(), supervisor.Book());
      if !ok {
        return;
      }
      ghost var s2, routes2 := supervisor.Book(), supervisor.plane.Routes();
      ok := ReleaseCandidate(k, i);
      SparesTwice(k, routes0, s0, routes2, s2, supervisor.plane.Routes(), supervisor.Book());
      if !ok {
        return;
      }
      ghost var s3, routes3 := supervisor.Book(), supervisor.plane.Routes();
      CandidateForgotten(routes3, supervisor.plane.leases, k, tx.transitions[k], Before(k), After(k));
      SetTransition(k, tx.transitions[k].(installed := false));
      SparesTwice(k, routes0, s0, routes3, s3, supervisor.plane.Routes(), supervisor.Book());
    }

    /** Tries the candidates in turn until one authenticates. */
    method InstallReadyCandidate(k: PublicKey) returns (ok: bool)
      requires Whole(k) && tx.stage == Open && k in tx.after && Untried(tx.transitions[k])
                 && AllLeased(tx.transitions[k].candidates)
      modifies tx`transitions, supervisor`store, supervisor.plane`held, supervisor.plane`leases,
                 supervisor.plane`trace, supervisor.plane.core
      ensures Whole(k)
      ensures old(supervisor.plane.trace) <= supervisor.plane.trace
      ensures Spares(k, old(supervisor.plane.Routes()), old(supervisor.Book()), supervisor.plane.Routes(),
                supervisor.Book())
      ensures Fixed(old(tx.transitions)[k], tx.transitions[k])
      ensures ok ==> After(k).Some? && tx.transitions[k].installed
                     && Published(supervisor.plane.Routes(), k, tx.transitions[k], After(k).value)
      ensures ok ==> k in supervisor.plane.core.peers && After(k).value.active.Some?
                     && Proof(k, After(k).value.active.value, supervisor.plane.core.peers[k].activation,
                              supervisor.plane.core.ingress, supervisor.plane.core.authenticated)
    {
      hide Good, Plane.Valid, Plane.Routes, Supervisor.Shape, Roster, Moving, Spares, CoverAll, Covered, Proof,
          FirmlyCovers, Published;
      ghost var s0, routes0 := supervisor.Book(), supervisor.plane.Routes();
      SparesSelf(k, routes0, s0);
      var i := 0;
      while i < |tx.transitions[k].candidates|
        invariant Whole(k) && tx.stage == Open && Untried(tx.transitions[k])
        invariant 0 <= i <= |tx.transitions[k].candidates| == |old(tx.transitions)[k].candidates|
        invariant Fixed(old(tx.transitions)[k], tx.transitions[k])
        invariant forall j :: i <= j < |tx.transitions[k].candidates| ==> tx.transitions[k].candidates[j].lease.Some?
        invariant old(supervisor.plane.trace) <= supervisor.plane.trace
        invariant Spares(k, routes0, s0, supervisor.plane.Routes(), supervisor.Book())
        decreases |old(tx.transitions)[k].candidates| - i
      {
        ghost var s1, routes1 := supervisor.Book(), supervisor.plane.Routes();
        var verdict := TryCandidate(k, i);
        SparesTwice(k, routes0, s0, routes1, s1, supervisor.plane.Routes(), supervisor.Book());
        if verdict != TryNext {
          return verdict == Ready;
        }
        i := i + 1;
      }
      ok := false;
    }

    /** Acquires a route to each resolved address; some may fail. */
    method AcquireCandidates(k: PublicKey, addresses: seq<nat>, port: nat)
      requires Whole(k) && tx.stage == Open && Untried(tx.transitions[k]) && AllLeased(tx.transitions[k].candidates)
      modifies tx`transitions, supervisor.plane`held, supervisor.plane`nextLease, supervisor.plane`leases,
                 supervisor.plane`trace
      ensures Whole(k)
      ensures old(supervisor.plane.trace) <= supervisor.plane.trace
      ensures Spares(k, old(supervisor.plane.Routes()), old(supervisor.Book()), supervisor.plane.Routes(),
                supervisor.Book())
      ensures Before(k) == old(Before(k)) && After(k) == old(After(k))
      ensures Untried(tx.transitions[k]) && AllLeased(tx.transitions[k].candidates)
      ensures Fixed(old(tx.transitions)[k], tx.transitions[k])
      ensures supervisor.plane.Routes() == old(supervisor.plane.Routes())
    {
      hide Good, Plane.Valid, Plane.Routes, Supervisor.Shape, Roster, Moving, Spares, CoverAll, Covered, Proof,
          FirmlyCovers;
      ghost var s0, routes := supervisor.Book(), supervisor.plane.Routes();
      SparesSelf(k, routes, s0);
      var i := 0;
      while i < |addresses|
        invariant Whole(k) && tx.stage == Open && Untried(tx.transitions[k]) && AllLeased(tx.transitions[k].candidates)
        invariant old(supervisor.plane.trace) <= supervisor.plane.trace
        invariant Before(k) == old(Before(k)) && After(k) == old(After(k))
                    && Fixed(old(tx.transitions)[k], tx.transitions[k])
        invariant Spares(k, routes, s0, supervisor.plane.Routes(), supervisor.Book())
      {
        ghost var s1 := supervisor.Book();
        var _ := AcquireCandidate(k, Endpoint(addresses[i], port));
        SparesTwice(k, routes, s0, routes, s1, supervisor.plane.Routes(), supervisor.Book());
        i := i + 1;
      }
    }

    /** Brings one affected peer to the point where the set can be committed. */
    method PrepareOne(k: PublicKey) returns (ok: bool)
      requires Whole(k) && tx.stage == Open && Untried(tx.transitions[k]) && tx.transitions[k].candidates == []
      requires After(k).Some? ==> Unleased(After(k).value)
      requires Before(k).None? ==> tx.transitions[k].currentGeneration == 0
      modifies tx`transitions, supervisor`store, supervisor.plane`held, supervisor.plane`nextLease,
                 supervisor.plane`leases,
               supervisor.plane`trace, supervisor.plane.core
      ensures Whole(k)
      ensures old(supervisor.plane.trace) <= supervisor.plane.trace
      ensures Spares(k, old(supervisor.plane.Routes()), old(supervisor.Book()), supervisor.plane.Routes(),
                supervisor.Book())
      ensures Fixed(old(tx.transitions)[k], tx.transitions[k])
      ensures ok ==> Committable(supervisor.plane.Routes(), k, tx.transitions[k], Before(k), After(k))
    {
      hide Good, Plane.Valid, Plane.Routes, Supervisor.Shape, Roster, Moving, Spares, CoverAll, Covered, Proof,
          FirmlyCovers;
      ghost var s0, routes0 := supervisor.Book(), supervisor.plane.Routes();
      SparesSelf(k, routes0, s0);
      States(k);
      if k !in tx.after {
        return true;
      }
      var after := supervisor.store[tx.after[k]];
      if after.endpoint == "" {
        if k !in tx.before {
          NewEndpointless(routes0, supervisor.plane.leases, k, tx.transitions[k], Before(k), After(k));
          return true;
        }
        ok := ClearEndpoint(k);
        if ok {
          ghost var s1, routes1 := supervisor.Book(), supervisor.plane.Routes();
          Choosing(routes1, supervisor.plane.leases, k, tx.transitions[k], Before(k), After(k), None,
                   Some(after.(active := None, generation := tx.transitions[k].currentGeneration, lease := None)));
          SetAfter(k, after.(active := None, generation := tx.transitions[k].currentGeneration, lease := None));
          SparesTwice(k, routes0, s0, routes1, s1, supervisor.plane.Routes(), supervisor.Book());
        }
        return;
      }
      var resolution := supervisor.Resolve();
      if resolution.None? {
        return false;
      }
      AcquireCandidates(k, resolution.value, after.port);
      if tx.transitions[k].candidates == [] {
        return false;
      }
      if k !in tx.before {
        return true;
      }
      ghost var s1, routes1 := supervisor.Book(), supervisor.plane.Routes();
      ok := InstallReadyCandidate(k);
      SparesTwice(k, routes0, s0, routes1, s1, supervisor.plane.Routes(), supervisor.Book());
    }

    // ---------- the whole set ----------

    ghost predicate Held()
      reads supervisor, supervisor.open, supervisor.plane, supervisor.plane.core, tx
    {
      supervisor.Valid() && supervisor.open == tx
    }

    ghost method Advance(stage: Stage)
      requires Held() && tx.stage != Finalizing && stage != Finalizing
      requires stage == Complete ==> tx.state == Prepared && forall k :: k in tx.transitions ==>
                 CommittableAt(supervisor.plane.Routes(), supervisor.Book(), k)
      requires stage == Stage.Committed ==> tx.state == TransactionState.Committed && supervisor.peers == tx.after
      requires stage == Stage.Committed ==> forall k :: k in tx.transitions ==>
                 ChosenAt(supervisor.plane.Routes(), supervisor.Book(), k)
      modifies tx`stage
      ensures Held() && tx.stage == stage && supervisor.Book() == old(supervisor.Book()).(stage := stage)
    {
      hide Good, Plane.Valid, Plane.Routes, Lists, Keyed, Views, SharedOutside, CommittableAt, ChosenAt;
      StageStep(supervisor.plane.Routes(), supervisor.plane.leases, supervisor.plane.guarded, supervisor.Book(), stage);
      tx.stage := stage;
    }

    /** The affected peers, in order. */
    lemma Affected()
      requires Held()
      ensures Lists(tx.affected, tx.transitions.Keys) && supervisor.Book().transitions == tx.transitions
                && supervisor.Book().stage == tx.stage
      ensures supervisor.Book().after.Keys <= tx.transitions.Keys
    {
    }

    lemma AllCommittable()
      requires Held() && tx.stage == Complete
      ensures forall k :: k in tx.transitions ==> CommittableAt(supervisor.plane.Routes(), supervisor.Book(), k)
    {
      forall k | k in tx.transitions
        ensures CommittableAt(supervisor.plane.Routes(), supervisor.Book(), k)
      {
        Extract(k);
        hide Good, Plane.Valid, Plane.Routes, Supervisor.Shape, Views, Tracked, Committable, OwnLeases, Leased;
      }
    }

    /** Makes one projection of the peer set the current one. */
    method Publish(refs: Refs, order: seq<PublicKey>)
      requires Held() && tx.stage == Open
      requires (refs == tx.before && order == tx.beforeOrder) || (refs == tx.after && order == tx.afterOrder)
      modifies supervisor`peers, supervisor`order
      ensures Held() && supervisor.peers == refs && supervisor.order == order
      ensures supervisor.Book() == old(supervisor.Book()).(peers := Views(supervisor.store, refs, refs.Keys))
      ensures Steady(old(supervisor.Book()), supervisor.Book())
    {
      hide Good, Plane.Valid, Plane.Routes, Lists, Views, Keyed, SharedOutside, Steady;
      Publishable(refs);
      supervisor.peers, supervisor.order := refs, order;
    }

    lemma Publishable(refs: Refs)
      requires Held() && tx.stage == Open && (refs == tx.before || refs == tx.after)
      ensures var s := supervisor.Book().(peers := Views(supervisor.store, refs, refs.Keys));
              && Good(supervisor.plane.Routes(), supervisor.plane.leases, supervisor.plane.guarded, s, {}, {})
              && Steady(supervisor.Book(), s)
      ensures SharedOutside(refs, tx.before, tx.transitions.Keys) && SharedOutside(refs, tx.after, tx.transitions.Keys)
    {
      hide Good, Plane.Valid, Plane.Routes, Lists, Views, Keyed, SharedOutside, Steady;
      ghost var s, ks := supervisor, tx.transitions.Keys;
      SharedViews(s.store, s.peers, refs, ks);
      TransitViews(s.store, tx.before, tx.after, ks);
      SharedBoth(s.peers, tx.before, tx.after, ks);
      OrderedViews();
      hide Supervisor.Book, Supervisor.Shape;
      PublishStep(s.plane.Routes(), s.plane.leases, s.plane.guarded, s.Book(), Views(s.store, refs, refs.Keys));
      SteadyPublish(s.Book(), Views(s.store, refs, refs.Keys));
    }

    lemma OrderedViews()
      requires Held()
      ensures supervisor.Book().peers == Views(supervisor.store, supervisor.peers, supervisor.peers.Keys)
      ensures supervisor.Book().transitions == tx.transitions && supervisor.Book().phase == Live
                && supervisor.Book().stage == tx.stage
      ensures supervisor.Book().before == Views(supervisor.store, tx.before, tx.transitions.Keys)
      ensures supervisor.Book().after == Views(supervisor.store, tx.after, tx.transitions.Keys)
    {
    }

    method SetState(state: TransactionState)
      requires Held() && tx.stage == Open && (state == Prepared || state == TransactionState.Committed)
      modifies tx`state
      ensures Held() && tx.state == state && supervisor.Book() == old(supervisor.Book())
    {
      hide Good, Plane.Valid, Plane.Routes, Lists, Views, Keyed, SharedOutside;
      tx.state := state;
    }

    /** Peers to be added with an endpoint are installed only now. */
    method CommitOne(k: PublicKey) returns (ok: bool)
      requires Held() && tx.stage == Open && k in tx.transitions
                 && CommittableAt(supervisor.plane.Routes(), supervisor.Book(), k)
      modifies tx`transitions, supervisor`store, supervisor.plane`held, supervisor.plane`leases,
                 supervisor.plane`trace, supervisor.plane.core
      ensures Held() && old(supervisor.plane.trace) <= supervisor.plane.trace
      ensures Spares(k, old(supervisor.plane.Routes()), old(supervisor.Book()), supervisor.plane.Routes(),
                supervisor.Book())
      ensures k in tx.transitions && Fixed(old(tx.transitions)[k], tx.transitions[k])
      ensures ok ==> ChosenAt(supervisor.plane.Routes(), supervisor.Book(), k)
    {
      hide Supervisor.Sound, Spares, Moving, Proof, Published, Good, Lists, OwnLeases, Views;
      Extract(k);
      States(k);
      ghost var s0 := supervisor.Book();
      SparesSelf(k, supervisor.plane.Routes(), s0);
      KnownGeneration(k);
      if k in tx.before || k !in tx.after || supervisor.store[tx.after[k]].endpoint == "" {
        return true;
      }
      ok := InstallReadyCandidate(k);
      Insert(k);
    }

    /** Installs every peer to be added; stops at the first failure. */
    method CommitAll() returns (ok: bool)
      requires Held() && tx.stage == Open
      requires forall k :: k in tx.transitions ==> CommittableAt(supervisor.plane.Routes(), supervisor.Book(), k)
      modifies tx`transitions, supervisor`store, supervisor.plane`held, supervisor.plane`leases,
                 supervisor.plane`trace, supervisor.plane.core
      ensures Held() && old(supervisor.plane.trace) <= supervisor.plane.trace
                && Steady(old(supervisor.Book()), supervisor.Book())
      ensures ok ==> forall k :: k in tx.transitions ==> ChosenAt(supervisor.plane.Routes(), supervisor.Book(), k)
    {
      hide Supervisor.Sound, Supervisor.Book, Lists, Spares, CommittableAt, ChosenAt, Whole, Steady, Fixed;
      ghost var plane, s0 := supervisor.plane, supervisor.Book();
      SteadySelf(s0);
      Affected();
      Exposed(tx.affected, tx.transitions.Keys);
      var i := 0;
      while i < |tx.affected|
        invariant Held() && tx.stage == Open && old(plane.trace) <= plane.trace && 0 <= i <= |tx.affected|
        invariant Lists(tx.affected, tx.transitions.Keys) && Steady(s0, supervisor.Book())
        invariant forall j :: 0 <= j < i ==> ChosenAt(plane.Routes(), supervisor.Book(), tx.affected[j])
        invariant forall j :: i <= j < |tx.affected| ==>
                    CommittableAt(plane.Routes(), supervisor.Book(), tx.affected[j])
      {
        var k := tx.affected[i];
        ghost var s, routes := supervisor.Book(), plane.Routes();
        ListedOnce(tx.affected, tx.transitions.Keys, i);
        Affected();
        ok := CommitOne(k);
        Affected();
        SteadySpares(k, routes, s, plane.Routes(), supervisor.Book());
        SteadyTwice(s0, s, supervisor.Book());
        if !ok {
          return;
        }
        forall j | 0 <= j < |tx.affected| && j != i
          ensures ChosenAt(routes, s, tx.affected[j]) ==> ChosenAt(plane.Routes(), supervisor.Book(), tx.affected[j])
          ensures CommittableAt(routes, s, tx.affected[j]) ==>
                    CommittableAt(plane.Routes(), supervisor.Book(), tx.affected[j])
        {
          SparesAt(k, tx.affected[j], routes, s, plane.Routes(), supervisor.Book());
        }
        i := i + 1;
      }
      Exposed(tx.affected, tx.transitions.Keys);
      ok := true;
    }

    method Commit() returns (ok: bool)
      requires supervisor.Valid() && (tx.state == Prepared ==> supervisor.open == tx && tx.stage == Complete)
      modifies tx, supervisor`store, supervisor`peers, supervisor`order,
               supervisor.plane`held, supervisor.plane`leases, supervisor.plane`trace, supervisor.plane.core
      ensures supervisor.Valid() && old(supervisor.plane.trace) <= supervisor.plane.trace
      ensures ok <==> tx.state == TransactionState.Committed || tx.state == Finalized
      ensures old(tx.state) != Prepared ==>
                tx.state == old(tx.state) && supervisor.store == old(supervisor.store)
                    && supervisor.peers == old(supervisor.peers)
      ensures old(tx.state) == Prepared ==> supervisor.open == tx
      ensures Continues(old(tx.transitions), tx.transitions)
      ensures KeepsOthers(old(supervisor.Book()).peers, supervisor.Book().peers, tx.transitions.Keys)
      ensures Guarding(supervisor.plane.trace, |old(supervisor.plane.trace)|, old(supervisor.peers.Keys))
      ensures Guarding(supervisor.plane.trace, |old(supervisor.plane.trace)|, supervisor.peers.Keys)
      ensures old(tx.state) == Prepared && ok ==>
                && supervisor.peers == tx.after && supervisor.order == tx.afterOrder
                && tx.stage == Stage.Committed && tx.state == TransactionState.Committed
                && ArrivesAt(tx.transitions, supervisor.Book().peers, tx.after.Keys)
      ensures old(tx.state) == Prepared && !ok ==>
                supervisor.peers == old(supervisor.peers) && supervisor.order == old(supervisor.order)
                    && tx.stage == Open && tx.state == Prepared
    {
      hide Supervisor.Sound, Supervisor.Book, CommittableAt, ChosenAt, Steady, Continues, KeepsOthers, ArrivesAt,
          Guarding;
      ghost var plane, s0 := supervisor.plane, supervisor.Book();
      if tx.state != Prepared {
        NothingRecorded(plane.trace, supervisor.peers.Keys);
        Continued(tx.transitions);
        KeptSelf(s0.peers, tx.transitions.Keys);
        return tx.state != RolledBack;
      }
      Alive();
      supervisor.GuardsPeers();
      ghost var n, keys := |plane.trace|, supervisor.peers.Keys;
      Affected();
      AllCommittable();
      SteadyStage(s0, Open);
      Advance(Open);
      ghost var s1 := supervisor.Book();
      forall k | k in tx.transitions
        ensures CommittableAt(plane.Routes(), s1, k)
      {
        StagedAt(plane.Routes(), s0, Open, s0.peers, k);
      }
      ok := CommitAll();
      SteadyTwice(s0, s1, supervisor.Book());
      ghost var s2 := supervisor.Book();
      if ok {
        PublishNew();
        SteadyTwice(s0, s2, supervisor.Book());
      }
      Affected();
      Kept(s0, supervisor.Book());
      supervisor.Guarded(n, keys);
    }

    /** The new projection goes live. */
    method PublishNew()
      requires Held() && tx.stage == Open && tx.state == Prepared
      requires forall k :: k in tx.transitions ==> ChosenAt(supervisor.plane.Routes(), supervisor.Book(), k)
      modifies tx`state, tx`stage, supervisor`peers, supervisor`order
      ensures Held() && tx.stage == Stage.Committed && tx.state == TransactionState.Committed
      ensures supervisor.peers == tx.after && supervisor.order == tx.afterOrder
      ensures Steady(old(supervisor.Book()), supervisor.Book())
      ensures ArrivesAt(tx.transitions, supervisor.Book().peers, tx.after.Keys)
    {
      hide Supervisor.Sound, Supervisor.Book, ChosenAt, Steady, ArrivesAt;
      ghost var plane, s1 := supervisor.plane, supervisor.Book();
      Affected();
      Publish(tx.after, tx.afterOrder);
      SetState(TransactionState.Committed);
      ghost var s2 := supervisor.Book();
      forall k | k in tx.transitions
        ensures ChosenAt(plane.Routes(), s2, k)
      {
        StagedAt(plane.Routes(), s1, s1.stage, s2.peers, k);
      }
      Advance(Stage.Committed);
      SteadyStage(s2, Stage.Committed);
      SteadyTwice(s1, s2, supervisor.Book());
      Arrived();
    }

    lemma Alive()
      requires Held()
      ensures supervisor.Phase() == Live
    {
      hide Good, Plane.Valid, Lists;
    }

    /** The published states are those the plan asked for. */
    lemma Arrived()
      requires Held() && supervisor.peers == tx.after
      ensures ArrivesAt(tx.transitions, supervisor.Book().peers, tx.after.Keys)
    {
      forall k | k in tx.transitions && k in tx.after
        ensures k in supervisor.Book().peers && Aimed(tx.transitions[k].target, Some(supervisor.Book().peers[k]))
      {
        Extract(k);
        hide Good, Plane.Valid, Plane.Routes, Lists;
      }
    }

    // ---------- rolling back ----------

    /** Brings one peer back to the endpoint it had, and lets the core finalize that. */
    method RollBackOne(k: PublicKey) returns (ok: bool)
      requires Whole(k) && tx.stage == Open
      modifies tx`transitions, supervisor`store, supervisor.plane`trace, supervisor.plane.core
      ensures Whole(k)
      ensures old(supervisor.plane.trace) <= supervisor.plane.trace
      ensures Spares(k, old(supervisor.plane.Routes()), old(supervisor.Book()), supervisor.plane.Routes(),
                supervisor.Book())
      ensures Fixed(old(tx.transitions)[k], tx.transitions[k])
      ensures ok ==> (tx.transitions[k].installed ==> tx.transitions[k].restored && tx.transitions[k].coreFinalized)
    {
      hide Good, Plane.Valid, Plane.Routes, Supervisor.Shape, Roster, Moving, Spares;
      ghost var plane, s0, routes0 := supervisor.plane, supervisor.Book(), supervisor.plane.Routes();
      SparesSelf(k, routes0, s0);
      if !tx.transitions[k].installed {
        return true;
      }
      KnownFlags(k);
      if !tx.transitions[k].restored {
        ok := RestoreBefore(k);
        if !ok {
          return;
        }
        ghost var s1 := supervisor.Book();
        ghost var routes1 := plane.Routes();
        MarkRestored(routes1, plane.leases, k, tx.transitions[k], Before(k), After(k));
        SetTransition(k, tx.transitions[k].(restored := true));
        SparesTwice(k, routes0, s0, routes1, s1, plane.Routes(), supervisor.Book());
      }
      if !tx.transitions[k].coreFinalized {
        ghost var s2, routes2 := supervisor.Book(), plane.Routes();
        ok := FinalizeCore(k);
        SparesTwice(k, routes0, s0, routes2, s2, plane.Routes(), supervisor.Book());
        if !ok {
          return;
        }
        ghost var s3 := supervisor.Book();
        ghost var routes3 := plane.Routes();
        MarkFinalized(routes3, plane.leases, k, tx.transitions[k], Before(k), After(k), Open);
        SetTransition(k, tx.transitions[k].(coreFinalized := true));
        SparesTwice(k, routes0, s0, routes3, s3, plane.Routes(), supervisor.Book());
      }
      ok := true;
    }

    lemma KnownFlags(k: PublicKey)
      requires Whole(k) && tx.stage != Finalizing
      ensures tx.transitions[k].coreFinalized ==> tx.transitions[k].restored
    {
      hide Good, Plane.Valid, Plane.Routes, Supervisor.Shape, OwnLeases, Leased, Tracked;
    }

    /** Gives back the routes of all of k's candidates. */
    method ReleaseCandidatesOf(k: PublicKey) returns (ok: bool)
      requires Whole(k) && tx.stage == Open
      requires tx.transitions[k].installed ==> tx.transitions[k].restored && tx.transitions[k].coreFinalized
      modifies tx`transitions, supervisor.plane`held, supervisor.plane`leases, supervisor.plane`trace
      ensures Whole(k)
      ensures old(supervisor.plane.trace) <= supervisor.plane.trace
      ensures Spares(k, old(supervisor.plane.Routes()), old(supervisor.Book()), supervisor.plane.Routes(),
                supervisor.Book())
      ensures Fixed(old(tx.transitions)[k], tx.transitions[k])
      ensures tx.transitions[k].installed ==> tx.transitions[k].restored && tx.transitions[k].coreFinalized
      ensures ok ==> NoCandidateLeases(tx.transitions[k])
    {
      hide Good, Plane.Valid, Plane.Routes, Supervisor.Shape, Roster, Moving, Spares, Home, FirmlyCovers;
      ghost var plane, s0, routes := supervisor.plane, supervisor.Book(), supervisor.plane.Routes();
      SparesSelf(k, routes, s0);
      ok := true;
      var i := 0;
      while i < |tx.transitions[k].candidates|
        invariant Whole(k) && tx.stage == Open
                    && 0 <= i <= |tx.transitions[k].candidates| == |old(tx.transitions)[k].candidates|
        invariant tx.transitions[k] == old(tx.transitions)[k].(candidates := tx.transitions[k].candidates)
        invariant old(plane.trace) <= plane.trace && Spares(k, routes, s0, plane.Routes(), supervisor.Book())
        invariant ok ==> forall j :: 0 <= j < i ==> tx.transitions[k].candidates[j].lease.None?
        decreases |old(tx.transitions)[k].candidates| - i
      {
        if tx.transitions[k].candidates[i].lease.Some? {
          ghost var s1 := supervisor.Book();
          HomeHolds(plane.Routes(), plane.leases, k, tx.transitions[k], Before(k), After(k));
          var released := ReleaseCandidate(k, i);
          SparesTwice(k, routes, s0, routes, s1, plane.Routes(), supervisor.Book());
          ok := ok && released;
        }
        i := i + 1;
      }
    }

    /** Brings every peer back, last one first; goes on past failures. */
    method RollBackAll() returns (ok: bool)
      requires Held() && tx.stage == Open
      modifies tx`transitions, supervisor`store, supervisor.plane`trace, supervisor.plane.core
      ensures Held() && old(supervisor.plane.trace) <= supervisor.plane.trace
                && Steady(old(supervisor.Book()), supervisor.Book())
      ensures ok ==> forall k :: k in tx.transitions ==> HomeAt(supervisor.Book(), k)
    {
      hide Supervisor.Sound, Supervisor.Book, Lists, Spares, HomeAt, Steady, Moving;
      ghost var plane, s0 := supervisor.plane, supervisor.Book();
      SteadySelf(s0);
      Affected();
      ok := true;
      var i := |tx.affected|;
      while i > 0
        invariant Held() && tx.stage == Open && 0 <= i <= |tx.affected| && old(plane.trace) <= plane.trace
        invariant Lists(tx.affected, tx.transitions.Keys) && Steady(s0, supervisor.Book())
        invariant ok ==> forall j :: i <= j < |tx.affected| ==> HomeAt(supervisor.Book(), tx.affected[j])
      {
        i := i - 1;
        var k := tx.affected[i];
        ListedOnce(tx.affected, tx.transitions.Keys, i);
        ghost var s, routes := supervisor.Book(), plane.Routes();
        Extract(k);
        InBook(k);
        var back := RollBackOne(k);
        InBook(k);
        SteadySpares(k, routes, s, plane.Routes(), supervisor.Book());
        SteadyTwice(s0, s, supervisor.Book());
        forall j | i < j < |tx.affected| && HomeAt(s, tx.affected[j])
          ensures HomeAt(supervisor.Book(), tx.affected[j])
        {
          SparesAt(k, tx.affected[j], routes, s, plane.Routes(), supervisor.Book());
        }
        Insert(k);
        Affected();
        ok := ok && back;
      }
      Exposed(tx.affected, tx.transitions.Keys);
    }

    lemma InBook(k: PublicKey)
      requires Apart(k)
      ensures k in supervisor.Book().transitions && supervisor.Book().transitions[k] == tx.transitions[k]
      ensures HomeAt(supervisor.Book(), k) <==>
                (tx.transitions[k].installed ==> tx.transitions[k].restored && tx.transitions[k].coreFinalized)
      ensures BareAt(supervisor.Book(), k) <==> HomeAt(supervisor.Book(), k) && NoCandidateLeases(tx.transitions[k])
      ensures Before(k) == Lookup(supervisor.Book().before, k)
    {
    }

    /** Gives back the routes of all candidates; goes on past failures. */
    method ReleaseCandidateLeases() returns (ok: bool)
      requires Held() && tx.stage == Open && forall k :: k in tx.transitions ==> HomeAt(supervisor.Book(), k)
      modifies tx`transitions, supervisor.plane`held, supervisor.plane`leases, supervisor.plane`trace
      ensures Held() && old(supervisor.plane.trace) <= supervisor.plane.trace
                && Steady(old(supervisor.Book()), supervisor.Book())
      ensures ok ==> forall k :: k in tx.transitions ==> BareAt(supervisor.Book(), k)
    {
      hide Supervisor.Sound, Supervisor.Book, Lists, Spares, HomeAt, BareAt, Steady, Moving;
      ghost var plane, s0 := supervisor.plane, supervisor.Book();
      SteadySelf(s0);
      Affected();
      Exposed(tx.affected, tx.transitions.Keys);
      ok := true;
      var i := 0;
      while i < |tx.affected|
        invariant Held() && tx.stage == Open && 0 <= i <= |tx.affected| && old(plane.trace) <= plane.trace
        invariant Lists(tx.affected, tx.transitions.Keys) && Steady(s0, supervisor.Book())
        invariant forall j :: 0 <= j < |tx.affected| ==> HomeAt(supervisor.Book(), tx.affected[j])
        invariant ok ==> forall j :: 0 <= j < i ==> BareAt(supervisor.Book(), tx.affected[j])
      {
        var k := tx.affected[i];
        ListedOnce(tx.affected, tx.transitions.Keys, i);
        ghost var s, routes := supervisor.Book(), plane.Routes();
        Extract(k);
        InBook(k);
        var released := ReleaseCandidatesOf(k);
        InBook(k);
        SteadySpares(k, routes, s, plane.Routes(), supervisor.Book());
        SteadyTwice(s0, s, supervisor.Book());
        forall j | 0 <= j < |tx.affected| && j != i && HomeAt(s, tx.affected[j])
          ensures HomeAt(supervisor.Book(), tx.affected[j])
          ensures BareAt(s, tx.affected[j]) ==> BareAt(supervisor.Book(), tx.affected[j])
        {
          SparesAt(k, tx.affected[j], routes, s, plane.Routes(), supervisor.Book());
          if BareAt(s, tx.affected[j]) {
            SparesBare(k, tx.affected[j], routes, s, plane.Routes(), supervisor.Book());
          }
        }
        Insert(k);
        Affected();
        ok := ok && released;
        i := i + 1;
      }
      Exposed(tx.affected, tx.transitions.Keys);
    }

    /** The supervisor can answer for these peers again. */
    ghost predicate Releasable()
      reads supervisor, supervisor.open, supervisor.plane, supervisor.plane.core, tx
    {
      var s, ls := supervisor.Book(), HandedOver(supervisor.plane.leases, supervisor.Book().transitions.Keys);
      && (forall k :: k in s.transitions && k in s.peers ==> Settled(supervisor.plane.Routes(), ls, k, s.peers[k]))
      && (forall k :: k in s.transitions && k !in s.peers ==> NoLeases(ls, k))
    }

    lemma Returnable()
      requires Held() && Releasable()
      ensures Unreserved(supervisor.reserved, tx.affected, tx.id) == map[]
      ensures var plane, b := supervisor.plane, supervisor.Book();
              var next := HandedOver(plane.leases, b.transitions.Keys);
              && SameAddresses(plane.leases, next) && CoverAll(plane.Routes(), next, plane.guarded)
              && Good(plane.Routes(), next, plane.guarded,
                      b.(stage := Open, transitions := map[], before := map[], after := map[]), {}, {})
    {
      hide Good, Plane.Valid, Plane.Routes, Lists, Keyed, SharedOutside, Settled, NoLeases, HandedOver, CoverAll,
          Views, SameAddresses, Below, Unreserved;
      ghost var plane := supervisor.plane;
      AllReserved(supervisor.reserved, tx.affected, tx.transitions.Keys, tx.id);
      ReleaseStep(plane.Routes(), plane.leases, plane.guarded, supervisor.Book());
    }

    /** Gives up the reservations. */
    method ReleaseReservations()
      requires Held() && Releasable()
      modifies supervisor`reserved, supervisor`activePeerSet, supervisor`open, supervisor.plane`leases
      ensures supervisor.Valid() && supervisor.open == null
      ensures supervisor.Book().peers == old(supervisor.Book()).peers
    {
      hide Good, Plane.Valid, Plane.Routes, Lists, Keyed, HandedOver, CoverAll, Views, SameAddresses, Below,
          Transaction.Shape, Releasable, Unreserved;
      var s := supervisor;
      ghost var b := s.Book();
      Returnable();
      s.plane.Retag(HandedOver(s.plane.leases, b.transitions.Keys));
      s.reserved := Unreserved(s.reserved, tx.affected, tx.id);
      s.activePeerSet := "";
      s.open := null;
    }

    lemma RolledBackReleasable()
      requires Held() && tx.stage == Open && supervisor.peers == tx.before
      requires forall k :: k in tx.transitions ==> BareAt(supervisor.Book(), k)
      ensures Releasable()
      ensures ReturnsTo(tx.transitions, supervisor.Book().peers, tx.before.Keys)
    {
      hide Good, Plane.Valid, Plane.Routes, Lists, BareAt, Settled, NoLeases, Unmoved, HandedOver, SharedOutside;
      AllRolledBack(supervisor.plane.Routes(), supervisor.plane.leases, supervisor.plane.guarded, supervisor.Book());
    }

    /** Undoes the transaction.  Every peer it affected has its old endpoint again,
        under a later generation; every other peer keeps what happened to it since. */
    method Rollback() returns (ok: bool)
      requires supervisor.Valid()
      requires tx.state == Prepared || tx.state == TransactionState.Committed ==>
                 supervisor.open == tx && tx.stage != Finalizing
      modifies tx, supervisor`store, supervisor`peers, supervisor`order, supervisor`reserved, supervisor`activePeerSet,
                 supervisor`open,
               supervisor.plane`held, supervisor.plane`leases, supervisor.plane`trace, supervisor.plane.core
      ensures supervisor.Valid() && old(supervisor.plane.trace) <= supervisor.plane.trace
      ensures ok <==> tx.state == RolledBack
      ensures old(tx.state) == RolledBack || old(tx.state) == Finalized ==>
                tx.state == old(tx.state) && supervisor.Book() == old(supervisor.Book())
      ensures !ok && old(tx.state) != Finalized ==>
                tx.state == old(tx.state) && supervisor.open == tx && tx.stage == Open
      ensures Continues(old(tx.transitions), tx.transitions)
      ensures KeepsOthers(old(supervisor.Book()).peers, supervisor.Book().peers, tx.transitions.Keys)
      ensures Guarding(supervisor.plane.trace, |old(supervisor.plane.trace)|, old(supervisor.peers.Keys))
      ensures Guarding(supervisor.plane.trace, |old(supervisor.plane.trace)|, supervisor.peers.Keys)
      ensures ok && old(tx.state) != RolledBack ==>
                && supervisor.open == null && supervisor.peers == tx.before && supervisor.order == tx.beforeOrder
                && ReturnsTo(tx.transitions, supervisor.Book().peers, tx.before.Keys)
      // After success, the leases left are those of the lists and of the old peers.
      ensures AllRecorded(supervisor.plane.held.Keys, supervisor.Book())
    {
      hide Supervisor.Sound, Supervisor.Book, Lists, HomeAt, BareAt, Steady, Releasable, Continues, KeepsOthers,
          ReturnsTo, Guarding, AllRecorded;
      ghost var plane, s0 := supervisor.plane, supervisor.Book();
      supervisor.AccountsForAll();
      if tx.state == RolledBack || tx.state == Finalized {
        NothingRecorded(plane.trace, supervisor.peers.Keys);
        Continued(tx.transitions);
        KeptSelf(s0.peers, tx.transitions.Keys);
        return tx.state == RolledBack;
      }
      Alive();
      supervisor.GuardsPeers();
      ghost var n, keys := |plane.trace|, supervisor.peers.Keys;
      Affected();
      Advance(Open);
      ghost var s1 := supervisor.Book();
      SteadyStage(s0, Open);
      ok := RollBackAll();
      ghost var s2 := supervisor.Book();
      SteadyTwice(s0, s1, s2);
      if ok {
        ok := PublishOld();
        SteadyTwice(s0, s2, supervisor.Book());
      }
      Affected();
      Kept(s0, supervisor.Book());
      supervisor.Guarded(n, keys);
      if ok {
        EndRollback();
      }
      supervisor.AccountsForAll();
    }

    method EndRollback()
      requires Held() && tx.stage == Open && supervisor.peers == tx.before
      requires forall k :: k in tx.transitions ==> BareAt(supervisor.Book(), k)
      modifies tx`state, supervisor`reserved, supervisor`activePeerSet, supervisor`open, supervisor.plane`leases
      ensures supervisor.Valid() && supervisor.open == null && tx.state == RolledBack
      ensures supervisor.Book().peers == old(supervisor.Book()).peers
      ensures ReturnsTo(tx.transitions, supervisor.Book().peers, tx.before.Keys)
    {
      hide Supervisor.Sound, Supervisor.Book, BareAt, Releasable, ReturnsTo;
      RolledBackReleasable();
      ReleaseReservations();
      Finish(RolledBack);
    }

    /** The old projection goes live again, and the candidates' routes are given back. */
    method PublishOld() returns (ok: bool)
      requires Held() && tx.stage == Open && forall k :: k in tx.transitions ==> HomeAt(supervisor.Book(), k)
      modifies tx`transitions, supervisor`peers, supervisor`order, supervisor.plane`held, supervisor.plane`leases,
                 supervisor.plane`trace
      ensures Held() && old(supervisor.plane.trace) <= supervisor.plane.trace
                && Steady(old(supervisor.Book()), supervisor.Book())
      ensures supervisor.peers == tx.before && supervisor.order == tx.beforeOrder
      ensures ok ==> forall k :: k in tx.transitions ==> BareAt(supervisor.Book(), k)
    {
      hide Supervisor.Sound, Supervisor.Book, Lists, HomeAt, BareAt, Steady;
      ghost var s2 := supervisor.Book();
      Affected();
      Publish(tx.before, tx.beforeOrder);
      ghost var s3 := supervisor.Book();
      forall k | k in tx.transitions
        ensures HomeAt(s3, k)
      {
        StagedAt(supervisor.plane.Routes(), s2, s2.stage, s3.peers, k);
      }
      ok := ReleaseCandidateLeases();
      SteadyTwice(s2, s3, supervisor.Book());
    }

    method Finish(state: TransactionState)
      requires supervisor.Valid() && supervisor.open == null
      modifies tx`state
      ensures supervisor.Valid() && tx.state == state && supervisor.Book() == old(supervisor.Book())
    {
      tx.state := state;
    }

    // ---------- finalizing ----------

    /** From here on the transaction cannot be undone; peers that go are no longer guarded. */
    ghost method BeginFinalizing()
      requires Held() && (tx.stage == Stage.Committed || tx.stage == Finalizing)
      modifies tx`stage, supervisor.plane`guarded, supervisor.plane`guardedSince, supervisor.plane`trace
      ensures Held() && tx.stage == Finalizing && old(supervisor.plane.trace) <= supervisor.plane.trace
      ensures supervisor.plane.guarded == tx.after.Keys
                && supervisor.plane.guardedSince == |old(supervisor.plane.trace)|
      ensures supervisor.Book() == old(supervisor.Book()).(stage := Finalizing)
    {
      hide Good, Plane.Valid, Plane.Routes, Lists, Keyed, Views, SharedOutside, CoverAll;
      var s := supervisor;
      OrderedViews();
      PublishedKeys();
      FinalizeStep(s.plane.Routes(), s.plane.leases, s.plane.guarded, s.Book(), s.peers.Keys);
      s.plane.Guard(s.peers.Keys);
      tx.stage := Finalizing;
    }

    lemma PublishedKeys()
      requires Held()
      ensures supervisor.Book().peers.Keys == supervisor.peers.Keys <= supervisor.plane.guarded
    {
      hide Plane.Valid, Plane.Routes, Lists, SharedOutside, PeersOk, Conserved, CoverAll;
    }

    method FinalizeOne(k: PublicKey) returns (ok: bool)
      requires Whole(k) && tx.stage == Finalizing
      modifies tx`transitions, supervisor.plane`trace, supervisor.plane.core
      ensures Whole(k)
      ensures old(supervisor.plane.trace) <= supervisor.plane.trace
      ensures Spares(k, old(supervisor.plane.Routes()), old(supervisor.Book()), supervisor.plane.Routes(),
                supervisor.Book())
      ensures Fixed(old(tx.transitions)[k], tx.transitions[k]) && After(k) == old(After(k))
      ensures ok ==> (tx.transitions[k].installed ==> tx.transitions[k].coreFinalized)
    {
      hide Good, Plane.Valid, Plane.Routes, Supervisor.Shape, Roster, Moving, Spares;
      ghost var plane, s0, routes0 := supervisor.plane, supervisor.Book(), supervisor.plane.Routes();
      SparesSelf(k, routes0, s0);
      if !tx.transitions[k].installed || tx.transitions[k].coreFinalized {
        return true;
      }
      ok := FinalizeCore(k);
      if ok {
        ghost var s1, routes1 := supervisor.Book(), plane.Routes();
        MarkFinalized(routes1, plane.leases, k, tx.transitions[k], Before(k), After(k), Finalizing);
        SetTransition(k, tx.transitions[k].(coreFinalized := true));
        SparesTwice(k, routes0, s0, routes1, s1, plane.Routes(), supervisor.Book());
      }
    }

    method ReleaseOldOf(k: PublicKey) returns (ok: bool)
      requires Whole(k) && tx.stage == Finalizing && (tx.transitions[k].installed ==> tx.transitions[k].coreFinalized)
      requires k !in tx.after ==> k !in supervisor.plane.guarded
      modifies supervisor`store, supervisor.plane`held, supervisor.plane`leases, supervisor.plane`trace
      ensures Whole(k)
      ensures old(supervisor.plane.trace) <= supervisor.plane.trace
      ensures Spares(k, old(supervisor.plane.Routes()), old(supervisor.Book()), supervisor.plane.Routes(),
                supervisor.Book())
      ensures After(k) == old(After(k))
      ensures ok ==> OrBlank(Before(k)).lease.None?
    {
      hide Good, Plane.Valid, Plane.Routes, Supervisor.Shape, Roster, Moving, Spares;
      ghost var plane := supervisor.plane;
      SparesSelf(k, plane.Routes(), supervisor.Book());
      States(k);
      if k in tx.before && k in tx.after && supervisor.store[tx.before[k]].lease.Some? {
        DifferentLeases(plane.Routes(), plane.leases, k, tx.transitions[k], Before(k), After(k));
      }
      if k !in tx.before || supervisor.store[tx.before[k]].lease.None? {
        return true;
      }
      if k in tx.after && supervisor.store[tx.after[k]].lease == supervisor.store[tx.before[k]].lease {
        return true;
      }
      ok := ReleaseOld(k);
    }

    /** All candidates but the chosen one. */
    method ReleaseSparesOf(k: PublicKey) returns (ok: bool)
      requires Whole(k) && tx.stage == Finalizing && (tx.transitions[k].installed ==> tx.transitions[k].coreFinalized)
      modifies tx`transitions, supervisor.plane`held, supervisor.plane`leases, supervisor.plane`trace
      ensures Whole(k)
      ensures old(supervisor.plane.trace) <= supervisor.plane.trace
      ensures Spares(k, old(supervisor.plane.Routes()), old(supervisor.Book()), supervisor.plane.Routes(),
                supervisor.Book())
      ensures Before(k) == old(Before(k)) && After(k) == old(After(k))
      ensures tx.transitions[k] == old(tx.transitions)[k].(candidates := tx.transitions[k].candidates)
      ensures ok ==> OnlyActiveLease(tx.transitions[k])
    {
      hide Good, Plane.Valid, Plane.Routes, Supervisor.Shape, Roster, Moving, Spares;
      ghost var plane, s0, routes := supervisor.plane, supervisor.Book(), supervisor.plane.Routes();
      SparesSelf(k, routes, s0);
      ok := true;
      var i := 0;
      while i < |tx.transitions[k].candidates|
        invariant Whole(k) && tx.stage == Finalizing
                    && 0 <= i <= |tx.transitions[k].candidates| == |old(tx.transitions)[k].candidates|
        invariant tx.transitions[k] == old(tx.transitions)[k].(candidates := tx.transitions[k].candidates)
        invariant Before(k) == old(Before(k)) && After(k) == old(After(k))
        invariant old(plane.trace) <= plane.trace && Spares(k, routes, s0, plane.Routes(), supervisor.Book())
        invariant ok ==> forall j :: 0 <= j < i && tx.transitions[k].activeCandidate != Some(j) ==>
                    tx.transitions[k].candidates[j].lease.None?
        decreases |old(tx.transitions)[k].candidates| - i
      {
        if tx.transitions[k].candidates[i].lease.Some? && tx.transitions[k].activeCandidate != Some(i) {
          ghost var s1 := supervisor.Book();
          var released := ReleaseSpare(k, i);
          SparesTwice(k, routes, s0, routes, s1, plane.Routes(), supervisor.Book());
          ok := ok && released;
        }
        i := i + 1;
      }
    }

    lemma FinalInBook(k: PublicKey)
      requires Apart(k)
      ensures FinalAt(supervisor.Book(), k) <==> (tx.transitions[k].installed ==> tx.transitions[k].coreFinalized)
      ensures OldReleasedAt(supervisor.Book(), k) <==> OrBlank(Before(k)).lease.None?
      ensures SpareAt(supervisor.Book(), k) <==> OnlyActiveLease(tx.transitions[k])
    {
      hide Good, Plane.Valid, Plane.Routes, Supervisor.Shape, Views;
    }

    /** Lets the core finalize every peer; goes on past failures. */
    method FinalizeAll() returns (ok: bool)
      requires Held() && tx.stage == Finalizing
      modifies tx`transitions, supervisor.plane`trace, supervisor.plane.core
      ensures Held() && old(supervisor.plane.trace) <= supervisor.plane.trace
                && Settling(old(supervisor.Book()), supervisor.Book())
      ensures ok ==> forall k :: k in tx.transitions ==> FinalAt(supervisor.Book(), k)
    {
      hide Supervisor.Sound, Supervisor.Book, Lists, Spares, FinalAt, OldReleasedAt, SpareAt, Moving, Settling, Fixed;
      ghost var plane, s0 := supervisor.plane, supervisor.Book();
      Affected();
      SettlingSelf(s0);
      ok := true;
      var i := 0;
      while i < |tx.affected|
        invariant Held() && tx.stage == Finalizing && 0 <= i <= |tx.affected| && old(plane.trace) <= plane.trace
        invariant Lists(tx.affected, tx.transitions.Keys) && Settling(s0, supervisor.Book())
        invariant ok ==> forall j :: 0 <= j < i ==> FinalAt(supervisor.Book(), tx.affected[j])
      {
        var k := tx.affected[i];
        ListedOnce(tx.affected, tx.transitions.Keys, i);
        ghost var s, routes := supervisor.Book(), plane.Routes();
        Extract(k);
        InBook(k);
        var final := FinalizeOne(k);
        FinalInBook(k);
        InBook(k);
        SettlingOne(k, routes, s0, s, plane.Routes(), supervisor.Book());
        forall j | 0 <= j < i && FinalAt(s, tx.affected[j])
          ensures FinalAt(supervisor.Book(), tx.affected[j])
        {
          SparesAt(k, tx.affected[j], routes, s, plane.Routes(), supervisor.Book());
        }
        Insert(k);
        Affected();
        ok := ok && final;
        i := i + 1;
      }
      Exposed(tx.affected, tx.transitions.Keys);
    }

    /** Releases the leases peers had before; goes on past failures. */
    method ReleaseOlds() returns (ok: bool)
      requires Held() && tx.stage == Finalizing && forall k :: k in tx.transitions ==> FinalAt(supervisor.Book(), k)
      requires supervisor.plane.guarded == tx.after.Keys
      modifies supervisor`store, supervisor.plane`held, supervisor.plane`leases, supervisor.plane`trace
      ensures Held() && old(supervisor.plane.trace) <= supervisor.plane.trace
                && Settling(old(supervisor.Book()), supervisor.Book())
      ensures forall k :: k in tx.transitions ==> FinalAt(supervisor.Book(), k)
      ensures ok ==> forall k :: k in tx.transitions ==> OldReleasedAt(supervisor.Book(), k)
    {
      hide Supervisor.Sound, Supervisor.Book, Lists, Spares, FinalAt, OldReleasedAt, SpareAt, Moving, Settling, Fixed;
      ghost var plane, s0 := supervisor.plane, supervisor.Book();
      Affected();
      SettlingSelf(s0);
      Exposed(tx.affected, tx.transitions.Keys);
      ok := true;
      var i := 0;
      while i < |tx.affected|
        invariant Held() && tx.stage == Finalizing && 0 <= i <= |tx.affected| && old(plane.trace) <= plane.trace
        invariant Lists(tx.affected, tx.transitions.Keys) && Settling(s0, supervisor.Book())
        invariant forall j :: 0 <= j < |tx.affected| ==> FinalAt(supervisor.Book(), tx.affected[j])
        invariant ok ==> forall j :: 0 <= j < i ==> OldReleasedAt(supervisor.Book(), tx.affected[j])
      {
        var k := tx.affected[i];
        ListedOnce(tx.affected, tx.transitions.Keys, i);
        ghost var s, routes := supervisor.Book(), plane.Routes();
        Extract(k);
        InBook(k);
        FinalInBook(k);
        var released := ReleaseOldOf(k);
        InBook(k);
        FinalInBook(k);
        FixedSelf(tx.transitions[k]);
        SettlingOne(k, routes, s0, s, plane.Routes(), supervisor.Book());
        forall j | 0 <= j < |tx.affected| && j != i
          ensures FinalAt(supervisor.Book(), tx.affected[j])
          ensures OldReleasedAt(s, tx.affected[j]) ==> OldReleasedAt(supervisor.Book(), tx.affected[j])
        {
          SparesDone(k, tx.affected[j], routes, s, plane.Routes(), supervisor.Book());
        }
        Insert(k);
        ok := ok && released;
        i := i + 1;
      }
      Exposed(tx.affected, tx.transitions.Keys);
    }

    /** Releases every candidate's lease but the chosen one's; goes on past failures. */
    method ReleaseSpares() returns (ok: bool)
      requires Held() && tx.stage == Finalizing && forall k :: k in tx.transitions ==> FinalAt(supervisor.Book(), k)
      modifies tx`transitions, supervisor.plane`held, supervisor.plane`leases, supervisor.plane`trace
      ensures Held() && old(supervisor.plane.trace) <= supervisor.plane.trace
                && Settling(old(supervisor.Book()), supervisor.Book())
      ensures tx.transitions.Keys == old(tx.transitions.Keys)
      ensures forall k :: k in tx.transitions && OldReleasedAt(old(supervisor.Book()), k) ==>
                OldReleasedAt(supervisor.Book(), k)
      ensures ok ==> forall k :: k in tx.transitions ==> FinalAt(supervisor.Book(), k) && SpareAt(supervisor.Book(), k)
    {
      hide Supervisor.Sound, Supervisor.Book, Lists, Spares, FinalAt, OldReleasedAt, SpareAt, Moving, Settling, Fixed;
      ghost var plane, s0 := supervisor.plane, supervisor.Book();
      Affected();
      SettlingSelf(s0);
      Exposed(tx.affected, tx.transitions.Keys);
      ok := true;
      var i := 0;
      while i < |tx.affected|
        invariant Held() && tx.stage == Finalizing && 0 <= i <= |tx.affected| && old(plane.trace) <= plane.trace
        invariant Lists(tx.affected, tx.transitions.Keys) && Settling(s0, supervisor.Book())
        invariant tx.transitions.Keys == old(tx.transitions.Keys)
        invariant forall j :: 0 <= j < |tx.affected| ==> FinalAt(supervisor.Book(), tx.affected[j])
        invariant forall j :: 0 <= j < |tx.affected| && OldReleasedAt(s0, tx.affected[j]) ==>
                    OldReleasedAt(supervisor.Book(), tx.affected[j])
        invariant ok ==> forall j :: 0 <= j < i ==> SpareAt(supervisor.Book(), tx.affected[j])
      {
        var k := tx.affected[i];
        ListedOnce(tx.affected, tx.transitions.Keys, i);
        ghost var s, routes := supervisor.Book(), plane.Routes();
        Extract(k);
        InBook(k);
        FinalInBook(k);
        var released := ReleaseSparesOf(k);
        InBook(k);
        FinalInBook(k);
        FixedCandidates(s.transitions[k], tx.transitions[k].candidates);
        SettlingOne(k, routes, s0, s, plane.Routes(), supervisor.Book());
        forall j | 0 <= j < |tx.affected| && j != i
          ensures FinalAt(supervisor.Book(), tx.affected[j])
          ensures OldReleasedAt(s, tx.affected[j]) ==> OldReleasedAt(supervisor.Book(), tx.affected[j])
          ensures SpareAt(s, tx.affected[j]) ==> SpareAt(supervisor.Book(), tx.affected[j])
        {
          SparesDone(k, tx.affected[j], routes, s, plane.Routes(), supervisor.Book());
        }
        Insert(k);
        Affected();
        ok := ok && released;
        i := i + 1;
      }
      Exposed(tx.affected, tx.transitions.Keys);
    }

    /** Releases every lease the new peer set does not need: first the old ones, then
        the spare candidates', going on past failures. */
    method ReleaseReplaced() returns (ok: bool)
      requires Held() && tx.stage == Finalizing && forall k :: k in tx.transitions ==> FinalAt(supervisor.Book(), k)
      requires supervisor.plane.guarded == tx.after.Keys
      modifies tx`transitions, supervisor`store, supervisor.plane`held, supervisor.plane`leases, supervisor.plane`trace
      ensures Held() && old(supervisor.plane.trace) <= supervisor.plane.trace
                && Settling(old(supervisor.Book()), supervisor.Book())
      ensures ok ==> forall k :: k in tx.transitions ==> DoneAt(supervisor.Book(), k)
    {
      hide Supervisor.Sound, Supervisor.Book, FinalAt, OldReleasedAt, SpareAt, Settling;
      ghost var s0 := supervisor.Book();
      var old_ := ReleaseOlds();
      ghost var s1 := supervisor.Book();
      var spares := ReleaseSpares();
      SettlingTwice(s0, s1, supervisor.Book());
      ok := old_ && spares;
    }

    lemma FinalizedReleasable()
      requires Held() && tx.stage == Finalizing && forall k :: k in tx.transitions ==> DoneAt(supervisor.Book(), k)
      ensures Releasable()
    {
      hide Good, Plane.Valid, Plane.Routes, Lists, DoneAt, Settled, NoLeases, HandedOver, SharedOutside;
      AllFinalized(supervisor.plane.Routes(), supervisor.plane.leases, supervisor.plane.guarded, supervisor.Book());
    }

    /** Completes a committed transaction; may be retried until it succeeds.  What is
        published does not change. */
    method Finalize() returns (ok: bool)
      requires supervisor.Valid()
      requires tx.state == TransactionState.Committed ==>
                 supervisor.open == tx && (tx.stage == Stage.Committed || tx.stage == Finalizing)
      modifies tx, supervisor`store, supervisor`reserved, supervisor`activePeerSet, supervisor`open,
               supervisor.plane, supervisor.plane.core
      ensures supervisor.Valid() && old(supervisor.plane.trace) <= supervisor.plane.trace
      ensures ok <==> tx.state == Finalized
      ensures old(tx.state) != TransactionState.Committed ==>
                tx.state == old(tx.state) && supervisor.Book() == old(supervisor.Book())
      ensures supervisor.Book().peers == old(supervisor.Book()).peers
      ensures Guarding(supervisor.plane.trace, |old(supervisor.plane.trace)|, supervisor.peers.Keys)
      ensures old(tx.state) == TransactionState.Committed && ok ==>
                supervisor.open == null && supervisor.peers == tx.after
      // The leases left are those of the lists and of the new peers.
      ensures AllRecorded(supervisor.plane.held.Keys, supervisor.Book())
      ensures old(tx.state) == TransactionState.Committed && !ok ==>
                tx.state == old(tx.state) && supervisor.open == tx && tx.stage == Finalizing
    {
      hide Supervisor.Sound, Supervisor.Book, FinalAt, DoneAt, Releasable, Settling, Guarding, AllRecorded;
      ghost var n := |supervisor.plane.trace|;
      supervisor.AccountsForAll();
      if tx.state != TransactionState.Committed {
        NothingRecorded(supervisor.plane.trace, supervisor.peers.Keys);
        return tx.state == Finalized;
      }
      BeginFinalizing();
      ghost var s0 := supervisor.Book();
      Alive();
      ShowsAfter();
      ok := FinalizeAll();
      ghost var s1 := supervisor.Book();
      if ok {
        ok := ReleaseReplaced();
        SettlingTwice(s0, s1, supervisor.Book());
      }
      ShowsAfter();
      SettlingPeers(s0, supervisor.Book());
      supervisor.Guarded(n, {});
      if ok {
        FinalizedReleasable();
        ReleaseReservations();
        Finish(Finalized);
      }
      supervisor.AccountsForAll();
    }

    lemma ShowsAfter()
      requires Held() && tx.stage == Finalizing
      ensures supervisor.peers == tx.after && Shown(supervisor.Book())
    {
      hide Good, Plane.Valid, Plane.Routes, Lists;
    }

    // ---------- opening ----------

    /** The transaction is as just built, and starts from what is live. */
    ghost predicate Built()
      reads supervisor, supervisor.open, supervisor.plane, supervisor.plane.core, tx
    {
      && supervisor.Valid() && supervisor.open == null && supervisor.Phase() == Live
      && tx.state == Prepared && tx.stage == Open && tx.id != "" && tx.Shape(supervisor.store, supervisor.peers)
      && Starts(supervisor.store, supervisor.plane.Routes(), supervisor.peers, tx.before, tx.after, tx.transitions)
    }

    ghost function Opened(): Books
      reads supervisor, supervisor.open, tx
    {
      var s, ks := supervisor, tx.transitions.Keys;
      s.Book().(stage := Open, transitions := tx.transitions, before := Views(s.store, tx.before, ks),
          after := Views(s.store, tx.after, ks))
    }

    lemma Openable()
      requires Built()
      ensures CoverAll(supervisor.plane.Routes(), supervisor.plane.leases,
                supervisor.plane.guarded + tx.transitions.Keys)
      ensures Good(supervisor.plane.Routes(), supervisor.plane.leases, supervisor.plane.guarded + tx.transitions.Keys,
                Opened(), {}, {})
      ensures forall k :: k in tx.transitions ==> FreshAt(Opened(), k)
    {
      hide Good, Plane.Valid, Plane.Routes, Lists, SharedOutside, CoverAll;
      ghost var s, ks := supervisor, tx.transitions.Keys;
      ghost var before, after := Views(s.store, tx.before, ks), Views(s.store, tx.after, ks);
      assert before.Keys == ks * s.peers.Keys;
      assert forall k :: k in s.Book().peers ==> s.Book().peers[k] == s.store[s.peers[k]];
      assert s.Book().peers.Keys == s.peers.Keys;
      OpenStep(s.plane.Routes(), s.plane.leases, s.plane.guarded, s.Book(), tx.transitions, before, after);
    }

    lemma BuiltFacts()
      requires Built()
      ensures supervisor.Valid() && supervisor.open == null && supervisor.Phase() == Live
      ensures tx.state == Prepared && tx.stage == Open && tx.id != "" && tx.Shape(supervisor.store, supervisor.peers)
    {
    }

    /** Reserves the affected peers for this transaction. */
    method Reserve()
      requires Built()
      modifies supervisor`activePeerSet, supervisor`reserved, supervisor`open,
               supervisor.plane`guarded, supervisor.plane`guardedSince, supervisor.plane`trace
      ensures Held() && tx.stage == Open && old(supervisor.plane.trace) <= supervisor.plane.trace
      ensures supervisor.plane.guardedSince == |old(supervisor.plane.trace)|
                && supervisor.Book().peers == old(supervisor.Book()).peers
      ensures forall k :: k in tx.transitions ==> FreshAt(supervisor.Book(), k)
    {
      hide Good, Plane.Valid, Plane.Routes, Lists, SharedOutside, CoverAll, Keyed, Views, FreshAt, Built, Guards, Fits,
          Below, Transaction.Shape, ReservedFor;
      var s := supervisor;
      ghost var next := Opened();
      Openable();
      BuiltFacts();
      s.plane.Guard(s.plane.guarded + tx.transitions.Keys);
      s.activePeerSet := tx.id;
      s.reserved := ReservedFor(tx.transitions.Keys, tx.id);
      s.open := tx;
      assert s.Book() == next;
    }

    /** Prepares the affected peers in turn; stops at the first failure. */
    method PrepareAll() returns (ok: bool)
      requires Held() && tx.stage == Open && tx.state == Prepared && forall k :: k in tx.transitions ==>
                 FreshAt(supervisor.Book(), k)
      modifies tx`transitions, tx`stage, supervisor`store, supervisor.plane`held, supervisor.plane`nextLease,
                 supervisor.plane`leases,
               supervisor.plane`trace, supervisor.plane.core
      ensures Held() && old(supervisor.plane.trace) <= supervisor.plane.trace
      ensures tx.stage == if ok then Complete else Open
      ensures Steady(old(supervisor.Book()), supervisor.Book())
    {
      hide Supervisor.Sound, Supervisor.Book, Lists, Spares, CommittableAt, FreshAt, Steady, Moving;
      ghost var plane, s0 := supervisor.plane, supervisor.Book();
      SteadySelf(s0);
      Affected();
      Exposed(tx.affected, tx.transitions.Keys);
      var i := 0;
      while i < |tx.affected|
        invariant Held() && tx.stage == Open && 0 <= i <= |tx.affected| && old(plane.trace) <= plane.trace
        invariant Lists(tx.affected, tx.transitions.Keys) && Steady(s0, supervisor.Book())
        invariant forall j :: 0 <= j < i ==> CommittableAt(plane.Routes(), supervisor.Book(), tx.affected[j])
        invariant forall j :: i <= j < |tx.affected| ==> FreshAt(supervisor.Book(), tx.affected[j])
      {
        var k := tx.affected[i];
        ListedOnce(tx.affected, tx.transitions.Keys, i);
        ghost var s, routes := supervisor.Book(), plane.Routes();
        Extract(k);
        FreshFacts(k);
        ok := PrepareOne(k);
        InBook(k);
        PreparedFacts(k);
        SteadySpares(k, routes, s, plane.Routes(), supervisor.Book());
        SteadyTwice(s0, s, supervisor.Book());
        Insert(k);
        if !ok {
          return;
        }
        forall j | 0 <= j < |tx.affected| && j != i
          ensures CommittableAt(routes, s, tx.affected[j]) ==>
                    CommittableAt(plane.Routes(), supervisor.Book(), tx.affected[j])
          ensures FreshAt(s, tx.affected[j]) ==> FreshAt(supervisor.Book(), tx.affected[j])
        {
          SparesAt(k, tx.affected[j], routes, s, plane.Routes(), supervisor.Book());
        }
        Affected();
        i := i + 1;
      }
      Exposed(tx.affected, tx.transitions.Keys);
      ghost var s1 := supervisor.Book();
      Advance(Complete);
      SteadyStage(s1, Complete);
      SteadyTwice(s0, s1, supervisor.Book());
      ok := true;
    }

    lemma FreshFacts(k: PublicKey)
      requires Whole(k) && FreshAt(supervisor.Book(), k)
      ensures Untried(tx.transitions[k]) && tx.transitions[k].candidates == [] && k in supervisor.Book().transitions
      ensures supervisor.Book().transitions[k] == tx.transitions[k]
      ensures After(k).Some? ==> Unleased(After(k).value)
      ensures Before(k).None? ==> tx.transitions[k].currentGeneration == 0
    {
      hide Good, Plane.Valid, Plane.Routes, Supervisor.Shape, Views, Moving;
    }

    lemma PreparedFacts(k: PublicKey)
      requires Apart(k)
      ensures CommittableAt(supervisor.plane.Routes(), supervisor.Book(), k) <==>
              Committable(supervisor.plane.Routes(), k, tx.transitions[k], Before(k), After(k))
    {
    }
  }

  function ReservedFor(keys: set<PublicKey>, id: string): (r: map<PublicKey, string>)
    ensures r.Keys == keys && forall k :: k in r ==> r[k] == id
  {
    map k | k in keys :: id
  }

  function Unreserved(reserved: map<PublicKey, string>, keys: seq<PublicKey>, id: string): map<PublicKey, string> {
    map k | k in reserved && !(k in keys && reserved[k] == id) :: reserved[k]
  }

  lemma AllReserved(reserved: map<PublicKey, string>, affected: seq<PublicKey>, keys: set<PublicKey>, id: string)
    requires Lists(affected, keys) && reserved.Keys == keys && forall k :: k in reserved ==> reserved[k] == id
    ensures Unreserved(reserved, affected, id) == map[]
  {
  }

  lemma SharedViews(store: Store, a: Refs, b: Refs, keys: set<PublicKey>)
    requires Keyed(store, a) && Keyed(store, b) && SharedOutside(a, b, keys)
    ensures var va, vb := Views(store, a, a.Keys), Views(store, b, b.Keys);
            && va.Keys == a.Keys && vb.Keys == b.Keys && vb.Keys - keys == va.Keys - keys
            && forall k :: k in vb && k in va && k !in keys ==> vb[k] == va[k]
  {
  }

  lemma TransitViews(store: Store, before: Refs, after: Refs, keys: set<PublicKey>)
    requires Keyed(store, before) && Keyed(store, after)
    ensures Views(store, before, keys).Keys == before.Keys * keys && Views(store, after, keys).Keys == after.Keys * keys
  {
  }

  lemma SharedBoth(a: Refs, b: Refs, c: Refs, keys: set<PublicKey>)
    requires SharedOutside(a, b, keys) && SharedOutside(a, c, keys)
    ensures SharedOutside(b, b, keys) && SharedOutside(c, c, keys) && SharedOutside(b, c, keys)
              && SharedOutside(c, b, keys)
  {
    assert forall k :: k in b && k !in keys ==> k in b.Keys - keys;
  }

  lemma ListedOnce(order: seq<PublicKey>, keys: set<PublicKey>, i: nat)
    requires Lists(order, keys) && i < |order|
    ensures order[i] in keys && forall j :: 0 <= j < |order| && j != i ==> order[j] != order[i]
  {
  }

  lemma Exposed(order: seq<PublicKey>, keys: set<PublicKey>)
    requires Lists(order, keys)
    ensures forall k :: k in keys ==> exists i :: 0 <= i < |order| && order[i] == k
    ensures forall i :: 0 <= i < |order| ==> order[i] in keys
  {
  }

  predicate OnlyDropped(was: seq<CandidateRoute>, now: seq<CandidateRoute>, i: nat) {
    |was| == |now| && forall j :: 0 <= j < |was| && j != i ==> now[j] == was[j]
  }

  datatype Verdict = Ready | TryNext | Stuck

  /** No candidate is installed, and none was chosen. */
  predicate Untried(t: Transition) {
    !t.installed && !t.restored && !t.coreFinalized && t.activeCandidate == None
  }

  lemma OtherBooks(
    k: PublicKey, routes: Routes, s: Books, peers: map<PublicKey, PeerState>, before: map<PublicKey, PeerState>,
        after: map<PublicKey, PeerState>)
    requires Others(s.peers, peers, k) && Others(s.before, before, k) && Others(s.after, after, k)
    ensures Spares(k, routes, s, routes, s.(peers := peers, before := before, after := after))
  {
  }

  /** Writing through one projection's reference, seen through another. */
  lemma WriteViews(store: Store, refs: Refs, k: PublicKey, v: PeerState, seen: Refs, keys: set<PublicKey>)
    requires Keyed(store, refs) && Keyed(store, seen) && k in refs && v.key == k
    ensures forall n: Ref :: Below(store, n) ==> Below(store[refs[k] := v], n)
    ensures var next := store[refs[k] := v];
            && Keyed(next, seen)
            && Others(Views(store, seen, keys), Views(next, seen, keys), k)
            && (k in keys && k in seen ==>
                  Lookup(Views(next, seen, keys), k) == if seen[k] == refs[k] then Some(v)
                      else Lookup(Views(store, seen, keys), k))
            && (k !in keys || k !in seen ==>
               Lookup(Views(next, seen, keys), k) == None == Lookup(Views(store, seen, keys), k))
  {
  }

  /** The two agree but for k. */
  predicate Others(a: map<PublicKey, PeerState>, b: map<PublicKey, PeerState>, k: PublicKey) {
    a.Keys == b.Keys && forall j :: j in a && j != k ==> a[j] == b[j]
  }

  // ---------- preparing a transaction ----------

  /** One configured peer; `parsed` is the outcome of parsing a non-empty endpoint. */
  datatype PeerSpec = PeerSpec(key: PublicKey, endpoint: string, parsed: Option<Parsed>)
  datatype Parsed = Parsed(dynamic: bool, port: nat)

  /** The plan names no peer twice, and every endpoint parses. */
  predicate Parses(plan: seq<PeerSpec>) {
    && (forall i :: 0 <= i < |plan| ==> plan[i].key != "" && (plan[i].endpoint != "" ==> plan[i].parsed.Some?))
    && (forall i, j :: 0 <= i < j < |plan| ==> plan[i].key != plan[j].key)
  }

  function NewState(spec: PeerSpec): PeerState {
    if spec.parsed.Some?
        then PeerState(spec.key, spec.endpoint, spec.parsed.value.dynamic, spec.parsed.value.port, None, 0, None)
    else PeerState(spec.key, spec.endpoint, false, 0, None, 0, None)
  }

  function PlanKeys(plan: seq<PeerSpec>, i: nat): set<PublicKey>
    requires i <= |plan|
  {
    set j | 0 <= j < i :: plan[j].key
  }

  /** The plan leaves this peer's endpoint as it is. */
  predicate KeepsEndpoint(peers: map<PublicKey, PeerState>, plan: seq<PeerSpec>, k: PublicKey) {
    k in peers && exists j :: 0 <= j < |plan| && plan[j].key == k && plan[j].endpoint == peers[k].endpoint
  }

  /** The peers a plan adds, removes or gives another endpoint. */
  function Affects(peers: map<PublicKey, PeerState>, plan: seq<PeerSpec>): set<PublicKey> {
    set k | k in peers.Keys + PlanKeys(plan, |plan|) && !KeepsEndpoint(peers, plan, k)
  }

  /** Exactly these peers are in transition, from what is live to what is planned. */
  ghost predicate Planned(ts: map<PublicKey, Transition>, peers: map<PublicKey, PeerState>, plan: seq<PeerSpec>) {
    && ts.Keys == Affects(peers, plan)
    && (forall k :: k in ts ==> ts[k].origin == Lookup(peers, k))
    && (forall j :: 0 <= j < |plan| && plan[j].key in ts ==> ts[plan[j].key].target == Some(NewState(plan[j])))
    && (forall k :: k in ts && k !in PlanKeys(plan, |plan|) ==> ts[k].target == None)
  }

  lemma PlannedStill(ts: map<PublicKey, Transition>, ts': map<PublicKey, Transition>, peers: map<PublicKey, PeerState>,
      plan: seq<PeerSpec>)
    requires Planned(ts, peers, plan) && Continues(ts, ts')
    ensures Planned(ts', peers, plan)
  {
  }

  ghost predicate Extends(store: Store, next: Store) {
    forall r :: r in store ==> r in next && next[r] == store[r]
  }

  /** The peer is configured with the same endpoint already. */
  predicate Unchanged(store: Store, live: Refs, spec: PeerSpec) {
    spec.key in live && live[spec.key] in store && store[live[spec.key]].endpoint == spec.endpoint
  }

  predicate Shared(live: Refs, after: Refs, k: PublicKey) {
    k in live && k in after && after[k] == live[k]
  }

  function Changed(live: Refs, after: Refs, keys: set<PublicKey>): set<PublicKey> {
    set k | k in keys && !Shared(live, after, k)
  }

  /** A peer whose endpoint stays shares the live state, any other gets its own. */
  ghost predicate PlacedAfter(was: Store, store: Store, live: Refs, after: Refs, spec: PeerSpec) {
    && spec.key in after
    && if Unchanged(was, live, spec) then after[spec.key] == live[spec.key]
       else after[spec.key] !in was && after[spec.key] in store && store[after[spec.key]] == NewState(spec)
  }

  /** The new projection, of the first i peers of the plan. */
  ghost predicate AfterSoFar(was: Store, store: Store, live: Refs, after: Refs, affected: seq<PublicKey>,
      plan: seq<PeerSpec>, i: nat) {
    && i <= |plan| && Extends(was, store) && after.Keys == PlanKeys(plan, i)
    && (forall j :: 0 <= j < i ==> PlacedAfter(was, store, live, after, plan[j]))
    && Lists(affected, Changed(live, after, after.Keys))
  }

  lemma PlacedKept(was: Store, store: Store, live: Refs, after: Refs, spec: PeerSpec, store': Store, k: PublicKey,
      ref: Ref)
    requires PlacedAfter(was, store, live, after, spec) && Extends(store, store') && spec.key != k
    ensures PlacedAfter(was, store', live, after[k := ref], spec)
  {
  }

  lemma ChangedMore(live: Refs, after: Refs, affected: seq<PublicKey>, k: PublicKey, ref: Ref)
    requires Lists(affected, Changed(live, after, after.Keys)) && k !in after
    ensures Lists(if k in live
              && ref == live[k] then affected else affected + [k], Changed(live, after[k := ref], after[k := ref].Keys))
  {
  }

  lemma NewlyPlaced(was: Store, store: Store, live: Refs, after: Refs, spec: PeerSpec, store': Store, ref: Ref)
    requires Extends(was, store) && Keyed(was, live)
    requires if Unchanged(was, live, spec) then store' == store && ref == live[spec.key]
             else ref !in store && store' == store[ref := NewState(spec)]
    ensures PlacedAfter(was, store', live, after[spec.key := ref], spec) && Extends(store, store')
              && Extends(was, store')
    ensures Unchanged(was, live, spec) <==> spec.key in live && ref == live[spec.key]
  {
  }

  lemma PlanMore(plan: seq<PeerSpec>, i: nat)
    requires i < |plan| && Parses(plan)
    ensures PlanKeys(plan, i + 1) == PlanKeys(plan, i) + {plan[i].key} && plan[i].key !in PlanKeys(plan, i)
    ensures forall j :: 0 <= j < i ==> plan[j].key != plan[i].key
  {
  }

  lemma AfterOneMore(was: Store, store: Store, live: Refs, after: Refs, affected: seq<PublicKey>, plan: seq<PeerSpec>,
      i: nat, store': Store, ref: Ref)
    requires AfterSoFar(was, store, live, after, affected, plan, i) && i < |plan| && Parses(plan) && Keyed(was, live)
    requires if Unchanged(was, live, plan[i]) then store' == store && ref == live[plan[i].key]
             else ref !in store && store' == store[ref := NewState(plan[i])]
    ensures AfterSoFar(was, store', live, after[plan[i].key := ref],
                       if Unchanged(was, live, plan[i]) then affected else affected + [plan[i].key], plan, i + 1)
  {
    hide Lists, PlacedAfter, Extends, Changed, Unchanged, NewState, Keyed;
    var k := plan[i].key;
    var now := after[k := ref];
    NewlyPlaced(was, store, live, after, plan[i], store', ref);
    PlanMore(plan, i);
    ChangedMore(live, after, affected, k, ref);
    forall j | 0 <= j < i
      ensures PlacedAfter(was, store', live, now, plan[j])
    {
      PlacedKept(was, store, live, after, plan[j], store', k, ref);
    }
  }

  method NewProjection(s: Supervisor, plan: seq<PeerSpec>) returns (after: Refs, affected: seq<PublicKey>)
    requires s.Valid() && s.open == null && Parses(plan)
    modifies s`store, s`nextRef
    ensures s.Valid() && s.Book() == old(s.Book())
    ensures AfterSoFar(old(s.store), s.store, s.peers, after, affected, plan, |plan|)
  {
    hide Supervisor.Sound, Supervisor.Book, AfterSoFar, Parses;
    after, affected := map[], [];
    LiveKeyed(s);
    AfterNone(s.store, s.peers, plan);
    var i := 0;
    while i < |plan|
      invariant 0 <= i <= |plan| && s.Valid() && s.Book() == old(s.Book())
      invariant AfterSoFar(old(s.store), s.store, s.peers, after, affected, plan, i)
    {
      var spec := plan[i];
      LiveKeyed(s);
      SameEndpoint(old(s.store), s.store, s.peers, after, affected, plan, i);
      if spec.key in s.peers && s.store[s.peers[spec.key]].endpoint == spec.endpoint {
        AfterOneMore(old(s.store), s.store, s.peers, after, affected, plan, i, s.store, s.peers[spec.key]);
        after := after[spec.key := s.peers[spec.key]];
      } else {
        ghost var store := s.store;
        var ref := s.Allocate(NewState(spec));
        AfterOneMore(old(s.store), store, s.peers, after, affected, plan, i, s.store, ref);
        after, affected := after[spec.key := ref], affected + [spec.key];
      }
      i := i + 1;
    }
  }

  lemma LiveKeyed(s: Supervisor)
    requires s.Valid()
    ensures Keyed(s.store, s.peers) && Lists(s.order, s.peers.Keys)
  {
  }

  lemma AfterNone(store: Store, live: Refs, plan: seq<PeerSpec>)
    ensures AfterSoFar(store, store, live, map[], [], plan, 0)
  {
  }

  lemma SameEndpoint(was: Store, store: Store, live: Refs, after: Refs, affected: seq<PublicKey>, plan: seq<PeerSpec>,
      i: nat)
    requires AfterSoFar(was, store, live, after, affected, plan, i) && i < |plan| && Keyed(was, live)
    ensures plan[i].key in live ==> live[plan[i].key] in store && store[live[plan[i].key]] == was[live[plan[i].key]]
  {
  }

  /** Shared where the new projection shares the live state, otherwise a copy. */
  ghost predicate PlacedBefore(was: Store, store: Store, live: Refs, after: Refs, before: Refs, k: PublicKey) {
    && k in before && k in live && live[k] in was
    && if Shared(live, after, k) then before[k] == live[k]
       else before[k] !in was && before[k] in store && store[before[k]] == was[live[k]]
  }

  function FirstKeys(order: seq<PublicKey>, i: nat): set<PublicKey>
    requires i <= |order|
  {
    set j | 0 <= j < i :: order[j]
  }

  /** The old projection, of the first i peers. */
  ghost predicate BeforeSoFar(was: Store, store: Store, live: Refs, after: Refs, before: Refs,
      affected: seq<PublicKey>, order: seq<PublicKey>, i: nat) {
    && i <= |order| && Extends(was, store) && before.Keys == FirstKeys(order, i)
    && (forall k :: k in before ==> PlacedBefore(was, store, live, after, before, k))
    && Lists(affected, Changed(live, after, after.Keys + before.Keys))
  }

  lemma CopyKept(was: Store, store: Store, live: Refs, after: Refs, before: Refs, j: PublicKey, store': Store,
      k: PublicKey, ref: Ref)
    requires PlacedBefore(was, store, live, after, before, j) && Extends(store, store') && j != k
    ensures PlacedBefore(was, store', live, after, before[k := ref], j)
  {
  }

  lemma FirstMore(order: seq<PublicKey>, keys: set<PublicKey>, i: nat)
    requires i < |order| && Lists(order, keys)
    ensures FirstKeys(order, i + 1) == FirstKeys(order, i) + {order[i]} && order[i] !in FirstKeys(order, i)
              && order[i] in keys
  {
  }

  lemma NewlyCopied(was: Store, store: Store, live: Refs, after: Refs, before: Refs, k: PublicKey, store': Store,
      ref: Ref)
    requires Extends(was, store) && Keyed(was, live) && k in live
    requires if Shared(live, after, k) then store' == store && ref == live[k]
             else ref !in store && store' == store[ref := was[live[k]]]
    ensures PlacedBefore(was, store', live, after, before[k := ref], k) && Extends(store, store')
              && Extends(was, store')
  {
  }

  lemma BeforeOneMore(
    was: Store, store: Store, live: Refs, after: Refs, before: Refs, affected: seq<PublicKey>, order: seq<PublicKey>,
        i: nat,
    store': Store, ref: Ref)
    requires BeforeSoFar(was, store, live, after, before, affected, order, i) && i < |order| && Lists(order, live.Keys)
               && Keyed(was, live)
    requires if Shared(live, after, order[i]) then store' == store && ref == live[order[i]]
             else ref !in store && store' == store[ref := was[live[order[i]]]]
    ensures BeforeSoFar(was, store', live, after, before[order[i] := ref],
                        if order[i] in after then affected else affected + [order[i]], order, i + 1)
  {
    hide Lists, PlacedBefore, Extends, Keyed;
    var k := order[i];
    var now := before[k := ref];
    FirstMore(order, live.Keys, i);
    NewlyCopied(was, store, live, after, before, k, store', ref);
    if k in after {
      assert after.Keys + now.Keys == after.Keys + before.Keys;
    } else {
      assert Changed(live, after, after.Keys + now.Keys) == Changed(live, after, after.Keys + before.Keys) + {k};
      ListsSnoc(affected, Changed(live, after, after.Keys + before.Keys), k);
    }
    forall j | j in now
      ensures PlacedBefore(was, store', live, after, now, j)
    {
      if j != k {
        CopyKept(was, store, live, after, before, j, store', k, ref);
      }
    }
  }

  method OldProjection(s: Supervisor, after: Refs, changed: seq<PublicKey>)
      returns (before: Refs, affected: seq<PublicKey>)
    requires s.Valid() && s.open == null && Lists(changed, Changed(s.peers, after, after.Keys))
    modifies s`store, s`nextRef
    ensures s.Valid() && s.Book() == old(s.Book())
    ensures BeforeSoFar(old(s.store), s.store, s.peers, after, before, affected, s.order, |s.order|)
  {
    hide Supervisor.Sound, Supervisor.Book, BeforeSoFar, Shared, Lists;
    before, affected := map[], changed;
    LiveKeyed(s);
    BeforeNone(s.store, s.peers, after, changed, s.order);
    var i := 0;
    while i < |s.order|
      invariant 0 <= i <= |s.order| && s.Valid() && s.Book() == old(s.Book())
      invariant BeforeSoFar(old(s.store), s.store, s.peers, after, before, affected, s.order, i)
    {
      var k := s.order[i];
      LiveKeyed(s);
      SameState(old(s.store), s.store, s.peers, after, before, affected, s.order, i);
      if Shared(s.peers, after, k) {
        BeforeOneMore(old(s.store), s.store, s.peers, after, before, affected, s.order, i, s.store, s.peers[k]);
        before := before[k := s.peers[k]];
      } else {
        ghost var store := s.store;
        var ref := s.Allocate(s.store[s.peers[k]]);
        BeforeOneMore(old(s.store), store, s.peers, after, before, affected, s.order, i, s.store, ref);
        before := before[k := ref];
      }
      if k !in after {
        affected := affected + [k];
      }
      i := i + 1;
    }
  }

  lemma BeforeNone(store: Store, live: Refs, after: Refs, changed: seq<PublicKey>, order: seq<PublicKey>)
    requires Lists(changed, Changed(live, after, after.Keys))
    ensures BeforeSoFar(store, store, live, after, map[], changed, order, 0)
  {
  }

  lemma SameState(was: Store, store: Store, live: Refs, after: Refs, before: Refs, affected: seq<PublicKey>,
      order: seq<PublicKey>, i: nat)
    requires BeforeSoFar(was, store, live, after, before, affected, order, i) && i < |order| && Keyed(was, live)
               && Lists(order, live.Keys)
    ensures order[i] in live && live[order[i]] in store && store[live[order[i]]] == was[live[order[i]]]
    ensures Shared(live, after, order[i]) ==> order[i] in live
  {
  }

  function At(store: Store, refs: Refs, k: PublicKey): Option<PeerState> {
    if k in refs && refs[k] in store then Some(store[refs[k]]) else None
  }

  ghost predicate Starts(store: Store, routes: Routes, live: Refs, before: Refs, after: Refs, ts: map<PublicKey,
      Transition>) {
    && before.Keys == live.Keys
    && (forall k :: k in ts && k in before && k in live && before[k] in store && live[k] in store ==>
       store[before[k]] == store[live[k]])
    && (forall k :: k in ts ==> ts[k] == NewTransition(At(store, before, k), At(store, after, k)))
    && (forall k :: k in ts && k in after && after[k] in store ==> Unleased(store[after[k]]))
    && (forall k :: k in ts && k !in live && k in routes ==> routes[k] == Route(None, 0, {}))
  }

  function StartTransitions(store: Store, before: Refs, after: Refs, ks: set<PublicKey>): map<PublicKey, Transition> {
    map k | k in ks :: NewTransition(At(store, before, k), At(store, after, k))
  }

  lemma ProjectionStarts(
    store: Store, routes: Routes, live: Refs, before: Refs, after: Refs, order: seq<PublicKey>,
        affected: seq<PublicKey>, plan: seq<PeerSpec>)
    requires WellProjected(store, live, before, after, affected, plan) && after.Keys == PlanKeys(plan, |plan|)
               && Lists(order, live.Keys)
    requires forall i :: 0 <= i < |plan| && plan[i].key !in live && plan[i].key in routes ==>
               routes[plan[i].key] == Route(None, 0, {})
    ensures var ks := Changed(live, after, after.Keys + before.Keys);
            && Fits(store, live, before, after, order, PlanOrder(plan), affected, ks)
            && Starts(store, routes, live, before, after, StartTransitions(store, before, after, ks))
            && StartTransitions(store, before, after, ks).Keys == ks
  {
  }

  function PlanOrder(plan: seq<PeerSpec>): (r: seq<PublicKey>)
    ensures |r| == |plan|
  {
    seq(|plan|, i requires 0 <= i < |plan| => plan[i].key)
  }

  /** What the two projections and the list of affected peers amount to. */
  ghost predicate WellProjected(
    store: Store, live: Refs, before: Refs, after: Refs, affected: seq<PublicKey>, plan: seq<PeerSpec>)
  {
    var ks := Changed(live, after, after.Keys + before.Keys);
    && Keyed(store, before) && Keyed(store, after) && Keyed(store, live)
    && before.Keys == live.Keys && Lists(affected, ks) && Lists(PlanOrder(plan), after.Keys)
    && SharedOutside(live, before, ks) && SharedOutside(live, after, ks)
    && (forall k :: k in ks && k in before ==> store[before[k]] == store[live[k]])
    && (forall k :: k in ks && k in before && k in after ==> before[k] != after[k])
    && (forall k :: k in ks && k in after ==> Unleased(store[after[k]]))
  }

  /** The projections differ where the plan changes something, and then as it says. */
  ghost predicate FollowsPlan(store: Store, live: Refs, after: Refs, plan: seq<PeerSpec>) {
    && Changed(live, after, after.Keys + live.Keys) == Affects(Views(store, live, live.Keys), plan)
    && forall j :: 0 <= j < |plan| && !Shared(live, after, plan[j].key) ==>
                     plan[j].key in after && after[plan[j].key] in store
                         && store[after[plan[j].key]] == NewState(plan[j])
  }

  lemma FollowsStill(store: Store, next: Store, live: Refs, after: Refs, plan: seq<PeerSpec>)
    requires FollowsPlan(store, live, after, plan) && Extends(store, next) && Keyed(store, live)
    ensures FollowsPlan(next, live, after, plan)
  {
    assert Views(next, live, live.Keys) == Views(store, live, live.Keys);
  }

  /** What the two projections share is what the plan keeps. */
  lemma ChangedIsAffected(was: Store, store: Store, live: Refs, after: Refs, affected: seq<PublicKey>,
      plan: seq<PeerSpec>)
    requires AfterSoFar(was, store, live, after, affected, plan, |plan|) && Keyed(was, live)
    ensures FollowsPlan(store, live, after, plan) && Keyed(store, live)
  {
    assert Views(store, live, live.Keys) == Views(was, live, live.Keys);
    var peers := Views(was, live, live.Keys);
    forall k | k in after.Keys + live.Keys
      ensures Shared(live, after, k) <==> KeepsEndpoint(peers, plan, k)
    {
      if Shared(live, after, k) {
        var j :| 0 <= j < |plan| && plan[j].key == k;
        assert PlacedAfter(was, store, live, after, plan[j]);
      }
    }
    forall j | 0 <= j < |plan| && !Shared(live, after, plan[j].key)
      ensures plan[j].key in after && after[plan[j].key] in store && store[after[plan[j].key]] == NewState(plan[j])
    {
      assert PlacedAfter(was, store, live, after, plan[j]);
    }
  }

  lemma Projections(
    was: Store, mid: Store, store: Store, live: Refs, before: Refs, after: Refs,
    changed: seq<PublicKey>, affected: seq<PublicKey>, plan: seq<PeerSpec>, order: seq<PublicKey>)
    requires AfterSoFar(was, mid, live, after, changed, plan, |plan|) && Parses(plan)
    requires BeforeSoFar(mid, store, live, after, before, affected, order, |order|)
    requires Keyed(was, live) && Lists(order, live.Keys)
    ensures WellProjected(store, live, before, after, affected, plan)
  {
    hide PlacedAfter, PlacedBefore, Parses, PlanOrder, Unleased;
    ListsPlan(plan, after);
    assert before.Keys == live.Keys;
    hide Lists;
    forall k | k in after
      ensures after[k] in mid && after[k] in store && store[after[k]] == mid[after[k]] && store[after[k]].key == k
      ensures !Shared(live, after, k) ==> Unleased(store[after[k]])
    {
      var j :| 0 <= j < |plan| && plan[j].key == k;
      AfterFacts(was, mid, live, after, plan[j]);
    }
    forall k | k in before
      ensures k in live && before[k] in store && live[k] in store && store[before[k]] == store[live[k]]
                && store[before[k]].key == k
      ensures Shared(live, after, k) ==> before[k] == live[k]
      ensures !Shared(live, after, k) ==> before[k] !in mid
    {
      BeforeFacts(mid, store, live, after, before, k);
    }
  }

  lemma AfterFacts(was: Store, store: Store, live: Refs, after: Refs, spec: PeerSpec)
    requires PlacedAfter(was, store, live, after, spec) && Extends(was, store) && Keyed(was, live)
    ensures after[spec.key] in store && store[after[spec.key]].key == spec.key
    ensures !Shared(live, after, spec.key) ==> Unleased(store[after[spec.key]])
  {
  }

  lemma BeforeFacts(was: Store, store: Store, live: Refs, after: Refs, before: Refs, k: PublicKey)
    requires PlacedBefore(was, store, live, after, before, k) && Extends(was, store) && k in live && live[k] in was
               && was[live[k]].key == k
    ensures before[k] in store && live[k] in store && store[before[k]] == store[live[k]] && store[before[k]].key == k
    ensures if Shared(live, after, k) then before[k] == live[k] else before[k] !in was
  {
  }

  lemma ListsPlan(plan: seq<PeerSpec>, after: Refs)
    requires Parses(plan) && after.Keys == PlanKeys(plan, |plan|)
    ensures Lists(PlanOrder(plan), after.Keys)
  {
    forall k | k in after
      ensures k in PlanOrder(plan)
    {
      var j :| 0 <= j < |plan| && plan[j].key == k;
      assert PlanOrder(plan)[j] == k;
    }
  }

  /** Starts a transaction.  When it fails after reserving peers it still returns the
      transaction, to be rolled back. */
  method PreparePeerSet(s: Supervisor, id: string, plan: seq<PeerSpec>) returns (p: PreparedPeerSet?, ok: bool)
    requires s.Valid() && s.Phase() != Starting
    requires forall i :: 0 <= i < |plan| && plan[i].key !in s.peers && plan[i].key in s.plane.Routes() ==>
                           s.plane.Routes()[plan[i].key] == Route(None, 0, {})
    modifies s, s.plane, s.plane.core
    ensures s.Valid() && old(s.plane.trace) <= s.plane.trace && s.lost == old(s.lost)
    ensures s.peers == old(s.peers) && s.order == old(s.order) && s.Phase() == old(s.Phase())
    ensures Guarding(s.plane.trace, |old(s.plane.trace)|, s.peers.Keys)
    ensures p == null <==> id == "" || !Parses(plan) || s.closed || old(s.activePeerSet) != ""
    ensures p == null ==> !ok && s.Book() == old(s.Book()) && s.open == old(s.open)
    ensures p != null ==>
              && fresh(p) && fresh(p.tx) && p.supervisor == s && p.Held() && p.tx.state == Prepared
              && p.tx.stage == (if ok then Complete else Open)
    ensures p != null ==> AsPlanned(p.tx, old(s.Book()).peers, old(s.order), plan)
    ensures p != null ==> KeepsOthers(old(s.Book()).peers, s.Book().peers, p.tx.transitions.Keys)
  {
    hide Supervisor.Sound, Supervisor.Book, WellProjected, FollowsPlan, Parses, Affects, Guarding, AsPlanned,
        KeepsOthers;
    if id == "" || !Parses(plan) || s.closed || s.activePeerSet != "" {
      NothingRecorded(s.plane.trace, s.peers.Keys);
      return null, false;
    }
    NoneOpen(s);
    var before, after, affected := Project(s, plan);
    p, ok := Launch(s, id, before, after, affected, plan);
  }

  /** The projections before and after the plan, and the peers in which they differ. */
  method Project(s: Supervisor, plan: seq<PeerSpec>) returns (before: Refs, after: Refs, affected: seq<PublicKey>)
    requires s.Valid() && s.open == null && Parses(plan)
    modifies s`store, s`nextRef
    ensures s.Valid() && s.Book() == old(s.Book())
    ensures WellProjected(s.store, s.peers, before, after, affected, plan) && after.Keys == PlanKeys(plan, |plan|)
    ensures FollowsPlan(s.store, s.peers, after, plan)
  {
    hide Supervisor.Sound, Supervisor.Book, WellProjected, FollowsPlan, Parses, Affects;
    LiveKeyed(s);
    ghost var was := s.store;
    var changed;
    after, changed := NewProjection(s, plan);
    ghost var mid := s.store;
    ChangedListed(was, mid, s.peers, after, changed, plan);
    before, affected := OldProjection(s, after, changed);
    Projections(was, mid, s.store, s.peers, before, after, changed, affected, plan, s.order);
    ChangedIsAffected(was, mid, s.peers, after, changed, plan);
    FollowsStill(mid, s.store, s.peers, after, plan);
  }

  /** The transaction is the one this plan asks for. */
  ghost predicate AsPlanned(tx: Transaction, peers: map<PublicKey, PeerState>, order: seq<PublicKey>,
      plan: seq<PeerSpec>)
    reads tx
  {
    && tx.before.Keys == peers.Keys && tx.beforeOrder == order
    && tx.after.Keys == PlanKeys(plan, |plan|) && tx.afterOrder == PlanOrder(plan)
    && Planned(tx.transitions, peers, plan)
  }

  lemma NoneOpen(s: Supervisor)
    requires s.Valid() && s.activePeerSet == ""
    ensures s.open == null
  {
  }

  lemma ChangedListed(was: Store, store: Store, live: Refs, after: Refs, changed: seq<PublicKey>, plan: seq<PeerSpec>)
    requires AfterSoFar(was, store, live, after, changed, plan, |plan|)
    ensures Lists(changed, Changed(live, after, after.Keys))
    ensures after.Keys == PlanKeys(plan, |plan|)
  {
  }

  method Launch(s: Supervisor, id: string, before: Refs, after: Refs, affected: seq<PublicKey>, plan: seq<PeerSpec>)
    returns (p: PreparedPeerSet, ok: bool)
    requires s.Valid() && s.open == null && s.Phase() == Live && id != ""
    requires WellProjected(s.store, s.peers, before, after, affected, plan) && after.Keys == PlanKeys(plan, |plan|)
    requires FollowsPlan(s.store, s.peers, after, plan)
    requires forall i :: 0 <= i < |plan| && plan[i].key !in s.peers && plan[i].key in s.plane.Routes() ==>
                           s.plane.Routes()[plan[i].key] == Route(None, 0, {})
    modifies s, s.plane, s.plane.core
    ensures s.Valid() && old(s.plane.trace) <= s.plane.trace && s.lost == old(s.lost)
    ensures s.peers == old(s.peers) && s.order == old(s.order) && s.Phase() == old(s.Phase())
    ensures Guarding(s.plane.trace, |old(s.plane.trace)|, s.peers.Keys)
    ensures fresh(p) && fresh(p.tx) && p.supervisor == s && p.Held() && p.tx.state == Prepared
    ensures p.tx.stage == (if ok then Complete else Open)
    ensures AsPlanned(p.tx, old(s.Book()).peers, old(s.order), plan)
    ensures KeepsOthers(old(s.Book()).peers, s.Book().peers, p.tx.transitions.Keys)
  {
    hide Supervisor.Sound, Supervisor.Book, WellProjected, FollowsPlan, FreshAt, Steady, PreparedPeerSet.Built,
        Planned, Guarding, KeepsOthers, Continues;
    ghost var n, peers := |s.plane.trace|, s.Book().peers;
    p := Assemble(s, id, before, after, affected, plan);
    p.BuiltFacts();
    p.Reserve();
    p.Affected();
    ghost var s1, ts := s.Book(), p.tx.transitions;
    ok := p.PrepareAll();
    p.Affected();
    Kept(s1, s.Book());
    PlannedStill(ts, p.tx.transitions, peers, plan);
    s.Guarded(n, {});
  }

  method Assemble(s: Supervisor, id: string, before: Refs, after: Refs, affected: seq<PublicKey>, plan: seq<PeerSpec>)
    returns (p: PreparedPeerSet)
    requires s.Valid() && s.open == null && s.Phase() == Live && id != ""
    requires WellProjected(s.store, s.peers, before, after, affected, plan) && after.Keys == PlanKeys(plan, |plan|)
    requires FollowsPlan(s.store, s.peers, after, plan)
    requires forall i :: 0 <= i < |plan| && plan[i].key !in s.peers && plan[i].key in s.plane.Routes() ==>
                           s.plane.Routes()[plan[i].key] == Route(None, 0, {})
    ensures fresh(p) && fresh(p.tx) && p.supervisor == s && p.Built() && AsPlanned(p.tx, s.Book().peers, s.order, plan)
  {
    hide Supervisor.Sound, Supervisor.Book, Plane.Routes, Lists, WellProjected, FollowsPlan, Fits, Starts,
        StartTransitions, Planned;
    LiveKeyed(s);
    LivePeers(s);
    ProjectionStarts(s.store, s.plane.Routes(), s.peers, before, after, s.order, affected, plan);
    ProjectionPlanned(s.store, s.peers, before, after, affected, plan);
    var ks := Changed(s.peers, after, after.Keys + before.Keys);
    var tx := new Transaction(id, before, after, s.order, PlanOrder(plan), affected,
        StartTransitions(s.store, before, after, ks));
    p := new PreparedPeerSet(s, tx);
  }

  lemma LivePeers(s: Supervisor)
    requires s.Valid()
    ensures s.Book().peers == Views(s.store, s.peers, s.peers.Keys) && s.Book().peers.Keys == s.peers.Keys
  {
    hide Good, Plane.Valid, Lists;
  }

  lemma ProjectionPlanned(store: Store, live: Refs, before: Refs, after: Refs, affected: seq<PublicKey>,
      plan: seq<PeerSpec>)
    requires WellProjected(store, live, before, after, affected, plan) && after.Keys == PlanKeys(plan, |plan|)
    requires FollowsPlan(store, live, after, plan)
    ensures var ks := Changed(live, after, after.Keys + before.Keys);
            Planned(StartTransitions(store, before, after, ks), Views(store, live, live.Keys), plan)
    ensures before.Keys == live.Keys
  {
    hide Lists, SharedOutside, Affects;
  }
}
