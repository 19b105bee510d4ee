/** The supervisor: per-peer endpoint states, the leases it answers for, and the
    migration of one peer to another address. */
module EndpointSupervisor {
  import opened Wrappers
  import opened FecLeases
  import opened CoreInstance
  import opened EndpointProtocol
  import opened EndpointPlane

  const MAX_PENDING_MIGRATION_LEASES: nat := 64

  datatype SwitchResult = Switched | CleanupPending | Failed

  /** A reference to a peer state.  Projections of the peer set hold references, so
      two of them can share one state; updating it is seen through both. */
  type Ref = nat
  type Store = map<Ref, PeerState>
  type Refs = map<PublicKey, Ref>

  function Views(store: Store, refs: Refs, keys: set<PublicKey>): map<PublicKey, PeerState> {
    map k | k in refs && k in keys && refs[k] in store :: store[refs[k]]
  }

  predicate Keyed(store: Store, refs: Refs) {
    forall k :: k in refs ==> refs[k] in store && store[refs[k]].key == k
  }

  predicate Below(store: Store, next: Ref) {
    forall r :: r in store ==> r < next
  }

  /** Updating one peer's state changes one view, wherever that peer is listed. */
  lemma OneView(store: Store, refs: Refs, ref: Ref, v: PeerState)
    requires Keyed(store, refs) && ref in store && v.key == store[ref].key && v.key in refs && refs[v.key] == ref
    ensures Views(store[ref := v], refs, refs.Keys) == Views(store, refs, refs.Keys)[v.key := v]
    ensures Keyed(store[ref := v], refs)
  {
  }

  lemma OtherViews(store: Store, refs: Refs, keys: set<PublicKey>, ref: Ref, v: PeerState)
    requires Keyed(store, refs) && (ref in store ==> store[ref].key !in keys && v.key == store[ref].key)
    ensures Views(store[ref := v], refs, keys) == Views(store, refs, keys)
    ensures Keyed(store[ref := v], refs)
  {
  }

  datatype TransactionState = Prepared | Committed | RolledBack | Finalized

  /** A prepared change of the peer set.  Peers it does not affect keep one and the
      same live state object in both projections. */
  class Transaction {
    const id: string
    const before: Refs
    const after: Refs
    const beforeOrder: seq<PublicKey>
    const afterOrder: seq<PublicKey>
    const affected: seq<PublicKey>
    var transitions: map<PublicKey, Transition>
    var state: TransactionState
    ghost var stage: Stage

    constructor (
      id: string, before: Refs, after: Refs, beforeOrder: seq<PublicKey>, afterOrder: seq<PublicKey>,
      affected: seq<PublicKey>, transitions: map<PublicKey, Transition>)
      ensures this.id == id && this.before == before && this.after == after
      ensures this.beforeOrder == beforeOrder && this.afterOrder == afterOrder && this.affected == affected
      ensures this.transitions == transitions && state == Prepared && stage == Open
    {
      this.id, this.before, this.after := id, before, after;
      this.beforeOrder, this.afterOrder, this.affected := beforeOrder, afterOrder, affected;
      this.transitions, state, stage := transitions, Prepared, Open;
    }

    ghost predicate Shape(store: Store, peers: Refs)
      reads this
    {
      && Fits(store, peers, before, after, beforeOrder, afterOrder, affected, transitions.Keys)
      && (stage == Stage.Committed || stage == Finalizing ==> state == TransactionState.Committed && peers == after)
      && (stage == Complete ==> state == Prepared) && state != RolledBack && state != Finalized
    }
  }

  /** The two projections differ from each other, and from what is live, in the
      affected peers only. */
  predicate Fits(
    store: Store, peers: Refs, before: Refs, after: Refs, beforeOrder: seq<PublicKey>, afterOrder: seq<PublicKey>,
    affected: seq<PublicKey>, keys: set<PublicKey>)
  {
    && Keyed(store, before) && Keyed(store, after)
    && Lists(beforeOrder, before.Keys) && Lists(afterOrder, after.Keys) && Lists(affected, keys)
    && keys <= before.Keys + after.Keys
    && (forall k :: k in keys && k in before && k in after ==> before[k] != after[k])
    && SharedOutside(peers, before, keys) && SharedOutside(peers, after, keys)
  }

  predicate SharedOutside(a: Refs, b: Refs, keys: set<PublicKey>) {
    && a.Keys - keys == b.Keys - keys
    && forall k :: k in a && k in b && k !in keys ==> a[k] == b[k]
  }

  lemma AllocatedViews(store: Store, refs: Refs, ref: Ref, v: PeerState)
    requires Keyed(store, refs) && ref !in store
    ensures Keyed(store[ref := v], refs) && Views(store[ref := v], refs, refs.Keys) == Views(store, refs, refs.Keys)
  {
  }

  /** The leases the listed peers hold. */
  function HeldLeases(peers: map<PublicKey, PeerState>, keys: seq<PublicKey>): set<LeaseId> {
    set i | 0 <= i < |keys| && keys[i] in peers && peers[keys[i]].lease.Some? :: peers[keys[i]].lease.value
  }

  lemma HeldNone(peers: map<PublicKey, PeerState>, keys: seq<PublicKey>)
    ensures HeldLeases(peers, keys[..0]) == {}
  {
  }

  lemma HeldOneMore(peers: map<PublicKey, PeerState>, keys: seq<PublicKey>, i: nat)
    requires i < |keys| && keys[i] in peers
    ensures HeldLeases(peers, keys[..i + 1]) == HeldLeases(peers, keys[..i]) + Overwritten(peers[keys[i]])
  {
  }

  lemma HeldPrefix(peers: map<PublicKey, PeerState>, keys: seq<PublicKey>, i: nat)
    requires i <= |keys|
    ensures HeldLeases(peers, keys[..i]) <= HeldLeases(peers, keys)
  {
  }

  /** Two peers; the first call installs a, fails for b and cannot release a's lease;
      the second installs a again, and nobody can release lease 0 any more. */
  lemma LostLease(a: PublicKey, b: PublicKey, e: Endpoint)
    requires a != b
    ensures var blank := PeerState(a, "a", false, e.port, None, 0, None);
            var start := Books(Starting, map[a := blank, b := blank.(key := b)], [], [], {}, Open, map[], map[], map[]);
            var held := blank.(active := Some(e), generation := 1, lease := Some(0));
            var failed := start.(peers := start.peers[a := held]);
            var again := start.(peers := start.peers[a := held.(lease := Some(1))], lost := {0});
            var idle := map[a := Route(None, 0, {}), b := Route(None, 0, {})];
            var used := idle[a := Route(Some(e), 1, {e})];
            var ls := map[0 := Tag(e.addr, Current(a))];
            var ls' := map[0 := Tag(e.addr, Lost), 1 := Tag(e.addr, Current(a))];
            && Good(idle, map[], {}, start, {}, {})
            // one installation, as InstallAt makes it
            && FirstLeases(map[], a, blank, 0, e) == ls && failed.lost == start.lost + Overwritten(blank)
            && Good(used, ls, {}, failed, {}, {}) && HeldLeases(failed.peers, [a, b]) == {0}
            // and one more
            && FirstLeases(ls, a, held, 1, e) == ls' && again.lost == failed.lost + Overwritten(held)
            && Good(used, ls', {}, again, {}, {}) && !Recorded(again, 0)
  {
    hide Good;
    var blank := PeerState(a, "a", false, e.port, None, 0, None);
    var start := Books(Starting, map[a := blank, b := blank.(key := b)], [], [], {}, Open, map[], map[], map[]);
    var held := blank.(active := Some(e), generation := 1, lease := Some(0));
    var failed := start.(peers := start.peers[a := held]);
    var again := start.(peers := start.peers[a := held.(lease := Some(1))], lost := {0});
    var idle := map[a := Route(None, 0, {}), b := Route(None, 0, {})];
    var used := idle[a := Route(Some(e), 1, {e})];
    var ls := map[0 := Tag(e.addr, Current(a))];
    NothingYet(idle, start);
    StartStep(idle, map[], start, a, 0, e, used);
    assert start.lost + Overwritten(blank) == {} && {} + {e} == {e};
    assert FirstLeases(map[], a, blank, 0, e) == ls;
    StartStep(used, ls, failed, a, 1, e, used);
    assert failed.peers[a := held.(lease := Some(1))] == again.peers && failed.lost + Overwritten(held) == {0};
    assert FirstLeases(ls, a, held, 1, e) == map[0 := Tag(e.addr, Lost), 1 := Tag(e.addr, Current(a))];
    assert failed.peers[[a, b][0]] == held && failed.peers[[a, b][1]].lease == None;
  }

  /** The first i peers have their first lease, if they need one; the others are untouched. */
  ghost predicate Progress(was: map<PublicKey, PeerState>, now: map<PublicKey, PeerState>, order: seq<PublicKey>,
      i: nat) {
    && was.Keys == now.Keys && Lists(order, now.Keys) && i <= |order|
    && (forall j :: i <= j < |order| ==> now[order[j]] == was[order[j]])
    && (forall j :: 0 <= j < i ==> now[order[j]].endpoint == "" || now[order[j]].lease.Some?)
  }

  lemma ProgressNone(peers: map<PublicKey, PeerState>, order: seq<PublicKey>)
    requires Lists(order, peers.Keys)
    ensures Progress(peers, peers, order, 0)
  {
  }

  lemma ProgressMore(was: map<PublicKey, PeerState>, now: map<PublicKey, PeerState>, order: seq<PublicKey>, i: nat)
    requires Progress(was, now, order, i) && i < |order|
    ensures order[i] in now && order[i] in was && now[order[i]] == was[order[i]]
    ensures forall v: PeerState :: v.endpoint == "" || v.lease.Some? ==> Progress(was, now[order[i] := v], order, i + 1)
  {
  }

  lemma ProgressDone(was: map<PublicKey, PeerState>, now: map<PublicKey, PeerState>, order: seq<PublicKey>)
    requires Progress(was, now, order, |order|)
    ensures forall k :: k in now ==> now[k].endpoint == "" || now[k].lease.Some?
  {
  }

  /** The books but for the two lists. */
  ghost function Roster(store: Store, peers: Refs, phase: Phase, open: Transaction?): Books
    reads open
  {
    if open == null then
      Books(phase, Views(store, peers, peers.Keys), [], [], {}, Open, map[], map[], map[])
    else
      var ks := open.transitions.Keys;
      Books(phase, Views(store, peers, peers.Keys), [], [], {}, open.stage, open.transitions,
            Views(store, open.before, ks), Views(store, open.after, ks))
  }

  class Supervisor {
    const plane: Plane
    var store: Store
    var nextRef: Ref
    var peers: Refs
    var order: seq<PublicKey>
    var retiredLeases: seq<LeaseId>
    var extraLeases: seq<LeaseId>
    var reserved: map<PublicKey, string>
    var activePeerSet: string
    var initialized: bool
    var closed: bool
    ghost var open: Transaction?
    ghost var lost: set<LeaseId>      // overwritten in a peer state while unreleased

    ghost function Phase(): Phase
      reads this`closed, this`initialized
    {
      if closed then Closed else if initialized then Live else Starting
    }

    ghost function Book(): Books
      reads this, open
    {
      Roster(store, peers, Phase(), open).(retired := retiredLeases, extra := extraLeases, lost := lost)
    }

    ghost predicate Shape()
      reads this`store, this`nextRef, this`peers, this`order, this`reserved, this`activePeerSet, this`open,
          this`closed, this`initialized, open
    {
      && Keyed(store, peers) && Lists(order, peers.Keys) && Below(store, nextRef)
      && if open == null then reserved == map[] && activePeerSet == ""
         else && Phase() == Live && activePeerSet == open.id && open.id != ""
              && reserved.Keys == open.transitions.Keys && (forall k :: k in reserved ==> reserved[k] == open.id)
              && open.Shape(store, peers)
    }

    ghost predicate Sound(hand: set<LeaseId>, but: set<PublicKey>)
      reads this, plane, plane.core, open
    {
      && plane.Valid() && Shape()
      && Good(plane.Routes(), plane.leases, plane.guarded, Book(), hand, but)
    }

    ghost predicate Valid()
      reads this, plane, plane.core, open
    {
      Sound({}, {})
    }

    constructor (plane: Plane, store: Store, nextRef: Ref, peers: Refs, order: seq<PublicKey>)
      requires plane.Valid() && plane.leases == map[] && plane.guarded == {}
      requires Keyed(store, peers) && Lists(order, peers.Keys) && Below(store, nextRef)
      requires forall k :: k in peers ==> Unleased(store[peers[k]])
      requires forall k :: k in peers && k in plane.Routes() ==> plane.Routes()[k] == Route(None, 0, {})
      ensures Valid() && this.plane == plane && this.store == store && this.peers == peers && Phase() == Starting
    {
      this.plane, this.store, this.nextRef, this.peers, this.order := plane, store, nextRef, peers, order;
      retiredLeases, extraLeases, reserved, activePeerSet := [], [], map[], "";
      initialized, closed, open, lost := false, false, null, {};
      new;
      hide Plane.Valid, Lists, Good;
      NothingYet(plane.Routes(), Book());
    }

    function Backlog(): nat
      reads this
    {
      |retiredLeases| + |extraLeases|
    }

    /** Gives back a lease nothing uses any more, or remembers that it must be. */
    method RetireLease(l: LeaseId) returns (ok: bool)
      requires Sound({l}, {})
      modifies this`retiredLeases, plane`held, plane`leases, plane`trace
      ensures Sound({}, {})
      ensures old(plane.trace) <= plane.trace
      ensures ok ==> plane.leases == old(plane.leases) - {l} && retiredLeases == old(retiredLeases)
      ensures !ok ==> plane.leases == old(plane.leases) && retiredLeases == old(retiredLeases) + [l]
    {
      hide Good, Plane.Valid, Plane.Routes, Roster, Shape, CoverAll, Settled, Trying, Adopted, Covered, Proof,
          SameAddresses;
      ghost var s := Book();
      DropInHand(plane.Routes(), plane.leases, plane.guarded, s, l);
      ok := plane.ReleaseLease(l);
      if !ok {
        retiredLeases := retiredLeases + [l];
      }
    }

    /** A lease just acquired turned out to be of no use. */
    method RetireNew(l: LeaseId, ghost next: Leases)
      requires plane.Valid() && Shape() && SameAddresses(plane.leases, next)
                 && CoverAll(plane.Routes(), next, plane.guarded)
      requires Good(plane.Routes(), next, plane.guarded, Book(), {l}, {})
      modifies this`retiredLeases, plane`held, plane`leases, plane`trace
      ensures Sound({}, {}) && old(plane.trace) <= plane.trace
      ensures |old(retiredLeases)| <= |retiredLeases| <= |old(retiredLeases)| + 1
    {
      hide Good, Plane.Valid, Plane.Routes, Roster, Shape, CoverAll, SameAddresses;
      plane.Retag(next);
      var _ := RetireLease(l);
    }

    /** Tries again to release every retired lease; keeps, in order, those that fail. */
    method ReleaseRetired() returns (ok: bool)
      requires Valid()
      modifies this`retiredLeases, plane`held, plane`leases, plane`trace
      ensures Valid() && old(plane.trace) <= plane.trace && plane.guarded == old(plane.guarded)
      ensures ok ==> retiredLeases == []
      ensures |retiredLeases| <= |old(retiredLeases)| && Shrunk(old(plane.leases), plane.leases)
      ensures Book().peers == old(Book().peers)
    {
      hide Good, Plane.Valid, Plane.Routes, Roster, Shape, CoverAll, Shrunk;
      ShrunkSame(plane.leases);
      var pending, failed, i := retiredLeases, [], 0;
      ghost var s := Book();
      assert [] + pending[0..] == pending;
      while i < |pending|
        invariant 0 <= i <= |pending| && |failed| <= i
        invariant plane.Valid() && old(plane.trace) <= plane.trace && plane.guarded == old(plane.guarded)
        invariant Good(plane.Routes(), plane.leases, plane.guarded, s.(retired := failed + pending[i..]), {}, {})
        invariant Shrunk(old(plane.leases), plane.leases)
      {
        var l := pending[i];
        assert failed + pending[i..] == failed + [l] + pending[i + 1..];
        assert failed + [l] + pending[i + 1..] == (failed + [l]) + pending[i + 1..];
        TakeInHand(plane.Routes(), plane.leases, plane.guarded, s.(retired := failed + pending[i..]), failed, l,
            pending[i + 1..]);
        DropInHand(plane.Routes(), plane.leases, plane.guarded, s.(retired := failed + pending[i + 1..]), l);
        ShrunkMore(old(plane.leases), plane.leases, l);
        var released := plane.ReleaseLease(l);
        if !released {
          failed := failed + [l];
        }
        i := i + 1;
      }
      assert failed + pending[i..] == failed;
      retiredLeases := failed;
      ok := failed == [];
    }

    // ---------- one migration ----------

    /** The core has k at `at` under `generation`, and k's books do not say so yet;
        the candidate lease l covers e. */
    ghost predicate Trial(k: PublicKey, l: LeaseId, e: Endpoint, at: Option<Endpoint>, generation: nat)
      reads this, plane, plane.core, open
    {
      && Sound({}, {k}) && Phase() == Live && k in peers && k !in reserved && peers[k] in store
      && Trying(plane.Routes(), plane.leases, k, store[peers[k]], l, e)
      && plane.Routes()[k].selected == at && plane.Routes()[k].generation == generation
    }

    method SwitchPeer(k: PublicKey, address: nat) returns (r: SwitchResult)
      requires Valid() && Phase() == Live && k in peers && k !in reserved
      modifies this`retiredLeases, this`extraLeases, this`store, plane`held, plane`nextLease, plane`leases,
               plane`trace, plane.core
      ensures Valid() && old(plane.trace) <= plane.trace
      ensures Backlog() <= if old(Backlog()) < MAX_PENDING_MIGRATION_LEASES then old(Backlog()) + 1 else old(Backlog())
      ensures r == CleanupPending <==> old(Backlog()) >= MAX_PENDING_MIGRATION_LEASES
      ensures peers[k] in store && store == old(store)[peers[k] := store[peers[k]]]
      ensures r == Switched ==>
                && peers[k] in store && store[peers[k]].active == Some(Endpoint(address, store[peers[k]].port))
                && k in plane.core.peers
                && Proof(k, Endpoint(address, store[peers[k]].port), plane.core.peers[k].activation,
                   plane.core.ingress, plane.core.authenticated)
    {
      hide Good, Plane.Valid, Plane.Routes, Roster, Shape, CoverAll, Settled, Trying, Adopted, Covered, Proof,
          SameAddresses;
      BookPeers(k);
      if Backlog() >= MAX_PENDING_MIGRATION_LEASES {
        return CleanupPending;
      }
      SetAside(plane.Routes(), plane.leases, plane.guarded, Book(), k);
      var e := Endpoint(address, store[peers[k]].port);
      var generation := store[peers[k]].generation + 1;
      var acquired := Try(k, e, generation);
      if acquired.None? {
        return SwitchResult.Failed;
      }
      var l := acquired.value;
      var ready := plane.WaitPeerReady(k, e, generation);
      if ready {
        var ok := Adopt(k, l, e, generation);
        return if ok then Switched else SwitchResult.Failed;
      }
      Abandon(k, l, e, generation);
      r := SwitchResult.Failed;
    }

    /** Acquires a route to e and moves the core there. */
    method Try(k: PublicKey, e: Endpoint, generation: nat) returns (r: Option<LeaseId>)
      requires Valid() && Phase() == Live && k in peers && k !in reserved && peers[k] in store
      requires generation == store[peers[k]].generation + 1
      modifies this`retiredLeases, plane`held, plane`nextLease, plane`leases,
               plane`trace, plane.core
      ensures old(plane.trace) <= plane.trace && old(Backlog()) <= Backlog() <= old(Backlog()) + 1
      ensures r.None? ==> Valid()
      ensures r.Some? ==> Trial(k, r.value, e, Some(e), generation) && Backlog() == old(Backlog())
    {
      hide Good, Plane.Valid, Plane.Routes, Roster, Shape, CoverAll, Settled, Trying, Adopted, Covered, Proof,
          SameAddresses;
      ghost var s, routes, ls := Book(), plane.Routes(), plane.leases;
      BookPeers(k);
      SetAside(routes, ls, plane.guarded, s, k);
      var acquired := plane.AcquireEndpointRoute(e.addr, Candidate(k, 0));
      if acquired.None? {
        return None;
      }
      var l := acquired.value;
      AcquireStep(routes, ls, plane.guarded, s, k, l, e.addr);
      CandidateCovers(plane.leases, k, l, e);
      var installed := plane.SetPeerEndpoint(k, e, generation);
      if !installed {
        RefusedStep(routes, ls, plane.guarded, s, k, l, e.addr);
        RetireNew(l, ls[l := Tag(e.addr, Unused)]);
        return None;
      }
      StartTrying(routes, ls, k, s.peers[k], l, e, generation);
      plane.CoverNow();
      CoreStep(routes, plane.leases, plane.guarded, s, k, plane.Routes());
      r := Some(l);
    }

    /** The new endpoint is authenticated: let go of the old one as far as the core
        lets go of it. */
    method Adopt(k: PublicKey, l: LeaseId, e: Endpoint, generation: nat) returns (ok: bool)
      requires Trial(k, l, e, Some(e), generation)
      requires k in plane.core.peers
      requires Proof(k, e, plane.core.peers[k].activation, plane.core.ingress, plane.core.authenticated)
      modifies this`retiredLeases, this`extraLeases, this`store, plane`held, plane`nextLease, plane`leases,
               plane`trace, plane.core
      ensures Valid() && old(plane.trace) <= plane.trace
      ensures old(Backlog()) <= Backlog() <= old(Backlog()) + 1
      ensures store == old(store)[peers[k] :=
                old(store)[peers[k]].(active := Some(e), generation := generation, lease := Some(l))]
      ensures k in plane.core.peers
                && Proof(k, e, plane.core.peers[k].activation, plane.core.ingress, plane.core.authenticated)
    {
      hide Good, Plane.Valid, Plane.Routes, Roster, Shape, CoverAll, Settled, Trying, Adopted, Covered, Proof,
          SameAddresses;
      ghost var s, routes, ls := Book(), plane.Routes(), plane.leases;
      BookPeers(k);
      FinalizedTrial(routes, ls, k, s.peers[k], l, e);
      ok := plane.FinalizePeerEndpoint(k, generation);
      if !ok {
        Retain(k, l, e, generation);
        return;
      }
      plane.CoverNow();
      CoreStep(routes, ls, plane.guarded, s, k, plane.Routes());
      AdoptStep(plane.Routes(), ls, plane.guarded, s, k, l, e, Unused);
      var state := store[peers[k]];
      plane.Retag(Adopted(ls, k, state, l, e, Unused));
      Publish(k, state.(active := Some(e), generation := generation, lease := Some(l)));
      if state.lease.Some? {
        var _ := RetireLease(state.lease.value);
      }
    }

    /** The core may still use both endpoints: keep both leases, follow the core. */
    method Retain(k: PublicKey, l: LeaseId, e: Endpoint, generation: nat)
      requires Trial(k, l, e, Some(e), generation)
      modifies this`extraLeases, this`store, plane`leases
      ensures Valid()
      ensures store == old(store)[peers[k] :=
                old(store)[peers[k]].(active := Some(e), generation := generation, lease := Some(l))]
      ensures old(Backlog()) <= Backlog() <= old(Backlog()) + 1
    {
      hide Good, Plane.Valid, Plane.Routes, Roster, Shape, CoverAll, Settled, Trying, Adopted, Covered, Proof,
          SameAddresses;
      ghost var s, ls := Book(), plane.leases;
      BookPeers(k);
      AdoptStep(plane.Routes(), ls, plane.guarded, s, k, l, e, Extra);
      var state := store[peers[k]];
      plane.Retag(Adopted(ls, k, state, l, e, Extra));
      if state.lease.Some? {
        extraLeases := extraLeases + [state.lease.value];
      }
      Publish(k, state.(active := Some(e), generation := generation, lease := Some(l)));
    }

    /** The new endpoint never authenticated: move the core back, if it will go. */
    method Abandon(k: PublicKey, l: LeaseId, e: Endpoint, generation: nat)
      requires Trial(k, l, e, Some(e), generation)
      modifies this`retiredLeases, this`extraLeases, this`store, plane`held, plane`nextLease, plane`leases,
               plane`trace, plane.core
      ensures Valid() && old(plane.trace) <= plane.trace
      ensures peers[k] in store && store == old(store)[peers[k] := store[peers[k]]]
      ensures old(Backlog()) <= Backlog() <= old(Backlog()) + 1
    {
      hide Good, Plane.Valid, Plane.Routes, Roster, Shape, CoverAll, Settled, Trying, Adopted, Covered, Proof,
          SameAddresses;
      ghost var s, routes, ls := Book(), plane.Routes(), plane.leases;
      BookPeers(k);
      var state := store[peers[k]];
      // An invalid endpoint is refused by the core without effect.
      var restored := false;
      if state.active.Some? {
        LeaseCovers(routes, ls, k, state, l, e);
        ReturnTrying(routes, ls, k, state, l, e, generation + 1);
        restored := plane.SetPeerEndpoint(k, state.active.value, generation + 1);
      }
      if !restored {
        Retain(k, l, e, generation);
        return;
      }
      plane.CoverNow();
      CoreStep(routes, ls, plane.guarded, s, k, plane.Routes());
      Returned(k, l, e, generation + 1);
    }

    /** The core is back at the old endpoint under a fresh generation. */
    method Returned(k: PublicKey, l: LeaseId, e: Endpoint, generation: nat)
      requires k in peers && peers[k] in store && store[peers[k]].active.Some?
      requires Trial(k, l, e, store[peers[k]].active, generation)
      modifies this`retiredLeases, this`extraLeases, this`store, plane`held, plane`nextLease, plane`leases,
               plane`trace, plane.core
      ensures Valid() && old(plane.trace) <= plane.trace
      ensures old(Backlog()) <= Backlog() <= old(Backlog()) + 1
      ensures store == old(store)[peers[k] := old(store)[peers[k]].(generation := generation)]
    {
      hide Good, Plane.Valid, Plane.Routes, Roster, Shape, CoverAll, Settled, Trying, Adopted, Covered, Proof,
          SameAddresses;
      ghost var s, routes, ls := Book(), plane.Routes(), plane.leases;
      BookPeers(k);
      var state := store[peers[k]];
      FinalizedTrial(routes, ls, k, state, l, e);
      var finalized := plane.FinalizePeerEndpoint(k, generation);
      if !finalized {
        KeepTried(k, l, e, generation);
        return;
      }
      plane.CoverNow();
      CoreStep(routes, ls, plane.guarded, s, k, plane.Routes());
      AbandonStep(plane.Routes(), ls, plane.guarded, s, k, l, e, Unused);
      Publish(k, state.(generation := generation));
      RetireNew(l, ls[l := Tag(e.addr, Unused)]);
    }

    /** The core may still use the endpoint that was tried: keep its lease. */
    method KeepTried(k: PublicKey, l: LeaseId, e: Endpoint, generation: nat)
      requires k in peers && peers[k] in store && store[peers[k]].active.Some?
      requires Trial(k, l, e, store[peers[k]].active, generation)
      modifies this`extraLeases, this`store, plane`leases
      ensures Valid() && Backlog() == old(Backlog()) + 1
      ensures store == old(store)[peers[k] := old(store)[peers[k]].(generation := generation)]
    {
      hide Good, Plane.Valid, Plane.Routes, Roster, Shape, CoverAll, Settled, Trying, Adopted, Covered, Proof,
          SameAddresses;
      ghost var ls := plane.leases;
      BookPeers(k);
      AbandonStep(plane.Routes(), ls, plane.guarded, Book(), k, l, e, Extra);
      plane.Retag(ls[l := Tag(e.addr, Extra)]);
      Publish(k, store[peers[k]].(generation := generation));
      extraLeases := extraLeases + [l];
    }

    /** A new peer state that no projection refers to yet. */
    method Allocate(v: PeerState) returns (ref: Ref)
      requires Valid() && open == null
      modifies this`store, this`nextRef
      ensures Valid() && Book() == old(Book())
      ensures ref !in old(store) && store == old(store)[ref := v]
    {
      hide Good, Plane.Valid, Plane.Routes, Lists, Views;
      AllocatedViews(store, peers, nextRef, v);
      ref := nextRef;
      store := store[ref := v];
      nextRef := nextRef + 1;
    }

    /** The outcome of a DNS lookup: an error, or addresses in order of preference. */
    method Resolve() returns (r: Option<seq<nat>>)
    {
      r := *;
    }

    /** Nothing is recorded meanwhile that does not guard the configured peers. */
    lemma Guarded(n: nat, keys: set<PublicKey>)
      requires Valid() && plane.guardedSince <= n && keys <= plane.guarded
      ensures Guarding(plane.trace, n, keys) && (Phase() == Live ==> Guarding(plane.trace, n, peers.Keys))
    {
      hide CoverAll, PeersOk, Conserved, Lists;
      OrderPeers();
      plane.Unwavering(n);
    }

    /** The peers guarded now that are configured. */
    ghost function GuardedNow(): set<PublicKey>
      reads this, plane
    {
      if Phase() == Live then peers.Keys else {}
    }

    lemma GuardsPeers()
      requires Valid()
      ensures plane.guardedSince < |plane.trace| && GuardedNow() <= plane.guarded
    {
      hide CoverAll, PeersOk, Conserved, Lists;
      OrderPeers();
    }

    /** Moves one peer to a freshly resolved address, or with `rotate` to another one.
        No other peer's state changes. */
    method RefreshPeer(k: PublicKey, rotate: bool) returns (ok: bool)
      requires Valid() && Phase() != Starting
      modifies this`retiredLeases, this`extraLeases, this`store, plane`held, plane`nextLease, plane`leases,
               plane`trace, plane.core
      ensures Valid() && old(plane.trace) <= plane.trace
      ensures Phase() == Live ==> Guarding(plane.trace, |old(plane.trace)|, peers.Keys)
      ensures forall ref :: ref in old(store) && (k !in peers || ref != peers[k]) ==>
                ref in store && store[ref] == old(store)[ref]
      ensures closed || k !in peers || k in reserved ==> !ok && store == old(store)
      ensures Backlog() <= if old(Backlog()) <= MAX_PENDING_MIGRATION_LEASES then MAX_PENDING_MIGRATION_LEASES
                else old(Backlog())
      ensures ok && store != old(store) ==>
                && k in peers && peers[k] in store && store[peers[k]].active.Some? && k in plane.core.peers
                && Proof(k, store[peers[k]].active.value, plane.core.peers[k].activation, plane.core.ingress,
                   plane.core.authenticated)
    {
      hide Sound, Book, Proof;
      GuardsPeers();
      ok := Refresh(k, rotate);
      Guarded(|old(plane.trace)|, {});
    }

    method Refresh(k: PublicKey, rotate: bool) returns (ok: bool)
      requires Valid() && Phase() != Starting
      modifies this`retiredLeases, this`extraLeases, this`store, plane`held, plane`nextLease, plane`leases,
               plane`trace, plane.core
      ensures Valid() && old(plane.trace) <= plane.trace
      ensures forall ref :: ref in old(store) && (k !in peers || ref != peers[k]) ==>
                ref in store && store[ref] == old(store)[ref]
      ensures closed || k !in peers || k in reserved ==> !ok && store == old(store)
      ensures Backlog() <= if old(Backlog()) <= MAX_PENDING_MIGRATION_LEASES then MAX_PENDING_MIGRATION_LEASES
                else old(Backlog())
      ensures ok && store != old(store) ==>
                && k in peers && peers[k] in store && store[peers[k]].active.Some? && k in plane.core.peers
                && Proof(k, store[peers[k]].active.value, plane.core.peers[k].activation, plane.core.ingress,
                   plane.core.authenticated)
    {
      hide Sound, Book, Proof, Shrunk;
      if closed {
        return false;
      }
      var _ := ReleaseRetired();
      if k !in peers || k in reserved {
        return false;
      }
      StoredPeer(k);
      if !store[peers[k]].dynamic {
        return true;
      }
      var resolution := Resolve();
      if resolution.None? {
        return false;
      }
      var addresses := resolution.value;
      var active := store[peers[k]].active;
      if !rotate && active.Some? && active.value.addr in addresses {
        return true;
      }
      ok := TryAddresses(k, addresses, rotate);
    }

    /** Tries the addresses in turn until one works or the backlog is full. */
    method TryAddresses(k: PublicKey, addresses: seq<nat>, rotate: bool) returns (ok: bool)
      requires Valid() && Phase() == Live && k in peers && k !in reserved
      modifies this`retiredLeases, this`extraLeases, this`store, plane`held, plane`nextLease, plane`leases,
               plane`trace, plane.core
      ensures Valid() && old(plane.trace) <= plane.trace
      ensures forall ref :: ref in old(store) && ref != peers[k] ==> ref in store && store[ref] == old(store)[ref]
      ensures Backlog() <= if old(Backlog()) <= MAX_PENDING_MIGRATION_LEASES then MAX_PENDING_MIGRATION_LEASES
                else old(Backlog())
      ensures ok ==>
                && peers[k] in store && store[peers[k]].active.Some? && k in plane.core.peers
                && Proof(k, store[peers[k]].active.value, plane.core.peers[k].activation, plane.core.ingress,
                   plane.core.authenticated)
    {
      hide Sound, Book, Proof;
      StoredPeer(k);
      var i := 0;
      while i < |addresses|
        invariant Valid() && Phase() == Live && old(plane.trace) <= plane.trace && peers[k] in store
        invariant forall ref :: ref in old(store) && ref != peers[k] ==> ref in store && store[ref] == old(store)[ref]
        invariant Backlog() <= if old(Backlog()) <= MAX_PENDING_MIGRATION_LEASES then MAX_PENDING_MIGRATION_LEASES
                    else old(Backlog())
      {
        var current, backingOff: bool := store[peers[k]].active, *;
        if !backingOff && !(rotate && current.Some? && current.value.addr == addresses[i]) {
          var r := SwitchPeer(k, addresses[i]);
          if r == Switched {
            return true;
          }
          StoredPeer(k);
          if r == CleanupPending {
            return false;
          }
        }
        i := i + 1;
      }
      ok := false;
    }

    lemma StoredPeer(k: PublicKey)
      requires Valid() && k in peers
      ensures peers[k] in store
    {
    }

    // ---------- starting and closing ----------

    /** Before the live phase, or after it, with no transaction open. */
    ghost predicate Idle()
      reads this, plane, plane.core, open
    {
      Valid() && open == null && Phase() != Live
    }

    lemma IdleFacts()
      requires Valid() && open == null
      ensures Book().phase == Phase() && Book().transitions == map[] && Book().before == map[] && Book().after == map[]
      ensures (Phase() != Live ==> plane.guarded == {}) && reserved == map[]
    {
    }

    /** Resolves, leases and installs generation 1 of every configured endpoint.  The
        first `reached` peers got theirs; a lease one of them still held when the call
        began is overwritten, and lost. */
    method Initialize() returns (ok: bool, ghost reached: nat)
      requires Valid() && open == null
      modifies this`retiredLeases, this`extraLeases, this`store, this`initialized, this`lost, plane, plane.core
      ensures Valid() && old(plane.trace) <= plane.trace
      ensures ok ==> Phase() == Live
      ensures !ok ==> Phase() == old(Phase()) && Phase() != Live
      ensures old(Phase()) != Starting ==> lost == old(lost) && plane.trace == old(plane.trace)
      ensures old(Phase()) == Starting ==>
                && reached <= |order| && (ok <==> reached == |order|)
                && lost == old(lost) + HeldLeases(old(Book().peers), order[..reached])
    {
      hide Sound, Book, HeldLeases, Progress, Lists;
      reached := 0;
      if closed {
        return false, 0;
      }
      if initialized {
        return true, 0;
      }
      OrderPeers();
      HeldNone(Book().peers, order);
      ProgressNone(Book().peers, order);
      var i := 0;
      while i < |order|
        invariant 0 <= i <= |order| && Idle() && old(plane.trace) <= plane.trace
        invariant Progress(old(Book().peers), Book().peers, order, i)
        invariant lost == old(lost) + HeldLeases(old(Book().peers), order[..i])
      {
        HeldOneMore(old(Book().peers), order, i);
        ProgressMore(old(Book().peers), Book().peers, order, i);
        var installed := InstallPeer(order[i]);
        reached := i;
        if !installed {
          var _ := ReleaseAll();
          return false, i;
        }
        i := i + 1;
      }
      reached := i;
      assert order[..i] == order;
      ProgressDone(old(Book().peers), Book().peers, order);
      BeginLive();
      ok := true;
    }

    method InstallPeer(k: PublicKey) returns (ok: bool)
      requires Idle() && Phase() == Starting && k in peers && k in Book().peers
      modifies this`retiredLeases, this`store, this`lost, plane`held, plane`nextLease, plane`leases,
               plane`trace, plane.core
      ensures Idle() && old(plane.trace) <= plane.trace
      ensures !ok ==> lost == old(lost)
      ensures ok ==> k in Book().peers && Book().peers == old(Book().peers)[k := Book().peers[k]]
                     && (Book().peers[k].endpoint == "" || Book().peers[k].lease.Some?)
      ensures ok ==> lost == old(lost) + Overwritten(old(Book().peers[k]))
    {
      hide Sound, Book;
      FirstFacts(k);
      if store[peers[k]].endpoint == "" {
        assert Book().peers == Book().peers[k := Book().peers[k]];
        return true;
      }
      var resolution := Resolve();
      if resolution.None? {
        return false;
      }
      ok := InstallFirst(k, resolution.value);
      FirstFacts(k);
    }

    lemma FirstFacts(k: PublicKey)
      requires Idle() && Phase() == Starting && k in peers
      ensures k in Book().peers && peers[k] in store && Book().peers[k] == store[peers[k]]
      ensures store[peers[k]].endpoint == "" ==> store[peers[k]].lease == None
    {
      hide Good, Plane.Valid, Plane.Routes, Roster, Shape;
      IdleFacts();
      BookPeers(k);
      StartingFacts(plane.Routes(), plane.leases, plane.guarded, Book(), k);
    }

    method BeginLive()
      requires Idle() && Phase() == Starting
      requires forall k :: k in Book().peers ==> Book().peers[k].endpoint == "" || Book().peers[k].lease.Some?
      modifies this`initialized, plane
      ensures Valid() && Phase() == Live && old(plane.trace) <= plane.trace
    {
      hide Good, Plane.Valid, Plane.Routes, CoverAll, Lists, Keyed, Views;
      IdleFacts();
      OrderPeers();
      GoLive(plane.Routes(), plane.leases, Book());
      initialized := true;
      plane.Guard(peers.Keys);
    }

    /** The first address whose route is acquired and which the core accepts. */
    method InstallFirst(k: PublicKey, addresses: seq<nat>) returns (ok: bool)
      requires Idle() && Phase() == Starting && k in peers && peers[k] in store && store[peers[k]].endpoint != ""
      modifies this`retiredLeases, this`store, this`lost, plane`held, plane`nextLease, plane`leases,
               plane`trace, plane.core
      ensures Idle() && old(plane.trace) <= plane.trace
      ensures !ok ==> store == old(store) && lost == old(lost)
      ensures ok ==>
                && peers[k] in store && store[peers[k]].lease.Some?
                && Book().peers == old(Book().peers)[k := store[peers[k]]]
      ensures ok ==> lost == old(lost) + Overwritten(old(store[peers[k]]))
    {
      hide Good, Plane.Valid, Plane.Routes, Roster, Shape, CoverAll, Shrunk, FirstLeases, SameAddresses;
      var i := 0;
      while i < |addresses|
        invariant Idle() && Phase() == Starting && old(plane.trace) <= plane.trace && store == old(store)
                    && lost == old(lost)
      {
        ok := InstallAt(k, Endpoint(addresses[i], store[peers[k]].port));
        if ok {
          return;
        }
        i := i + 1;
      }
      ok := false;
    }

    method InstallAt(k: PublicKey, e: Endpoint) returns (ok: bool)
      requires Idle() && Phase() == Starting && k in peers && peers[k] in store && store[peers[k]].endpoint != ""
      modifies this`retiredLeases, this`store, this`lost, plane`held, plane`nextLease, plane`leases,
               plane`trace, plane.core
      ensures Idle() && old(plane.trace) <= plane.trace
      ensures !ok ==> store == old(store) && lost == old(lost)
      ensures ok ==>
                && peers[k] in store && store[peers[k]].lease.Some?
                && Book().peers == old(Book().peers)[k := store[peers[k]]]
      ensures ok ==>
                store[peers[k]] == old(store[peers[k]]).(active := Some(e), generation := 1,
                    lease := store[peers[k]].lease)
      ensures ok ==> lost == old(lost) + Overwritten(old(store[peers[k]]))
    {
      hide Good, Plane.Valid, Plane.Routes, Roster, Shape, CoverAll, Shrunk, FirstLeases, SameAddresses, Startable,
          Covered, Overwritten, SelectedSet;
      IdleFacts();
      BookPeers(k);
      ghost var s, routes, ls := Book(), plane.Routes(), plane.leases;
      StartingFacts(routes, ls, plane.guarded, s, k);
      var acquired := plane.AcquireEndpointRoute(e.addr, Candidate(k, 0));
      if acquired.None? {
        return false;
      }
      var l := acquired.value;
      ok := plane.SetPeerEndpoint(k, e, 1);
      if !ok {
        StartRefused(routes, ls, s, k, l, e.addr);
        plane.NothingGuarded(ls[l := Tag(e.addr, Unused)]);
        RetireNew(l, ls[l := Tag(e.addr, Unused)]);
        return false;
      }
      StartStep(routes, ls, s, k, l, e, plane.Routes());
      TakeFirst(k, l, e, ls);
    }

    /** The peer's first endpoint and lease, over whatever it still had. */
    method TakeFirst(k: PublicKey, l: LeaseId, e: Endpoint, ghost ls: Leases)
      requires plane.Valid() && Shape() && open == null && plane.guarded == {} && k in peers && peers[k] in store
      requires var v := store[peers[k]];
               var next := FirstLeases(ls, k, v, l, e);
               var peer := v.(active := Some(e), generation := 1, lease := Some(l));
               && v.key == k && SameAddresses(plane.leases, next)
               && Good(plane.Routes(), next, {},
                  Book().(peers := Book().peers[k := peer], lost := lost + Overwritten(v)),
                       {}, {})
      modifies this`store, this`lost, plane`leases
      ensures Valid() && lost == old(lost) + Overwritten(old(store[peers[k]]))
      ensures store == old(store)[peers[k] :=
                old(store[peers[k]]).(active := Some(e), generation := 1, lease := Some(l))]
      ensures Book().peers == old(Book().peers)[k := store[peers[k]]]
    {
      hide Good, Plane.Valid, Plane.Routes, Roster, Shape, CoverAll, FirstLeases, SameAddresses, Overwritten;
      var state := store[peers[k]];
      NothingReserved();
      plane.NothingGuarded(FirstLeases(ls, k, state, l, e));
      plane.Retag(FirstLeases(ls, k, state, l, e));
      lost := lost + Overwritten(state);
      Publish(k, state.(active := Some(e), generation := 1, lease := Some(l)));
    }

    lemma NothingReserved()
      requires Shape() && open == null
      ensures reserved == map[]
    {
    }

    /** Releases every lease within reach; what fails stays within reach. */
    method ReleaseAll() returns (ok: bool)
      requires Idle()
      modifies this`retiredLeases, this`extraLeases, this`store, plane`held, plane`leases, plane`trace
      ensures Idle() && old(plane.trace) <= plane.trace
      ensures ok ==> plane.leases.Keys <= lost
    {
      hide Sound, Book, Shrunk;
      OrderPeers();
      var cleared := ReleaseRetired();
      ok := cleared;
      var i := |order|;
      while i > 0
        invariant 0 <= i <= |order| && Idle() && old(plane.trace) <= plane.trace && (ok ==> retiredLeases == [])
        invariant Book().peers.Keys == old(Book().peers.Keys)
        invariant ok ==> forall j :: i <= j < |order| ==> Book().peers[order[j]].lease.None?
      {
        i := i - 1;
        var released := ReleasePeer(order[i]);
        ok := ok && released;
      }
      var none := ReleaseExtra();
      ok := ok && none;
      if ok {
        OrderPeers();
        NothingLeft();
      }
    }

    lemma NothingLeft()
      requires Idle() && retiredLeases == [] && extraLeases == []
      requires forall k :: k in Book().peers ==> Book().peers[k].lease.None?
      ensures plane.leases.Keys <= lost
    {
      hide Good, Plane.Valid, Plane.Routes, Roster, Shape;
      IdleFacts();
      AllGone(plane.Routes(), plane.leases, Book());
    }

    method ReleasePeer(k: PublicKey) returns (ok: bool)
      requires Idle() && k in peers && k in Book().peers
      modifies this`store, plane`held, plane`leases, plane`trace
      ensures Idle() && old(plane.trace) <= plane.trace
      ensures k in Book().peers && Book().peers == old(Book().peers)[k := Book().peers[k]]
      ensures Book().peers[k] == old(Book().peers[k]).(lease := if ok then None else old(Book().peers[k]).lease)
    {
      hide Good, Plane.Valid, Plane.Routes, Roster, Shape, CoverAll, Shrunk, FirstLeases, SameAddresses;
      IdleFacts();
      BookPeers(k);
      var state := store[peers[k]];
      if state.lease.None? {
        return true;
      }
      LetGo(plane.Routes(), plane.leases, Book(), k, state.lease.value);
      plane.NothingGuarded(plane.leases - {state.lease.value});
      ok := plane.ReleaseLease(state.lease.value);
      if ok {
        Publish(k, state.(lease := None));
      }
    }

    method ReleaseExtra() returns (ok: bool)
      requires Idle()
      modifies this`extraLeases, plane`held, plane`leases, plane`trace
      ensures Idle() && old(plane.trace) <= plane.trace
      ensures (ok ==> extraLeases == []) && Book().peers == old(Book().peers)
    {
      hide Good, Plane.Valid, Plane.Routes, Roster, Shape, CoverAll, Shrunk, FirstLeases, SameAddresses;
      IdleFacts();
      var pending, failed, i := extraLeases, [], 0;
      ghost var s := Book();
      assert [] + pending[0..] == pending;
      while i < |pending|
        invariant 0 <= i <= |pending|
        invariant plane.Valid() && old(plane.trace) <= plane.trace && plane.guarded == old(plane.guarded)
        invariant Good(plane.Routes(), plane.leases, {}, s.(extra := failed + pending[i..]), {}, {})
      {
        var l := pending[i];
        assert failed + pending[i..] == failed + [l] + pending[i + 1..];
        assert failed + [l] + pending[i + 1..] == (failed + [l]) + pending[i + 1..];
        LetGoExtra(plane.Routes(), plane.leases, s.(extra := failed + pending[i..]), failed, l, pending[i + 1..]);
        plane.NothingGuarded(plane.leases - {l});
        var released := plane.ReleaseLease(l);
        if !released {
          failed := failed + [l];
        }
        i := i + 1;
      }
      assert failed + pending[i..] == failed;
      extraLeases := failed;
      ok := failed == [];
    }

    /** Ends the live phase and releases everything. */
    method Close() returns (ok: bool)
      requires Valid() && open == null
      modifies this`retiredLeases, this`extraLeases, this`store, this`closed, plane
      ensures Idle() && closed && old(plane.trace) <= plane.trace
      ensures ok ==> plane.leases.Keys <= lost
    {
      hide Good, Plane.Valid, Plane.Routes, CoverAll, Lists, Keyed, Views;
      IdleFacts();
      plane.NothingGuarded(plane.leases);
      ShutDown(plane.Routes(), plane.leases, plane.guarded, Book());
      closed := true;
      plane.Guard({});
      ok := ReleaseAll();
    }

    /** Writes through the reference to a peer no transaction holds. */
    method Publish(k: PublicKey, v: PeerState)
      requires Shape() && k in peers && k !in reserved && v.key == k
      modifies this`store
      ensures Shape() && Book() == old(Book()).(peers := old(Book()).peers[k := v])
      ensures store == old(store)[peers[k] := v]
    {
      hide Lists, Views;
      ghost var ref := peers[k];
      OneView(store, peers, ref, v);
      if open != null {
        OtherViews(store, open.before, open.transitions.Keys, ref, v);
        OtherViews(store, open.after, open.transitions.Keys, ref, v);
      }
      store := store[peers[k] := v];
    }

    /** Exactly the leases on record are unreleased, but for lost ones. */
    lemma AccountsForAll()
      requires Valid()
      ensures AllRecorded(plane.held.Keys, Book())
    {
      hide Good, Core.Valid, Shape, AllRecorded, CoverAll, Roster;
      RolesAccount(plane.Routes(), plane.leases, plane.guarded, Book());
    }

    lemma OrderPeers()
      requires Valid()
      ensures Book().peers.Keys == peers.Keys && Distinct(order) && Lists(order, peers.Keys)
      ensures forall j :: 0 <= j < |order| ==> order[j] in peers
      ensures forall k :: k in peers ==> k in order
    {
    }

    lemma BookPeers(k: PublicKey)
      requires Shape() && k in peers && k !in reserved
      ensures peers[k] in store && k in Book().peers && Book().peers[k] == store[peers[k]] && Book().peers[k].key == k
      ensures k !in Book().transitions && Book().phase == Phase() && (open == null ==> Book().transitions == map[])
    {
    }
  }
}
