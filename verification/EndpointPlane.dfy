/** Everything the supervisor can touch: the core, over a control channel whose
    calls may fail without effect, and the route leaser.  Each call that changes
    anything appends a snapshot to a ghost trace; `Valid` keeps every snapshot of
    the trace safe, so route safety holds at every step of every run. */
module EndpointPlane {
  import opened Wrappers
  import opened FecLeases
  import opened CoreInstance
  import opened EndpointProtocol

  class Plane {
    const core: Core
    var held: map<LeaseId, nat>
    var nextLease: nat
    ghost var leases: Leases
    ghost var guarded: set<PublicKey>
    ghost var guardedSince: nat       // where the trace stood when `guarded` last changed
    ghost var trace: seq<Snapshot>

    constructor (core: Core)
      requires core.Valid()
      ensures Valid() && this.core == core && leases == map[] && guarded == {}
    {
      this.core := core;
      held, nextLease, leases, guarded, guardedSince := map[], 0, map[], {}, 0;
      trace := [Snapshot(RoutesOf(core.peers), map[], {})];
    }

    ghost function Routes(): Routes
      reads core
    {
      RoutesOf(core.peers)
    }

    ghost function Now(): Snapshot
      reads this, core
    {
      Snapshot(Routes(), held, guarded)
    }

    ghost predicate Valid()
      reads this, core
    {
      && core.Valid()
      && Tags(held, leases)
      && (forall l :: l in held ==> l < nextLease)
      && CoverAll(Routes(), leases, guarded)
      && Traced(trace, Now())
      && guardedSince < |trace| && Watched(trace, guardedSince, guarded)
    }

    /** What is recorded while nobody changes `guarded` is recorded under it. */
    lemma Unwavering(n: nat)
      requires Valid() && guardedSince <= n
      ensures Watched(trace, n, guarded)
    {
    }

    lemma CoverNow()
      requires Valid()
      ensures CoverAll(Routes(), leases, guarded)
    {
    }

    /** Appends the present to the trace. */
    ghost method Record(was: Snapshot)
      requires Traced(trace, was)
      requires core.Valid() && Tags(held, leases) && (forall l :: l in held ==> l < nextLease)
      requires CoverAll(Routes(), leases, guarded)
      requires guardedSince <= |trace| && Watched(trace, guardedSince, guarded)
      modifies this`trace
      ensures Valid() && trace == old(trace) + [Now()]
    {
      CoverIsSafe(Routes(), held, leases, guarded);
      trace := trace + [Now()];
    }

    // ---------- the core, over the control channel ----------

    method SetPeerEndpoint(k: PublicKey, e: Endpoint, generation: nat) returns (ok: bool)
      requires Valid() && (k in guarded ==> Covered(leases, k, e))
      modifies this`trace, core
      ensures Valid() && old(trace) <= trace
      ensures ok ==> k in old(Routes()) && generation > 0 && generation >= old(Routes())[k].generation
      ensures ok && generation == old(Routes())[k].generation ==>
                old(Routes())[k].selected == Some(e) && Routes() == old(Routes())
      ensures ok && generation > old(Routes())[k].generation ==>
                Routes() == old(Routes())[k := Route(Some(e), generation, old(Routes())[k].uses + {e})]
      ensures !ok ==> Routes() == old(Routes())
    {
      var channelFails: bool, keyOk: bool, deviceOk: bool := *, *, *;
      if channelFails {
        return false;
      }
      hide Tags, Safe, Traced, Core.Valid, Covered, CoverAll;
      ghost var was, routes := Now(), Routes();
      ghost var peers := core.peers;
      ok := core.InstallPeerEndpoint(k, e, generation, keyOk, deviceOk);
      if ok && generation > peers[k].generation {
        InstalledRoute(peers, k, e, generation, core.receiveSequence);
        InstalledCover(routes, leases, guarded, k, e, generation);
        Record(was);
      }
    }

    method ClearPeerEndpoint(k: PublicKey, generation: nat) returns (ok: bool)
      requires Valid()
      modifies this`trace, core
      ensures Valid() && old(trace) <= trace
      ensures ok ==> k in old(Routes()) && generation > 0 && generation >= old(Routes())[k].generation
      ensures ok && generation == old(Routes())[k].generation ==>
                old(Routes())[k].selected == None && Routes() == old(Routes())
      ensures ok && generation > old(Routes())[k].generation ==>
                Routes() == old(Routes())[k := Route(None, generation, old(Routes())[k].uses)]
      ensures !ok ==> Routes() == old(Routes())
    {
      var channelFails: bool, deviceOk: bool := *, *;
      if channelFails {
        return false;
      }
      hide Tags, Safe, Traced, Core.Valid, Covered;
      ghost var was, routes := Now(), Routes();
      ghost var peers := core.peers;
      ok := core.ClearPeerEndpoint(k, generation, deviceOk);
      if ok && generation > peers[k].generation {
        ClearedRoute(peers, k, generation, core.receiveSequence);
        SameLeases(k, leases);
        MovesCoverAll(k, routes, leases, Routes(), leases, guarded);
        Record(was);
      }
    }

    method FinalizePeerEndpoint(k: PublicKey, generation: nat) returns (ok: bool)
      requires Valid()
      modifies this`trace, core
      ensures Valid() && old(trace) <= trace
      ensures ok ==> k in old(Routes()) && generation == old(Routes())[k].generation
      ensures ok ==> Routes() == old(Routes())[k := OnlySelected(old(Routes())[k])]
      ensures ok ==> SelectedSet(old(Routes())[k]) <= old(Routes())[k].uses
      ensures !ok ==> Routes() == old(Routes())
      ensures core.ingress == old(core.ingress) && core.authenticated == old(core.authenticated)
      ensures core.peers.Keys == old(core.peers.Keys)
      ensures (k in core.peers ==> core.peers[k].activation == old(core.peers[k].activation))
    {
      var channelFails: bool := *;
      if channelFails {
        return false;
      }
      hide Tags, Safe, Traced, Core.Valid, Covered, CoverAll, RoutesOf, OnlySelected;
      ghost var was, routes := Now(), Routes();
      ghost var peers := core.peers;
      ok := core.FinalizePeerEndpoint(k, generation);
      if ok {
        FinalizedRoute(peers, k);
        FinalizedCover(routes, leases, guarded, k);
        Record(was);
      }
    }

    /** The core's peer set changes: a new peer appears, with no endpoint. */
    method CoreAddsPeer(k: PublicKey, policy: Policy)
      requires Valid() && k !in core.peers
      modifies this`trace, core
      ensures Valid() && old(trace) <= trace
      ensures k !in old(Routes()) && Routes() == old(Routes())[k := Route(None, 0, {})]
    {
      hide Tags, Safe, Traced, Core.Valid, Covered, CoverAll;
      ghost var was, routes := Now(), Routes();
      core.AddPeer(k, policy);
      assert Uses(NewRuntime(policy)) == {};
      assert Routes() == routes[k := Route(None, 0, {})];
      MoreRoutes(routes, leases, guarded, k);
      Record(was);
    }

    method CoreRemovesPeer(k: PublicKey)
      requires Valid() && k in core.peers
      modifies this`trace, core
      ensures Valid() && old(trace) <= trace
      ensures Routes() == old(Routes()) - {k}
    {
      hide Tags, Safe, Traced, Core.Valid, Covered, CoverAll, Without;
      ghost var was, routes := Now(), Routes();
      core.RemovePeer(k);
      assert Routes() == routes - {k};
      LessRoutes(routes, leases, guarded, k);
      Record(was);
    }

    /** Datagrams arrive and are authenticated while the supervisor waits; it polls
        the status until the generation is ready, superseded or out of time. */
    method WaitPeerReady(k: PublicKey, e: Endpoint, generation: nat) returns (ok: bool)
      requires Valid() && generation > 0
      modifies this`trace, core
      ensures Valid() && old(trace) <= trace
      ensures Routes() == old(Routes())
      ensures ok ==> core.Ready(k, e, generation)
      ensures ok ==> k in core.peers && Proof(k, e, core.peers[k].activation, core.ingress, core.authenticated)
    {
      hide Core.Valid, Tags, Safe, Traced, CoverAll, RoutesOf;
      var polls: nat := *;
      ok := false;
      while polls > 0
        invariant Valid() && Routes() == old(Routes()) && trace == old(trace) && !ok
        decreases polls
      {
        Traffic();
        if k in core.peers && core.peers[k].generation > generation {
          return false;
        }
        if core.Ready(k, e, generation) {
          core.ReadyIsProved(k, e, generation);
          return true;
        }
        polls := polls - 1;
      }
    }

    /** Some datagrams enter, and WireGuard authenticates some of them. */
    method Traffic()
      requires Valid()
      modifies core
      ensures Valid() && Routes() == old(Routes())
    {
      hide Core.Valid, Tags, Safe, Traced, CoverAll;
      var packets: nat := *;
      while packets > 0
        invariant Valid() && Routes() == old(Routes())
        decreases packets
      {
        var source: Endpoint := *;
        var sequence := core.Enter(source);
        var authentic: bool, k: PublicKey := *, *;
        if authentic {
          ghost var peers := core.peers;
          core.RecordAuthenticatedReceive(k, source, sequence);
          AuthenticationKeepsRoutes(peers, core.peers);
        }
        packets := packets - 1;
      }
    }

    // ---------- route leases ----------

    method AcquireEndpointRoute(addr: nat, ghost role: Role) returns (r: Option<LeaseId>)
      requires Valid() && (role.Current? || role.Candidate?)
      modifies this`held, this`nextLease, this`leases, this`trace
      ensures Valid() && old(trace) <= trace
      ensures r.None? ==> held == old(held) && leases == old(leases) && nextLease == old(nextLease)
      ensures r.Some? ==> r.value !in old(leases) && leases == old(leases)[r.value := Tag(addr, role)]
      ensures r.Some? ==>
                r.value == old(nextLease) && nextLease == old(nextLease) + 1 && held == old(held)[r.value := addr]
    {
      var fails: bool := *;
      if fails {
        return None;
      }
      hide Safe, Traced, Core.Valid, Covered;
      ghost var was := Now();
      var l := nextLease;
      ghost var next := leases[l := Tag(addr, role)];
      MoreLeases(role.key, leases, l, Tag(addr, role));
      MovesCoverAll(role.key, Routes(), leases, Routes(), next, guarded);
      held := held[l := addr];
      leases := next;
      nextLease := nextLease + 1;
      Record(was);
      r := Some(l);
    }

    /** Never called on a lease that has been released: the caller must hold it. */
    method ReleaseLease(l: LeaseId) returns (ok: bool)
      requires Valid() && l in leases
      requires CoverAll(Routes(), leases - {l}, guarded)
      modifies this`held, this`leases, this`trace
      ensures Valid() && old(trace) <= trace
      ensures ok ==> leases == old(leases) - {l} && held == old(held) - {l}
      ensures !ok ==> leases == old(leases) && held == old(held)
    {
      var fails: bool := *;
      if fails {
        return false;
      }
      hide Safe, Traced, Core.Valid, CoverAll;
      ghost var was := Now();
      held := held - {l};
      leases := leases - {l};
      Record(was);
      ok := true;
    }

    /** The supervisor answers for other peers from now on. */
    ghost method Guard(keys: set<PublicKey>)
      requires Valid() && CoverAll(Routes(), leases, keys)
      modifies this`guarded, this`guardedSince, this`trace
      ensures Valid() && guarded == keys && trace == old(trace) + [Now()] && guardedSince == |old(trace)|
    {
      ghost var was := Now();
      guarded, guardedSince := keys, |trace|;
      Record(was);
    }

    lemma NothingGuarded(next: Leases)
      ensures CoverAll(Routes(), next, {})
    {
    }

    /** Responsibility for leases changes hands; nothing else does. */
    ghost method Retag(next: Leases)
      requires Valid() && SameAddresses(leases, next) && CoverAll(Routes(), next, guarded)
      modifies this`leases
      ensures Valid() && leases == next
    {
      leases := next;
    }
  }

  /** Everything recorded from n on is recorded under this guard. */
  ghost predicate Watched(trace: seq<Snapshot>, n: nat, keys: set<PublicKey>) {
    forall i :: n <= i < |trace| ==> trace[i].guarded == keys
  }

  /** ... under one that takes in these peers. */
  ghost predicate Guarding(trace: seq<Snapshot>, n: nat, keys: set<PublicKey>) {
    forall i :: n <= i < |trace| ==> keys <= trace[i].guarded
  }

  lemma NothingRecorded(trace: seq<Snapshot>, keys: set<PublicKey>)
    ensures Guarding(trace, |trace|, keys)
  {
  }

  ghost predicate Traced(trace: seq<Snapshot>, now: Snapshot) {
    && |trace| > 0 && trace[|trace| - 1] == now
    && forall i :: 0 <= i < |trace| ==> Safe(trace[i])
  }

  function OnlySelected(r: Route): Route {
    r.(uses := SelectedSet(r))
  }

  lemma SameLeases(k: PublicKey, ls: Leases)
    ensures Moves(k, ls, ls)
  {
  }

  lemma MoreLeases(k: PublicKey, ls: Leases, l: LeaseId, t: Tag)
    requires l !in ls && OfKey(t.role, k)
    ensures Moves(k, ls, ls[l := t])
    ensures forall j, uses :: CoversUses(ls, j, uses) ==> CoversUses(ls[l := t], j, uses)
  {
  }

  lemma InstalledRoute(peers: Peers, k: PublicKey, e: Endpoint, generation: nat, sequence: nat)
    requires k in peers && Selects(peers[k])
    ensures RoutesOf(peers[k := Installed(peers[k], e, generation, sequence)]) ==
            RoutesOf(peers)[k := Route(Some(e), generation, RoutesOf(peers)[k].uses + {e})]
  {
    MovedUses(peers[k], Installed(peers[k], e, generation, sequence));
  }

  lemma InstalledCover(routes: Routes, ls: Leases, guarded: set<PublicKey>, k: PublicKey, e: Endpoint, generation: nat)
    requires CoverAll(routes, ls, guarded) && k in routes && (k in guarded ==> Covered(ls, k, e))
    ensures CoverAll(routes[k := Route(Some(e), generation, routes[k].uses + {e})], ls, guarded)
  {
  }

  lemma ClearedRoute(peers: Peers, k: PublicKey, generation: nat, sequence: nat)
    requires k in peers && Selects(peers[k])
    ensures RoutesOf(peers[k := Cleared(peers[k], generation, sequence)]) ==
            RoutesOf(peers)[k := Route(None, generation, RoutesOf(peers)[k].uses)]
  {
    MovedUses(peers[k], Cleared(peers[k], generation, sequence));
    assert Uses(Cleared(peers[k], generation, sequence)) == Uses(peers[k]);
  }

  /** Moving keeps the old endpoint in use until it is finalized. */
  lemma MovedUses(r: PeerRuntime, s: PeerRuntime)
    requires Selects(r) && s.leases.obsolete == r.leases.obsolete + Retired(r.leases.active)
    ensures Uses(s) == Uses(r) + if s.selected.Some? then {s.selected.value} else {}
  {
    var was, now := r.leases.obsolete, s.leases.obsolete;
    assert forall i :: 0 <= i < |was| ==> now[i] == was[i];
    forall e | e in Uses(r)
      ensures e in Uses(s)
    {
      if r.selected == Some(e) {
        assert now[|was|].endpoint == e;
      } else {
        var i :| 0 <= i < |was| && was[i].endpoint == e;
        assert now[i].endpoint == e;
      }
    }
  }

  lemma FinalizedRoute(peers: Peers, k: PublicKey)
    requires k in peers
    ensures RoutesOf(peers[k := Finalized(peers[k])]) == RoutesOf(peers)[k := OnlySelected(RoutesOf(peers)[k])]
    ensures var r := RoutesOf(peers)[k];
            && r.generation == peers[k].generation
            && (r.selected.Some? ==> r.selected.value in r.uses)
  {
    assert Uses(Finalized(peers[k])) == OnlySelected(RouteOf(peers[k])).uses;
  }

  lemma MoreRoutes(routes: Routes, ls: Leases, guarded: set<PublicKey>, k: PublicKey)
    requires CoverAll(routes, ls, guarded)
    ensures CoverAll(routes[k := Route(None, 0, {})], ls, guarded)
  {
  }

  lemma LessRoutes(routes: Routes, ls: Leases, guarded: set<PublicKey>, k: PublicKey)
    requires CoverAll(routes, ls, guarded)
    ensures CoverAll(routes - {k}, ls, guarded)
  {
  }

  lemma FinalizedCover(routes: Routes, ls: Leases, guarded: set<PublicKey>, k: PublicKey)
    requires CoverAll(routes, ls, guarded) && k in routes
               && (routes[k].selected.Some? ==> routes[k].selected.value in routes[k].uses)
    ensures CoverAll(routes[k := OnlySelected(routes[k])], ls, guarded)
  {
  }

  lemma AuthenticationKeepsRoutes(peers: Peers, peers': Peers)
    requires peers.Keys == peers'.Keys
    requires forall k :: k in peers ==> peers'[k].selected == peers[k].selected
                                        && peers'[k].generation == peers[k].generation
                                        && peers'[k].leases == peers[k].leases
    ensures RoutesOf(peers) == RoutesOf(peers')
  {
  }
}
