/** The core's per-peer endpoint state: generation-checked installation, deferred
    release of what an endpoint change leaves behind, and the authentication
    fence.  Control calls are serialised by the instance's locks, so each method
    is one step; calls into the WireGuard device may fail and then do nothing. */
module CoreInstance {
  import opened Wrappers
  import opened FecLeases

  datatype PeerRuntime = PeerRuntime(
    selected: Option<Endpoint>,
    generation: nat,
    authGeneration: nat,
    authEndpoint: Option<Endpoint>,
    activation: nat,              // ingress sequence when the generation was installed
    policy: Policy,
    leases: Holder)

  type Peers = map<PublicKey, PeerRuntime>

  function NewRuntime(policy: Policy): PeerRuntime {
    PeerRuntime(None, 0, 0, None, 0, policy, NOTHING)
  }

  /** Endpoints the core may still use for this peer: the selected one and those
      whose replacement has not been finalized. */
  function Uses(r: PeerRuntime): set<Endpoint> {
    (if r.selected.Some? then {r.selected.value} else {})
    + (set i | 0 <= i < |r.leases.obsolete| :: r.leases.obsolete[i].endpoint)
  }

  function Installed(r: PeerRuntime, e: Endpoint, generation: nat, sequence: nat): PeerRuntime {
    PeerRuntime(Some(e), generation, 0, None, sequence, r.policy,
                Holder(Some(Release(e, r.policy)), r.leases.obsolete + Retired(r.leases.active)))
  }

  function Cleared(r: PeerRuntime, generation: nat, sequence: nat): PeerRuntime {
    PeerRuntime(None, generation, 0, None, sequence, r.policy,
                Holder(None, r.leases.obsolete + Retired(r.leases.active)))
  }

  function Finalized(r: PeerRuntime): PeerRuntime {
    r.(leases := Holder(r.leases.active, []))
  }

  function Holders(peers: Peers): (h: map<PublicKey, Holder>)
    ensures h.Keys == peers.Keys
  {
    map k | k in peers :: peers[k].leases
  }

  lemma HoldersAt(peers: Peers, k: PublicKey)
    requires k in peers
    ensures Holders(peers)[k] == peers[k].leases
    ensures peers[k].leases == NOTHING ==> Holders(peers)[k := NOTHING] == Holders(peers)
  {
  }

  lemma HoldersLess(peers: Peers, k: PublicKey)
    requires k in peers
    ensures Holders(peers - {k}) == Holders(peers)[k := NOTHING] - {k}
  {
  }

  lemma LessSound(peers: Peers, k: PublicKey, ingress: seq<Endpoint>, authenticated: set<(PublicKey, nat)>)
    requires SoundPeers(peers, ingress, authenticated)
    ensures SoundPeers(peers - {k}, ingress, authenticated)
  {
  }

  lemma HoldersUpdate(peers: Peers, k: PublicKey, r: PeerRuntime)
    ensures Holders(peers[k := r]) == Holders(peers)[k := r.leases]
  {
  }

  /** The selected endpoint is exactly the one whose lease is active, under the
      peer's own policy. */
  predicate Selects(r: PeerRuntime) {
    && (match r.selected
        case Some(e) => r.leases.active == Some(Release(e, r.policy)) && r.generation > 0
        case None => r.leases.active == None)
    && forall i :: 0 <= i < |r.leases.obsolete| ==>
                     r.leases.obsolete[i].endpoint == r.leases.obsolete[i].release.endpoint
  }

  /** A datagram authenticated as k's, which entered from e after `after` others. */
  ghost predicate Proof(
    k: PublicKey, e: Endpoint, after: nat, ingress: seq<Endpoint>, authenticated: set<(PublicKey, nat)>)
  {
    exists s :: (k, s) in authenticated && after < s <= |ingress| && ingress[s - 1] == e
  }

  /** AUTHENTICATION FENCE.  The authenticated generation is 0 or the current one
      at the selected endpoint, and then a datagram from that endpoint was
      authenticated that entered after the generation was installed. */
  ghost predicate Fenced(
    k: PublicKey, r: PeerRuntime, ingress: seq<Endpoint>, authenticated: set<(PublicKey, nat)>)
  {
    && r.activation <= |ingress|
    && (r.authGeneration != 0 ==>
          && r.authGeneration == r.generation
          && r.selected.Some? && r.authEndpoint == r.selected
          && Proof(k, r.selected.value, r.activation, ingress, authenticated))
  }

  lemma FencedLater(
    k: PublicKey, r: PeerRuntime, ingress: seq<Endpoint>, authenticated: set<(PublicKey, nat)>,
    ingress': seq<Endpoint>, authenticated': set<(PublicKey, nat)>)
    requires Fenced(k, r, ingress, authenticated)
    requires ingress <= ingress' && authenticated <= authenticated'
    ensures Fenced(k, r, ingress', authenticated')
  {
  }

  ghost predicate SoundPeers(peers: Peers, ingress: seq<Endpoint>, authenticated: set<(PublicKey, nat)>) {
    && (forall k :: k in peers ==> Selects(peers[k]))
    && (forall k :: k in peers ==> Fenced(k, peers[k], ingress, authenticated))
  }

  /** A peer that just moved to a new generation starts unauthenticated. */
  lemma MovedPeer(peers: Peers, k: PublicKey, r: PeerRuntime, ingress: seq<Endpoint>,
      authenticated: set<(PublicKey, nat)>)
    requires SoundPeers(peers, ingress, authenticated) && k in peers
    requires Selects(r) && r.authGeneration == 0 && r.activation == |ingress|
    ensures SoundPeers(peers[k := r], ingress, authenticated)
  {
  }

  /** Changing only what a peer holds, or its policy, keeps its fence. */
  lemma SameFence(peers: Peers, k: PublicKey, r: PeerRuntime, ingress: seq<Endpoint>,
      authenticated: set<(PublicKey, nat)>)
    requires SoundPeers(peers, ingress, authenticated) && k in peers && Selects(r)
    requires r == peers[k].(policy := r.policy, leases := r.leases)
    ensures SoundPeers(peers[k := r], ingress, authenticated)
  {
  }

  class Core {
    var policies: PolicyTable
    var peers: Peers
    var order: seq<PublicKey>
    var receiveSequence: nat
    ghost var ingress: seq<Endpoint>
    ghost var authenticated: set<(PublicKey, nat)>

    constructor ()
      ensures Valid() && peers == map[] && order == [] && policies == map[]
    {
      policies, peers, order, receiveSequence := map[], map[], [], 0;
      ingress, authenticated := [], {};
    }

    ghost predicate Valid()
      reads this
    {
      && receiveSequence == |ingress|
      && Accounted(policies, order, Holders(peers))
      && SoundPeers(peers, ingress, authenticated)
    }

    /** `keyOk` and `deviceOk` are the answers of the obfuscation key table and the device. */
    method InstallPeerEndpoint(k: PublicKey, e: Endpoint, generation: nat, keyOk: bool, deviceOk: bool)
        returns (ok: bool)
      requires Valid()
      modifies this`policies, this`peers
      ensures Valid()
      ensures ok <==>
                && generation > 0 && k in old(peers) && generation >= old(peers)[k].generation
                && if generation == old(peers)[k].generation then old(peers)[k].selected == Some(e)
                   else Acquire(old(policies), e, old(peers)[k].policy).Some? && keyOk && deviceOk
      ensures ok && generation == old(peers)[k].generation ==>
                old(peers)[k].selected == Some(e) && peers == old(peers) && policies == old(policies)
      ensures ok && generation > old(peers)[k].generation ==>
                && peers == old(peers)[k := Installed(old(peers)[k], e, generation, receiveSequence)]
                && Acquire(old(policies), e, old(peers)[k].policy) == Some(policies)
      ensures !ok ==> peers == old(peers) && policies == old(policies)
    {
      hide Accounted, SoundPeers, Call, Acquire, Holders, Installed;
      if generation == 0 || k !in peers {
        return false;
      }
      var peer := peers[k];
      if generation < peer.generation {
        return false;
      }
      if generation == peer.generation {
        return peer.selected == Some(e);
      }
      var acquired := Acquire(policies, e, peer.policy);
      if acquired.None? {
        return false;
      }
      InstallStep(k, e, generation);
      policies := acquired.value;
      if !keyOk {
        policies := Call(policies, Release(e, peer.policy));
        return false;
      }
      if !deviceOk {
        policies := Call(policies, Release(e, peer.policy));
        return false;
      }
      peers := peers[k := Installed(peer, e, generation, receiveSequence)];
      ok := true;
    }

    /** Either the acquired lease is given back, or the peer moves. */
    lemma InstallStep(k: PublicKey, e: Endpoint, generation: nat)
      requires Valid() && k in peers && generation > peers[k].generation
      requires Acquire(policies, e, peers[k].policy).Some?
      ensures var t := Acquire(policies, e, peers[k].policy).value;
              var next := peers[k := Installed(peers[k], e, generation, receiveSequence)];
              && Call(t, Release(e, peers[k].policy)) == policies
              && Accounted(t, order, Holders(next))
              && SoundPeers(next, ingress, authenticated)
    {
      var next := Installed(peers[k], e, generation, receiveSequence);
      StoredPolicies();
      SelectsAll(k);
      assert Selects(next);
      hide Accounted, SoundPeers, Call, Acquire, Holders, Selects;
      AcquireThenCall(policies, e, peers[k].policy);
      AcquireAccounts(policies, order, Holders(peers), k, e, peers[k].policy, next.leases);
      HoldersUpdate(peers, k, next);
      MovedPeer(peers, k, next, ingress, authenticated);
    }

    lemma SelectsAll(k: PublicKey)
      requires Valid() && k in peers
      ensures Selects(peers[k])
    {
    }

    lemma StoredPolicies()
      requires Valid()
      ensures Stored(policies)
    {
    }

    method ClearPeerEndpoint(k: PublicKey, generation: nat, deviceOk: bool) returns (ok: bool)
      requires Valid()
      modifies this`peers
      ensures Valid()
      ensures ok <==>
                && generation > 0 && k in old(peers) && generation >= old(peers)[k].generation
                && if generation == old(peers)[k].generation then old(peers)[k].selected == None else deviceOk
      ensures ok && generation == old(peers)[k].generation ==>
                old(peers)[k].selected == None && peers == old(peers)
      ensures ok && generation > old(peers)[k].generation ==>
                peers == old(peers)[k := Cleared(old(peers)[k], generation, receiveSequence)]
      ensures !ok ==> peers == old(peers)
    {
      if generation == 0 || k !in peers {
        return false;
      }
      var peer := peers[k];
      if generation < peer.generation {
        return false;
      }
      if generation == peer.generation {
        return peer.selected == None;
      }
      if !deviceOk {
        return false;
      }
      hide Accounted, SoundPeers, Holders;
      SelectsAll(k);
      var next := Cleared(peer, generation, receiveSequence);
      RetireAccounts(policies, order, Holders(peers), k, next.leases);
      HoldersUpdate(peers, k, next);
      MovedPeer(peers, k, next, ingress, authenticated);
      peers := peers[k := next];
      ok := true;
    }

    method FinalizePeerEndpoint(k: PublicKey, generation: nat) returns (ok: bool)
      requires Valid()
      modifies this`policies, this`peers
      ensures Valid()
      ensures ok <==> generation > 0 && k in old(peers) && old(peers)[k].generation == generation
      ensures ok ==> peers == old(peers)[k := Finalized(old(peers)[k])]
      ensures !ok ==> peers == old(peers) && policies == old(policies)
    {
      if generation == 0 || k !in peers || peers[k].generation != generation {
        return false;
      }
      ReleaseObsolete(k);
      ok := true;
    }

    /** Calls every obsolete release of one peer, oldest first. */
    method ReleaseObsolete(k: PublicKey)
      requires Valid() && k in peers
      modifies this`policies, this`peers
      ensures Valid()
      ensures peers == old(peers)[k := Finalized(old(peers)[k])]
    {
      hide Accounted, SoundPeers;
      SelectsAll(k);
      var peer := peers[k];
      var obsolete := peer.leases.obsolete;
      var index := 0;
      assert obsolete[0..] == obsolete;
      assert peer.(leases := Holder(peer.leases.active, obsolete[0..])) == peer;
      assert peers[k := peer] == peers;
      while index < |obsolete|
        invariant 0 <= index <= |obsolete| && peers == old(peers)
        invariant Accounted(policies, order,
                    Holders(peers[k := peer.(leases := Holder(peer.leases.active, obsolete[index..]))]))
      {
        ghost var rest := peer.(leases := Holder(peer.leases.active, obsolete[index..]));
        ghost var next := peer.(leases := Holder(peer.leases.active, obsolete[index + 1..]));
        FirstObsolete(policies, order, Holders(peers[k := rest]), k, next.leases);
        HoldersUpdate(peers, k, rest);
        HoldersUpdate(peers, k, next);
        assert Holders(peers)[k := rest.leases][k := next.leases] == Holders(peers)[k := next.leases];
        policies := Call(policies, obsolete[index].release);
        index := index + 1;
      }
      assert obsolete[index..] == [];
      SameFence(peers, k, Finalized(peer), ingress, authenticated);
      peers := peers[k := Finalized(peer)];
    }

    /** A peer that did not exist before, with no endpoint yet. */
    method AddPeer(k: PublicKey, policy: Policy)
      requires Valid() && k !in peers
      modifies this`peers, this`order
      ensures Valid()
      ensures peers == old(peers)[k := NewRuntime(policy)] && order == old(order) + [k]
    {
      hide Accounted, Holders, Proof;
      JoinAccounts(policies, order, Holders(peers), k);
      HoldersUpdate(peers, k, NewRuntime(policy));
      peers := peers[k := NewRuntime(policy)];
      order := order + [k];
    }

    /** Releases everything a peer holds and forgets the peer. */
    method RemovePeer(k: PublicKey)
      requires Valid() && k in peers
      modifies this`policies, this`peers, this`order
      ensures Valid()
      ensures peers == old(peers) - {k} && order == Without(old(order), k)
    {
      hide Accounted, SoundPeers, Call, Without, Holders;
      ReleaseObsolete(k);
      ghost var holders := Holders(peers);
      HoldersAt(peers, k);
      if peers[k].leases.active.Some? {
        LastRelease(policies, order, holders, k);
        policies := Call(policies, peers[k].leases.active.value);
      }
      LeaveAccounts(policies, order, holders[k := NOTHING], k);
      HoldersLess(peers, k);
      LessSound(peers, k, ingress, authenticated);
      peers := peers - {k};
      order := Without(order, k);
    }

    /** A datagram enters the carrier and takes the next ingress sequence. */
    method Enter(e: Endpoint) returns (sequence: nat)
      requires Valid()
      modifies this`receiveSequence, this`ingress
      ensures Valid()
      ensures ingress == old(ingress) + [e] && sequence == |ingress|
    {
      receiveSequence := receiveSequence + 1;
      ingress := ingress + [e];
      sequence := receiveSequence;
      forall k | k in peers
        ensures Fenced(k, peers[k], ingress, authenticated)
      {
        FencedLater(k, peers[k], old(ingress), authenticated, ingress, authenticated);
      }
    }

    /** WireGuard authenticated datagram `sequence`, from e, as peer k's. */
    method RecordAuthenticatedReceive(k: PublicKey, e: Endpoint, sequence: nat)
      requires Valid()
      requires sequence <= receiveSequence && (sequence > 0 ==> ingress[sequence - 1] == e)
      modifies this`peers, this`authenticated
      ensures Valid()
      ensures authenticated == old(authenticated) + {(k, sequence)}
      ensures var accepts := sequence != 0 && k in old(peers) && old(peers)[k].generation != 0
                             && old(peers)[k].selected == Some(e) && sequence > old(peers)[k].activation;
              peers == if accepts then old(peers)[k :=
                  old(peers)[k].(authGeneration := old(peers)[k].generation, authEndpoint := Some(e))]
                       else old(peers)
    {
      hide Accounted, AllCarry;
      authenticated := authenticated + {(k, sequence)};
      forall j | j in peers
        ensures Fenced(j, peers[j], ingress, authenticated)
      {
        FencedLater(j, peers[j], ingress, old(authenticated), ingress, authenticated);
      }
      if sequence != 0 && k in peers && peers[k].generation != 0
         && peers[k].selected == Some(e) && sequence > peers[k].activation {
        var next := peers[k].(authGeneration := peers[k].generation, authEndpoint := Some(e));
        assert (k, sequence) in authenticated && ingress[sequence - 1] == e;
        HoldersUpdate(peers, k, next);
        assert Holders(peers)[k := next.leases] == Holders(peers);
        peers := peers[k := next];
      }
    }

    /** What a status poll compares before it calls a generation ready. */
    predicate Ready(k: PublicKey, e: Endpoint, generation: nat)
      reads this
    {
      && k in peers && peers[k].generation == generation && peers[k].selected == Some(e)
      && peers[k].authGeneration == generation && peers[k].authEndpoint == Some(e)
    }

    /** Readiness for a generation at e is proof of an authenticated datagram from
        e that entered after that generation was installed. */
    lemma ReadyIsProved(k: PublicKey, e: Endpoint, generation: nat)
      requires Valid() && generation > 0 && Ready(k, e, generation)
      ensures Proof(k, e, peers[k].activation, ingress, authenticated)
    {
    }
  }

  /** Calling a peer's oldest obsolete release and dropping it keeps the accounts. */
  lemma FirstObsolete(t: PolicyTable, order: seq<PublicKey>, holders: map<PublicKey, Holder>, k: PublicKey,
      next: Holder)
    requires Accounted(t, order, holders) && k in holders && |holders[k].obsolete| > 0
    requires next == Holder(holders[k].active, holders[k].obsolete[1..])
    ensures Accounted(Call(t, holders[k].obsolete[0].release), order, holders[k := next])
  {
    hide Lists;
    CallAccounts(t, order, holders, k, next, holders[k].obsolete[0].release);
  }

  /** Calling a peer's one remaining release leaves it with nothing. */
  lemma LastRelease(t: PolicyTable, order: seq<PublicKey>, holders: map<PublicKey, Holder>, k: PublicKey)
    requires Accounted(t, order, holders) && k in holders && holders[k].obsolete == [] && holders[k].active.Some?
    ensures Accounted(Call(t, holders[k].active.value), order, holders[k := NOTHING])
  {
    hide Lists;
    CallAccounts(t, order, holders, k, NOTHING, holders[k].active.value);
  }
}
