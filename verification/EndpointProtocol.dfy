/** What the supervisor and the core must agree on, as facts about values: who is
    responsible for each route lease, which endpoints the core may still use, and
    which leases cover them. */
module EndpointProtocol {
  import opened Wrappers
  import opened FecLeases
  import opened CoreInstance

  type LeaseId = nat

  /** Who answers for an unreleased lease. */
  datatype Role =
    | Current(key: PublicKey)                 // the lease of a peer's selected endpoint
    | Candidate(key: PublicKey, index: nat)   // acquired for an endpoint being tried
    | Extra                                   // may still serve an unfinalized generation
    | Unused                                  // no longer used; its release failed before
    | Lost                                    // overwritten: nobody can release it any more

  datatype Tag = Tag(addr: nat, role: Role)

  type Leases = map<LeaseId, Tag>

  predicate OfKey(role: Role, k: PublicKey) {
    (role.Current? || role.Candidate?) && role.key == k
  }

  /** The core's routing state for one peer. */
  datatype Route = Route(selected: Option<Endpoint>, generation: nat, uses: set<Endpoint>)

  type Routes = map<PublicKey, Route>

  function RouteOf(r: PeerRuntime): Route {
    Route(r.selected, r.generation, Uses(r))
  }

  function RoutesOf(peers: Peers): (r: Routes)
    ensures r.Keys == peers.Keys
  {
    map k | k in peers :: RouteOf(peers[k])
  }

  // ---------- coverage ----------

  /** Some lease that k relies on keeps the route to e. */
  ghost predicate Covered(ls: Leases, k: PublicKey, e: Endpoint) {
    exists l :: l in ls && ls[l].addr == e.addr && (OfKey(ls[l].role, k) || ls[l].role == Extra)
  }

  ghost predicate CoversUses(ls: Leases, k: PublicKey, uses: set<Endpoint>) {
    forall e :: e in uses ==> Covered(ls, k, e)
  }

  /** Every endpoint the core may still use for a guarded peer is covered. */
  ghost predicate CoverAll(routes: Routes, ls: Leases, guarded: set<PublicKey>) {
    forall k :: k in guarded && k in routes ==> CoversUses(ls, k, routes[k].uses)
  }

  datatype Snapshot = Snapshot(routes: Routes, held: map<LeaseId, nat>, guarded: set<PublicKey>)

  /** ROUTE SAFETY at one instant, without roles: each address a guarded peer's
      core state may use has an unreleased lease. */
  ghost predicate Safe(s: Snapshot) {
    forall k, e :: k in s.guarded && k in s.routes && e in s.routes[k].uses ==>
                     exists l :: l in s.held && s.held[l] == e.addr
  }

  ghost predicate Tags(held: map<LeaseId, nat>, ls: Leases) {
    held.Keys == ls.Keys && forall l :: l in held ==> held[l] == ls[l].addr
  }

  ghost predicate SameAddresses(ls: Leases, ls': Leases) {
    ls.Keys == ls'.Keys && forall l :: l in ls ==> ls'[l].addr == ls[l].addr
  }

  lemma CoverIsSafe(routes: Routes, held: map<LeaseId, nat>, ls: Leases, guarded: set<PublicKey>)
    requires CoverAll(routes, ls, guarded) && Tags(held, ls)
    ensures Safe(Snapshot(routes, held, guarded))
  {
  }

  // ---------- what an operation on one peer may do to the leases ----------

  /** Only k's own leases and retired ones may go; only k's own, retired and extra
      ones may come. */
  ghost predicate Moves(k: PublicKey, ls: Leases, ls': Leases) {
    && (forall l :: l in ls && !OfKey(ls[l].role, k) && ls[l].role != Unused ==> l in ls' && ls'[l] == ls[l])
    && (forall l :: l in ls' && !OfKey(ls'[l].role, k) && ls'[l].role != Unused && ls'[l].role != Extra ==>
                      l in ls && ls[l] == ls'[l])
  }

  lemma MovesKeepCover(k: PublicKey, j: PublicKey, ls: Leases, ls': Leases, uses: set<Endpoint>)
    requires Moves(k, ls, ls') && j != k && CoversUses(ls, j, uses)
    ensures CoversUses(ls', j, uses)
  {
  }

  /** A change confined to k keeps every peer covered if k stays covered. */
  lemma MovesCoverAll(k: PublicKey, routes: Routes, ls: Leases, routes': Routes, ls': Leases, guarded: set<PublicKey>)
    requires CoverAll(routes, ls, guarded) && Moves(k, ls, ls')
    requires forall j :: j in routes' && j != k ==> j in routes && routes[j] == routes'[j]
    requires k in guarded && k in routes' ==> CoversUses(ls', k, routes'[k].uses)
    ensures CoverAll(routes', ls', guarded)
  {
  }

  // ---------- one peer of the supervisor ----------

  datatype PeerState = PeerState(
    key: PublicKey, endpoint: string, dynamic: bool, port: nat,    // as configured; endpoint "" if none
    active: Option<Endpoint>, generation: nat, lease: Option<LeaseId>)

  /** AGREEMENT: the supervisor's endpoint and generation are the core's. */
  predicate Agrees(routes: Routes, k: PublicKey, v: PeerState) {
    if k in routes then routes[k].selected == v.active && routes[k].generation == v.generation
    else v.active.None? && v.generation == 0
  }

  /** The peer's lease is for its selected endpoint and is its own to release. */
  predicate Leased(ls: Leases, k: PublicKey, v: PeerState) {
    match v.active
    case Some(a) => v.lease.Some? && v.lease.value in ls && ls[v.lease.value] == Tag(a.addr, Current(k))
    case None => v.lease.None?
  }

  /** No lease answers to k except the one recorded in its state. */
  ghost predicate OnlyLease(ls: Leases, k: PublicKey, lease: Option<LeaseId>) {
    forall l :: l in ls && OfKey(ls[l].role, k) ==> lease == Some(l) && ls[l].role == Current(k)
  }

  /** A configured peer that no transaction has reserved. */
  ghost predicate Settled(routes: Routes, ls: Leases, k: PublicKey, v: PeerState) {
    && Agrees(routes, k, v)
    && Leased(ls, k, v)
    && OnlyLease(ls, k, v.lease)
    && (k in routes ==> CoversUses(ls, k, routes[k].uses))
  }

  // ---------- the supervisor's two backlogs ----------

  function OfRole(ls: Leases, role: Role): set<LeaseId> {
    set l | l in ls && ls[l].role == role
  }

  /** `ids` lists the members of `ls`, each once. */
  predicate Exactly(ids: seq<LeaseId>, ls: set<LeaseId>) {
    multiset(ids) == multiset(ls)
  }

  /** The retired list holds exactly the unused leases (but for those in hand), the
      extra list exactly the extra ones. */
  ghost predicate Listed(ls: Leases, retired: seq<LeaseId>, extra: seq<LeaseId>, hand: set<LeaseId>) {
    && hand <= OfRole(ls, Unused)
    && Exactly(retired, OfRole(ls, Unused) - hand)
    && Exactly(extra, OfRole(ls, Extra))
  }

  lemma OneMore(ids: seq<LeaseId>, ls: set<LeaseId>, l: LeaseId)
    requires Exactly(ids, ls) && l !in ls
    ensures Exactly(ids + [l], ls + {l})
  {
  }

  lemma OneLess(before: seq<LeaseId>, l: LeaseId, rest: seq<LeaseId>, ls: set<LeaseId>)
    requires Exactly(before + [l] + rest, ls)
    ensures l in ls && Exactly(before + rest, ls - {l})
  {
    assert l in multiset(before + [l] + rest);
    assert multiset(ls) == multiset(ls - {l}) + multiset{l};
    assert multiset(before + [l] + rest) == multiset(before + rest) + multiset{l};
    assert multiset(before + rest) == multiset(before + rest) + multiset{l} - multiset{l};
    assert multiset(ls - {l}) == multiset(ls - {l}) + multiset{l} - multiset{l};
  }

  /** Every other lease answers to a peer in `keys`, or is known to be lost. */
  ghost predicate Answered(ls: Leases, keys: set<PublicKey>, lost: set<LeaseId>) {
    && (forall l :: l in ls && (ls[l].role.Current? || ls[l].role.Candidate?) ==> ls[l].role.key in keys)
    && (forall l :: l in ls && ls[l].role == Lost ==> l in lost)
  }

  lemma DropUnused(ls: Leases, l: LeaseId, k: PublicKey)
    requires l in ls && ls[l].role == Unused
    ensures Moves(k, ls, ls - {l})
    ensures forall routes, guarded :: CoverAll(routes, ls, guarded) ==> CoverAll(routes, ls - {l}, guarded)
  {
  }

  // ---------- trying one new endpoint ----------

  /** k may be at e, which lease l covers; whatever else it uses is covered without l. */
  ghost predicate Trying(routes: Routes, ls: Leases, k: PublicKey, v: PeerState, l: LeaseId, e: Endpoint) {
    && k in routes
    && l in ls && ls[l] == Tag(e.addr, Candidate(k, 0))
    && Leased(ls, k, v)
    && OnlyLease(ls - {l}, k, v.lease)
    && CoversUses(ls - {l}, k, routes[k].uses - {e})
  }

  lemma StartTrying(routes: Routes, ls: Leases, k: PublicKey, v: PeerState, l: LeaseId, e: Endpoint, generation: nat)
    requires Settled(routes, ls, k, v) && k in routes && l !in ls
    ensures Trying(routes[k := Route(Some(e), generation, routes[k].uses + {e})],
              ls[l := Tag(e.addr, Candidate(k, 0))], k, v, l, e)
  {
    var ls1 := ls[l := Tag(e.addr, Candidate(k, 0))];
    assert ls1 - {l} == ls;
  }

  /** Going back to the endpoint the peer had. */
  lemma ReturnTrying(routes: Routes, ls: Leases, k: PublicKey, v: PeerState, l: LeaseId, e: Endpoint, generation: nat)
    requires Trying(routes, ls, k, v, l, e) && v.active.Some?
    ensures Trying(routes[k := Route(v.active, generation, routes[k].uses + {v.active.value})], ls, k, v, l, e)
  {
  }

  /** e proved ready: its lease becomes k's, and the lease it replaces either serves
      an unfinalized generation still, or nothing. */
  function Adopted(ls: Leases, k: PublicKey, v: PeerState, l: LeaseId, e: Endpoint, old_: Role): Leases {
    var ls1 := ls[l := Tag(e.addr, Current(k))];
    if v.lease.Some? && v.lease.value in ls then ls1[v.lease.value := Tag(ls[v.lease.value].addr, old_)] else ls1
  }

  lemma AdoptSettles(routes: Routes, ls: Leases, k: PublicKey, v: PeerState, l: LeaseId, e: Endpoint, old_: Role)
    requires Trying(routes, ls, k, v, l, e) && routes[k].selected == Some(e)
    requires old_ == Extra || (old_ == Unused && routes[k].uses == {e})
    ensures Settled(routes, Adopted(ls, k, v, l, e, old_), k,
                    v.(active := Some(e), generation := routes[k].generation, lease := Some(l)))
    ensures Moves(k, ls, Adopted(ls, k, v, l, e, old_))
    ensures v.lease != Some(l)
  {
    var ls1 := Adopted(ls, k, v, l, e, old_);
    assert forall m :: m in ls1 <==> m in ls;
    assert v.lease.Some? ==> ls[v.lease.value].role == Current(k);
    assert forall m :: m in ls && m != l ==> m in ls - {l} && (ls - {l})[m] == ls[m];
    assert forall m :: m in ls1 && OfKey(ls1[m].role, k) ==> m == l;
    forall f | f in routes[k].uses
      ensures Covered(ls1, k, f)
    {
      if f == e {
        assert l in ls1 && ls1[l].addr == e.addr && ls1[l].role == Current(k);
      } else {
        assert Covered(ls - {l}, k, f);
        var m :| m in ls - {l} && (ls - {l})[m].addr == f.addr
            && (OfKey((ls - {l})[m].role, k) || (ls - {l})[m].role == Extra);
        assert m in ls1 && ls1[m].addr == f.addr;
      }
    }
  }

  /** e never became ready and k was moved back: e's lease serves an unfinalized
      generation still, or nothing. */
  lemma AbandonSettles(routes: Routes, ls: Leases, k: PublicKey, v: PeerState, l: LeaseId, e: Endpoint, new_: Role)
    requires Trying(routes, ls, k, v, l, e) && routes[k].selected == v.active && v.active.Some?
    requires new_ == Extra || (new_ == Unused && routes[k].uses == {v.active.value})
    ensures Settled(routes, ls[l := Tag(e.addr, new_)], k, v.(generation := routes[k].generation))
    ensures Moves(k, ls, ls[l := Tag(e.addr, new_)])
  {
    var ls1 := ls[l := Tag(e.addr, new_)];
    assert v.lease.value != l;
    assert forall m :: m in ls1 && m != l ==> m in ls - {l} && (ls - {l})[m] == ls1[m];
    forall f | f in routes[k].uses
      ensures Covered(ls1, k, f)
    {
      if f == v.active.value {
        assert v.lease.value in ls1 && ls1[v.lease.value] == Tag(f.addr, Current(k));
      } else if f == e {
        assert l in ls1 && ls1[l].role == Extra;
      } else {
        assert Covered(ls - {l}, k, f);
        var m :| m in ls - {l} && (ls - {l})[m].addr == f.addr
            && (OfKey((ls - {l})[m].role, k) || (ls - {l})[m].role == Extra);
        assert m in ls1 && ls1[m] == ls[m];
      }
    }
  }

  /** A lease for an endpoint that was never installed is used by nothing. */
  lemma NeverInstalled(routes: Routes, ls: Leases, k: PublicKey, v: PeerState, l: LeaseId, addr: nat)
    requires Settled(routes, ls, k, v) && l !in ls
    ensures Settled(routes, ls[l := Tag(addr, Unused)], k, v)
    ensures Moves(k, ls[l := Tag(addr, Candidate(k, 0))], ls[l := Tag(addr, Unused)])
  {
    var ls1 := ls[l := Tag(addr, Unused)];
    if k in routes {
      forall f | f in routes[k].uses
        ensures Covered(ls1, k, f)
      {
        assert Covered(ls, k, f);
        var m :| m in ls && ls[m].addr == f.addr && (OfKey(ls[m].role, k) || ls[m].role == Extra);
        assert m in ls1 && ls1[m] == ls[m];
      }
    }
  }

  // ---------- a peer inside a transaction ----------

  datatype CandidateRoute = CandidateRoute(endpoint: Endpoint, lease: Option<LeaseId>)

  datatype Transition = Transition(
    candidates: seq<CandidateRoute>, installed: bool, restored: bool, coreFinalized: bool,
    activeCandidate: Option<nat>, currentGeneration: nat,
    origin: Option<PeerState>,    // the peer's state when the transaction began; never consulted
    target: Option<PeerState>)    // the peer as the plan configures it; never consulted

  const BLANK: PeerState := PeerState("", "", false, 0, None, 0, None)

  function OrBlank(v: Option<PeerState>): PeerState {
    if v.Some? then v.value else BLANK
  }

  /** k's leases are exactly the one it had before and those of its candidates. */
  ghost predicate OwnLeases(ls: Leases, k: PublicKey, lease: Option<LeaseId>, candidates: seq<CandidateRoute>) {
    && (lease.Some? ==> lease.value in ls && ls[lease.value].role == Current(k))
    && (forall i :: 0 <= i < |candidates| && candidates[i].lease.Some? ==>
          candidates[i].lease.value in ls
          && ls[candidates[i].lease.value] == Tag(candidates[i].endpoint.addr, Candidate(k, i)))
    && (forall l :: l in ls && ls[l].role == Current(k) ==> lease == Some(l))
    && (forall l :: l in ls && ls[l].role.Candidate? && ls[l].role.key == k ==>
          ls[l].role.index < |candidates| && candidates[ls[l].role.index].lease == Some(l))
  }

  /** Covered without the help of any candidate's lease. */
  ghost predicate FirmlyCovers(ls: Leases, k: PublicKey, uses: set<Endpoint>) {
    forall e :: e in uses ==>
        exists l :: l in ls && ls[l].addr == e.addr && (ls[l].role == Current(k) || ls[l].role == Extra)
  }

  function SelectedSet(r: Route): set<Endpoint> {
    if r.selected.Some? then {r.selected.value} else {}
  }

  /** The core's view of k while a transaction holds it. */
  ghost predicate Tracked(routes: Routes, ls: Leases, k: PublicKey, t: Transition, before: Option<PeerState>) {
    var b := OrBlank(before);
    if k in routes then
      && routes[k].generation == t.currentGeneration
      && CoversUses(ls, k, routes[k].uses)
      && (!t.installed ==> FirmlyCovers(ls, k, routes[k].uses))
      && (!t.installed || t.restored ==> routes[k].selected == b.active)
      && (t.coreFinalized ==> routes[k].uses == SelectedSet(routes[k]))
    else
      t.currentGeneration == 0 && !t.installed && b.active == None
  }

  /** The transaction has chosen where k goes, and the core and the new state agree. */
  predicate Published(routes: Routes, k: PublicKey, t: Transition, after: PeerState) {
    && !t.restored && Agrees(routes, k, after) && after.generation == t.currentGeneration
    && match t.activeCandidate
       case Some(i) => t.installed && i < |t.candidates| && t.candidates[i].lease.Some?
                       && after.active == Some(t.candidates[i].endpoint) && after.lease == t.candidates[i].lease
       case None =>
         && after.active == None && after.lease == None && t.candidates == []
         && (k in routes && after.generation > 0 ==> t.installed)
  }

  /** Transactions keep this about every peer they hold, until they finalize. */
  ghost predicate Moving(
    routes: Routes, ls: Leases, k: PublicKey, t: Transition, before: Option<PeerState>, after: Option<PeerState>,
        stage: Stage)
  {
    var b := OrBlank(before);
    && OwnLeases(ls, k, b.lease, t.candidates)
    && Aimed(t.target, after)
    && (t.coreFinalized || t.restored ==> t.installed)
    && (stage == Finalizing && after.None? ==> t.candidates == [])
    && ((stage == Finalizing && after.None?) || Tracked(routes, ls, k, t, before))
    && (stage != Finalizing ==>
          && Leased(ls, k, b)
          && b.generation <= t.currentGeneration
          && (!t.installed || t.restored ==> b.generation == t.currentGeneration || before.None?)
          && (t.coreFinalized ==> t.restored)
          && Unmoved(t.origin, t.restored, before))
    && (stage == Complete ==> Committable(routes, k, t, before, after))
    && (stage == Committed || stage == Finalizing ==> Chosen(routes, k, t, before, after))
  }

  /** The state to roll back to is the one the transaction found, at a later generation
      if the peer was moved back to it. */
  predicate Unmoved(origin: Option<PeerState>, moved: bool, before: Option<PeerState>) {
    match before
    case Some(v) =>
      && origin.Some? && v == origin.value.(generation := v.generation)
      && if moved then origin.value.generation < v.generation else origin.value.generation <= v.generation
    case None => origin.None?
  }

  /** The new state is as planned, wherever the peer goes. */
  predicate Aimed(target: Option<PeerState>, after: Option<PeerState>) {
    match after
    case Some(v) => target.Some? && v == target.value.(active := v.active, generation := v.generation, lease := v.lease)
    case None => target.None?
  }

  /** What a transaction found and where it leads does not change. */
  predicate Fixed(t: Transition, t': Transition) {
    t'.origin == t.origin && t'.target == t.target
  }

  datatype Stage = Open | Complete | Committed | Finalizing

  predicate Committable(routes: Routes, k: PublicKey, t: Transition, before: Option<PeerState>,
      after: Option<PeerState>) {
    if after.None? then !t.installed && t.candidates == []
    else if before.Some? || after.value.endpoint == "" then
      Published(routes, k, t, after.value) && (before.Some? ==> t.installed)
    else !t.installed && t.activeCandidate == None && Unleased(after.value) && AllLeased(t.candidates)
  }

  predicate Unleased(v: PeerState) {
    v.active == None && v.lease == None && v.generation == 0
  }

  predicate AllLeased(candidates: seq<CandidateRoute>) {
    forall i :: 0 <= i < |candidates| ==> candidates[i].lease.Some?
  }

  predicate Chosen(routes: Routes, k: PublicKey, t: Transition, before: Option<PeerState>, after: Option<PeerState>) {
    if after.None? then !t.installed && t.candidates == []
    else Published(routes, k, t, after.value) && (before.Some? ==> t.installed)
  }

  lemma MovesKeepMoving(
    k: PublicKey, j: PublicKey, routes: Routes, ls: Leases, routes': Routes, ls': Leases,
    t: Transition, before: Option<PeerState>, after: Option<PeerState>, stage: Stage)
    requires Moves(k, ls, ls') && j != k && Moving(routes, ls, j, t, before, after, stage)
    requires (j in routes <==> j in routes') && (j in routes ==> routes[j] == routes'[j])
    ensures Moving(routes', ls', j, t, before, after, stage)
  {
    if j in routes && CoversUses(ls, j, routes[j].uses) {
      MovesKeepCover(k, j, ls, ls', routes[j].uses);
    }
    if j in routes && FirmlyCovers(ls, j, routes[j].uses) {
      MovesKeepFirm(k, j, ls, ls', routes[j].uses);
    }
    MovesKeepOwn(k, j, ls, ls', OrBlank(before).lease, t.candidates);
  }

  lemma MovesKeepOwn(k: PublicKey, j: PublicKey, ls: Leases, ls': Leases, lease: Option<LeaseId>,
      candidates: seq<CandidateRoute>)
    requires Moves(k, ls, ls') && j != k && OwnLeases(ls, j, lease, candidates)
    ensures OwnLeases(ls', j, lease, candidates)
  {
  }

  lemma MovesKeepFirm(k: PublicKey, j: PublicKey, ls: Leases, ls': Leases, uses: set<Endpoint>)
    requires Moves(k, ls, ls') && j != k && FirmlyCovers(ls, j, uses)
    ensures FirmlyCovers(ls', j, uses)
  {
  }

  // ---------- everything the supervisor knows ----------

  datatype Phase = Starting | Live | Closed

  datatype Books = Books(
    phase: Phase,
    peers: map<PublicKey, PeerState>,
    retired: seq<LeaseId>,
    extra: seq<LeaseId>,
    lost: set<LeaseId>,
    stage: Stage,
    transitions: map<PublicKey, Transition>,
    before: map<PublicKey, PeerState>,     // of the peers in transition
    after: map<PublicKey, PeerState>)

  function Lookup(m: map<PublicKey, PeerState>, k: PublicKey): Option<PeerState> {
    if k in m then Some(m[k]) else None
  }

  /** The peer's lease, if any, is its own, and it has no other. */
  ghost predicate Owned(ls: Leases, k: PublicKey, v: PeerState) {
    (v.lease.Some? ==> v.lease.value in ls && ls[v.lease.value].role == Current(k)) && OnlyLease(ls, k, v.lease)
  }

  /** Before initialization a peer has its first endpoint at generation 1 or none. */
  predicate Startable(routes: Routes, k: PublicKey, v: PeerState) {
    && Agrees(routes, k, v)
    && v.generation == (if v.active.Some? then 1 else 0)
    && (v.endpoint == "" ==> v.active.None?)
    && (k in routes ==> routes[k].uses == SelectedSet(routes[k]))
  }

  ghost predicate StartLease(ls: Leases, k: PublicKey, v: PeerState) {
    && (v.lease.Some? ==>
       v.active.Some? && v.lease.value in ls && ls[v.lease.value] == Tag(v.active.value.addr, Current(k)))
    && OnlyLease(ls, k, v.lease)
  }

  ghost predicate PeerOk(routes: Routes, ls: Leases, phase: Phase, k: PublicKey, v: PeerState) {
    match phase
    case Starting => Startable(routes, k, v) && StartLease(ls, k, v)
    case Live => Settled(routes, ls, k, v)
    case Closed => Owned(ls, k, v)
  }

  /** Every peer outside `but` is where its phase or transaction says. */
  ghost predicate PeersOk(routes: Routes, ls: Leases, s: Books, but: set<PublicKey>) {
    && (forall k :: k in s.peers && k !in s.transitions && k !in but ==> PeerOk(routes, ls, s.phase, k, s.peers[k]))
    && (forall k :: k in s.transitions && k !in but ==>
          Moving(routes, ls, k, s.transitions[k], Lookup(s.before, k), Lookup(s.after, k), s.stage))
  }

  /** CONSERVATION: every unreleased lease is in the retired list, the extra list,
      in hand, or answers to a configured peer or one in transition. */
  ghost predicate Conserved(ls: Leases, s: Books, hand: set<LeaseId>) {
    Listed(ls, s.retired, s.extra, hand) && Answered(ls, s.peers.Keys + s.transitions.Keys, s.lost)
  }

  /** A lease that somebody still holds on to: a list, the state of a peer, or a
      transaction, in the state it found or in a candidate. */
  ghost predicate Recorded(s: Books, l: LeaseId) {
    || l in s.retired || l in s.extra
    || (exists k :: k in s.peers && k !in s.transitions && s.peers[k].lease == Some(l))
    || (exists k :: k in s.transitions && InTransition(s, k, l))
  }

  predicate InTransition(s: Books, k: PublicKey, l: LeaseId)
    requires k in s.transitions
  {
    || (k in s.before && s.before[k].lease == Some(l))
    || exists i :: 0 <= i < |s.transitions[k].candidates| && s.transitions[k].candidates[i].lease == Some(l)
  }

  /** CONSERVATION without roles: exactly the recorded leases are unreleased, but for
      lost ones. */
  ghost predicate AllRecorded(held: set<LeaseId>, s: Books) {
    && (forall l :: l in held ==> Recorded(s, l) || l in s.lost)
    && (forall l :: Recorded(s, l) ==> l in held)
  }

  lemma RolesAccount(routes: Routes, ls: Leases, guarded: set<PublicKey>, s: Books)
    requires Good(routes, ls, guarded, s, {}, {})
    ensures AllRecorded(ls.Keys, s)
  {
    hide CoverAll, Guards, Recorded;
    forall l | l in ls
      ensures Recorded(s, l) || l in s.lost
    {
      RoleRecorded(routes, ls, s, l);
    }
    forall l | Recorded(s, l)
      ensures l in ls
    {
      RecordedHeld(routes, ls, s, l);
    }
  }

  lemma RoleRecorded(routes: Routes, ls: Leases, s: Books, l: LeaseId)
    requires PeersOk(routes, ls, s, {}) && Conserved(ls, s, {}) && l in ls
    ensures Recorded(s, l) || l in s.lost
  {
    hide CoversUses, FirmlyCovers, Tracked;
    match ls[l].role
    case Extra => assert l in multiset(s.extra);
    case Unused => assert l in OfRole(ls, Unused) - {} && l in multiset(s.retired);
    case Lost =>
    case Current(k) => KeyRecorded(routes, ls, s, l, k);
    case Candidate(k, i) => KeyRecorded(routes, ls, s, l, k);
  }

  lemma KeyRecorded(routes: Routes, ls: Leases, s: Books, l: LeaseId, k: PublicKey)
    requires PeersOk(routes, ls, s, {}) && Conserved(ls, s, {}) && l in ls && OfKey(ls[l].role, k)
    ensures Recorded(s, l)
  {
    hide CoversUses, FirmlyCovers, Tracked, Listed;
    if k in s.transitions {
      assert OwnLeases(ls, k, OrBlank(Lookup(s.before, k)).lease, s.transitions[k].candidates);
      assert InTransition(s, k, l);
    } else {
      assert k in s.peers && PeerOk(routes, ls, s.phase, k, s.peers[k]);
      assert OnlyLease(ls, k, s.peers[k].lease);
    }
  }

  lemma RecordedHeld(routes: Routes, ls: Leases, s: Books, l: LeaseId)
    requires PeersOk(routes, ls, s, {}) && Conserved(ls, s, {}) && Recorded(s, l)
    ensures l in ls
  {
    hide CoversUses, FirmlyCovers, Tracked, Answered;
    if l in s.retired {
      assert l in multiset(s.retired) && l in OfRole(ls, Unused) - {};
    } else if l in s.extra {
      assert l in multiset(s.extra) && l in OfRole(ls, Extra);
    } else if k :| k in s.peers && k !in s.transitions && s.peers[k].lease == Some(l) {
      assert PeerOk(routes, ls, s.phase, k, s.peers[k]);
    } else {
      var k :| k in s.transitions && InTransition(s, k, l);
      assert OwnLeases(ls, k, OrBlank(Lookup(s.before, k)).lease, s.transitions[k].candidates);
    }
  }

  predicate SameBut(k: PublicKey, s: Books, s': Books) {
    && s'.phase == s.phase && s'.stage == s.stage
    && s'.peers.Keys == s.peers.Keys && s'.transitions.Keys == s.transitions.Keys
    && (forall j :: j in s.peers && j != k && j !in s.transitions ==> s'.peers[j] == s.peers[j])
    && (forall j :: j in s.transitions && j != k ==>
          s'.transitions[j] == s.transitions[j] && Lookup(s'.before, j) == Lookup(s.before, j)
          && Lookup(s'.after, j) == Lookup(s.after, j))
  }

  predicate RoutesBut(k: PublicKey, routes: Routes, routes': Routes) {
    && routes.Keys == routes'.Keys
    && forall j :: j in routes && j != k ==> routes'[j] == routes[j]
  }

  lemma MovesKeepPeers(k: PublicKey, routes: Routes, ls: Leases, s: Books, routes': Routes, ls': Leases, s': Books)
    requires PeersOk(routes, ls, s, {k}) && Moves(k, ls, ls') && RoutesBut(k, routes, routes') && SameBut(k, s, s')
    ensures PeersOk(routes', ls', s', {k})
  {
    hide Moves, Moving, Settled, Startable, StartLease, Owned;
    forall j | j in s'.peers && j !in s'.transitions && j !in {k}
      ensures PeerOk(routes', ls', s'.phase, j, s'.peers[j])
    {
      MovesKeepPeer(k, j, routes, ls, routes', ls', s.phase, s.peers[j]);
    }
    forall j | j in s'.transitions && j !in {k}
      ensures Moving(routes', ls', j, s'.transitions[j], Lookup(s'.before, j), Lookup(s'.after, j), s'.stage)
    {
      MovesKeepMoving(k, j, routes, ls, routes', ls', s.transitions[j], Lookup(s.before, j), Lookup(s.after, j),
          s.stage);
    }
  }

  lemma MovesKeepPeer(
    k: PublicKey, j: PublicKey, routes: Routes, ls: Leases, routes': Routes, ls': Leases, phase: Phase, v: PeerState)
    requires PeerOk(routes, ls, phase, j, v) && Moves(k, ls, ls') && RoutesBut(k, routes, routes') && j != k
    ensures PeerOk(routes', ls', phase, j, v)
  {
  }

  predicate Guards(guarded: set<PublicKey>, s: Books) {
    && (s.phase == Live ==> s.peers.Keys <= guarded)
    && (s.phase != Live ==> guarded == {})
    && (s.phase == Live && s.stage != Finalizing ==> s.before.Keys + s.after.Keys <= guarded)
  }

  /** Everything that holds between the steps of any run, but for the peers in
      `but`, with the unused leases in `hand` still to be dealt with. */
  ghost predicate Good(
    routes: Routes, ls: Leases, guarded: set<PublicKey>, s: Books, hand: set<LeaseId>, but: set<PublicKey>)
  {
    && CoverAll(routes, ls, guarded)
    && PeersOk(routes, ls, s, but)
    && Conserved(ls, s, hand)
    && Guards(guarded, s)
  }

  /** Nothing went but unused leases. */
  ghost predicate Shrunk(ls: Leases, ls': Leases) {
    && (forall l :: l in ls' ==> l in ls && ls[l] == ls'[l])
    && (forall l :: l in ls && ls[l].role != Unused ==> l in ls')
  }

  lemma ShrunkSame(ls: Leases)
    ensures Shrunk(ls, ls)
  {
  }

  lemma ShrunkMore(ls: Leases, ls': Leases, l: LeaseId)
    requires Shrunk(ls, ls') && l in ls' && ls'[l].role == Unused
    ensures Shrunk(ls, ls' - {l})
  {
  }

  /** A lease in hand is used by nothing: it can be released, or listed as retired. */
  lemma DropInHand(routes: Routes, ls: Leases, guarded: set<PublicKey>, s: Books, l: LeaseId)
    requires Good(routes, ls, guarded, s, {l}, {})
    ensures l in ls && ls[l].role == Unused && CoverAll(routes, ls - {l}, guarded)
    ensures Good(routes, ls - {l}, guarded, s, {}, {})
    ensures Good(routes, ls, guarded, s.(retired := s.retired + [l]), {}, {})
  {
    DropConserves(ls, s, l);
    hide Conserved, CoverAll, Moving, PeerOk;
    DropUnused(ls, l, "");
    DropKeepsPeers(routes, ls, s, l);
    assert PeersOk(routes, ls, s.(retired := s.retired + [l]), {});
  }

  lemma DropConserves(ls: Leases, s: Books, l: LeaseId)
    requires Conserved(ls, s, {l})
    ensures l in ls && ls[l].role == Unused
    ensures Conserved(ls - {l}, s, {}) && Conserved(ls, s.(retired := s.retired + [l]), {})
  {
    assert l in {l};
    Unlist(ls, s.retired, s.extra, {l}, s.peers.Keys + s.transitions.Keys, s.lost, l);
    assert {l} - {l} == {};
    OneMore(s.retired, OfRole(ls, Unused) - {l}, l);
    assert OfRole(ls, Unused) - {l} + {l} == OfRole(ls, Unused) - {};
  }

  lemma DropKeepsPeers(routes: Routes, ls: Leases, s: Books, l: LeaseId)
    requires PeersOk(routes, ls, s, {}) && l in ls && ls[l].role == Unused
    ensures PeersOk(routes, ls - {l}, s, {})
  {
    hide Moving, PeerOk, Moves;
    forall j | j in s.peers && j !in s.transitions
      ensures PeerOk(routes, ls - {l}, s.phase, j, s.peers[j])
    {
      DropUnused(ls, l, j + "'");
      MovesKeepPeer(j + "'", j, routes, ls, routes, ls - {l}, s.phase, s.peers[j]);
    }
    forall j | j in s.transitions
      ensures Moving(routes, ls - {l}, j, s.transitions[j], Lookup(s.before, j), Lookup(s.after, j), s.stage)
    {
      DropUnused(ls, l, j + "'");
      MovesKeepMoving(j + "'", j, routes, ls, routes, ls - {l}, s.transitions[j], Lookup(s.before, j),
          Lookup(s.after, j), s.stage);
    }
  }

  // ---------- the steps of one migration ----------

  lemma SetAside(routes: Routes, ls: Leases, guarded: set<PublicKey>, s: Books, k: PublicKey)
    requires Good(routes, ls, guarded, s, {}, {})
    ensures Good(routes, ls, guarded, s, {}, {k})
    ensures k in s.peers && k !in s.transitions && s.phase == Live ==>
              Settled(routes, ls, k, s.peers[k]) && Agrees(routes, k, s.peers[k])
  {
  }

  /** Once the peer that moved is settled again, everything is as it should be. */
  lemma SettleStep(
    k: PublicKey, routes: Routes, ls: Leases, s: Books, routes': Routes, ls': Leases, s': Books,
    guarded: set<PublicKey>, hand: set<LeaseId>)
    requires Good(routes, ls, guarded, s, {}, {k})
    requires Moves(k, ls, ls') && RoutesBut(k, routes, routes') && SameBut(k, s, s')
    requires s'.before == s.before && s'.after == s.after
    requires s.phase == Live && k in s'.peers && k !in s'.transitions && Settled(routes', ls', k, s'.peers[k])
    requires Conserved(ls', s', hand)
    ensures Good(routes', ls', guarded, s', hand, {}) && CoverAll(routes', ls', guarded)
  {
    assert k in routes' ==> CoversUses(ls', k, routes'[k].uses);
    hide Moving, Conserved, CoverAll, Settled, Moves, PeersOk;
    MovesCoverAll(k, routes, ls, routes', ls', guarded);
    MovesKeepPeers(k, routes, ls, s, routes', ls', s');
    Reinstate(routes', ls', s', k);
  }

  lemma Reinstate(routes: Routes, ls: Leases, s: Books, k: PublicKey)
    requires PeersOk(routes, ls, s, {k}) && s.phase == Live && k in s.peers && k !in s.transitions
    requires Settled(routes, ls, k, s.peers[k])
    ensures PeersOk(routes, ls, s, {})
  {
  }

  /** A lease for the address to be tried. */
  lemma AcquireStep(routes: Routes, ls: Leases, guarded: set<PublicKey>, s: Books, k: PublicKey, l: LeaseId, addr: nat)
    requires Good(routes, ls, guarded, s, {}, {k}) && k in s.peers && l !in ls
    ensures Good(routes, ls[l := Tag(addr, Candidate(k, 0))], guarded, s, {}, {k})
  {
    hide PeersOk, CoverAll;
    var ls' := ls[l := Tag(addr, Candidate(k, 0))];
    assert Moves(k, ls, ls');
    MovesKeepPeers(k, routes, ls, s, routes, ls', s);
    hide Listed, Answered;
    Enlist(ls, s.retired, s.extra, s.peers.Keys + s.transitions.Keys, s.lost, l, Tag(addr, Candidate(k, 0)));
    MoreCover(routes, ls, guarded, l, Tag(addr, Candidate(k, 0)));
  }

  lemma MoreCover(routes: Routes, ls: Leases, guarded: set<PublicKey>, l: LeaseId, t: Tag)
    requires CoverAll(routes, ls, guarded) && l !in ls
    ensures CoverAll(routes, ls[l := t], guarded)
  {
    forall k, e | k in guarded && k in routes && e in routes[k].uses
      ensures Covered(ls[l := t], k, e)
    {
      assert Covered(ls, k, e);
      var m :| m in ls && ls[m].addr == e.addr && (OfKey(ls[m].role, k) || ls[m].role == Extra);
      assert m in ls[l := t] && ls[l := t][m] == ls[m];
    }
  }

  /** The core moved k: nobody else notices. */
  lemma CoreStep(routes: Routes, ls: Leases, guarded: set<PublicKey>, s: Books, k: PublicKey, routes': Routes)
    requires Good(routes, ls, guarded, s, {}, {k}) && RoutesBut(k, routes, routes') && CoverAll(routes', ls, guarded)
    ensures Good(routes', ls, guarded, s, {}, {k})
  {
    hide PeersOk, CoverAll, Conserved;
    assert Moves(k, ls, ls);
    MovesKeepPeers(k, routes, ls, s, routes', ls, s);
  }

  /** The core refused the endpoint: its lease is used by nothing. */
  lemma RefusedStep(routes: Routes, ls: Leases, guarded: set<PublicKey>, s: Books, k: PublicKey, l: LeaseId, addr: nat)
    requires Good(routes, ls, guarded, s, {}, {})
    requires k in s.peers && k !in s.transitions && s.phase == Live && l !in ls
    ensures var ls' := ls[l := Tag(addr, Unused)];
            Good(routes, ls', guarded, s, {l}, {}) && CoverAll(routes, ls', guarded)
                && SameAddresses(ls[l := Tag(addr, Candidate(k, 0))], ls')
  {
    hide PeersOk, Settled, CoverAll;
    var ls' := ls[l := Tag(addr, Unused)];
    assert Moves(k, ls, ls');
    hide Listed, Answered, Moves;
    Enlist(ls, s.retired, s.extra, s.peers.Keys + s.transitions.Keys, s.lost, l, Tag(addr, Unused));
    SetAside(routes, ls, guarded, s, k);
    NeverInstalled(routes, ls, k, s.peers[k], l, addr);
    SettleStep(k, routes, ls, s, routes, ls', s, guarded, {l});
  }

  /** e took over: what the peer's lease becomes, and where it is listed. */
  lemma AdoptStep(
    routes: Routes, ls: Leases, guarded: set<PublicKey>, s: Books, k: PublicKey, l: LeaseId, e: Endpoint, old_: Role)
    requires Good(routes, ls, guarded, s, {}, {k})
    requires s.phase == Live && k in s.peers && k !in s.transitions
    requires Trying(routes, ls, k, s.peers[k], l, e) && routes[k].selected == Some(e)
    requires old_ == Extra || (old_ == Unused && routes[k].uses == {e})
    ensures var v := s.peers[k];
            var ls' := Adopted(ls, k, v, l, e, old_);
            var s' := s.(peers :=
                s.peers[k := v.(active := Some(e), generation := routes[k].generation, lease := Some(l))],
                         extra := if old_ == Extra && v.lease.Some? then s.extra + [v.lease.value] else s.extra);
            && SameAddresses(ls, ls') && CoverAll(routes, ls', guarded)
            && Good(routes, ls', guarded, s', if old_ == Unused && v.lease.Some? then {v.lease.value} else {}, {})
  {
    hide PeersOk, Settled, CoverAll;
    var v := s.peers[k];
    var ls' := Adopted(ls, k, v, l, e, old_);
    var s' := s.(peers := s.peers[k := v.(active := Some(e), generation := routes[k].generation, lease := Some(l))],
                 extra := if old_ == Extra && v.lease.Some? then s.extra + [v.lease.value] else s.extra);
    AdoptSettles(routes, ls, k, v, l, e, old_);
    AdoptAddresses(ls, k, v, l, e, old_);
    hide Moves, CoversUses, Listed, Answered, Adopted, OnlyLease;
    AdoptConserves(ls, s, k, l, e, old_);
    assert s'.peers.Keys == s.peers.Keys;
    SettleStep(k, routes, ls, s, routes, ls', s', guarded, if old_ == Unused
        && v.lease.Some? then {v.lease.value} else {});
  }

  lemma AdoptAddresses(ls: Leases, k: PublicKey, v: PeerState, l: LeaseId, e: Endpoint, old_: Role)
    requires l in ls && ls[l].addr == e.addr
    ensures SameAddresses(ls, Adopted(ls, k, v, l, e, old_))
  {
  }

  lemma AdoptConserves(ls: Leases, s: Books, k: PublicKey, l: LeaseId, e: Endpoint, old_: Role)
    requires Conserved(ls, s, {}) && k in s.peers && l in ls && ls[l].role == Candidate(k, 0)
    requires Leased(ls, k, s.peers[k]) && (old_ == Extra || old_ == Unused)
    ensures var v := s.peers[k];
            var ls' := Adopted(ls, k, v, l, e, old_);
            && Listed(ls', s.retired, if old_ == Extra && v.lease.Some? then s.extra + [v.lease.value] else s.extra,
                      if old_ == Unused && v.lease.Some? then {v.lease.value} else {})
            && Answered(ls', s.peers.Keys + s.transitions.Keys, s.lost)
  {
    hide Listed, Answered;
    var v := s.peers[k];
    var keys := s.peers.Keys + s.transitions.Keys;
    Relist(ls, s.retired, s.extra, {}, keys, s.lost, l, Tag(e.addr, Current(k)));
    if v.lease.Some? {
      assert v.lease.value != l;
      var o := ls[v.lease.value];
      Relist(ls[l := Tag(e.addr, Current(k))], s.retired, s.extra, {}, keys, s.lost, v.lease.value, Tag(o.addr, old_));
      assert {} + {v.lease.value} == {v.lease.value};
    }
  }

  /** A lease that answered to a peer changes its role, and the lists follow. */
  lemma Relist(ls: Leases, retired: seq<LeaseId>, extra: seq<LeaseId>, hand: set<LeaseId>, keys: set<PublicKey>,
      lost: set<LeaseId>,
               l: LeaseId, t: Tag)
    requires Listed(ls, retired, extra, hand) && Answered(ls, keys, lost)
    requires l in ls && (ls[l].role.Current? || ls[l].role.Candidate?)
    requires (t.role.Current? || t.role.Candidate? ==> t.role.key in keys) && (t.role == Lost ==> l in lost)
    ensures Listed(ls[l := t], retired, if t.role == Extra then extra + [l] else extra,
                   if t.role == Unused then hand + {l} else hand)
    ensures Answered(ls[l := t], keys, lost)
  {
    hide Exactly;
    var ls' := ls[l := t];
    assert OfRole(ls', Unused) == OfRole(ls, Unused) + (if t.role == Unused then {l} else {});
    if t.role == Extra {
      assert OfRole(ls', Extra) == OfRole(ls, Extra) + {l};
      OneMore(extra, OfRole(ls, Extra), l);
    } else {
      assert OfRole(ls', Extra) == OfRole(ls, Extra);
    }
    assert OfRole(ls', Unused) - (if t.role == Unused then hand + {l} else hand) == OfRole(ls, Unused) - hand;
  }

  /** A new lease, answering to a peer or in hand. */
  lemma Enlist(ls: Leases, retired: seq<LeaseId>, extra: seq<LeaseId>, keys: set<PublicKey>, lost: set<LeaseId>,
      l: LeaseId, t: Tag)
    requires Listed(ls, retired, extra, {}) && Answered(ls, keys, lost) && l !in ls
    requires t.role == Unused || ((t.role.Current? || t.role.Candidate?) && t.role.key in keys)
    ensures Listed(ls[l := t], retired, extra, if t.role == Unused then {l} else {}) && Answered(ls[l := t], keys, lost)
  {
    hide Exactly;
    var ls' := ls[l := t];
    assert OfRole(ls', Unused) == OfRole(ls, Unused) + (if t.role == Unused then {l} else {});
    assert OfRole(ls', Extra) == OfRole(ls, Extra);
    assert OfRole(ls', Unused) - (if t.role == Unused then {l} else {}) == OfRole(ls, Unused) - {};
  }

  /** A lease is gone. */
  lemma Unlist(ls: Leases, retired: seq<LeaseId>, extra: seq<LeaseId>, hand: set<LeaseId>, keys: set<PublicKey>,
      lost: set<LeaseId>, l: LeaseId)
    requires Listed(ls, retired, extra, hand) && Answered(ls, keys, lost) && l in ls
               && (ls[l].role == Unused ==> l in hand)
    requires ls[l].role != Extra
    ensures Listed(ls - {l}, retired, extra, hand - {l}) && Answered(ls - {l}, keys, lost)
  {
    hide Exactly;
    var ls' := ls - {l};
    assert OfRole(ls', Unused) == OfRole(ls, Unused) - {l};
    assert OfRole(ls', Extra) == OfRole(ls, Extra);
    assert OfRole(ls', Unused) - (hand - {l}) == OfRole(ls, Unused) - hand;
  }

  /** The peer is back where it was: what the lease of the abandoned endpoint becomes. */
  lemma AbandonStep(
    routes: Routes, ls: Leases, guarded: set<PublicKey>, s: Books, k: PublicKey, l: LeaseId, e: Endpoint, new_: Role)
    requires Good(routes, ls, guarded, s, {}, {k})
    requires s.phase == Live && k in s.peers && k !in s.transitions && Trying(routes, ls, k, s.peers[k], l, e)
    requires s.peers[k].active.Some? && routes[k].selected == s.peers[k].active
    requires new_ == Extra || (new_ == Unused && routes[k].uses == {s.peers[k].active.value})
    ensures var ls' := ls[l := Tag(e.addr, new_)];
            var s' := s.(peers := s.peers[k := s.peers[k].(generation := routes[k].generation)],
                         extra := if new_ == Extra then s.extra + [l] else s.extra);
            && SameAddresses(ls, ls') && CoverAll(routes, ls', guarded)
            && Good(routes, ls', guarded, s', if new_ == Unused then {l} else {}, {})
  {
    hide PeersOk, Settled, CoverAll;
    var ls' := ls[l := Tag(e.addr, new_)];
    var s' := s.(peers := s.peers[k := s.peers[k].(generation := routes[k].generation)],
                 extra := if new_ == Extra then s.extra + [l] else s.extra);
    AbandonSettles(routes, ls, k, s.peers[k], l, e, new_);
    hide Moves, CoversUses, Listed, Answered;
    Relist(ls, s.retired, s.extra, {}, s.peers.Keys + s.transitions.Keys, s.lost, l, Tag(e.addr, new_));
    assert {} + {l} == {l} && s'.peers.Keys == s.peers.Keys;
    SettleStep(k, routes, ls, s, routes, ls', s', guarded, if new_ == Unused then {l} else {});
  }

  lemma CandidateCovers(ls: Leases, k: PublicKey, l: LeaseId, e: Endpoint)
    requires l in ls && ls[l].addr == e.addr && OfKey(ls[l].role, k)
    ensures Covered(ls, k, e)
  {
  }

  /** The endpoint a migration would fall back to is still leased. */
  lemma LeaseCovers(routes: Routes, ls: Leases, k: PublicKey, v: PeerState, l: LeaseId, e: Endpoint)
    requires Trying(routes, ls, k, v, l, e) && v.active.Some?
    ensures Covered(ls, k, v.active.value)
  {
  }

  /** After the core finalized, a trial uses nothing but the selected endpoint. */
  lemma FinalizedTrial(routes: Routes, ls: Leases, k: PublicKey, v: PeerState, l: LeaseId, e: Endpoint)
    requires Trying(routes, ls, k, v, l, e) && (routes[k].selected == Some(e) || routes[k].selected == v.active)
    ensures Trying(routes[k := routes[k].(uses := SelectedSet(routes[k]))], ls, k, v, l, e)
  {
  }

  // ---------- before and after the live phase ----------

  /** The first endpoint of a peer: a lease it still had is overwritten. */
  function FirstLeases(ls: Leases, k: PublicKey, v: PeerState, l: LeaseId, e: Endpoint): Leases {
    var ls1 := ls[l := Tag(e.addr, Current(k))];
    if v.lease.Some? && v.lease.value in ls then ls1[v.lease.value := Tag(ls[v.lease.value].addr, Lost)] else ls1
  }

  function Overwritten(v: PeerState): set<LeaseId> {
    if v.lease.Some? then {v.lease.value} else {}
  }

  lemma NothingYet(routes: Routes, s: Books)
    requires s.phase == Starting && s.retired == [] && s.extra == [] && s.transitions == map[]
    requires forall k :: k in s.peers ==> Unleased(s.peers[k]) && (k in routes ==> routes[k] == Route(None, 0, {}))
    ensures Good(routes, map[], {}, s, {}, {})
  {
  }

  lemma StartStep(routes: Routes, ls: Leases, s: Books, k: PublicKey, l: LeaseId, e: Endpoint, routes': Routes)
    requires Good(routes, ls, {}, s, {}, {}) && s.phase == Starting && s.transitions == map[]
    requires k in s.peers && s.peers[k].endpoint != "" && l !in ls && k in routes && RoutesBut(k, routes, routes')
    requires routes'[k] == if routes[k].generation == 1 then routes[k] else Route(Some(e), 1, routes[k].uses + {e})
    requires routes'[k].selected == Some(e)
    ensures var v := s.peers[k];
            var ls' := FirstLeases(ls, k, v, l, e);
            var s' := s.(peers := s.peers[k := v.(active := Some(e), generation := 1, lease := Some(l))],
                lost := s.lost + Overwritten(v));
            && Good(routes', ls', {}, s', {}, {})
            && SameAddresses(ls[l := Tag(e.addr, Candidate(k, 0))], ls')
  {
    hide PeerOk, PeersOk, Listed, Answered, FirstLeases, SameAddresses, OthersKept, Overwritten;
    var v := s.peers[k];
    var ls' := FirstLeases(ls, k, v, l, e);
    var s' := s.(peers := s.peers[k := v.(active := Some(e), generation := 1, lease := Some(l))],
        lost := s.lost + Overwritten(v));
    StartingPeer(routes, ls, s, k);
    FirstPeer(routes, ls, k, v, l, e, routes');
    StartConserves(ls, s, k, l, e);
    assert s'.peers.Keys == s.peers.Keys;
    NoUses(routes', ls');
    OthersStart(k, routes, ls, routes', ls', s, s');
  }

  lemma StartingPeer(routes: Routes, ls: Leases, s: Books, k: PublicKey)
    requires PeersOk(routes, ls, s, {}) && s.transitions == map[] && k in s.peers
    ensures PeerOk(routes, ls, s.phase, k, s.peers[k])
  {
  }

  lemma NoUses(routes: Routes, ls: Leases)
    ensures CoverAll(routes, ls, {})
  {
  }

  lemma FirstPeer(routes: Routes, ls: Leases, k: PublicKey, v: PeerState, l: LeaseId, e: Endpoint, routes': Routes)
    requires PeerOk(routes, ls, Starting, k, v) && v.endpoint != "" && l !in ls && k in routes && k in routes'
    requires routes'[k] == if routes[k].generation == 1 then routes[k] else Route(Some(e), 1, routes[k].uses + {e})
    requires routes'[k].selected == Some(e)
    ensures PeerOk(routes', FirstLeases(ls, k, v, l, e), Starting, k,
              v.(active := Some(e), generation := 1, lease := Some(l)))
    ensures SameAddresses(ls[l := Tag(e.addr, Candidate(k, 0))], FirstLeases(ls, k, v, l, e))
    ensures OthersKept(k, ls, FirstLeases(ls, k, v, l, e))
    ensures v.lease.Some? ==> v.lease.value in ls && ls[v.lease.value].role == Current(k)
  {
  }

  lemma OthersStart(k: PublicKey, routes: Routes, ls: Leases, routes': Routes, ls': Leases, s: Books, s': Books)
    requires PeersOk(routes, ls, s, {}) && s.phase != Live && OthersKept(k, ls, ls') && RoutesBut(k, routes, routes')
               && SameBut(k, s, s')
    requires s.transitions == map[] && k in s'.peers
    ensures PeerOk(routes', ls', s'.phase, k, s'.peers[k]) ==> PeersOk(routes', ls', s', {})
  {
    hide OthersKept, PeerOk;
    forall j | j in s'.peers && j != k
      ensures PeerOk(routes', ls', s'.phase, j, s'.peers[j])
    {
      OtherStarts(k, j, routes, ls, routes', ls', s.phase, s.peers[j]);
    }
  }

  lemma OtherStarts(
    k: PublicKey, j: PublicKey, routes: Routes, ls: Leases, routes': Routes, ls': Leases, phase: Phase, v: PeerState)
    requires PeerOk(routes, ls, phase, j, v) && phase != Live && OthersKept(k, ls, ls')
               && RoutesBut(k, routes, routes') && j != k
    ensures PeerOk(routes', ls', phase, j, v)
  {
  }

  lemma StartConserves(ls: Leases, s: Books, k: PublicKey, l: LeaseId, e: Endpoint)
    requires Conserved(ls, s, {}) && k in s.peers && l !in ls
    requires s.peers[k].lease.Some? ==> s.peers[k].lease.value in ls && ls[s.peers[k].lease.value].role == Current(k)
    ensures var v := s.peers[k];
            var ls' := FirstLeases(ls, k, v, l, e);
            && Listed(ls', s.retired, s.extra, {})
            && Answered(ls', s.peers.Keys + s.transitions.Keys, s.lost + Overwritten(v))
  {
    var v := s.peers[k];
    var keys, lost := s.peers.Keys + s.transitions.Keys, s.lost + Overwritten(v);
    var ls1 := ls[l := Tag(e.addr, Current(k))];
    assert Answered(ls, keys, lost);
    hide Listed, Answered;
    Enlist(ls, s.retired, s.extra, keys, lost, l, Tag(e.addr, Current(k)));
    if v.lease.Some? {
      Relist(ls1, s.retired, s.extra, {}, keys, lost, v.lease.value, Tag(ls[v.lease.value].addr, Lost));
    }
  }

  /** The leases of other peers are where they were. */
  ghost predicate OthersKept(k: PublicKey, ls: Leases, ls': Leases) {
    && (forall l :: l in ls && (ls[l].role.Current? || ls[l].role.Candidate?) && ls[l].role.key != k ==>
       l in ls' && ls'[l] == ls[l])
    && (forall l :: l in ls' && (ls'[l].role.Current? || ls'[l].role.Candidate?) && ls'[l].role.key != k ==>
       l in ls && ls'[l] == ls[l])
  }

  /** The core refused a first endpoint: its lease is used by nothing. */
  lemma StartRefused(routes: Routes, ls: Leases, s: Books, k: PublicKey, l: LeaseId, addr: nat)
    requires Good(routes, ls, {}, s, {}, {}) && s.phase != Live && s.transitions == map[] && k in s.peers && l !in ls
    ensures Good(routes, ls[l := Tag(addr, Unused)], {}, s, {l}, {})
    ensures SameAddresses(ls[l := Tag(addr, Candidate(k, 0))], ls[l := Tag(addr, Unused)])
  {
    var ls' := ls[l := Tag(addr, Unused)];
    assert PeerOk(routes, ls, s.phase, k, s.peers[k]);
    hide Listed, Answered;
    Enlist(ls, s.retired, s.extra, s.peers.Keys + s.transitions.Keys, s.lost, l, Tag(addr, Unused));
    assert OthersKept(k, ls, ls') && PeerOk(routes, ls', s.phase, k, s.peers[k]);
    hide PeersOk, Conserved, OthersKept, PeerOk;
    OthersStart(k, routes, ls, routes, ls', s, s);
  }

  /** Every peer has its first endpoint and a lease for it: the live phase begins. */
  lemma GoLive(routes: Routes, ls: Leases, s: Books)
    requires Good(routes, ls, {}, s, {}, {}) && s.phase == Starting && s.transitions == map[] && s.before == map[]
               && s.after == map[]
    requires forall k :: k in s.peers ==> s.peers[k].endpoint == "" || s.peers[k].lease.Some?
    ensures CoverAll(routes, ls, s.peers.Keys) && Good(routes, ls, s.peers.Keys, s.(phase := Live), {}, {})
  {
  }

  /** Outside the live phase a peer's lease can be let go. */
  lemma LetGo(routes: Routes, ls: Leases, s: Books, k: PublicKey, l: LeaseId)
    requires Good(routes, ls, {}, s, {}, {}) && s.phase != Live && s.transitions == map[]
    requires k in s.peers && s.peers[k].lease == Some(l)
    ensures l in ls && Good(routes, ls - {l}, {}, s.(peers := s.peers[k := s.peers[k].(lease := None)]), {}, {})
  {
    var ls' := ls - {l};
    var v := s.peers[k];
    var s' := s.(peers := s.peers[k := v.(lease := None)]);
    assert PeerOk(routes, ls, s.phase, k, v);
    assert s'.peers.Keys == s.peers.Keys;
    hide Listed, Answered;
    Unlist(ls, s.retired, s.extra, {}, s.peers.Keys + s.transitions.Keys, s.lost, l);
    assert {} - {l} == {};
    assert OthersKept(k, ls, ls') && PeerOk(routes, ls', s.phase, k, v.(lease := None));
    hide PeersOk, Conserved, OthersKept, PeerOk;
    OthersStart(k, routes, ls, routes, ls', s, s');
  }

  /** Outside the live phase an extra lease can be let go. */
  lemma LetGoExtra(routes: Routes, ls: Leases, s: Books, before: seq<LeaseId>, l: LeaseId, rest: seq<LeaseId>)
    requires Good(routes, ls, {}, s, {}, {}) && s.phase != Live && s.transitions == map[]
    requires s.extra == before + [l] + rest
    ensures l in ls && Good(routes, ls - {l}, {}, s.(extra := before + rest), {}, {})
  {
    hide Listed, PeerOk;
    ListedWithout(ls, s.retired, before, l, rest);
    var ls' := ls - {l};
    forall k | k in s.peers
      ensures PeerOk(routes, ls', s.phase, k, s.peers[k])
    {
      LessExtra(routes, ls, s.phase, k, s.peers[k], l);
    }
  }

  lemma LessExtra(routes: Routes, ls: Leases, phase: Phase, k: PublicKey, v: PeerState, l: LeaseId)
    requires PeerOk(routes, ls, phase, k, v) && phase != Live && l in ls && ls[l].role == Extra
    ensures PeerOk(routes, ls - {l}, phase, k, v)
  {
  }

  lemma ListedWithout(ls: Leases, retired: seq<LeaseId>, before: seq<LeaseId>, l: LeaseId, rest: seq<LeaseId>)
    requires Listed(ls, retired, before + [l] + rest, {})
    ensures l in ls && ls[l].role == Extra && Listed(ls - {l}, retired, before + rest, {})
  {
    OneLess(before, l, rest, OfRole(ls, Extra));
    assert OfRole(ls - {l}, Extra) == OfRole(ls, Extra) - {l};
    assert OfRole(ls - {l}, Unused) == OfRole(ls, Unused);
  }

  /** Taking one lease off the retired list leaves it in hand. */
  lemma TakeInHand(routes: Routes, ls: Leases, guarded: set<PublicKey>, s: Books, before: seq<LeaseId>, l: LeaseId,
      rest: seq<LeaseId>)
    requires Good(routes, ls, guarded, s, {}, {}) && s.retired == before + [l] + rest
    ensures Good(routes, ls, guarded, s.(retired := before + rest), {l}, {})
  {
    hide PeerOk, Moving, CoverAll;
    OneLess(before, l, rest, OfRole(ls, Unused) - {});
    assert OfRole(ls, Unused) - {l} == OfRole(ls, Unused) - {} - {l};
  }

  /** With both lists empty and no peer holding a lease, none is left that anyone
      could release. */
  lemma AllGone(routes: Routes, ls: Leases, s: Books)
    requires Good(routes, ls, {}, s, {}, {}) && s.phase != Live && s.transitions == map[]
    requires s.retired == [] && s.extra == [] && forall k :: k in s.peers ==> s.peers[k].lease.None?
    ensures ls.Keys <= s.lost
  {
    forall k | k in s.peers
      ensures forall l :: l in ls ==> !OfKey(ls[l].role, k)
    {
      assert PeerOk(routes, ls, s.phase, k, s.peers[k]);
    }
    forall l | l in ls
      ensures ls[l].role == Lost
    {
      assert l !in multiset(s.retired) && l !in multiset(s.extra);
      assert l !in OfRole(ls, Unused) - {} && l !in OfRole(ls, Extra);
    }
  }

  lemma StartingFacts(routes: Routes, ls: Leases, guarded: set<PublicKey>, s: Books, k: PublicKey)
    requires Good(routes, ls, guarded, s, {}, {}) && s.phase == Starting && s.transitions == map[] && k in s.peers
    ensures guarded == {} && Startable(routes, k, s.peers[k]) && (k in routes ==> routes[k].generation <= 1)
    ensures s.peers[k].endpoint == "" ==> s.peers[k].lease == None
  {
  }

  /** Closing gives up agreement and coverage, not the leases. */
  lemma ShutDown(routes: Routes, ls: Leases, guarded: set<PublicKey>, s: Books)
    requires Good(routes, ls, guarded, s, {}, {}) && s.transitions == map[]
    ensures Good(routes, ls, {}, s.(phase := Closed), {}, {})
  {
  }
}
