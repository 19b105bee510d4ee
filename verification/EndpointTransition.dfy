/** The steps of a peer-set transaction, for one peer: each keeps `Moving`, and the
    last ones lead back to `Settled`. */
module EndpointTransition {
  import opened Wrappers
  import opened FecLeases
  import opened EndpointProtocol

  function NewTransition(before: Option<PeerState>, after: Option<PeerState>): Transition {
    Transition([], false, false, false, None, OrBlank(before).generation, before, after)
  }

  function Drop(t: Transition, i: nat): Transition
    requires i < |t.candidates|
  {
    t.(candidates := t.candidates[i := t.candidates[i].(lease := None)])
  }

  ghost predicate NoLeases(ls: Leases, k: PublicKey) {
    forall l :: l in ls ==> !OfKey(ls[l].role, k)
  }

  // ---------- preparing ----------

  lemma Begin(routes: Routes, ls: Leases, k: PublicKey, v: PeerState, after: Option<PeerState>)
    requires Settled(routes, ls, k, v)
    ensures Moving(routes, ls, k, NewTransition(Some(v), after), Some(v), after, Open)
  {
  }

  lemma BeginNew(routes: Routes, ls: Leases, k: PublicKey, after: Option<PeerState>)
    requires NoLeases(ls, k) && (k in routes ==> routes[k] == Route(None, 0, {}))
    ensures Moving(routes, ls, k, NewTransition(None, after), None, after, Open)
  {
  }

  lemma NewEndpointless(routes: Routes, ls: Leases, k: PublicKey, t: Transition, before: Option<PeerState>,
      after: Option<PeerState>)
    requires Moving(routes, ls, k, t, before, after, Open) && !t.installed && !t.restored && t.activeCandidate == None
               && t.candidates == []
    requires before.None? && after.Some? && after.value.endpoint == "" && Unleased(after.value)
               && t.currentGeneration == 0
    ensures Committable(routes, k, t, before, after)
  {
  }

  lemma CandidateAcquired(
    routes: Routes, ls: Leases, k: PublicKey, t: Transition, before: Option<PeerState>, after: Option<PeerState>,
    l: LeaseId, e: Endpoint)
    requires Moving(routes, ls, k, t, before, after, Open) && !t.installed && l !in ls
    ensures var ls' := ls[l := Tag(e.addr, Candidate(k, |t.candidates|))];
            Moving(routes, ls', k, t.(candidates := t.candidates + [CandidateRoute(e, Some(l))]), before, after, Open)
  {
    var ls' := ls[l := Tag(e.addr, Candidate(k, |t.candidates|))];
    if k in routes {
      MoreFirm(ls, k, routes[k].uses, l, ls'[l]);
    }
  }

  lemma MoreFirm(ls: Leases, k: PublicKey, uses: set<Endpoint>, l: LeaseId, t: Tag)
    requires FirmlyCovers(ls, k, uses) && l !in ls
    ensures FirmlyCovers(ls[l := t], k, uses) && CoversUses(ls[l := t], k, uses)
  {
    var ls' := ls[l := t];
    forall e | e in uses
      ensures exists m :: m in ls' && ls'[m].addr == e.addr && (ls'[m].role == Current(k) || ls'[m].role == Extra)
    {
      var m :| m in ls && ls[m].addr == e.addr && (ls[m].role == Current(k) || ls[m].role == Extra);
      assert m in ls' && ls'[m] == ls[m];
    }
    FirmCovers(ls[l := t], k, uses);
  }

  lemma FirmCovers(ls: Leases, k: PublicKey, uses: set<Endpoint>)
    requires FirmlyCovers(ls, k, uses)
    ensures CoversUses(ls, k, uses)
  {
  }

  lemma CandidateInstalled(
    routes: Routes, ls: Leases, k: PublicKey, t: Transition, before: Option<PeerState>, after: Option<PeerState>,
        i: nat)
    requires Moving(routes, ls, k, t, before, after, Open) && k in routes && !t.restored && !t.coreFinalized
    requires i < |t.candidates| && t.candidates[i].lease.Some?
    ensures var e := t.candidates[i].endpoint;
            && Covered(ls, k, e)
            && Moving(routes[k := Route(Some(e), t.currentGeneration + 1, routes[k].uses + {e})], ls, k,
                      t.(installed := true, currentGeneration := t.currentGeneration + 1), before, after, Open)
  {
  }

  lemma EndpointCleared(routes: Routes, ls: Leases, k: PublicKey, t: Transition, before: Option<PeerState>,
      after: Option<PeerState>)
    requires Moving(routes, ls, k, t, before, after, Open) && k in routes && !t.restored && !t.coreFinalized
    ensures Moving(routes[k := Route(None, t.currentGeneration + 1, routes[k].uses)], ls, k,
                   t.(installed := true, currentGeneration := t.currentGeneration + 1), before, after, Open)
  {
  }

  /** Which candidate is chosen, and what the new state says, is only fixed later. */
  lemma Choosing(
    routes: Routes, ls: Leases, k: PublicKey, t: Transition, before: Option<PeerState>, after: Option<PeerState>,
    active: Option<nat>, next: Option<PeerState>)
    requires Moving(routes, ls, k, t, before, after, Open) && Aimed(after, next)
    ensures Moving(routes, ls, k, t.(activeCandidate := active), before, next, Open)
  {
  }

  // ---------- restoring ----------

  function AtGeneration(v: Option<PeerState>, generation: nat): Option<PeerState> {
    if v.Some? then Some(v.value.(generation := generation)) else None
  }

  lemma BeforeRestored(
    routes: Routes, ls: Leases, k: PublicKey, t: Transition, before: Option<PeerState>, after: Option<PeerState>,
        restored: bool)
    requires Moving(routes, ls, k, t, before, after, Open) && k in routes && t.installed && !t.coreFinalized
               && (t.restored ==> restored)
    ensures var b := OrBlank(before);
            var uses := routes[k].uses + if b.active.Some? then {b.active.value} else {};
            && (b.active.Some? ==> Covered(ls, k, b.active.value))
            && Moving(routes[k := Route(b.active, t.currentGeneration + 1, uses)], ls, k,
                      t.(restored := restored, currentGeneration := t.currentGeneration + 1),
                      AtGeneration(before, t.currentGeneration + 1), after, Open)
            && Unmoved(t.origin, true, AtGeneration(before, t.currentGeneration + 1))
  {
  }

  lemma BeforeCovers(routes: Routes, ls: Leases, k: PublicKey, t: Transition, before: Option<PeerState>,
      after: Option<PeerState>)
    requires Moving(routes, ls, k, t, before, after, Open) && OrBlank(before).active.Some?
    ensures Covered(ls, k, OrBlank(before).active.value)
  {
  }

  lemma CoreFinalized(
    routes: Routes, ls: Leases, k: PublicKey, t: Transition, before: Option<PeerState>, after: Option<PeerState>,
    stage: Stage, coreFinalized: bool)
    requires Moving(routes, ls, k, t, before, after, stage) && k in routes && t.installed
               && SelectedSet(routes[k]) <= routes[k].uses
    requires (t.coreFinalized ==> coreFinalized)
               && (coreFinalized && !t.coreFinalized && stage != Finalizing ==> t.restored)
    ensures Moving(routes[k := routes[k].(uses := SelectedSet(routes[k]))], ls, k, t.(coreFinalized := coreFinalized),
              before, after, stage)
  {
  }

  lemma MarkRestored(routes: Routes, ls: Leases, k: PublicKey, t: Transition, before: Option<PeerState>,
      after: Option<PeerState>)
    requires Moving(routes, ls, k, t, before, after, Open) && t.installed && k in routes
               && routes[k].selected == OrBlank(before).active
    requires before.Some? ==> before.value.generation == t.currentGeneration
    requires Unmoved(t.origin, true, before)
    ensures Moving(routes, ls, k, t.(restored := true), before, after, Open)
  {
  }

  lemma MarkFinalized(
    routes: Routes, ls: Leases, k: PublicKey, t: Transition, before: Option<PeerState>, after: Option<PeerState>,
        stage: Stage)
    requires Moving(routes, ls, k, t, before, after, stage) && t.installed && k in routes
               && routes[k].uses == SelectedSet(routes[k])
    requires stage != Finalizing ==> t.restored
    ensures Moving(routes, ls, k, t.(coreFinalized := true), before, after, stage)
  {
  }

  lemma HomeHolds(routes: Routes, ls: Leases, k: PublicKey, t: Transition, before: Option<PeerState>,
      after: Option<PeerState>)
    requires Moving(routes, ls, k, t, before, after, Open) && (t.installed ==> t.restored && t.coreFinalized)
    ensures Home(routes, k, t, before)
  {
  }

  /** Everything k still uses is covered by the lease it had before. */
  ghost predicate Home(routes: Routes, k: PublicKey, t: Transition, before: Option<PeerState>) {
    t.installed && k in routes ==>
        routes[k].selected == OrBlank(before).active && routes[k].uses == SelectedSet(routes[k])
  }

  /** Then a candidate's lease can go. */
  lemma CandidateReleased(
    routes: Routes, ls: Leases, k: PublicKey, t: Transition, before: Option<PeerState>, after: Option<PeerState>,
        i: nat)
    requires Moving(routes, ls, k, t, before, after, Open) && Home(routes, k, t, before)
    requires i < |t.candidates| && t.candidates[i].lease.Some?
    ensures var ls' := ls - {t.candidates[i].lease.value};
            && (k in routes ==> CoversUses(ls', k, routes[k].uses) && FirmlyCovers(ls', k, routes[k].uses))
            && Moving(routes, ls', k, Drop(t, i), before, after, Open)
  {
    var l := t.candidates[i].lease.value;
    var ls' := ls - {l};
    if k in routes {
      HomeIsFirm(routes, ls, k, t, before, after);
      LessFirm(ls, k, routes[k].uses, l);
      FirmCovers(ls', k, routes[k].uses);
    }
    assert OwnLeases(ls', k, OrBlank(before).lease, Drop(t, i).candidates);
  }

  lemma HomeIsFirm(routes: Routes, ls: Leases, k: PublicKey, t: Transition, before: Option<PeerState>,
      after: Option<PeerState>)
    requires Moving(routes, ls, k, t, before, after, Open) && Home(routes, k, t, before) && k in routes
    ensures FirmlyCovers(ls, k, routes[k].uses)
  {
  }

  lemma LessFirm(ls: Leases, k: PublicKey, uses: set<Endpoint>, l: LeaseId)
    requires FirmlyCovers(ls, k, uses) && (l in ls ==> ls[l].role.Candidate?)
    ensures FirmlyCovers(ls - {l}, k, uses)
  {
    forall e | e in uses
      ensures exists m :: m in ls - {l} && (ls - {l})[m].addr == e.addr
                && ((ls - {l})[m].role == Current(k) || (ls - {l})[m].role == Extra)
    {
      var m :| m in ls && ls[m].addr == e.addr && (ls[m].role == Current(k) || ls[m].role == Extra);
      assert m in ls - {l} && (ls - {l})[m] == ls[m];
    }
  }

  /** A failed candidate, restored, finalized and released, was never there. */
  lemma CandidateForgotten(routes: Routes, ls: Leases, k: PublicKey, t: Transition, before: Option<PeerState>,
      after: Option<PeerState>)
    requires Moving(routes, ls, k, t, before, after, Open) && !t.restored && !t.coreFinalized
    requires k in routes && FirmlyCovers(ls, k, routes[k].uses) && routes[k].selected == OrBlank(before).active
    requires before.Some? ==> before.value.generation == t.currentGeneration
    ensures Moving(routes, ls, k, t.(installed := false), before, after, Open)
  {
  }

  // ---------- the ends ----------

  predicate NoCandidateLeases(t: Transition) {
    forall i :: 0 <= i < |t.candidates| ==> t.candidates[i].lease.None?
  }

  /** Rolled back: k is settled where it was, or has nothing left. */
  lemma RolledBackSettles(routes: Routes, ls: Leases, k: PublicKey, t: Transition, before: Option<PeerState>,
      after: Option<PeerState>)
    requires Moving(routes, ls, k, t, before, after, Open) && (t.installed ==> t.restored && t.coreFinalized)
               && NoCandidateLeases(t)
    ensures before.Some? ==> Settled(routes, ls, k, before.value)
    ensures before.None? ==> NoLeases(ls, k)
  {
  }

  lemma NothingToHand(ls: Leases, s: Books)
    requires forall k :: k in s.transitions ==> NoCandidateLeases(s.transitions[k])
    requires forall k :: k in s.transitions ==>
               OwnLeases(ls, k, OrBlank(Lookup(s.before, k)).lease, s.transitions[k].candidates)
    ensures HandedOver(ls, s.transitions.Keys) == ls
  {
  }

  /** Finalizing, the old lease can go. */
  lemma OldReleased(routes: Routes, ls: Leases, k: PublicKey, t: Transition, before: Option<PeerState>,
      after: Option<PeerState>)
    requires Moving(routes, ls, k, t, before, after, Finalizing) && (t.installed ==> t.coreFinalized)
    requires before.Some? && before.value.lease.Some?
    ensures var ls' := ls - {before.value.lease.value};
            && (k in routes && after.Some? ==> CoversUses(ls', k, routes[k].uses))
            && Moving(routes, ls', k, t, Some(before.value.(lease := None)), after, Finalizing)
  {
    var ls' := ls - {before.value.lease.value};
    if k in routes && after.Some? && t.activeCandidate.Some? {
      var i := t.activeCandidate.value;
      CandidateCovers(ls', k, t.candidates[i].lease.value, t.candidates[i].endpoint);
    }
  }

  /** Finalizing, the lease of a candidate that was not chosen can go. */
  lemma SpareReleased(
    routes: Routes, ls: Leases, k: PublicKey, t: Transition, before: Option<PeerState>, after: Option<PeerState>,
        i: nat)
    requires Moving(routes, ls, k, t, before, after, Finalizing) && (t.installed ==> t.coreFinalized)
    requires i < |t.candidates| && t.candidates[i].lease.Some? && t.activeCandidate != Some(i)
    ensures var ls' := ls - {t.candidates[i].lease.value};
            && (k in routes && after.Some? ==> CoversUses(ls', k, routes[k].uses))
            && Moving(routes, ls', k, Drop(t, i), before, after, Finalizing)
  {
    var ls' := ls - {t.candidates[i].lease.value};
    if t.activeCandidate.Some? {
      var j := t.activeCandidate.value;
      CandidateCovers(ls', k, t.candidates[j].lease.value, t.candidates[j].endpoint);
    }
    assert OwnLeases(ls', k, OrBlank(before).lease, Drop(t, i).candidates);
  }

  predicate OnlyActiveLease(t: Transition) {
    forall i :: 0 <= i < |t.candidates| && t.activeCandidate != Some(i) ==> t.candidates[i].lease.None?
  }

  /** The transaction lets go of `keys`: the candidate that was chosen becomes current. */
  function HandedOver(ls: Leases, keys: set<PublicKey>): (r: Leases)
    ensures r.Keys == ls.Keys
  {
    map l | l in ls ::
      if ls[l].role.Candidate? && ls[l].role.key in keys then Tag(ls[l].addr, Current(ls[l].role.key)) else ls[l]
  }

  /** Finalized: k is settled where it went, or has nothing left. */
  lemma FinalizedSettles(
    routes: Routes, ls: Leases, k: PublicKey, t: Transition, before: Option<PeerState>, after: Option<PeerState>,
        keys: set<PublicKey>)
    requires Moving(routes, ls, k, t, before, after, Finalizing) && (t.installed ==> t.coreFinalized)
               && OnlyActiveLease(t)
    requires OrBlank(before).lease.None? && k in keys
    ensures after.Some? ==> Settled(routes, HandedOver(ls, keys), k, after.value)
    ensures after.None? ==> NoLeases(HandedOver(ls, keys), k)
  {
    var ls' := HandedOver(ls, keys);
    if after.Some? {
      if t.activeCandidate.Some? {
        var l := t.candidates[t.activeCandidate.value].lease.value;
        assert l in ls' && ls'[l].role == Current(k);
        if k in routes {
          CandidateCovers(ls', k, l, t.candidates[t.activeCandidate.value].endpoint);
        }
      }
    }
  }

  // ---------- one peer among all ----------

  /** Nothing but k's part of the books and of the core's routes changed. */
  predicate Spares(k: PublicKey, routes: Routes, s: Books, routes': Routes, s': Books) {
    && RoutesBut(k, routes, routes') && SameBut(k, s, s')
    && s'.retired == s.retired && s'.extra == s.extra && s'.lost == s.lost
    && s'.before.Keys == s.before.Keys && s'.after.Keys == s.after.Keys
  }

  lemma SparesSelf(k: PublicKey, routes: Routes, s: Books)
    ensures Spares(k, routes, s, routes, s)
  {
  }

  lemma SparesTwice(
    k: PublicKey, routes: Routes, s: Books, routes': Routes, s': Books, routes'': Routes, s'': Books)
    requires Spares(k, routes, s, routes', s') && Spares(k, routes', s', routes'', s'')
    ensures Spares(k, routes, s, routes'', s'')
  {
  }

  ghost predicate Moved(routes: Routes, ls: Leases, s: Books, k: PublicKey) {
    k in s.transitions && Moving(routes, ls, k, s.transitions[k], Lookup(s.before, k), Lookup(s.after, k), s.stage)
  }

  lemma TakeOut(routes: Routes, ls: Leases, guarded: set<PublicKey>, s: Books, k: PublicKey)
    requires Good(routes, ls, guarded, s, {}, {}) && k in s.transitions
    ensures Good(routes, ls, guarded, s, {}, {k}) && Moved(routes, ls, s, k)
  {
  }

  lemma PutBack(routes: Routes, ls: Leases, guarded: set<PublicKey>, s: Books, k: PublicKey)
    requires Good(routes, ls, guarded, s, {}, {k}) && Moved(routes, ls, s, k)
    ensures Good(routes, ls, guarded, s, {}, {})
  {
  }

  /** The rest is untouched by what k does. */
  lemma KeepOthers(
    k: PublicKey, routes: Routes, ls: Leases, s: Books, routes': Routes, ls': Leases, s': Books,
        guarded: set<PublicKey>)
    requires Good(routes, ls, guarded, s, {}, {k}) && Moves(k, ls, ls') && Spares(k, routes, s, routes', s')
    requires CoverAll(routes', ls', guarded) && Conserved(ls', s', {})
    ensures Good(routes', ls', guarded, s', {}, {k})
  {
    hide Moves, PeersOk, CoverAll, Conserved;
    MovesKeepPeers(k, routes, ls, s, routes', ls', s');
  }

  lemma SameBooks(k: PublicKey, routes: Routes, ls: Leases, s: Books, s': Books, guarded: set<PublicKey>)
    requires Good(routes, ls, guarded, s, {}, {k}) && Spares(k, routes, s, routes, s')
    ensures Good(routes, ls, guarded, s', {}, {k})
  {
  }

  /** A new candidate's lease, or the end of one of k's leases, is k's business only. */
  lemma LeaseAdded(k: PublicKey, routes: Routes, ls: Leases, s: Books, guarded: set<PublicKey>, l: LeaseId, t: Tag)
    requires Good(routes, ls, guarded, s, {}, {k}) && k in s.transitions && l !in ls && t.role.Candidate?
               && t.role.key == k
    ensures Good(routes, ls[l := t], guarded, s, {}, {k})
  {
    hide PeersOk, CoverAll, Listed, Answered;
    assert Moves(k, ls, ls[l := t]);
    MoreCover(routes, ls, guarded, l, t);
    Enlist(ls, s.retired, s.extra, s.peers.Keys + s.transitions.Keys, s.lost, l, t);
    SparesSelf(k, routes, s);
    hide Moves;
    KeepOthers(k, routes, ls, s, routes, ls[l := t], s, guarded);
  }

  lemma LeaseDropped(k: PublicKey, routes: Routes, ls: Leases, s: Books, guarded: set<PublicKey>, l: LeaseId)
    requires Good(routes, ls, guarded, s, {}, {k}) && l in ls && OfKey(ls[l].role, k)
    requires k in guarded && k in routes ==> CoversUses(ls - {l}, k, routes[k].uses)
    ensures CoverAll(routes, ls - {l}, guarded) && Good(routes, ls - {l}, guarded, s, {}, {k})
  {
    hide PeersOk, CoverAll, Listed, Answered;
    assert Moves(k, ls, ls - {l});
    Unlist(ls, s.retired, s.extra, {}, s.peers.Keys + s.transitions.Keys, s.lost, l);
    assert {} - {l} == {};
    SparesSelf(k, routes, s);
    hide Moves;
    MovesCoverAll(k, routes, ls, routes, ls - {l}, guarded);
    KeepOthers(k, routes, ls, s, routes, ls - {l}, s, guarded);
  }

  lemma SparesCore(k: PublicKey, routes: Routes, s: Books, routes': Routes)
    requires RoutesBut(k, routes, routes')
    ensures Spares(k, routes, s, routes', s)
  {
  }

  // ---------- the whole set ----------

  predicate CommittableAt(routes: Routes, s: Books, k: PublicKey) {
    k in s.transitions && Committable(routes, k, s.transitions[k], Lookup(s.before, k), Lookup(s.after, k))
  }

  predicate ChosenAt(routes: Routes, s: Books, k: PublicKey) {
    k in s.transitions && Chosen(routes, k, s.transitions[k], Lookup(s.before, k), Lookup(s.after, k))
  }

  /** Not touched by the transaction yet. */
  predicate FreshAt(s: Books, k: PublicKey) {
    && k in s.transitions && s.transitions[k] == NewTransition(Lookup(s.before, k), Lookup(s.after, k))
    && (k in s.after ==> Unleased(s.after[k]))
  }

  /** k is back where it was and the core has finalized that. */
  predicate HomeAt(s: Books, k: PublicKey) {
    k in s.transitions && (s.transitions[k].installed ==> s.transitions[k].restored && s.transitions[k].coreFinalized)
  }

  predicate FinalAt(s: Books, k: PublicKey) {
    k in s.transitions && (s.transitions[k].installed ==> s.transitions[k].coreFinalized)
  }

  predicate OldReleasedAt(s: Books, k: PublicKey) {
    k in s.before ==> s.before[k].lease.None?
  }

  lemma SparesAt(k: PublicKey, j: PublicKey, routes: Routes, s: Books, routes': Routes, s': Books)
    requires Spares(k, routes, s, routes', s') && j != k
    ensures CommittableAt(routes, s, j) ==> CommittableAt(routes', s', j)
    ensures ChosenAt(routes, s, j) ==> ChosenAt(routes', s', j)
    ensures FreshAt(s, j) ==> FreshAt(s', j)
    ensures HomeAt(s, j) ==> HomeAt(s', j)
    ensures FinalAt(s, j) ==> FinalAt(s', j)
    ensures OldReleasedAt(s, j) && j in s.transitions ==> OldReleasedAt(s', j)
  {
  }

  lemma StagedAt(routes: Routes, s: Books, stage: Stage, peers: map<PublicKey, PeerState>, k: PublicKey)
    ensures var s' := s.(stage := stage, peers := peers);
            && CommittableAt(routes, s', k) == CommittableAt(routes, s, k)
               && ChosenAt(routes, s', k) == ChosenAt(routes, s, k)
            && HomeAt(s', k) == HomeAt(s, k) && FinalAt(s', k) == FinalAt(s, k)
               && OldReleasedAt(s', k) == OldReleasedAt(s, k)
  {
  }

  /** Moving on to the next stage asks more, or less, of each peer. */
  lemma StageStep(routes: Routes, ls: Leases, guarded: set<PublicKey>, s: Books, stage: Stage)
    requires Good(routes, ls, guarded, s, {}, {}) && s.stage != Finalizing && stage != Finalizing
    requires stage == Complete ==> forall k :: k in s.transitions ==> CommittableAt(routes, s, k)
    requires stage == Committed ==> forall k :: k in s.transitions ==> ChosenAt(routes, s, k)
    ensures Good(routes, ls, guarded, s.(stage := stage), {}, {})
  {
  }

  /** Finalizing begins: the peers that go are no longer guarded. */
  lemma FinalizeStep(routes: Routes, ls: Leases, guarded: set<PublicKey>, s: Books, guarded': set<PublicKey>)
    requires Good(routes, ls, guarded, s, {}, {}) && (s.stage == Committed || s.stage == Finalizing) && s.phase == Live
    requires s.peers.Keys <= guarded' <= guarded
    ensures Good(routes, ls, guarded', s.(stage := Finalizing), {}, {}) && CoverAll(routes, ls, guarded')
  {
    hide PeerOk, Moving, Conserved, CoversUses;
    forall k | k in s.transitions
      ensures Moving(routes, ls, k, s.transitions[k], Lookup(s.before, k), Lookup(s.after, k), Finalizing)
    {
      FinallyMoving(routes, ls, k, s.transitions[k], Lookup(s.before, k), Lookup(s.after, k), s.stage);
    }
    SameLists(ls, s);
  }

  lemma FinallyMoving(
    routes: Routes, ls: Leases, k: PublicKey, t: Transition, before: Option<PeerState>, after: Option<PeerState>,
        stage: Stage)
    requires Moving(routes, ls, k, t, before, after, stage) && (stage == Committed || stage == Finalizing)
    ensures Moving(routes, ls, k, t, before, after, Finalizing)
  {
  }

  lemma SameLists(ls: Leases, s: Books)
    requires Conserved(ls, s, {})
    ensures Conserved(ls, s.(stage := Finalizing), {})
  {
  }

  /** Another projection of the peer set is published; peers outside the transaction
      are the same in both. */
  lemma PublishStep(routes: Routes, ls: Leases, guarded: set<PublicKey>, s: Books, peers: map<PublicKey, PeerState>)
    requires Good(routes, ls, guarded, s, {}, {}) && s.stage != Finalizing && s.phase == Live
    requires peers.Keys - s.transitions.Keys == s.peers.Keys - s.transitions.Keys
    requires forall k :: k in peers && k in s.peers && k !in s.transitions ==> peers[k] == s.peers[k]
    requires peers.Keys * s.transitions.Keys <= s.before.Keys + s.after.Keys
    ensures Good(routes, ls, guarded, s.(peers := peers), {}, {})
  {
    hide PeerOk, Moving, Listed, CoverAll;
    var ks := s.transitions.Keys;
    assert peers.Keys + ks == (peers.Keys - ks) + ks && s.peers.Keys + ks == (s.peers.Keys - ks) + ks;
    forall k | k in peers && k !in s.transitions
      ensures k in s.peers && peers[k] == s.peers[k]
    {
      assert k in peers.Keys - s.transitions.Keys;
    }
    forall k | k in peers
      ensures k in guarded
    {
      if k !in s.transitions {
        assert k in s.peers;
      } else {
        assert k in peers.Keys * s.transitions.Keys;
      }
    }
  }

  /** The transaction lets go: every peer it held is settled, or gone without a lease. */
  lemma ReleaseStep(routes: Routes, ls: Leases, guarded: set<PublicKey>, s: Books)
    requires Good(routes, ls, guarded, s, {}, {}) && s.phase == Live
    requires forall k :: k in s.transitions && k in s.peers ==>
               Settled(routes, HandedOver(ls, s.transitions.Keys), k, s.peers[k])
    requires forall k :: k in s.transitions && k !in s.peers ==> NoLeases(HandedOver(ls, s.transitions.Keys), k)
    ensures var ls' := HandedOver(ls, s.transitions.Keys);
            && SameAddresses(ls, ls') && CoverAll(routes, ls', guarded)
            && Good(routes, ls', guarded, s.(stage := Open, transitions := map[], before := map[], after := map[]), {},
               {})
  {
    var ls' := HandedOver(ls, s.transitions.Keys);
    var s' := s.(stage := Open, transitions := map[], before := map[], after := map[]);
    HandedCover(routes, ls, guarded, s.transitions.Keys);
    HandedConserves(ls, s);
    hide Settled, Moving, CoverAll, Conserved, HandedOver;
    forall k | k in s'.peers
      ensures PeerOk(routes, ls', Live, k, s'.peers[k])
    {
      if k !in s.transitions {
        assert PeerOk(routes, ls, Live, k, s.peers[k]);
        HandedSettled(routes, ls, k, s.peers[k], s.transitions.Keys);
      }
    }
  }

  lemma HandedCover(routes: Routes, ls: Leases, guarded: set<PublicKey>, keys: set<PublicKey>)
    requires CoverAll(routes, ls, guarded)
    ensures CoverAll(routes, HandedOver(ls, keys), guarded)
  {
  }

  lemma HandedSettled(routes: Routes, ls: Leases, k: PublicKey, v: PeerState, keys: set<PublicKey>)
    requires Settled(routes, ls, k, v) && k !in keys
    ensures Settled(routes, HandedOver(ls, keys), k, v)
  {
  }

  lemma HandedConserves(ls: Leases, s: Books)
    requires Conserved(ls, s, {})
    requires forall k :: k in s.transitions && k !in s.peers ==> NoLeases(HandedOver(ls, s.transitions.Keys), k)
    ensures Conserved(HandedOver(ls, s.transitions.Keys),
              s.(stage := Open, transitions := map[], before := map[], after := map[]), {})
  {
    var ls' := HandedOver(ls, s.transitions.Keys);
    assert OfRole(ls', Unused) == OfRole(ls, Unused) && OfRole(ls', Extra) == OfRole(ls, Extra);
    forall l | l in ls' && (ls'[l].role.Current? || ls'[l].role.Candidate?)
      ensures ls'[l].role.key in s.peers
    {
      assert OfKey(ls'[l].role, ls'[l].role.key);
    }
  }

  // ---------- what no step of a transaction changes ----------

  /** Peers outside the transaction, and the states it found. */
  predicate Steady(s: Books, s': Books) {
    && s'.transitions.Keys == s.transitions.Keys && s'.before.Keys == s.before.Keys && s'.after.Keys == s.after.Keys
    && (forall k :: k in s.transitions ==> Fixed(s.transitions[k], s'.transitions[k]))
    && (forall k :: k in s.peers && k !in s.transitions ==> k in s'.peers && s'.peers[k] == s.peers[k])
    && (forall k :: k in s'.peers && k !in s.transitions ==> k in s.peers)
  }

  lemma SteadySpares(k: PublicKey, routes: Routes, s: Books, routes': Routes, s': Books)
    requires Spares(k, routes, s, routes', s') && k in s.transitions && Fixed(s.transitions[k], s'.transitions[k])
    ensures Steady(s, s')
  {
  }

  /** The same peers are in transition, found as they were and bound where they were. */
  predicate Continues(ts: map<PublicKey, Transition>, ts': map<PublicKey, Transition>) {
    ts'.Keys == ts.Keys && forall k :: k in ts ==> Fixed(ts[k], ts'[k])
  }

  /** No other peer comes, goes or changes. */
  predicate KeepsOthers(peers: map<PublicKey, PeerState>, peers': map<PublicKey, PeerState>, ks: set<PublicKey>) {
    && (forall k :: k in peers && k !in ks ==> k in peers' && peers'[k] == peers[k])
    && (forall k :: k in peers' && k !in ks ==> k in peers)
  }

  /** Every peer in transition that stays configured is as planned. */
  predicate ArrivesAt(ts: map<PublicKey, Transition>, peers: map<PublicKey, PeerState>, keys: set<PublicKey>) {
    forall k :: k in ts && k in keys ==> k in peers && Aimed(ts[k].target, Some(peers[k]))
  }

  /** Every peer in transition that was configured is as it was found, under a later
      generation if it was moved. */
  predicate ReturnsTo(ts: map<PublicKey, Transition>, peers: map<PublicKey, PeerState>, keys: set<PublicKey>) {
    forall k :: k in ts && k in keys ==> k in peers && Unmoved(ts[k].origin, ts[k].installed, Some(peers[k]))
  }

  lemma Continued(ts: map<PublicKey, Transition>)
    ensures Continues(ts, ts)
  {
  }

  lemma KeptSelf(peers: map<PublicKey, PeerState>, ks: set<PublicKey>)
    ensures KeepsOthers(peers, peers, ks)
  {
  }

  lemma Kept(s: Books, s': Books)
    requires Steady(s, s')
    ensures Continues(s.transitions, s'.transitions)
    ensures KeepsOthers(s.peers, s'.peers, s'.transitions.Keys)
  {
  }

  /** Steady, and the new states stay as they are. */
  predicate Settling(s: Books, s': Books) {
    Steady(s, s') && s'.after == s.after && s.after.Keys <= s.transitions.Keys
  }

  lemma SettlingSelf(s: Books)
    requires s.after.Keys <= s.transitions.Keys
    ensures Settling(s, s)
  {
  }

  lemma SettlingTwice(s: Books, s': Books, s'': Books)
    requires Settling(s, s') && Settling(s', s'')
    ensures Settling(s, s'')
  {
  }

  lemma SettlingOne(k: PublicKey, routes: Routes, s0: Books, s: Books, routes': Routes, s': Books)
    requires Settling(s0, s) && Spares(k, routes, s, routes', s') && k in s.transitions
    requires Fixed(s.transitions[k], s'.transitions[k]) && Lookup(s'.after, k) == Lookup(s.after, k)
    ensures Settling(s0, s')
  {
    SteadySpares(k, routes, s, routes', s');
    assert forall j :: j in s.after ==> Lookup(s'.after, j) == Lookup(s.after, j);
  }

  /** The live states of the peers in transition are the new ones. */
  predicate Shown(s: Books) {
    && (forall k :: k in s.after ==> k in s.peers && s.peers[k] == s.after[k])
    && (forall k :: k in s.peers && k in s.transitions ==> k in s.after)
    && s.after.Keys <= s.transitions.Keys
  }

  lemma SettlingPeers(s: Books, s': Books)
    requires Settling(s, s') && Shown(s) && Shown(s')
    ensures s'.peers == s.peers
  {
    assert forall k :: k in s.peers ==> k in s'.peers && s'.peers[k] == s.peers[k];
    assert forall k :: k in s'.peers ==> k in s.peers;
  }

  lemma FixedSelf(t: Transition)
    ensures Fixed(t, t)
  {
  }

  lemma FixedCandidates(t: Transition, candidates: seq<CandidateRoute>)
    ensures Fixed(t, t.(candidates := candidates))
  {
  }

  lemma SteadySelf(s: Books)
    ensures Steady(s, s)
  {
  }

  lemma SteadyStage(s: Books, stage: Stage)
    ensures Steady(s, s.(stage := stage))
  {
  }

  lemma SteadyPublish(s: Books, peers: map<PublicKey, PeerState>)
    requires peers.Keys - s.transitions.Keys == s.peers.Keys - s.transitions.Keys
    requires forall k :: k in peers && k in s.peers && k !in s.transitions ==> peers[k] == s.peers[k]
    ensures Steady(s, s.(peers := peers))
  {
    assert forall k :: k in s.peers && k !in s.transitions ==> k in peers.Keys - s.transitions.Keys;
    assert forall k :: k in peers && k !in s.transitions ==> k in s.peers.Keys - s.transitions.Keys;
  }

  lemma SteadyTwice(s: Books, s': Books, s'': Books)
    requires Steady(s, s') && Steady(s', s'')
    ensures Steady(s, s'')
  {
  }

  predicate BareAt(s: Books, k: PublicKey) {
    HomeAt(s, k) && NoCandidateLeases(s.transitions[k])
  }

  lemma SparesBare(k: PublicKey, j: PublicKey, routes: Routes, s: Books, routes': Routes, s': Books)
    requires Spares(k, routes, s, routes', s') && j != k && BareAt(s, j)
    ensures BareAt(s', j)
  {
  }

  /** Everything is rolled back: each peer is settled where the transaction found it. */
  lemma AllRolledBack(routes: Routes, ls: Leases, guarded: set<PublicKey>, s: Books)
    requires Good(routes, ls, guarded, s, {}, {}) && s.stage == Open && forall k :: k in s.transitions ==> BareAt(s, k)
    ensures HandedOver(ls, s.transitions.Keys) == ls
    ensures forall k :: k in s.transitions && k in s.before ==> Settled(routes, ls, k, s.before[k])
    ensures forall k :: k in s.transitions && k !in s.before ==> NoLeases(ls, k)
    ensures forall k :: k in s.transitions ==>
              Unmoved(s.transitions[k].origin, s.transitions[k].installed, Lookup(s.before, k))
  {
    hide PeerOk, Conserved, CoverAll, Settled, NoLeases;
    forall k | k in s.transitions
      ensures NoCandidateLeases(s.transitions[k])
                && OwnLeases(ls, k, OrBlank(Lookup(s.before, k)).lease, s.transitions[k].candidates)
      ensures k in s.before ==> Settled(routes, ls, k, s.before[k])
      ensures k !in s.before ==> NoLeases(ls, k)
      ensures Unmoved(s.transitions[k].origin, s.transitions[k].installed, Lookup(s.before, k))
    {
      assert BareAt(s, k);
      var t := s.transitions[k];
      assert Moving(routes, ls, k, t, Lookup(s.before, k), Lookup(s.after, k), Open);
      RolledBackSettles(routes, ls, k, t, Lookup(s.before, k), Lookup(s.after, k));
    }
    NothingToHand(ls, s);
  }

  // ---------- finalizing the whole set ----------

  predicate SpareAt(s: Books, k: PublicKey) {
    k in s.transitions && OnlyActiveLease(s.transitions[k])
  }

  predicate DoneAt(s: Books, k: PublicKey) {
    FinalAt(s, k) && OldReleasedAt(s, k) && SpareAt(s, k)
  }

  lemma SparesDone(k: PublicKey, j: PublicKey, routes: Routes, s: Books, routes': Routes, s': Books)
    requires Spares(k, routes, s, routes', s') && j != k && FinalAt(s, j)
    ensures FinalAt(s', j) && (OldReleasedAt(s, j) ==> OldReleasedAt(s', j)) && (SpareAt(s, j) ==> SpareAt(s', j))
  {
  }

  /** The lease a peer had and the one it gets are never the same. */
  lemma DifferentLeases(
    routes: Routes, ls: Leases, k: PublicKey, t: Transition, before: Option<PeerState>, after: Option<PeerState>)
    requires Moving(routes, ls, k, t, before, after, Finalizing) && before.Some? && after.Some?
               && before.value.lease.Some?
    ensures before.value.lease != after.value.lease
  {
  }

  /** Everything is finalized: each peer is settled where the transaction put it. */
  lemma AllFinalized(routes: Routes, ls: Leases, guarded: set<PublicKey>, s: Books)
    requires Good(routes, ls, guarded, s, {}, {}) && s.stage == Finalizing && forall k :: k in s.transitions ==>
               DoneAt(s, k)
    ensures forall k :: k in s.transitions && k in s.after ==>
              Settled(routes, HandedOver(ls, s.transitions.Keys), k, s.after[k])
    ensures forall k :: k in s.transitions && k !in s.after ==> NoLeases(HandedOver(ls, s.transitions.Keys), k)
  {
    hide PeerOk, Conserved, CoverAll, Settled, NoLeases, HandedOver, Moving;
    forall k | k in s.transitions
      ensures k in s.after ==> Settled(routes, HandedOver(ls, s.transitions.Keys), k, s.after[k])
      ensures k !in s.after ==> NoLeases(HandedOver(ls, s.transitions.Keys), k)
    {
      assert DoneAt(s, k);
      var t := s.transitions[k];
      assert Moving(routes, ls, k, t, Lookup(s.before, k), Lookup(s.after, k), Finalizing);
      FinalizedSettles(routes, ls, k, t, Lookup(s.before, k), Lookup(s.after, k), s.transitions.Keys);
    }
  }

  // ---------- opening a transaction ----------

  /** Reserving peers changes nothing: they are settled, or unknown to the core. */
  lemma OpenStep(
    routes: Routes, ls: Leases, guarded: set<PublicKey>, s: Books,
    ts: map<PublicKey, Transition>, before: map<PublicKey, PeerState>, after: map<PublicKey, PeerState>)
    requires Good(routes, ls, guarded, s, {}, {}) && s.phase == Live && s.transitions == map[]
    requires before.Keys == ts.Keys * s.peers.Keys && after.Keys <= ts.Keys
    requires forall k :: k in before ==> before[k] == s.peers[k]
    requires forall k :: k in ts ==> ts[k] == NewTransition(Lookup(before, k), Lookup(after, k))
    requires forall k :: k in ts && k !in s.peers && k in routes ==> routes[k] == Route(None, 0, {})
    ensures var s' := s.(stage := Open, transitions := ts, before := before, after := after);
            CoverAll(routes, ls, guarded + ts.Keys) && Good(routes, ls, guarded + ts.Keys, s', {}, {})
  {
    hide Settled, Moving, Listed, CoversUses, NoLeases;
    forall k | k in ts
      ensures Moving(routes, ls, k, ts[k], Lookup(before, k), Lookup(after, k), Open)
      ensures k !in guarded && k in routes ==> CoversUses(ls, k, routes[k].uses)
    {
      if k in s.peers {
        assert k in before && k in guarded;
        assert PeerOk(routes, ls, Live, k, s.peers[k]);
        Begin(routes, ls, k, s.peers[k], Lookup(after, k));
      } else {
        NoneOf(ls, s, k);
        BeginNew(routes, ls, k, Lookup(after, k));
        if k in routes {
          CoversNothing(ls, k);
        }
      }
    }
  }

  lemma NoneOf(ls: Leases, s: Books, k: PublicKey)
    requires Conserved(ls, s, {}) && k !in s.peers && k !in s.transitions
    ensures NoLeases(ls, k)
  {
  }

  lemma CoversNothing(ls: Leases, k: PublicKey)
    ensures CoversUses(ls, k, {})
  {
  }
}
