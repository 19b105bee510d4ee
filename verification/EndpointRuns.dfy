/** Whole runs: the supervisor's operations, in any order its callers keep to, with
    the core's peer set changing in between. */
module EndpointRuns {
  import opened Wrappers
  import opened FecLeases
  import opened CoreInstance
  import opened EndpointProtocol
  import opened EndpointPlane
  import opened EndpointTransition
  import opened EndpointSupervisor
  import opened EndpointTransaction

  /** A peer new to the core agrees with whatever the supervisor says of it. */
  lemma RouteAppears(routes: Routes, ls: Leases, guarded: set<PublicKey>, s: Books, k: PublicKey)
    requires Good(routes, ls, guarded, s, {}, {}) && k !in routes
    requires CoverAll(routes[k := Route(None, 0, {})], ls, guarded)
    ensures Good(routes[k := Route(None, 0, {})], ls, guarded, s, {}, {})
  {
    var routes' := routes[k := Route(None, 0, {})];
    hide PeerOk, Moving, Conserved, CoverAll;
    forall j | j in s.peers && j !in s.transitions
      ensures PeerOk(routes', ls, s.phase, j, s.peers[j])
    {
      PeerAppears(routes, ls, s.phase, j, s.peers[j], k);
    }
    forall j | j in s.transitions
      ensures Moving(routes', ls, j, s.transitions[j], Lookup(s.before, j), Lookup(s.after, j), s.stage)
    {
      MovingAppears(routes, ls, j, s.transitions[j], Lookup(s.before, j), Lookup(s.after, j), s.stage, k);
    }
  }

  lemma PeerAppears(routes: Routes, ls: Leases, phase: Phase, j: PublicKey, v: PeerState, k: PublicKey)
    requires PeerOk(routes, ls, phase, j, v) && k !in routes
    ensures PeerOk(routes[k := Route(None, 0, {})], ls, phase, j, v)
  {
  }

  lemma MovingAppears(
    routes: Routes, ls: Leases, j: PublicKey, t: Transition, before: Option<PeerState>, after: Option<PeerState>,
        stage: Stage, k: PublicKey)
    requires Moving(routes, ls, j, t, before, after, stage) && k !in routes
    ensures Moving(routes[k := Route(None, 0, {})], ls, j, t, before, after, stage)
  {
  }

  /** A peer may leave the core once the supervisor no longer answers for it. */
  lemma RouteGoes(routes: Routes, ls: Leases, guarded: set<PublicKey>, s: Books, k: PublicKey)
    requires Good(routes, ls, guarded, s, {}, {}) && k !in s.peers
               && (k in s.transitions ==> s.stage == Finalizing && k !in s.after)
    requires CoverAll(routes - {k}, ls, guarded)
    ensures Good(routes - {k}, ls, guarded, s, {}, {})
  {
    hide PeerOk, Moving, Conserved, CoverAll;
    forall j | j in s.peers && j !in s.transitions
      ensures PeerOk(routes - {k}, ls, s.phase, j, s.peers[j])
    {
      PeerStays(routes, ls, s.phase, j, s.peers[j], k);
    }
    forall j | j in s.transitions
      ensures Moving(routes - {k}, ls, j, s.transitions[j], Lookup(s.before, j), Lookup(s.after, j), s.stage)
    {
      MovingStays(routes, ls, j, s.transitions[j], Lookup(s.before, j), Lookup(s.after, j), s.stage, k);
    }
  }

  lemma PeerStays(routes: Routes, ls: Leases, phase: Phase, j: PublicKey, v: PeerState, k: PublicKey)
    requires PeerOk(routes, ls, phase, j, v) && k != j
    ensures PeerOk(routes - {k}, ls, phase, j, v)
  {
  }

  lemma MovingStays(
    routes: Routes, ls: Leases, j: PublicKey, t: Transition, before: Option<PeerState>, after: Option<PeerState>,
        stage: Stage, k: PublicKey)
    requires Moving(routes, ls, j, t, before, after, stage) && (k == j ==> stage == Finalizing && after.None?)
    ensures Moving(routes - {k}, ls, j, t, before, after, stage)
  {
  }

  method CorePeerAdded(s: Supervisor, k: PublicKey, policy: Policy)
    requires s.Valid() && k !in s.plane.core.peers
    modifies s.plane`trace, s.plane.core
    ensures s.Valid() && old(s.plane.trace) <= s.plane.trace
  {
    hide Good, Plane.Valid, Plane.Routes, Supervisor.Shape, Roster, CoverAll;
    ghost var routes := s.plane.Routes();
    s.plane.CoreAddsPeer(k, policy);
    s.plane.CoverNow();
    RouteAppears(routes, s.plane.leases, s.plane.guarded, s.Book(), k);
  }

  method CorePeerRemoved(s: Supervisor, k: PublicKey)
    requires s.Valid() && k in s.plane.core.peers && k !in s.peers
    requires k in s.reserved ==> s.open != null && s.open.stage == Finalizing
    modifies s.plane`trace, s.plane.core
    ensures s.Valid() && old(s.plane.trace) <= s.plane.trace
  {
    hide Good, Plane.Valid, Plane.Routes, CoverAll, Lists;
    ghost var routes := s.plane.Routes();
    GoneFromBooks(s, k);
    s.plane.CoreRemovesPeer(k);
    s.plane.CoverNow();
    RouteGoes(routes, s.plane.leases, s.plane.guarded, s.Book(), k);
  }

  lemma GoneFromBooks(s: Supervisor, k: PublicKey)
    requires s.Valid() && k !in s.peers && (k in s.reserved ==> s.open != null && s.open.stage == Finalizing)
    ensures k !in s.Book().peers && (k in s.Book().transitions ==> s.Book().stage == Finalizing && k !in s.Book().after)
  {
    hide Good, Plane.Valid, Plane.Routes, CoverAll, Lists;
  }

  /** What the coordinator may do next with its transaction. */
  datatype Calls = NoTransaction | MayCommit | MustRollBack | MayFinish | MustFinalize

  ghost predicate InOrder(s: Supervisor, p: PreparedPeerSet?, calls: Calls)
    reads s, s.open
  {
    if s.open == null then calls == NoTransaction
    else && p != null && p.supervisor == s && p.tx == s.open && s.Phase() == Live
         && match calls
            case NoTransaction => false
            case MayCommit => s.open.stage == Complete && s.open.state == Prepared
            case MustRollBack =>
              s.open.stage == Open && (s.open.state == Prepared || s.open.state == TransactionState.Committed)
            case MayFinish => s.open.stage == Stage.Committed && s.open.state == TransactionState.Committed
            case MustFinalize => s.open.stage == Finalizing && s.open.state == TransactionState.Committed
  }

  /** Peers the plan adds are absent from the core, or untouched there. */
  predicate Addable(s: Supervisor, plan: seq<PeerSpec>)
    reads s, s.plane.core
  {
    forall i :: 0 <= i < |plan| && plan[i].key !in s.peers && plan[i].key in s.plane.core.peers ==>
                  RouteOf(s.plane.core.peers[plan[i].key]) == Route(None, 0, {})
  }

  /** A moment of a run: how far the trace is, and what the supervisor answers for. */
  datatype Moment = Moment(at: nat, phase: Phase, peers: set<PublicKey>, held: set<LeaseId>, lost: set<LeaseId>)

  ghost function Present(s: Supervisor): Moment
    reads s, s.plane, s.open
  {
    Moment(|s.plane.trace|, s.Phase(), s.peers.Keys, HeldLeases(s.Book().peers, s.order), s.lost)
  }

  /** What one step may do: every snapshot it adds while live guards each peer that
      stays configured, and a lease gets lost only before the live phase begins, and
      only if a peer still held it. */
  ghost predicate Proper(trace: seq<Snapshot>, was: Moment, now: Moment) {
    && was.at <= now.at <= |trace|
    && (was.phase == Live && now.phase == Live ==>
          forall i :: was.at <= i < now.at ==> was.peers * now.peers <= trace[i].guarded)
    && was.lost <= now.lost && (was.phase != Starting ==> now.lost == was.lost) && now.lost <= was.lost + was.held
    && (was.phase != Starting ==> now.phase != Starting) && (was.phase == Closed ==> now.phase == Closed)
  }

  lemma ProperStep(trace: seq<Snapshot>, was: Moment, now: Moment)
    requires was.at <= |trace| == now.at && now.lost == was.lost && now.phase == was.phase
    requires was.phase == Live ==> Guarding(trace, was.at, was.peers * now.peers)
    ensures Proper(trace, was, now)
  {
  }

  lemma GuardingLess(trace: seq<Snapshot>, n: nat, more: set<PublicKey>, keys: set<PublicKey>)
    requires Guarding(trace, n, more) && keys <= more
    ensures Guarding(trace, n, keys)
  {
  }

  /** The next call on the coordinator's transaction, if there is one. */
  method Proceed(s: Supervisor, p: PreparedPeerSet?, calls: Calls) returns (next: Calls)
    requires s.Valid() && InOrder(s, p, calls)
    modifies s, s.plane, s.plane.core, if p == null then {} else {p.tx}
    ensures s.Valid() && old(s.plane.trace) <= s.plane.trace && InOrder(s, p, next)
    ensures s.open == null || s.open == old(s.open)
    ensures s.lost == old(s.lost) && s.Phase() == old(s.Phase())
    ensures Guarding(s.plane.trace, |old(s.plane.trace)|, old(s.peers.Keys) * s.peers.Keys)
  {
    hide Supervisor.Sound, Supervisor.Book, Unmoved, Continues, KeepsOthers, ReturnsTo, ArrivesAt, Guarding;
    ghost var keys := s.peers.Keys;
    var rollBack: bool := *;
    match calls {
      case NoTransaction =>
        next := NoTransaction;
        NothingRecorded(s.plane.trace, keys);
      case MayCommit =>
        if rollBack {
          var ok := p.Rollback();
          next := if ok then NoTransaction else MustRollBack;
        } else {
          var ok := p.Commit();
          next := if ok then MayFinish else MustRollBack;
        }
      case MustRollBack =>
        var ok := p.Rollback();
        next := if ok then NoTransaction else MustRollBack;
      case MayFinish =>
        if rollBack {
          var ok := p.Rollback();
          next := if ok then NoTransaction else MustRollBack;
        } else {
          var ok := p.Finalize();
          next := if ok then NoTransaction else MustFinalize;
        }
      case MustFinalize =>
        var ok := p.Finalize();
        next := if ok then NoTransaction else MustFinalize;
    }
    GuardingLess(s.plane.trace, |old(s.plane.trace)|, keys, keys * s.peers.Keys);
    StillLive(s);
  }

  lemma StillLive(s: Supervisor)
    requires s.Valid()
    ensures s.open != null ==> s.Phase() == Live
  {
    hide Good, Plane.Valid;
  }

  method BeginStep(s: Supervisor)
    requires s.Valid() && s.open == null
    modifies s, s.plane, s.plane.core
    ensures s.Valid() && s.open == null && old(s.plane.trace) <= s.plane.trace
    ensures Proper(s.plane.trace, old(Present(s)), Present(s))
  {
    hide Supervisor.Sound, Supervisor.Book, HeldLeases;
    ghost var peers := s.Book().peers;
    ghost var reached;
    var ok;
    ok, reached := s.Initialize();
    if reached <= |s.order| {
      HeldPrefix(peers, s.order, reached);
    }
  }

  method EndStep(s: Supervisor)
    requires s.Valid() && s.open == null
    modifies s, s.plane, s.plane.core
    ensures s.Valid() && s.open == null && old(s.plane.trace) <= s.plane.trace
    ensures Proper(s.plane.trace, old(Present(s)), Present(s))
  {
    hide Supervisor.Sound, Supervisor.Book, HeldLeases;
    var _ := s.Close();
  }

  /** Anything that may happen next. */
  method Step(s: Supervisor, p: PreparedPeerSet?, calls: Calls) returns (q: PreparedPeerSet?, next: Calls)
    requires s.Valid() && InOrder(s, p, calls)
    modifies s, s.plane, s.plane.core, if p == null then {} else {p.tx}
    ensures s.Valid() && old(s.plane.trace) <= s.plane.trace && InOrder(s, q, next)
    ensures q == p || (q != null && fresh(q) && fresh(q.tx))
    ensures Proper(s.plane.trace, old(Present(s)), Present(s))
  {
    hide Supervisor.Sound, Supervisor.Book, Parses, Proof, HeldLeases, Proper, Guarding, AsPlanned, KeepsOthers;
    ghost var was, keys := Present(s), s.peers.Keys;
    q, next := p, calls;
    var which: nat, k: PublicKey, rotate: bool, policy: Policy := *, *, *, *;
    if which == 0 && calls == NoTransaction {
      BeginStep(s);
      return;
    }
    if which == 4 && calls == NoTransaction {
      EndStep(s);
      return;
    }
    s.GuardsPeers();
    assert keys * keys == keys;
    if which == 1 && (s.initialized || s.closed) {
      var _ := s.RefreshPeer(k, rotate);
    } else if which == 2 && calls == NoTransaction && (s.initialized || s.closed) {
      var id: string, plan: seq<PeerSpec> := *, *;
      if Addable(s, plan) {
        var r, ok := PreparePeerSet(s, id, plan);
        if r != null {
          StillLive(s);
          q, next := r, if ok then MayCommit else MustRollBack;
        }
      } else {
        NothingRecorded(s.plane.trace, keys);
      }
    } else if which == 3 {
      next := Proceed(s, p, calls);
    } else if which == 5 && k !in s.plane.core.peers {
      CorePeerAdded(s, k, policy);
      s.Guarded(was.at, {});
    } else if which == 6 && k in s.plane.core.peers && k !in s.peers && (k in s.reserved ==> calls == MustFinalize) {
      CorePeerRemoved(s, k);
      s.Guarded(was.at, {});
    } else {
      NothingRecorded(s.plane.trace, keys);
    }
    ProperStep(s.plane.trace, was, Present(s));
  }

  /** No transaction holds this peer, or one does that has committed. */
  ghost predicate Agreed(s: Supervisor, k: PublicKey)
    reads s, s.open
  {
    k !in s.reserved || (s.open != null && (s.open.stage == Stage.Committed || s.open.stage == Finalizing))
  }

  /** ROUTE SAFETY, CONSERVATION AND AGREEMENT OVER WHOLE RUNS.  However often and in
      whatever order the supervisor is initialized, refreshed, reconciled and closed,
      and whatever calls fail: at every step each address the core may still use for a
      guarded peer has an unreleased lease; every peer that stays configured over a
      step of the live phase is guarded throughout it; and in the end the unreleased
      leases are exactly those in a list, a peer's state or a transaction, but for those
      overwritten by a repeated initialization before the live phase began.  `log` has the moments between the steps. */
  method Run(s: Supervisor, steps: nat) returns (ghost log: seq<Moment>)
    requires s.Valid() && s.open == null
    modifies s, s.plane, s.plane.core
    ensures s.Valid() && old(s.plane.trace) <= s.plane.trace
    ensures forall i :: 0 <= i < |s.plane.trace| ==> Safe(s.plane.trace[i])
    ensures |log| == steps + 1 && log[0] == old(Present(s)) && log[steps] == Present(s)
    ensures forall j :: 0 <= j < steps ==> Proper(s.plane.trace, log[j], log[j + 1])
    ensures Conserved(s.plane.leases, s.Book(), {}) && AllRecorded(s.plane.held.Keys, s.Book())
    ensures old(s.Phase()) != Starting ==> s.lost == old(s.lost)
    ensures s.Phase() == Live ==> s.peers.Keys <= s.plane.guarded
    ensures s.Phase() == Live ==>
              forall k :: k in s.peers && Agreed(s, k) ==>
                            s.peers[k] in s.store && Agrees(s.plane.Routes(), k, s.store[s.peers[k]])
  {
    hide Supervisor.Sound, Supervisor.Book, Present, Proper;
    var p: PreparedPeerSet?, calls := null, NoTransaction;
    log := [Present(s)];
    MomentFacts(s);
    for done := 0 to steps
      invariant s.Valid() && old(s.plane.trace) <= s.plane.trace && InOrder(s, p, calls)
      invariant p != null ==> fresh(p) && fresh(p.tx)
      invariant |log| == done + 1 && log[0] == old(Present(s)) && log[done] == Present(s)
      invariant forall j :: 0 <= j < done ==> Proper(s.plane.trace, log[j], log[j + 1])
    {
      hide InOrder;
      ghost var trace := s.plane.trace;
      p, calls := Step(s, p, calls);
      forall j | 0 <= j < done
        ensures Proper(s.plane.trace, log[j], log[j + 1])
      {
        ProperLater(trace, s.plane.trace, log[j], log[j + 1]);
      }
      log := log + [Present(s)];
    }
    Unlost(s.plane.trace, log);
    MomentFacts(s);
    Conclude(s);
  }

  lemma ProperLater(trace: seq<Snapshot>, more: seq<Snapshot>, was: Moment, now: Moment)
    requires Proper(trace, was, now) && trace <= more
    ensures Proper(more, was, now)
  {
  }

  /** Once the live phase has begun, or ended, nothing is lost any more. */
  lemma {:induction false} Unlost(trace: seq<Snapshot>, log: seq<Moment>)
    requires log != [] && forall j :: 0 <= j < |log| - 1 ==> Proper(trace, log[j], log[j + 1])
    ensures log[0].phase != Starting ==> log[|log| - 1].phase != Starting && log[|log| - 1].lost == log[0].lost
  {
    if |log| > 1 {
      var n := |log| - 1;
      Unlost(trace, log[..n]);
      assert Proper(trace, log[n - 1], log[n]);
    }
  }

  lemma MomentFacts(s: Supervisor)
    ensures Present(s).phase == s.Phase() && Present(s).lost == s.lost && Present(s).peers == s.peers.Keys
  {
  }

  lemma Conclude(s: Supervisor)
    requires s.Valid()
    ensures forall i :: 0 <= i < |s.plane.trace| ==> Safe(s.plane.trace[i])
    ensures Conserved(s.plane.leases, s.Book(), {}) && AllRecorded(s.plane.held.Keys, s.Book())
    ensures s.Phase() == Live ==> s.peers.Keys <= s.plane.guarded
    ensures s.Phase() == Live ==>
              forall k :: k in s.peers && Agreed(s, k) ==>
                            s.peers[k] in s.store && Agrees(s.plane.Routes(), k, s.store[s.peers[k]])
  {
    hide CoverAll, Conserved, Core.Valid, Lists, Agrees, PeersOk, Agreed, AllRecorded;
    s.AccountsForAll();
    if s.Phase() == Live {
      forall k | k in s.peers && Agreed(s, k)
        ensures s.peers[k] in s.store && Agrees(s.plane.Routes(), k, s.store[s.peers[k]])
      {
        AgreedPeer(s, k);
      }
    }
  }

  lemma AgreedPeer(s: Supervisor, k: PublicKey)
    requires s.Valid() && s.Phase() == Live && k in s.peers && Agreed(s, k)
    ensures s.peers[k] in s.store && Agrees(s.plane.Routes(), k, s.store[s.peers[k]])
  {
    hide Good, Plane.Valid, Plane.Routes, Lists, Fits, Agrees;
    if k in s.reserved {
      CommittedPeer(s, k);
      ChosenAgrees(s.plane.Routes(), s.plane.leases, s.plane.guarded, s.Book(), k);
    } else {
      s.BookPeers(k);
      SettledAgrees(s.plane.Routes(), s.plane.leases, s.plane.guarded, s.Book(), k);
    }
  }

  lemma CommittedPeer(s: Supervisor, k: PublicKey)
    requires s.Valid() && k in s.peers && k in s.reserved && Agreed(s, k)
    ensures k in s.Book().transitions && k in s.Book().after && s.peers[k] in s.store
    ensures s.Book().after[k] == s.store[s.peers[k]] && s.Book().stage == s.open.stage
  {
    hide Good, Plane.Valid, Plane.Routes, Lists;
  }

  lemma ChosenAgrees(routes: Routes, ls: Leases, guarded: set<PublicKey>, b: Books, k: PublicKey)
    requires Good(routes, ls, guarded, b, {}, {}) && k in b.transitions && k in b.after
    requires b.stage == Stage.Committed || b.stage == Finalizing
    ensures Agrees(routes, k, b.after[k])
  {
  }

  lemma SettledAgrees(routes: Routes, ls: Leases, guarded: set<PublicKey>, b: Books, k: PublicKey)
    requires Good(routes, ls, guarded, b, {}, {}) && k in b.peers && k !in b.transitions && b.phase == Live
    ensures Agrees(routes, k, b.peers[k])
  {
  }

  // ---------- one transaction, from end to end ----------

  /** Where a transaction began, and which peers may have changed since. */
  datatype Origin = Origin(peers: map<PublicKey, PeerState>, order: seq<PublicKey>, plan: seq<PeerSpec>,
      touched: set<PublicKey>)

  /** The transaction this plan asked for is under way. */
  ghost predicate UnderWay(s: Supervisor, p: PreparedPeerSet, o: Origin)
    reads s, s.plane, s.plane.core, s.open, p.tx
  {
    && s.Valid() && p.supervisor == s && s.open == p.tx && s.Phase() == Live
       && AsPlanned(p.tx, o.peers, o.order, o.plan)
    && Affects(o.peers, o.plan) <= o.touched && KeepsOthers(o.peers, s.Book().peers, o.touched)
  }

  lemma PlannedOn(tx: Transaction, was: map<PublicKey, Transition>, o: Origin)
    requires tx.before.Keys == o.peers.Keys && tx.beforeOrder == o.order
    requires tx.after.Keys == PlanKeys(o.plan, |o.plan|) && tx.afterOrder == PlanOrder(o.plan)
    requires Planned(was, o.peers, o.plan) && Continues(was, tx.transitions)
    ensures AsPlanned(tx, o.peers, o.order, o.plan)
  {
    PlannedStill(was, tx.transitions, o.peers, o.plan);
  }

  lemma PlanFacts(tx: Transaction, o: Origin)
    requires AsPlanned(tx, o.peers, o.order, o.plan)
    ensures tx.before.Keys == o.peers.Keys && tx.beforeOrder == o.order
    ensures tx.after.Keys == PlanKeys(o.plan, |o.plan|) && tx.afterOrder == PlanOrder(o.plan)
    ensures Planned(tx.transitions, o.peers, o.plan) && tx.transitions.Keys == Affects(o.peers, o.plan)
  {
  }

  lemma Since(a: map<PublicKey, PeerState>, b: map<PublicKey, PeerState>, c: map<PublicKey, PeerState>,
      ks: set<PublicKey>, more: set<PublicKey>)
    requires KeepsOthers(a, b, more) && KeepsOthers(b, c, ks) && ks <= more
    ensures KeepsOthers(a, c, more)
  {
  }

  lemma OneRefreshed(store: Store, next: Store, refs: Refs, k: PublicKey)
    requires Keyed(store, refs) && Keyed(next, refs)
    requires forall ref :: ref in store && (k !in refs || ref != refs[k]) ==> ref in next && next[ref] == store[ref]
    ensures KeepsOthers(Views(store, refs, refs.Keys), Views(next, refs, refs.Keys), {k})
  {
  }

  method BeginPlan(s: Supervisor, id: string, ghost o: Origin, plan: seq<PeerSpec>)
      returns (p: PreparedPeerSet, ok: bool)
    requires s.Valid() && s.Phase() == Live && s.activePeerSet == "" && id != "" && Parses(plan) && Addable(s, plan)
    requires o.peers == s.Book().peers && o.order == s.order && o.plan == plan && Affects(o.peers, plan) <= o.touched
    modifies s, s.plane, s.plane.core
    ensures fresh(p) && fresh(p.tx) && UnderWay(s, p, o) && s.lost == old(s.lost)
    ensures p.tx.state == Prepared && p.tx.stage == (if ok then Complete else Open)
  {
    hide Supervisor.Sound, Supervisor.Book, AsPlanned, KeepsOthers, Guarding, Affects, Parses;
    var r;
    r, ok := PreparePeerSet(s, id, plan);
    p := r;
    PlanFacts(p.tx, o);
    KeptSelf(o.peers, o.touched);
    Since(o.peers, o.peers, s.Book().peers, p.tx.transitions.Keys, o.touched);
  }

  /** These peers are refreshed while it is under way. */
  method Meanwhile(s: Supervisor, p: PreparedPeerSet, refreshed: seq<PublicKey>, ghost o: Origin)
    requires UnderWay(s, p, o) && forall k :: k in refreshed ==> k in o.touched
    modifies s`retiredLeases, s`extraLeases, s`store, s.plane`held, s.plane`nextLease, s.plane`leases, s.plane`trace,
               s.plane.core
    ensures UnderWay(s, p, o)
  {
    hide UnderWay;
    for i := 0 to |refreshed|
      invariant UnderWay(s, p, o)
    {
      RefreshOne(s, p, refreshed[i], o);
    }
  }

  method RefreshOne(s: Supervisor, p: PreparedPeerSet, k: PublicKey, ghost o: Origin)
    requires UnderWay(s, p, o) && k in o.touched
    modifies s`retiredLeases, s`extraLeases, s`store, s.plane`held, s.plane`nextLease, s.plane`leases, s.plane`trace,
               s.plane.core
    ensures UnderWay(s, p, o)
  {
    hide Supervisor.Sound, Supervisor.Book, Proof, AsPlanned, Guarding, KeepsOthers, Affects, Keyed, Views, Lists;
    LivePeers(s);
    LiveKeyed(s);
    ghost var now, store := s.Book().peers, s.store;
    var rotate: bool := *;
    var _ := s.RefreshPeer(k, rotate);
    LivePeers(s);
    LiveKeyed(s);
    OneRefreshed(store, s.store, s.peers, k);
    Since(o.peers, now, s.Book().peers, {k}, o.touched);
  }

  method CommitPlan(s: Supervisor, p: PreparedPeerSet, ghost o: Origin) returns (ok: bool)
    requires UnderWay(s, p, o) && p.tx.state == Prepared && p.tx.stage == Complete
    modifies p.tx, s`store, s`peers, s`order, s.plane`held, s.plane`leases, s.plane`trace, s.plane.core
    ensures UnderWay(s, p, o) && p.tx.stage != Finalizing
    ensures p.tx.state == if ok then TransactionState.Committed else Prepared
    ensures ok ==>
              && p.tx.stage == Stage.Committed && s.peers == p.tx.after && s.order == p.tx.afterOrder
              && ArrivesAt(p.tx.transitions, s.Book().peers, p.tx.after.Keys)
  {
    hide Supervisor.Sound, Supervisor.Book, AsPlanned, Continues, KeepsOthers, ArrivesAt, Guarding, Affects, Planned;
    ghost var was, now := p.tx.transitions, s.Book().peers;
    PlanFacts(p.tx, o);
    ok := p.Commit();
    PlannedOn(p.tx, was, o);
    PlanFacts(p.tx, o);
    Since(o.peers, now, s.Book().peers, p.tx.transitions.Keys, o.touched);
  }

  /** ROLLBACK, end to end: whether the transaction failed, was prepared or was even
      committed, and whatever was refreshed meanwhile, undoing it leaves the peers and
      their order as they were when it began; a peer it affected has the state it had,
      under the same or a later generation; any other peer that was not refreshed has
      not changed. */
  method PrepareThenRollBack(s: Supervisor, id: string, plan: seq<PeerSpec>, commit: bool, refreshed: seq<PublicKey>)
    returns (undone: bool)
    requires s.Valid() && s.Phase() == Live && s.activePeerSet == "" && id != "" && Parses(plan) && Addable(s, plan)
    modifies s, s.plane, s.plane.core
    ensures s.Valid() && s.Phase() == Live && s.lost == old(s.lost)
    ensures undone ==> s.open == null && s.peers.Keys == old(s.peers.Keys) && s.order == old(s.order)
    ensures undone ==>
              forall k :: k in old(s.Book()).peers && k in Affects(old(s.Book()).peers, plan) ==>
                            k in s.Book().peers && Unmoved(Some(old(s.Book()).peers[k]), false, Some(s.Book().peers[k]))
    ensures undone ==>
              var touched := Affects(old(s.Book()).peers, plan) + set k | k in refreshed;
              KeepsOthers(old(s.Book()).peers, s.Book().peers, touched)
  {
    hide Supervisor.Sound, Supervisor.Book, AsPlanned, KeepsOthers, ArrivesAt, Affects, Unmoved, Parses;
    ghost var o := Origin(s.Book().peers, s.order, plan, Affects(s.Book().peers, plan) + set k | k in refreshed);
    LivePeers(s);
    var p, ok := BeginPlan(s, id, o, plan);
    Meanwhile(s, p, refreshed, o);
    if ok && commit {
      var _ := CommitPlan(s, p, o);
      Meanwhile(s, p, refreshed, o);
    }
    undone := UndoPlan(s, p, o);
  }

  method UndoPlan(s: Supervisor, p: PreparedPeerSet, ghost o: Origin) returns (undone: bool)
    requires UnderWay(s, p, o) && (p.tx.state == Prepared || p.tx.state == TransactionState.Committed)
               && p.tx.stage != Finalizing
    modifies p.tx, s`store, s`peers, s`order, s`reserved, s`activePeerSet, s`open,
             s.plane`held, s.plane`leases, s.plane`trace, s.plane.core
    ensures s.Valid() && KeepsOthers(o.peers, s.Book().peers, o.touched)
    ensures undone ==> s.open == null && s.peers.Keys == o.peers.Keys && s.order == o.order
    ensures undone ==>
              forall k :: k in o.peers && k in Affects(o.peers, o.plan) ==>
                            k in s.Book().peers && Unmoved(Some(o.peers[k]), false, Some(s.Book().peers[k]))
  {
    hide Supervisor.Sound, Supervisor.Book, AsPlanned, Continues, KeepsOthers, ReturnsTo, Guarding, Affects, Unmoved,
        Planned;
    ghost var was, now := p.tx.transitions, s.Book().peers;
    PlanFacts(p.tx, o);
    undone := p.Rollback();
    PlannedOn(p.tx, was, o);
    PlanFacts(p.tx, o);
    Since(o.peers, now, s.Book().peers, p.tx.transitions.Keys, o.touched);
    if undone {
      Restored(p.tx, s.Book().peers, o);
    }
  }

  lemma Restored(tx: Transaction, now: map<PublicKey, PeerState>, o: Origin)
    requires AsPlanned(tx, o.peers, o.order, o.plan) && ReturnsTo(tx.transitions, now, tx.before.Keys)
    ensures forall k :: k in o.peers && k in Affects(o.peers, o.plan) ==>
              k in now && Unmoved(Some(o.peers[k]), false, Some(now[k]))
  {
  }

  /** COMMIT, end to end: the peers are those of the plan in its order; each peer it
      changed is configured as planned; any other that was not refreshed has not changed. */
  method PrepareThenCommit(s: Supervisor, id: string, plan: seq<PeerSpec>, refreshed: seq<PublicKey>)
      returns (done: bool)
    requires s.Valid() && s.Phase() == Live && s.activePeerSet == "" && id != "" && Parses(plan) && Addable(s, plan)
    modifies s, s.plane, s.plane.core
    ensures s.Valid() && s.Phase() == Live && s.lost == old(s.lost)
    ensures done ==> s.open == null && s.peers.Keys == PlanKeys(plan, |plan|) && s.order == PlanOrder(plan)
    ensures done ==>
              forall j :: 0 <= j < |plan| && plan[j].key in Affects(old(s.Book()).peers, plan) ==>
                            plan[j].key in s.Book().peers
                                && Aimed(Some(NewState(plan[j])), Some(s.Book().peers[plan[j].key]))
    ensures done ==>
              var touched := Affects(old(s.Book()).peers, plan) + set k | k in refreshed;
              KeepsOthers(old(s.Book()).peers, s.Book().peers, touched)
  {
    hide Supervisor.Sound, Supervisor.Book, AsPlanned, KeepsOthers, ArrivesAt, Guarding, Affects, Aimed, Parses,
        NewState, Planned;
    ghost var o := Origin(s.Book().peers, s.order, plan, Affects(s.Book().peers, plan) + set k | k in refreshed);
    LivePeers(s);
    var p, ok := BeginPlan(s, id, o, plan);
    Meanwhile(s, p, refreshed, o);
    if !ok {
      return false;
    }
    done := CommitPlan(s, p, o);
    if done {
      PlanFacts(p.tx, o);
      Fulfilled(p.tx, s.Book().peers, o);
      done := p.Finalize();
    }
  }

  lemma Fulfilled(tx: Transaction, now: map<PublicKey, PeerState>, o: Origin)
    requires AsPlanned(tx, o.peers, o.order, o.plan) && ArrivesAt(tx.transitions, now, tx.after.Keys)
    ensures forall j :: 0 <= j < |o.plan| && o.plan[j].key in Affects(o.peers, o.plan) ==>
                          o.plan[j].key in now && Aimed(Some(NewState(o.plan[j])), Some(now[o.plan[j].key]))
  {
  }
}
