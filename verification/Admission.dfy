/** Session admission: limits and counters under any interleaving of accepting,
    dialing, authenticating, timing out and closing.  Each method is one section
    under the state lock, or one atomic store outside it. */
module Admission {
  import opened Wrappers

  type SessionId = nat

  datatype Authentication = Unauthenticated | Authenticated | TimedOutOrClosed

  /** `closed` is stored before the locked part of closing; `finished` after it. */
  datatype Session = Session(
    inbound: bool, authentication: Authentication, closed: bool, finished: bool,
    authenticatedPeers: map<string, nat>)       // with the endpoint generation each was last seen at

  /** A session as it is made. */
  function Fresh(inbound: bool): Session {
    Session(inbound, Unauthenticated, false, false, map[])
  }

  type Sessions = map<SessionId, Session>

  function Inbound(all: Sessions, registered: set<SessionId>): set<SessionId> {
    set id | id in registered && id in all && all[id].inbound
  }

  function Waiting(all: Sessions, registered: set<SessionId>): set<SessionId> {
    set id | id in registered && id in all && all[id].inbound && all[id].authentication == Unauthenticated
  }

  /** A session is registered until its close has finished, and no longer. */
  predicate Lifecycle(all: Sessions, registered: set<SessionId>) {
    && registered <= all.Keys
    && (forall id :: id in all ==> (id in registered <==> !all[id].finished))
    && (forall id :: id in all && all[id].finished ==> all[id].closed)
  }

  class RunState {
    const maxSessions: nat
    const maxInbound: nat
    const maxPending: nat
    var all: Sessions                    // every session ever made
    var registered: set<SessionId>
    var inboundSessions: int
    var pendingInbound: int
    var nextSession: SessionId
    var closing: bool

    constructor (maxSessions: nat, maxInbound: nat, maxPending: nat)
      ensures Valid() && registered == {} && all == map[]
    {
      this.maxSessions, this.maxInbound, this.maxPending := maxSessions, maxInbound, maxPending;
      all, registered, inboundSessions, pendingInbound, nextSession, closing := map[], {}, 0, 0, 1, false;
    }

    /** The counters count, and the limits hold. */
    ghost predicate Valid()
      reads this
    {
      && Lifecycle(all, registered)
      && 0 < nextSession && (forall id :: id in all ==> 0 < id < nextSession)
      && inboundSessions == |Inbound(all, registered)|
      && pendingInbound == |Waiting(all, registered)|
      && |registered| <= maxSessions && inboundSessions <= maxInbound && pendingInbound <= maxPending
    }

    predicate Admits(inbound: bool)
      reads this
    {
      |registered| < maxSessions && (!inbound || (inboundSessions < maxInbound && pendingInbound < maxPending))
    }

    /** Accepts or dials; refused exactly when closing or at a limit. */
    method NewSession(inbound: bool) returns (r: Option<SessionId>)
      requires Valid()
      modifies this`all, this`registered, this`inboundSessions, this`pendingInbound, this`nextSession
      ensures Valid()
      ensures r.Some? <==> !old(closing) && old(Admits(inbound))
      ensures r.None? ==> all == old(all) && registered == old(registered)
      ensures r.Some? ==>
                && r.value !in old(all) && all == old(all)[r.value := Fresh(inbound)]
                && registered == old(registered) + {r.value}
    {
      hide Inbound, Waiting;
      if closing || !Admits(inbound) {
        return None;
      }
      var id := nextSession;
      Joined(all, registered, id, inbound);
      nextSession := nextSession + 1;
      if inbound {
        inboundSessions := inboundSessions + 1;
        pendingInbound := pendingInbound + 1;
      }
      all := all[id := Fresh(inbound)];
      registered := registered + {id};
      r := Some(id);
    }

    /** The tunnel goes down: nothing is admitted any more. */
    method Shutdown()
      requires Valid()
      modifies this`closing
      ensures Valid() && closing
    {
      closing := true;
    }

    /** The first call of close stores the flag, outside the lock. */
    method BeginClose(id: SessionId) returns (first: bool)
      requires Valid() && id in all
      modifies this`all
      ensures Valid() && first == !old(all)[id].closed && all == old(all)[id := old(all)[id].(closed := true)]
    {
      first := !all[id].closed;
      SameCounts(all, registered, id, all[id].(closed := true));
      all := all[id := all[id].(closed := true)];
    }

    /** The locked part of close, once, after BeginClose. */
    method FinishClose(id: SessionId)
      requires Valid() && id in all && all[id].closed && !all[id].finished
      modifies this`all, this`registered, this`inboundSessions, this`pendingInbound
      ensures Valid() && registered == old(registered) - {id}
      ensures all == old(all)[id := old(all)[id].(finished := true,
                                     authentication := if old(all)[id].inbound then TimedOutOrClosed
                                         else old(all)[id].authentication)]
    {
      hide Inbound, Waiting;
      var session := all[id];
      Left(all, registered, id, session.(finished := true,
             authentication := if session.inbound then TimedOutOrClosed else session.authentication));
      registered := registered - {id};
      if session.inbound {
        inboundSessions := inboundSessions - 1;
        if session.authentication == Unauthenticated {
          pendingInbound := pendingInbound - 1;
        }
        session := session.(authentication := TimedOutOrClosed);
      }
      all := all[id := session.(finished := true)];
    }

    /** The authentication deadline of an inbound session passes. */
    method ExpireAuthentication(id: SessionId) returns (expired: bool)
      requires Valid() && id in all && all[id].inbound
      modifies this`all, this`pendingInbound
      ensures Valid()
      ensures expired <==> !old(all)[id].closed && old(all)[id].authentication == Unauthenticated
      ensures all == if expired then old(all)[id := old(all)[id].(authentication := TimedOutOrClosed)] else old(all)
    {
      expired := !all[id].closed && all[id].authentication == Unauthenticated;
      if expired {
        Decided(all, registered, id, TimedOutOrClosed);
        all := all[id := all[id].(authentication := TimedOutOrClosed)];
        pendingInbound := pendingInbound - 1;
      }
    }

    /** The part of AssociateSessionPeer under the state lock.  A session that is already
        closing is found, and left as it is. */
    method Authenticate(id: SessionId) returns (found: bool)
      requires Valid()
      modifies this`all, this`pendingInbound
      ensures Valid()
      ensures found <==> id in registered && (old(all)[id].closed || old(all)[id].authentication != TimedOutOrClosed)
      ensures all == if found && !old(all)[id].closed
                then old(all)[id := old(all)[id].(authentication := Authenticated)] else old(all)
    {
      if id !in registered {
        return false;
      }
      found := true;
      if !all[id].closed {
        if all[id].authentication == Unauthenticated {
          if all[id].inbound {
            Decided(all, registered, id, Authenticated);
            pendingInbound := pendingInbound - 1;
          } else {
            SameCounts(all, registered, id, all[id].(authentication := Authenticated));
          }
          all := all[id := all[id].(authentication := Authenticated)];
        }
        found := all[id].authentication != TimedOutOrClosed;
      }
    }

    /** The part after the state lock: an open session notes the peer, and never an
        older endpoint generation of it. */
    method NotePeer(id: SessionId, key: string, generation: nat) returns (ok: bool)
      requires Valid() && id in all
      modifies this`all
      ensures Valid() && ok == !old(all)[id].closed
      ensures all == if ok then old(all)[id := Noting(old(all)[id], key, generation)] else old(all)
    {
      if all[id].closed {
        return false;
      }
      var session := all[id];
      var latest := generation;
      if key in session.authenticatedPeers && generation < session.authenticatedPeers[key] {
        latest := session.authenticatedPeers[key];
      }
      session := session.(authenticatedPeers := session.authenticatedPeers[key := latest]);
      SameCounts(all, registered, id, session);
      all := all[id := session];
      ok := true;
    }

    /** WireGuard authenticated a packet of this peer on the session, which others may
        close between the two parts. */
    method AssociateSessionPeer(id: SessionId, key: string, generation: nat) returns (ok: bool, ghost closes: bool)
      requires Valid()
      modifies this`all, this`pendingInbound
      ensures Valid()
      ensures ok <==>
                && id != 0 && key != "" && id in registered && !old(all)[id].closed && !closes
                && old(all)[id].authentication != TimedOutOrClosed
      ensures ok ==> all == old(all)[id := Noting(old(all)[id].(authentication := Authenticated), key, generation)]
      ensures !ok && key != "" && id in registered && !old(all)[id].closed
                && old(all)[id].authentication != TimedOutOrClosed ==>
                all == old(all)[id := old(all)[id].(authentication := Authenticated, closed := true)]
      ensures !ok && !closes ==> all == old(all)
    {
      hide Inbound, Waiting, Lifecycle;
      LifecycleKnows(all, registered);
      closes := false;
      if id == 0 || key == "" {
        return false, closes;
      }
      var found := Authenticate(id);
      if !found {
        return false, closes;
      }
      var interrupted: bool := *;
      if interrupted {
        var _ := BeginClose(id);
      }
      closes := interrupted;
      ok := NotePeer(id, key, generation);
    }
  }

  lemma LifecycleKnows(all: Sessions, registered: set<SessionId>)
    requires Lifecycle(all, registered)
    ensures registered <= all.Keys
  {
  }

  /** A session that notes a peer keeps the later of the two generations. */
  function Noting(session: Session, key: string, generation: nat): Session {
    var peers := session.authenticatedPeers;
    var latest := if key in peers && generation < peers[key] then peers[key] else generation;
    session.(authenticatedPeers := peers[key := latest])
  }

  // ---------- counting ----------

  lemma Joined(all: Sessions, registered: set<SessionId>, id: SessionId, inbound: bool)
    requires Lifecycle(all, registered) && id !in all
    ensures var next := all[id := Fresh(inbound)];
            var now := registered + {id};
            && |Inbound(next, now)| == |Inbound(all, registered)| + (if inbound then 1 else 0)
            && |Waiting(next, now)| == |Waiting(all, registered)| + (if inbound then 1 else 0)
            && |now| == |registered| + 1 && Lifecycle(next, now)
  {
    var next := all[id := Fresh(inbound)];
    var now := registered + {id};
    if inbound {
      assert Inbound(next, now) == Inbound(all, registered) + {id};
      assert Waiting(next, now) == Waiting(all, registered) + {id};
    } else {
      assert Inbound(next, now) == Inbound(all, registered);
      assert Waiting(next, now) == Waiting(all, registered);
    }
  }

  lemma Left(all: Sessions, registered: set<SessionId>, id: SessionId, s: Session)
    requires Lifecycle(all, registered) && id in registered && s.finished && s.closed
    ensures var next, now := all[id := s], registered - {id};
            && |Inbound(next, now)| == |Inbound(all, registered)| - (if all[id].inbound then 1 else 0)
            && |Waiting(next, now)| == |Waiting(all, registered)| - (if all[id].inbound
               && all[id].authentication == Unauthenticated then 1 else 0)
            && |now| == |registered| - 1 && Lifecycle(next, now)
  {
    hide Lifecycle;
    LeftLifecycle(all, registered, id, s);
    LeftCounts(all, registered, id, s);
  }

  lemma LeftCounts(all: Sessions, registered: set<SessionId>, id: SessionId, s: Session)
    requires id in registered && id in all
    ensures var next, now := all[id := s], registered - {id};
            Inbound(next, now) == Inbound(all, registered) - {id}
                && Waiting(next, now) == Waiting(all, registered) - {id}
  {
  }

  lemma LeftLifecycle(all: Sessions, registered: set<SessionId>, id: SessionId, s: Session)
    requires Lifecycle(all, registered) && id in registered && s.finished && s.closed
    ensures Lifecycle(all[id := s], registered - {id}) && id in all
  {
  }

  lemma Decided(all: Sessions, registered: set<SessionId>, id: SessionId, a: Authentication)
    requires id in registered && id in all && all[id].inbound && all[id].authentication == Unauthenticated
               && a != Unauthenticated
    ensures var next := all[id := all[id].(authentication := a)];
            Inbound(next, registered) == Inbound(all, registered)
                && Waiting(next, registered) == Waiting(all, registered) - {id}
  {
  }

  lemma SameCounts(all: Sessions, registered: set<SessionId>, id: SessionId, s: Session)
    requires id in all && s.inbound == all[id].inbound
    requires s.inbound ==> (s.authentication == Unauthenticated <==> all[id].authentication == Unauthenticated)
    ensures Inbound(all[id := s], registered) == Inbound(all, registered)
              && Waiting(all[id := s], registered) == Waiting(all, registered)
  {
  }

  /** What never goes back in one session: a close, a finished close, a noted peer and
      its generation. */
  ghost predicate Onward(s: Session, s': Session) {
    && s'.inbound == s.inbound && (s.closed ==> s'.closed) && (s.finished ==> s'.finished)
    && forall k :: k in s.authenticatedPeers ==>
         k in s'.authenticatedPeers && s.authenticatedPeers[k] <= s'.authenticatedPeers[k]
  }

  ghost predicate Later(all: Sessions, all': Sessions) {
    forall id :: id in all ==> id in all' && Onward(all[id], all'[id])
  }

  lemma LaterThrough(a: Sessions, b: Sessions, c: Sessions)
    requires Later(a, b) && Later(b, c)
    ensures Later(a, c)
  {
  }

  lemma LaterSelf(all: Sessions)
    ensures Later(all, all)
  {
  }

  /** A session may note a peer only after a call for it has passed the locked part, so
      only an authenticated session has noted any. */
  ghost predicate Vouched(all: Sessions, passed: multiset<SessionId>) {
    && (forall id :: id in passed ==> id in all && (all[id].authentication == Authenticated || all[id].closed))
    && (forall id :: id in all && all[id].authenticatedPeers != map[] ==>
          all[id].authentication == Authenticated || all[id].finished)
  }

  /** What one section may do to a session. */
  ghost predicate Moves(s: Session, s': Session, passed: bool) {
    && Onward(s, s')
    && (s.authentication == Authenticated ==> s'.authentication == Authenticated || (s'.finished && s'.closed))
    && (s'.authenticatedPeers != s.authenticatedPeers ==> passed && !s.closed && s'.authentication == s.authentication)
  }

  lemma Moved(all: Sessions, passed: multiset<SessionId>, id: SessionId, s: Session)
    requires Vouched(all, passed) && id in all && Moves(all[id], s, id in passed)
    ensures Later(all, all[id := s]) && Vouched(all[id := s], passed)
  {
  }

  lemma Began(all: Sessions, passed: multiset<SessionId>, id: SessionId, inbound: bool)
    requires Vouched(all, passed) && id !in all
    ensures Later(all, all[id := Fresh(inbound)]) && Vouched(all[id := Fresh(inbound)], passed)
  {
  }

  lemma Passed(all: Sessions, passed: multiset<SessionId>, id: SessionId)
    requires Vouched(all, passed) && id in all && (all[id].authentication == Authenticated || all[id].closed)
    ensures Vouched(all, passed + multiset{id})
  {
  }

  lemma Answered(all: Sessions, passed: multiset<SessionId>, id: SessionId)
    requires Vouched(all, passed)
    ensures Vouched(all, passed - multiset{id})
  {
  }

  /** One section of one of the racing calls.  `passed` are the sessions of the
      AssociateSessionPeer calls that are between their two parts. */
  method Step(state: RunState, passed: multiset<SessionId>) returns (now: multiset<SessionId>)
    requires state.Valid() && Vouched(state.all, passed)
    modifies state
    ensures state.Valid() && Later(old(state.all), state.all) && Vouched(state.all, now)
    ensures old(state.closing) ==> state.closing && state.all.Keys == old(state.all.Keys)
  {
    hide RunState.Valid, Later, Vouched;
    now := passed;
    LaterSelf(state.all);
    var which: nat, id: SessionId, inbound: bool := *, *, *;
    if which == 0 {
      var made := state.NewSession(inbound);
      if made.Some? {
        Began(old(state.all), passed, made.value, inbound);
      }
    } else if which == 1 {
      state.Shutdown();
    } else if id in state.all {
      if which == 2 {
        Moved(state.all, passed, id, state.all[id].(closed := true));
        var _ := state.BeginClose(id);
      } else if which == 3 {
        StepFinish(state, passed, id);
      } else if which == 4 && state.all[id].inbound {
        var expired := state.ExpireAuthentication(id);
        if expired {
          Moved(old(state.all), passed, id, state.all[id]);
        }
      } else if which == 5 {
        now := StepAuthenticate(state, passed, id);
      } else if id in passed {
        now := StepNote(state, passed, id);
      }
    }
  }

  method StepFinish(state: RunState, passed: multiset<SessionId>, id: SessionId)
    requires state.Valid() && Vouched(state.all, passed) && id in state.all
    modifies state`all, state`registered, state`inboundSessions, state`pendingInbound
    ensures state.Valid() && Later(old(state.all), state.all) && Vouched(state.all, passed)
    ensures state.all.Keys == old(state.all.Keys)
  {
    hide RunState.Valid, Later, Vouched;
    LaterSelf(state.all);
    if state.all[id].closed && !state.all[id].finished {
      state.FinishClose(id);
      Moved(old(state.all), passed, id, state.all[id]);
    }
  }

  method StepAuthenticate(state: RunState, passed: multiset<SessionId>, id: SessionId)
      returns (now: multiset<SessionId>)
    requires state.Valid() && Vouched(state.all, passed) && id in state.all
    modifies state`all, state`pendingInbound
    ensures state.Valid() && Later(old(state.all), state.all) && Vouched(state.all, now)
    ensures state.all.Keys == old(state.all.Keys)
  {
    hide RunState.Valid, Later, Vouched;
    LaterSelf(state.all);
    now := passed;
    var found := state.Authenticate(id);
    if found {
      if !old(state.all)[id].closed {
        Moved(old(state.all), passed, id, state.all[id]);
      }
      now := passed + multiset{id};
      Passed(state.all, passed, id);
    }
  }

  method StepNote(state: RunState, passed: multiset<SessionId>, id: SessionId) returns (now: multiset<SessionId>)
    requires state.Valid() && Vouched(state.all, passed) && id in state.all && id in passed
    modifies state`all
    ensures state.Valid() && Later(old(state.all), state.all) && Vouched(state.all, now)
    ensures state.all.Keys == old(state.all.Keys)
  {
    hide RunState.Valid, Later, Vouched;
    LaterSelf(state.all);
    var key: string, generation: nat := *, *;
    var ok := state.NotePeer(id, key, generation);
    if ok {
      Moved(old(state.all), passed, id, state.all[id]);
    }
    now := passed - multiset{id};
    Answered(state.all, passed, id);
  }

  /** ADMISSION under any interleaving, from the beginning or any moment on: the counters
      and limits hold at every step, nothing goes back, only an authenticated session has
      noted any peer, and once closing there are no new sessions. */
  method Run(state: RunState, passed: multiset<SessionId>, steps: nat) returns (now: multiset<SessionId>)
    requires state.Valid() && Vouched(state.all, passed)
    modifies state
    ensures state.Valid() && Later(old(state.all), state.all) && Vouched(state.all, now)
    ensures 0 <= state.pendingInbound <= state.inboundSessions <= state.maxInbound
    ensures state.inboundSessions == |Inbound(state.all, state.registered)|
              && state.pendingInbound == |Waiting(state.all, state.registered)|
    ensures old(state.closing) ==> state.closing && state.all.Keys == old(state.all.Keys)
  {
    hide RunState.Valid, Later, Vouched;
    LaterSelf(state.all);
    now := passed;
    var left := steps;
    while left > 0
      invariant state.Valid() && Later(old(state.all), state.all) && Vouched(state.all, now)
      invariant old(state.closing) ==> state.closing && state.all.Keys == old(state.all.Keys)
    {
      ghost var before := state.all;
      now := Step(state, now);
      LaterThrough(old(state.all), before, state.all);
      left := left - 1;
    }
    Counted(state);
  }

  /** From a tunnel that just came up. */
  method RunNew(maxSessions: nat, maxInbound: nat, maxPending: nat, steps: nat) returns (state: RunState)
    ensures fresh(state) && state.Valid()
    ensures forall id :: id in state.all && state.all[id].authenticatedPeers != map[] ==>
              state.all[id].authentication == Authenticated || state.all[id].finished
  {
    hide RunState.Valid;
    state := new RunState(maxSessions, maxInbound, maxPending);
    var _ := Run(state, multiset{}, steps);
  }

  lemma Counted(state: RunState)
    requires state.Valid()
    ensures 0 <= state.pendingInbound <= state.inboundSessions <= state.maxInbound
    ensures state.inboundSessions == |Inbound(state.all, state.registered)|
              && state.pendingInbound == |Waiting(state.all, state.registered)|
  {
    SubsetSize(Waiting(state.all, state.registered), Inbound(state.all, state.registered));
  }
}
