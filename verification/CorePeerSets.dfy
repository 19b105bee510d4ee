/** Transactions on the core's peer set: prepare, commit, roll back, finalize, with
    a batch of FEC policy changes and a bounded history of transaction IDs.
    Endpoint calls of other clients may run between the locked sections. */
module CorePeerSets {
  import opened Wrappers
  import opened FecLeases
  import opened CoreInstance

  const RETAINED_TRANSACTIONS: nat := 256

  datatype Operation = Add | Update | Remove

  /** `policy` is None when the requested FEC policy is not supported. */
  datatype Mutation = Mutation(op: Operation, key: PublicKey, policy: Option<Policy>)

  datatype FecChange = FecChange(key: PublicKey, before: Policy, after: Policy)

  datatype State = Prepared | Committed | RolledBack | Finalized

  datatype Transaction = Transaction(content: seq<Mutation>, changes: seq<FecChange>, fecApplied: bool, state: State)

  // ---------- one FEC change ----------

  /** What FEC changes act on. */
  datatype Stock = Stock(peers: Peers, policies: PolicyTable)

  /** Moves one peer, and the lease of its endpoint, from one policy to another. */
  function Swap(s: Stock, k: PublicKey, from: Policy, to: Policy): (r: Option<Stock>)
    ensures r.Some? ==> r.value.peers.Keys == s.peers.Keys
  {
    if k !in s.peers || s.peers[k].policy != from then None
    else
      var peer := s.peers[k];
      match peer.selected
      case None => Some(Stock(s.peers[k := peer.(policy := to)], s.policies))
      case Some(e) =>
        var next := Replace(s.policies, e, from, to);
        if next.None? then None
        else Some(Stock(s.peers[k := peer.(policy := to, leases := peer.leases.(active := Some(Release(e, to))))],
            next.value))
  }

  /** Swapping back gives back exactly what was there. */
  lemma SwapBack(s: Stock, k: PublicKey, from: Policy, to: Policy)
    requires Swap(s, k, from, to).Some? && Selects(s.peers[k])
    ensures Swap(Swap(s, k, from, to).value, k, to, from) == Some(s)
  {
    var t := Swap(s, k, from, to).value;
    if s.peers[k].selected.Some? {
      var e := s.peers[k].selected.value;
      ReplaceThenReplaceBack(s.policies, e, from, to);
      assert s.peers[k].leases == t.peers[k].leases.(active := Some(Release(e, from)));
    }
    assert t.peers[k].(policy := from, leases := s.peers[k].leases) == s.peers[k];
    assert t.peers[k := s.peers[k]] == s.peers;
  }

  lemma SwapSelects(s: Stock, k: PublicKey, from: Policy, to: Policy, ingress: seq<Endpoint>,
      authenticated: set<(PublicKey, nat)>)
    requires SoundPeers(s.peers, ingress, authenticated) && Swap(s, k, from, to).Some?
    ensures k in s.peers && Selects(s.peers[k]) && Selects(Swap(s, k, from, to).value.peers[k])
  {
    hide Fenced;
  }

  lemma SwapSound(
    s: Stock, k: PublicKey, from: Policy, to: Policy,
    order: seq<PublicKey>, ingress: seq<Endpoint>, authenticated: set<(PublicKey, nat)>)
    requires Accounted(s.policies, order, Holders(s.peers)) && SoundPeers(s.peers, ingress, authenticated)
    requires Swap(s, k, from, to).Some?
    ensures var t := Swap(s, k, from, to).value;
            && Accounted(t.policies, order, Holders(t.peers)) && SoundPeers(t.peers, ingress, authenticated)
            && k in s.peers && t.peers[k].policy == to
               && (forall j :: j in s.peers && j != k ==> t.peers[j] == s.peers[j])
  {
    hide Accounted, SoundPeers, Holders;
    var t := Swap(s, k, from, to).value;
    SwapSelects(s, k, from, to, ingress, authenticated);
    HoldersUpdate(s.peers, k, t.peers[k]);
    HoldersAt(s.peers, k);
    SameFence(s.peers, k, t.peers[k], ingress, authenticated);
    if s.peers[k].selected.Some? {
      ReplaceAccounts(s.policies, order, Holders(s.peers), k, s.peers[k].selected.value, from, to);
    } else {
      assert Holders(s.peers)[k := t.peers[k].leases] == Holders(s.peers);
    }
  }

  /** Stocks left by applying the changes one after the other. */
  ghost predicate Chain(stocks: seq<Stock>, changes: seq<FecChange>) {
    && 0 < |stocks| <= |changes| + 1
    && forall i :: 0 <= i < |stocks| - 1 ==>
                     Swap(stocks[i], changes[i].key, changes[i].before, changes[i].after) == Some(stocks[i + 1])
                     && changes[i].key in stocks[i].peers && Selects(stocks[i].peers[changes[i].key])
  }

  lemma ChainOne(s: Stock, changes: seq<FecChange>)
    ensures Chain([s], changes)
  {
  }

  lemma ChainMore(stocks: seq<Stock>, changes: seq<FecChange>, next: Stock)
    requires Chain(stocks, changes) && |stocks| <= |changes|
    requires var c, last := changes[|stocks| - 1], stocks[|stocks| - 1];
             Swap(last, c.key, c.before, c.after) == Some(next) && c.key in last.peers && Selects(last.peers[c.key])
    ensures Chain(stocks + [next], changes)
  {
  }

  predicate DistinctChanges(changes: seq<FecChange>) {
    forall i, j :: 0 <= i < j < |changes| ==> changes[i].key != changes[j].key
  }

  function Forth(s: Stock, c: FecChange): Option<Stock> {
    Swap(s, c.key, c.before, c.after)
  }

  function Back(s: Stock, c: FecChange): Option<Stock> {
    Swap(s, c.key, c.after, c.before)
  }

  /** Changes to different peers do not get in each other's way: an endpoint whose
      lease can change policy is held by one peer only. */
  lemma Independent(
    s: Stock, order: seq<PublicKey>, ingress: seq<Endpoint>, authenticated: set<(PublicKey, nat)>,
    k: PublicKey, from: Policy, to: Policy, j: PublicKey, from': Policy, to': Policy)
    requires Accounted(s.policies, order, Holders(s.peers)) && SoundPeers(s.peers, ingress, authenticated)
    requires Swap(s, k, from, to).Some? && j != k
    ensures Swap(Swap(s, k, from, to).value, j, from', to').Some? <==> Swap(s, j, from', to').Some?
  {
    hide Accounted, SoundPeers, Swap;
    var t := Swap(s, k, from, to).value;
    CanSwap(s, k, from, to);
    CanSwap(s, j, from', to');
    CanSwap(t, j, from', to');
    SwapElsewhere(s, k, from, to);
    if j in s.peers && s.peers[k].selected.Some? {
      NotShared(s, order, ingress, authenticated, k, j);
    }
  }

  lemma CanSwap(s: Stock, k: PublicKey, from: Policy, to: Policy)
    ensures Swap(s, k, from, to).Some? <==>
            && k in s.peers && s.peers[k].policy == from
            && (s.peers[k].selected.Some? ==>
                  Refs(s.policies, s.peers[k].selected.value) == 1
                      && s.policies[s.peers[k].selected.value].policy == from)
  {
  }

  lemma SwapElsewhere(s: Stock, k: PublicKey, from: Policy, to: Policy)
    requires Swap(s, k, from, to).Some?
    ensures var t := Swap(s, k, from, to).value;
            && (forall j :: j in s.peers && j != k ==> t.peers[j] == s.peers[j])
            && (forall e :: s.peers[k].selected != Some(e) ==> Refs(t.policies, e) == Refs(s.policies, e))
            && (forall e :: s.peers[k].selected != Some(e) && e in s.policies ==>
               e in t.policies && t.policies[e] == s.policies[e])
  {
  }

  lemma NotShared(
    s: Stock, order: seq<PublicKey>, ingress: seq<Endpoint>, authenticated: set<(PublicKey, nat)>, k: PublicKey,
        j: PublicKey)
    requires Accounted(s.policies, order, Holders(s.peers)) && SoundPeers(s.peers, ingress, authenticated)
    requires k in s.peers && j in s.peers && j != k && s.peers[k].selected.Some?
    ensures s.peers[j].selected == s.peers[k].selected ==> Refs(s.policies, s.peers[k].selected.value) >= 2
  {
    var e := s.peers[k].selected.value;
    if s.peers[j].selected == Some(e) {
      assert Selects(s.peers[j]) && Selects(s.peers[k]);
      HoldersAt(s.peers, k);
      HoldersAt(s.peers, j);
      HeldByTwo(order, Holders(s.peers), k, j, e);
    }
  }

  // ---------- transactions ----------

  predicate Pending(t: Transaction) {
    t.state == Prepared || t.state == Committed
  }

  /** HISTORY.  An ID is active exactly while its transaction is prepared or
      committed; the active one is the newest; at most 256 are kept. */
  ghost predicate History(transactions: map<string, Transaction>, order: seq<string>, active: string) {
    && Lists(order, transactions.Keys) && |order| <= RETAINED_TRANSACTIONS
    && (forall id :: id in transactions ==> (Pending(transactions[id]) <==> id == active))
    && (active != "" ==> active in transactions && order != [] && order[|order| - 1] == active)
    && "" !in transactions
  }

  predicate DistinctMutations(ms: seq<Mutation>) {
    forall i, j :: 0 <= i < j < |ms| ==> ms[i].key != ms[j].key
  }

  /** The device accepts additions of absent peers, and changes of present ones. */
  predicate Applicable(ms: seq<Mutation>, keys: set<PublicKey>) {
    && DistinctMutations(ms)
    && forall i :: 0 <= i < |ms| ==> (ms[i].op == Add <==> ms[i].key !in keys)
  }

  function KeysWith(ms: seq<Mutation>, op: Operation): seq<PublicKey> {
    if ms == [] then []
    else if ms[|ms| - 1].op == op then KeysWith(ms[..|ms| - 1], op) + [ms[|ms| - 1].key]
    else KeysWith(ms[..|ms| - 1], op)
  }

  function PoliciesOf(peers: Peers): map<PublicKey, Policy> {
    map k | k in peers :: peers[k].policy
  }

  predicate ChangesFrom(changes: seq<FecChange>, base: map<PublicKey, Policy>) {
    && DistinctChanges(changes)
    && forall i :: 0 <= i < |changes| ==>
                     changes[i].key in base && base[changes[i].key] == changes[i].before
                         && changes[i].after != changes[i].before
  }

  /** The request asks for this change of an existing peer. */
  predicate Asked(ms: seq<Mutation>, c: FecChange) {
    exists i :: 0 <= i < |ms| && ms[i].op == Update && ms[i].key == c.key && ms[i].policy == Some(c.after)
  }

  /** Exactly the changes of policy that the request asks for. */
  ghost predicate Requested(changes: seq<FecChange>, ms: seq<Mutation>, policies: map<PublicKey, Policy>) {
    && ChangesFrom(changes, policies)
    && (forall c :: c in changes ==> Asked(ms, c))
    && (forall i :: 0 <= i < |ms| && ms[i].op == Update && ms[i].policy.Some? && ms[i].key in policies
                    && ms[i].policy.value != policies[ms[i].key] ==>
                      FecChange(ms[i].key, policies[ms[i].key], ms[i].policy.value) in changes)
  }

  function AddedBy(t: Transaction): seq<PublicKey> {
    if t.state == Committed then KeysWith(t.content, Add) else []
  }

  /** Where a pending transaction stands, next to the peer set it started from. */
  ghost predicate Standing(
    peers: Peers, order: seq<PublicKey>, t: Transaction, baseOrder: seq<PublicKey>, base: map<PublicKey, Policy>)
  {
    && Applicable(t.content, base.Keys) && ChangesFrom(t.changes, base) && Lists(baseOrder, base.Keys)
    && order == baseOrder + AddedBy(t)
    && base.Keys <= peers.Keys
    && (forall k :: k in base && (forall i :: 0 <= i < |t.changes| ==> t.changes[i].key != k) ==>
       peers[k].policy == base[k])
    && (!t.fecApplied ==> forall k :: k in base ==> peers[k].policy == base[k])
  }

  lemma SwapNeeds(s: Stock, c: FecChange)
    ensures Forth(s, c).Some? ==> c.key in s.peers
  {
  }

  class PeerSets {
    const core: Core
    var transactions: map<string, Transaction>
    var order: seq<string>
    var active: string
    ghost var baseOrder: seq<PublicKey>
    ghost var base: map<PublicKey, Policy>

    constructor (core: Core)
      requires core.Valid()
      ensures Valid() && this.core == core && transactions == map[] && active == ""
    {
      this.core := core;
      transactions, order, active := map[], [], "";
      baseOrder, base := [], map[];
    }

    ghost predicate Valid()
      reads this, core
    {
      && core.Valid()
      && History(transactions, order, active)
      && (active != "" ==> Standing(core.peers, core.order, transactions[active], baseOrder, base))
    }

    ghost function Now(): Stock
      reads core
    {
      Stock(core.peers, core.policies)
    }

    ghost predicate AllForth(s: Stock, changes: seq<FecChange>) {
      forall i :: 0 <= i < |changes| ==> Forth(s, changes[i]).Some?
    }

    ghost predicate AllBack(s: Stock, changes: seq<FecChange>) {
      forall c :: c in changes ==> Back(s, c).Some?
    }

    method SwapPeer(k: PublicKey, from: Policy, to: Policy) returns (ok: bool)
      requires core.Valid()
      modifies core`peers, core`policies
      ensures core.Valid()
      ensures ok <==> Swap(old(Now()), k, from, to).Some?
      ensures ok ==> Now() == Swap(old(Now()), k, from, to).value && k in core.peers && core.peers[k].policy == to
      ensures !ok ==> Now() == old(Now())
      ensures core.peers.Keys == old(core.peers).Keys && forall j :: j in core.peers && j != k ==>
                core.peers[j] == old(core.peers)[j]
    {
      hide Swap, Accounted, SoundPeers, Holders;
      var next := Swap(Stock(core.peers, core.policies), k, from, to);
      if next.None? {
        return false;
      }
      SwapSound(Now(), k, from, to, core.order, core.ingress, core.authenticated);
      core.peers, core.policies := next.value.peers, next.value.policies;
      ok := true;
    }

    /** Undoes the first `applied` changes, last first; goes on past failures. */
    method UndoChanges(changes: seq<FecChange>, applied: nat, ghost stocks: seq<Stock>) returns (ok: bool)
      requires core.Valid() && DistinctChanges(changes) && applied <= |changes|
      requires stocks != [] ==> Chain(stocks, changes) && |stocks| == applied + 1 && stocks[applied] == Now()
      modifies core`peers, core`policies
      ensures core.Valid() && core.peers.Keys == old(core.peers).Keys
      ensures ok <==> forall i :: 0 <= i < applied ==> Back(old(Now()), changes[i]).Some?
      ensures ok ==> forall i :: 0 <= i < applied ==>
                changes[i].key in core.peers && core.peers[changes[i].key].policy == changes[i].before
      ensures forall k :: k in core.peers && (forall i :: 0 <= i < applied ==> changes[i].key != k) ==>
                core.peers[k] == old(core.peers)[k]
      // Undone straight after being applied, everything is as it was.
      ensures stocks != [] ==> ok && Now() == stocks[0]
    {
      hide Core.Valid, Swap;
      ok := true;
      var i := applied;
      while i > 0
        invariant 0 <= i <= applied && core.Valid() && core.peers.Keys == old(core.peers).Keys
        invariant stocks != [] ==> ok && Now() == stocks[i]
        invariant forall j :: 0 <= j < i ==> (Back(Now(), changes[j]).Some? <==> Back(old(Now()), changes[j]).Some?)
        invariant ok <==> forall j :: i <= j < applied ==> Back(old(Now()), changes[j]).Some?
        invariant ok ==> forall j :: i <= j < applied ==>
                    changes[j].key in core.peers && core.peers[changes[j].key].policy == changes[j].before
        invariant forall k :: k in core.peers && (forall j :: i <= j < applied ==> changes[j].key != k) ==>
                    core.peers[k] == old(core.peers)[k]
      {
        i := i - 1;
        var c := changes[i];
        ghost var was := Now();
        if stocks != [] {
          SwapBack(stocks[i], c.key, c.before, c.after);
        }
        Isolated(changes, i, false);
        var undone := SwapPeer(c.key, c.after, c.before);
        ok := ok && undone;
      }
    }

    lemma Isolated(changes: seq<FecChange>, i: nat, forth: bool)
      requires core.Valid() && DistinctChanges(changes) && i < |changes|
      ensures forth && Forth(Now(), changes[i]).Some? ==>
                forall j :: 0 <= j < |changes| && j != i ==>
                    (Forth(Forth(Now(), changes[i]).value, changes[j]).Some? <==> Forth(Now(), changes[j]).Some?)
      ensures !forth && Back(Now(), changes[i]).Some? ==>
                forall j :: 0 <= j < |changes| && j != i ==>
                    (Back(Back(Now(), changes[i]).value, changes[j]).Some? <==> Back(Now(), changes[j]).Some?)
    {
      var c := changes[i];
      forall j | 0 <= j < |changes| && j != i
        ensures forth && Forth(Now(), c).Some? ==>
                  (Forth(Forth(Now(), c).value, changes[j]).Some? <==> Forth(Now(), changes[j]).Some?)
        ensures !forth && Back(Now(), c).Some? ==>
                  (Back(Back(Now(), c).value, changes[j]).Some? <==> Back(Now(), changes[j]).Some?)
      {
        var d := changes[j];
        assert d.key != c.key;
        if forth && Forth(Now(), c).Some? {
          Independent(Now(), core.order, core.ingress, core.authenticated, c.key, c.before, c.after, d.key, d.before,
              d.after);
        }
        if !forth && Back(Now(), c).Some? {
          Independent(Now(), core.order, core.ingress, core.authenticated, c.key, c.after, c.before, d.key, d.after,
              d.before);
        }
      }
    }

    /** ALL OR NOTHING: every change is applied, or nothing has changed at all. */
    method ApplyChanges(changes: seq<FecChange>) returns (ok: bool)
      requires core.Valid() && DistinctChanges(changes)
      modifies core`peers, core`policies
      ensures core.Valid() && core.peers.Keys == old(core.peers).Keys
      ensures ok <==> forall i :: 0 <= i < |changes| ==> Forth(old(Now()), changes[i]).Some?
      ensures !ok ==> Now() == old(Now())
      ensures ok ==> forall i :: 0 <= i < |changes| ==>
                changes[i].key in core.peers && core.peers[changes[i].key].policy == changes[i].after
      ensures forall k :: k in core.peers && (forall i :: 0 <= i < |changes| ==> changes[i].key != k) ==>
                core.peers[k] == old(core.peers)[k]
    {
      hide Core.Valid, Swap, Selects, Chain;
      ghost var stocks := [Now()];
      ChainOne(Now(), changes);
      var applied := 0;
      while applied < |changes|
        invariant 0 <= applied <= |changes| && core.Valid() && core.peers.Keys == old(core.peers).Keys
        invariant Chain(stocks, changes) && |stocks| == applied + 1 && stocks[0] == old(Now())
                    && stocks[applied] == Now()
        invariant forall j :: 0 <= j < applied ==> Forth(old(Now()), changes[j]).Some?
        invariant forall j :: applied <= j < |changes| ==>
                    (Forth(Now(), changes[j]).Some? <==> Forth(old(Now()), changes[j]).Some?)
        invariant forall j :: 0 <= j < applied ==>
                    changes[j].key in core.peers && core.peers[changes[j].key].policy == changes[j].after
        invariant forall k :: k in core.peers && (forall j :: 0 <= j < applied ==> changes[j].key != k) ==>
                    core.peers[k] == old(core.peers)[k]
      {
        var c := changes[applied];
        Isolated(changes, applied, true);
        if c.key in core.peers {
          core.SelectsAll(c.key);
        }
        SwapNeeds(Now(), c);
        var swapped := SwapPeer(c.key, c.before, c.after);
        if !swapped {
          var undone := UndoChanges(changes, applied, stocks);
          return false;
        }
        ChainMore(stocks, changes, Now());
        stocks := stocks + [Now()];
        applied := applied + 1;
      }
      ok := true;
    }
  
    lemma CoreLists()
      requires core.Valid()
      ensures Lists(core.order, core.peers.Keys)
    {
    }

    /** The FEC policy changes a request asks for; None if it names an unsupported policy. */
    method FindChanges(ms: seq<Mutation>) returns (r: Option<seq<FecChange>>)
      requires Applicable(ms, core.peers.Keys)
      ensures r.None? <==> exists i :: 0 <= i < |ms| && ms[i].policy.None?
      ensures r.Some? ==> Requested(r.value, ms, PoliciesOf(core.peers))
    {
      var changes: seq<FecChange> := [];
      var i := 0;
      while i < |ms|
        invariant 0 <= i <= |ms|
        invariant forall j :: 0 <= j < i ==> ms[j].policy.Some?
        invariant ChangesFrom(changes, PoliciesOf(core.peers))
        invariant forall c :: c in changes ==>
                    exists j :: 0 <= j < i && ms[j].key == c.key && ms[j].op == Update && ms[j].policy == Some(c.after)
        invariant forall j :: 0 <= j < i && ms[j].op == Update && ms[j].policy.value != core.peers[ms[j].key].policy ==>
                                FecChange(ms[j].key, core.peers[ms[j].key].policy, ms[j].policy.value) in changes
      {
        var m := ms[i];
        if m.policy.None? {
          return None;
        }
        if m.op == Update && m.key in core.peers && core.peers[m.key].policy != m.policy.value {
          changes := changes + [FecChange(m.key, core.peers[m.key].policy, m.policy.value)];
        }
        i := i + 1;
      }
      r := Some(changes);
    }

    /** Forgets the oldest transactions that are not pending. */
    method Trim()
      requires core.Valid() && active != "" && |order| <= RETAINED_TRANSACTIONS + 1
      requires Lists(order, transactions.Keys) && "" !in transactions && order != [] && order[|order| - 1] == active
      requires forall id :: id in transactions ==> (Pending(transactions[id]) <==> id == active)
      requires Standing(core.peers, core.order, transactions[active], baseOrder, base)
      modifies this`transactions, this`order
      ensures Valid() && active in transactions && transactions[active] == old(transactions)[active]
      ensures |order| == if |old(order)| > RETAINED_TRANSACTIONS then RETAINED_TRANSACTIONS else |old(order)|
      ensures order == old(order)[|old(order)| - |order|..]
    {
      hide Core.Valid, Standing;
      while |order| > RETAINED_TRANSACTIONS
        invariant order == old(order)
                    || (|order| == RETAINED_TRANSACTIONS && order == old(order)[1..] && |old(order)| == |order| + 1)
        invariant Lists(order, transactions.Keys) && "" !in transactions && order != [] && order[|order| - 1] == active
        invariant forall id :: id in transactions ==> (Pending(transactions[id]) <==> id == active)
        invariant active in transactions && transactions[active] == old(transactions)[active]
      {
        var id := order[0];
        if id in transactions && Pending(transactions[id]) {
          break;
        }
        ListsTail(order, transactions.Keys);
        transactions := transactions - {id};
        order := order[1..];
      }
    }

    // ---------- the four calls ----------

    /** Endpoint calls by other clients and authenticated packets, while no peer-set
        lock is held. */
    method Interfere()
      requires core.Valid()
      modifies core
      ensures core.Valid() && core.order == old(core.order) && PoliciesOf(core.peers) == old(PoliciesOf(core.peers))
    {
      hide Core.Valid, Acquire;
      var calls: nat := *;
      while calls > 0
        invariant core.Valid() && core.order == old(core.order) && PoliciesOf(core.peers) == old(PoliciesOf(core.peers))
        decreases calls
      {
        var k: PublicKey, e: Endpoint, generation: nat, which: nat, keyOk: bool, deviceOk: bool := *, *, *, *, *, *;
        if which == 0 {
          var _ := core.InstallPeerEndpoint(k, e, generation, keyOk, deviceOk);
        } else if which == 1 {
          var _ := core.ClearPeerEndpoint(k, generation, deviceOk);
        } else if which == 2 {
          var _ := core.FinalizePeerEndpoint(k, generation);
        } else {
          var sequence := core.Enter(e);
          core.RecordAuthenticatedReceive(k, e, sequence);
        }
        calls := calls - 1;
      }
    }

    /** In each of these calls, `deviceOk` is the answer of the WireGuard device. */
    method PreparePeerSet(id: string, ms: seq<Mutation>, deviceOk: bool) returns (ok: bool)
      requires Valid()
      modifies this
      ensures Valid()
      ensures ok <==>
                && SafeId(id) && ms != []
                && if id in old(transactions) then old(transactions)[id].content == ms
                   else old(active) == "" && deviceOk && Applicable(ms, core.peers.Keys)
                        && forall i :: 0 <= i < |ms| ==> ms[i].policy.Some?
      ensures !ok ==> transactions == old(transactions) && order == old(order) && active == old(active)
      ensures id in old(transactions) ==> transactions == old(transactions) && active == old(active)
      ensures !ok || id in old(transactions) ==> base == old(base) && baseOrder == old(baseOrder)
      ensures ok && id !in old(transactions) ==>
                && active == id && id in transactions && Requested(transactions[id].changes, ms, PoliciesOf(core.peers))
                && transactions[id].state == Prepared && transactions[id].content == ms && !transactions[id].fecApplied
                && base == PoliciesOf(core.peers) && baseOrder == core.order
    {
      if !SafeId(id) || ms == [] {
        return false;
      }
      if id in transactions {
        return transactions[id].content == ms;
      }
      if active != "" {
        return false;
      }
      if !deviceOk || !Applicable(ms, core.peers.Keys) {
        return false;
      }
      var changes := FindChanges(ms);
      if changes.None? {
        return false;
      }
      hide Core.Valid, Applicable, ChangesFrom, Standing, Lists, SafeId, Asked;
      CoreLists();
      ListsSnoc(order, transactions.Keys, id);
      assert transactions[id := Transaction(ms, changes.value, false, Prepared)].Keys == transactions.Keys + {id};
      StandingStart(core.peers, core.order, Transaction(ms, changes.value, false, Prepared));
      transactions := transactions[id := Transaction(ms, changes.value, false, Prepared)];
      order := order + [id];
      active := id;
      baseOrder, base := core.order, PoliciesOf(core.peers);
      Trim();
      ok := true;
    }

    /** Replaces the active transaction by one that is still pending. */
    method Record(t: Transaction)
      requires core.Valid() && History(transactions, order, active) && active != "" && Pending(t)
      requires Standing(core.peers, core.order, t, baseOrder, base)
      modifies this`transactions
      ensures Valid() && transactions == old(transactions)[active := t]
    {
      hide Core.Valid, Standing, Lists;
      assert transactions[active := t].Keys == transactions.Keys;
      transactions := transactions[active := t];
    }

    /** Applies the FEC changes of the active transaction, once. */
    method ApplyFec() returns (ok: bool)
      requires Valid() && active != "" && transactions[active].state == Prepared
      modifies this`transactions, core`peers, core`policies
      ensures Valid()
      ensures ok <==> old(transactions)[active].fecApplied || AllForth(old(Now()), old(transactions)[active].changes)
      ensures !ok ==> transactions == old(transactions) && Now() == old(Now())
      ensures ok ==> transactions == old(transactions)[active := old(transactions)[active].(fecApplied := true)]
      ensures ok && !old(transactions)[active].fecApplied ==>
                forall c :: c in transactions[active].changes ==>
                    c.key in core.peers && core.peers[c.key].policy == c.after
    {
      hide Core.Valid, Lists;
      var t := transactions[active];
      if t.fecApplied {
        assert transactions[active := t] == transactions;
        return true;
      }
      ok := ApplyChanges(t.changes);
      if ok {
        Record(t.(fecApplied := true));
      }
    }

    /** Undoes the FEC changes of the active transaction.  It works exactly when each
        changed peer still has the new policy, alone on its endpoint. */
    method UndoFec() returns (ok: bool)
      requires Valid() && active != "" && transactions[active].fecApplied
      modifies this`transactions, core`peers, core`policies
      ensures Valid()
      ensures ok <==> AllBack(old(Now()), old(transactions)[active].changes)
      ensures transactions == old(transactions)[active := old(transactions)[active].(fecApplied := !ok)]
    {
      hide Core.Valid, Lists, Swap;
      var t := transactions[active];
      ok := UndoChanges(t.changes, |t.changes|, []);
      Record(t.(fecApplied := !ok));
    }

    /** The added peers appear, in the order of the request. */
    method AddPeers()
      requires Valid() && active != "" && transactions[active].state == Prepared
      modifies this`transactions, core`peers, core`order
      ensures Valid() && transactions == old(transactions)[active := old(transactions)[active].(state := Committed)]
      ensures core.order == old(core.order) + KeysWith(transactions[active].content, Add)
      ensures forall k :: k in old(core.peers) ==> k in core.peers && core.peers[k] == old(core.peers)[k]
    {
      hide Core.Valid, Lists, KeysWith, Applicable, ChangesFrom;
      var t := transactions[active];
      var ms := t.content;
      var i := 0;
      KeysNone(ms, Add);
      while i < |ms|
        invariant 0 <= i <= |ms| && core.Valid() && core.order == old(core.order) + KeysWith(ms[..i], Add)
        invariant transactions == old(transactions)
        invariant forall k :: k in old(core.peers) ==> k in core.peers && core.peers[k] == old(core.peers)[k]
      {
        KeysMore(ms, Add, i);
        if ms[i].op == Add {
          CoreLists();
          NotYetAdded(ms, base.Keys, baseOrder, i);
          ListedKeys(core.order, core.peers.Keys, ms[i].key);
          core.AddPeer(ms[i].key, if ms[i].policy.Some? then ms[i].policy.value else Balanced);
        }
        i := i + 1;
      }
      assert ms[..i] == ms;
      Record(t.(state := Committed));
    }

    method CommitPeerSet(id: string, deviceOk: bool) returns (ok: bool)
      requires Valid()
      modifies this`transactions, core
      ensures Valid()
      ensures ok <==>
                && SafeId(id) && id in old(transactions) && old(transactions)[id].state != RolledBack
                && (old(transactions)[id].state == Prepared ==>
                      deviceOk && (old(transactions)[id].fecApplied
                          || AllForth(old(Now()), old(transactions)[id].changes)))
      ensures transactions.Keys == old(transactions).Keys
      ensures id in old(transactions) && old(transactions)[id].state != Prepared ==> transactions == old(transactions)
      ensures ok ==> id in transactions && (transactions[id].state == Committed || transactions[id].state == Finalized)
      ensures !ok && id in transactions ==>
                transactions[id] == old(transactions)[id].(fecApplied := transactions[id].fecApplied)
      ensures !ok ==> core.order == old(core.order)
      ensures ok && old(transactions)[id].state == Prepared ==>
                && core.order == old(core.order) + KeysWith(old(transactions)[id].content, Add)
                && (!old(transactions)[id].fecApplied ==>
                      forall c :: c in transactions[id].changes ==>
                          c.key in core.peers && core.peers[c.key].policy == c.after)
    {
      hide Core.Valid, SafeId, KeysWith, Standing, Lists;
      if !SafeId(id) || id !in transactions {
        return false;
      }
      if transactions[id].state != Prepared {
        return transactions[id].state != RolledBack;
      }
      ok := ApplyFec();
      if !ok {
        return;
      }
      InterfereKeeps();
      if !deviceOk {
        var _ := UndoFec();
        return false;
      }
      InterfereKeeps();
      AddPeers();
    }

    /** Takes the added peers away again. */
    method DropAdded()
      requires Valid() && active != "" && transactions[active].state == Committed
      modifies core`peers, core`policies, core`order
      ensures core.Valid() && core.order == baseOrder
      ensures forall k :: k in base ==> k in core.peers && core.peers[k] == old(core.peers)[k]
    {
      hide Core.Valid, Lists, KeysWith, Applicable, ChangesFrom, Without;
      var ms := transactions[active].content;
      var i := 0;
      assert ms[0..] == ms;
      while i < |ms|
        invariant 0 <= i <= |ms| && core.Valid() && core.order == baseOrder + KeysWith(ms[i..], Add)
        invariant forall k :: k in base ==> k in core.peers && core.peers[k] == old(core.peers)[k]
      {
        KeysTail(ms, Add, i);
        if ms[i].op == Add {
          ghost var tail := KeysWith(ms[i + 1..], Add);
          CoreLists();
          ListedKeys(core.order, core.peers.Keys, ms[i].key);
          NotInBase(ms, base.Keys, i);
          assert core.order == baseOrder + [ms[i].key] + tail;
          OnceIn(baseOrder, ms[i].key, tail, core.peers.Keys);
          WithoutMiddle(baseOrder, ms[i].key, tail);
          core.RemovePeer(ms[i].key);
        }
        i := i + 1;
      }
      KeysNone(ms[i..], Add);
      assert ms[i..] == ms[i..][..0] && baseOrder + [] == baseOrder;
    }

    /** Undoes a pending transaction: the peers, their order and their FEC policies
        are those it started from. */
    method RollbackPeerSet(id: string, deviceOk: bool) returns (ok: bool)
      requires Valid()
      modifies this`transactions, this`active, core
      ensures Valid()
      ensures ok <==>
                && SafeId(id) && id in old(transactions) && old(transactions)[id].state != Finalized
                && (Pending(old(transactions)[id]) ==>
                      deviceOk && (old(transactions)[id].fecApplied ==>
                          AllBack(old(Now()), old(transactions)[id].changes)))
      ensures id in old(transactions) && !Pending(old(transactions)[id]) ==>
                transactions == old(transactions) && active == old(active)
      ensures ok ==> id in transactions && transactions[id].state == RolledBack
      ensures ok && Pending(old(transactions)[id]) ==>
                && active == "" && core.order == baseOrder && PoliciesOf(core.peers) == base
      ensures !ok ==> active == old(active) && transactions.Keys == old(transactions).Keys
    {
      hide Core.Valid, SafeId, KeysWith, Lists, Applicable, ChangesFrom, Without, Swap;
      if !SafeId(id) || id !in transactions {
        return false;
      }
      if !Pending(transactions[id]) {
        return transactions[id].state == RolledBack;
      }
      if transactions[id].fecApplied {
        ok := UndoFec();
        if !ok {
          return;
        }
      }
      InterfereKeeps();
      if !deviceOk {
        return false;
      }
      InterfereKeeps();
      if transactions[id].state == Committed {
        DropAdded();
      } else {
        assert baseOrder + [] == baseOrder;
      }
      CoreLists();
      BackToBase(core.peers, core.order, baseOrder, base);
      Close(RolledBack);
      ok := true;
    }

    /** The active transaction is over. */
    method Close(state: State)
      requires core.Valid() && History(transactions, order, active) && active != ""
                 && (state == RolledBack || state == Finalized)
      modifies this`transactions, this`active
      ensures Valid() && active == ""
                && transactions == old(transactions)[old(active) := old(transactions)[old(active)].(state := state)]
    {
      hide Core.Valid, Lists, Standing;
      assert transactions[active := transactions[active].(state := state)].Keys == transactions.Keys;
      transactions := transactions[active := transactions[active].(state := state)];
      active := "";
    }

    /** Makes a committed transaction final: only now do removed peers go. */
    method FinalizePeerSet(id: string, deviceOk: bool) returns (ok: bool)
      requires Valid()
      modifies this`transactions, this`active, core
      ensures Valid()
      ensures ok <==>
                && SafeId(id) && id in old(transactions)
                && (old(transactions)[id].state == Finalized || (old(transactions)[id].state == Committed && deviceOk))
      ensures ok ==> transactions[id].state == Finalized
      ensures ok && old(transactions)[id].state == Finalized ==>
                transactions == old(transactions) && active == old(active)
      ensures !ok ==> transactions == old(transactions) && active == old(active)
      ensures ok && old(transactions)[id].state == Committed ==>
                && active == "" && core.order
                   == WithoutAll(old(core.order), KeysWith(old(transactions)[id].content, Remove))
      ensures !ok ==> core.order == old(core.order) && PoliciesOf(core.peers) == old(PoliciesOf(core.peers))
    {
      hide Core.Valid, SafeId, KeysWith, Lists, Applicable, ChangesFrom, Without, Standing;
      if !SafeId(id) || id !in transactions {
        return false;
      }
      if transactions[id].state != Committed {
        return transactions[id].state == Finalized;
      }
      if !deviceOk {
        return false;
      }
      InterfereKeeps();
      var ms := transactions[id].content;
      var i := 0;
      KeysNone(ms, Remove);
      while i < |ms|
        invariant 0 <= i <= |ms| && core.Valid() && transactions == old(transactions) && active == old(active)
        invariant core.order == WithoutAll(old(core.order), KeysWith(ms[..i], Remove))
      {
        KeysMore(ms, Remove, i);
        if ms[i].op == Remove {
          WithoutOneMore(old(core.order), KeysWith(ms[..i], Remove), ms[i].key);
          CoreLists();
          ListedKeys(core.order, core.peers.Keys, ms[i].key);
          if ms[i].key in core.peers {
            core.RemovePeer(ms[i].key);
          } else {
            WithoutAbsent(core.order, ms[i].key);
          }
        }
        i := i + 1;
      }
      assert ms[..i] == ms;
      Close(Finalized);
      ok := true;
    }

    /** Interference leaves the transactions where they stand. */
    method InterfereKeeps()
      requires Valid()
      modifies core
      ensures Valid() && core.order == old(core.order) && PoliciesOf(core.peers) == old(PoliciesOf(core.peers))
      ensures core.peers.Keys == old(core.peers).Keys && forall k :: k in core.peers ==>
                core.peers[k].policy == old(core.peers)[k].policy
    {
      hide Core.Valid, Lists, Applicable, ChangesFrom;
      Interfere();
      SamePolicies(old(core.peers), core.peers);
    }
  }

  function WithoutAll(order: seq<PublicKey>, keys: seq<PublicKey>): seq<PublicKey> {
    if keys == [] then order else Without(WithoutAll(order, keys[..|keys| - 1]), keys[|keys| - 1])
  }

  lemma WithoutOneMore(order: seq<PublicKey>, keys: seq<PublicKey>, k: PublicKey)
    ensures WithoutAll(order, keys + [k]) == Without(WithoutAll(order, keys), k)
  {
  }

  lemma WithoutAbsent(order: seq<PublicKey>, k: PublicKey)
    requires k !in order
    ensures Without(order, k) == order
  {
  }

  lemma {:induction false} WithoutMiddle(a: seq<PublicKey>, k: PublicKey, b: seq<PublicKey>)
    requires k !in a && k !in b
    ensures Without(a + [k] + b, k) == a + b
  {
    var all := a + [k] + b;
    if a == [] {
      assert all[1..] == b && a + b == b;
      WithoutAbsent(b, k);
    } else {
      assert all[1..] == a[1..] + [k] + b && all[0] == a[0];
      WithoutMiddle(a[1..], k, b);
      assert [a[0]] + (a[1..] + b) == a + b;
    }
  }

  lemma OnceIn(a: seq<PublicKey>, k: PublicKey, b: seq<PublicKey>, keys: set<PublicKey>)
    requires Lists(a + [k] + b, keys)
    ensures k !in a && k !in b
  {
    var all := a + [k] + b;
    assert forall i :: 0 <= i < |a| ==> all[i] == a[i] && all[i] != all[|a|];
    assert forall i :: 0 <= i < |b| ==> all[|a| + 1 + i] == b[i] && all[|a| + 1 + i] != all[|a|];
  }

  lemma KeysTail(ms: seq<Mutation>, op: Operation, i: nat)
    requires i < |ms|
    ensures KeysWith(ms[i..], op) == if ms[i].op == op then [ms[i].key] + KeysWith(ms[i + 1..], op)
              else KeysWith(ms[i + 1..], op)
  {
    assert ms[i..] == [ms[i]] + ms[i + 1..];
    KeysConcat([ms[i]], ms[i + 1..], op);
    assert [ms[i]][..0] == [];
  }

  lemma {:induction false} KeysConcat(a: seq<Mutation>, b: seq<Mutation>, op: Operation)
    ensures KeysWith(a + b, op) == KeysWith(a, op) + KeysWith(b, op)
  {
    if b == [] {
      assert a + b == a;
    } else {
      var n := |b| - 1;
      assert (a + b)[..|a| + n] == a + b[..n];
      KeysConcat(a, b[..n], op);
    }
  }

  lemma NotInBase(ms: seq<Mutation>, keys: set<PublicKey>, i: nat)
    requires Applicable(ms, keys) && i < |ms| && ms[i].op == Add
    ensures ms[i].key !in keys
  {
  }

  lemma BackToBase(peers: Peers, order: seq<PublicKey>, baseOrder: seq<PublicKey>, base: map<PublicKey, Policy>)
    requires Lists(order, peers.Keys) && Lists(baseOrder, base.Keys) && order == baseOrder
    requires forall k :: k in base ==> k in peers && peers[k].policy == base[k]
    ensures PoliciesOf(peers) == base
  {
  }

  lemma SamePolicies(a: Peers, b: Peers)
    requires PoliciesOf(a) == PoliciesOf(b)
    ensures a.Keys == b.Keys && forall k :: k in a ==> a[k].policy == b[k].policy
  {
    assert PoliciesOf(a).Keys == a.Keys && PoliciesOf(b).Keys == b.Keys;
    assert forall k :: k in a ==> PoliciesOf(a)[k] == a[k].policy;
    assert forall k :: k in b ==> PoliciesOf(b)[k] == b[k].policy;
  }

  lemma KeysNone(ms: seq<Mutation>, op: Operation)
    ensures KeysWith(ms[..0], op) == []
  {
  }

  lemma KeysMore(ms: seq<Mutation>, op: Operation, i: nat)
    requires i < |ms|
    ensures KeysWith(ms[..i + 1], op) == if ms[i].op == op then KeysWith(ms[..i], op) + [ms[i].key]
              else KeysWith(ms[..i], op)
  {
    assert ms[..i + 1][..i] == ms[..i];
  }

  lemma {:induction false} KeysFrom(ms: seq<Mutation>, op: Operation, k: PublicKey)
    requires k in KeysWith(ms, op)
    ensures exists j :: 0 <= j < |ms| && ms[j].key == k && ms[j].op == op
  {
    var n := |ms| - 1;
    if ms[n].op != op || ms[n].key != k {
      KeysFrom(ms[..n], op, k);
      var j :| 0 <= j < |ms[..n]| && ms[..n][j].key == k && ms[..n][j].op == op;
      assert ms[j].key == k && ms[j].op == op;
    }
  }

  lemma ListedKeys(order: seq<PublicKey>, keys: set<PublicKey>, k: PublicKey)
    requires Lists(order, keys)
    ensures k in order <==> k in keys
  {
  }

  lemma NotYetAdded(ms: seq<Mutation>, keys: set<PublicKey>, order: seq<PublicKey>, i: nat)
    requires Applicable(ms, keys) && Lists(order, keys) && i < |ms| && ms[i].op == Add
    ensures ms[i].key !in order + KeysWith(ms[..i], Add)
  {
    hide KeysWith;
    if ms[i].key in KeysWith(ms[..i], Add) {
      KeysFrom(ms[..i], Add, ms[i].key);
    }
  }

  lemma StandingStart(peers: Peers, order: seq<PublicKey>, t: Transaction)
    requires t.state == Prepared && Applicable(t.content, peers.Keys) && ChangesFrom(t.changes, PoliciesOf(peers))
               && Lists(order, peers.Keys)
    ensures Standing(peers, order, t, order, PoliciesOf(peers))
  {
  }

  lemma ListsTail(order: seq<string>, keys: set<string>)
    requires Lists(order, keys) && order != []
    ensures Lists(order[1..], keys - {order[0]})
  {
  }

  predicate SafeId(id: string) {
    0 < |id| <= 128 && forall i :: 0 <= i < |id| ==> id[i] != '\r' && id[i] != '\n' && id[i] != '\0'
  }

  /** PEER TRANSACTIONS OVER WHOLE RUNS.  Any calls in any order, with any answers of
      the device and endpoint calls in between: an ID is active exactly while its
      transaction is pending, the active one is the newest, at most 256 are kept, and
      every FEC reference is held by exactly one release. */
  method Run(s: PeerSets, steps: nat)
    requires s.Valid()
    modifies s, s.core
    ensures s.Valid() && |s.order| <= RETAINED_TRANSACTIONS
    ensures forall id :: id in s.transactions ==> (Pending(s.transactions[id]) <==> id == s.active)
    ensures s.active != "" ==> s.order != [] && s.order[|s.order| - 1] == s.active
    ensures Accounted(s.core.policies, s.core.order, Holders(s.core.peers))
  {
    hide Core.Valid, Standing;
    var left := steps;
    while left > 0
      invariant s.Valid()
    {
      hide History, SafeId, Applicable, KeysWith, WithoutAll;
      var which: nat, id: string, ms: seq<Mutation>, deviceOk: bool := *, *, *, *;
      var ok;
      match which {
        case 0 => ok := s.PreparePeerSet(id, ms, deviceOk);
        case 1 => ok := s.CommitPeerSet(id, deviceOk);
        case 2 => ok := s.RollbackPeerSet(id, deviceOk);
        case 3 => ok := s.FinalizePeerSet(id, deviceOk);
        case _ => s.InterfereKeeps();
      }
      left := left - 1;
    }
    CoreAccounts(s.core);
  }

  /** ROLLBACK, end to end: whether or not the transaction was committed, and whatever
      endpoints did meanwhile, undoing it leaves peers, order and FEC policies as they
      were when it was prepared. */
  method PrepareThenRollBack(s: PeerSets, id: string, ms: seq<Mutation>, commit: bool, answers: (bool, bool, bool))
      returns (undone: bool)
    requires s.Valid() && s.active == ""
    modifies s, s.core
    ensures s.Valid()
    ensures undone && id !in old(s.transactions) ==>
              s.active == "" && s.core.order == old(s.core.order)
                  && PoliciesOf(s.core.peers) == old(PoliciesOf(s.core.peers))
  {
    hide Core.Valid, Standing, History, SafeId, Applicable, KeysWith, Requested, Swap;
    var ok := s.PreparePeerSet(id, ms, answers.0);
    if !ok {
      return false;
    }
    s.InterfereKeeps();
    if commit {
      var _ := s.CommitPeerSet(id, answers.1);
      s.InterfereKeeps();
    }
    undone := s.RollbackPeerSet(id, answers.2);
  }

  lemma CoreAccounts(core: Core)
    requires core.Valid()
    ensures Accounted(core.policies, core.order, Holders(core.peers))
  {
  }
}
