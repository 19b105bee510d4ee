/** Reference-counted FEC policy leases on outbound endpoints, and what it means
    for the counts to agree with the release closures that peers still hold. */
module FecLeases {
  import opened Wrappers

  type PublicKey = string

  datatype Endpoint = Endpoint(addr: nat, port: nat)

  datatype Policy = Latency | Balanced | Throughput

  datatype PolicyLease = PolicyLease(policy: Policy, refs: nat)

  type PolicyTable = map<Endpoint, PolicyLease>

  /** A release closure that has been handed out and not called yet. */
  datatype Release = Release(endpoint: Endpoint, policy: Policy)

  /** What a peer keeps for an endpoint it no longer selects. */
  datatype Resource = Resource(endpoint: Endpoint, release: Release)

  /** The part of a peer that holds releases. */
  datatype Holder = Holder(active: Option<Release>, obsolete: seq<Resource>)

  function Refs(t: PolicyTable, e: Endpoint): nat {
    if e in t then t[e].refs else 0
  }

  predicate Stored(t: PolicyTable) {
    forall e :: e in t ==> t[e].refs > 0
  }

  // ---------- the three table operations ----------

  function Acquire(t: PolicyTable, e: Endpoint, policy: Policy): Option<PolicyTable> {
    if Refs(t, e) != 0 && t[e].policy != policy then None
    else Some(t[e := PolicyLease(policy, Refs(t, e) + 1)])
  }

  function Replace(t: PolicyTable, e: Endpoint, old_: Policy, new_: Policy): Option<PolicyTable> {
    if Refs(t, e) != 1 || t[e].policy != old_ then None
    else Some(t[e := PolicyLease(new_, 1)])
  }

  /** Calling a release closure: a no-op when the lease is gone or has changed policy. */
  function Call(t: PolicyTable, r: Release): PolicyTable {
    var e := r.endpoint;
    if Refs(t, e) == 0 || t[e].policy != r.policy then t
    else if t[e].refs == 1 then t - {e}
    else t[e := PolicyLease(r.policy, t[e].refs - 1)]
  }

  /** Giving an acquired lease straight back leaves the table as it was. */
  lemma AcquireThenCall(t: PolicyTable, e: Endpoint, policy: Policy)
    requires Stored(t) && Acquire(t, e, policy).Some?
    ensures Call(Acquire(t, e, policy).value, Release(e, policy)) == t
  {
  }

  lemma ReplaceThenReplaceBack(t: PolicyTable, e: Endpoint, a: Policy, b: Policy)
    requires Replace(t, e, a, b).Some?
    ensures Replace(Replace(t, e, a, b).value, e, b, a) == Some(t)
  {
    assert t[e] == PolicyLease(a, 1);
    assert Replace(t, e, a, b).value[e := PolicyLease(a, 1)] == t;
  }

  // ---------- counting held releases ----------

  function HeldObsolete(rs: seq<Resource>, e: Endpoint): nat {
    if rs == [] then 0
    else HeldObsolete(rs[1..], e) + if rs[0].release.endpoint == e then 1 else 0
  }

  function HeldBy(h: Holder, e: Endpoint): nat {
    HeldObsolete(h.obsolete, e) + if h.active.Some? && h.active.value.endpoint == e then 1 else 0
  }

  /** All releases on e held by the peers listed in `order`. */
  function Held(order: seq<PublicKey>, holders: map<PublicKey, Holder>, e: Endpoint): nat {
    if order == [] then 0
    else Held(order[1..], holders, e) + if order[0] in holders then HeldBy(holders[order[0]], e) else 0
  }

  predicate Distinct(order: seq<PublicKey>) {
    forall i, j :: 0 <= i < j < |order| ==> order[i] != order[j]
  }

  predicate Lists(order: seq<PublicKey>, keys: set<PublicKey>) {
    Distinct(order) && (forall i :: 0 <= i < |order| ==> order[i] in keys) && (forall k :: k in keys ==> k in order)
  }

  lemma ListsSnoc(order: seq<PublicKey>, keys: set<PublicKey>, k: PublicKey)
    requires Lists(order, keys) && k !in keys
    ensures Lists(order + [k], keys + {k})
  {
  }

  predicate Carries(t: PolicyTable, r: Release) {
    r.endpoint in t && t[r.endpoint].policy == r.policy
  }

  predicate AllCarry(t: PolicyTable, h: Holder) {
    && (h.active.Some? ==> Carries(t, h.active.value))
    && forall i :: 0 <= i < |h.obsolete| ==> Carries(t, h.obsolete[i].release)
  }

  /** ACCOUNTING.  For each endpoint the reference count is the number of release
      closures held by peers, and every held closure carries the endpoint's
      current policy; so no release is ever a no-op. */
  ghost predicate Accounted(t: PolicyTable, order: seq<PublicKey>, holders: map<PublicKey, Holder>) {
    && Stored(t)
    && Lists(order, holders.Keys)
    && (forall e :: Refs(t, e) == Held(order, holders, e))
    && (forall k :: k in holders ==> AllCarry(t, holders[k]))
  }

  lemma {:induction false} HeldWithout(order: seq<PublicKey>, holders: map<PublicKey, Holder>, k: PublicKey, h: Holder,
      e: Endpoint)
    requires k !in order
    ensures Held(order, holders[k := h], e) == Held(order, holders, e)
  {
    if order != [] {
      HeldWithout(order[1..], holders, k, h, e);
    }
  }

  /** Changing one peer's holdings changes the total by exactly the difference. */
  lemma {:induction false} HeldUpdate(order: seq<PublicKey>, holders: map<PublicKey, Holder>, k: PublicKey, h: Holder,
      e: Endpoint)
    requires Distinct(order) && k in order && k in holders
    ensures Held(order, holders[k := h], e) + HeldBy(holders[k], e) == Held(order, holders, e) + HeldBy(h, e)
  {
    hide HeldBy;
    if order[0] == k {
      assert forall i :: 0 <= i < |order[1..]| ==> order[1..][i] == order[i + 1] != k;
      HeldWithout(order[1..], holders, k, h, e);
    } else {
      HeldUpdate(order[1..], holders, k, h, e);
    }
  }

  lemma {:induction false} HeldObsoleteSnoc(rs: seq<Resource>, r: Resource, e: Endpoint)
    ensures HeldObsolete(rs + [r], e) == HeldObsolete(rs, e) + if r.release.endpoint == e then 1 else 0
  {
    if rs == [] {
      assert rs + [r] == [r];
      assert HeldObsolete([r][1..], e) == 0;
    } else {
      HeldObsoleteSnoc(rs[1..], r, e);
      assert (rs + [r])[1..] == rs[1..] + [r];
    }
  }

  lemma {:induction false} SomeHeldObsolete(rs: seq<Resource>, i: nat)
    requires i < |rs|
    ensures HeldObsolete(rs, rs[i].release.endpoint) > 0
  {
    if i > 0 {
      SomeHeldObsolete(rs[1..], i - 1);
    }
  }

  lemma {:induction false} HeldAtLeast(order: seq<PublicKey>, holders: map<PublicKey, Holder>, k: PublicKey,
      e: Endpoint)
    requires k in order && k in holders
    ensures Held(order, holders, e) >= HeldBy(holders[k], e)
  {
    hide HeldBy;
    if order[0] != k {
      HeldAtLeast(order[1..], holders, k, e);
    }
  }

  lemma {:induction false} HeldByTwo(order: seq<PublicKey>, holders: map<PublicKey, Holder>, a: PublicKey,
      b: PublicKey, e: Endpoint)
    requires a in order && b in order && a in holders && b in holders && a != b
    ensures Held(order, holders, e) >= HeldBy(holders[a], e) + HeldBy(holders[b], e)
  {
    hide HeldBy;
    if order[0] == a {
      HeldAtLeast(order[1..], holders, b, e);
    } else if order[0] == b {
      HeldAtLeast(order[1..], holders, a, e);
    } else {
      HeldByTwo(order[1..], holders, a, b, e);
    }
  }

  lemma {:induction false} HeldSnoc(order: seq<PublicKey>, holders: map<PublicKey, Holder>, k: PublicKey, e: Endpoint)
    ensures Held(order + [k], holders, e) == Held(order, holders, e) + if k in holders then HeldBy(holders[k], e) else 0
  {
    hide HeldBy;
    if order == [] {
      assert order + [k] == [k];
      assert Held([k][1..], holders, e) == 0;
    } else {
      HeldSnoc(order[1..], holders, k, e);
      assert (order + [k])[1..] == order[1..] + [k];
    }
  }

  // ---------- what each operation does to the accounts ----------

  /** A peer takes one more lease and retires its previous one. */
  lemma AcquireAccounts(
    t: PolicyTable, order: seq<PublicKey>, holders: map<PublicKey, Holder>, k: PublicKey, e: Endpoint, policy: Policy,
        h: Holder)
    requires Accounted(t, order, holders) && k in holders && Acquire(t, e, policy).Some?
    requires h.active == Some(Release(e, policy))
    requires h.obsolete == holders[k].obsolete + Retired(holders[k].active)
    ensures Accounted(Acquire(t, e, policy).value, order, holders[k := h])
  {
    hide HeldBy, AllCarry, Lists;
    var t1 := Acquire(t, e, policy).value;
    ListsUpdate(order, holders, k, h);
    forall f
      ensures Refs(t1, f) == Held(order, holders[k := h], f)
    {
      HeldUpdate(order, holders, k, h, f);
      RetireHeld(holders[k], h, f);
    }
    var now := holders[k := h];
    forall j | j in now
      ensures AllCarry(t1, now[j])
    {
      AcquireCarries(t, e, policy, if j == k then holders[k] else holders[j]);
      if j == k {
        RetireCarries(t1, holders[k], h);
      }
    }
  }

  lemma ListsUpdate(order: seq<PublicKey>, holders: map<PublicKey, Holder>, k: PublicKey, h: Holder)
    requires Lists(order, holders.Keys) && k in holders
    ensures Lists(order, holders[k := h].Keys) && Distinct(order) && k in order
  {
  }

  function Retired(active: Option<Release>): seq<Resource> {
    if active.Some? then [Resource(active.value.endpoint, active.value)] else []
  }

  lemma RetireHeld(was: Holder, h: Holder, e: Endpoint)
    requires h.obsolete == was.obsolete + Retired(was.active)
    ensures HeldBy(h, e) == HeldBy(was, e) + if h.active.Some? && h.active.value.endpoint == e then 1 else 0
  {
    if was.active.Some? {
      HeldObsoleteSnoc(was.obsolete, Resource(was.active.value.endpoint, was.active.value), e);
    } else {
      assert h.obsolete == was.obsolete;
    }
  }

  lemma RetireCarries(t: PolicyTable, was: Holder, h: Holder)
    requires AllCarry(t, was) && h.obsolete == was.obsolete + Retired(was.active)
    requires h.active.Some? ==> Carries(t, h.active.value)
    ensures AllCarry(t, h)
  {
  }

  lemma AcquireCarries(t: PolicyTable, e: Endpoint, policy: Policy, h: Holder)
    requires Stored(t) && Acquire(t, e, policy).Some? && AllCarry(t, h)
    ensures AllCarry(Acquire(t, e, policy).value, h) && Carries(Acquire(t, e, policy).value, Release(e, policy))
  {
  }

  /** A peer stops selecting an endpoint and keeps its lease as obsolete. */
  lemma RetireAccounts(t: PolicyTable, order: seq<PublicKey>, holders: map<PublicKey, Holder>, k: PublicKey, h: Holder)
    requires Accounted(t, order, holders) && k in holders
    requires h.active.None? && h.obsolete == holders[k].obsolete + Retired(holders[k].active)
    ensures Accounted(t, order, holders[k := h])
  {
    hide HeldBy, AllCarry, Lists;
    ListsUpdate(order, holders, k, h);
    forall f
      ensures Refs(t, f) == Held(order, holders[k := h], f)
    {
      HeldUpdate(order, holders, k, h, f);
      RetireHeld(holders[k], h, f);
    }
    RetireCarries(t, holders[k], h);
  }

  /** A held release is never a no-op: calling it gives back exactly one reference. */
  lemma HeldIsLive(t: PolicyTable, order: seq<PublicKey>, holders: map<PublicKey, Holder>, k: PublicKey, r: Release)
    requires Accounted(t, order, holders) && k in holders && HeldBy(holders[k], r.endpoint) > 0 && Carries(t, r)
    ensures Call(t, r) != t
    ensures forall e :: Refs(Call(t, r), e) == Refs(t, e) - if e == r.endpoint then 1 else 0
  {
  }

  /** Calling one of a peer's releases and forgetting it keeps the accounts. */
  lemma CallAccounts(
    t: PolicyTable, order: seq<PublicKey>, holders: map<PublicKey, Holder>, k: PublicKey, h: Holder, r: Release)
    requires Accounted(t, order, holders) && k in holders && Carries(t, r)
    requires forall e :: HeldBy(h, e) + (if e == r.endpoint then 1 else 0) == HeldBy(holders[k], e)
    requires AllCarry(t, h)
    ensures Accounted(Call(t, r), order, holders[k := h])
  {
    hide HeldBy, AllCarry;
    ListsUpdate(order, holders, k, h);
    HeldIsLive(t, order, holders, k, r);
    var t1 := Call(t, r);
    forall f
      ensures Refs(t1, f) == Held(order, holders[k := h], f)
    {
      HeldUpdate(order, holders, k, h, f);
    }
    var now := holders[k := h];
    forall j | j in now
      ensures AllCarry(t1, now[j])
    {
      HeldAtLeastAll(order, now, j);
      CallCarries(t, r, now[j]);
    }
  }

  lemma HeldAtLeastAll(order: seq<PublicKey>, holders: map<PublicKey, Holder>, k: PublicKey)
    requires k in order && k in holders
    ensures forall e :: Held(order, holders, e) >= HeldBy(holders[k], e)
  {
    forall e
      ensures Held(order, holders, e) >= HeldBy(holders[k], e)
    {
      HeldAtLeast(order, holders, k, e);
    }
  }

  lemma CallCarries(t: PolicyTable, r: Release, h: Holder)
    requires Carries(t, r) && t[r.endpoint].refs > 0 && AllCarry(t, h)
    requires forall e :: Refs(Call(t, r), e) >= HeldBy(h, e)
    ensures AllCarry(Call(t, r), h)
  {
    forall i | 0 <= i < |h.obsolete|
      ensures Carries(Call(t, r), h.obsolete[i].release)
    {
      SomeHeldObsolete(h.obsolete, i);
      assert HeldBy(h, h.obsolete[i].release.endpoint) > 0;
    }
    if h.active.Some? {
      assert HeldBy(h, h.active.value.endpoint) > 0;
    }
  }

  /** Replacing the sole lease of an endpoint, in the peer that holds it. */
  lemma ReplaceAccounts(
    t: PolicyTable, order: seq<PublicKey>, holders: map<PublicKey, Holder>, k: PublicKey, e: Endpoint, a: Policy,
        b: Policy)
    requires Accounted(t, order, holders) && k in holders
    requires holders[k].active == Some(Release(e, a)) && Replace(t, e, a, b).Some?
    ensures Accounted(Replace(t, e, a, b).value, order, holders[k := holders[k].(active := Some(Release(e, b)))])
  {
    hide HeldBy, AllCarry;
    var h := holders[k].(active := Some(Release(e, b)));
    var now := holders[k := h];
    var t1 := Replace(t, e, a, b).value;
    ListsUpdate(order, holders, k, h);
    forall f
      ensures Refs(t1, f) == Held(order, now, f)
    {
      HeldUpdate(order, holders, k, h, f);
      SameEndpoint(holders[k], h, f);
    }
    forall j | j in now
      ensures AllCarry(t1, now[j])
    {
      if j == k {
        HeldAtLeast(order, holders, k, e);
      } else {
        HeldByTwo(order, holders, k, j, e);
      }
      ReplaceCarries(t, e, a, b, holders[k], holders[j], j == k);
    }
  }

  lemma SameEndpoint(was: Holder, h: Holder, e: Endpoint)
    requires was.active.Some? && h.active.Some? && was.active.value.endpoint == h.active.value.endpoint
    requires was.obsolete == h.obsolete
    ensures HeldBy(was, e) == HeldBy(h, e)
  {
  }

  lemma ReplaceCarries(t: PolicyTable, e: Endpoint, a: Policy, b: Policy, owner: Holder, h: Holder, own: bool)
    requires Replace(t, e, a, b).Some? && AllCarry(t, h)
    requires owner.active == Some(Release(e, a)) && (own ==> h == owner)
    requires 1 >= HeldBy(owner, e) + if own then 0 else HeldBy(h, e)
    ensures AllCarry(Replace(t, e, a, b).value, if own then h.(active := Some(Release(e, b))) else h)
  {
    forall i | 0 <= i < |h.obsolete|
      ensures h.obsolete[i].release.endpoint != e
    {
      SomeHeldObsolete(h.obsolete, i);
    }
  }

  // ---------- peers come and go ----------

  /** slices.DeleteFunc of one key. */
  function Without(order: seq<PublicKey>, k: PublicKey): (r: seq<PublicKey>)
    ensures forall j :: j in r <==> j in order && j != k
    ensures k !in order ==> r == order
  {
    if order == [] then []
    else if order[0] == k then Without(order[1..], k)
    else [order[0]] + Without(order[1..], k)
  }

  lemma {:induction false} WithoutDistinct(order: seq<PublicKey>, k: PublicKey)
    requires Distinct(order)
    ensures Distinct(Without(order, k))
  {
    if order != [] {
      WithoutDistinct(order[1..], k);
      var w := Without(order[1..], k);
      assert forall i :: 0 <= i < |w| ==> w[i] in w && w[i] in order[1..];
    }
  }

  lemma {:induction false} HeldNothing(order: seq<PublicKey>, holders: map<PublicKey, Holder>, k: PublicKey,
      e: Endpoint)
    requires k in holders ==> HeldBy(holders[k], e) == 0
    ensures Held(Without(order, k), holders - {k}, e) == Held(order, holders, e)
  {
    hide HeldBy;
    if order != [] {
      HeldNothing(order[1..], holders, k, e);
      if order[0] != k {
        var w := Without(order[1..], k);
        assert ([order[0]] + w)[1..] == w;
      }
    }
  }

  const NOTHING: Holder := Holder(None, [])

  /** A peer that holds nothing joins at the end of the order. */
  lemma JoinAccounts(t: PolicyTable, order: seq<PublicKey>, holders: map<PublicKey, Holder>, k: PublicKey)
    requires Accounted(t, order, holders) && k !in holders
    ensures Accounted(t, order + [k], holders[k := NOTHING])
  {
    var now := holders[k := NOTHING];
    assert now.Keys == holders.Keys + {k};
    forall e
      ensures Refs(t, e) == Held(order + [k], now, e)
    {
      HeldWithout(order, holders, k, NOTHING, e);
      HeldSnoc(order, now, k, e);
    }
  }

  lemma ListsWithout(order: seq<PublicKey>, keys: set<PublicKey>, k: PublicKey)
    requires Lists(order, keys)
    ensures Lists(Without(order, k), keys - {k})
  {
    WithoutDistinct(order, k);
    var w := Without(order, k);
    assert forall i :: 0 <= i < |w| ==> w[i] in w;
  }

  /** A peer that holds nothing leaves. */
  lemma LeaveAccounts(t: PolicyTable, order: seq<PublicKey>, holders: map<PublicKey, Holder>, k: PublicKey)
    requires Accounted(t, order, holders) && (k in holders ==> holders[k] == NOTHING)
    ensures Accounted(t, Without(order, k), holders - {k})
  {
    hide Without, AllCarry;
    ListsWithout(order, holders.Keys, k);
    assert (holders - {k}).Keys == holders.Keys - {k};
    forall e
      ensures Refs(t, e) == Held(Without(order, k), holders - {k}, e)
    {
      HeldNothing(order, holders, k, e);
    }
  }
}
