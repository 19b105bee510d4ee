/** The reassembler as it runs: a lookup map and, beside it, an indexed binary
    heap ordered by creation time, so that expiry never scans the table.  Every
    method is proved against the scanned table of `ReassemblySpec`. */
module Reassembly {
  import opened Wrappers
  import opened Framing
  import opened ReassemblySpec

  class Group {
    const created: int
    const key: Key
    const total: nat
    const count: nat
    var index: int
    var seen: int
    var bytes: int
    var shards: Shards

    constructor (now: int, key: Key, total: nat, count: nat)
      ensures created == now && this.key == key && this.total == total && this.count == count
      ensures seen == 0 && bytes == 0 && shards == NoShards(count)
      ensures Counted()
    {
      created, this.key, this.total, this.count := now, key, total, count;
      index, seen, bytes, shards := 0, 0, 0, NoShards(count);
      NoShardsSeen(NoShards(count));
    }

    ghost function View(): Pending
      reads this`shards
    {
      Pending(created, total, count, shards)
    }

    /** The running counters agree with the shards they summarise. */
    ghost predicate Counted()
      reads this`shards, this`seen, this`bytes
    {
      seen == Seen(shards) && bytes == Bytes(shards) && |shards| == count
    }

    ghost predicate Good()
      reads this`shards, this`seen, this`bytes
    {
      Counted() && GoodPending(View())
    }
  }

  // ---------- heap order on a slice of groups ----------

  function Parent(i: nat): (p: nat)
    requires i > 0
    ensures p < i
  {
    (i - 1) / 2
  }

  ghost predicate InOrder(q: seq<Group>, k: nat)
    requires 0 < k < |q|
  {
    q[Parent(k)].created <= q[k].created
  }

  /** The first n elements form a min-heap. */
  ghost predicate Ordered(q: seq<Group>, n: nat)
    requires n <= |q|
  {
    forall k :: 0 < k < n ==> InOrder(q, k)
  }

  /** ... except that j may be smaller than its parent. */
  ghost predicate OrderedAbove(q: seq<Group>, n: nat, j: nat)
    requires n <= |q|
  {
    && (forall k :: 0 < k < n && k != j ==> InOrder(q, k))
    && Bridged(q, n, j)
  }

  /** ... except around j, where only grandparents are known to be in order. */
  ghost predicate OrderedAround(q: seq<Group>, n: nat, j: nat)
    requires n <= |q|
  {
    && (forall k :: 0 < k < n && k != j && Parent(k) != j ==> InOrder(q, k))
    && Bridged(q, n, j)
  }

  /** ... except that j may be larger than its children. */
  ghost predicate OrderedBelow(q: seq<Group>, n: nat, j: nat)
    requires n <= |q|
  {
    forall k :: 0 < k < n && Parent(k) != j ==> InOrder(q, k)
  }

  ghost predicate Bridged(q: seq<Group>, n: nat, j: nat)
    requires n <= |q|
  {
    0 < j < n ==> forall k :: 0 < k < n && Parent(k) == j ==> q[Parent(j)].created <= q[k].created
  }

  /** Every element knows its own position; so no element occurs twice. */
  ghost predicate Indexed(q: seq<Group>)
    reads q
  {
    forall i :: 0 <= i < |q| ==> q[i].index == i
  }

  ghost function Members(q: seq<Group>): set<Group> {
    set g | g in q
  }

  ghost predicate SameMembers(a: seq<Group>, b: seq<Group>) {
    |a| == |b| && Members(a) == Members(b)
  }

  function Swapped(q: seq<Group>, i: nat, j: nat): (r: seq<Group>)
    requires i < |q| && j < |q|
  {
    q[i := q[j]][j := q[i]]
  }

  lemma SwapMembers(q: seq<Group>, i: nat, j: nat)
    requires i < |q| && j < |q|
    ensures SameMembers(q, Swapped(q, i, j))
  {
    var r := Swapped(q, i, j);
    assert r[i] == q[j] && r[j] == q[i];
    forall g | g in q
      ensures g in r
    {
      var k :| 0 <= k < |q| && q[k] == g;
      assert k != i && k != j ==> r[k] == g;
    }
  }

  lemma SwapTail(q: seq<Group>, i: nat, j: nat, n: nat)
    requires i < n <= |q| && j < n
    ensures Swapped(q, i, j)[n..] == q[n..]
  {
  }

  lemma {:induction false} RootIsOldest(q: seq<Group>, k: nat)
    requires k < |q| && Ordered(q, |q|)
    ensures q[0].created <= q[k].created
  {
    if k > 0 {
      assert InOrder(q, k);
      RootIsOldest(q, Parent(k));
    }
  }

  lemma PrefixOrdered(q: seq<Group>, n: nat)
    requires n <= |q| && Ordered(q, n)
    ensures Ordered(q[..n], n)
  {
    forall k | 0 < k < n
      ensures InOrder(q[..n], k)
    {
      assert InOrder(q, k);
    }
  }

  lemma SwapUp(q: seq<Group>, n: nat, j: nat)
    requires 0 < j < n <= |q| && OrderedAbove(q, n, j) && q[j].created < q[Parent(j)].created
    ensures OrderedAbove(Swapped(q, Parent(j), j), n, Parent(j))
  {
    var i := Parent(j);
    var r := Swapped(q, i, j);
    forall k | 0 < k < n && k != i
      ensures InOrder(r, k)
    {
      if k != j {
        assert InOrder(q, k);
      }
    }
    if i > 0 {
      assert InOrder(q, i);
      forall k | 0 < k < n && Parent(k) == i
        ensures r[Parent(i)].created <= r[k].created
      {
        if k != j {
          assert InOrder(q, k);
        }
      }
    }
  }

  lemma SwapDown(q: seq<Group>, n: nat, i: nat, j: nat)
    requires 0 < j < n <= |q| && i == Parent(j) && OrderedAround(q, n, i)
    requires q[j].created < q[i].created
    requires forall k :: 0 < k < n && Parent(k) == i ==> q[j].created <= q[k].created
    ensures var r := Swapped(q, i, j);
            && OrderedAround(r, n, j)
            && OrderedBelow(r, n, j)
  {
  }

  /** Once j is no larger than its children, only its parent can be out of order. */
  lemma SiftedDown(q: seq<Group>, n: nat, j: nat)
    requires j < n <= |q| && OrderedAround(q, n, j)
    requires 2 * j + 1 < n ==> q[j].created <= q[2 * j + 1].created
    requires 2 * j + 2 < n ==> q[j].created <= q[2 * j + 2].created
    ensures OrderedAbove(q, n, j)
    ensures OrderedBelow(q, n, j) ==> Ordered(q, n)
  {
    forall k | 0 < k < n && Parent(k) == j
      ensures InOrder(q, k)
    {
      assert k == 2 * j + 1 || k == 2 * j + 2;
    }
  }

  lemma SwapLast(q: seq<Group>, i: nat)
    requires i < |q| - 1 && Ordered(q, |q|)
    ensures OrderedAround(Swapped(q, i, |q| - 1), |q| - 1, i)
  {
    var n := |q| - 1;
    var r := Swapped(q, i, n);
    forall k | 0 < k < n && k != i && Parent(k) != i
      ensures InOrder(r, k)
    {
      assert InOrder(q, k);
    }
    if i > 0 {
      forall k | 0 < k < n && Parent(k) == i
        ensures r[Parent(i)].created <= r[k].created
      {
        assert InOrder(q, k) && InOrder(q, i);
      }
    }
  }

  /** The lookup map and the queue hold the same groups, each under its own key. */
  ghost predicate Linked(groups: map<Key, Group>, members: set<Group>) {
    && (forall k :: k in groups ==> groups[k] in members && groups[k].key == k)
    && (forall g :: g in members ==> g.key in groups && groups[g.key] == g)
  }

  ghost function TableOf(groups: map<Key, Group>): Table
    reads groups.Values`shards
  {
    map k | k in groups :: groups[k].View()
  }

  lemma TableIsGood(groups: map<Key, Group>, members: set<Group>)
    requires Linked(groups, members) && |groups| <= MAX_REASSEMBLIES
    requires forall g :: g in members ==> g.Good()
    ensures GoodTable(TableOf(groups))
  {
    assert TableOf(groups).Keys == groups.Keys;
  }

  /** When the root has not expired, nothing in the table has. */
  lemma NoneExpired(q: seq<Group>, groups: map<Key, Group>, now: int)
    requires Ordered(q, |q|) && Linked(groups, Members(q))
    requires |q| != 0 ==> !(now - q[0].created > REASSEMBLY_TTL)
    ensures forall k :: k in TableOf(groups) ==> !Expired(TableOf(groups)[k], now)
  {
    forall k | k in groups
      ensures !Expired(groups[k].View(), now)
    {
      assert groups[k] in Members(q);
      var i :| 0 <= i < |q| && q[i] == groups[k];
      RootIsOldest(q, i);
    }
  }

  class Reassembler {
    var groups: map<Key, Group>
    var expiry: seq<Group>

    constructor ()
      ensures Valid() && Table() == map[] && Members(expiry) == {}
    {
      groups, expiry := map[], [];
    }

    /** The heap is a min-heap with correct back-indices and is in bijection with
        the lookup map; every group is consistent; the table is bounded. */
    ghost predicate Valid()
      reads this, expiry
    {
      && Sound()
      && |groups| <= MAX_REASSEMBLIES
      && forall g :: g in Members(expiry) ==> g.Good()
    }

    /** Valid, but for the bounds on the groups' contents. */
    ghost predicate Sound()
      reads this, expiry
    {
      && Queued()
      && Linked(groups, Members(expiry))
      && forall g :: g in Members(expiry) ==> g.Counted()
    }

    ghost predicate Queued()
      reads this, expiry
    {
      Indexed(expiry) && Ordered(expiry, |expiry|)
    }

    /** What the table means, queue aside. */
    ghost function Table(): (t: Table)
      reads this, expiry, groups.Values
      requires Valid()
      ensures GoodTable(t)
    {
      TableIsGood(groups, Members(expiry));
      TableOf(groups)
    }

    // ---------- container/heap over this queue ----------

    method Swap(i: nat, j: nat)
      requires i < |expiry| && j < |expiry| && Indexed(expiry)
      modifies this`expiry, {expiry[i], expiry[j]}`index
      ensures expiry == Swapped(old(expiry), i, j)
      ensures Indexed(expiry)
    {
      expiry := expiry[i := expiry[j]][j := expiry[i]];
      expiry[i].index := i;
      expiry[j].index := j;
    }

    /** Sifts element `start` up through the first n elements. */
    method Up(start: nat, ghost n: nat)
      requires start < n <= |expiry| && Indexed(expiry) && OrderedAbove(expiry, n, start)
      modifies this`expiry, Members(expiry)`index
      ensures Indexed(expiry) && SameMembers(old(expiry), expiry)
      ensures Ordered(expiry, n) && expiry[n..] == old(expiry[n..])
    {
      hide Bridged;
      var j: nat := start;
      while true
        invariant j < n <= |expiry| && Indexed(expiry) && SameMembers(old(expiry), expiry)
        invariant OrderedAbove(expiry, n, j) && expiry[n..] == old(expiry[n..])
        decreases j
      {
        var i := if j == 0 then 0 else (j - 1) / 2;
        if i == j || !(expiry[j].created < expiry[i].created) {
          break;
        }
        SwapUp(expiry, n, j);
        SwapMembers(expiry, i, j);
        SwapTail(expiry, i, j, n);
        assert expiry[i] in expiry && expiry[j] in expiry;
        Swap(i, j);
        j := i;
      }
    }

    /** Sifts element i0 down through the first n elements. */
    method Down(i0: nat, n: nat) returns (moved: bool)
      requires i0 < n <= |expiry| && Indexed(expiry) && OrderedAround(expiry, n, i0)
      modifies this`expiry, Members(expiry)`index
      ensures Indexed(expiry) && SameMembers(old(expiry), expiry)
      ensures expiry[n..] == old(expiry[n..])
      ensures moved ==> Ordered(expiry, n)
      ensures !moved ==> OrderedAbove(expiry, n, i0)
    {
      hide OrderedAround, OrderedBelow, Ordered, OrderedAbove;
      var i: nat := i0;
      while true
        invariant i0 <= i < n <= |expiry| && Indexed(expiry) && SameMembers(old(expiry), expiry)
        invariant expiry[n..] == old(expiry[n..])
        invariant OrderedAround(expiry, n, i)
        invariant i > i0 ==> OrderedBelow(expiry, n, i)
        decreases n - i
      {
        var j := 2 * i + 1;
        if j >= n {
          SiftedDown(expiry, n, i);
          break;
        }
        if j + 1 < n && expiry[j + 1].created < expiry[j].created {
          j := j + 1;
        }
        if !(expiry[j].created < expiry[i].created) {
          SiftedDown(expiry, n, i);
          break;
        }
        SwapDown(expiry, n, i, j);
        SwapMembers(expiry, i, j);
        SwapTail(expiry, i, j, n);
        assert expiry[i] in expiry && expiry[j] in expiry;
        Swap(i, j);
        i := j;
      }
      moved := i > i0;
    }

    method HeapPush(group: Group)
      requires Queued() && group !in expiry
      modifies this`expiry, Members(expiry)`index, group`index
      ensures Queued() && Members(expiry) == old(Members(expiry)) + {group}
    {
      group.index := |expiry|;
      expiry := expiry + [group];
      assert forall k :: 0 < k < |expiry| - 1 ==> InOrder(old(expiry), k) ==> InOrder(expiry, k);
      assert Members(expiry) == old(Members(expiry)) + {group};
      Up(|expiry| - 1, |expiry|);
    }

    /** Takes the element at position i out of the queue. */
    method HeapRemove(i: nat)
      requires Queued() && i < |expiry|
      modifies this`expiry, Members(expiry)`index
      ensures Queued()
      ensures |expiry| == |old(expiry)| - 1
      ensures Members(expiry) == old(Members(expiry)) - {old(expiry[i])}
    {
      ghost var q := expiry;
      var n := |expiry| - 1;
      if n != i {
        SwapLast(expiry, i);
        SwapMembers(expiry, i, n);
        Swap(i, n);
        var moved := Down(i, n);
        if !moved {
          Up(i, n);
        }
      }
      assert expiry[n] == q[i];
      DropLast(q, expiry);
      PrefixOrdered(expiry, n);
      expiry := expiry[..n];
    }

    // ---------- the reassembler's own operations ----------

    method Remove(group: Group)
      requires Sound() && group in expiry
      modifies this, Members(expiry)`index
      ensures Sound()
      ensures groups == old(groups) - {group.key}
      ensures Members(expiry) == old(Members(expiry)) - {group}
      ensures |expiry| < |old(expiry)|
    {
      assert group in Members(expiry);
      groups := groups - {group.key};
      HeapRemove(group.index);
    }

    /** Removing a group that meets the bounds keeps everything valid. */
    method Drop(group: Group)
      requires Valid() && group in expiry
      modifies this, Members(expiry)`index
      ensures Valid()
      ensures group.key in old(Table()) && old(Table())[group.key].created == group.created
      ensures Table() == old(Table()) - {group.key}
      ensures Members(expiry) == old(Members(expiry)) - {group}
      ensures |expiry| < |old(expiry)|
    {
      hide GoodPending;
      assert group in Members(expiry);
      SubmapSize(groups - {group.key}, groups);
      Remove(group);
    }

    method ExpireLocked(now: int)
      requires Valid()
      modifies this, Members(expiry)`index
      ensures Valid()
      ensures Table() == ReassemblySpec.Expire(old(Table()), now)
      ensures Members(expiry) <= old(Members(expiry))
    {
      hide Reassembler.Valid, Reassembler.Table, GoodTable;
      ghost var table := Table();
      ghost var rest := Table();
      while |expiry| != 0 && now - expiry[0].created > REASSEMBLY_TTL
        invariant Valid() && Members(expiry) <= old(Members(expiry))
        invariant rest == Table()
        invariant forall k :: k in rest ==> k in table && rest[k] == table[k]
        invariant forall k :: k in table && k !in rest ==> Expired(table[k], now)
        decreases |expiry|
      {
        Drop(expiry[0]);
        rest := Table();
      }
      RootFresh(now);
    }

    lemma RootFresh(now: int)
      requires Valid()
      requires |expiry| != 0 ==> !(now - expiry[0].created > REASSEMBLY_TTL)
      ensures forall k :: k in Table() ==> !Expired(Table()[k], now)
    {
      NoneExpired(expiry, groups, now);
    }

    method Expire(now: int)
      requires Valid()
      modifies this, Members(expiry)`index
      ensures Valid()
      ensures Table() == ReassemblySpec.Expire(old(Table()), now)
      ensures Members(expiry) <= old(Members(expiry))
    {
      ExpireLocked(now);
    }

    method DiscardSession(sessionID: nat)
      requires Valid()
      modifies this, Members(expiry)`index
      ensures Valid()
      ensures Table() == ReassemblySpec.DiscardSession(old(Table()), sessionID)
      ensures Members(expiry) <= old(Members(expiry))
    {
      hide Reassembler.Valid, Reassembler.Table, GoodTable;
      ghost var table := Table();
      ghost var rest := Table();
      var todo := groups.Keys;
      KeysOfTable();
      while todo != {}
        invariant Valid() && Members(expiry) <= old(Members(expiry))
        invariant rest == Table() && todo <= rest.Keys
        invariant forall k :: k in rest ==> k in table && rest[k] == table[k]
        invariant forall k :: k in rest && k !in todo ==> k.sessionID != sessionID
        invariant forall k :: k in table && k !in rest ==> k.sessionID == sessionID
        decreases todo
      {
        var key :| key in todo;
        todo := todo - {key};
        KeysOfTable();
        if key.sessionID == sessionID {
          Drop(groups[key]);
          rest := Table();
        }
      }
    }

    lemma KeysOfTable()
      requires Valid()
      ensures Table().Keys == groups.Keys
      ensures forall k :: k in groups ==> groups[k].key == k && groups[k] in expiry
    {
    }

    lemma Known(key: Key)
      requires Valid() && key in groups
      ensures var g := groups[key];
              && ValidExcept(g) && g in Members(expiry) && g.key == key && g.Counted() && g.Good()
              && 1 < g.count <= MAX_FRAGMENTS && 0 < g.total <= MAX_DATAGRAM_SIZE
              && key in Table() && g.View() == Table()[key]
    {
    }

    method Add(now: int, sessionID: nat, f: Fragment) returns (r: Outcome)
      requires Valid() && Legal(f)
      modifies this, Members(expiry)
      ensures Valid()
      ensures (Table(), r) == ReassemblySpec.Add(old(Table()), now, sessionID, f)
      ensures fresh(Members(expiry) - old(Members(expiry)))
    {
      if f.count == 1 {
        if |f.data| != f.total {
          return Rejected(SingleLengthMismatch);
        }
        return Packet(f.data);
      }
      hide Reassembler.Valid, Reassembler.Table, Store, GoodPending, Legal;
      ExpireLocked(now);
      var key := Key(sessionID, f.packetID);
      r := AddLive(now, key, f);
    }

    /** The multi-fragment path, once everything expired has been dropped. */
    method AddLive(now: int, key: Key, f: Fragment) returns (r: Outcome)
      requires Valid() && Legal(f) && f.count > 1
      modifies this, Members(expiry)
      ensures Valid()
      ensures var live := old(Table());
              (Table(), r) ==
              if key !in live && |live| >= MAX_REASSEMBLIES then (live, Rejected(TableFull))
              else Store(live, key, if key in live then live[key] else NewGroup(now, f), f)
      ensures fresh(Members(expiry) - old(Members(expiry)))
    {
      hide Store, Group.Counted, Reassembler.Valid, Reassembler.ValidExcept, GoodPending, TableOf;
      KeysOfTable();
      if key in groups {
        Known(key);
        r := StoreFragment(groups[key], f);
      } else {
        if |groups| >= MAX_REASSEMBLIES {
          return Rejected(TableFull);
        }
        var group := new Group(now, key, f.total, f.count);
        StoreNew(Table(), key, now, f);
        Register(group);
        r := StoreFragment(group, f);
      }
    }

    /** Enters a new, empty group into the map and the queue. */
    method Register(group: Group)
      requires Valid() && group !in expiry && group.key !in groups && |groups| < MAX_REASSEMBLIES
      requires group.Counted()
      modifies this, Members(expiry)`index, group`index
      ensures ValidExcept(group)
      ensures groups == old(groups)[group.key := group]
      ensures TableOf(groups) == old(Table())[group.key := group.View()]
      ensures Members(expiry) == old(Members(expiry)) + {group}
    {
      hide GoodPending, Group.Counted, Linked, Ordered, Indexed, Group.View, TableOf;
      ghost var members := Members(expiry);
      LinkOneMore(groups, members, group);
      TableOneMore(groups, group);
      groups := groups[group.key := group];
      label linked:
      HeapPush(group);
      assert TableOf(groups) == old@linked(TableOf(groups));
    }

    /** Valid, but for the bounds on one group's contents. */
    ghost predicate ValidExcept(group: Group)
      reads this, expiry
    {
      && Sound()
      && |groups| <= MAX_REASSEMBLIES
      && group in Members(expiry)
      && forall g :: g in Members(expiry) && g != group ==> g.Good()
    }

    lemma BoundsRestored(group: Group)
      requires ValidExcept(group) && group.Good()
      ensures Valid()
    {
    }

    /** Takes a group out, whatever its contents. */
    method Evict(group: Group)
      requires ValidExcept(group)
      modifies this, Members(expiry)`index
      ensures Valid()
      ensures TableOf(groups) == old(TableOf(groups)) - {group.key}
      ensures Members(expiry) <= old(Members(expiry))
    {
      hide GoodPending, Ordered, Indexed, Group.Counted;
      SubmapSize(groups - {group.key}, groups);
      Remove(group);
    }

    /** Keeps one more shard in its group. */
    method Keep(group: Group, i: nat, data: seq<byte>)
      requires ValidExcept(group) && i < |group.shards| && group.shards[i].None?
      modifies group`shards, group`seen, group`bytes
      ensures ValidExcept(group) && group.Counted()
      ensures group.shards == old(group.shards)[i := Some(data)]
      ensures TableOf(groups) == old(TableOf(groups))[group.key := group.View()]
      ensures Seen(group.shards) == old(Seen(group.shards)) + 1
      ensures Bytes(group.shards) == old(Bytes(group.shards)) + |data|
    {
      hide GoodPending, Ordered, Seen, Bytes;
      StoreShard(group.shards, i, data);
      group.shards := group.shards[i := Some(data)];
      group.seen := group.seen + 1;
      group.bytes := group.bytes + |data|;
    }

    method StoreFragment(group: Group, f: Fragment) returns (r: Outcome)
      requires ValidExcept(group) && group in Members(expiry) && group.Counted()
      requires group.Good() || group.shards == NoShards(group.count)
      requires Legal(f)
      requires 1 < group.count <= MAX_FRAGMENTS && 0 < group.total <= MAX_DATAGRAM_SIZE
      modifies this, Members(expiry)
      ensures Valid()
      ensures (TableOf(groups), r) == Store(old(TableOf(groups)), group.key, old(group.View()), f)
      ensures Members(expiry) <= old(Members(expiry))
    {
      hide Reassembler.ValidExcept, Reassembler.Valid, TableOf, Seen, Bytes, Join, NoShards, Members;
      ghost var table := TableOf(groups);
      if group.total != f.total || group.count != f.count {
        Evict(group);
        return Rejected(InconsistentMetadata);
      }
      if group.shards[f.index].None? {
        if group.bytes + |f.data| + group.count - group.seen - 1 > group.total {
          Evict(group);
          return Rejected(PayloadExceedsTotal);
        }
        Keep(group, f.index, f.data);
        assert TableOf(groups) - {group.key} == table - {group.key};
      }
      if group.seen != group.count {
        BoundsRestored(group);
        return Nothing;
      }
      r := Complete(group);
    }

    /** Takes out a group that has all its fragments, and joins them. */
    method Complete(group: Group) returns (r: Outcome)
      requires ValidExcept(group) && group.Counted() && group.seen == group.count == |group.shards|
      modifies this, Members(expiry)`index
      ensures Valid() && TableOf(groups) == old(TableOf(groups)) - {group.key}
      ensures Members(expiry) <= old(Members(expiry))
      ensures r == if group.bytes != group.total then Rejected(LengthMismatch) else Packet(Join(group.shards))
    {
      hide Reassembler.ValidExcept, Reassembler.Valid, TableOf, Seen, Bytes, Join, Members;
      Evict(group);
      if group.bytes != group.total {
        return Rejected(LengthMismatch);
      }
      var packet := JoinShards(group.shards);
      return Packet(packet);
    }
  }

  lemma LinkOneMore(groups: map<Key, Group>, members: set<Group>, group: Group)
    requires Linked(groups, members) && group !in members && group.key !in groups
    ensures Linked(groups[group.key := group], members + {group})
    ensures |groups[group.key := group]| == |groups| + 1
  {
  }

  lemma TableOneMore(groups: map<Key, Group>, group: Group)
    ensures TableOf(groups[group.key := group]) == TableOf(groups)[group.key := group.View()]
  {
    hide Group.View;
  }

  /** Storing into a new group does not depend on its being in the table already. */
  lemma StoreNew(live: Table, key: Key, now: int, f: Fragment)
    requires Legal(f) && key !in live
    ensures Store(live[key := NewGroup(now, f)], key, NewGroup(now, f), f) ==
            Store(live, key, NewGroup(now, f), f)
  {
    var group := NewGroup(now, f);
    var with := live[key := group];
    assert with - {key} == live - {key};
    var stored := group.(shards := group.shards[f.index := Some(f.data)]);
    assert with[key := stored] == live[key := stored];
  }

  /** Any stream of events, fed to a new reassembler, gives at every event what the
      scanned table gives; so the stream laws of `ReassemblySpec` are laws of this
      class. */
  method Feed(es: seq<Event>) returns (r: Reassembler, outcomes: seq<Outcome>)
    requires LegalStream(es)
    ensures r.Valid() && r.Table() == After(map[], es)
    ensures |outcomes| == |es|
    ensures forall i :: 0 <= i < |es| ==> outcomes[i] == OutcomeAt(map[], es, i)
  {
    hide GoodTable, After, ReassemblySpec.Add, ReassemblySpec.Expire, ReassemblySpec.DiscardSession, Legal,
        Reassembler.Valid, Reassembler.Table;
    r := new Reassembler();
    outcomes := [];
    AfterNothing(es);
    for n := 0 to |es|
      invariant r.Valid() && fresh(r) && fresh(Members(r.expiry)) && r.Table() == After(map[], es[..n])
      invariant |outcomes| == n
      invariant forall i :: 0 <= i < n ==> outcomes[i] == OutcomeAt(map[], es, i)
    {
      AfterSnoc(map[], es, n);
      var outcome := Nothing;
      match es[n] {
        case Frame(now, sessionID, f) => outcome := r.Add(now, sessionID, f);
        case Expiry(now) => r.Expire(now);
        case Discard(sessionID) => r.DiscardSession(sessionID);
      }
      outcomes := outcomes + [outcome];
    }
    assert es[..|es|] == es;
  }

  lemma AfterNothing(es: seq<Event>)
    ensures GoodTable(map[]) && LegalStream([]) && After(map[], es[..0]) == map[]
  {
  }

  method JoinShards(shards: Shards) returns (packet: seq<byte>)
    ensures packet == Join(shards)
  {
    packet := [];
    for i := 0 to |shards|
      invariant packet == Join(shards[..i])
    {
      assert shards[..i + 1][..i] == shards[..i];
      if shards[i].Some? {
        packet := packet + shards[i].value;
      }
    }
    assert shards[..|shards|] == shards;
  }

  /** Dropping the last of a queue without repetitions loses exactly that element. */
  lemma DropLast(q: seq<Group>, r: seq<Group>)
    requires |r| > 0 && SameMembers(q, r) && Indexed(r)
    ensures Members(r[..|r| - 1]) == Members(q) - {r[|r| - 1]}
  {
  }
}
