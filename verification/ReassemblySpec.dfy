/** The reassembly table without its expiry queue: a map that is scanned in full
    whenever something may have expired.  `Reassembler` refines it; the laws of
    reassembly over whole fragment streams are proved here. */
module ReassemblySpec {
  import opened Wrappers
  import opened Framing

  const REASSEMBLY_TTL: int := 3_000_000_000  // nanoseconds
  const MAX_REASSEMBLIES: nat := 2048

  datatype Key = Key(sessionID: nat, packetID: nat)

  type Shards = seq<Option<seq<byte>>>

  /** One incomplete datagram. */
  datatype Pending = Pending(created: int, total: nat, count: nat, shards: Shards)

  type Table = map<Key, Pending>

  datatype AddError =
    | SingleLengthMismatch
    | TableFull
    | InconsistentMetadata
    | PayloadExceedsTotal
    | LengthMismatch

  datatype Outcome = Nothing | Packet(data: seq<byte>) | Rejected(error: AddError)

  // ---------- shards ----------

  function Seen(shards: Shards): (n: nat)
    ensures n <= |shards|
  {
    if shards == [] then 0
    else Seen(shards[..|shards| - 1]) + if shards[|shards| - 1].Some? then 1 else 0
  }

  function Bytes(shards: Shards): nat {
    if shards == [] then 0
    else Bytes(shards[..|shards| - 1]) +
         if shards[|shards| - 1].Some? then |shards[|shards| - 1].value| else 0
  }

  /** Every retained shard, joined in index order. */
  function Join(shards: Shards): seq<byte> {
    if shards == [] then []
    else Join(shards[..|shards| - 1]) +
         if shards[|shards| - 1].Some? then shards[|shards| - 1].value else []
  }

  function NoShards(count: nat): (s: Shards)
    ensures |s| == count
    ensures forall i :: 0 <= i < count ==> s[i].None?
  {
    seq(count, _ => None)
  }

  lemma {:induction false} StoreShard(shards: Shards, i: nat, data: seq<byte>)
    requires i < |shards| && shards[i].None?
    ensures Seen(shards[i := Some(data)]) == Seen(shards) + 1
    ensures Bytes(shards[i := Some(data)]) == Bytes(shards) + |data|
  {
    var last := |shards| - 1;
    var updated := shards[i := Some(data)];
    if i == last {
      assert updated[..last] == shards[..last];
    } else {
      StoreShard(shards[..last], i, data);
      assert updated[..last] == shards[..last][i := Some(data)];
    }
  }

  lemma {:induction false} NoShardsSeen(shards: Shards)
    requires forall i :: 0 <= i < |shards| ==> shards[i].None?
    ensures Seen(shards) == 0 && Bytes(shards) == 0
  {
    if shards != [] {
      NoShardsSeen(shards[..|shards| - 1]);
    }
  }

  lemma {:induction false} AllSeen(shards: Shards)
    ensures Seen(shards) == |shards| <==> forall i :: 0 <= i < |shards| ==> shards[i].Some?
  {
    if shards != [] {
      AllSeen(shards[..|shards| - 1]);
      assert forall i :: 0 <= i < |shards| - 1 ==> shards[..|shards| - 1][i] == shards[i];
    }
  }

  lemma {:induction false} JoinLength(shards: Shards)
    ensures |Join(shards)| == Bytes(shards)
  {
    if shards != [] {
      JoinLength(shards[..|shards| - 1]);
    }
  }

  lemma {:induction false} JoinIsConcat(shards: Shards, parts: seq<seq<byte>>)
    requires |shards| == |parts|
    requires forall i :: 0 <= i < |shards| ==> shards[i] == Some(parts[i])
    ensures Join(shards) == Concat(parts)
  {
    if shards != [] {
      JoinIsConcat(shards[..|shards| - 1], parts[..|parts| - 1]);
    }
  }

  // ---------- the table ----------

  /** bytes + missing fragments <= total <= 65535, and something is missing. */
  ghost predicate GoodPending(p: Pending) {
    && 2 <= p.count <= MAX_FRAGMENTS
    && 0 < p.total <= MAX_DATAGRAM_SIZE
    && |p.shards| == p.count
    && Seen(p.shards) < p.count
    && Bytes(p.shards) + (p.count - Seen(p.shards)) <= p.total
  }

  ghost predicate GoodTable(t: Table) {
    && |t| <= MAX_REASSEMBLIES
    && forall k :: k in t ==> GoodPending(t[k])
  }

  predicate Expired(p: Pending, now: int) {
    now - p.created > REASSEMBLY_TTL
  }

  /** The full table scan. */
  function Expire(t: Table, now: int): Table {
    map k | k in t && !Expired(t[k], now) :: t[k]
  }

  function DiscardSession(t: Table, sessionID: nat): Table {
    map k | k in t && k.sessionID != sessionID :: t[k]
  }

  function Add(t: Table, now: int, sessionID: nat, f: Fragment): (Table, Outcome)
    requires GoodTable(t) && Legal(f)
  {
    if f.count == 1 then
      (t, if |f.data| != f.total then Rejected(SingleLengthMismatch) else Packet(f.data))
    else
      var live := Expire(t, now);
      var key := Key(sessionID, f.packetID);
      if key !in live && |live| >= MAX_REASSEMBLIES then
        (live, Rejected(TableFull))
      else
        Store(live, key, if key in live then live[key] else NewGroup(now, f), f)
  }

  function NewGroup(now: int, f: Fragment): Pending {
    Pending(now, f.total, f.count, NoShards(f.count))
  }

  /** Puts one fragment into its group, which leaves the table when it is complete
      or proved impossible. */
  function Store(live: Table, key: Key, group: Pending, f: Fragment): (Table, Outcome)
    requires |group.shards| == group.count && f.index < f.count
  {
    if group.total != f.total || group.count != f.count then
      (live - {key}, Rejected(InconsistentMetadata))
    else if group.shards[f.index].Some? then
      (live, Nothing)
    else if Bytes(group.shards) + |f.data| + group.count - Seen(group.shards) - 1 > group.total then
      (live - {key}, Rejected(PayloadExceedsTotal))
    else
      var shards := group.shards[f.index := Some(f.data)];
      if Seen(shards) != group.count then
        (live[key := group.(shards := shards)], Nothing)
      else if Bytes(shards) != group.total then
        (live - {key}, Rejected(LengthMismatch))
      else
        (live - {key}, Packet(Join(shards)))
  }

  lemma SubmapSize<K, V>(small: map<K, V>, large: map<K, V>)
    requires forall k :: k in small ==> k in large
    ensures |small| <= |large|
  {
    assert small.Keys <= large.Keys;
    SubsetSize(small.Keys, large.Keys);
  }

  lemma StoreKeepsTable(live: Table, key: Key, group: Pending, f: Fragment)
    requires GoodTable(live) && Legal(f)
    requires key in live ==> group == live[key]
    requires key !in live ==> |live| < MAX_REASSEMBLIES
    requires |group.shards| == group.count
    requires 2 <= group.count <= MAX_FRAGMENTS && 0 < group.total <= MAX_DATAGRAM_SIZE
    ensures GoodTable(Store(live, key, group, f).0)
  {
    hide Join, Seen, Bytes, GoodTable;
    assert f.index < f.count;
    WithoutKeepsTable(live, key);
    if group.count == f.count && group.shards[f.index].None? {
      StoreShard(group.shards, f.index, f.data);
      var stored := group.(shards := group.shards[f.index := Some(f.data)]);
      if GoodPending(stored) {
        WithKeepsTable(live, key, stored);
      }
    }
  }

  lemma WithoutKeepsTable(live: Table, key: Key)
    requires GoodTable(live)
    ensures GoodTable(live - {key})
  {
  }

  lemma WithKeepsTable(live: Table, key: Key, p: Pending)
    requires GoodTable(live) && GoodPending(p)
    requires key !in live ==> |live| < MAX_REASSEMBLIES
    ensures GoodTable(live[key := p])
  {
  }

  lemma AddKeepsTable(t: Table, now: int, sessionID: nat, f: Fragment)
    requires GoodTable(t) && Legal(f)
    ensures GoodTable(Add(t, now, sessionID, f).0)
  {
    hide Store;
    if f.count != 1 {
      var live := Expire(t, now);
      var key := Key(sessionID, f.packetID);
      SubmapSize(live, t);
      if key in live || |live| < MAX_REASSEMBLIES {
        StoreKeepsTable(live, key, if key in live then live[key] else NewGroup(now, f), f);
      }
    }
  }

  // ---------- streams ----------

  datatype Event =
    | Frame(now: int, sessionID: nat, f: Fragment)
    | Expiry(now: int)
    | Discard(sessionID: nat)

  ghost predicate LegalStream(es: seq<Event>) {
    forall i :: 0 <= i < |es| && es[i].Frame? ==> Legal(es[i].f)
  }

  function Step(t: Table, e: Event): (Table, Outcome)
    requires GoodTable(t) && (e.Frame? ==> Legal(e.f))
  {
    match e
    case Frame(now, sessionID, f) => Add(t, now, sessionID, f)
    case Expiry(now) => (Expire(t, now), Nothing)
    case Discard(sessionID) => (DiscardSession(t, sessionID), Nothing)
  }

  lemma StepKeepsTable(t: Table, e: Event)
    requires GoodTable(t) && (e.Frame? ==> Legal(e.f))
    ensures GoodTable(Step(t, e).0)
  {
    match e
    case Frame(now, sessionID, f) => AddKeepsTable(t, now, sessionID, f);
    case Expiry(now) => SubmapSize(Expire(t, now), t);
    case Discard(sessionID) => SubmapSize(DiscardSession(t, sessionID), t);
  }

  /** The table after a stream of events.  For any stream, every stored group
      keeps bytes + missing <= total <= 65535 and the table never exceeds 2048
      groups. */
  ghost function After(t: Table, es: seq<Event>): (r: Table)
    requires GoodTable(t) && LegalStream(es)
    ensures GoodTable(r)
  {
    if es == [] then t
    else
      var before := After(t, es[..|es| - 1]);
      StepKeepsTable(before, es[|es| - 1]);
      Step(before, es[|es| - 1]).0
  }

  lemma AfterSnoc(t: Table, es: seq<Event>, n: nat)
    requires GoodTable(t) && LegalStream(es) && n < |es|
    ensures After(t, es[..n + 1]) == Step(After(t, es[..n]), es[n]).0
  {
    hide Step, GoodTable;
    assert es[..n + 1][..n] == es[..n];
  }

  /** What the i-th event of a stream returns. */
  ghost function OutcomeAt(t: Table, es: seq<Event>, i: nat): Outcome
    requires GoodTable(t) && LegalStream(es) && i < |es|
  {
    Step(After(t, es[..i]), es[i]).1
  }

  // ---------- round trip ----------

  /** One datagram in transit: what was framed, under which ID and fragment size,
      and the session its frames arrive on. */
  datatype Transit = Transit(packet: seq<byte>, packetID: nat, size: nat, sessionID: nat) {
    predicate Valid() {
      Framable(packet, size) && packetID < MAX_PACKET_ID
    }

    function Count(): nat
      requires Valid()
    {
      FragmentCount(|packet|, size)
    }

    function TableKey(): Key {
      Key(sessionID, packetID)
    }

    predicate Owns(e: Event) {
      e.Frame? && e.sessionID == sessionID && e.f.packetID == packetID
    }

    /** e is one of this datagram's own frames, or does not concern its key. */
    ghost predicate Allows(e: Event)
      requires Valid()
    {
      && (Owns(e) ==> e.f.index < Count() && e.f == FragmentOf(packet, packetID, size, e.f.index))
      && (e.Discard? ==> e.sessionID != sessionID)
    }

    /** Fragment indices delivered so far. */
    ghost function Delivered(es: seq<Event>): set<nat> {
      set i | 0 <= i < |es| && Owns(es[i]) :: es[i].f.index
    }

    ghost predicate Complete(delivered: set<nat>)
      requires Valid()
    {
      forall i :: 0 <= i < Count() ==> i in delivered
    }

    /** The group this datagram must own once `delivered` has arrived. */
    ghost predicate Holds(p: Pending, created: int, delivered: set<nat>)
      requires Valid()
    {
      && p.created == created && p.total == |packet| && p.count == Count()
      && HoldsShards(p.shards, delivered)
    }

    /** The payload of fragment i. */
    function Part(i: nat): seq<byte>
      requires Valid() && i < Count()
    {
      FragmentOf(packet, packetID, size, i).data
    }

    ghost predicate HoldsShards(shards: Shards, delivered: set<nat>)
      requires Valid()
    {
      && |shards| == Count()
      && forall i :: 0 <= i < Count() ==> shards[i] == if i in delivered then Some(Part(i)) else None
    }
  }

  /** The stream carries x's frames in any order with duplicates, among anything
      else; the first one is es[first]; nothing after it is later than the TTL;
      and the table has room when it arrives. */
  ghost predicate Carries(t: Table, es: seq<Event>, x: Transit, first: nat)
    requires GoodTable(t) && LegalStream(es)
  {
    && x.Valid()
    && x.TableKey() !in t
    && first < |es|
    && x.Owns(es[first])
    && (forall i :: 0 <= i < |es| ==> x.Allows(es[i]))
    && (forall i :: 0 <= i < first ==> !x.Owns(es[i]))
    && (forall i :: first < i < |es| && !es[i].Discard? ==> es[i].now - es[first].now <= REASSEMBLY_TTL)
    && |Expire(After(t, es[..first]), es[first].now)| < MAX_REASSEMBLIES
  }

  lemma DeliveredSnoc(x: Transit, es: seq<Event>, n: nat)
    requires n < |es|
    ensures x.Delivered(es[..n + 1]) ==
            if x.Owns(es[n]) then x.Delivered(es[..n]) + {es[n].f.index} else x.Delivered(es[..n])
  {
  }

  /** Only a frame of its own key can bring a key into the table. */
  lemma NewKeysOnlyFromFrames(t: Table, e: Event, x: Transit)
    requires GoodTable(t) && (e.Frame? ==> Legal(e.f))
    requires !x.Owns(e) && x.TableKey() !in t
    ensures x.TableKey() !in Step(t, e).0
  {
  }

  lemma {:induction false} NotStartedYet(t: Table, es: seq<Event>, x: Transit, n: nat)
    requires GoodTable(t) && LegalStream(es) && n <= |es|
    requires x.TableKey() !in t
    requires forall i :: 0 <= i < n ==> !x.Owns(es[i])
    ensures x.TableKey() !in After(t, es[..n])
    ensures x.Delivered(es[..n]) == {}
  {
    hide Step;
    if n > 0 {
      NotStartedYet(t, es, x, n - 1);
      assert es[..n][..n - 1] == es[..n - 1];
      NewKeysOnlyFromFrames(After(t, es[..n - 1]), es[n - 1], x);
    }
  }

  /** An event that is not x's leaves x's group alone while it lives. */
  lemma OtherEventKeeps(t: Table, e: Event, x: Transit)
    requires GoodTable(t) && (e.Frame? ==> Legal(e.f))
    requires x.Valid() && x.Allows(e) && !x.Owns(e)
    requires x.TableKey() in t
    requires !e.Discard? ==> !Expired(t[x.TableKey()], e.now)
    ensures x.TableKey() in Step(t, e).0 && Step(t, e).0[x.TableKey()] == t[x.TableKey()]
  {
  }

  ghost predicate Absorbed(x: Transit, created: int, now: set<nat>, r: (Table, Outcome))
    requires x.Valid()
  {
    if x.Complete(now) then r.1 == Packet(x.packet)
    else r.1 == Nothing && x.TableKey() in r.0 && x.Holds(r.0[x.TableKey()], created, now)
  }

  /** What x's own frame does to its group. */
  lemma OwnStore(live: Table, group: Pending, f: Fragment, x: Transit, created: int, delivered: set<nat>)
    requires x.Valid() && x.Count() > 1
    requires f.index < f.count == x.Count() && f.total == |x.packet| && f.data == x.Part(f.index)
    requires !x.Complete(delivered)
    requires x.Holds(group, created, delivered)
    requires x.TableKey() in live ==> live[x.TableKey()] == group
    requires x.TableKey() !in live ==> delivered == {}
    ensures Absorbed(x, created, delivered + {f.index}, Store(live, x.TableKey(), group, f))
  {
    hide Seen, Bytes, Join, Transit.Part, FragmentCount, Transit.Valid;
    var now := delivered + {f.index};
    if f.index in delivered {
      assert now == delivered;
    } else {
      var shards := group.shards[f.index := Some(f.data)];
      HeldShards(x, group.shards, f.index, now, shards);
      StoreShard(group.shards, f.index, f.data);
      HeldBytes(x, shards, now);
      AllSeen(shards);
      if x.Complete(now) {
        HeldJoin(x, shards, now);
        JoinLength(shards);
      }
    }
  }

  lemma HeldShards(x: Transit, was: Shards, i: nat, now: set<nat>, shards: Shards)
    requires x.Valid() && i < x.Count() == |was| && i in now
    requires forall k :: 0 <= k < x.Count() ==>
                           was[k] == if k in now - {i} then Some(x.Part(k)) else None
    requires shards == was[i := Some(x.Part(i))]
    ensures x.HoldsShards(shards, now)
  {
  }

  lemma HeldJoin(x: Transit, shards: Shards, delivered: set<nat>)
    requires x.Valid() && x.HoldsShards(shards, delivered) && x.Complete(delivered)
    ensures Join(shards) == x.packet
  {
    var parts := seq(x.Count(), i requires 0 <= i < x.Count() => x.Part(i));
    JoinIsConcat(shards, parts);
    forall i | 0 <= i < |parts|
      ensures Offset(x.size, i) <= |x.packet| && parts[i] == Chunk(x.packet, x.size, i)
    {
      ChunkBounds(|x.packet|, x.size, i);
    }
    ChunksJoin(x.packet, x.size, parts);
  }

  lemma OwnEvent(t: Table, e: Event, x: Transit, created: int, delivered: set<nat>)
    requires GoodTable(t) && x.Valid() && x.Count() > 1 && x.Owns(e) && Legal(e.f) && x.Allows(e)
    requires !x.Complete(delivered)
    requires if x.TableKey() in t
             then x.Holds(t[x.TableKey()], created, delivered) && e.now - created <= REASSEMBLY_TTL
             else created == e.now && delivered == {} && |Expire(t, e.now)| < MAX_REASSEMBLIES
    ensures Absorbed(x, created, delivered + {e.f.index}, Step(t, e))
  {
    hide Store;
    hide Absorbed;
    var live := Expire(t, e.now);
    var group := if x.TableKey() in live then live[x.TableKey()] else NewGroup(e.now, e.f);
    assert x.Holds(group, created, delivered);
    OwnStore(live, group, e.f, x, created, delivered);
  }

  /** Retained bytes never overrun: what is still missing needs at least a byte
      each, and the chunks of a datagram sum to its size. */
  lemma HeldBytes(x: Transit, shards: Shards, delivered: set<nat>)
    requires x.Valid() && x.HoldsShards(shards, delivered)
    ensures Bytes(shards) + x.Count() - Seen(shards) <= |x.packet|
  {
    PrefixBytes(x, shards, delivered, x.Count());
    assert shards[..x.Count()] == shards;
  }

  lemma {:induction false} PrefixBytes(x: Transit, shards: Shards, delivered: set<nat>, n: nat)
    requires x.Valid() && x.HoldsShards(shards, delivered) && n <= x.Count()
    ensures Bytes(shards[..n]) + n - Seen(shards[..n]) <= JoinedLength(|x.packet|, x.size, n)
  {
    hide Offset, FragmentCount;
    CountBounds(|x.packet|, x.size);
    if n > 0 {
      NextOffset(x.size, n - 1);
      PrefixBytes(x, shards, delivered, n - 1);
      assert shards[..n][..n - 1] == shards[..n - 1];
      ChunkBounds(|x.packet|, x.size, n - 1);
    }
  }

  /** x's group after the first n events, while a fragment is still missing. */
  lemma {:induction false} InTransit(t: Table, es: seq<Event>, x: Transit, first: nat, n: nat)
    requires GoodTable(t) && LegalStream(es) && Carries(t, es, x, first) && x.Count() > 1
    requires first < n <= |es|
    requires !x.Complete(x.Delivered(es[..n]))
    ensures x.TableKey() in After(t, es[..n])
    ensures x.Holds(After(t, es[..n])[x.TableKey()], es[first].now, x.Delivered(es[..n]))
  {
    hide After, Step, Expire, Transit.Delivered, Transit.Valid, Transit.Holds, Transit.Complete, Legal, GoodTable;
    var last := es[n - 1];
    AfterSnoc(t, es, n - 1);
    DeliveredSnoc(x, es, n - 1);
    if n - 1 == first {
      NotStartedYet(t, es, x, first);
      CompleteGrows(x, {}, x.Delivered(es[..n]));
      OwnEvent(After(t, es[..first]), last, x, last.now, {});
    } else {
      CompleteGrows(x, x.Delivered(es[..n - 1]), x.Delivered(es[..n]));
      InTransit(t, es, x, first, n - 1);
      TransitStep(After(t, es[..n - 1]), last, x, es[first].now, x.Delivered(es[..n - 1]));
    }
  }

  lemma CompleteGrows(x: Transit, small: set<nat>, large: set<nat>)
    requires x.Valid() && small <= large && !x.Complete(large)
    ensures !x.Complete(small)
  {
  }

  /** One more event while x is in transit, whoever it belongs to. */
  lemma TransitStep(t: Table, e: Event, x: Transit, created: int, delivered: set<nat>)
    requires GoodTable(t) && (e.Frame? ==> Legal(e.f))
    requires x.Valid() && x.Count() > 1 && x.Allows(e) && !x.Complete(delivered)
    requires x.TableKey() in t && x.Holds(t[x.TableKey()], created, delivered)
    requires !e.Discard? ==> e.now - created <= REASSEMBLY_TTL
    ensures if x.Owns(e) then Absorbed(x, created, delivered + {e.f.index}, Step(t, e))
            else x.TableKey() in Step(t, e).0 && x.Holds(Step(t, e).0[x.TableKey()], created, delivered)
  {
    hide Step, Absorbed;
    if x.Owns(e) {
      OwnEvent(t, e, x, created, delivered);
    } else {
      OtherEventKeeps(t, e, x);
    }
  }

  /** ROUND TRIP.  Frames of one datagram, in any order, duplicated before
      completion and interleaved with anything that has another key, give back
      exactly that datagram at the last missing fragment and nothing before. */
  lemma RoundTrip(t: Table, es: seq<Event>, x: Transit, first: nat, last: nat)
    requires GoodTable(t) && LegalStream(es) && Carries(t, es, x, first)
    requires first <= last < |es|
    requires !x.Complete(x.Delivered(es[..last]))
    requires x.Complete(x.Delivered(es[..last + 1]))
    ensures OutcomeAt(t, es, last) == Packet(x.packet)
    ensures forall i :: 0 <= i < last && x.Owns(es[i]) ==> OutcomeAt(t, es, i) == Nothing
  {
    hide OutcomeAt, After, Expire, GoodTable, Transit.Delivered, Transit.Complete, Transit.Valid, Legal;
    DeliveredSnoc(x, es, last);
    forall i | first <= i <= last && x.Owns(es[i])
      ensures OutcomeAt(t, es, i) == if i == last then Packet(x.packet) else Nothing
    {
      DeliveredGrows(x, es, i, last);
      CompleteGrows(x, x.Delivered(es[..i]), x.Delivered(es[..last]));
      OwnOutcome(t, es, x, first, i);
      if i < last {
        DeliveredGrows(x, es, i + 1, last);
        CompleteGrows(x, x.Delivered(es[..i + 1]), x.Delivered(es[..last]));
      }
    }
  }

  lemma {:induction false} DeliveredGrows(x: Transit, es: seq<Event>, i: nat, j: nat)
    requires i <= |es| && j <= |es|
    ensures i <= j ==> x.Delivered(es[..i]) <= x.Delivered(es[..j])
    decreases j
  {
  }

  /** The outcome of one of x's own frames while something was still missing. */
  lemma OwnOutcome(t: Table, es: seq<Event>, x: Transit, first: nat, i: nat)
    requires GoodTable(t) && LegalStream(es) && Carries(t, es, x, first)
    requires first <= i < |es| && x.Owns(es[i])
    requires !x.Complete(x.Delivered(es[..i]))
    ensures OutcomeAt(t, es, i) ==
            if x.Complete(x.Delivered(es[..i + 1])) then Packet(x.packet) else Nothing
  {
    hide After, Step, Expire, Transit.Delivered, Transit.Holds, GoodTable;
    DeliveredSnoc(x, es, i);
    assert x.Allows(es[i]);
    if x.Count() == 1 {
      SingleStep(After(t, es[..i]), es[i]);
      SingleChunk(x);
      assert es[i].f.index == 0;
      assert es[i].f.index in x.Delivered(es[..i + 1]);
    } else if i == first {
      NotStartedYet(t, es, x, first);
      OwnEvent(After(t, es[..i]), es[i], x, es[i].now, {});
    } else {
      InTransit(t, es, x, first, i);
      OwnEvent(After(t, es[..i]), es[i], x, es[first].now, x.Delivered(es[..i]));
    }
  }

  lemma SingleStep(t: Table, e: Event)
    requires GoodTable(t) && e.Frame? && Legal(e.f) && e.f.count == 1 && e.f.total == |e.f.data|
    ensures Step(t, e) == (t, Packet(e.f.data))
  {
  }

  lemma SingleChunk(x: Transit)
    requires x.Valid() && x.Count() == 1
    ensures FragmentOf(x.packet, x.packetID, x.size, 0).data == x.packet
  {
  }

  // ---------- from bytes to bytes ----------

  /** ROUND TRIP of the general framer, on bytes: every own event carries what
      parsing one of the emitted frames gives. */
  lemma FramesRoundTrip(
    t: Table, es: seq<Event>, x: Transit, frames: seq<seq<byte>>, first: nat, last: nat)
    requires GoodTable(t) && LegalStream(es)
    requires x.Valid() && x.TableKey() !in t
    requires |frames| == x.Count()
    requires forall i :: 0 <= i < |frames| ==> frames[i] == Encode(FragmentOf(x.packet, x.packetID, x.size, i))
    requires forall i :: 0 <= i < |es| && x.Owns(es[i]) ==>
                           exists k :: 0 <= k < |frames| && ParseFragment(frames[k]) == Ok(es[i].f)
    requires forall i :: 0 <= i < |es| && es[i].Discard? ==> es[i].sessionID != x.sessionID
    requires first <= last < |es| && x.Owns(es[first])
    requires forall i :: 0 <= i < first ==> !x.Owns(es[i])
    requires forall i :: first < i < |es| && !es[i].Discard? ==> es[i].now - es[first].now <= REASSEMBLY_TTL
    requires |Expire(After(t, es[..first]), es[first].now)| < MAX_REASSEMBLIES
    requires !x.Complete(x.Delivered(es[..last])) && x.Complete(x.Delivered(es[..last + 1]))
    ensures OutcomeAt(t, es, last) == Packet(x.packet)
    ensures forall i :: 0 <= i < last && x.Owns(es[i]) ==> OutcomeAt(t, es, i) == Nothing
  {
    hide After, OutcomeAt, Step, Expire, Transit.Delivered, Transit.Complete, GoodTable, ParseFragment, Encode;
    forall i | 0 <= i < |es|
      ensures x.Allows(es[i])
    {
      if x.Owns(es[i]) {
        var k :| 0 <= k < |frames| && ParseFragment(frames[k]) == Ok(es[i].f);
        FragmentOfLegal(x.packet, x.packetID, x.size, k);
        ParseOfEncode(FragmentOf(x.packet, x.packetID, x.size, k));
      }
    }
    RoundTrip(t, es, x, first, last);
  }

  /** ROUND TRIP of the prepared-buffer framer.  It accepts datagrams of up to
      65535 bytes, but its one frame is readable exactly when the payload fits a
      single fragment, which its caller checks first. */
  lemma PreparedRoundTrip(payload: seq<byte>, packetID: nat, t: Table, now: int, sessionID: nat)
    requires 0 < |payload| <= MAX_DATAGRAM_SIZE && packetID < MAX_PACKET_ID && GoodTable(t)
    ensures var parsed := ParseFragment(Encode(Fragment(packetID, 0, 1, |payload|, payload)));
            && (parsed.Ok? <==> |payload| <= MAX_FRAGMENT_DATA)
            && (parsed.Ok? ==> Legal(parsed.value) && Add(t, now, sessionID, parsed.value) == (t, Packet(payload)))
  {
    hide Expire, Store;
    var f := Fragment(packetID, 0, 1, |payload|, payload);
    var parsed := ParseFragment(Encode(f));
    if parsed.Ok? {
      EncodeOfParse(Encode(f));
      assert parsed.value.data == Encode(f)[FRAME_HEADER_SIZE..] == payload;
    }
    if |payload| <= MAX_FRAGMENT_DATA {
      ParseOfEncode(f);
    }
  }

  // ---------- where emitted bytes come from ----------

  /** e delivered `data` as fragment i of the datagram with this key and metadata. */
  ghost predicate Supplies(e: Event, key: Key, total: nat, count: nat, i: nat, data: seq<byte>) {
    e.Frame? && e.sessionID == key.sessionID && e.f == Fragment(key.packetID, i, count, total, data)
  }

  ghost predicate Supplied(es: seq<Event>, n: nat, key: Key, total: nat, count: nat, i: nat, data: seq<byte>)
    requires n <= |es|
  {
    exists j :: 0 <= j < n && Supplies(es[j], key, total, count, i, data)
  }

  ghost predicate Sourced(es: seq<Event>, n: nat, key: Key, p: Pending)
    requires n <= |es|
  {
    forall i :: 0 <= i < |p.shards| && p.shards[i].Some? ==>
                  Supplied(es, n, key, p.total, p.count, i, p.shards[i].value)
  }

  lemma SourcedLater(es: seq<Event>, n: nat, key: Key, p: Pending)
    requires n < |es| && Sourced(es, n, key, p)
    ensures Sourced(es, n + 1, key, p)
  {
  }

  /** The group an accepted frame is stored into, with the frame's data in place. */
  ghost predicate StoredInto(t: Table, e: Event, p: Pending)
    requires GoodTable(t) && e.Frame? && Legal(e.f)
  {
    var key := Key(e.sessionID, e.f.packetID);
    && p.total == e.f.total && p.count == e.f.count && |p.shards| == p.count
    && p.shards[e.f.index] == Some(e.f.data)
    && forall i :: 0 <= i < p.count && i != e.f.index && p.shards[i].Some? ==>
                     key in t && t[key].total == p.total && t[key].count == p.count && t[key].shards[i] == p.shards[i]
  }

  lemma StepStores(t: Table, e: Event, key: Key)
    requires GoodTable(t) && (e.Frame? ==> Legal(e.f))
    requires key in Step(t, e).0
    ensures (key in t && Step(t, e).0[key] == t[key])
         || (e.Frame? && key == Key(e.sessionID, e.f.packetID) && StoredInto(t, e, Step(t, e).0[key]))
  {
    hide Seen, Bytes, Join;
  }

  lemma StepEmits(t: Table, e: Event)
    requires GoodTable(t) && e.Frame? && Legal(e.f) && e.f.count > 1
    requires Step(t, e).1.Packet?
    ensures exists p ::
              StoredInto(t, e, p) && Seen(p.shards) == p.count && Bytes(p.shards) == p.total
              && Step(t, e).1.data == Join(p.shards)
  {
    hide Seen, Bytes, Join;
    var live := Expire(t, e.now);
    var key := Key(e.sessionID, e.f.packetID);
    var group := if key in live then live[key] else NewGroup(e.now, e.f);
    var p := group.(shards := group.shards[e.f.index := Some(e.f.data)]);
    assert StoredInto(t, e, p);
  }

  lemma StoredIsSourced(t: Table, es: seq<Event>, n: nat, p: Pending)
    requires GoodTable(t) && LegalStream(es) && n < |es| && es[n].Frame?
    requires forall k :: k in t ==> Sourced(es, n, k, t[k])
    requires StoredInto(t, es[n], p)
    ensures Sourced(es, n + 1, Key(es[n].sessionID, es[n].f.packetID), p)
  {
  }

  lemma {:induction false} TableSourced(es: seq<Event>, n: nat)
    requires LegalStream(es) && n <= |es|
    ensures forall k :: k in After(map[], es[..n]) ==> Sourced(es, n, k, After(map[], es[..n])[k])
  {
    hide Step, GoodPending, Sourced, StoredInto;
    if n > 0 {
      TableSourced(es, n - 1);
      AfterSnoc(map[], es, n - 1);
      var was := After(map[], es[..n - 1]);
      forall k | k in After(map[], es[..n])
        ensures Sourced(es, n, k, After(map[], es[..n])[k])
      {
        StepStores(was, es[n - 1], k);
        if k in was {
          SourcedLater(es, n - 1, k, was[k]);
        }
        if es[n - 1].Frame? && StoredInto(was, es[n - 1], After(map[], es[..n])[k]) {
          StoredIsSourced(was, es, n - 1, After(map[], es[..n])[k]);
        }
      }
    }
  }

  /** The parts of an emitted packet: one per fragment index, each delivered by
      some event so far under the same session, packet ID, total and count. */
  ghost predicate BuiltFrom(es: seq<Event>, n: nat, parts: seq<seq<byte>>)
    requires n < |es| && es[n].Frame?
  {
    && |parts| == es[n].f.count
    && forall i :: 0 <= i < |parts| ==>
                     Supplied(es, n + 1, Key(es[n].sessionID, es[n].f.packetID),
                              es[n].f.total, es[n].f.count, i, parts[i])
  }

  /** PROVENANCE.  For any stream from an empty table, a packet is only ever
      emitted by a frame, has exactly the total length that frame announces, and is
      the concatenation, in index order, of payloads that arrived under one
      session, packet ID and metadata. */
  lemma EmittedPacket(es: seq<Event>, n: nat)
    requires LegalStream(es) && n < |es|
    requires OutcomeAt(map[], es, n).Packet?
    ensures es[n].Frame?
    ensures |OutcomeAt(map[], es, n).data| == es[n].f.total
    ensures exists parts :: BuiltFrom(es, n, parts) && OutcomeAt(map[], es, n).data == Concat(parts)
  {
    var t := After(map[], es[..n]);
    var f := es[n].f;
    var key := Key(es[n].sessionID, f.packetID);
    if f.count == 1 {
      assert Supplies(es[n], key, f.total, f.count, 0, f.data);
      assert Supplied(es, n + 1, key, f.total, f.count, 0, f.data);
      var parts := [f.data];
      assert BuiltFrom(es, n, parts);
      assert Concat(parts) == Concat([]) + f.data;
    } else {
      hide Step;
      TableSourced(es, n);
      StepEmits(t, es[n]);
      var p :| StoredInto(t, es[n], p) && Seen(p.shards) == p.count && Bytes(p.shards) == p.total
               && Step(t, es[n]).1.data == Join(p.shards);
      StoredIsSourced(t, es, n, p);
      EmittedParts(es, n, p);
    }
  }

  lemma EmittedParts(es: seq<Event>, n: nat, p: Pending)
    requires n < |es| && es[n].Frame?
    requires p.total == es[n].f.total && |p.shards| == p.count == es[n].f.count
    requires Seen(p.shards) == p.count && Bytes(p.shards) == p.total
    requires Sourced(es, n + 1, Key(es[n].sessionID, es[n].f.packetID), p)
    ensures |Join(p.shards)| == p.total
    ensures exists parts :: BuiltFrom(es, n, parts) && Join(p.shards) == Concat(parts)
  {
    AllSeen(p.shards);
    JoinLength(p.shards);
    var parts := seq(|p.shards|, i requires 0 <= i < |p.shards| => p.shards[i].value);
    JoinIsConcat(p.shards, parts);
    assert BuiltFrom(es, n, parts);
  }
}
