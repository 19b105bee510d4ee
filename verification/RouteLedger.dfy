/** The Windows endpoint-route ledger: records of routes, who owns them, and what
    the records prove about the routes in the kernel. */
module RouteLedger {
  import opened Wrappers

  datatype Key = Key(compartment: nat, destination: nat, interfaceLuid: nat, nextHop: nat)

  datatype Ownership = Managed | External | Ambiguous

  datatype State = PendingAdd | Active | PendingDelete | PendingMigrateRemove | PendingMigrateAdd

  datatype Owner = Owner(instance: string, references: nat)

  /** `detail` stands for interface index, metric and source address. */
  datatype Selected = Selected(key: Key, detail: nat)

  datatype Snapshot = Snapshot(key: Key, detail: nat, ownership: Ownership, revision: nat)

  datatype Record = Record(
    key: Key, detail: nat, ownership: Ownership, state: State, revision: nat, previous: Option<Snapshot>,
        owners: seq<Owner>)

  type Ledger = seq<Record>

  /** Who put a route into the kernel.  The code sees only whether it is there. */
  datatype Creator = Ours | Others

  type Kernel = map<Key, Creator>

  // ---------- owners ----------

  function RefsOf(owners: seq<Owner>, id: string): nat {
    if owners == [] then 0
    else if owners[0].instance == id then owners[0].references
    else RefsOf(owners[1..], id)
  }

  predicate Owns(owners: seq<Owner>, id: string) {
    exists i :: 0 <= i < |owners| && owners[i].instance == id
  }

  /** Every owner is listed once, with at least one reference. */
  predicate WellOwned(owners: seq<Owner>) {
    && (forall i :: 0 <= i < |owners| ==> owners[i].references > 0)
    && (forall i, j :: 0 <= i < j < |owners| ==> owners[i].instance != owners[j].instance)
  }

  function AddReference(owners: seq<Owner>, id: string): seq<Owner> {
    if owners == [] then [Owner(id, 1)]
    else if owners[0].instance == id then [owners[0].(references := owners[0].references + 1)] + owners[1..]
    else [owners[0]] + AddReference(owners[1..], id)
  }

  function RemoveReference(owners: seq<Owner>, id: string): seq<Owner> {
    if owners == [] then []
    else if owners[0].instance != id then [owners[0]] + RemoveReference(owners[1..], id)
    else if owners[0].references > 1 then [owners[0].(references := owners[0].references - 1)] + owners[1..]
    else owners[1..]
  }

  lemma {:induction false} AddCounts(owners: seq<Owner>, id: string, other: string)
    ensures RefsOf(AddReference(owners, id), other) == RefsOf(owners, other) + if other == id then 1 else 0
  {
    if owners != [] && owners[0].instance != id {
      AddCounts(owners[1..], id, other);
      assert AddReference(owners, id)[1..] == AddReference(owners[1..], id);
    }
  }

  lemma {:induction false} RemoveCounts(owners: seq<Owner>, id: string, other: string)
    requires WellOwned(owners)
    ensures RefsOf(RemoveReference(owners, id), other) ==
            if other == id && RefsOf(owners, other) > 0 then RefsOf(owners, other) - 1 else RefsOf(owners, other)
  {
    if owners != [] {
      var rest := RemoveReference(owners, id);
      if owners[0].instance != id {
        RemoveCounts(owners[1..], id, other);
        assert rest[1..] == RemoveReference(owners[1..], id);
      } else if owners[0].references == 1 {
        NotOwned(owners[1..], id);
      }
    }
  }

  lemma {:induction false} NotOwned(owners: seq<Owner>, id: string)
    requires !Owns(owners, id)
    ensures RefsOf(owners, id) == 0
  {
    if owners != [] {
      assert owners[0].instance != id;
      assert forall i :: 0 <= i < |owners[1..]| ==> owners[1..][i] == owners[i + 1];
      NotOwned(owners[1..], id);
    }
  }

  /** A reference is added to the first entry of that owner, or a new entry is made. */
  lemma {:induction false} AddShape(owners: seq<Owner>, id: string) returns (i: nat)
    ensures i <= |owners| && forall j :: 0 <= j < i ==> owners[j].instance != id
    ensures i < |owners| ==> owners[i].instance == id
                             && AddReference(owners, id) == owners[i := Owner(id, owners[i].references + 1)]
    ensures i == |owners| ==> AddReference(owners, id) == owners + [Owner(id, 1)]
  {
    if owners == [] || owners[0].instance == id {
      i := 0;
    } else {
      var n := AddShape(owners[1..], id);
      i := n + 1;
    }
  }

  lemma AddWellOwned(owners: seq<Owner>, id: string)
    requires WellOwned(owners)
    ensures WellOwned(AddReference(owners, id)) && Owns(AddReference(owners, id), id)
  {
    var i := AddShape(owners, id);
    assert AddReference(owners, id)[i].instance == id;
  }

  // ---------- what the ledger proves ----------

  /** Managed ownership of the route is durable: it was recorded after the route had
      been created by this code. */
  predicate Proven(r: Record) {
    r.ownership == Managed && r.state != PendingAdd && r.state != PendingMigrateAdd
  }

  predicate Mine(kernel: Kernel, k: Key) {
    k in kernel ==> kernel[k] == Ours
  }

  /** A record never claims a route that somebody else created. */
  predicate Honest(r: Record, kernel: Kernel) {
    && (Proven(r) ==> Mine(kernel, r.key))
    && (r.state == PendingMigrateRemove && r.previous.Some? ==>
          r.previous.value.key == r.key && (r.previous.value.ownership == Managed ==> r.ownership == Managed))
  }

  predicate AllHonest(ledger: Ledger, kernel: Kernel) {
    forall i :: 0 <= i < |ledger| ==> Honest(ledger[i], kernel)
  }

  lemma HonestUpdate(ledger: Ledger, kernel: Kernel, i: nat, r: Record)
    requires AllHonest(ledger, kernel) && i < |ledger| && Honest(r, kernel)
    ensures AllHonest(ledger[i := r], kernel)
  {
  }

  function Dropped(ledger: Ledger, i: nat): Ledger
    requires i < |ledger|
  {
    ledger[..i] + ledger[i + 1..]
  }

  lemma HonestDrop(ledger: Ledger, kernel: Kernel, i: nat)
    requires AllHonest(ledger, kernel) && i < |ledger|
    ensures AllHonest(Dropped(ledger, i), kernel)
  {
  }

  lemma HonestKernel(ledger: Ledger, kernel: Kernel, k: Key)
    requires AllHonest(ledger, kernel)
    ensures AllHonest(ledger, kernel[k := Ours]) && AllHonest(ledger, kernel - {k})
  {
  }

  function Demoted(ledger: Ledger): Ledger {
    seq(|ledger|, i requires 0 <= i < |ledger| => ledger[i].(ownership := Ambiguous, state := Active))
  }

  predicate Pending(s: State) {
    s == PendingMigrateRemove || s == PendingMigrateAdd
  }

  /** What a ledger must satisfy to be loaded. */
  predicate Loadable(ledger: Ledger) {
    && (forall i, j :: 0 <= i < j < |ledger| ==> ledger[i].key != ledger[j].key)
    && (forall i :: 0 <= i < |ledger| ==>
          WellOwned(ledger[i].owners) && (Pending(ledger[i].state) <==> ledger[i].previous.Some?))
  }

  function IndexOf(ledger: Ledger, k: Key): (i: int)
    ensures -1 <= i < |ledger|
    ensures i >= 0 ==> ledger[i].key == k && forall j :: 0 <= j < i ==> ledger[j].key != k
    ensures i < 0 ==> forall j :: 0 <= j < |ledger| ==> ledger[j].key != k
  {
    if ledger == [] then -1
    else if ledger[0].key == k then 0
    else
      var i := IndexOf(ledger[1..], k);
      assert forall j :: 0 < j < |ledger| ==> ledger[j] == ledger[1..][j - 1];
      if i < 0 then -1 else i + 1
  }

  predicate OwnedAt(r: Record, compartment: nat, endpoint: nat, id: string) {
    r.key.compartment == compartment && r.key.destination == endpoint && Owns(r.owners, id)
  }

  function OwnerIndex(ledger: Ledger, compartment: nat, endpoint: nat, id: string): (i: int)
    ensures -1 <= i < |ledger|
    ensures i >= 0 ==> OwnedAt(ledger[i], compartment, endpoint, id) && forall j :: 0 <= j < i ==>
              !OwnedAt(ledger[j], compartment, endpoint, id)
    ensures i < 0 ==> forall j :: 0 <= j < |ledger| ==> !OwnedAt(ledger[j], compartment, endpoint, id)
  {
    if ledger == [] then -1
    else if OwnedAt(ledger[0], compartment, endpoint, id) then 0
    else
      var i := OwnerIndex(ledger[1..], compartment, endpoint, id);
      assert forall j :: 0 < j < |ledger| ==> ledger[j] == ledger[1..][j - 1];
      if i < 0 then -1 else i + 1
  }

  function SnapshotOf(r: Record): Snapshot {
    Snapshot(r.key, r.detail, r.ownership, r.revision)
  }

  /** The record as the snapshot had it, in force. */
  function Restored(r: Record, s: Snapshot): Record {
    Record(s.key, s.detail, s.ownership, Active, s.revision, None, r.owners)
  }

  // ---------- ledgers in memory ----------

  predicate Coherent(ledger: Ledger, kernel: Kernel) {
    AllHonest(ledger, kernel) && forall i :: 0 <= i < |ledger| ==> WellOwned(ledger[i].owners)
  }

  lemma CoherentUpdate(ledger: Ledger, kernel: Kernel, i: nat, r: Record)
    requires Coherent(ledger, kernel) && i < |ledger| && Honest(r, kernel) && WellOwned(r.owners)
    ensures Coherent(ledger[i := r], kernel)
  {
  }

  lemma CoherentDrop(ledger: Ledger, kernel: Kernel, i: nat)
    requires Coherent(ledger, kernel) && i < |ledger|
    ensures Coherent(Dropped(ledger, i), kernel)
  {
  }

  /** Every record of the compartment is in force and has an owner. */
  predicate InForce(r: Record, compartment: nat) {
    r.key.compartment == compartment ==> r.state == Active && r.owners != []
  }

  predicate Tidy(ledger: Ledger, compartment: nat) {
    forall i :: 0 <= i < |ledger| ==> InForce(ledger[i], compartment)
  }
}
