/** Route managers of several processes sharing one durable ledger.  Every call into
    the kernel or the disk may fail or be cut short by a crash; what is durable then
    is all that the next process has. */
module WindowsRoutes {
  import opened Wrappers
  import opened RouteLedger

  /** Which of the two ledger files is there and intact. */
  datatype Files = Files(primary: bool, secondary: bool)

  class Host {
    const compartment: nat
    ghost var kernel: Kernel
    var routes: set<Key>             // what the code can see of the kernel
    var durable: Ledger
    var backup: Ledger
    var files: Files
    var alive: set<string>           // the instances whose process still runs
    ghost var deleted: seq<Option<Creator>>

    /** OWNERSHIP SAFETY: no route created by somebody else was ever deleted, and
        nothing durable would lead a later process to delete one. */
    ghost predicate Safe()
      reads this
    {
      && routes == kernel.Keys
      && AllHonest(durable, kernel)
      && forall i :: 0 <= i < |deleted| ==> deleted[i] != Some(Others)
    }

    constructor (compartment: nat)
      ensures Safe() && kernel == map[] && durable == []
    {
      this.compartment := compartment;
      kernel, routes, durable, backup, files, alive, deleted := map[], {}, [], [], Files(false, false), {}, [];
    }

    // ---------- the disk ----------

    /** What can be read: the ledger, else what its backup says, else nothing.  The
        backup is older: no proof that any route is ours to delete. */
    ghost function OnDisk(): Ledger
      reads this`durable, this`backup, this`files
    {
      if files.primary then durable else if files.secondary then Demoted(backup) else []
    }

    method Load() returns (r: Completion, ledger: Ledger)
      requires Safe()
      ensures r == Done ==> Loadable(ledger) && AllHonest(ledger, kernel) && ledger == OnDisk()
    {
      var fails: bool, crashes: bool := *, *;
      ledger := [];
      if crashes {
        return Crashed, [];
      }
      if fails {
        return Failed, [];
      }
      if files.primary {
        ledger := durable;
      } else if files.secondary {
        ledger := Demoted(backup);
      }
      r := if Loadable(ledger) then Done else Failed;
    }

    /** Keeps an intact ledger as the backup, then writes the new one; the ledger in
        memory is not replaced. */
    method Save(ledger: Ledger) returns (r: Completion)
      requires Safe() && AllHonest(ledger, kernel)
      modifies this`durable, this`backup, this`files
      ensures Safe() && (r == Done ==> durable == ledger && files.primary)
      ensures (durable == ledger && files.primary) || (durable == old(durable) && files.primary == old(files.primary))
      ensures if old(files.primary) then backup == old(backup) || backup == old(durable)
              else backup == old(backup) && files.secondary == old(files.secondary)
    {
      var copied: bool, written: bool, crashes: bool, complains: bool := *, *, *, *;
      if files.primary && copied {
        backup, files := durable, files.(secondary := true);
      }
      if written && (files.primary ==> copied) {
        durable, files := ledger, files.(primary := true);
        r := if crashes then Crashed else if complains then Failed else Done;
      } else {
        r := if crashes then Crashed else Failed;
      }
    }

    /** A file is lost or spoilt, or can be read again. */
    method Damage()
      requires Safe()
      modifies this`files
      ensures Safe()
    {
      files := *;
    }

    // ---------- the kernel ----------

    method RouteExists(k: Key) returns (r: Completion, exists_: bool)
      requires Safe()
      ensures r == Done ==> (exists_ <==> k in kernel)
    {
      var fails: bool, crashes: bool := *, *;
      exists_ := k in routes;
      r := if crashes then Crashed else if fails then Failed else Done;
    }

    /** Fails without effect when an identical route exists. */
    method CreateRoute(k: Key) returns (r: Completion)
      requires Safe()
      modifies this`kernel, this`routes
      ensures Safe()
      ensures r == Done ==> k !in old(kernel) && kernel == old(kernel)[k := Ours]
      ensures r == Failed ==> kernel == old(kernel)
      ensures forall ledger: Ledger :: AllHonest(ledger, old(kernel)) ==> AllHonest(ledger, kernel)
    {
      var fails: bool, crashes: bool, before: bool := *, *, *;
      if k in routes || fails {
        return if crashes then Crashed else Failed;
      }
      if crashes && before {
        return Crashed;
      }
      ghost var was := kernel;
      kernel := kernel[k := Ours];
      routes := routes + {k};
      forall ledger: Ledger | AllHonest(ledger, was)
        ensures AllHonest(ledger, kernel)
      {
        HonestKernel(ledger, was, k);
      }
      r := if crashes then Crashed else Done;
    }

    /** Only ever called on a route this code created, or one that is gone. */
    method DeleteRoute(k: Key) returns (r: Completion)
      requires Safe() && Mine(kernel, k)
      modifies this`kernel, this`routes, this`deleted
      ensures Safe()
      ensures r == Done ==> kernel == old(kernel) - {k}
      ensures r == Failed ==> kernel == old(kernel)
      ensures kernel == old(kernel) || kernel == old(kernel) - {k}
      ensures deleted == old(deleted)
                || deleted == old(deleted) + [if k in old(kernel) then Some(old(kernel)[k]) else None]
      ensures forall ledger: Ledger :: AllHonest(ledger, old(kernel)) ==> AllHonest(ledger, kernel)
    {
      var fails: bool, crashes: bool, before: bool := *, *, *;
      if crashes && before {
        return Crashed;
      }
      deleted := deleted + [if k in kernel then Some(kernel[k]) else None];
      if fails {
        return if crashes then Crashed else Failed;
      }
      ghost var was := kernel;
      kernel := kernel - {k};
      routes := routes - {k};
      forall ledger: Ledger | AllHonest(ledger, was)
        ensures AllHonest(ledger, kernel)
      {
        HonestKernel(ledger, was, k);
      }
      r := if crashes then Crashed else Done;
    }

    /** The path the system would take to `endpoint` now. */
    method BestRoute(endpoint: nat, tunnel: nat) returns (r: Completion, selected: Selected)
      ensures r == Done ==>
                && selected.key.compartment == compartment && selected.key.destination == endpoint
                && selected.key.interfaceLuid != tunnel
    {
      var fails: bool, crashes: bool := *, *;
      selected := *;
      selected := selected.(key := selected.key.(compartment := compartment));
      var valid := selected.key.destination == endpoint && selected.key.interfaceLuid != tunnel
          && selected.key.interfaceLuid != 0;
      r := if crashes then Crashed else if fails || !valid then Failed else Done;
    }

    method OwnerAlive(owner: Owner) returns (r: Completion, lives: bool)
      ensures lives <==> owner.instance in alive
    {
      var fails: bool, crashes: bool := *, *;
      lives := owner.instance in alive;
      r := if crashes then Crashed else if fails then Failed else Done;
    }

    // ---------- everybody else ----------

    /** Others create any route they like, except one identical to a route whose
        managed ownership is durable already. */
    method OthersCreate(k: Key)
      requires Safe() && forall i :: 0 <= i < |durable| && Proven(durable[i]) ==> durable[i].key != k
      modifies this`kernel, this`routes
      ensures Safe() && durable == old(durable) && deleted == old(deleted)
    {
      if k !in routes {
        kernel := kernel[k := Others];
        routes := routes + {k};
      }
    }

    method OthersDelete(k: Key)
      requires Safe()
      modifies this`kernel, this`routes
      ensures Safe() && durable == old(durable) && deleted == old(deleted)
    {
      HonestKernel(durable, kernel, k);
      kernel := kernel - {k};
      routes := routes - {k};
    }
  }

  class Manager {
    const host: Host
    const id: string       // of this process
    const tunnel: nat      // the interface routes must not go through
    var closed: bool

    constructor (host: Host, id: string, tunnel: nat)
      ensures this.host == host && this.id == id && this.tunnel == tunnel && !closed
    {
      this.host, this.id, this.tunnel, closed := host, id, tunnel, false;
    }

    /** Puts a record back as it was before a migration that failed. */
    method RestoreMigration(ledger: Ledger, i: nat, previous: Snapshot, restoreRoute: bool) returns (r: Completion)
      requires host.Safe() && Coherent(ledger, host.kernel) && i < |ledger|
      requires previous.ownership == Managed ==> Mine(host.kernel, previous.key)
      modifies host`kernel, host`routes, host`durable, host`backup, host`files, host`deleted
      ensures host.Safe() && r != Done
      ensures host.durable == old(host.durable) || host.durable == ledger[i := Restored(ledger[i], previous)]
    {
      hide AllHonest, WellOwned;
      if restoreRoute && previous.ownership == Managed {
        var checked, present := host.RouteExists(previous.key);
        if checked == Crashed {
          return Crashed;
        }
        if checked == Done && !present {
          var created := host.CreateRoute(previous.key);
          if created == Crashed {
            return Crashed;
          }
        }
      }
      HonestUpdate(ledger, host.kernel, i, Restored(ledger[i], previous));
      var saved := host.Save(ledger[i := Restored(ledger[i], previous)]);
      r := if saved == Crashed then Crashed else Failed;
    }

    /** The best path is the one the record already has. */
    method StayOn(ledger: Ledger, i: nat, previous: Snapshot, selected: Selected, oldExists: bool)
        returns (r: Completion, next: Ledger, changed: bool)
      requires host.Safe() && Coherent(ledger, host.kernel) && i < |ledger| && selected.key == previous.key
      requires previous.ownership == Managed ==> previous.key !in host.kernel
      modifies host`kernel, host`routes, host`durable, host`backup, host`files, host`deleted
      ensures host.Safe()
      ensures r == Done ==>
                && |next| == |ledger| && next == ledger[i := next[i]] && Coherent(next, host.kernel)
                   && host.OnDisk() == next
                && next[i] == Restored(ledger[i], previous).(detail := selected.detail,
                                                             revision := if changed then previous.revision + 1
                                                                 else previous.revision)
                && (previous.ownership == Managed ==> previous.key in host.kernel) && (!oldExists ==> changed)
    {
      hide AllHonest, WellOwned;
      next := ledger;
      changed := !oldExists || selected.detail != previous.detail;
      if previous.ownership == Managed {
        var created := host.CreateRoute(selected.key);
        if created == Crashed {
          return Crashed, next, changed;
        }
        if created == Failed {
          r := RestoreMigration(ledger, i, previous, oldExists);
          return;
        }
      }
      var record := Restored(ledger[i], previous).(detail := selected.detail,
                                                   revision := if changed then previous.revision + 1
                                                       else previous.revision);
      RecordHonest(ledger, host.kernel, i);
      CoherentUpdate(ledger, host.kernel, i, record);
      next := ledger[i := record];
      r := host.Save(next);
    }

    /** The best path is another one: reserve it, then pin it unless it exists. */
    method MoveTo(ledger: Ledger, i: nat, previous: Snapshot, selected: Selected, oldExists: bool)
        returns (r: Completion, next: Ledger)
      requires host.Safe() && Coherent(ledger, host.kernel) && i < |ledger| && selected.key != previous.key
      requires previous.ownership == Managed ==> previous.key !in host.kernel
      modifies host`kernel, host`routes, host`durable, host`backup, host`files, host`deleted
      ensures host.Safe()
      ensures r == Done ==>
                && |next| == |ledger| && next == ledger[i := next[i]] && Coherent(next, host.kernel)
                   && host.OnDisk() == next
                && next[i].key == selected.key && next[i].key in host.kernel && next[i].state == Active
                   && next[i].previous == None
                && next[i].owners == ledger[i].owners && next[i].revision == previous.revision + 1
    {
      hide AllHonest, WellOwned;
      next := ledger;
      RecordHonest(ledger, host.kernel, i);
      var adding := ledger[i].(key := selected.key, detail := selected.detail, ownership := Managed,
                               state := PendingMigrateAdd, previous := Some(previous));
      CoherentUpdate(ledger, host.kernel, i, adding);
      var work := ledger[i := adding];
      var saved := host.Save(work);
      if saved == Crashed {
        return Crashed, next;
      }
      if saved == Failed {
        r := RestoreMigration(work, i, previous, oldExists);
        return;
      }
      var checked, present := host.RouteExists(selected.key);
      if checked == Crashed {
        return Crashed, next;
      }
      if checked == Failed {
        r := RestoreMigration(work, i, previous, oldExists);
        return;
      }
      var record := adding.(state := Active, previous := None, revision := previous.revision + 1);
      if present {
        record := record.(ownership := External);
      } else {
        var created := host.CreateRoute(selected.key);
        if created == Crashed {
          return Crashed, next;
        }
        if created == Failed {
          r := RestoreMigration(work, i, previous, oldExists);
          return;
        }
      }
      CoherentUpdate(work, host.kernel, i, record);
      next := work[i := record];
      assert next == ledger[i := record];
      r := host.Save(next);
    }

    /** Moves a record, and its route, to the path now best for its endpoint. */
    method MigrateRecord(ledger: Ledger, i: nat, endpoint: nat, oldExists: bool)
        returns (r: Completion, next: Ledger, changed: bool)
      requires host.Safe() && Coherent(ledger, host.kernel) && i < |ledger| && ledger[i].state == Active
      requires oldExists <==> ledger[i].key in host.kernel
      modifies host`kernel, host`routes, host`durable, host`backup, host`files, host`deleted
      ensures host.Safe()
      ensures r == Done ==>
                && Coherent(next, host.kernel) && host.OnDisk() == next && |next| == |ledger|
                && (forall j :: 0 <= j < |ledger| && j != i ==> next[j] == ledger[j])
                && next[i].state == Active && next[i].previous == None && next[i].owners == ledger[i].owners
                && (next[i].ownership == Managed ==> next[i].key in host.kernel)
                && (next[i].key != ledger[i].key ==>
                   next[i].key in host.kernel && next[i].key.destination == endpoint && changed)
                && (!oldExists ==> changed)
                && next[i].revision == if changed then ledger[i].revision + 1 else ledger[i].revision
    {
      hide AllHonest, WellOwned;
      var record := ledger[i];
      var previous := SnapshotOf(record);
      next, changed := ledger, false;
      RecordHonest(ledger, host.kernel, i);
      var work := ledger;
      if previous.ownership == Managed && oldExists {
        var removing := record.(state := PendingMigrateRemove, previous := Some(previous));
        CoherentUpdate(ledger, host.kernel, i, removing);
        work := ledger[i := removing];
        var saved := host.Save(work);
        if saved != Done {
          return saved, next, false;
        }
        var removed := host.DeleteRoute(previous.key);
        if removed == Crashed {
          return Crashed, next, false;
        }
        if removed == Failed {
          HonestUpdate(work, host.kernel, i, removing.(state := Active));
          var again := host.Save(work[i := removing.(state := Active)]);
          return if again == Crashed then Crashed else Failed, next, false;
        }
      }
      assert previous.ownership == Managed ==> previous.key !in host.kernel;
      var found, selected := host.BestRoute(endpoint, tunnel);
      if found == Crashed {
        return Crashed, next, false;
      }
      if found == Failed {
        r := RestoreMigration(work, i, previous, oldExists);
        return;
      }
      if selected.key == previous.key {
        r, next, changed := StayOn(work, i, previous, selected, oldExists);
        return;
      }
      var other := IndexOf(work, selected.key);
      if other >= 0 && other != i {
        r := RestoreMigration(work, i, previous, oldExists);
        return;
      }
      r, next := MoveTo(work, i, previous, selected, oldExists);
      changed := r == Done;
    }

    /** The owners still alive; a process never asks about itself. */
    method LiveOwners(owners: seq<Owner>, asking: bool) returns (r: Completion, live: seq<Owner>)
      requires WellOwned(owners)
      ensures r == Done ==> WellOwned(live) && live == LiveOf(owners, host.alive, if asking then None else Some(id))
      ensures r == Done && |live| == |owners| ==> live == owners
    {
      hide LiveOf, WellOwned;
      ghost var self := if asking then None else Some(id);
      live := [];
      LiveNone(host.alive, self);
      for i := 0 to |owners|
        invariant live == LiveOf(owners[..i], host.alive, self)
      {
        var alive := !asking && owners[i].instance == id;
        if !alive {
          r, alive := host.OwnerAlive(owners[i]);
          if r != Done {
            return r, live;
          }
        }
        LiveNext(owners, i, host.alive, self);
        if alive {
          live := live + [owners[i]];
        }
      }
      assert owners[..|owners|] == owners;
      LiveFacts(owners, host.alive, self);
      r := Done;
    }

    /** A record nobody owns any more: its route goes with it if it is provably ours. */
    method DropAbandoned(ledger: Ledger, i: nat, present: bool) returns (r: Completion, next: Ledger)
      requires host.Safe() && Coherent(ledger, host.kernel) && i < |ledger|
                 && (present <==> ledger[i].key in host.kernel)
      modifies host`kernel, host`routes, host`durable, host`backup, host`files, host`deleted
      ensures host.Safe()
      ensures r == Done ==> Coherent(next, host.kernel) && next == Dropped(ledger, i)
      ensures r == Done && Proven(ledger[i]) ==> ledger[i].key !in host.kernel
      ensures !Proven(ledger[i]) ==> host.kernel == old(host.kernel)
    {
      hide AllHonest, WellOwned;
      next := ledger;
      var record := ledger[i];
      RecordHonest(ledger, host.kernel, i);
      if record.ownership == Managed && record.state != PendingAdd && record.state != PendingMigrateAdd && present {
        if record.state != PendingDelete {
          HonestUpdate(ledger, host.kernel, i, record.(state := PendingDelete));
          r := host.Save(ledger[i := record.(state := PendingDelete)]);
          if r != Done {
            return;
          }
        }
        r := host.DeleteRoute(record.key);
        if r != Done {
          return;
        }
      }
      // An unproven route that exists is left alone: nothing shows who made it.
      CoherentDrop(ledger, host.kernel, i);
      next := Dropped(ledger, i);
      r := Done;
    }

    /** Brings one record that has live owners into force, or drops a reservation. */
    method Settle(ledger: Ledger, i: nat, present: bool)
        returns (r: Completion, next: Ledger, kept: bool, changed: bool)
      requires host.Safe() && Coherent(ledger, host.kernel) && i < |ledger| && ledger[i].owners != []
      requires present <==> ledger[i].key in host.kernel
      modifies host`kernel, host`routes, host`durable, host`backup, host`files, host`deleted
      ensures host.Safe()
      ensures r == Done ==> Coherent(next, host.kernel)
      ensures r == Done && kept ==>
                && |next| == |ledger| && (forall j :: 0 <= j < |ledger| && j != i ==> next[j] == ledger[j])
                && next[i].state == Active && next[i].owners == ledger[i].owners
      ensures r == Done && !kept ==> next == Dropped(ledger, i) && ledger[i].state == PendingAdd && changed
      ensures r == Done && ledger[i].state == Active && (ledger[i].ownership != Managed || present) ==>
                next == ledger && !changed
      ensures r == Done && !changed ==> next == ledger && host.OnDisk() == old(host.OnDisk())
    {
      hide AllHonest, WellOwned;
      next, kept, changed := ledger, true, true;
      var record := ledger[i];
      RecordHonest(ledger, host.kernel, i);
      var settled := record;
      match record.state {
        case PendingAdd =>
          if !present {
            CoherentDrop(ledger, host.kernel, i);
            return Done, Dropped(ledger, i), false, true;
          }
          settled := record.(ownership := Ambiguous, state := Active);
        case PendingMigrateRemove =>
          if record.previous.None? {
            return Failed, next, true, false;
          }
          if !present && record.ownership == Managed {
            r := host.CreateRoute(record.previous.value.key);
            if r != Done {
              return;
            }
          }
          settled := Restored(record, record.previous.value);
        case PendingMigrateAdd =>
          if present {
            settled := record.(state := Active, previous := None, revision := record.revision + 1,
                               ownership := if record.ownership == Managed then Ambiguous else record.ownership);
          } else {
            if record.previous.None? {
              return Failed, next, true, false;
            }
            var previous := record.previous.value;
            if previous.ownership == Managed {
              r := host.CreateRoute(previous.key);
              if r != Done {
                return;
              }
            }
            settled := Restored(record, previous);
          }
        case PendingDelete =>
          return Failed, next, true, false;
        case Active =>
          if record.ownership == Managed && !present {
            r, next, changed := MigrateRecord(ledger, i, record.key.destination, false);
            return r, next, true, changed;
          }
          changed := false;
      }
      CoherentUpdate(ledger, host.kernel, i, settled);
      next := ledger[i := settled];
      r := Done;
    }

    /** Brings every record of this compartment into force; abandoned ones go. */
    method Reconcile(ledger: Ledger) returns (r: Completion, next: Ledger, changed: bool)
      requires host.Safe() && Coherent(ledger, host.kernel)
      modifies host`kernel, host`routes, host`durable, host`backup, host`files, host`deleted
      ensures host.Safe()
      ensures r == Done ==> Coherent(next, host.kernel) && Tidy(next, host.compartment)
      ensures r == Done ==> Survives(ledger, next, host.compartment, host.alive, Some(id))
      ensures r == Done && !changed ==> next == ledger && host.OnDisk() == old(host.OnDisk())
    {
      hide AllHonest, WellOwned, LiveOf, Coherent, InForce, Halfway, Becomes, Goes;
      next, changed := ledger, false;
      var i, left := 0, |ledger|;
      ghost var m, c, alive, self := 0, host.compartment, host.alive, Some(id);
      HalfStarts(ledger, c, alive, self);
      while i < |next|
        invariant host.Safe() && Coherent(next, host.kernel) && 0 <= i <= |next| && left == |next| - i
        invariant forall j :: 0 <= j < i ==> InForce(next[j], c)
        invariant Halfway(next, ledger, m, i, c, alive, self)
        invariant !changed ==> next == ledger && host.OnDisk() == old(host.OnDisk())
        decreases left
      {
        left := left - 1;
        HalfFacts(next, ledger, m, i, c, alive, self);
        if next[i].key.compartment == host.compartment {
          ghost var was := next;
          var kept, moved;
          r, next, kept, moved := ReconcileOne(next, i);
          if r != Done {
            return;
          }
          changed := changed || moved;
          if !kept {
            HalfDrops(was, next, ledger, m, i, c, alive, self);
            m := m + 1;
            continue;
          }
          HalfKeeps(was, next, ledger, m, i, c, alive, self);
        } else {
          BecomesSame(next[i], c, alive, self);
          HalfKeeps(next, next, ledger, m, i, c, alive, self);
        }
        m := m + 1;
        i := i + 1;
      }
      HalfEnds(next, ledger, m, i, c, alive, self);
      r := Done;
    }

    /** One record of this compartment: without its dead owners, settled or dropped. */
    method ReconcileOne(ledger: Ledger, i: nat) returns (r: Completion, next: Ledger, kept: bool, changed: bool)
      requires host.Safe() && Coherent(ledger, host.kernel) && i < |ledger|
                 && ledger[i].key.compartment == host.compartment
      modifies host`kernel, host`routes, host`durable, host`backup, host`files, host`deleted
      ensures host.Safe()
      ensures r == Done ==> Coherent(next, host.kernel)
      ensures r == Done && kept ==>
                && |next| == |ledger| && (forall j :: 0 <= j < |ledger| && j != i ==> next[j] == ledger[j])
                && InForce(next[i], host.compartment)
                   && Becomes(ledger[i], next[i], host.compartment, host.alive, Some(id))
      ensures r == Done && !kept ==>
                next == Dropped(ledger, i) && Goes(ledger[i], host.compartment, host.alive, Some(id)) && changed
      ensures r == Done && !changed ==> next == ledger && host.OnDisk() == old(host.OnDisk())
    {
      hide AllHonest, WellOwned, LiveOf, Coherent;
      next, kept, changed := ledger, false, false;
      var record := ledger[i];
      RecordHonest(ledger, host.kernel, i);
      var live;
      r, live := LiveOwners(record.owners, false);
      if r != Done {
        return;
      }
      changed := |live| != |record.owners|;
      CoherentUpdate(ledger, host.kernel, i, record.(owners := live));
      next := ledger[i := record.(owners := live)];
      assert Dropped(next, i) == Dropped(ledger, i);
      var present;
      r, present := host.RouteExists(record.key);
      if r != Done {
        return;
      }
      if live == [] {
        r, next := DropAbandoned(next, i, present);
        return r, next, false, true;
      }
      var moved;
      r, next, kept, moved := Settle(next, i, present);
      changed := changed || moved;
    }

    /** Loads the ledger and brings it into force, saving it if that changed it. */
    method Open() returns (r: Completion, ledger: Ledger)
      requires host.Safe()
      modifies host`kernel, host`routes, host`durable, host`backup, host`files, host`deleted
      ensures host.Safe()
      ensures r == Done ==> Coherent(ledger, host.kernel) && Tidy(ledger, host.compartment)
      ensures r == Done ==> Survives(old(host.OnDisk()), ledger, host.compartment, host.alive, Some(id))
      ensures r == Done ==> host.OnDisk() == ledger
    {
      hide AllHonest;
      r, ledger := host.Load();
      if r != Done {
        return;
      }
      var changed;
      r, ledger, changed := Reconcile(ledger);
      if r == Done && changed {
        r := host.Save(ledger);
      }
    }

    /** Makes sure the best route to `endpoint` exists, and holds a reference to it. */
    method AcquireEndpointRoute(endpoint: nat)
        returns (r: Completion, lease: Option<Lease>, ghost before: Ledger)
      requires host.Safe()
      modifies host`kernel, host`routes, host`durable, host`backup, host`files, host`deleted
      ensures host.Safe() && (r == Done <==> lease.Some?)
      ensures closed ==> r == Failed && host.kernel == old(host.kernel) && host.durable == old(host.durable)
      ensures r == Done ==>
                && lease.value.endpoint == endpoint && lease.value.key.destination == endpoint
                   && lease.value.key in host.kernel
                && Holds(host.OnDisk(), lease.value.key, id, lease.value.revision)
                && Joined(before, host.OnDisk(), lease.value.key, id)
                && Survives(old(host.OnDisk()), before, host.compartment, host.alive, Some(id))
    {
      hide AllHonest, WellOwned, Survives;
      before := [];
      if closed {
        return Failed, None, [];
      }
      var ledger;
      r, ledger := Open();
      before := ledger;
      if r != Done {
        return r, None, before;
      }
      var selected;
      r, selected := host.BestRoute(endpoint, tunnel);
      if r != Done {
        return r, None, before;
      }
      var i := IndexOf(ledger, selected.key);
      var revision;
      if i >= 0 {
        r, revision := AcquireKnown(ledger, i, selected);
      } else {
        r, revision := AcquireNew(ledger, selected);
      }
      lease := if r == Done then Some(Lease(endpoint, selected.key, revision)) else None;
    }

    method AcquireKnown(ledger: Ledger, i: nat, selected: Selected) returns (r: Completion, revision: nat)
      requires host.Safe() && Coherent(ledger, host.kernel) && Tidy(ledger, host.compartment)
      requires i < |ledger| && i == IndexOf(ledger, selected.key) && selected.key.compartment == host.compartment
      modifies host`kernel, host`routes, host`durable, host`backup, host`files, host`deleted
      ensures host.Safe()
      ensures r == Done ==>
                && selected.key in host.kernel && Holds(host.OnDisk(), selected.key, id, revision)
                && Joined(ledger, host.OnDisk(), selected.key, id)
    {
      hide AllHonest, WellOwned;
      revision := 0;
      var original := ledger[i];
      RecordHonest(ledger, host.kernel, i);
      assert InForce(original, host.compartment);
      AddWellOwned(original.owners, id);
      var present;
      r, present := host.RouteExists(original.key);
      if r != Done {
        return;
      }
      var record := original.(owners := AddReference(original.owners, id), detail := selected.detail,
                              revision := if original.revision == 0 then 1 else original.revision);
      if !present {
        // The route has to be made, and the intention recorded before that.
        var unmanaged := original.ownership != Managed;
        var reserved := if unmanaged
          then record.(ownership := Managed, state := PendingMigrateAdd, previous := Some(SnapshotOf(original)))
          else record.(state := PendingAdd);
        HonestUpdate(ledger, host.kernel, i, reserved);
        r := host.Save(ledger[i := reserved]);
        if r != Done {
          return;
        }
        r := host.CreateRoute(selected.key);
        if r == Crashed {
          return;
        }
        if r == Failed {
          var undone := host.Save(ledger);
          return if undone == Crashed then Crashed else Failed, 0;
        }
        record := reserved.(state := Active, previous := if unmanaged then None else reserved.previous);
      }
      HonestUpdate(ledger, host.kernel, i, record);
      r := host.Save(ledger[i := record]);
      revision := record.revision;
      ReferencesUpdated(ledger, i, record, id);
    }

    method AcquireNew(ledger: Ledger, selected: Selected) returns (r: Completion, revision: nat)
      requires host.Safe() && Coherent(ledger, host.kernel) && IndexOf(ledger, selected.key) < 0
      modifies host`kernel, host`routes, host`durable, host`backup, host`files, host`deleted
      ensures host.Safe()
      ensures r == Done ==>
                && selected.key in host.kernel && Holds(host.OnDisk(), selected.key, id, revision)
                && Joined(ledger, host.OnDisk(), selected.key, id)
    {
      hide AllHonest, WellOwned;
      revision := 1;
      var present;
      r, present := host.RouteExists(selected.key);
      if r != Done {
        return;
      }
      var record := Record(selected.key, selected.detail, External, Active, 1, None, [Owner(id, 1)]);
      if !present {
        record := record.(ownership := Managed);
        var reserved := record.(state := PendingAdd);
        HonestAppend(ledger, host.kernel, reserved);
        r := host.Save(ledger + [reserved]);
        if r != Done {
          return;
        }
        r := host.CreateRoute(selected.key);
        if r == Crashed {
          return;
        }
        if r == Failed {
          var undone := host.Save(ledger);
          return if undone == Crashed then Crashed else Failed, 0;
        }
      }
      HonestAppend(ledger, host.kernel, record);
      r := host.Save(ledger + [record]);
      ReferencesAppended(ledger, record, id);
    }

    /** Gives one reference back; the last one takes a managed route with it. */
    method Release(endpoint: nat) returns (r: Completion, ghost before: Ledger)
      requires host.Safe()
      modifies host`kernel, host`routes, host`durable, host`backup, host`files, host`deleted
      ensures host.Safe()
      ensures closed ==> r == Done && host.kernel == old(host.kernel) && host.durable == old(host.durable)
      ensures !closed && r == Done ==>
                && Survives(old(host.OnDisk()), before, host.compartment, host.alive, Some(id))
                && Released(before, host.OnDisk(), host.kernel, OwnerIndex(before, host.compartment, endpoint, id), id)
      ensures !closed && r == Done && OwnerIndex(before, host.compartment, endpoint, id) < 0 ==>
                host.OnDisk() == before
    {
      hide AllHonest, WellOwned, Survives;
      before := [];
      if closed {
        return Done, [];
      }
      var ledger;
      r, ledger := Open();
      before := ledger;
      if r != Done {
        return;
      }
      var i := OwnerIndex(ledger, host.compartment, endpoint, id);
      if i < 0 {
        return;
      }
      assert InForce(ledger[i], host.compartment);
      var record := ledger[i].(owners := RemoveReference(ledger[i].owners, id));
      RecordHonest(ledger, host.kernel, i);
      OneReferenceLess(ledger[i].owners, id);
      if record.owners != [] {
        HonestUpdate(ledger, host.kernel, i, record);
        r := host.Save(ledger[i := record]);
        return;
      }
      HonestDrop(ledger, host.kernel, i);
      if record.ownership == Managed {
        HonestUpdate(ledger, host.kernel, i, record.(state := PendingDelete));
        r := host.Save(ledger[i := record.(state := PendingDelete)]);
        if r != Done {
          return;
        }
        r := host.DeleteRoute(record.key);
        if r != Done {
          return;
        }
      }
      r := host.Save(Dropped(ledger, i));
    }

    /** Re-evaluates the path of a lease; says whether the lease is still the same. */
    method Refresh(lease: Lease) returns (r: Completion, next: Lease, changed: bool, ghost before: Ledger)
      requires host.Safe()
      modifies host`kernel, host`routes, host`durable, host`backup, host`files, host`deleted
      ensures host.Safe() && next.endpoint == lease.endpoint
      ensures closed ==> r == Failed
      ensures r == Done ==> (changed <==> next != lease)
      ensures r == Done ==>
                var i, now := OwnerIndex(before, host.compartment, lease.endpoint, id), host.OnDisk();
                && i >= 0 && |now| == |before| && (forall j :: 0 <= j < |now| && j != i ==> now[j] == before[j])
                && now[i].state == Active && now[i].owners == before[i].owners
                && next == Lease(lease.endpoint, now[i].key, now[i].revision)
                && (before[i].key == lease.key && before[i].revision == lease.revision && now[i].ownership == Managed
                    ==> next.key in host.kernel)
                && Survives(old(host.OnDisk()), before, host.compartment, host.alive, Some(id))
    {
      hide AllHonest, WellOwned, Survives;
      next, changed, before := lease, false, [];
      if closed {
        return Failed, next, false, [];
      }
      var ledger;
      r, ledger := Open();
      before := ledger;
      if r != Done {
        return;
      }
      var i := OwnerIndex(ledger, host.compartment, lease.endpoint, id);
      if i < 0 {
        return Failed, next, false, before;
      }
      var record := ledger[i];
      assert InForce(record, host.compartment);
      if record.key != lease.key || record.revision != lease.revision {
        return Done, Lease(lease.endpoint, record.key, record.revision), true, before;
      }
      var present;
      r, present := host.RouteExists(record.key);
      if r != Done || (record.ownership != Managed && present) {
        return;
      }
      r, ledger, changed := MigrateRecord(ledger, i, lease.endpoint, present);
      if r == Done {
        next := Lease(lease.endpoint, ledger[i].key, ledger[i].revision);
      }
    }

    /** Repair: drops what nobody owns, and changes nothing that has a live owner. */
    method ReconcileAbandoned() returns (r: Completion, next: Ledger)
      requires host.Safe()
      modifies host`kernel, host`routes, host`durable, host`backup, host`files, host`deleted
      ensures host.Safe()
      ensures r == Done ==> next == Spared(old(host.OnDisk()), host.compartment, host.alive)
      ensures r == Done ==> host.OnDisk() == next
    {
      hide AllHonest, WellOwned, LiveOf, Repaired, Spared;
      r, next := host.Load();
      ghost var before := next;
      if r != Done {
        return;
      }
      var i, left, changed := 0, |next|, false;
      ghost var m := 0;
      RepairStarts(before, host.compartment, host.alive);
      while i < |next|
        invariant host.Safe() && Coherent(next, host.kernel) && 0 <= i <= |next| && left == |next| - i
        invariant Repaired(next, before, m, i, host.compartment, host.alive)
        invariant !changed ==> next == before && host.OnDisk() == before
        decreases left
      {
        left := left - 1;
        RepairStep(next, before, m, i, host.compartment, host.alive);
        m := m + 1;
        if next[i].key.compartment == host.compartment {
          var record := next[i];
          RecordHonest(next, host.kernel, i);
          var live;
          r, live := LiveOwners(record.owners, true);
          if r != Done {
            return;
          }
          changed := changed || |live| != |record.owners|;
          CoherentUpdate(next, host.kernel, i, record.(owners := live));
          next := next[i := record.(owners := live)];
          if live == [] {
            var present;
            r, present := host.RouteExists(record.key);
            if r != Done {
              return;
            }
            r, next := DropAbandoned(next, i, present);
            if r != Done {
              return;
            }
            changed := true;
            continue;
          }
        }
        i := i + 1;
      }
      RepairEnds(next, before, m, i, host.compartment, host.alive);
      r := Done;
      if changed {
        r := host.Save(next);
      }
    }
  }

  /** The owner's process runs, or it is the one asking. */
  predicate Lives(owner: Owner, alive: set<string>, self: Option<string>) {
    owner.instance in alive || self == Some(owner.instance)
  }

  function LiveOf(owners: seq<Owner>, alive: set<string>, self: Option<string>): seq<Owner> {
    if owners == [] then []
    else
      var n := |owners| - 1;
      LiveOf(owners[..n], alive, self) + if Lives(owners[n], alive, self) then [owners[n]] else []
  }

  /** A record that reconciliation may drop: it has no live owner, or it reserves a
      route that never appeared. */
  predicate Goes(r: Record, compartment: nat, alive: set<string>, self: Option<string>) {
    r.key.compartment == compartment && (LiveOf(r.owners, alive, self) == [] || r.state == PendingAdd)
  }

  /** What reconciliation makes of a record it keeps: the live owners keep their
      references, and what it does not have to settle stays as it is. */
  predicate Becomes(r: Record, n: Record, compartment: nat, alive: set<string>, self: Option<string>) {
    if r.key.compartment != compartment then n == r
    else && n.owners == LiveOf(r.owners, alive, self) && n.owners != [] && n.state == Active
         && (r.state == Active && r.ownership != Managed ==> n == r.(owners := n.owners))
  }

  /** RECONCILED: record by record, in order, each of the first ledger goes for a
      reason or becomes one of the second. */
  predicate Survives(ledger: Ledger, next: Ledger, compartment: nat, alive: set<string>, self: Option<string>) {
    if ledger == [] then next == []
    else
      var n, m := |ledger| - 1, |next| - 1;
      || (Goes(ledger[n], compartment, alive, self) && Survives(ledger[..n], next, compartment, alive, self))
      || (next != [] && Becomes(ledger[n], next[m], compartment, alive, self)
          && Survives(ledger[..n], next[..m], compartment, alive, self))
  }

  /** A record with a live owner that is no mere reservation is never lost. */
  lemma {:induction false} SurvivorOf(
    ledger: Ledger, next: Ledger, compartment: nat, alive: set<string>, self: Option<string>, i: nat) returns (j: nat)
    requires Survives(ledger, next, compartment, alive, self) && i < |ledger|
               && !Goes(ledger[i], compartment, alive, self)
    ensures j < |next| && Becomes(ledger[i], next[j], compartment, alive, self)
  {
    hide Goes, Becomes;
    var n, m := |ledger| - 1, |next| - 1;
    if i == n {
      j := m;
    } else if Goes(ledger[n], compartment, alive, self) && Survives(ledger[..n], next, compartment, alive, self) {
      j := SurvivorOf(ledger[..n], next, compartment, alive, self, i);
    } else {
      j := SurvivorOf(ledger[..n], next[..m], compartment, alive, self, i);
    }
  }

  /** Dead owners lose their references; nobody else does. */
  lemma {:induction false} LiveReferences(owners: seq<Owner>, alive: set<string>, self: Option<string>, id: string)
    requires WellOwned(owners)
    ensures RefsOf(LiveOf(owners, alive, self), id) == if id in alive || self == Some(id) then RefsOf(owners, id) else 0
    decreases |owners|
  {
    if owners == [] {
      assert LiveOf(owners, alive, self) == [];
    } else {
      hide LiveOf, RefsOf, WellOwned, Owns;
      var n := |owners| - 1;
      var front, last := owners[..n], owners[n];
      assert owners == front + [last] && owners[..n + 1] == owners;
      LastOwner(front, last);
      LiveReferences(front, alive, self, id);
      LiveFacts(front, alive, self);
      LiveNext(owners, n, alive, self);
      RefsOfSnoc(front, last, id);
      RefsOfSnoc(LiveOf(front, alive, self), last, id);
      assert LiveOf(front, alive, self) + [] == LiveOf(front, alive, self);
    }
  }

  lemma LastOwner(owners: seq<Owner>, o: Owner)
    requires WellOwned(owners + [o])
    ensures WellOwned(owners) && RefsOf(owners, o.instance) == 0
  {
    var all := owners + [o];
    assert forall i :: 0 <= i < |owners| ==> owners[i] == all[i];
    assert all[|owners|] == o;
    NotOwned(owners, o.instance);
  }

  lemma {:induction false} RefsOfSnoc(owners: seq<Owner>, o: Owner, id: string)
    requires WellOwned(owners)
    ensures RefsOf(owners + [o], id) == if RefsOf(owners, id) > 0 then RefsOf(owners, id)
              else if o.instance == id then o.references else 0
  {
    if owners == [] {
      assert owners + [o] == [o] && [o][1..] == [];
    } else {
      assert (owners + [o])[1..] == owners[1..] + [o];
      RefsOfSnoc(owners[1..], o, id);
    }
  }

  /** Releasing takes one reference from this owner and none from any other; the
      record of the last one goes, with its route if it is managed. */
  ghost predicate Released(before: Ledger, durable: Ledger, kernel: Kernel, i: int, id: string)
    requires -1 <= i < |before|
  {
    i >= 0 ==>
      var owners := RemoveReference(before[i].owners, id);
      && durable == (if owners != [] then before[i := before[i].(owners := owners)] else Dropped(before, i))
      && (owners == [] && before[i].ownership == Managed ==> before[i].key !in kernel)
      && forall other :: RefsOf(owners, other) + (if other == id then 1 else 0) == RefsOf(before[i].owners, other)
  }

  lemma OneReferenceLess(owners: seq<Owner>, id: string)
    requires WellOwned(owners) && Owns(owners, id)
    ensures forall other ::
              RefsOf(RemoveReference(owners, id), other) + (if other == id then 1 else 0) == RefsOf(owners, other)
  {
    OwnerHasReferences(owners, id);
    forall other
      ensures RefsOf(RemoveReference(owners, id), other) + (if other == id then 1 else 0) == RefsOf(owners, other)
    {
      RemoveCounts(owners, id, other);
    }
  }

  lemma {:induction false} OwnerHasReferences(owners: seq<Owner>, id: string)
    requires WellOwned(owners) && Owns(owners, id)
    ensures RefsOf(owners, id) > 0
  {
    if owners[0].instance != id {
      var i :| 0 <= i < |owners| && owners[i].instance == id;
      assert owners[1..][i - 1].instance == id;
      OwnerHasReferences(owners[1..], id);
    }
  }

  // ---------- reconciling, record by record ----------

  /** m records looked at; what became of them comes first. */
  ghost predicate Halfway(next: Ledger, ledger: Ledger, m: nat, i: nat, compartment: nat, alive: set<string>,
      self: Option<string>) {
    && m <= |ledger| && i <= |next| && next[i..] == ledger[m..]
    && Survives(ledger[..m], next[..i], compartment, alive, self)
  }

  lemma HalfStarts(ledger: Ledger, compartment: nat, alive: set<string>, self: Option<string>)
    ensures Halfway(ledger, ledger, 0, 0, compartment, alive, self)
  {
  }

  lemma HalfFacts(next: Ledger, ledger: Ledger, m: nat, i: nat, compartment: nat, alive: set<string>,
      self: Option<string>)
    requires Halfway(next, ledger, m, i, compartment, alive, self) && i < |next|
    ensures m < |ledger| && next[i] == ledger[m]
  {
    assert next[i..][0] == next[i];
  }

  lemma BecomesSame(r: Record, compartment: nat, alive: set<string>, self: Option<string>)
    requires r.key.compartment != compartment
    ensures Becomes(r, r, compartment, alive, self) && InForce(r, compartment)
  {
  }

  lemma HalfKeeps(
    next: Ledger, after: Ledger, ledger: Ledger, m: nat, i: nat, compartment: nat, alive: set<string>,
        self: Option<string>)
    requires Halfway(next, ledger, m, i, compartment, alive, self) && m < |ledger| && i < |next| == |after|
    requires (forall j :: 0 <= j < |next| && j != i ==> after[j] == next[j])
               && Becomes(ledger[m], after[i], compartment, alive, self)
    ensures Halfway(after, ledger, m + 1, i + 1, compartment, alive, self)
  {
    hide Becomes, Goes;
    assert after[i + 1..] == next[i..][1..] && ledger[m + 1..] == ledger[m..][1..];
    assert after[..i + 1][..i] == next[..i] && ledger[..m + 1][..m] == ledger[..m];
  }

  lemma HalfDrops(
    next: Ledger, after: Ledger, ledger: Ledger, m: nat, i: nat, compartment: nat, alive: set<string>,
        self: Option<string>)
    requires Halfway(next, ledger, m, i, compartment, alive, self) && m < |ledger| && i < |next|
    requires after == Dropped(next, i) && Goes(ledger[m], compartment, alive, self)
    ensures Halfway(after, ledger, m + 1, i, compartment, alive, self)
  {
    hide Becomes, Goes;
    assert after[i..] == next[i..][1..] && ledger[m + 1..] == ledger[m..][1..];
    assert after[..i] == next[..i] && ledger[..m + 1][..m] == ledger[..m];
  }

  lemma HalfEnds(next: Ledger, ledger: Ledger, m: nat, i: nat, compartment: nat, alive: set<string>,
      self: Option<string>)
    requires Halfway(next, ledger, m, i, compartment, alive, self) && i >= |next|
    ensures Survives(ledger, next, compartment, alive, self)
  {
    assert next[..i] == next && next[i..] == [];
    assert ledger[..m] == ledger;
  }

  lemma LiveNone(alive: set<string>, self: Option<string>)
    ensures LiveOf([], alive, self) == []
  {
  }

  lemma {:induction false} LiveFacts(owners: seq<Owner>, alive: set<string>, self: Option<string>)
    requires WellOwned(owners)
    ensures var live := LiveOf(owners, alive, self);
            WellOwned(live) && Subset(live, owners) && |live| <= |owners| && (|live| == |owners| ==> live == owners)
  {
    if owners != [] {
      var n := |owners| - 1;
      LiveFacts(owners[..n], alive, self);
      assert owners == owners[..n] + [owners[n]];
      LiveOneMore(LiveOf(owners[..n], alive, self), owners[..n], owners[n]);
    }
  }

  lemma LiveOneMore(live: seq<Owner>, owners: seq<Owner>, o: Owner)
    requires WellOwned(owners + [o]) && WellOwned(live) && Subset(live, owners)
    ensures WellOwned(live + [o]) && Subset(live + [o], owners + [o]) && Subset(live, owners + [o])
  {
    assert (owners + [o])[|owners|] == o;
    forall i | 0 <= i < |live|
      ensures live[i].instance != o.instance
    {
      assert live[i] in live && live[i] in owners;
      var j :| 0 <= j < |owners| && owners[j] == live[i];
      assert (owners + [o])[j].instance != (owners + [o])[|owners|].instance;
    }
  }

  lemma LiveNext(owners: seq<Owner>, i: nat, alive: set<string>, self: Option<string>)
    requires i < |owners|
    ensures LiveOf(owners[..i + 1], alive, self) ==
            LiveOf(owners[..i], alive, self) + if Lives(owners[i], alive, self) then [owners[i]] else []
  {
    assert owners[..i + 1][..i] == owners[..i];
  }

  /** What repair leaves of a ledger: records lose their dead owners, and go with the
      last of them; records of other compartments stay. */
  function Spared(ledger: Ledger, compartment: nat, alive: set<string>): Ledger {
    if ledger == [] then []
    else
      var n := |ledger| - 1;
      var live := LiveOf(ledger[n].owners, alive, None);
      Spared(ledger[..n], compartment, alive)
      + if ledger[n].key.compartment != compartment then [ledger[n]]
        else if live == [] then []
        else [ledger[n].(owners := live)]
  }

  /** m records looked at; what is left of them comes first. */
  ghost predicate Repaired(next: Ledger, before: Ledger, m: nat, i: nat, compartment: nat, alive: set<string>) {
    && m <= |before| && i == |Spared(before[..m], compartment, alive)|
    && next == Spared(before[..m], compartment, alive) + before[m..]
  }

  lemma RepairStarts(before: Ledger, compartment: nat, alive: set<string>)
    ensures Repaired(before, before, 0, 0, compartment, alive)
  {
    assert before[..0] == [] && [] + before[0..] == before;
  }

  lemma RepairEnds(next: Ledger, before: Ledger, m: nat, i: nat, compartment: nat, alive: set<string>)
    requires Repaired(next, before, m, i, compartment, alive) && i >= |next|
    ensures next == Spared(before, compartment, alive)
  {
    assert before[..m] == before;
  }

  /** One more record looked at: it is kept as it is, without its dead owners, or not. */
  lemma RepairStep(next: Ledger, before: Ledger, m: nat, i: nat, compartment: nat, alive: set<string>)
    requires Repaired(next, before, m, i, compartment, alive) && i < |next|
    ensures var live := LiveOf(next[i].owners, alive, None);
            var less := next[i := next[i].(owners := live)];
            if next[i].key.compartment != compartment then Repaired(next, before, m + 1, i + 1, compartment, alive)
            else if live != [] then Repaired(less, before, m + 1, i + 1, compartment, alive)
            else Repaired(Dropped(less, i), before, m + 1, i, compartment, alive)
  {
    hide LiveOf;
    assert m < |before| && next[i] == before[m];
    assert before[..m + 1][..m] == before[..m];
    assert before[m..] == [before[m]] + before[m + 1..];
  }

  datatype Lease = Lease(endpoint: nat, key: Key, revision: nat)

  function References(ledger: Ledger, k: Key, id: string): nat {
    var i := IndexOf(ledger, k);
    if i < 0 then 0 else RefsOf(ledger[i].owners, id)
  }

  /** `id` has one reference more to the route, nobody else has any more or less, and
      no other record is touched. */
  ghost predicate Joined(before: Ledger, after: Ledger, k: Key, id: string) {
    var i := IndexOf(before, k);
    && |after| == (if i < 0 then |before| + 1 else |before|) && IndexOf(after, k) == (if i < 0 then |before| else i)
    && (forall j :: 0 <= j < |before| && j != i ==> after[j] == before[j])
    && (forall other :: References(after, k, other) == References(before, k, other) + if other == id then 1 else 0)
  }

  /** The ledger has the route in force at this revision, with `id` among its owners. */
  predicate Holds(ledger: Ledger, k: Key, id: string, revision: nat) {
    var i := IndexOf(ledger, k);
    i >= 0 && ledger[i].state == Active && Owns(ledger[i].owners, id) && ledger[i].revision == revision
  }

  lemma IndexUnique(ledger: Ledger, k: Key, i: nat)
    requires i < |ledger| && ledger[i].key == k && forall j :: 0 <= j < i ==> ledger[j].key != k
    ensures IndexOf(ledger, k) == i
  {
  }

  lemma ReferencesUpdated(ledger: Ledger, i: nat, record: Record, id: string)
    requires i < |ledger| && i == IndexOf(ledger, record.key) && record.state == Active
    requires record.owners == AddReference(ledger[i].owners, id) && Owns(record.owners, id)
    ensures Holds(ledger[i := record], record.key, id, record.revision)
    ensures Joined(ledger, ledger[i := record], record.key, id)
  {
    IndexUnique(ledger[i := record], record.key, i);
    forall other: string
      ensures RefsOf(record.owners, other) == RefsOf(ledger[i].owners, other) + if other == id then 1 else 0
    {
      AddCounts(ledger[i].owners, id, other);
    }
  }

  lemma ReferencesAppended(ledger: Ledger, record: Record, id: string)
    requires IndexOf(ledger, record.key) < 0 && record.state == Active && record.owners == [Owner(id, 1)]
    ensures Holds(ledger + [record], record.key, id, record.revision)
    ensures Joined(ledger, ledger + [record], record.key, id)
  {
    IndexUnique(ledger + [record], record.key, |ledger|);
    assert record.owners[0].instance == id && record.owners[1..] == [];
    assert forall other :: RefsOf(record.owners, other) == (if other == id then 1 else 0);
  }

  lemma HonestAppend(ledger: Ledger, kernel: Kernel, r: Record)
    requires AllHonest(ledger, kernel) && Honest(r, kernel)
    ensures AllHonest(ledger + [r], kernel)
  {
  }

  /** Every one of `live` is among the owners. */
  ghost predicate Subset(live: seq<Owner>, owners: seq<Owner>) {
    forall o :: o in live ==> o in owners
  }

  lemma RecordHonest(ledger: Ledger, kernel: Kernel, i: nat)
    requires Coherent(ledger, kernel) && i < |ledger|
    ensures Honest(ledger[i], kernel) && WellOwned(ledger[i].owners)
  {
  }

  predicate Claimed(ledger: Ledger, k: Key) {
    exists i :: 0 <= i < |ledger| && Proven(ledger[i]) && ledger[i].key == k
  }

  /** OWNERSHIP SAFETY OVER WHOLE RUNS.  Any number of processes use the ledger in
      turn, any of their calls fails or is cut short by a crash, and others change
      the kernel's routes in between: no route of theirs is ever deleted. */
  method Run(host: Host, steps: nat)
    requires host.Safe()
    modifies host
    ensures host.Safe()
    ensures forall i :: 0 <= i < |host.deleted| ==> host.deleted[i] != Some(Others)
  {
    var left := steps;
    while left > 0
      invariant host.Safe()
    {
      var which: nat, id: string, tunnel: nat, endpoint: nat, k: Key, lease: Lease := *, *, *, *, *, *;
      var process := new Manager(host, id, tunnel);
      if which == 0 {
        var _, _, _ := process.AcquireEndpointRoute(endpoint);
      } else if which == 1 {
        var _, _ := process.Release(endpoint);
      } else if which == 2 {
        var _, _, _, _ := process.Refresh(lease);
      } else if which == 3 {
        var _, _ := process.ReconcileAbandoned();
      } else if which == 4 && !Claimed(host.durable, k) {
        host.OthersCreate(k);
      } else if which == 5 {
        host.OthersDelete(k);
      } else if which == 6 {
        host.Damage();
      } else {
        host.alive := *;
      }
      left := left - 1;
    }
  }
}
