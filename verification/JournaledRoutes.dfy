/** A journal written around every phase of a peer-route transaction, and the
    recovery that a later process performs from whatever the journal says. */
module JournaledRoutes {
  import opened Wrappers
  import opened PeerRoutes

  datatype Phase = Prepared | Removing | Removed | Adding | Committed | RollingBackAdditions | RollingBackRemovals
      | Active

  datatype Record = Record(
    identity: nat,                      // of the tunnel and its interface
    phase: Phase, before: seq<Prefix>, after: seq<Prefix>, removalsApplied: bool, additionsApplied: bool)

  /** The journal says that all additions were applied. */
  predicate Complete(d: Record) {
    d.additionsApplied || d.phase == Committed
  }

  /** The routes recovery may delete. */
  function Provable(d: Record, adopted: set<Prefix>, force: bool): set<Prefix> {
    Of(d.before) + if Complete(d) || force then Of(d.after) else Of(d.after) * adopted
  }

  class Journal {
    const identity: nat
    var durable: Option<Record>
    var memory: Option<Record>
    var retained: nat

    constructor (identity: nat)
      ensures this.identity == identity && durable == None && memory == None
    {
      this.identity, durable, memory, retained := identity, None, None, 0;
    }

    method Save(d: Record) returns (r: Completion)
      modifies this`durable, this`memory
      ensures durable == Some(d) || durable == old(durable)
      ensures r == Done ==> durable == Some(d) && memory == Some(d)
      ensures r != Done ==> memory == old(memory)
    {
      var written: bool, complains: bool, crashes: bool := *, *, *;
      if written {
        durable := Some(d);
      }
      r := if crashes then Crashed else if written && !complains then Done else Failed;
      if r == Done {
        memory := Some(d);
      }
    }

    method Begin(before: seq<Prefix>, after: seq<Prefix>) returns (r: Completion)
      modifies this`durable, this`memory
      ensures durable == old(durable) || durable == Some(Record(identity, Prepared, before, after, false, false))
      ensures r == Done ==> durable == memory == Some(Record(identity, Prepared, before, after, false, false))
      ensures r != Done ==> memory == old(memory)
    {
      r := Save(Record(identity, Prepared, before, after, false, false));
    }

    method Mark(phase: Phase, removalsApplied: bool, additionsApplied: bool) returns (r: Completion)
      modifies this`durable, this`memory
      ensures memory.None? ==> r == Failed && durable == old(durable)
      ensures old(memory).Some? ==>
                var d := old(memory).value.(phase := phase, removalsApplied := removalsApplied,
                    additionsApplied := additionsApplied);
                && (durable == old(durable) || durable == Some(d))
                && (r == Done ==> durable == Some(d) && memory == Some(d))
      ensures r != Done ==> memory == old(memory)
    {
      if memory.None? {
        return Failed;
      }
      r := Save(memory.value.(phase := phase, removalsApplied := removalsApplied,
          additionsApplied := additionsApplied));
    }

    method SetActive(prefixes: seq<Prefix>) returns (r: Completion)
      modifies this`durable, this`memory
      ensures durable == old(durable) || durable == Some(Record(identity, Active, prefixes, prefixes, false, false))
      ensures r == Done ==> durable == memory == Some(Record(identity, Active, prefixes, prefixes, false, false))
      ensures r != Done ==> memory == old(memory)
    {
      r := Save(Record(identity, Active, prefixes, prefixes, false, false));
    }

    /** Recovery after a crash: what the journal proves goes, what it cannot prove
        stays and is counted. */
    method Recover(table: Table, adopted: set<Prefix>, force: bool) returns (r: Completion)
      modifies this, table
      ensures table.routes <= old(table.routes) && (durable == old(durable) || durable.None?)
      ensures old(durable).None? ==> table.routes == old(table.routes) && retained == old(retained)
      ensures old(durable).Some? ==> old(table.routes) - table.routes <= Provable(old(durable).value, adopted, force)
      ensures old(durable).Some? && old(durable).value.identity != identity ==>
                && table.routes == old(table.routes)
                && (r == Done ==>
                      retained == old(retained) + |Of(old(durable).value.before) + Of(old(durable).value.after)|)
      ensures r == Done ==> durable.None?
      ensures durable.None? && old(durable).Some? && old(durable).value.identity == identity ==>
                var d := old(durable).value;
                && table.routes == old(table.routes) - Provable(d, adopted, force)
                && retained == old(retained) + |old(table.routes) * Of(d.after) - Provable(d, adopted, force)|
    {
      var fails: bool, crashes: bool := *, *;
      if fails || crashes {
        return if crashes then Crashed else Failed;
      }
      if durable.None? {
        memory := None;
        return Done;
      }
      var d := durable.value;
      memory := durable;
      if d.identity != identity {
        retained := retained + |Of(d.before) + Of(d.after)|;
        r := Forget();
        return;
      }
      var unproven;
      r, unproven := FindUnproven(table, d, adopted, force);
      retained := retained + |unproven|;
      if r != Done {
        return;
      }
      r := DeleteProven(table, Provable(d, adopted, force));
      if r == Done {
        r := Forget();
      }
    }

    /** A new process starts with an empty memory and nothing counted. */
    method Restart()
      modifies this`memory, this`retained
      ensures memory == None && retained == 0
    {
      memory, retained := None, 0;
    }

    method Forget() returns (r: Completion)
      modifies this`durable, this`memory
      ensures (durable == old(durable) || durable.None?) && (r == Done ==> durable.None?)
    {
      var works: bool, crashes: bool := *, *;
      if works {
        durable, memory := None, None;
      }
      r := if crashes then Crashed else if works then Done else Failed;
    }

    /** The additions that are there without proof of who made them. */
    method FindUnproven(table: Table, d: Record, adopted: set<Prefix>, force: bool)
        returns (r: Completion, unproven: set<Prefix>)
      ensures r == Done ==> unproven == table.routes * Of(d.after) - Provable(d, adopted, force)
    {
      unproven := {};
      var i := 0;
      OfIn(d.before);
      while i < |d.after|
        invariant 0 <= i <= |d.after|
        invariant unproven == table.routes * Of(d.after[..i]) - Provable(d, adopted, force)
      {
        var p := d.after[i];
        OfSnoc(d.after, i);
        OfIn(d.after);
        if !(p in d.before || Complete(d) || p in adopted || force) {
          var fails: bool, crashes: bool := *, *;
          if fails || crashes {
            return if crashes then Crashed else Failed, unproven;
          }
          if p in table.routes {
            unproven := unproven + {p};
          }
        }
        i := i + 1;
      }
      assert d.after[..i] == d.after;
      r := Done;
    }

    method DeleteProven(table: Table, proven: set<Prefix>) returns (r: Completion)
      modifies table
      ensures table.routes <= old(table.routes) && old(table.routes) - table.routes <= proven
      ensures r == Done ==> table.routes == old(table.routes) - proven
    {
      var left := proven;
      while left != {}
        invariant left <= proven && table.routes <= old(table.routes)
        invariant old(table.routes) - table.routes <= proven && table.routes * (proven - left) == {}
        decreases |left|
      {
        var p :| p in left;
        var fails: bool, crashes: bool := *, *;
        if fails || crashes {
          return if crashes then Crashed else Failed;
        }
        if p in table.routes {
          ghost var took;
          r, took := table.Delete(p);
          if r != Done {
            return;
          }
        }
        left := left - {p};
      }
      assert proven - left == proven;
      r := Done;
    }
  }

  // ---------- the journaled transaction ----------

  /** What a transaction from `before` to `after` changes. */
  ghost predicate Projects(before: seq<Prefix>, after: seq<Prefix>, removals: seq<Prefix>, additions: seq<Prefix>) {
    && Of(removals) <= Of(before) && Of(additions) !! Of(before)
    && Of(after) == Of(before) - Of(removals) + Of(additions)
  }

  /** What the journal may say when the table stands at `at`. */
  ghost predicate Logged(d: Record, before: seq<Prefix>, after: seq<Prefix>, additions: seq<Prefix>,
      removals: seq<Prefix>, at: Progress) {
    || (d.before == before && d.after == after && (Complete(d) ==> at.everAdded == |additions|))
    || (d.before == before && d.after == before && at.removed == 0 && at.added == 0)
    || (d.before == after && d.after == after && at.removed == |removals| && at.added == |additions|)
  }

  class JournaledTransaction {
    const manager: RouteManager
    const journal: Journal
    const inner: PreparedRoutes
    const before: seq<Prefix>
    const after: seq<Prefix>
    var removalsApplied: bool
    var additionsApplied: bool
    var completed: bool

    constructor (manager: RouteManager, journal: Journal, inner: PreparedRoutes, before: seq<Prefix>,
        after: seq<Prefix>)
      requires inner.Valid() && Projects(before, after, inner.removals, inner.additions)
      requires journal.durable.Some? && journal.memory == journal.durable
      requires journal.durable.value == Record(journal.identity, Prepared, before, after, false, false)
      ensures Valid() && this.manager == manager && this.journal == journal && this.inner == inner
                && this.before == before && this.after == after && !completed
    {
      this.manager, this.journal, this.inner, this.before, this.after := manager, journal, inner, before, after;
      removalsApplied, additionsApplied, completed := false, false, false;
    }

    /** True at every moment, also right after a crash. */
    ghost predicate Recoverable()
      reads this, inner, inner.table, journal
    {
      && inner.Placed() && Projects(before, after, inner.removals, inner.additions)
      && journal.durable.Some? && journal.durable.value.identity == journal.identity
      && Logged(journal.durable.value, before, after, inner.additions, inner.removals, inner.at)
    }

    ghost predicate Valid()
      reads this, inner, inner.table, journal
    {
      && Recoverable() && inner.Valid()
      && (additionsApplied ==> inner.at.everAdded == |inner.additions|)
      && (!completed ==>
            && journal.memory.Some? && journal.memory.value.before == before && journal.memory.value.after == after
            && journal.memory.value.identity == journal.identity)
    }

    method CommitRemovals() returns (r: Completion)
      requires Valid()
      modifies this, inner, inner.table, journal
      ensures Recoverable() && (r != Crashed ==> Valid()) && completed == old(completed)
      ensures r == Done && !completed && !old(removalsApplied) ==>
                && removalsApplied && inner.at.removed == |inner.removals|
                && journal.durable == Some(Record(journal.identity, Removed, before, after, true, false))
    {
      hide Stands, Projects;
      if completed || removalsApplied {
        return Done;
      }
      r := journal.Mark(Removing, false, false);
      if r != Done {
        return;
      }
      r := inner.CommitRemovals();
      if r != Done {
        return;
      }
      removalsApplied := true;
      r := journal.Mark(Removed, true, false);
    }

    method CommitAdditions() returns (r: Completion)
      requires Valid()
      modifies this, inner, inner.table, journal
      ensures Recoverable() && (r != Crashed ==> Valid()) && completed == old(completed)
      ensures !completed && !old(additionsApplied) && !removalsApplied ==> r == Failed
      ensures r == Done && !completed && !old(additionsApplied) ==>
                && additionsApplied && inner.at.removed == |inner.removals| && inner.at.added == |inner.additions|
                && journal.durable == Some(Record(journal.identity, Committed, before, after, true, true))
    {
      hide Stands, Projects;
      if completed || additionsApplied {
        return Done;
      }
      if !removalsApplied {
        return Failed;
      }
      r := journal.Mark(Adding, true, false);
      if r != Done {
        return;
      }
      r := inner.CommitAdditions();
      if r != Done {
        return;
      }
      additionsApplied := true;
      r := journal.Mark(Committed, true, true);
    }

    method RollbackAdditions() returns (r: Completion)
      requires Valid()
      modifies this, inner, inner.table, journal
      ensures Recoverable() && (r != Crashed ==> Valid()) && completed == old(completed)
      ensures r == Done && !completed ==>
                && inner.at.added == 0 && !additionsApplied
                && journal.durable == Some(Record(journal.identity, RollingBackRemovals, before, after,
                   removalsApplied, false))
    {
      hide Stands, Projects;
      if completed {
        return Done;
      }
      r := journal.Mark(RollingBackAdditions, removalsApplied, additionsApplied);
      if r != Done {
        return;
      }
      r := inner.RollbackAdditions();
      if r != Done {
        return;
      }
      additionsApplied := false;
      r := journal.Mark(RollingBackRemovals, removalsApplied, false);
    }

    method RollbackRemovals() returns (r: Completion)
      requires Valid()
      modifies this, inner, inner.table, journal, manager
      ensures Recoverable() && (r != Crashed ==> Valid())
      ensures !old(completed) && r == Done ==>
                && completed && manager.current == before && !manager.inFlight && inner.rolledBack
                && journal.durable == Some(Record(journal.identity, Active, before, before, false, false))
                && (inner.table.routes == inner.start <==> Fits(inner.start, inner.removals, inner.additions, inner.at))
    {
      hide Stands, Projects, Fits;
      if completed {
        return Done;
      }
      if additionsApplied {
        return Failed;
      }
      r := journal.Mark(RollingBackRemovals, removalsApplied, false);
      if r != Done {
        return;
      }
      r := inner.RollbackRemovals();
      if r != Done {
        return;
      }
      RolledBackTable(inner.table.routes, inner.start, inner.removals, inner.additions, inner.at);
      r := journal.SetActive(before);
      if r != Done {
        return;
      }
      removalsApplied := false;
      completed := true;
      manager.current, manager.inFlight := before, false;
    }

    method Rollback() returns (r: Completion)
      requires Valid()
      modifies this, inner, inner.table, journal, manager
      ensures Recoverable() && (r != Crashed ==> Valid())
      ensures !old(completed) && r == Done ==>
                && completed && manager.current == before && !manager.inFlight && inner.rolledBack
                && journal.durable == Some(Record(journal.identity, Active, before, before, false, false))
                && (inner.table.routes == inner.start <==> Fits(inner.start, inner.removals, inner.additions, inner.at))
    {
      r := RollbackAdditions();
      if r == Done {
        r := RollbackRemovals();
      }
    }

    method Finalize() returns (r: Completion)
      requires Valid()
      modifies this, inner, inner.table, journal, manager
      ensures Recoverable() && (r != Crashed ==> Valid())
      ensures !old(completed) && r == Done ==>
                && completed && manager.current == after && !manager.inFlight
                && journal.durable == Some(Record(journal.identity, Active, after, after, false, false))
                && inner.table.routes == inner.start - Of(inner.removals) + Of(inner.additions)
    {
      hide Stands, Projects;
      if completed {
        return Done;
      }
      if !removalsApplied || !additionsApplied {
        return Failed;
      }
      r := inner.Finalize();
      if r != Done {
        return;
      }
      r := journal.SetActive(after);
      if r != Done {
        return;
      }
      completed := true;
      manager.current, manager.inFlight := after, false;
    }
  }

  /** RECOVERY FROM ANY CRASH POINT, with nothing adopted and nothing forced: no
      route of the old projection is left; of the additions none is left if the
      journal proves them, and otherwise all that are there; nothing else changes. */
  lemma RecoveredTable(
    table: set<Prefix>, start: set<Prefix>, rs: seq<Prefix>, as_: seq<Prefix>, at: Progress,
    d: Record, before: seq<Prefix>, after: seq<Prefix>)
    requires Disjoint(rs, as_) && Within(at, rs, as_) && Stands(table, start, rs, as_, at)
    requires Projects(before, after, rs, as_) && Logged(d, before, after, as_, rs, at)
    ensures var left := table - Provable(d, {}, false);
            && left !! Of(before)
            && left == (start - Of(before) - Of(as_))
               + (if Of(as_) <= Provable(d, {}, false) then {} else table * Of(as_))
    ensures start !! Of(as_) ==> table * Of(as_) == Of(as_[..at.added])
    ensures Complete(d) && d.after == after ==> Of(as_) <= Provable(d, {}, false)
  {
  }

  /** The journal announces the plan, with nothing done yet. */
  ghost predicate Begun(journal: Journal, before: seq<Prefix>, plan: Plan)
    reads journal
  {
    && journal.durable.Some?
    && var d := journal.durable.value;
       && d == Record(journal.identity, Prepared, before, d.after, false, false)
       && Of(d.after) == Of(before) - Of(plan.removals) + Of(plan.additions)
  }

  class RouteManager {
    const table: Table
    const journal: Journal
    var current: seq<Prefix>
    var inFlight: bool

    constructor (table: Table, journal: Journal, initial: seq<Prefix>)
      ensures this.table == table && this.journal == journal && current == initial && !inFlight
    {
      this.table, this.journal, current, inFlight := table, journal, initial, false;
    }

    /** The projection after the plan; refused unless it removes what is active and
        adds what is not. */
    method ApplyPlan(removals: seq<Prefix>, additions: seq<Prefix>) returns (r: Option<seq<Prefix>>)
      requires Distinct(removals) && Distinct(additions) && Disjoint(removals, additions)
      ensures r.None? <==> !(Of(removals) <= Of(current) && Of(additions) !! Of(current))
      ensures r.Some? ==> Ascending(r.value) && Projects(current, r.value, removals, additions)
    {
      OfIn(current);
      OfIn(removals);
      OfIn(additions);
      var projection := Of(current);
      var i := 0;
      while i < |removals|
        invariant 0 <= i <= |removals| && projection == Of(current) - Of(removals[..i])
                    && Of(removals[..i]) <= Of(current)
      {
        OfSnoc(removals, i);
        if removals[i] !in projection {
          assert removals[i] in removals;
          return None;
        }
        projection := projection - {removals[i]};
        i := i + 1;
      }
      assert removals[..i] == removals;
      i := 0;
      while i < |additions|
        invariant 0 <= i <= |additions|
        invariant projection == Of(current) - Of(removals) + Of(additions[..i]) && Of(additions[..i]) !! Of(current)
      {
        OfSnoc(additions, i);
        assert additions[i] in additions;
        if additions[i] in projection {
          return None;
        }
        projection := projection + {additions[i]};
        i := i + 1;
      }
      assert additions[..i] == additions;
      var result := Sorted(projection);
      r := Some(result);
    }

    /** Writes the journal before anything changes. */
    method Prepare(id: string, plan: Plan) returns (r: Completion, tx: JournaledTransaction?)
      modifies this`inFlight, journal
      ensures r == Done <==> tx != null
      ensures r == Done ==>
                && fresh(tx) && fresh(tx.inner) && tx.Valid() && !tx.completed && tx.manager == this
                   && tx.journal == journal && tx.inner.table == table
                && tx.before == current && tx.inner.start == table.routes && id != "" && !old(inFlight) && inFlight
                && Of(tx.inner.removals) == Of(plan.removals) && Of(tx.inner.additions) == Of(plan.additions)
      ensures r != Done ==>
                inFlight == old(inFlight) && (journal.durable == old(journal.durable) || Begun(journal, current, plan))
    {
      tx := null;
      if id == "" {
        return Failed, null;
      }
      var lists := PreparePlan(plan);
      if lists.None? || inFlight {
        return Failed, null;
      }
      var after := ApplyPlan(lists.value.removals, lists.value.additions);
      if after.None? {
        return Failed, null;
      }
      r := journal.Begin(current, after.value);
      if r != Done {
        return;
      }
      inFlight := true;
      var inner := new PreparedRoutes(table, lists.value.removals, lists.value.additions);
      tx := new JournaledTransaction(this, journal, inner, current, after.value);
    }
  }

  method Sorted(ps: set<Prefix>) returns (r: seq<Prefix>)
    ensures Ascending(r) && Of(r) == ps
  {
    r := [];
    var left := ps;
    while left != {}
      invariant left <= ps && Ascending(r) && Of(r) == ps - left
      decreases |left|
    {
      var p :| p in left;
      OfIn(r);
      InsertedOf(r, p);
      InsertedAscending(r, p);
      r := Inserted(r, p);
      left := left - {p};
    }
  }

  /** Any calls on a transaction, in any order, until a crash or the end. */
  method RunTransaction(tx: JournaledTransaction, calls: nat) returns (crashed: bool)
    requires tx.Valid()
    modifies tx, tx.inner, tx.inner.table, tx.journal, tx.manager
    ensures tx.Recoverable() && (!crashed ==> tx.Valid())
  {
    var left := calls;
    while left > 0
      invariant tx.Valid()
    {
      hide JournaledTransaction.Recoverable, PreparedRoutes.Valid, Fits;
      var which: nat := *;
      var r;
      match which {
        case 0 => r := tx.CommitRemovals();
        case 1 => r := tx.CommitAdditions();
        case 2 => r := tx.RollbackAdditions();
        case 3 => r := tx.RollbackRemovals();
        case _ => r := tx.Finalize();
      }
      if r == Crashed {
        return true;
      }
      left := left - 1;
    }
    crashed := false;
  }

  /** The next process recovers from wherever the run stopped. */
  method RecoverTransaction(tx: JournaledTransaction) returns (r: Completion)
    requires tx.Recoverable()
    modifies tx.inner.table, tx.journal
    ensures var proven := Provable(old(tx.journal.durable).value, {}, false);
            && old(tx.inner.table.routes) - tx.inner.table.routes <= proven
            && (r == Done ==>
                  && tx.journal.retained == old(tx.journal.retained)
                     + |old(tx.inner.table.routes) * Of(old(tx.journal.durable).value.after) - proven|
                  && tx.inner.table.routes !! Of(tx.before)
                  && tx.inner.table.routes ==
                     (tx.inner.start - Of(tx.before) - Of(tx.inner.additions))
                     + (if Of(tx.inner.additions) <= proven then {}
                         else old(tx.inner.table.routes) * Of(tx.inner.additions)))
  {
    hide Stands, Projects, Provable, Logged;
    RecoveredTable(tx.inner.table.routes, tx.inner.start, tx.inner.removals, tx.inner.additions, tx.inner.at,
                   tx.journal.durable.value, tx.before, tx.after);
    r := tx.journal.Recover(tx.inner.table, {}, false);
  }

  /** What a process that found this journal counts as kept. */
  ghost function Retained(found: Option<Record>, table: set<Prefix>): nat {
    if found.None? then 0 else |table * Of(found.value.after) - Provable(found.value, {}, false)|
  }

  /** Where recovery from the record `d` may have got to. */
  ghost predicate Underway(d: Record, was: set<Prefix>, durable: Option<Record>, routes: set<Prefix>) {
    && (durable == Some(d) || durable == None)
    && was - Provable(d, {}, false) <= routes <= was
    && (durable.None? ==> routes == was - Provable(d, {}, false))
  }

  /** A new process takes recovery up. */
  method RecoverOnce(journal: Journal, table: Table, ghost d: Record, ghost was: set<Prefix>) returns (r: Completion)
    requires d.identity == journal.identity && Underway(d, was, journal.durable, table.routes)
    modifies journal, table
    ensures Underway(d, was, journal.durable, table.routes)
    ensures r == Done ==> journal.durable.None? && journal.retained == Retained(old(journal.durable), was)
  {
    hide Provable;
    assert table.routes * Of(d.after) - Provable(d, {}, false) == was * Of(d.after) - Provable(d, {}, false);
    journal.Restart();
    r := journal.Recover(table, {}, false);
  }

  /** Recovery is cut short any number of times, each time taken up by a new process.
      In the end the table is as if it had gone through at once.  The last process has
      counted every unproven route, unless the journal was gone before it began. */
  method RecoverRepeatedly(tx: JournaledTransaction, processes: nat)
    returns (r: Completion, ghost found: seq<Option<Record>>)
    requires tx.Recoverable()
    modifies tx.inner.table, tx.journal
    ensures |found| <= processes && (found != [] ==> found[0] == old(tx.journal.durable))
    ensures Underway(old(tx.journal.durable).value, old(tx.inner.table.routes), tx.journal.durable,
              tx.inner.table.routes)
    ensures r == Done ==>
              var proven := Provable(old(tx.journal.durable).value, {}, false);
              && found != [] && (found[|found| - 1] == old(tx.journal.durable) || found[|found| - 1] == None)
              && tx.journal.retained == Retained(found[|found| - 1], old(tx.inner.table.routes))
              && tx.inner.table.routes !! Of(tx.before)
              && tx.inner.table.routes ==
                 (tx.inner.start - Of(tx.before) - Of(tx.inner.additions))
                 + (if Of(tx.inner.additions) <= proven then {}
                     else old(tx.inner.table.routes) * Of(tx.inner.additions))
  {
    hide Stands, Projects, Provable, Logged, Retained;
    ghost var d, was := tx.journal.durable.value, tx.inner.table.routes;
    RecoveredTable(was, tx.inner.start, tx.inner.removals, tx.inner.additions, tx.inner.at, d, tx.before, tx.after);
    r, found := Failed, [];
    var left := processes;
    while r != Done && left > 0
      invariant |found| + left == processes && Underway(d, was, tx.journal.durable, tx.inner.table.routes)
      invariant if found == [] then tx.journal.durable == Some(d) else found[0] == Some(d)
      invariant r == Done ==>
                  && found != [] && tx.journal.durable.None?
                     && (found[|found| - 1] == Some(d) || found[|found| - 1] == None)
                  && tx.journal.retained == Retained(found[|found| - 1], was)
      decreases left
    {
      found, left := found + [tx.journal.durable], left - 1;
      r := RecoverOnce(tx.journal, tx.inner.table, d, was);
    }
  }
}
