/** Peer routes are changed by a list of removals and a list of additions, each
    applied and undone one command at a time. */
module PeerRoutes {
  import opened Wrappers

  /** Prefixes, numbered in canonical order. */
  type Prefix = nat

  predicate Distinct(ps: seq<Prefix>) {
    forall i, j :: 0 <= i < j < |ps| ==> ps[i] != ps[j]
  }

  predicate Disjoint(a: seq<Prefix>, b: seq<Prefix>) {
    forall i, j :: 0 <= i < |a| && 0 <= j < |b| ==> a[i] != b[j]
  }

  function Of(ps: seq<Prefix>): set<Prefix> {
    set i | 0 <= i < |ps| :: ps[i]
  }

  /** The host's routes through the tunnel. */
  class Table {
    var routes: set<Prefix>

    constructor (routes: set<Prefix>)
      ensures this.routes == routes
    {
      this.routes := routes;
    }

    method Add(p: Prefix) returns (r: Completion, ghost took: bool)
      modifies this
      ensures routes == if took then old(routes) + {p} else old(routes)
      ensures (r == Done ==> took) && (r == Failed ==> !took)
    {
      var works: bool, crashes: bool := *, *;
      took := works;
      if works {
        routes := routes + {p};
      }
      r := if crashes then Crashed else if works then Done else Failed;
    }

    method Delete(p: Prefix) returns (r: Completion, ghost took: bool)
      modifies this
      ensures routes == if took then old(routes) - {p} else old(routes)
      ensures (r == Done ==> took) && (r == Failed ==> !took)
    {
      var works: bool, crashes: bool := *, *;
      took := works;
      if works {
        routes := routes - {p};
      }
      r := if crashes then Crashed else if works then Done else Failed;
    }
  }

  // ---------- where a transaction stands ----------

  /** How far removals and additions are applied now, and how far they ever were. */
  datatype Progress = Progress(removed: nat, added: nat, everRemoved: nat, everAdded: nat)

  ghost predicate Within(at: Progress, removals: seq<Prefix>, additions: seq<Prefix>) {
    at.removed <= at.everRemoved <= |removals| && at.added <= at.everAdded <= |additions|
  }

  /** A route that was ever added is there while its addition is applied; one that was
      ever removed is there while its removal is not; any other is as at the start. */
  ghost predicate Stands(table: set<Prefix>, start: set<Prefix>, removals: seq<Prefix>, additions: seq<Prefix>,
      at: Progress)
    requires Within(at, removals, additions)
  {
    forall p: Prefix ::
      p in table <==>
      if p in additions[..at.everAdded] then p in additions[..at.added]
      else if p in removals[..at.everRemoved] then p !in removals[..at.removed]
      else p in start
  }

  function Max(a: nat, b: nat): nat {
    if a < b then b else a
  }

  function Removed(at: Progress): Progress {
    at.(removed := at.removed + 1, everRemoved := Max(at.everRemoved, at.removed + 1))
  }

  function Added(at: Progress): Progress {
    at.(added := at.added + 1, everAdded := Max(at.everAdded, at.added + 1))
  }

  lemma RemoveStep(table: set<Prefix>, start: set<Prefix>, rs: seq<Prefix>, as_: seq<Prefix>, at: Progress)
    requires Distinct(rs) && Distinct(as_) && Disjoint(rs, as_) && Within(at, rs, as_) && at.removed < |rs|
    requires Stands(table, start, rs, as_, at)
    ensures Within(Removed(at), rs, as_) && Stands(table - {rs[at.removed]}, start, rs, as_, Removed(at))
  {
  }

  lemma UnremoveStep(table: set<Prefix>, start: set<Prefix>, rs: seq<Prefix>, as_: seq<Prefix>, at: Progress)
    requires Distinct(rs) && Distinct(as_) && Disjoint(rs, as_) && Within(at, rs, as_) && at.removed > 0
    requires Stands(table, start, rs, as_, at)
    ensures Stands(table + {rs[at.removed - 1]}, start, rs, as_, at.(removed := at.removed - 1))
  {
  }

  lemma AddStep(table: set<Prefix>, start: set<Prefix>, rs: seq<Prefix>, as_: seq<Prefix>, at: Progress)
    requires Distinct(rs) && Distinct(as_) && Disjoint(rs, as_) && Within(at, rs, as_) && at.added < |as_|
    requires Stands(table, start, rs, as_, at)
    ensures Within(Added(at), rs, as_) && Stands(table + {as_[at.added]}, start, rs, as_, Added(at))
  {
  }

  lemma UnaddStep(table: set<Prefix>, start: set<Prefix>, rs: seq<Prefix>, as_: seq<Prefix>, at: Progress)
    requires Distinct(rs) && Distinct(as_) && Disjoint(rs, as_) && Within(at, rs, as_) && at.added > 0
    requires Stands(table, start, rs, as_, at)
    ensures Stands(table - {as_[at.added - 1]}, start, rs, as_, at.(added := at.added - 1))
  {
  }

  // ---------- what that means ----------

  /** The plan changes only what it says it changes: it removes present routes and
      adds absent ones, as far as it ever got. */
  ghost predicate Fits(start: set<Prefix>, removals: seq<Prefix>, additions: seq<Prefix>, at: Progress)
    requires Within(at, removals, additions)
  {
    && (forall p :: p in removals[..at.everRemoved] ==> p in start)
    && (forall p :: p in additions[..at.everAdded] ==> p !in start)
  }

  /** What was removed and put back was there at the start, and what was added and
      taken back was not. */
  ghost predicate UndoneFits(start: set<Prefix>, removals: seq<Prefix>, additions: seq<Prefix>, at: Progress)
    requires Within(at, removals, additions)
  {
    && (forall p :: p in removals[at.removed..at.everRemoved] ==> p in start)
    && (forall p :: p in additions[at.added..at.everAdded] ==> p !in start)
  }

  /** The host table is the start, less the applied removals, plus the applied
      additions, if and only if what was undone fitted the start. */
  lemma FittingTable(table: set<Prefix>, start: set<Prefix>, rs: seq<Prefix>, as_: seq<Prefix>, at: Progress)
    requires Distinct(rs) && Distinct(as_) && Disjoint(rs, as_)
    requires Within(at, rs, as_) && Stands(table, start, rs, as_, at)
    ensures table == start - Of(rs[..at.removed]) + Of(as_[..at.added]) <==> UndoneFits(start, rs, as_, at)
  {
    var target := start - Of(rs[..at.removed]) + Of(as_[..at.added]);
    SplitPrefix(rs, at.removed, at.everRemoved);
    SplitPrefix(as_, at.added, at.everAdded);
    if UndoneFits(start, rs, as_, at) {
      assert forall p :: p in table <==> p in target;
    }
    if table == target {
      forall p | p in rs[at.removed..at.everRemoved]
        ensures p in start
      {
        assert p in target;
      }
      forall p | p in as_[at.added..at.everAdded]
        ensures p !in start
      {
        assert p !in target;
      }
    }
  }

  /** A prefix of a plan is what is applied and what was undone, and no route is in both. */
  lemma SplitPrefix(ps: seq<Prefix>, n: nat, m: nat)
    requires Distinct(ps) && n <= m <= |ps|
    ensures forall p :: p in ps[..m] <==> p in ps[..n] || p in ps[n..m]
    ensures forall p :: !(p in ps[..n] && p in ps[n..m])
  {
    assert ps[..m] == ps[..n] + ps[n..m];
    forall p | p in ps[..n]
      ensures p !in ps[n..m]
    {
    }
  }

  lemma OfIn(ps: seq<Prefix>)
    ensures forall p :: p in Of(ps) <==> p in ps
  {
  }

  /** Rolling back gives back the start if and only if the plan fitted it. */
  lemma RolledBackTable(table: set<Prefix>, start: set<Prefix>, rs: seq<Prefix>, as_: seq<Prefix>, at: Progress)
    requires Disjoint(rs, as_) && Within(at, rs, as_) && Stands(table, start, rs, as_, at) && at.removed == 0
               && at.added == 0
    ensures table == start <==> Fits(start, rs, as_, at)
  {
  }

  /** A removal that takes effect on nothing is put back by the rollback all the same. */
  lemma UnfitRollback(p: Prefix)
    ensures var at := Progress(0, 0, 1, 0);
            Within(at, [p], []) && Stands({p}, {}, [p], [], at) && !Fits({}, [p], [], at)
  {
    assert [p][..1] == [p] && [p][..0] == [];
    assert p in [p][..1];
  }

  /** A fully applied plan gives the target, whatever the start. */
  lemma TargetTable(table: set<Prefix>, start: set<Prefix>, rs: seq<Prefix>, as_: seq<Prefix>, at: Progress)
    requires Within(at, rs, as_) && Stands(table, start, rs, as_, at) && at.removed == |rs| && at.added == |as_|
    ensures table == start - Of(rs) + Of(as_)
  {
  }

  // ---------- plans ----------

  predicate Ascending(ps: seq<Prefix>) {
    forall i, j :: 0 <= i < j < |ps| ==> ps[i] < ps[j]
  }

  /** Puts p where it belongs. */
  function Inserted(ps: seq<Prefix>, p: Prefix): seq<Prefix> {
    if ps == [] || p < ps[0] then [p] + ps else [ps[0]] + Inserted(ps[1..], p)
  }

  lemma {:induction false} InsertedOf(ps: seq<Prefix>, p: Prefix)
    ensures Of(Inserted(ps, p)) == Of(ps) + {p}
  {
    if ps == [] || p < ps[0] {
      OfCons(p, ps);
    } else {
      InsertedOf(ps[1..], p);
      OfCons(ps[0], ps[1..]);
      OfCons(ps[0], Inserted(ps[1..], p));
      assert ps == [ps[0]] + ps[1..];
    }
  }

  lemma {:induction false} InsertedAscending(ps: seq<Prefix>, p: Prefix)
    requires Ascending(ps) && p !in ps
    ensures Ascending(Inserted(ps, p))
  {
    if ps == [] || p < ps[0] {
      AscendingCons(p, ps);
    } else {
      var rest := Inserted(ps[1..], p);
      InsertedAscending(ps[1..], p);
      forall i | 0 <= i < |rest|
        ensures ps[0] < rest[i]
      {
        assert rest[i] in Of(rest);
        InsertedOf(ps[1..], p);
      }
      AscendingCons(ps[0], rest);
    }
  }

  lemma AscendingCons(p: Prefix, ps: seq<Prefix>)
    requires Ascending(ps) && forall i :: 0 <= i < |ps| ==> p < ps[i]
    ensures Ascending([p] + ps)
  {
  }

  lemma OfCons(p: Prefix, ps: seq<Prefix>)
    ensures Of([p] + ps) == {p} + Of(ps)
  {
    var all := [p] + ps;
    assert forall i :: 0 < i < |all| ==> all[i] == ps[i - 1];
    assert forall i :: 0 <= i < |ps| ==> ps[i] == all[i + 1];
    assert all[0] == p;
  }

  lemma OfSnoc(ps: seq<Prefix>, i: nat)
    requires i < |ps|
    ensures Of(ps[..i + 1]) == Of(ps[..i]) + {ps[i]}
    ensures ps[i] in Of(ps[..i]) <==> exists j :: 0 <= j < i && ps[j] == ps[i]
  {
  }

  /** Sorts a list of prefixes; refuses one that names a prefix twice. */
  method CanonicalPrefixes(prefixes: seq<Prefix>) returns (r: Option<seq<Prefix>>)
    ensures r.None? <==> !Distinct(prefixes)
    ensures r.Some? ==> Ascending(r.value) && Of(r.value) == Of(prefixes)
  {
    var result: seq<Prefix> := [];
    var i := 0;
    while i < |prefixes|
      invariant 0 <= i <= |prefixes| && Ascending(result) && Of(result) == Of(prefixes[..i]) && Distinct(prefixes[..i])
    {
      OfIn(result);
      OfSnoc(prefixes, i);
      if prefixes[i] in result {
        return None;
      }
      InsertedOf(result, prefixes[i]);
      InsertedAscending(result, prefixes[i]);
      result := Inserted(result, prefixes[i]);
      assert prefixes[..i + 1] == prefixes[..i] + [prefixes[i]];
      OfIn(prefixes[..i]);
      i := i + 1;
    }
    assert prefixes[..i] == prefixes;
    r := Some(result);
  }

  datatype Plan = Plan(removals: seq<Prefix>, additions: seq<Prefix>)

  /** The lists to work through, or None for a plan that contradicts itself. */
  method PreparePlan(plan: Plan) returns (r: Option<Plan>)
    ensures r.None? <==>
              !(Distinct(plan.removals) && Distinct(plan.additions) && Of(plan.removals) !! Of(plan.additions))
    ensures r.Some? ==>
              && Ascending(r.value.removals) && Ascending(r.value.additions)
                 && Disjoint(r.value.removals, r.value.additions)
              && Of(r.value.removals) == Of(plan.removals) && Of(r.value.additions) == Of(plan.additions)
  {
    var additions := CanonicalPrefixes(plan.additions);
    if additions.None? {
      return None;
    }
    var removals := CanonicalPrefixes(plan.removals);
    if removals.None? {
      return None;
    }
    var i := 0;
    while i < |additions.value|
      invariant 0 <= i <= |additions.value|
      invariant forall j :: 0 <= j < i ==> additions.value[j] !in removals.value
    {
      if additions.value[i] in removals.value {
        OfIn(removals.value);
        assert additions.value[i] in Of(additions.value) && additions.value[i] in Of(removals.value);
        return None;
      }
      i := i + 1;
    }
    OfIn(removals.value);
    assert forall j :: 0 <= j < |removals.value| ==> removals.value[j] in removals.value;
    r := Some(Plan(removals.value, additions.value));
  }

  // ---------- the transaction ----------

  class PreparedRoutes {
    const table: Table
    const removals: seq<Prefix>
    const additions: seq<Prefix>
    var removedApplied: seq<Prefix>
    var addedApplied: seq<Prefix>
    var rolledBack: bool
    var finalized: bool
    ghost const start: set<Prefix>
    ghost var at: Progress

    constructor (table: Table, removals: seq<Prefix>, additions: seq<Prefix>)
      requires Distinct(removals) && Distinct(additions) && Disjoint(removals, additions)
      ensures Valid() && this.table == table && this.removals == removals && this.additions == additions
      ensures start == table.routes && at == Progress(0, 0, 0, 0) && !rolledBack && !finalized
    {
      this.table, this.removals, this.additions := table, removals, additions;
      removedApplied, addedApplied, rolledBack, finalized := [], [], false, false;
      start, at := table.routes, Progress(0, 0, 0, 0);
    }

    /** The table is where `at` says; that holds even right after a crash. */
    ghost predicate Placed()
      reads this, table
    {
      && Distinct(removals) && Distinct(additions) && Disjoint(removals, additions)
      && Within(at, removals, additions) && Stands(table.routes, start, removals, additions, at)
    }

    ghost predicate Valid()
      reads this, table
    {
      && Placed()
      && removedApplied == removals[..at.removed] && addedApplied == additions[..at.added]
      && (at.added > 0 ==> at.removed == |removals|)
      && (rolledBack ==> at.removed == 0 && at.added == 0)
      && (finalized ==> at.removed == |removals| && at.added == |additions|)
    }

    method CommitRemovals() returns (r: Completion)
      requires Valid()
      modifies this`removedApplied, this`at, table
      ensures Placed() && (r != Crashed ==> Valid())
      ensures at.added == old(at.added) && at.everAdded == old(at.everAdded) && at.removed >= old(at.removed)
      ensures rolledBack && !finalized ==> r == Failed
      ensures r == Done ==> at.removed == |removals|
    {
      if finalized {
        return Done;
      }
      if rolledBack {
        return Failed;
      }
      while |removedApplied| < |removals|
        invariant Valid() && at.added == old(at.added) && at.everAdded == old(at.everAdded)
                    && at.removed >= old(at.removed)
        decreases |removals| - |removedApplied|
      {
        hide Stands;
        var p := removals[|removedApplied|];
        RemoveStep(table.routes, start, removals, additions, at);
        ghost var took;
        r, took := table.Delete(p);
        if took {
          at := Removed(at);
        }
        if r != Done {
          return;
        }
        removedApplied := removedApplied + [p];
      }
      r := Done;
    }

    method CommitAdditions() returns (r: Completion)
      requires Valid()
      modifies this`addedApplied, this`at, table
      ensures Placed() && (r != Crashed ==> Valid())
      ensures at.removed == old(at.removed) && at.everRemoved == old(at.everRemoved) && at.added >= old(at.added)
      ensures !finalized && (rolledBack || at.removed != |removals|) ==> r == Failed
      ensures r == Done ==> at.added == |additions| && at.removed == |removals|
    {
      if finalized {
        return Done;
      }
      if rolledBack || |removedApplied| != |removals| {
        return Failed;
      }
      while |addedApplied| < |additions|
        invariant Valid() && at.removed == old(at.removed) && at.everRemoved == old(at.everRemoved)
                    && at.added >= old(at.added)
        decreases |additions| - |addedApplied|
      {
        hide Stands;
        var p := additions[|addedApplied|];
        AddStep(table.routes, start, removals, additions, at);
        ghost var took;
        r, took := table.Add(p);
        if took {
          at := Added(at);
        }
        if r != Done {
          return;
        }
        addedApplied := addedApplied + [p];
      }
      r := Done;
    }

    method RollbackAdditions() returns (r: Completion)
      requires Valid()
      modifies this`addedApplied, this`rolledBack, this`at, table
      ensures Placed() && (r != Crashed ==> Valid())
      ensures at.removed == old(at.removed) && at.everRemoved == old(at.everRemoved)
                && at.everAdded == old(at.everAdded)
      ensures at.added <= old(at.added)
      ensures finalized ==> r == Failed && table.routes == old(table.routes)
      ensures r == Done ==> at.added == 0
    {
      if finalized {
        return Failed;
      }
      if rolledBack {
        return Done;
      }
      while |addedApplied| > 0
        invariant Valid() && !rolledBack && at.added <= old(at.added)
        invariant at.removed == old(at.removed) && at.everRemoved == old(at.everRemoved)
                    && at.everAdded == old(at.everAdded)
        decreases |addedApplied|
      {
        hide Stands;
        var index := |addedApplied| - 1;
        UnaddStep(table.routes, start, removals, additions, at);
        ghost var took;
        r, took := table.Delete(addedApplied[index]);
        if took {
          at := at.(added := index);
        }
        if r != Done {
          return;
        }
        addedApplied := addedApplied[..index];
      }
      if |removedApplied| == 0 {
        rolledBack := true;
      }
      r := Done;
    }

    method RollbackRemovals() returns (r: Completion)
      requires Valid()
      modifies this`removedApplied, this`rolledBack, this`at, table
      ensures Placed() && (r != Crashed ==> Valid())
      ensures at.added == old(at.added) && at.everRemoved == old(at.everRemoved) && at.everAdded == old(at.everAdded)
      ensures finalized || (!old(rolledBack) && at.added > 0) ==> r == Failed && table.routes == old(table.routes)
      ensures r == Done ==> rolledBack && at.added == 0 && at.removed == 0
    {
      if finalized {
        return Failed;
      }
      if rolledBack {
        return Done;
      }
      if |addedApplied| != 0 {
        return Failed;
      }
      while |removedApplied| > 0
        invariant Valid() && !rolledBack && at.added == 0
        invariant at.everRemoved == old(at.everRemoved) && at.everAdded == old(at.everAdded)
        decreases |removedApplied|
      {
        hide Stands;
        var index := |removedApplied| - 1;
        UnremoveStep(table.routes, start, removals, additions, at);
        ghost var took;
        r, took := table.Add(removedApplied[index]);
        if took {
          at := at.(removed := index);
        }
        if r != Done {
          return;
        }
        removedApplied := removedApplied[..index];
      }
      rolledBack := true;
      r := Done;
    }

    /** Undoes everything: the start is back if and only if the plan fitted it. */
    method Rollback() returns (r: Completion)
      requires Valid()
      modifies this`removedApplied, this`addedApplied, this`rolledBack, this`at, table
      ensures Placed() && (r != Crashed ==> Valid())
      ensures finalized ==> r == Failed
      ensures r == Done ==> rolledBack && (table.routes == start <==> Fits(start, removals, additions, at))
    {
      hide Stands, Fits, UndoneFits;
      r := RollbackAdditions();
      if r != Done {
        return;
      }
      r := RollbackRemovals();
      if r == Done {
        RolledBackTable(table.routes, start, removals, additions, at);
      }
    }

    /** Succeeds only when everything is applied; the table is then the target. */
    method Finalize() returns (r: Completion)
      requires Valid()
      modifies this`finalized
      ensures Valid() && r != Crashed
      ensures r == Done <==> !rolledBack && at.removed == |removals| && at.added == |additions|
      ensures r == Done ==> finalized && table.routes == start - Of(removals) + Of(additions)
      ensures r == Failed ==> finalized == old(finalized)
    {
      hide Stands;
      if rolledBack || |removedApplied| != |removals| || |addedApplied| != |additions| {
        return Failed;
      }
      TargetTable(table.routes, start, removals, additions, at);
      finalized := true;
      r := Done;
    }
  }

  /** ROUTE TRANSACTION OVER ANY CALLS.  Whatever is called in whatever order, and
      whatever fails: the table is the start less the applied removals plus the applied
      additions, if and only if what was undone fitted the start. */
  method RunCalls(p: PreparedRoutes, calls: nat)
    requires p.Valid()
    modifies p, p.table
    ensures p.Placed()
    ensures p.table.routes == p.start - Of(p.removals[..p.at.removed]) + Of(p.additions[..p.at.added])
       <==> UndoneFits(p.start, p.removals, p.additions, p.at)
    ensures p.rolledBack && p.Valid() ==> (p.table.routes == p.start <==> Fits(p.start, p.removals, p.additions, p.at))
    ensures p.finalized && p.Valid() ==> p.table.routes == p.start - Of(p.removals) + Of(p.additions)
  {
    var left, crashed := calls, false;
    while left > 0 && !crashed
      invariant p.Placed() && (!crashed ==> p.Valid())
    {
      hide Stands, Fits, UndoneFits;
      var which: nat := *;
      var r;
      match which {
        case 0 => r := p.CommitRemovals();
        case 1 => r := p.CommitAdditions();
        case 2 => r := p.RollbackAdditions();
        case 3 => r := p.RollbackRemovals();
        case _ => r := p.Finalize();
      }
      crashed := r == Crashed;
      left := left - 1;
    }
    hide Stands, Fits, UndoneFits;
    Outcome(p);
  }

  lemma Outcome(p: PreparedRoutes)
    requires p.Placed()
    ensures p.table.routes == p.start - Of(p.removals[..p.at.removed]) + Of(p.additions[..p.at.added])
       <==> UndoneFits(p.start, p.removals, p.additions, p.at)
    ensures p.rolledBack && p.Valid() ==> (p.table.routes == p.start <==> Fits(p.start, p.removals, p.additions, p.at))
    ensures p.finalized && p.Valid() ==> p.table.routes == p.start - Of(p.removals) + Of(p.additions)
  {
    hide Stands, Fits, UndoneFits;
    FittingTable(p.table.routes, p.start, p.removals, p.additions, p.at);
    if p.rolledBack && p.Valid() {
      RolledBackTable(p.table.routes, p.start, p.removals, p.additions, p.at);
    }
    if p.finalized && p.Valid() {
      TargetTable(p.table.routes, p.start, p.removals, p.additions, p.at);
    }
  }
}
