/** The session event log: a ring of the latest events, read in pages by cursor, and
    the collector that follows it. */
module EventLog {
  import opened Wrappers

  const MAX_SESSION_EVENTS: nat := 4096
  const DEFAULT_EVENT_QUERY: nat := 256
  const MAX_SESSION_EVENT_QUERY: nat := 1024
  const EVENT_PAGE_SIZE: nat := 1024
  const MAX_EVENT_PAGES: nat := 64

  datatype Event = Event(sequence: nat, session: nat, kind: string)

  datatype Batch = Batch(streamId: string, droppedTotal: nat, firstAvailable: nat, lastSequence: nat,
      events: seq<Event>)

  function Min(a: nat, b: nat): nat {
    if a < b then a else b
  }

  /** Event number i + 1 is at position i. */
  ghost predicate Numbered(history: seq<Event>) {
    forall i :: 0 <= i < |history| ==> history[i].sequence == i + 1
  }

  /** Where the i-th oldest entry of a ring of n is kept: position first + i, modulo n. */
  function Slot(first: nat, i: nat, n: nat): (s: nat)
    requires first < n && i < n
    ensures s < n
  {
    if first + i < n then first + i else first + i - n
  }

  lemma SlotModulo(first: nat, i: nat, n: nat)
    requires first < n && i < n
    ensures Slot(first, i, n) == (first + i) % n
  {
    var q, r := (first + i) / n, (first + i) % n;
    assert q * n + r == first + i && 0 <= r < n;
    OnceAtMost(q, r, n);
  }

  lemma OnceAtMost(q: nat, r: nat, n: nat)
    requires q * n + r < 2 * n
    ensures q < 2
  {
    if q >= 2 {
      Times(2, q, n);
      assert false;
    }
  }

  lemma {:induction false} Times(a: nat, b: nat, n: nat)
    requires a <= b
    ensures a * n <= b * n
  {
    if a < b {
      Times(a, b - 1, n);
      assert b * n == (b - 1) * n + n;
    }
  }

  function Limited(limit: int): nat {
    if limit <= 0 then DEFAULT_EVENT_QUERY else Min(limit, MAX_SESSION_EVENT_QUERY)
  }

  /** The ring is the end of the history, oldest entry at `first`. */
  ghost predicate Ring(entries: seq<Event>, first: nat, history: seq<Event>) {
    && |entries| == Min(|history|, MAX_SESSION_EVENTS)
    && (entries != [] ==> first < |entries|) && (|entries| < MAX_SESSION_EVENTS ==> first == 0)
    && forall i :: 0 <= i < |entries| ==> entries[Slot(first, i, |entries|)] == history[|history| - |entries| + i]
  }

  lemma RingGrows(entries: seq<Event>, history: seq<Event>, e: Event)
    requires Ring(entries, 0, history) && |entries| < MAX_SESSION_EVENTS
    ensures Ring(entries + [e], 0, history + [e])
  {
    var n := |entries|;
    assert |history| == n;
    var more, all := entries + [e], history + [e];
    forall i | 0 <= i < n + 1
      ensures more[Slot(0, i, n + 1)] == all[i]
    {
      assert Slot(0, i, n + 1) == i;
      if i < n {
        assert Slot(0, i, n) == i && entries[i] == history[i];
        assert more[i] == entries[i] && all[i] == history[i];
      }
    }
    assert |all| - |more| == 0;
  }

  lemma RingTurns(entries: seq<Event>, first: nat, history: seq<Event>, e: Event)
    requires Ring(entries, first, history) && |entries| == MAX_SESSION_EVENTS
    ensures Ring(entries[first := e], (first + 1) % MAX_SESSION_EVENTS, history + [e])
  {
    var n := |entries|;
    var next := (first + 1) % MAX_SESSION_EVENTS;
    assert next == if first + 1 < n then first + 1 else 0;
    forall i | 0 <= i < n
      ensures entries[first := e][Slot(next, i, n)] == (history + [e])[|history| + 1 - n + i]
    {
      if i < n - 1 {
        assert Slot(next, i, n) == Slot(first, i + 1, n);
        assert entries[Slot(first, i + 1, n)] == history[|history| - n + (i + 1)];
      }
    }
  }

  lemma RingAt(entries: seq<Event>, first: nat, history: seq<Event>, i: nat)
    requires Ring(entries, first, history) && i < |entries|
    ensures var at := (first + i) % |entries|; at < |entries| && entries[at] == history[|history| - |entries| + i]
  {
    SlotModulo(first, i, |entries|);
  }

  lemma RingFirst(entries: seq<Event>, first: nat, history: seq<Event>)
    requires Ring(entries, first, history) && entries != []
    ensures entries[first] == history[|history| - |entries|]
  {
    assert Slot(first, 0, |entries|) == first;
  }

  class EventLog {
    const streamId: string
    var sequence: nat
    var dropped: nat
    var entries: seq<Event>
    var first: nat
    ghost var history: seq<Event>

    constructor (streamId: string)
      requires streamId != ""
      ensures Valid() && this.streamId == streamId && history == []
    {
      this.streamId := streamId;
      sequence, dropped, entries, first, history := 0, 0, [], 0, [];
    }

    ghost predicate Valid()
      reads this
    {
      && streamId != "" && Numbered(history) && Ring(entries, first, history)
      && sequence == |history| && dropped == sequence - |entries|
    }

    /** The number of events no longer kept. */
    ghost function Oldest(): nat
      reads this
    {
      |history| - Min(|history|, MAX_SESSION_EVENTS)
    }

    method Append(session: nat, kind: string)
      requires Valid()
      modifies this
      ensures Valid() && history == old(history) + [Event(|old(history)| + 1, session, kind)]
    {
      hide Ring;
      RingSize(entries, first, history);
      sequence := sequence + 1;
      var event := Event(sequence, session, kind);
      ghost var was := history;
      history := history + [event];
      if |entries| < MAX_SESSION_EVENTS {
        RingGrows(entries, was, event);
        entries := entries + [event];
        return;
      }
      RingTurns(entries, first, was, event);
      entries := entries[first := event];
      first := (first + 1) % MAX_SESSION_EVENTS;
      dropped := dropped + 1;
    }

    /** The oldest kept entry past the cursor, by binary search. */
    method Search(after: nat) returns (low: nat)
      requires Valid() && entries != []
      ensures low <= |entries| && Oldest() + low == if after < Oldest() then Oldest() else Min(after, |history|)
    {
      RingSize(entries, first, history);
      hide Ring;
      var n := |entries|;
      var high := n;
      low := 0;
      while low < high
        invariant 0 <= low <= high <= n && (low == 0 || Oldest() + low <= after)
                    && (high == n || Oldest() + high + 1 > after)
      {
        var middle := (low + high) / 2;
        RingAt(entries, first, history, middle);
        if entries[(first + middle) % n].sequence > after {
          high := middle;
        } else {
          low := middle + 1;
        }
      }
    }

    method Copy(low: nat, last: nat) returns (events: seq<Event>)
      requires Valid() && low <= last <= |entries|
      ensures |entries| <= |history| && events == history[|history| - |entries| + low..|history| - |entries| + last]
    {
      RingSize(entries, first, history);
      hide Ring;
      events := [];
      var i := low;
      ghost var oldest := |history| - |entries|;
      while i < last
        invariant low <= i <= last && events == history[oldest + low..oldest + i]
      {
        RingAt(entries, first, history, i);
        events := events + [entries[(first + i) % |entries|]];
        i := i + 1;
      }
    }

    /** Where in the ring the page begins and ends. */
    method Window(after: nat, limit: nat) returns (low: nat, last: nat)
      requires Valid() && entries != []
      ensures low <= last <= |entries| && |entries| <= |history|
      ensures |history| - |entries| + low == From(history, after)
      ensures |history| - |entries| + last == Min(From(history, after) + limit, |history|)
    {
      RingSize(entries, first, history);
      hide Ring, Numbered;
      low := Search(after);
      last := Min(|entries|, low + limit);
    }

    /** A page is exactly the events after the cursor that are still kept, up to the limit. */
    method Page(stream: string, after: nat, limit: int) returns (r: Option<Batch>)
      requires Valid()
      ensures r.None? <==> stream != "" && stream != streamId
      ensures r.Some? ==> IsPage(r.value, streamId, history, after, Limited(limit))
    {
      hide Ring, IsPage, Slot, Limited;
      if stream != "" && stream != streamId {
        return None;
      }
      RingSize(entries, first, history);
      var batch := Batch(streamId, dropped, 0, Min(after, sequence), []);
      if |entries| == 0 {
        PageMade(streamId, history, after, Limited(limit), []);
        return Some(batch);
      }
      RingFirst(entries, first, history);
      batch := batch.(firstAvailable := entries[first].sequence);
      var low, last := Window(after, Limited(limit));
      if last > low {
        var events := Copy(low, last);
        PageMade(streamId, history, after, Limited(limit), events);
        batch := batch.(events := events, lastSequence := events[|events| - 1].sequence);
      } else {
        PageMade(streamId, history, after, Limited(limit), []);
      }
      r := Some(batch);
    }
  }

  lemma PageMade(streamId: string, history: seq<Event>, after: nat, limit: nat, events: seq<Event>)
    requires Numbered(history) && events == history[From(history, after)..Min(From(history, after) + limit, |history|)]
    ensures var oldest := |history| - Min(|history|, MAX_SESSION_EVENTS);
            IsPage(Batch(streamId, oldest, if history == [] then 0 else oldest + 1,
                         if events == [] then Min(after, |history|) else events[|events| - 1].sequence, events),
                   streamId, history, after, limit)
  {
  }

  lemma RingSize(entries: seq<Event>, first: nat, history: seq<Event>)
    requires Ring(entries, first, history)
    ensures |entries| == Min(|history|, MAX_SESSION_EVENTS) && (entries != [] ==> first < |entries|)
    ensures |entries| < MAX_SESSION_EVENTS ==> first == 0
  {
  }

  /** The first event a page may contain. */
  function From(history: seq<Event>, after: nat): (r: nat)
    ensures r <= |history|
  {
    var oldest := |history| - Min(|history|, MAX_SESSION_EVENTS);
    if after < oldest then oldest else Min(after, |history|)
  }

  ghost predicate IsPage(b: Batch, streamId: string, history: seq<Event>, after: nat, limit: nat) {
    var oldest := |history| - Min(|history|, MAX_SESSION_EVENTS);
    var from := From(history, after);
    && b.streamId == streamId && b.droppedTotal == oldest
    && b.firstAvailable == (if history == [] then 0 else oldest + 1)
    && b.events == history[from..Min(from + limit, |history|)]
    && b.lastSequence == (if b.events == [] then Min(after, |history|) else from + |b.events|)
  }

  // ---------- the reader ----------

  /** The process that serves the events; it may restart with a new stream. */
  class Server {
    var log: EventLog
    var epoch: string
    var ids: set<string>
    ghost var logs: set<EventLog>

    constructor (id: string, epoch: string)
      requires id != ""
      ensures Valid() && fresh(logs)
    {
      this.epoch := epoch;
      var first := new EventLog(id);
      log, ids, logs := first, {id}, {first};
    }

    /** Every log there ever was is intact, and no two have the same stream ID. */
    ghost predicate Valid()
      reads this, logs
    {
      && log in logs
      && (forall l :: l in logs ==> l.Valid() && l.streamId in ids) && "" !in ids
      && (forall l, m :: l in logs && m in logs && l.streamId == m.streamId ==> l == m)
    }

    /** Sessions come and go between two pages, or the process restarts. */
    method Meanwhile()
      requires Valid()
      modifies this, logs
      ensures Valid() && old(logs) <= logs && fresh(logs - old(logs))
      ensures forall l :: l in old(logs) ==> old(l.history) <= l.history
    {
      hide Ring;
      var events: nat := *;
      while events > 0
        invariant Valid() && logs == old(logs) && log == old(log) && ids == old(ids)
        invariant forall l :: l in logs ==> old(l.history) <= l.history
        decreases events
      {
        var session: nat, kind: string := *, *;
        log.Append(session, kind);
        events := events - 1;
      }
      var restarts: bool, id: string, epoch': string := *, *, *;
      if restarts && id != "" && id !in ids {
        var next := new EventLog(id);
        log, epoch, ids, logs := next, epoch', ids + {id}, logs + {next};
      }
    }
  }

  datatype DrainResult = CaughtUp | Boundary | ReadFailed

  function Selected(events: seq<Event>, sessions: set<nat>): seq<Event> {
    if events == [] then []
    else
      var rest, e := Selected(events[..|events| - 1], sessions), events[|events| - 1];
      if e.session == 0 || e.session in sessions then rest + [e] else rest
  }

  class Collector {
    const server: Server
    const epoch: string
    var sessions: set<nat>           // those whose events are written; more can join
    var stream: string
    var cursor: nat
    var written: seq<Event>
    ghost var source: EventLog?
    ghost var begin: nat

    constructor (server: Server, epoch: string, sessions: set<nat>)
      requires server.Valid()
      ensures Valid() && this.server == server && cursor == 0
    {
      this.server, this.epoch, this.sessions := server, epoch, sessions;
      stream, cursor, written, source, begin := "", 0, [], null, 0;
    }

    /** CONTIGUITY: the reader has seen the events of one stream from some point up to
        its cursor, each once and in order; written are those it was asked to write. */
    ghost predicate Valid()
      reads this, server, server.logs
    {
      && server.Valid()
      && (stream == "" <==> source == null)
      && (source == null ==> cursor == 0 && written == [])
      && (source != null ==>
            && source in server.logs && source.streamId == stream && begin <= cursor <= |source.history|
            && (cursor == 0 ==> begin == 0))
    }

    /** The events seen since the reader stood at `cursor0`, as far as they are written. */
    ghost predicate Wrote(was: seq<Event>, cursor0: nat, write: bool)
      requires source != null
      reads this, source
    {
      var from := if cursor0 != 0 then cursor0 else begin;
      from <= cursor <= |source.history|
      && Extended(was, written, source.history, from, cursor, sessions, write)
    }

    /** Takes in the events of one page, in order. */
    method Consume(events: seq<Event>, ghost from: nat, write: bool) returns (ok: bool)
      requires Valid() && source != null && (cursor != 0 ==> cursor == from)
      requires SliceOf(events, source.history, from)
      modifies this`cursor, this`written, this`begin
      ensures Valid() && old(cursor) <= cursor && (old(cursor) != 0 ==> begin == old(begin))
      ensures ok && events != [] ==> cursor == from + |events|
      ensures Wrote(old(written), old(cursor), write)
    {
      hide Server.Valid, Extended, Numbered, SliceOf;
      NumberedSource();
      ghost var history := source.history;
      SliceFits(events, history, from);
      ExtendedNone(written, history, sessions, write);
      var i := 0;
      while i < |events|
        invariant 0 <= i <= |events|
        invariant i == 0 ==> cursor == old(cursor) && begin == old(begin) && written == old(written)
        invariant i > 0 ==> cursor == from + i && begin == if old(cursor) != 0 then old(begin) else from
        invariant Extended(old(written), written, history, from, from + i, sessions, write)
      {
        var event := events[i];
        NumberedAt(history, from, events, i);
        ExtendedMore(old(written), written, history, from, from + i, sessions, write);
        ok := Take(event, from, write);
        if !ok {
          return;
        }
        i := i + 1;
      }
      ok := true;
    }

    /** Writes one event if it is wanted, and moves the cursor past it. */
    method Take(event: Event, ghost from: nat, write: bool) returns (ok: bool)
      modifies this`cursor, this`written, this`begin
      ensures !ok ==> cursor == old(cursor) && begin == old(begin) && written == old(written)
      ensures ok ==> cursor == event.sequence && begin == if old(cursor) == 0 then from else old(begin)
      ensures ok ==>
                var wanted := write && (event.session == 0 || event.session in sessions);
                written == if wanted then old(written) + [event] else old(written)
    {
      if write && (event.session == 0 || event.session in sessions) {
        var fails: bool := *;
        if fails {
          return false;
        }
        written := written + [event];
      }
      if cursor == 0 {
        begin := from;
      }
      cursor := event.sequence;
      ok := true;
    }

    /** One more session turns out to be the target's. */
    method Follow(session: nat)
      requires Valid()
      modifies this`sessions
      ensures Valid() && sessions == old(sessions) + {session}
    {
      sessions := sessions + {session};
    }

    lemma NumberedSource()
      requires Valid() && source != null
      ensures Numbered(source.history)
    {
    }

    method ReadPage(write: bool) returns (r: DrainResult, more: bool)
      requires Valid()
      modifies this`stream, this`cursor, this`written, this`source, this`begin, server, server.logs
      ensures Valid() && old(server.logs) <= server.logs && fresh(server.logs - old(server.logs))
      ensures forall l :: l in old(server.logs) ==> old(l.history) <= l.history
      ensures old(source) != null ==> source == old(source) && old(cursor) <= cursor
      ensures old(cursor) != 0 ==> begin == old(begin)
      ensures more ==> source != null && cursor != 0
      ensures !more && r == CaughtUp ==>
                source != null && server.log == source && cursor == |source.history| && server.epoch == epoch
      ensures source == null ==> written == old(written)
      ensures source != null ==> Wrote(old(written), old(cursor), write)
    {
      hide EventLog.Valid, Extended, IsPage, From;
      more := false;
      server.Meanwhile();
      if source != null {
        ExtendedNone(written, source.history, sessions, write);
      }
      var batch := server.log.Page(stream, cursor, EVENT_PAGE_SIZE);
      if batch.None? {
        return ReadFailed, false;
      }
      if server.epoch != epoch {
        return Boundary, false;
      }
      // The page names its stream: the one asked for, or the one to follow from now on.
      if stream == "" {
        stream, source, begin := batch.value.streamId, server.log, 0;
        ExtendedNone(written, source.history, sessions, write);
      }
      var events := batch.value.events;
      PageFacts(batch.value, server.log.streamId, server.log.history, cursor, EVENT_PAGE_SIZE);
      if cursor != 0 && batch.value.firstAvailable > cursor + 1 {
        return Boundary, false;
      }
      if events == [] {
        return CaughtUp, false;
      }
      var ok := Consume(events, From(source.history, cursor), write);
      if !ok {
        return ReadFailed, false;
      }
      more := |events| >= EVENT_PAGE_SIZE;
      r := CaughtUp;
    }

    /** Reads pages until none is full. */
    method Drain(write: bool) returns (r: DrainResult)
      requires Valid()
      modifies this`stream, this`cursor, this`written, this`source, this`begin, server, server.logs
      ensures Valid() && old(server.logs) <= server.logs && fresh(server.logs - old(server.logs))
      ensures old(source) != null ==> source == old(source) && old(cursor) <= cursor
      ensures old(cursor) != 0 ==> begin == old(begin)
      // Caught up means that nothing is missing.
      ensures r == CaughtUp ==>
                source != null && server.log == source && cursor == |source.history| && server.epoch == epoch
      ensures source != null ==> Wrote(old(written), old(cursor), write)
      ensures forall l :: l in old(server.logs) ==> old(l.history) <= l.history
    {
      hide EventLog.Valid, Extended;
      var page := 0;
      if source != null {
        ExtendedNone(written, source.history, sessions, write);
      }
      while page < MAX_EVENT_PAGES
        invariant Valid() && old(server.logs) <= server.logs && fresh(server.logs - old(server.logs))
        invariant old(source) != null ==> source == old(source) && old(cursor) <= cursor
        invariant forall l :: l in old(server.logs) ==> old(l.history) <= l.history
        invariant old(cursor) != 0 ==> begin == old(begin)
        invariant source != null ==> Wrote(old(written), old(cursor), write)
        invariant source == null ==> page == 0
        invariant page > 0 ==> cursor != 0
        invariant page == 0 ==> written == old(written) && cursor == old(cursor)
      {
        ghost var was, middle, history := written, cursor, if source == null then [] else source.history;
        var more;
        r, more := ReadPage(write);
        if page > 0 {
          var from := if old(cursor) != 0 then old(cursor) else begin;
          ExtendedTwice(old(written), was, written, history, source.history, from, middle, cursor, sessions, write);
        }
        if !more {
          return;
        }
        page := page + 1;
      }
      r := Boundary;
    }
  }

  // ---------- several drains ----------

  /** Events from + 1 to `to` of the history, each at most once and in order. */
  ghost predicate Rising(events: seq<Event>, history: seq<Event>, from: nat, to: nat)
    requires from <= to <= |history|
  {
    && (forall i :: 0 <= i < |events| ==>
          from < events[i].sequence <= to && events[i] == history[events[i].sequence - 1])
    && (forall i, j :: 0 <= i < j < |events| ==> events[i].sequence < events[j].sequence)
  }

  /** ... of the sessions in `small` all, of those outside `large` none. */
  ghost predicate Picked(events: seq<Event>, history: seq<Event>, from: nat, to: nat, small: set<nat>, large: set<nat>)
    requires from <= to <= |history|
  {
    && Rising(events, history, from, to)
    && Selected(events, small) == Selected(history[from..to], small) && Selected(events, large) == events
  }

  /** `now` is `was` and some events picked out of a stretch of the history. */
  ghost predicate Collected(was: seq<Event>, now: seq<Event>, history: seq<Event>, from: nat, to: nat,
      small: set<nat>, large: set<nat>)
  {
    from <= to <= |history| && was <= now && Picked(now[|was|..], history, from, to, small, large)
  }

  lemma {:induction false} SelectedAgain(events: seq<Event>, small: set<nat>, large: set<nat>)
    requires small <= large
    ensures Selected(Selected(events, large), small) == Selected(events, small)
    ensures Selected(Selected(events, small), large) == Selected(events, small)
  {
    if events != [] {
      SelectedAgain(events[..|events| - 1], small, large);
    }
  }

  lemma RisingOne(events: seq<Event>, history: seq<Event>, from: nat, to: nat)
    requires Numbered(history) && from <= to < |history| && Rising(events, history, from, to)
    ensures Rising(events, history, from, to + 1) && Rising(events + [history[to]], history, from, to + 1)
  {
  }

  lemma {:induction false} SelectedRises(history: seq<Event>, from: nat, to: nat, sessions: set<nat>)
    requires Numbered(history) && from <= to <= |history|
    ensures Rising(Selected(history[from..to], sessions), history, from, to)
    decreases |history[from..to]|
  {
    hide Rising, Numbered;
    if from < to {
      SelectedRises(history, from, to - 1, sessions);
      assert history[from..to][..to - 1 - from] == history[from..to - 1];
      RisingOne(Selected(history[from..to - 1], sessions), history, from, to - 1);
    } else {
      NothingRises(history, from);
    }
  }

  lemma NothingRises(history: seq<Event>, at: nat)
    requires at <= |history|
    ensures history[at..at] == [] && Rising([], history, at, at)
  {
  }

  lemma {:induction false} RisingShort(events: seq<Event>, history: seq<Event>, from: nat, to: nat)
    requires from <= to <= |history| && Rising(events, history, from, to)
    ensures |events| <= to - from
    decreases |events|
  {
    if events != [] {
      var n := |events| - 1;
      RisingShort(events[..n], history, from, events[n].sequence - 1);
    }
  }

  lemma RisingBoth(a: seq<Event>, b: seq<Event>, history: seq<Event>, later: seq<Event>, from: nat, middle: nat,
      to: nat)
    requires from <= middle <= |history| && middle <= to <= |later| && history <= later
    requires Rising(a, history, from, middle) && Rising(b, later, middle, to)
    ensures Rising(a + b, later, from, to)
  {
  }

  lemma SelectedPicks(history: seq<Event>, from: nat, to: nat, small: set<nat>, large: set<nat>)
    requires Numbered(history) && from <= to <= |history| && small <= large
    ensures Picked(Selected(history[from..to], large), history, from, to, small, large)
  {
    hide Rising, Numbered, Selected;
    SelectedRises(history, from, to, large);
    SelectedAgain(history[from..to], small, large);
    SelectedAgain(history[from..to], large, large);
  }

  lemma PickedMore(
    a: seq<Event>, b: seq<Event>, history: seq<Event>, later: seq<Event>, from: nat, middle: nat, to: nat,
    small: set<nat>, large: set<nat>)
    requires from <= middle <= |history| && middle <= to <= |later| && history <= later
    requires Picked(a, history, from, middle, small, large) && Picked(b, later, middle, to, small, large)
    ensures Picked(a + b, later, from, to, small, large)
  {
    hide Rising, Selected;
    RisingBoth(a, b, history, later, from, middle, to);
    SelectedConcat(a, b, small);
    SelectedConcat(a, b, large);
    SelectedConcat(history[from..middle], later[middle..to], small);
    assert later[from..to] == history[from..middle] + later[middle..to];
  }

  lemma {:induction false} PickedWider(events: seq<Event>, history: seq<Event>, from: nat, to: nat, small: set<nat>,
      large: set<nat>, larger: set<nat>)
    requires from <= to <= |history| && large <= larger && Picked(events, history, from, to, small, large)
    ensures Picked(events, history, from, to, small, larger)
  {
    SelectedAgain(events, large, larger);
  }

  lemma CollectedNone(was: seq<Event>, history: seq<Event>, at: nat, small: set<nat>, large: set<nat>)
    requires at <= |history|
    ensures Collected(was, was, history, at, at, small, large)
  {
    assert was[|was|..] == [] && history[at..at] == [];
  }

  lemma CollectedMore(
    was: seq<Event>, mid: seq<Event>, now: seq<Event>, history: seq<Event>, later: seq<Event>,
    from: nat, middle: nat, to: nat, small: set<nat>, large: set<nat>)
    requires history <= later && Numbered(later) && small <= large
    requires Collected(was, mid, history, from, middle, small, large)
    requires Extended(mid, now, later, middle, to, large, true)
    ensures Collected(was, now, later, from, to, small, large)
  {
    hide Picked, Numbered;
    var more := Selected(later[middle..to], large);
    SelectedPicks(later, middle, to, small, large);
    PickedMore(mid[|was|..], more, history, later, from, middle, to, small, large);
    assert now[|was|..] == mid[|was|..] + more;
  }

  lemma CollectedNothing(was: seq<Event>, now: seq<Event>, history: seq<Event>, at: nat, small: set<nat>,
      large: set<nat>)
    requires Collected(was, now, history, at, at, small, large)
    ensures now == was
  {
    hide Selected, Rising;
    RisingShort(now[|was|..], history, at, at);
  }

  lemma CollectedWider(was: seq<Event>, now: seq<Event>, history: seq<Event>, from: nat, to: nat, small: set<nat>,
      large: set<nat>, larger: set<nat>)
    requires large <= larger && Collected(was, now, history, from, to, small, large)
    ensures Collected(was, now, history, from, to, small, larger)
  {
    hide Picked;
    PickedWider(now[|was|..], history, from, to, small, large, larger);
  }

  /** Where the reader stands that began with `first` written and at `cursor0`. */
  ghost predicate Stands(c: Collector, first: seq<Event>, cursor0: nat, small: set<nat>)
    reads c, c.source
  {
    && small <= c.sessions && (cursor0 != 0 ==> c.cursor != 0) && (c.source == null ==> c.written == first)
    && (c.source != null ==>
          var from := if cursor0 != 0 then cursor0 else c.begin;
          Collected(first, c.written, c.source.history, from, c.cursor, small, c.sessions))
  }

  /** Sessions may join, then one drain. */
  method Round(c: Collector, ghost first: seq<Event>, ghost cursor0: nat, ghost small: set<nat>)
      returns (r: DrainResult)
    requires c.Valid() && Stands(c, first, cursor0, small)
    modifies c`sessions, c`stream, c`cursor, c`written, c`source, c`begin, c.server, c.server.logs
    ensures c.Valid() && Stands(c, first, cursor0, small)
    ensures old(c.server.logs) <= c.server.logs && fresh(c.server.logs - old(c.server.logs))
    ensures old(c.source) != null ==> c.source == old(c.source) && old(c.cursor) <= c.cursor
    ensures r == CaughtUp ==> c.source != null && c.cursor == |c.source.history|
  {
    hide Server.Valid, Extended, Numbered, Collected;
    var joins: bool, session: nat := *, *;
    ghost var large := c.sessions;
    if joins {
      c.Follow(session);
    }
    ghost var mid, middle, source, begin := c.written, c.cursor, c.source, c.begin;
    ghost var history := if source == null then [] else source.history;
    if source != null {
      CollectedWider(first, mid, history, if cursor0 != 0 then cursor0 else begin, middle, small, large, c.sessions);
    }
    r := c.Drain(true);
    if c.source != null {
      c.NumberedSource();
      ghost var later := c.source.history;
      if middle != 0 {
        CollectedMore(first, mid, c.written, history, later, if cursor0 != 0 then cursor0 else begin, middle, c.cursor,
            small, c.sessions);
      } else {
        if source != null {
          CollectedNothing(first, mid, history, 0, small, c.sessions);
        }
        CollectedNone(first, later, c.begin, small, c.sessions);
        CollectedMore(first, mid, c.written, later, later, c.begin, c.begin, c.cursor, small, c.sessions);
      }
    }
  }

  /** EVENT COLLECTION over any number of drains, with sessions joining in between: what
      is written are events of one stretch of one stream, each at most once and in order;
      none of an unwanted session; and every one of a session wanted from the start. */
  method Collect(c: Collector, rounds: nat) returns (r: DrainResult)
    requires c.Valid()
    modifies c`sessions, c`stream, c`cursor, c`written, c`source, c`begin, c.server, c.server.logs
    ensures c.Valid() && Stands(c, old(c.written), old(c.cursor), old(c.sessions))
    ensures old(c.source) != null ==> c.source == old(c.source) && old(c.cursor) <= c.cursor
    ensures r == CaughtUp && rounds > 0 ==> c.source != null && c.cursor == |c.source.history|
  {
    hide Collector.Valid, Collected;
    Standing(c);
    r := CaughtUp;
    ghost var first, cursor0, small := c.written, c.cursor, c.sessions;
    var left := rounds;
    while left > 0 && r == CaughtUp
      invariant c.Valid() && old(c.server.logs) <= c.server.logs && fresh(c.server.logs - old(c.server.logs))
      invariant old(c.source) != null ==> c.source == old(c.source) && old(c.cursor) <= c.cursor
      invariant r == CaughtUp && left < rounds ==> c.source != null && c.cursor == |c.source.history|
      invariant left <= rounds && Stands(c, first, cursor0, small)
    {
      r := Round(c, first, cursor0, small);
      left := left - 1;
    }
  }

  lemma Standing(c: Collector)
    requires c.Valid()
    ensures Stands(c, c.written, c.cursor, c.sessions)
  {
    hide Collected;
    if c.source != null {
      var from := if c.cursor != 0 then c.cursor else c.begin;
      CollectedNone(c.written, c.source.history, from, c.sessions, c.sessions);
    }
  }

  lemma PageFacts(b: Batch, streamId: string, history: seq<Event>, after: nat, limit: nat)
    requires IsPage(b, streamId, history, after, limit) && after <= |history| && limit > 0
    ensures b.streamId == streamId
    ensures var from := From(history, after);
            && from + |b.events| <= |history| && b.events == history[from..from + |b.events|]
            && (|b.events| < limit ==> from + |b.events| == |history|)
            && (after != 0 && b.firstAvailable <= after + 1 ==> from == after)
            && (b.events == [] && (after == 0 || b.firstAvailable <= after + 1) ==> after == |history|)
  {
  }

  lemma {:induction false} SelectedConcat(a: seq<Event>, b: seq<Event>, sessions: set<nat>)
    ensures Selected(a + b, sessions) == Selected(a, sessions) + Selected(b, sessions)
  {
    if b == [] {
      assert a + b == a;
    } else {
      var n := |b| - 1;
      assert (a + b)[..|a| + n] == a + b[..n];
      SelectedConcat(a, b[..n], sessions);
    }
  }

  /** `now` is `was` and the wanted events numbered from + 1 to `to`. */
  ghost predicate Extended(was: seq<Event>, now: seq<Event>, history: seq<Event>, from: nat, to: nat,
      sessions: set<nat>, write: bool)
  {
    from <= to <= |history| && now == if write then was + Selected(history[from..to], sessions) else was
  }

  lemma ExtendedNone(was: seq<Event>, history: seq<Event>, sessions: set<nat>, write: bool)
    ensures forall from :: 0 <= from <= |history| ==> Extended(was, was, history, from, from, sessions, write)
  {
  }

  lemma ExtendedMore(was: seq<Event>, now: seq<Event>, history: seq<Event>, from: nat, to: nat, sessions: set<nat>,
      write: bool)
    requires Extended(was, now, history, from, to, sessions, write) && to < |history|
    ensures var wanted := write && (history[to].session == 0 || history[to].session in sessions);
            Extended(was, if wanted then now + [history[to]] else now, history, from, to + 1, sessions, write)
  {
    hide Selected;
    var part, e := history[from..to], history[to];
    assert history[from..to + 1] == part + [e];
    SelectedOne(part, e, sessions);
    assert was + Selected(part, sessions) + [e] == was + (Selected(part, sessions) + [e]);
  }

  lemma SelectedOne(events: seq<Event>, e: Event, sessions: set<nat>)
    ensures Selected(events + [e], sessions) ==
            Selected(events, sessions) + if e.session == 0 || e.session in sessions then [e] else []
  {
    assert (events + [e])[..|events|] == events;
  }

  lemma ExtendedTwice(
    was: seq<Event>, mid: seq<Event>, now: seq<Event>, history: seq<Event>, later: seq<Event>,
    from: nat, middle: nat, to: nat, sessions: set<nat>, write: bool)
    requires history <= later && Extended(was, mid, history, from, middle, sessions, write)
               && Extended(mid, now, later, middle, to, sessions, write)
    ensures Extended(was, now, later, from, to, sessions, write)
  {
    assert later[from..to] == history[from..middle] + later[middle..to];
    SelectedConcat(history[from..middle], later[middle..to], sessions);
  }

  ghost predicate SliceOf(events: seq<Event>, history: seq<Event>, from: nat) {
    from + |events| <= |history| && events == history[from..from + |events|]
  }

  lemma SliceFits(events: seq<Event>, history: seq<Event>, from: nat)
    requires SliceOf(events, history, from)
    ensures from + |events| <= |history|
  {
  }

  lemma NumberedAt(history: seq<Event>, from: nat, events: seq<Event>, i: nat)
    requires Numbered(history) && SliceOf(events, history, from) && i < |events|
    ensures from + |events| <= |history|
    ensures events[i] == history[from + i] && events[i].sequence == from + i + 1
  {
  }
}
