/** The byte budget of a session's send queue, as atomic steps of any number of
    concurrent senders, the send loop and the budget updates. */
module SendBudget {
  import opened Wrappers

  const FRAME_HEADER_SIZE: nat := 21
  const MAX_DATAGRAM_SIZE: nat := 65535
  const STARTUP_LIMIT: nat := 65536
  const MIN_BUDGET: nat := 6000
  const BYTES_PER_SLOT: nat := 1500

  /** Where a sender is in reserving and queueing one data frame. */
  datatype Sender =
    | Idle
    | Limited(size: nat, limit: nat)                    // has loaded the limit
    | Comparing(size: nat, limit: nat, current: int)    // has loaded the byte count, and it fits
    | Reserved(size: nat)                               // has the bytes, not yet the queue slot

  predicate DataFrame(size: nat) {
    FRAME_HEADER_SIZE < size <= FRAME_HEADER_SIZE + MAX_DATAGRAM_SIZE
  }

  function Max(a: nat, b: nat): nat {
    if a < b then b else a
  }

  function Min(a: nat, b: nat): nat {
    if a < b then a else b
  }

  /** The smaller of the two rates that are known; 0 stands for unknown. */
  function Rate(bandwidth: nat, pacing: nat): nat {
    if bandwidth == 0 then pacing else if pacing == 0 then bandwidth else Min(bandwidth, pacing)
  }

  /** No number of senders gets beyond this. */
  function Ceiling(capacity: nat): nat {
    Max(FRAME_HEADER_SIZE + MAX_DATAGRAM_SIZE, BYTES_PER_SLOT * capacity)
  }

  function HeldBytes(s: Sender): nat {
    if s.Reserved? then s.size else 0
  }

  function SendersBytes(senders: seq<Sender>): nat {
    if senders == [] then 0 else SendersBytes(senders[..|senders| - 1]) + HeldBytes(senders[|senders| - 1])
  }

  function QueueBytes(queue: seq<nat>): nat {
    if queue == [] then 0 else QueueBytes(queue[..|queue| - 1]) + queue[|queue| - 1]
  }

  lemma {:induction false} SendersUpdate(senders: seq<Sender>, i: nat, s: Sender)
    requires i < |senders|
    ensures SendersBytes(senders[i := s]) == SendersBytes(senders) - HeldBytes(senders[i]) + HeldBytes(s)
  {
    var n := |senders| - 1;
    if i < n {
      SendersUpdate(senders[..n], i, s);
      assert senders[i := s][..n] == senders[..n][i := s];
    } else {
      assert senders[i := s][..n] == senders[..n];
    }
  }

  lemma NewIdle(senders: seq<Sender>)
    ensures SendersBytes(senders + [Idle]) == SendersBytes(senders)
  {
  }

  lemma {:induction false} QueueTail(queue: seq<nat>)
    requires queue != []
    ensures QueueBytes(queue) == queue[0] + QueueBytes(queue[1..])
  {
    var n := |queue| - 1;
    if n == 0 {
      assert queue[..0] == [] && queue[1..] == [];
    } else {
      QueueTail(queue[..n]);
      assert queue[1..][..n - 1] == queue[..n][1..];
    }
  }

  /** What a sender has loaded: a limit that applied, and bytes that fit below it. */
  ghost predicate Sensible(s: Sender, capacity: nat) {
    && (s.Limited? || s.Comparing? ==> DataFrame(s.size) && s.limit <= Max(STARTUP_LIMIT, BYTES_PER_SLOT * capacity))
    && (s.Comparing? ==> s.current == 0 || s.current + s.size <= s.limit)
  }

  class Session {
    const capacity: nat
    var sendBytes: int
    var budget: nat                 // 0 until the first delivery sample
    var senders: seq<Sender>
    var queue: seq<nat>
    var taken: Option<nat>          // by the send loop, its bytes not yet given back

    constructor (capacity: nat)
      ensures Valid() && this.capacity == capacity && sendBytes == 0
    {
      this.capacity := capacity;
      sendBytes, budget, senders, queue, taken := 0, 0, [], [], None;
    }

    /** The counter is the sum of the frames that have bytes reserved, and bounded. */
    ghost predicate Valid()
      reads this
    {
      && sendBytes == SendersBytes(senders) + QueueBytes(queue) + (if taken.Some? then taken.value else 0)
      && sendBytes <= Ceiling(capacity)
      && budget <= BYTES_PER_SLOT * capacity && |queue| <= capacity
      && forall i :: 0 <= i < |senders| ==> Sensible(senders[i], capacity)
    }

    method NewSender() returns (i: nat)
      requires Valid()
      modifies this`senders
      ensures Valid() && senders == old(senders) + [Idle] && i == |old(senders)|
    {
      hide QueueBytes;
      i := |senders|;
      NewIdle(senders);
      senders := senders + [Idle];
    }

    /** reserveSendBytes, first step: which limit applies. */
    method LoadLimit(i: nat, size: nat)
      requires Valid() && i < |senders| && senders[i].Idle? && DataFrame(size)
      modifies this`senders
      ensures Valid() && sendBytes == old(sendBytes)
      ensures senders == old(senders)[i := Limited(size, if budget == 0 then STARTUP_LIMIT else budget)]
    {
      var limit := if budget == 0 then STARTUP_LIMIT else budget;
      SendersUpdate(senders, i, Limited(size, limit));
      senders := senders[i := Limited(size, limit)];
    }

    /** Second step: refused when the queue is not empty and the frame does not fit. */
    method LoadCurrent(i: nat) returns (refused: bool)
      requires Valid() && i < |senders| && senders[i].Limited?
      modifies this`senders
      ensures Valid() && (refused <==> sendBytes != 0 && sendBytes + old(senders)[i].size > old(senders)[i].limit)
      ensures senders == old(senders)[i := if refused then Idle
                else Comparing(old(senders)[i].size, old(senders)[i].limit, sendBytes)]
    {
      var s := senders[i];
      refused := sendBytes != 0 && sendBytes + s.size > s.limit;
      var next := if refused then Idle else Comparing(s.size, s.limit, sendBytes);
      SendersUpdate(senders, i, next);
      senders := senders[i := next];
    }

    /** Third step: takes the bytes if nobody changed the counter, else starts over. */
    method CompareAndSwap(i: nat) returns (ok: bool)
      requires Valid() && i < |senders| && senders[i].Comparing?
      modifies this`senders, this`sendBytes
      ensures Valid() && (ok <==> old(sendBytes) == old(senders)[i].current)
      ensures sendBytes == old(sendBytes) + if ok then old(senders)[i].size else 0
      ensures senders == old(senders)[i := if ok then Reserved(old(senders)[i].size)
                else Limited(old(senders)[i].size, old(senders)[i].limit)]
    {
      var s := senders[i];
      ok := sendBytes == s.current;
      var next := if ok then Reserved(s.size) else Limited(s.size, s.limit);
      SendersUpdate(senders, i, next);
      senders := senders[i := next];
      if ok {
        sendBytes := sendBytes + s.size;
      }
    }

    method Enqueue(i: nat) returns (ok: bool)
      requires Valid() && i < |senders| && senders[i].Reserved?
      modifies this`senders, this`queue
      ensures Valid() && (ok <==> |old(queue)| < capacity)
      ensures ok ==> queue == old(queue) + [old(senders)[i].size] && senders == old(senders)[i := Idle]
      ensures !ok ==> queue == old(queue) && senders == old(senders)
    {
      ok := |queue| < capacity;
      if ok {
        SendersUpdate(senders, i, Idle);
        assert (queue + [senders[i].size])[..|queue|] == queue;
        queue := queue + [senders[i].size];
        senders := senders[i := Idle];
      }
    }

    /** The queue stayed full, or the session closed: the bytes go back. */
    method GiveUp(i: nat)
      requires Valid() && i < |senders| && senders[i].Reserved?
      modifies this`senders, this`sendBytes
      ensures Valid() && sendBytes == old(sendBytes) - old(senders)[i].size && senders == old(senders)[i := Idle]
    {
      SendersUpdate(senders, i, Idle);
      sendBytes := sendBytes - senders[i].size;
      senders := senders[i := Idle];
    }

    /** The send loop takes the oldest frame... */
    method Take()
      requires Valid() && queue != [] && taken.None?
      modifies this`queue, this`taken
      ensures Valid() && taken == Some(old(queue)[0]) && queue == old(queue)[1..]
    {
      QueueTail(queue);
      taken := Some(queue[0]);
      queue := queue[1..];
    }

    /** ... and gives its bytes back. */
    method Release()
      requires Valid() && taken.Some?
      modifies this`taken, this`sendBytes
      ensures Valid() && taken.None? && sendBytes == old(sendBytes) - old(taken).value
    {
      sendBytes := sendBytes - taken.value;
      taken := None;
    }

    method UpdateBudget(bandwidth: nat, pacing: nat, startup: bool)
      requires Valid()
      modifies this`budget
      ensures Valid()
      ensures bandwidth == 0 && pacing == 0 ==> budget == old(budget)
      ensures bandwidth != 0 || pacing != 0 ==>
        var floor := if startup then STARTUP_LIMIT else MIN_BUDGET;
        budget == Min(BYTES_PER_SLOT * capacity, Max(floor, Rate(bandwidth, pacing) / 400))
    {
      var rate := bandwidth;
      if rate == 0 || (pacing != 0 && pacing < rate) {
        rate := pacing;
      }
      if rate == 0 {
        return;
      }
      var wanted := Max(MIN_BUDGET, rate / 400);
      if startup {
        wanted := Max(wanted, STARTUP_LIMIT);
      }
      budget := Min(BYTES_PER_SLOT * capacity, wanted);
    }
  }

  /** BYTE BUDGET UNDER ANY INTERLEAVING: the counter is the sum of the frames that
      have reserved bytes and that the send loop has not finished taking, is never
      negative and never exceeds max(65556, 1500 * capacity). */
  method Run(s: Session, steps: nat)
    requires s.Valid()
    modifies s
    ensures s.Valid() && 0 <= s.sendBytes <= Ceiling(s.capacity)
    ensures s.sendBytes == SendersBytes(s.senders) + QueueBytes(s.queue) + (if s.taken.Some? then s.taken.value else 0)
  {
    hide Session.Valid;
    var left := steps;
    while left > 0
      invariant s.Valid()
    {
      Step(s);
      left := left - 1;
    }
    Bounded(s);
  }

  lemma Bounded(s: Session)
    requires s.Valid()
    ensures 0 <= s.sendBytes <= Ceiling(s.capacity)
    ensures s.sendBytes == SendersBytes(s.senders) + QueueBytes(s.queue) + (if s.taken.Some? then s.taken.value else 0)
  {
  }

  method Step(s: Session)
    requires s.Valid()
    modifies s
    ensures s.Valid()
  {
    hide Session.Valid;
    var which: nat, i: nat, size: nat, bandwidth: nat, pacing: nat, startup: bool := *, *, *, *, *, *;
    if which == 0 {
      var _ := s.NewSender();
    } else if which == 1 {
      s.UpdateBudget(bandwidth, pacing, startup);
    } else if which == 2 && s.queue != [] && s.taken.None? {
      s.Take();
    } else if which == 3 && s.taken.Some? {
      s.Release();
    } else if i < |s.senders| {
      match s.senders[i] {
        case Idle =>
          if DataFrame(size) {
            s.LoadLimit(i, size);
          }
        case Limited(_, _) =>
          var _ := s.LoadCurrent(i);
        case Comparing(_, _, _) =>
          var _ := s.CompareAndSwap(i);
        case Reserved(_) =>
          var ok := false;
          if which != 4 {
            ok := s.Enqueue(i);
          }
          if !ok {
            s.GiveUp(i);
          }
      }
    }
  }
}
