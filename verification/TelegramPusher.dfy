/** services/telegram_push_message_svc/telegram_pusher.go: the object that owns the queues. Its
    lists name each queue by the receiver it belongs to. */
module TelegramPusher {
  import opened GoRuntime
  import opened Batch
  import opened ReceiverQueue
  import opened PushPipeline

  class TelegramPusher {
    var queues: map<int, ReceiverBasedQueue>
    var priorityQueue: Slice<int>
    var nonPriorityQueue: Slice<int>

    /** Each queue stands under its own receiver, and no two share an array. */
    ghost predicate QueuesValid()
      reads this`queues, queues.Values
    {
      && (forall id :: id in queues ==> queues[id].receiverId == id && queues[id].Valid())
      && (forall a, b :: a in queues && b in queues && a != b ==> queues[a].enqueued.buf != queues[b].enqueued.buf)
    }

    ghost predicate ListsValid()
      reads this`priorityQueue, this`nonPriorityQueue
    {
      priorityQueue.Valid() && nonPriorityQueue.Valid() && priorityQueue.buf != nonPriorityQueue.buf
    }

    ghost predicate Valid()
      reads this, queues.Values
    {
      QueuesValid() && ListsValid()
    }

    ghost function Buffers(): set<array<QueueMessage>>
      reads this`queues, queues.Values
    {
      set id | id in queues :: queues[id].enqueued.buf
    }

    ghost function QueueAt(id: int): Queue
      requires id in queues && queues[id].Valid()
      reads this`queues, queues[id], queues[id].enqueued.buf
    {
      Queue(queues[id].Contents(), queues[id].lastEnqueueUTC)
    }

    ghost predicate ShowsQueues(shown: map<int, Queue>)
      requires QueuesValid()
      reads this`queues, queues.Values, Buffers()
    {
      queues.Keys == shown.Keys && forall id :: id in queues ==> QueueAt(id) == shown[id]
    }

    ghost predicate ShowsLists(priority: seq<int>, nonPriority: seq<int>)
      requires ListsValid()
      reads this`priorityQueue, this`nonPriorityQueue, priorityQueue.buf, nonPriorityQueue.buf
    {
      priorityQueue.View() == priority && nonPriorityQueue.View() == nonPriority
    }

    /** The object is in the state `pool` of the machine in PushPipeline. */
    ghost predicate Shows(pool: Pool)
      requires Valid()
      reads this, queues.Values, Buffers(), priorityQueue.buf, nonPriorityQueue.buf
    {
      ShowsQueues(pool.queues) && ShowsLists(pool.priority, pool.nonPriority)
    }

    constructor ()
      ensures Valid() && Shows(Pool(map[], [], []))
    {
      queues := map[];
      var p, n := new int[0], new int[0];
      priorityQueue := Slice(p, 0, 0);
      nonPriorityQueue := Slice(n, 0, 0);
    }

    /** `append` of a new entry to one of the two lists. */
    method List(id: int, priority: bool)
      requires ListsValid()
      modifies this`priorityQueue, this`nonPriorityQueue, priorityQueue.buf, nonPriorityQueue.buf
      ensures ListsValid()
      ensures priorityQueue.View() == old(priorityQueue.View()) + if priority then [id] else []
      ensures nonPriorityQueue.View() == old(nonPriorityQueue.View()) + if priority then [] else [id]
      ensures old(priorityQueue).buf[..] == WithEntry(old(priorityQueue.buf[..]), old(priorityQueue.End()), id, priority)
    {
      ghost var cells := priorityQueue.buf[..];
      if priority {
        priorityQueue := Append(priorityQueue, [id]);
      } else {
        nonPriorityQueue := Append(nonPriorityQueue, [id]);
      }
      assert forall k :: 0 <= k < |cells| ==>
        old(priorityQueue).buf[..][k] == WithEntry(cells, old(priorityQueue.End()), id, priority)[k];
    }

    /** Listing a receiver touches no queue. */
    method ListBesides(id: int, priority: bool, ghost shown: map<int, Queue>)
      requires Valid() && ShowsQueues(shown)
      modifies this`priorityQueue, this`nonPriorityQueue, priorityQueue.buf, nonPriorityQueue.buf
      ensures Valid() && ShowsQueues(shown)
      ensures priorityQueue.View() == old(priorityQueue.View()) + if priority then [id] else []
      ensures nonPriorityQueue.View() == old(nonPriorityQueue.View()) + if priority then [] else [id]
      ensures forall i :: i in queues ==> queues[i].enqueued == old(queues[i].enqueued)
    {
      List(id, priority);
    }

    /** The map gets a new and empty queue. */
    method Open(id: int, priority: bool, ghost shown: map<int, Queue>)
      requires QueuesValid() && id !in queues && ShowsQueues(shown)
      modifies this`queues
      ensures QueuesValid() && ShowsQueues(shown[id := Queue([], 0)])
      ensures id in queues && queues == old(queues)[id := queues[id]] && fresh(queues[id]) && fresh(queues[id].enqueued.buf)
    {
      var q := new ReceiverBasedQueue(id, priority);
      queues := queues[id := q];
    }

    /** The first half of `enqueueMessageWL`: an unknown receiver gets a queue, which is listed. */
    method EnsureQueue(id: int, priority: bool, ghost pool: Pool)
      requires Valid() && Shows(pool)
      modifies this, priorityQueue.buf, nonPriorityQueue.buf
      ensures Valid() && Shows(Listed(pool, id, priority))
      ensures queues == old(queues) || (queues == old(queues)[id := queues[id]] && fresh(queues[id]) && fresh(queues[id].enqueued.buf))
      ensures forall i :: i in old(queues) ==> queues[i].enqueued == old(queues[i].enqueued)
    {
      if id !in queues {
        Open(id, priority, pool.queues);
        ListBesides(id, priority, pool.queues[id := Queue([], 0)]);
      }
    }

    method StampNow(message: QueueMessage, clock: Clock) returns (m: QueueMessage, ghost stampedAt: Time)
      modifies clock
      ensures old(clock.now) <= stampedAt <= clock.now
      ensures m == message.(enqueueTimeUTC := if message.enqueueTimeUTC == 0 then stampedAt else message.enqueueTimeUTC)
    {
      m, stampedAt := message, clock.now;
      if m.enqueueTimeUTC == 0 {
        var t := clock.Now();
        stampedAt := t;
        m := m.(enqueueTimeUTC := t);
      }
    }

    lemma ShowsOneChanged(shown: map<int, Queue>, id: int, q: Queue)
      requires QueuesValid() && id in queues && queues.Keys == shown.Keys
      requires forall other :: other in queues && other != id ==> QueueAt(other) == shown[other]
      requires QueueAt(id) == q
      ensures ShowsQueues(shown[id := q])
    {
    }

    /** The second half: the message goes to its queue and no other queue changes. */
    method Put(m: QueueMessage, clock: Clock, ghost pool: Pool)
      requires Valid() && m.receiverId in queues && Shows(pool)
      modifies queues[m.receiverId], queues[m.receiverId].enqueued.buf, clock
      ensures Valid() && old(clock.now) <= clock.now
      ensures Shows(WithMessage(pool, m, clock.now))
    {
      assert QueueAt(m.receiverId) == pool.queues[m.receiverId];
      PutInto(queues[m.receiverId], m, clock);
      forall other | other in queues && other != m.receiverId ensures QueueAt(other) == pool.queues[other] {
        assert old(QueueAt(other)) == pool.queues[other];
      }
      ShowsOneChanged(pool.queues, m.receiverId, Queue(pool.queues[m.receiverId].messages + [m], clock.now));
    }

    method EnqueueStamped(m: QueueMessage, clock: Clock, ghost pool: Pool)
      requires Valid() && Shows(pool)
      modifies this, queues.Values, Buffers(), priorityQueue.buf, nonPriorityQueue.buf, clock
      ensures Valid() && old(clock.now) <= clock.now
      ensures Shows(EnqueueInto(pool, m, clock.now))
    {
      EnsureQueue(m.receiverId, m.priority, pool);
      Put(m, clock, Listed(pool, m.receiverId, m.priority));
      ListThenPut(pool, m, clock.now);
    }

    /** `enqueueMessageWL` is the enqueue of the machine, with the two clock readings it takes.
        Both fall under the same lock, and listing a queue does not look at the clock. */
    method EnqueueMessage(message: QueueMessage, clock: Clock, ghost pool: Pool) returns (ghost stampedAt: Time)
      requires Valid() && Shows(pool)
      modifies this, queues.Values, Buffers(), priorityQueue.buf, nonPriorityQueue.buf, clock
      ensures Valid() && old(clock.now) <= stampedAt <= clock.now
      ensures Shows(EnqueueInto(pool, Stamp(message, stampedAt), clock.now))
    {
      var m;
      m, stampedAt := StampNow(message, clock);
      EnqueueStamped(m, clock, pool);
    }

    /** `getAllQueuesRL`: the concatenation is appended to the priority list, in place when the
        array of that list has room. */
    method GetAllQueues() returns (all: Slice<int>)
      requires ListsValid()
      modifies priorityQueue.buf
      ensures ListsValid() && all.Valid()
      ensures all.View() == old(priorityQueue.View() + nonPriorityQueue.View())
      ensures priorityQueue.View() == old(priorityQueue.View()) && nonPriorityQueue.View() == old(nonPriorityQueue.View())
      ensures all.buf != nonPriorityQueue.buf
      ensures all.len <= priorityQueue.Cap() ==> all.buf == priorityQueue.buf && all.off == priorityQueue.off
      ensures all.len > priorityQueue.Cap() ==> fresh(all.buf)
    {
      all := Append(priorityQueue, nonPriorityQueue.View());
      assert priorityQueue.View() == priorityQueue.buf[..priorityQueue.End()][priorityQueue.off..];
      assert old(priorityQueue.View()) == old(priorityQueue.buf[..priorityQueue.End()])[priorityQueue.off..];
    }

    /** The loop that is to find the first eligible queue. It goes on after it has found one, so
        it picks the last: whatever was eligible when the loop began stands no later in the
        list than the pick. When nothing comes between, it is a run of the machine. */
    method SelectQueue(order: seq<int>, clock: Clock, ghost v: Variant, ghost s: State)
      returns (picked: Option<int>, ghost at: int, ghost steps: seq<Step>)
      requires QueuesValid() && forall id :: id in order ==> id in queues
      requires s.pc == Peek(order, 0, None) && s.now == clock.now && ShowsQueues(s.pool.queues)
      modifies clock
      ensures old(clock.now) <= clock.now
      ensures LastOf(s.pool.queues, order, picked, at, old(clock.now), clock.now)
      ensures Feasible(v, s, steps)
      ensures After(v, s, steps) == s.(now := clock.now, pc := if picked.None? then Idle else Selected(picked.value))
    {
      ghost var readings;
      picked, readings := WalkOver(order, clock, s.pool.queues);
      at := PickIsLast(s.pool.queues, order, readings, old(clock.now));
      steps := WalkIsRun(v, s, order, readings);
    }

    /** The loop itself, with the clock as it is after each queue. */
    method WalkOver(order: seq<int>, clock: Clock, ghost shown: map<int, Queue>)
      returns (picked: Option<int>, ghost readings: seq<Time>)
      requires QueuesValid() && ShowsQueues(shown) && forall id :: id in order ==> id in queues
      modifies clock
      ensures Timely(shown, order, readings, old(clock.now)) && EndOf(readings, old(clock.now)) == clock.now
      ensures picked == PickOf(shown, order, readings)
    {
      picked, readings := None, [];
      for i := 0 to |order|
        invariant Timely(shown, order[..i], readings, old(clock.now)) && EndOf(readings, old(clock.now)) == clock.now
        invariant picked == PickOf(shown, order[..i], readings)
      {
        assert order[i] in order;
        var eligible := TestQueue(order[i], clock, shown);
        TakeOneMore(order, i);
        OneMoreReading(shown, order[..i], readings, order[i], clock.now, old(clock.now));
        readings := readings + [clock.now];
        if eligible {
          picked := Some(order[i]);
        }
      }
      TakeAll(order);
    }

    /** One turn of that loop: the clock is read only for a queue with pending messages. */
    method TestQueue(id: int, clock: Clock, ghost shown: map<int, Queue>) returns (eligible: bool)
      requires QueuesValid() && id in queues && ShowsQueues(shown)
      modifies clock
      ensures old(clock.now) <= clock.now
      ensures eligible <==> EligibleIn(shown, id, clock.now)
      ensures eligible <==> shown[id].messages != [] && clock.now - shown[id].lastEnqueueUTC >= 60_000_000_000
      ensures shown[id].messages == [] ==> clock.now == old(clock.now)
    {
      var queue := queues[id];
      if queue.enqueued.len == 0 {
        return false;
      }
      var last := queue.lastEnqueueUTC;
      var t := clock.Now();
      return t - last >= MINIMUM_BETWEEN_TELEGRAM_PUSH_SAME_USER;
    }

    /** A dequeue changes its own queue only. What it does to that queue is left to `spec`, which
        the contract of the dequeue implies. */
    method DequeueFrom(id: int, size: nat, clock: Clock, ghost shown: map<int, Queue>, ghost spec: Relation)
      returns (batch: Slice<QueueMessage>, ghost left: seq<QueueMessage>)
      requires QueuesValid() && id in queues && ShowsQueues(shown)
      requires forall queue, taken, rest :: Dequeues(queue, size, taken, rest) ==> spec(queue, taken, rest)
      modifies queues[id], queues[id].enqueued.buf, clock
      ensures QueuesValid() && batch.Valid() && old(clock.now) <= clock.now
      ensures spec(shown[id].messages, batch.View(), left)
      ensures ShowsQueues(shown[id := Queue(left, clock.now)])
    {
      assert forall other :: other in queues ==> QueueAt(other) == shown[other];
      batch, left := TakeFrom(queues[id], size, clock, spec);
      forall other | other in queues && other != id ensures QueueAt(other) == shown[other] {
        assert old(QueueAt(other)) == shown[other];
      }
      ShowsOneChanged(shown, id, Queue(left, clock.now));
    }

    /** The dequeue of the selected queue is the machine's, as written. */
    method TakeBatch(id: int, clock: Clock, ghost s: State) returns (batch: Slice<QueueMessage>)
      requires Valid() && id in queues && Shows(s.pool) && s.pc == Selected(id) && s.now == clock.now
      modifies queues[id], queues[id].enqueued.buf, clock
      ensures Valid() && batch.Valid() && old(clock.now) <= clock.now
      ensures Enabled(s, Step.TakeBatch(clock.now))
      ensures var s' := AfterTakeBatch(AsWritten, s, clock.now);
              Shows(s'.pool) && s'.pc == if batch.View() == [] then Idle else Filtering(id, batch.View(), [])
    {
      ghost var left;
      batch, left := DequeueFrom(id, BATCH_SIZE_TELEGRAM_PUSH_PER_USER, clock, s.pool.queues,
        (queue, taken, rest) => Dequeues(queue, BATCH_SIZE_TELEGRAM_PUSH_PER_USER, taken, rest));
    }

    /** A receiver listed while the pusher walks over its list: the list the pusher holds is
        overwritten exactly as the machine says, at the place after the priority queues, when
        the receiver has priority and the array was shared. */
    method ListDuringScan(all: Slice<int>, id: int, priority: bool) returns (ghost aliased: bool)
      requires ListsValid() && all.Valid() && all.buf != nonPriorityQueue.buf
      requires all.len >= priorityQueue.len
      requires all.buf == priorityQueue.buf ==> all.off == priorityQueue.off
      modifies this`priorityQueue, this`nonPriorityQueue, priorityQueue.buf, nonPriorityQueue.buf
      ensures ListsValid() && aliased == (all.buf == old(priorityQueue.buf))
      ensures all.View() == if aliased && priority && old(priorityQueue.len) < all.len
                            then old(all.View())[old(priorityQueue.len) := id] else old(all.View())
    {
      aliased := all.buf == priorityQueue.buf;
      ghost var before, cells, n := all.View(), all.buf[..], priorityQueue.len;
      List(id, priority);
      assert before == cells[all.off..all.off + all.len];
      assert all.buf[..] == if aliased then WithEntry(cells, all.off + n, id, priority) else cells;
    }
  }

  // ----- the loop over the queues, on values

  /** The clock after the last reading. */
  function EndOf(readings: seq<Time>, start: Time): Time {
    if readings == [] then start else readings[|readings| - 1]
  }

  /** One reading for each queue; time goes on, and stands still at a queue that is empty. */
  ghost predicate Timely(queues: map<int, Queue>, order: seq<int>, readings: seq<Time>, start: Time) {
    && |readings| == |order| && (forall id :: id in order ==> id in queues)
    && (readings != [] ==>
          var n := |readings| - 1;
          && Timely(queues, order[..n], readings[..n], start)
          && EndOf(readings[..n], start) <= readings[n]
          && (queues[order[n]].messages == [] ==> readings[n] == EndOf(readings[..n], start)))
  }

  /** The last queue that is eligible at its reading. */
  function PickOf(queues: map<int, Queue>, order: seq<int>, readings: seq<Time>): Option<int>
    requires |readings| == |order|
  {
    if order == [] then None
    else
      var n := |order| - 1;
      if EligibleIn(queues, order[n], readings[n]) then Some(order[n]) else PickOf(queues, order[..n], readings[..n])
  }

  lemma OneMoreReading(queues: map<int, Queue>, order: seq<int>, readings: seq<Time>, id: int, t: Time, start: Time)
    requires Timely(queues, order, readings, start) && id in queues && EndOf(readings, start) <= t
    requires queues[id].messages == [] ==> t == EndOf(readings, start)
    ensures Timely(queues, order + [id], readings + [t], start)
    ensures PickOf(queues, order + [id], readings + [t])
         == if EligibleIn(queues, id, t) then Some(id) else PickOf(queues, order, readings)
  {
    assert (order + [id])[..|order|] == order && (readings + [t])[..|readings|] == readings;
  }

  /** The pick is eligible at the end of the loop, and no queue that was eligible at its start
      stands after it. */
  ghost predicate LastOf(queues: map<int, Queue>, order: seq<int>, picked: Option<int>, at: int, start: Time, end: Time) {
    && (picked.Some? ==> 0 <= at < |order| && order[at] == picked.value && EligibleIn(queues, order[at], end))
    && (forall j :: 0 <= j < |order| && EligibleIn(queues, order[j], start) ==> picked.Some? && j <= at)
  }

  lemma {:induction false} PickIsLast(queues: map<int, Queue>, order: seq<int>, readings: seq<Time>, start: Time) returns (at: int)
    requires Timely(queues, order, readings, start)
    ensures start <= EndOf(readings, start)
    ensures LastOf(queues, order, PickOf(queues, order, readings), at, start, EndOf(readings, start))
  {
    at := -1;
    if order != [] {
      var n := |order| - 1;
      at := PickIsLast(queues, order[..n], readings[..n], start);
      if EligibleIn(queues, order[n], readings[n]) {
        at := n;
      } else {
        assert forall j :: 0 <= j < n ==> order[..n][j] == order[j];
      }
    }
  }

  lemma {:induction false} WalkReaches(v: Variant, s: State, all: seq<int>, order: seq<int>, readings: seq<Time>)
    returns (steps: seq<Step>)
    requires s.pc == Peek(all, 0, None) && order <= all
    requires Timely(s.pool.queues, order, readings, s.now)
    ensures Feasible(v, s, steps)
    ensures After(v, s, steps)
         == s.(now := EndOf(readings, s.now), pc := Peek(all, |order|, PickOf(s.pool.queues, order, readings)))
    decreases |order|
  {
    steps := [];
    if order != [] {
      var n := |order| - 1;
      steps := WalkReaches(v, s, all, order[..n], readings[..n]);
      assert all[n] == order[n] && order[n] in order;
      var looks := Look(v, After(v, s, steps), readings[n]);
      RunOn(v, s, steps, looks);
      steps := steps + looks;
    }
  }

  lemma WalkIsRun(v: Variant, s: State, order: seq<int>, readings: seq<Time>) returns (steps: seq<Step>)
    requires s.pc == Peek(order, 0, None) && Timely(s.pool.queues, order, readings, s.now)
    ensures Feasible(v, s, steps)
    ensures var picked := PickOf(s.pool.queues, order, readings);
            After(v, s, steps) ==
            s.(now := EndOf(readings, s.now), pc := if picked.None? then Idle else Selected(picked.value))
  {
    var looks := WalkReaches(v, s, order, order, readings);
    OneStep(v, After(v, s, looks), EndScan);
    RunOn(v, s, looks, [EndScan]);
    steps := looks + [EndScan];
  }

  /** The array of the priority list after a receiver is listed: the cell behind the list is
      written when there is one. */
  function WithEntry(cells: seq<int>, end: nat, id: int, priority: bool): seq<int> {
    if priority && end < |cells| then cells[end := id] else cells
  }

  /** An enqueue, leaving aside what it says about the array. */
  method PutInto(q: ReceiverBasedQueue, m: QueueMessage, clock: Clock)
    requires q.Valid() && q.receiverId == m.receiverId
    modifies q, q.enqueued.buf, clock
    ensures q.Valid() && old(clock.now) <= clock.now == q.lastEnqueueUTC
    ensures q.Contents() == old(q.Contents()) + [m]
    ensures q.enqueued.buf == old(q.enqueued.buf) || fresh(q.enqueued.buf)
  {
    var ok := q.EnqueueMessage(m, clock);
  }

  /** A queue, what a dequeue hands out of it, and what it leaves. */
  type Relation = (seq<QueueMessage>, seq<QueueMessage>, seq<QueueMessage>) -> bool

  predicate Dequeues(queue: seq<QueueMessage>, size: nat, taken: seq<QueueMessage>, left: seq<QueueMessage>) {
    taken == Taken(queue, size) && left == Remaining(queue, size)
  }

  /** A dequeue, leaving aside what it says about the shared array. */
  method TakeFrom(q: ReceiverBasedQueue, size: nat, clock: Clock, ghost spec: Relation)
    returns (batch: Slice<QueueMessage>, ghost left: seq<QueueMessage>)
    requires q.Valid()
    requires forall queue, taken, rest :: Dequeues(queue, size, taken, rest) ==> spec(queue, taken, rest)
    modifies q, q.enqueued.buf, clock
    ensures q.Valid() && batch.Valid() && old(clock.now) <= clock.now == q.lastEnqueueUTC
    ensures q.Contents() == left && spec(old(q.Contents()), batch.View(), left)
    ensures q.enqueued.buf == old(q.enqueued.buf) || fresh(q.enqueued.buf)
  {
    ghost var queue := q.Contents();
    batch := q.DequeueMessages(size, clock);
    left := q.Contents();
    assert Dequeues(queue, size, batch.View(), left);
  }

  function WithMessage(pool: Pool, m: QueueMessage, at: Time): Pool
    requires m.receiverId in pool.queues
  {
    pool.(queues := pool.queues[m.receiverId := Queue(pool.queues[m.receiverId].messages + [m], at)])
  }

  /** The pool once a receiver is listed, with nothing enqueued yet. */
  function Listed(pool: Pool, id: int, priority: bool): Pool {
    if id in pool.queues then pool
    else
      Pool(pool.queues[id := Queue([], 0)],
           if priority then pool.priority + [id] else pool.priority,
           if priority then pool.nonPriority else pool.nonPriority + [id])
  }

  lemma ListThenPut(pool: Pool, m: QueueMessage, at: Time)
    ensures EnqueueInto(pool, m, at) == WithMessage(Listed(pool, m.receiverId, m.priority), m, at)
  {
    assert [] + [m] == [m];
  }
}
