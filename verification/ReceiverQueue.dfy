/** services/telegram_push_message_svc/receiver_based_queue.go: the pending messages of one
    receiver, on slices that share their backing array. */
module ReceiverQueue {
  import opened GoRuntime
  import opened Batch

  /** The messages that a dequeue of the given size looks at. */
  function Taken(queue: seq<QueueMessage>, size: nat): seq<QueueMessage> {
    queue[..if size >= |queue| then |queue| else size]
  }

  /** What stays in the queue: all but the messages that fit. */
  function Remaining(queue: seq<QueueMessage>, size: nat): seq<QueueMessage> {
    queue[Kept(Taken(queue, size))..]
  }

  /** What stays, spelled out: all but the first `k` messages, where `k` is the most that fit in a
      text of less than 4096 bytes, of the first `size` or all there are. */
  lemma RemainingMeans(queue: seq<QueueMessage>, size: nat) returns (k: nat)
    ensures k <= |queue| && k <= size && Remaining(queue, size) == queue[k..]
    ensures |Join(queue[..k])| < 4096
    ensures k < |queue| && k < size ==> |Join(queue[..k + 1])| >= 4096
  {
    var taken := Taken(queue, size);
    k := Kept(taken);
    KeptIsLongest(taken, k);
    assert taken[..k] == queue[..k];
    if k < |taken| {
      KeptIsLongest(taken, k + 1);
      assert taken[..k + 1] == queue[..k + 1];
    }
  }

  lemma PrefixLength(ms: seq<QueueMessage>, k: nat)
    requires k < |ms|
    ensures |Join(ms[..k + 1])| == |Join(ms[..k])| + |ms[k].message| + if k > 0 then |BATCH_MESSAGES_LINE_DIVIDER| else 0
  {
    TakeOneMore(ms, k);
    JoinOneMore(ms[..k], ms[k]);
  }

  lemma KeptHere(ms: seq<QueueMessage>, k: nat)
    requires k <= |ms| && Fits(ms[..k]) && (k < |ms| ==> !Fits(ms[..k + 1]))
    ensures Kept(ms) == k
  {
    FitsIff(ms, k);
    if k < |ms| {
      FitsIff(ms, k + 1);
    }
  }

  lemma FitsIff(ms: seq<QueueMessage>, k: nat)
    requires k <= |ms|
    ensures Fits(ms[..k]) <==> k <= Kept(ms)
  {
    KeptIsLongest(ms, k);
  }

  class ReceiverBasedQueue {
    const receiverId: int
    const isPriority: bool
    var lastEnqueueUTC: Time
    var enqueued: Slice<QueueMessage>

    ghost predicate Valid()
      reads this
    {
      enqueued.Valid()
    }

    ghost function Contents(): seq<QueueMessage>
      requires Valid()
      reads this, enqueued.buf
    {
      enqueued.View()
    }

    constructor (receiverId: int, isPriority: bool)
      ensures Valid() && fresh(enqueued.buf)
      ensures Contents() == [] && lastEnqueueUTC == 0
      ensures this.receiverId == receiverId && this.isPriority == isPriority
    {
      this.receiverId := receiverId;
      this.isPriority := isPriority;
      lastEnqueueUTC := 0;
      var empty := new QueueMessage[0];
      enqueued := Slice(empty, 0, 0);
    }

    /** `EnqueueMessageWL`. A message for someone else is a panic, `ok == false`. Cells before
        the end of the queue, which a dequeued batch may still be reading, are never written. */
    method EnqueueMessage(message: QueueMessage, clock: Clock) returns (ok: bool)
      requires Valid()
      modifies this, enqueued.buf, clock
      ensures Valid() && old(clock.now) <= clock.now
      ensures ok <==> message.receiverId == receiverId
      ensures Contents() == if ok then old(Contents()) + [message] else old(Contents())
      ensures lastEnqueueUTC == if ok then clock.now else old(lastEnqueueUTC)
      ensures enqueued.buf == old(enqueued.buf) || fresh(enqueued.buf)
      ensures enqueued.buf == old(enqueued.buf) ==> old(enqueued.End()) <= enqueued.End()
      ensures forall i :: 0 <= i < old(enqueued.End()) ==> old(enqueued.buf)[i] == old(enqueued.buf[i])
    {
      if message.receiverId != receiverId {
        return false;
      }
      enqueued := Append(enqueued, [message]);
      lastEnqueueUTC := clock.Now();
      return true;
    }

    /** The loop that measures how many messages fit. */
    method CountKept(result: Slice<QueueMessage>) returns (kept: nat)
      requires result.Valid()
      ensures kept == Kept(result.View()) && kept <= result.len
    {
      ghost var view := result.View();
      var cumulative := 0;
      kept := 0;
      while kept < result.len
        invariant kept <= |view| == result.len
        invariant cumulative == |Join(view[..kept])|
        invariant Fits(view[..kept])
      {
        var message := result.buf[result.off + kept];
        var newCumulative := cumulative + |message.message|;
        if kept > 0 {
          newCumulative := newCumulative + |BATCH_MESSAGES_LINE_DIVIDER|;
        }
        assert message == view[kept];
        PrefixLength(view, kept);
        if newCumulative >= MAXIMUM_TELEGRAM_MESSAGE_LENGTH {
          KeptHere(view, kept);
          return;
        }
        cumulative := newCumulative;
        kept := kept + 1;
      }
      KeptHere(view, kept);
    }

    /** The first half of `DequeueMessagesWL`: two windows side by side on one array, or the
        whole array and a new empty queue. */
    method CutOff(size: nat) returns (result: Slice<QueueMessage>)
      requires Valid()
      modifies this`enqueued
      ensures Valid() && result.Valid()
      ensures result.buf == old(enqueued.buf)
      ensures result.View() == Taken(old(Contents()), size)
      ensures Contents() == old(Contents())[result.len..]
      ensures (enqueued.buf == result.buf && enqueued.off == result.End()) || (fresh(enqueued.buf) && enqueued.len == 0)
    {
      if size >= enqueued.len {
        result := enqueued;
        var empty := new QueueMessage[0];
        enqueued := Slice(empty, 0, 0);
      } else {
        result := enqueued.Cut(0, size);
        enqueued := enqueued.Cut(size, enqueued.len);
      }
    }

    /** The put-back: the rest of the queue is appended onto a window of the array that already
        holds it, so no cell changes. */
    method PutBack(result: Slice<QueueMessage>, kept: nat)
      requires Valid() && result.Valid() && kept <= result.len
      requires (enqueued.buf == result.buf && enqueued.off == result.End()) || enqueued.len == 0
      modifies this`enqueued, result.buf
      ensures Valid()
      ensures result.buf[..] == old(result.buf[..])
      ensures Contents() == old(result.View())[kept..] + old(Contents())
      ensures enqueued.buf == result.buf && result.End() <= enqueued.End()
    {
      var rest := enqueued.View();
      var tail := result.Cut(kept, result.len);
      ghost var before := result.buf[..];
      assert tail.View() == result.View()[kept..];
      assert rest == before[result.End()..result.End() + |rest|];
      enqueued := Append(tail, rest);
      RewritesItself(before, result.buf[..], result.End(), rest);
    }

    /** `DequeueMessagesWL`, as written: the messages that do not fit are put back, but the
        naked return still hands out all of `result`. */
    method DequeueMessages(size: nat, clock: Clock) returns (result: Slice<QueueMessage>)
      requires Valid()
      modifies this, enqueued.buf, clock
      ensures Valid() && old(clock.now) <= clock.now == lastEnqueueUTC
      ensures result.Valid() && result.buf == old(enqueued.buf)
      ensures old(enqueued.buf)[..] == old(enqueued.buf[..])
      ensures result.len == if size < |old(Contents())| then size else |old(Contents())|
      ensures result.View() == old(Contents())[..result.len] == Taken(old(Contents()), size)
      ensures Contents() == Remaining(old(Contents()), size)
      ensures enqueued.buf == result.buf || fresh(enqueued.buf)
      ensures enqueued.buf == result.buf ==> result.End() <= enqueued.End()
    {
      ghost var queue := Contents();
      result := CutOff(size);
      var kept := CountKept(result);
      assert Taken(queue, size) == queue[..result.len];
      if kept < result.len {
        PutBack(result, kept);
        CutTwice(queue, kept, result.len);
      }
      lastEnqueueUTC := clock.Now();
    }
  }

  /** Writing into an array what it already holds leaves it as it was. */
  lemma RewritesItself<T>(before: seq<T>, after: seq<T>, at: nat, xs: seq<T>)
    requires |before| == |after| && at + |xs| <= |before|
    requires after[..at] == before[..at]
    requires after[at + |xs|..] == before[at + |xs|..]
    requires after[at..at + |xs|] == xs == before[at..at + |xs|]
    ensures after == before
  {
    assert after == after[..at] + after[at..at + |xs|] + after[at + |xs|..];
    assert before == before[..at] + before[at..at + |xs|] + before[at + |xs|..];
  }

  /** What is held cannot be written by an enqueue: either the queue has moved to another array,
      or the window held ends before the queue does. */
  ghost predicate OutOfReach(q: ReceiverBasedQueue, held: Slice<QueueMessage>)
    reads q
  {
    held.buf == q.enqueued.buf ==> held.End() <= q.enqueued.End()
  }

  /** An enqueue writes no cell below the end of the queue. */
  method EnqueueBeside(q: ReceiverBasedQueue, m: QueueMessage, clock: Clock, ghost held: Slice<QueueMessage>)
    requires q.Valid() && held.Valid() && OutOfReach(q, held)
    modifies q, q.enqueued.buf, clock
    ensures q.Valid() && OutOfReach(q, held)
    ensures q.enqueued.buf == old(q.enqueued.buf) || fresh(q.enqueued.buf)
    ensures held.View() == old(held.View())
    ensures q.Contents() == old(q.Contents()) + if m.receiverId == q.receiverId then [m] else []
  {
    ghost var cells := held.buf[..];
    var ok := q.EnqueueMessage(m, clock);
    SameWindow(cells, held.buf[..], held.off, held.End());
  }

  lemma SameWindow<T>(before: seq<T>, after: seq<T>, lo: nat, hi: nat)
    requires lo <= hi <= |before| == |after|
    requires forall i :: lo <= i < hi ==> after[i] == before[i]
    ensures after[lo..hi] == before[lo..hi]
  {
  }

  /** Those of the messages that are for the receiver. */
  function For(receiverId: int, ms: seq<QueueMessage>): seq<QueueMessage> {
    if ms == [] then []
    else For(receiverId, ms[..|ms| - 1]) + if ms[|ms| - 1].receiverId == receiverId then [ms[|ms| - 1]] else []
  }

  lemma ForOneMore(receiverId: int, ms: seq<QueueMessage>, m: QueueMessage)
    ensures For(receiverId, ms + [m]) == For(receiverId, ms) + if m.receiverId == receiverId then [m] else []
  {
    assert (ms + [m])[..|ms|] == ms;
  }

  /** Any number of enqueues, while a window of the array is held. */
  method EnqueueAllBeside(q: ReceiverBasedQueue, ms: seq<QueueMessage>, clock: Clock, ghost held: Slice<QueueMessage>)
    requires q.Valid() && held.Valid() && OutOfReach(q, held)
    modifies q, q.enqueued.buf, clock
    ensures q.Valid()
    ensures held.View() == old(held.View())
    ensures q.Contents() == old(q.Contents()) + For(q.receiverId, ms)
  {
    for n := 0 to |ms|
      invariant q.Valid() && OutOfReach(q, held)
      invariant q.enqueued.buf == old(q.enqueued.buf) || fresh(q.enqueued.buf)
      invariant held.View() == old(held.View())
      invariant q.Contents() == old(q.Contents()) + For(q.receiverId, ms[..n])
    {
      ForOneMore(q.receiverId, ms[..n], ms[n]);
      TakeOneMore(ms, n);
      EnqueueBeside(q, ms[n], clock, held);
    }
    TakeAll(ms);
  }

  /** MAIN. What the pusher holds after a dequeue is not disturbed by messages enqueued
      meanwhile, however many, although it may share the array of the queue; and the queue
      is what the dequeue left, followed by those messages. */
  method DequeueThenEnqueue(q: ReceiverBasedQueue, size: nat, ms: seq<QueueMessage>, clock: Clock)
    returns (batch: Slice<QueueMessage>)
    requires q.Valid()
    modifies q, q.enqueued.buf, clock
    ensures q.Valid() && batch.Valid()
    ensures batch.View() == Taken(old(q.Contents()), size)
    ensures q.Contents() == Remaining(old(q.Contents()), size) + For(q.receiverId, ms)
  {
    batch := q.DequeueMessages(size, clock);
    EnqueueAllBeside(q, ms, clock, batch);
  }
}
