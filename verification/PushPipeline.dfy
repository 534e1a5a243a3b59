/** services/telegram_push_message_svc/telegram_pusher.go as a machine: any number of
    enqueuers and the one pusher, interleaved at every lock. */
module PushPipeline {
  import opened GoRuntime
  import opened Batch
  import opened ReceiverQueue

  // ----- the queues of all receivers

  datatype Queue = Queue(messages: seq<QueueMessage>, lastEnqueueUTC: Time)

  /** The map of queues, and the two lists in which a receiver's queue is listed for ever. */
  datatype Pool = Pool(queues: map<int, Queue>, priority: seq<int>, nonPriority: seq<int>)

  /** A message without an enqueue time gets one. */
  function Stamp(m: QueueMessage, t: Time): QueueMessage {
    if m.enqueueTimeUTC == 0 then m.(enqueueTimeUTC := t) else m
  }

  /** `enqueueMessageWL` of a stamped message, done at the instant `at`. */
  function EnqueueInto(pool: Pool, m: QueueMessage, at: Time): Pool {
    var id := m.receiverId;
    if id in pool.queues then
      pool.(queues := pool.queues[id := Queue(pool.queues[id].messages + [m], at)])
    else
      Pool(pool.queues[id := Queue([m], at)],
           if m.priority then pool.priority + [id] else pool.priority,
           if m.priority then pool.nonPriority else pool.nonPriority + [id])
  }

  /** Every receiver stands exactly once in the two lists, and holds only its own messages. */
  ghost predicate PoolOk(pool: Pool) {
    && NoDuplicates(pool.priority + pool.nonPriority)
    && (forall id :: id in pool.queues <==> id in pool.priority + pool.nonPriority)
    && (forall id, m :: id in pool.queues && m in pool.queues[id].messages ==> Own(id, m))
  }

  predicate Own(id: int, m: QueueMessage) {
    m.receiverId == id && m.enqueueTimeUTC != 0
  }

  lemma EnqueueKeepsPool(pool: Pool, m: QueueMessage, at: Time)
    requires PoolOk(pool) && m.enqueueTimeUTC != 0
    ensures PoolOk(EnqueueInto(pool, m, at))
  {
    var id := m.receiverId;
    var pool' := EnqueueInto(pool, m, at);
    var both, both' := pool.priority + pool.nonPriority, pool'.priority + pool'.nonPriority;
    if id !in pool.queues {
      assert id !in both;
      var k := if m.priority then |pool.priority| else |both|;
      assert both' == both[..k] + [id] + both[k..];
      InsertedIsDistinct(both, k, id);
    } else {
      assert both' == both;
    }
  }

  lemma InsertedIsDistinct(s: seq<int>, k: nat, x: int)
    requires NoDuplicates(s) && k <= |s| && x !in s
    ensures NoDuplicates(s[..k] + [x] + s[k..])
    ensures forall y :: y in s[..k] + [x] + s[k..] <==> y in s || y == x
  {
    assert s == s[..k] + s[k..];
  }

  // ----- the machine

  /** How long the pusher sleeps before each turn. */
  const PAUSE_BETWEEN_TURNS: Duration := 300 * MILLISECOND

  /** Whether dequeue hands out what it took, as the source is written, or only the messages
      that fit, as its unused local variable suggests. */
  datatype Variant = AsWritten | Trimmed

  /** Where the pusher is. `order` is the list from `getAllQueuesRL`, `current` the queue under
      the loop, `picked` the candidate so far. */
  datatype Pc =
    | Idle
    | Sleeping(until: Time)
    | Peek(order: seq<int>, i: nat, picked: Option<int>)
    | ReadInfo(order: seq<int>, i: nat, picked: Option<int>, current: int)
    | TestInfo(order: seq<int>, i: nat, picked: Option<int>, current: int, last: Time)
    | Selected(receiver: int)
    | Filtering(receiver: int, todo: seq<QueueMessage>, unsilenced: seq<QueueMessage>)
    | Sending(receiver: int, batch: seq<QueueMessage>)
    | Requeueing(receiver: int, rest: seq<QueueMessage>)

  /** What has become of the messages of one receiver. A message is duplicated when dequeue
      hands it out and puts it back as well. */
  datatype Ledger = Ledger(accepted: multiset<QueueMessage>, sent: multiset<QueueMessage>,
                           silenced: multiset<QueueMessage>, duplicated: multiset<QueueMessage>)

  datatype Dequeue = Dequeue(receiver: int, at: Time, taken: seq<QueueMessage>)

  datatype State = State(now: Time, pool: Pool, pc: Pc, ledgers: map<int, Ledger>, log: seq<Dequeue>)

  /** `aliased` says that the list of the pusher still shares its array with the list of
      priority queues, so that a new priority queue is written over an entry of it. */
  datatype Step =
    | Enqueue(message: QueueMessage, stampedAt: Time, at: Time, aliased: bool)
    | GoToSleep
    | StartTurn(at: Time)
    | PeekQueue
    | ReadQueueInfo
    | TestQueue(at: Time)
    | EndScan
    | TakeBatch(at: Time)
    | FilterMessage(silent: bool)
    | SortBatch(sorted: seq<QueueMessage>)
    | SendOk
    | SendFail
    | Reenqueue(stampedAt: Time, at: Time)

  function Initial(now: Time): State {
    State(now, Pool(map[], [], []), Idle, map[], [])
  }

  const NOTHING := Ledger(multiset{}, multiset{}, multiset{}, multiset{})

  function LedgerOf(s: State, id: int): Ledger {
    if id in s.ledgers then s.ledgers[id] else NOTHING
  }

  predicate Scanning(pc: Pc) {
    pc.Peek? || pc.ReadInfo? || pc.TestInfo?
  }

  ghost predicate Enabled(s: State, step: Step) {
    match step
    case Enqueue(_, stampedAt, at, _) => s.now <= stampedAt <= at
    case GoToSleep => s.pc.Idle?
    case StartTurn(at) => s.pc.Sleeping? && s.now <= at && s.pc.until <= at
    case PeekQueue => s.pc.Peek? && s.pc.i < |s.pc.order| && s.pc.order[s.pc.i] in s.pool.queues
    case ReadQueueInfo => s.pc.ReadInfo? && s.pc.current in s.pool.queues
    case TestQueue(at) => s.pc.TestInfo? && s.now <= at
    case EndScan => s.pc.Peek? && s.pc.i >= |s.pc.order|
    case TakeBatch(at) => s.pc.Selected? && s.pc.receiver in s.pool.queues && s.now <= at
    case FilterMessage(_) => s.pc.Filtering? && s.pc.todo != []
    case SortBatch(sorted) =>
      && s.pc.Filtering? && s.pc.todo == []
      && multiset(sorted) == multiset(s.pc.unsilenced) && SortedBy(sorted, MessageLess)
    case SendOk => s.pc.Sending?
    case SendFail => s.pc.Sending?
    case Reenqueue(stampedAt, at) => s.pc.Requeueing? && s.pc.rest != [] && s.now <= stampedAt <= at
  }

  /** The list of the pusher after an enqueue. */
  function Overwritten(s: State, m: QueueMessage, aliased: bool): Pc {
    if Scanning(s.pc) && aliased && m.priority && m.receiverId !in s.pool.queues && |s.pool.priority| < |s.pc.order| then
      s.pc.(order := s.pc.order[|s.pool.priority| := m.receiverId])
    else
      s.pc
  }

  function HandedOut(v: Variant, taken: seq<QueueMessage>): seq<QueueMessage> {
    if v.AsWritten? then taken else taken[..Kept(taken)]
  }

  function AfterEnqueue(s: State, message: QueueMessage, stampedAt: Time, at: Time, aliased: bool): State {
    var m := Stamp(message, stampedAt);
    var ledger := LedgerOf(s, m.receiverId);
    State(at, EnqueueInto(s.pool, m, at), Overwritten(s, m, aliased),
          s.ledgers[m.receiverId := ledger.(accepted := ledger.accepted + multiset{m})], s.log)
  }

  function AfterTakeBatch(v: Variant, s: State, at: Time): State
    requires Enabled(s, TakeBatch(at))
  {
    var id := s.pc.receiver;
    var messages := s.pool.queues[id].messages;
    var taken := Taken(messages, BATCH_SIZE_TELEGRAM_PUSH_PER_USER);
    var batch := HandedOut(v, taken);
    var ledger := LedgerOf(s, id);
    State(at, s.pool.(queues := s.pool.queues[id := Queue(messages[Kept(taken)..], at)]),
          if batch == [] then Idle else Filtering(id, batch, []),
          s.ledgers[id := ledger.(duplicated := ledger.duplicated + multiset(batch[Kept(taken)..]))],
          s.log + [Dequeue(id, at, taken)])
  }

  function AfterFilter(s: State, silent: bool): State
    requires Enabled(s, FilterMessage(silent))
  {
    var m, rest, id := s.pc.todo[0], s.pc.todo[1..], s.pc.receiver;
    if silent then
      var ledger := LedgerOf(s, id);
      s.(pc := Filtering(id, rest, s.pc.unsilenced), ledgers := s.ledgers[id := ledger.(silenced := ledger.silenced + multiset{m})])
    else
      s.(pc := Filtering(id, rest, s.pc.unsilenced + [m]))
  }

  function AfterSendOk(s: State): State
    requires s.pc.Sending?
  {
    var ledger := LedgerOf(s, s.pc.receiver);
    s.(pc := Idle, ledgers := s.ledgers[s.pc.receiver := ledger.(sent := ledger.sent + multiset(s.pc.batch))])
  }

  function AfterReenqueue(s: State, stampedAt: Time, at: Time): State
    requires Enabled(s, Reenqueue(stampedAt, at))
  {
    var m, rest := Stamp(s.pc.rest[0], stampedAt), s.pc.rest[1..];
    s.(now := at, pool := EnqueueInto(s.pool, m, at), pc := if rest == [] then Idle else Requeueing(s.pc.receiver, rest))
  }

  function AfterScan(s: State, step: Step): State
    requires Enabled(s, step) && ScanStep(step)
  {
    match step
    case GoToSleep => s.(pc := Sleeping(s.now + PAUSE_BETWEEN_TURNS))
    case StartTurn(at) =>
      s.(now := at,
         pc := if s.pool.queues == map[] then Idle else Peek(s.pool.priority + s.pool.nonPriority, 0, None))
    case PeekQueue =>
      var id := s.pc.order[s.pc.i];
      s.(pc := if s.pool.queues[id].messages == [] then Peek(s.pc.order, s.pc.i + 1, s.pc.picked)
               else ReadInfo(s.pc.order, s.pc.i, s.pc.picked, id))
    case ReadQueueInfo =>
      var q := s.pool.queues[s.pc.current];
      s.(pc := if |q.messages| < 1 then Peek(s.pc.order, s.pc.i + 1, s.pc.picked)
               else TestInfo(s.pc.order, s.pc.i, s.pc.picked, s.pc.current, q.lastEnqueueUTC))
    case TestQueue(at) =>
      var cool := at - s.pc.last >= MINIMUM_BETWEEN_TELEGRAM_PUSH_SAME_USER;
      s.(now := at, pc := Peek(s.pc.order, s.pc.i + 1, if cool then Some(s.pc.current) else s.pc.picked))
    case EndScan =>
      s.(pc := if s.pc.picked.None? then Idle else Selected(s.pc.picked.value))
  }

  predicate ScanStep(step: Step) {
    step.GoToSleep? || step.StartTurn? || step.PeekQueue? || step.ReadQueueInfo? || step.TestQueue? || step.EndScan?
  }

  function Apply(v: Variant, s: State, step: Step): State
    requires Enabled(s, step)
  {
    match step
    case Enqueue(message, stampedAt, at, aliased) => AfterEnqueue(s, message, stampedAt, at, aliased)
    case TakeBatch(at) => AfterTakeBatch(v, s, at)
    case FilterMessage(silent) => AfterFilter(s, silent)
    case SortBatch(sorted) => s.(pc := if s.pc.unsilenced == [] then Idle else Sending(s.pc.receiver, sorted))
    case SendOk => AfterSendOk(s)
    case SendFail => s.(pc := Requeueing(s.pc.receiver, s.pc.batch))
    case Reenqueue(stampedAt, at) => AfterReenqueue(s, stampedAt, at)
    case _ => AfterScan(s, step)
  }

  // ----- what every state keeps

  /** The messages of a receiver that the pusher holds. */
  function InFlight(pc: Pc, id: int): multiset<QueueMessage> {
    match pc
    case Filtering(r, todo, unsilenced) => if r == id then multiset(todo) + multiset(unsilenced) else multiset{}
    case Sending(r, batch) => if r == id then multiset(batch) else multiset{}
    case Requeueing(r, rest) => if r == id then multiset(rest) else multiset{}
    case _ => multiset{}
  }

  /** The exact account of a receiver, for one message. */
  predicate Balanced(s: State, id: int, m: QueueMessage)
    requires id in s.pool.queues
  {
    var l := LedgerOf(s, id);
    l.accepted[m] + l.duplicated[m]
    == l.sent[m] + l.silenced[m] + InFlight(s.pc, id)[m] + multiset(s.pool.queues[id].messages)[m]
  }

  ghost predicate LedgersOk(s: State) {
    && s.ledgers.Keys == s.pool.queues.Keys
    && forall id, m :: id in s.pool.queues ==> Balanced(s, id, m)
  }

  ghost predicate AllOwn(id: int, ms: seq<QueueMessage>) {
    forall m :: m in ms ==> Own(id, m)
  }

  /** The pusher names registered receivers only, and holds only messages of its receiver. */
  ghost predicate PcOk(s: State) {
    match s.pc
    case Idle => true
    case Sleeping(_) => true
    case Peek(order, _, picked) => RegisteredAll(s, order, picked)
    case ReadInfo(order, _, picked, current) => RegisteredAll(s, order, picked) && current in s.pool.queues
    case TestInfo(order, _, picked, current, _) => RegisteredAll(s, order, picked) && current in s.pool.queues
    case Selected(r) => r in s.pool.queues
    case Filtering(r, todo, unsilenced) => r in s.pool.queues && AllOwn(r, todo) && AllOwn(r, unsilenced)
    case Sending(r, batch) => r in s.pool.queues && AllOwn(r, batch) && batch != [] && SortedBy(batch, MessageLess)
    case Requeueing(r, rest) => r in s.pool.queues && AllOwn(r, rest) && rest != []
  }

  ghost predicate RegisteredAll(s: State, order: seq<int>, picked: Option<int>) {
    (forall id :: id in order ==> id in s.pool.queues) && (picked.Some? ==> picked.value in s.pool.queues)
  }

  /** Every dequeue of the receiver so far lies at least the cool-down before `t`. */
  ghost predicate CooledAt(log: seq<Dequeue>, id: int, t: Time) {
    forall k :: 0 <= k < |log| && log[k].receiver == id ==> log[k].at + MINIMUM_BETWEEN_TELEGRAM_PUSH_SAME_USER <= t
  }

  ghost predicate NotBefore(log: seq<Dequeue>, id: int, t: Time) {
    forall k :: 0 <= k < |log| && log[k].receiver == id ==> log[k].at <= t
  }

  /** Two dequeues of one receiver are at least the cool-down apart. */
  ghost predicate Spaced(log: seq<Dequeue>) {
    forall i, j :: 0 <= i < j < |log| && log[i].receiver == log[j].receiver ==>
      log[i].at + MINIMUM_BETWEEN_TELEGRAM_PUSH_SAME_USER <= log[j].at
  }

  /** A queue was last touched after each of its dequeues, and not in the future. */
  ghost predicate QueueTimes(queues: map<int, Queue>, log: seq<Dequeue>, now: Time) {
    && (forall k :: 0 <= k < |log| ==> log[k].receiver in queues)
    && (forall id :: id in queues ==> NotBefore(log, id, queues[id].lastEnqueueUTC) && queues[id].lastEnqueueUTC <= now)
  }

  /** What the pusher has learnt about cool-downs is true. */
  ghost predicate PcTimes(pc: Pc, log: seq<Dequeue>, now: Time) {
    && (Scanning(pc) && pc.picked.Some? ==> CooledAt(log, pc.picked.value, now))
    && (pc.TestInfo? ==> NotBefore(log, pc.current, pc.last))
    && (pc.Selected? ==> CooledAt(log, pc.receiver, now))
  }

  /** Every dequeue so far lies at least the pause before `t`. */
  ghost predicate PausedSince(log: seq<Dequeue>, t: Time) {
    forall k :: 0 <= k < |log| ==> log[k].at + PAUSE_BETWEEN_TURNS <= t
  }

  /** Two dequeues, of whatever receivers, are at least the pause apart. */
  ghost predicate TurnsApart(log: seq<Dequeue>) {
    forall i, j :: 0 <= i < j < |log| ==> log[i].at + PAUSE_BETWEEN_TURNS <= log[j].at
  }

  ghost predicate PausesOk(s: State) {
    && TurnsApart(s.log)
    && (s.pc.Sleeping? ==> PausedSince(s.log, s.pc.until))
    && (Scanning(s.pc) || s.pc.Selected? ==> PausedSince(s.log, s.now))
  }

  ghost predicate TimesOk(s: State) {
    s.now > 0 && Spaced(s.log) && QueueTimes(s.pool.queues, s.log, s.now) && PcTimes(s.pc, s.log, s.now)
  }

  /** No dequeue of the receiver was capped. */
  ghost predicate NeverCapped(log: seq<Dequeue>, id: int) {
    forall k :: 0 <= k < |log| && log[k].receiver == id ==> Kept(log[k].taken) == |log[k].taken|
  }

  ghost predicate DuplicatesOk(v: Variant, s: State) {
    forall id :: id in s.pool.queues ==>
      (LedgerOf(s, id).duplicated == multiset{} <==> v.Trimmed? || NeverCapped(s.log, id))
  }

  /** With trimmed batches, what the pusher holds fits in one message. */
  ghost predicate LengthOk(v: Variant, pc: Pc) {
    v.Trimmed? ==>
      match pc
      case Filtering(_, todo, unsilenced) => Fits(unsilenced + todo)
      case Sending(_, batch) => Fits(batch)
      case _ => true
  }

  ghost predicate Inv(v: Variant, s: State) {
    PoolOk(s.pool) && LedgersOk(s) && PcOk(s) && TimesOk(s) && PausesOk(s) && DuplicatesOk(v, s) && LengthOk(v, s.pc)
  }

  lemma InitialInv(v: Variant, now: Time)
    requires now > 0
    ensures Inv(v, Initial(now))
  {
  }

  // ----- one step

  /** What an enqueue does to the map of queues. */
  lemma Entered(pool: Pool, m: QueueMessage, at: Time)
    ensures var queues := EnqueueInto(pool, m, at).queues;
            && queues.Keys == pool.queues.Keys + {m.receiverId}
            && (forall id :: id in pool.queues && id != m.receiverId ==> queues[id] == pool.queues[id])
            && queues[m.receiverId].lastEnqueueUTC == at
            && multiset(queues[m.receiverId].messages)
            == multiset{m} + if m.receiverId in pool.queues then multiset(pool.queues[m.receiverId].messages) else multiset{}
  {
  }

  /** Of an unknown receiver the pusher holds nothing, and nothing was dequeued. */
  lemma NothingHeld(s: State, id: int)
    requires PcOk(s) && TimesOk(s) && LedgersOk(s) && id !in s.pool.queues
    ensures InFlight(s.pc, id) == multiset{} && LedgerOf(s, id) == NOTHING
    ensures forall k :: 0 <= k < |s.log| ==> s.log[k].receiver != id
  {
  }

  lemma OverwrittenHolds(s: State, m: QueueMessage, aliased: bool, id: int)
    ensures InFlight(Overwritten(s, m, aliased), id) == InFlight(s.pc, id)
  {
  }

  /** A step that moves no message. */
  lemma NothingMoved(v: Variant, s: State, s': State)
    requires LedgersOk(s) && DuplicatesOk(v, s)
    requires s'.pool == s.pool && s'.ledgers == s.ledgers && s'.log == s.log
    requires forall id :: InFlight(s'.pc, id) == InFlight(s.pc, id)
    ensures LedgersOk(s') && DuplicatesOk(v, s')
  {
    forall id, m | id in s'.pool.queues ensures Balanced(s', id, m) {
      assert Balanced(s, id, m);
    }
  }

  lemma SameDuplicates(v: Variant, s: State, s': State)
    requires DuplicatesOk(v, s) && s'.pool.queues.Keys == s.pool.queues.Keys && s'.log == s.log
    requires forall id :: LedgerOf(s', id).duplicated == LedgerOf(s, id).duplicated
    ensures DuplicatesOk(v, s')
  {
    forall id | id in s'.pool.queues
      ensures LedgerOf(s', id).duplicated == multiset{} <==> v.Trimmed? || NeverCapped(s'.log, id)
    {
      assert LedgerOf(s', id).duplicated == LedgerOf(s, id).duplicated;
    }
  }

  lemma SameTimes(s: State, s': State)
    requires TimesOk(s) && s'.pool == s.pool && s'.log == s.log && s'.now == s.now
    requires !Scanning(s'.pc) && !s'.pc.Selected?
    ensures TimesOk(s')
  {
  }

  lemma EnqueueBalances(s: State, message: QueueMessage, stampedAt: Time, at: Time, aliased: bool, id: int, n: QueueMessage)
    requires id in s.pool.queues ==> Balanced(s, id, n)
    requires id !in s.pool.queues ==> InFlight(s.pc, id) == multiset{} && LedgerOf(s, id) == NOTHING
    requires id in AfterEnqueue(s, message, stampedAt, at, aliased).pool.queues
    ensures Balanced(AfterEnqueue(s, message, stampedAt, at, aliased), id, n)
  {
    var m := Stamp(message, stampedAt);
    Entered(s.pool, m, at);
    OverwrittenHolds(s, m, aliased, id);
  }

  lemma EnqueueKeepsLedgers(s: State, message: QueueMessage, stampedAt: Time, at: Time, aliased: bool)
    requires PcOk(s) && TimesOk(s) && LedgersOk(s)
    ensures LedgersOk(AfterEnqueue(s, message, stampedAt, at, aliased))
  {
    var s' := AfterEnqueue(s, message, stampedAt, at, aliased);
    Entered(s.pool, Stamp(message, stampedAt), at);
    forall id, m | id in s'.pool.queues ensures Balanced(s', id, m) {
      if id !in s.pool.queues {
        NothingHeld(s, id);
      }
      EnqueueBalances(s, message, stampedAt, at, aliased, id, m);
    }
  }

  lemma EnqueueKeepsPc(s: State, message: QueueMessage, stampedAt: Time, at: Time, aliased: bool)
    requires PcOk(s)
    ensures PcOk(AfterEnqueue(s, message, stampedAt, at, aliased))
  {
    Entered(s.pool, Stamp(message, stampedAt), at);
  }

  lemma EnteredKeepsTimes(pool: Pool, m: QueueMessage, log: seq<Dequeue>, now: Time, at: Time)
    requires QueueTimes(pool.queues, log, now) && now <= at
    ensures QueueTimes(EnqueueInto(pool, m, at).queues, log, at)
  {
    var queues := EnqueueInto(pool, m, at).queues;
    Entered(pool, m, at);
    LogNotAfterNow(pool.queues, log, now);
    forall id | id in queues ensures NotBefore(log, id, queues[id].lastEnqueueUTC) && queues[id].lastEnqueueUTC <= at {
      if id != m.receiverId {
        assert NotBefore(log, id, pool.queues[id].lastEnqueueUTC);
      }
    }
  }

  lemma OverwrittenKeepsTimes(s: State, m: QueueMessage, aliased: bool, at: Time)
    requires PcTimes(s.pc, s.log, s.now) && s.now <= at
    ensures PcTimes(Overwritten(s, m, aliased), s.log, at)
  {
    CooledStays(s.log, s.now, at);
  }

  lemma EnqueueKeepsTimes(s: State, message: QueueMessage, stampedAt: Time, at: Time, aliased: bool)
    requires TimesOk(s) && s.now <= at
    ensures TimesOk(AfterEnqueue(s, message, stampedAt, at, aliased))
  {
    EnteredKeepsTimes(s.pool, Stamp(message, stampedAt), s.log, s.now, at);
    OverwrittenKeepsTimes(s, Stamp(message, stampedAt), aliased, at);
  }

  lemma LogNotAfterNow(queues: map<int, Queue>, log: seq<Dequeue>, now: Time)
    requires QueueTimes(queues, log, now)
    ensures forall k :: 0 <= k < |log| ==> log[k].at <= now
  {
    forall k | 0 <= k < |log| ensures log[k].at <= now {
      assert NotBefore(log, log[k].receiver, queues[log[k].receiver].lastEnqueueUTC);
    }
  }

  lemma CooledStays(log: seq<Dequeue>, t: Time, later: Time)
    requires t <= later
    ensures forall id :: CooledAt(log, id, t) ==> CooledAt(log, id, later)
  {
  }

  lemma EnqueueKeepsDuplicates(v: Variant, s: State, message: QueueMessage, stampedAt: Time, at: Time, aliased: bool)
    requires PcOk(s) && TimesOk(s) && LedgersOk(s) && DuplicatesOk(v, s)
    ensures DuplicatesOk(v, AfterEnqueue(s, message, stampedAt, at, aliased))
  {
    var s' := AfterEnqueue(s, message, stampedAt, at, aliased);
    var m := Stamp(message, stampedAt);
    Entered(s.pool, m, at);
    forall id | id in s'.pool.queues
      ensures LedgerOf(s', id).duplicated == multiset{} <==> v.Trimmed? || NeverCapped(s'.log, id)
    {
      if id !in s.pool.queues {
        NothingHeld(s, id);
      }
    }
  }

  lemma EnqueueKeepsInv(v: Variant, s: State, message: QueueMessage, stampedAt: Time, at: Time, aliased: bool)
    requires Inv(v, s) && s.now <= stampedAt <= at
    ensures Inv(v, AfterEnqueue(s, message, stampedAt, at, aliased))
  {
    EnqueueKeepsPool(s.pool, Stamp(message, stampedAt), at);
    EnqueueKeepsLedgers(s, message, stampedAt, at, aliased);
    EnqueueKeepsPc(s, message, stampedAt, at, aliased);
    EnqueueKeepsTimes(s, message, stampedAt, at, aliased);
    EnqueueKeepsDuplicates(v, s, message, stampedAt, at, aliased);
    SamePauses(s, AfterEnqueue(s, message, stampedAt, at, aliased));
  }

  lemma ScanKeepsTimes(s: State, step: Step)
    requires TimesOk(s) && PcOk(s) && Enabled(s, step) && ScanStep(step)
    ensures TimesOk(AfterScan(s, step))
  {
    if step.TestQueue? || step.StartTurn? {
      CooledStays(s.log, s.now, step.at);
    }
    if step.TestQueue? {
      if step.at - s.pc.last >= MINIMUM_BETWEEN_TELEGRAM_PUSH_SAME_USER {
        assert NotBefore(s.log, s.pc.current, s.pc.last);
        assert CooledAt(s.log, s.pc.current, step.at);
      }
    }
  }

  lemma ScanKeepsPc(s: State, step: Step)
    requires PcOk(s) && PoolOk(s.pool) && Enabled(s, step) && ScanStep(step)
    ensures PcOk(AfterScan(s, step))
  {
  }

  lemma ScanKeepsPauses(s: State, step: Step)
    requires TimesOk(s) && PausesOk(s) && Enabled(s, step) && ScanStep(step)
    ensures PausesOk(AfterScan(s, step))
  {
    LogNotAfterNow(s.pool.queues, s.log, s.now);
  }

  /** A step that dequeues nothing while the pusher is not before its dequeue. */
  lemma SamePauses(s: State, s': State)
    requires PausesOk(s) && s'.log == s.log && s.now <= s'.now
    requires s'.pc.Sleeping? ==> s'.pc == s.pc
    requires Scanning(s'.pc) || s'.pc.Selected? ==> Scanning(s.pc) || s.pc.Selected?
    ensures PausesOk(s')
  {
  }

  lemma ScanKeepsInv(v: Variant, s: State, step: Step)
    requires Inv(v, s) && Enabled(s, step) && ScanStep(step)
    ensures Inv(v, AfterScan(s, step))
  {
    NothingMoved(v, s, AfterScan(s, step));
    ScanKeepsPauses(s, step);
    ScanKeepsTimes(s, step);
    ScanKeepsPc(s, step);
  }

  lemma SplitBag<T>(s: seq<T>, k: nat)
    requires k <= |s|
    ensures multiset(s) == multiset(s[..k]) + multiset(s[k..])
  {
    assert s == s[..k] + s[k..];
  }

  lemma HeadBag<T>(s: seq<T>, x: T)
    requires s != []
    ensures multiset(s)[x] == multiset(s[1..])[x] + if x == s[0] then 1 else 0
  {
    assert s == [s[0]] + s[1..];
  }

  lemma LastBag<T>(s: seq<T>, last: T, x: T)
    ensures multiset(s + [last])[x] == multiset(s)[x] + if x == last then 1 else 0
  {
  }

  lemma EmptyBag<T>(s: seq<T>)
    ensures multiset(s) == multiset{} <==> s == []
  {
    assert s != [] ==> s[0] in multiset(s);
  }

  /** The bags of a dequeue: what is handed out and what is put back make up what was queued
      and the tail counted twice. */
  lemma TakenBags(v: Variant, messages: seq<QueueMessage>)
    ensures var taken := Taken(messages, BATCH_SIZE_TELEGRAM_PUSH_PER_USER);
            var batch := HandedOut(v, taken);
            Kept(taken) <= |batch| &&
            forall m :: multiset(messages)[m] + multiset(batch[Kept(taken)..])[m] == multiset(batch)[m] + multiset(messages[Kept(taken)..])[m]
  {
    var taken := Taken(messages, BATCH_SIZE_TELEGRAM_PUSH_PER_USER);
    var batch := HandedOut(v, taken);
    SplitBag(messages, Kept(taken));
    SplitBag(batch, Kept(taken));
    assert messages[..Kept(taken)] == batch[..Kept(taken)];
  }

  lemma TakeBatchHolds(v: Variant, s: State, at: Time, m: QueueMessage)
    requires Enabled(s, TakeBatch(at))
    ensures var taken := Taken(s.pool.queues[s.pc.receiver].messages, BATCH_SIZE_TELEGRAM_PUSH_PER_USER);
            InFlight(AfterTakeBatch(v, s, at).pc, s.pc.receiver)[m] == multiset(HandedOut(v, taken))[m]
  {
  }

  lemma TakeBatchBalances(v: Variant, s: State, at: Time, id: int, m: QueueMessage)
    requires id in s.pool.queues && Balanced(s, id, m) && Enabled(s, TakeBatch(at))
    ensures Balanced(AfterTakeBatch(v, s, at), id, m)
  {
    var s' := AfterTakeBatch(v, s, at);
    if id == s.pc.receiver {
      TakenBags(v, s.pool.queues[id].messages);
      TakeBatchHolds(v, s, at, m);
      assert LedgerOf(s', id).accepted[m] + LedgerOf(s, id).duplicated[m]
          == LedgerOf(s', id).sent[m] + LedgerOf(s', id).silenced[m] + multiset(s.pool.queues[id].messages)[m];
    } else {
      assert InFlight(s'.pc, id)[m] == 0;
    }
  }

  lemma TakeBatchKeepsLedgers(v: Variant, s: State, at: Time)
    requires LedgersOk(s) && Enabled(s, TakeBatch(at))
    ensures LedgersOk(AfterTakeBatch(v, s, at))
  {
    var s' := AfterTakeBatch(v, s, at);
    forall id, m | id in s'.pool.queues ensures Balanced(s', id, m) {
      TakeBatchBalances(v, s, at, id, m);
    }
  }

  lemma TakeBatchKeepsTimes(v: Variant, s: State, at: Time)
    requires TimesOk(s) && Enabled(s, TakeBatch(at))
    ensures TimesOk(AfterTakeBatch(v, s, at))
  {
    var s' := AfterTakeBatch(v, s, at);
    LogNotAfterNow(s.pool.queues, s.log, s.now);
    forall other | other in s'.pool.queues ensures NotBefore(s'.log, other, s'.pool.queues[other].lastEnqueueUTC) {
      assert NotBefore(s.log, other, s.pool.queues[other].lastEnqueueUTC);
    }
  }

  lemma LogGrows(log: seq<Dequeue>, d: Dequeue, id: int)
    ensures NeverCapped(log + [d], id) <==> NeverCapped(log, id) && (d.receiver == id ==> Kept(d.taken) == |d.taken|)
  {
    assert (log + [d])[|log|] == d;
    assert forall k :: 0 <= k < |log| ==> (log + [d])[k] == log[k];
  }

  /** Something is duplicated exactly when the batch as written is capped. */
  lemma TailIsEmptyIff(v: Variant, taken: seq<QueueMessage>)
    ensures multiset(HandedOut(v, taken)[Kept(taken)..]) == multiset{} <==> v.Trimmed? || Kept(taken) == |taken|
  {
    EmptyBag(HandedOut(v, taken)[Kept(taken)..]);
  }

  lemma TakeBatchKeepsDuplicates(v: Variant, s: State, at: Time)
    requires LedgersOk(s) && DuplicatesOk(v, s) && Enabled(s, TakeBatch(at))
    ensures DuplicatesOk(v, AfterTakeBatch(v, s, at))
  {
    var s' := AfterTakeBatch(v, s, at);
    var id := s.pc.receiver;
    var taken := Taken(s.pool.queues[id].messages, BATCH_SIZE_TELEGRAM_PUSH_PER_USER);
    TailIsEmptyIff(v, taken);
    SumIsEmpty(LedgerOf(s, id).duplicated, multiset(HandedOut(v, taken)[Kept(taken)..]));
    forall other | other in s'.pool.queues
      ensures LedgerOf(s', other).duplicated == multiset{} <==> v.Trimmed? || NeverCapped(s'.log, other)
    {
      LogGrows(s.log, Dequeue(id, at, taken), other);
    }
  }

  lemma SumIsEmpty<T>(a: multiset<T>, b: multiset<T>)
    ensures a + b == multiset{} <==> a == multiset{} && b == multiset{}
  {
    if a + b == multiset{} {
      assert forall x :: a[x] <= (a + b)[x] && b[x] <= (a + b)[x];
    }
  }

  lemma TakeBatchKeepsRest(v: Variant, s: State, at: Time)
    requires PoolOk(s.pool) && PcOk(s) && Enabled(s, TakeBatch(at))
    ensures var s' := AfterTakeBatch(v, s, at);
            PoolOk(s'.pool) && PcOk(s') && LengthOk(v, s'.pc)
  {
    var taken := Taken(s.pool.queues[s.pc.receiver].messages, BATCH_SIZE_TELEGRAM_PUSH_PER_USER);
    KeptIsLongest(taken, Kept(taken));
    assert [] + HandedOut(v, taken) == HandedOut(v, taken);
  }

  lemma TakeBatchKeepsPauses(v: Variant, s: State, at: Time)
    requires PausesOk(s) && Enabled(s, TakeBatch(at))
    ensures PausesOk(AfterTakeBatch(v, s, at))
  {
  }

  lemma TakeBatchKeepsInv(v: Variant, s: State, at: Time)
    requires Inv(v, s) && Enabled(s, TakeBatch(at))
    ensures Inv(v, AfterTakeBatch(v, s, at))
  {
    TakeBatchKeepsLedgers(v, s, at);
    TakeBatchKeepsTimes(v, s, at);
    TakeBatchKeepsDuplicates(v, s, at);
    TakeBatchKeepsRest(v, s, at);
    TakeBatchKeepsPauses(v, s, at);
  }

  lemma FilterHolds(receiver: int, todo: seq<QueueMessage>, unsilenced: seq<QueueMessage>, m: QueueMessage)
    requires todo != []
    ensures var held := InFlight(Filtering(receiver, todo, unsilenced), receiver)[m];
            && InFlight(Filtering(receiver, todo[1..], unsilenced + [todo[0]]), receiver)[m] == held
            && InFlight(Filtering(receiver, todo[1..], unsilenced), receiver)[m] == held - if m == todo[0] then 1 else 0
  {
    HeadBag(todo, m);
    LastBag(unsilenced, todo[0], m);
  }

  lemma FilterBalancesOwn(s: State, silent: bool, m: QueueMessage)
    requires Enabled(s, FilterMessage(silent))
    requires s.pc.receiver in s.pool.queues && Balanced(s, s.pc.receiver, m)
    ensures Balanced(AfterFilter(s, silent), s.pc.receiver, m)
  {
    FilterHolds(s.pc.receiver, s.pc.todo, s.pc.unsilenced, m);
    var one := if silent && m == s.pc.todo[0] then 1 else 0;
    assert InFlight(AfterFilter(s, silent).pc, s.pc.receiver)[m] == InFlight(s.pc, s.pc.receiver)[m] - one;
    assert LedgerOf(AfterFilter(s, silent), s.pc.receiver).silenced[m] == LedgerOf(s, s.pc.receiver).silenced[m] + one;
  }

  lemma FilterBalances(s: State, silent: bool, id: int, m: QueueMessage)
    requires id in s.pool.queues && Balanced(s, id, m) && Enabled(s, FilterMessage(silent))
    ensures Balanced(AfterFilter(s, silent), id, m)
  {
    if id == s.pc.receiver {
      FilterBalancesOwn(s, silent, m);
    } else {
      assert LedgerOf(AfterFilter(s, silent), id) == LedgerOf(s, id);
    }
  }

  lemma FilterKeepsLedgers(s: State, silent: bool)
    requires LedgersOk(s) && PcOk(s) && Enabled(s, FilterMessage(silent))
    ensures LedgersOk(AfterFilter(s, silent))
  {
    var s' := AfterFilter(s, silent);
    forall id, m | id in s'.pool.queues ensures Balanced(s', id, m) {
      FilterBalances(s, silent, id, m);
    }
  }

  lemma FilterKeepsLength(v: Variant, s: State, silent: bool)
    requires LengthOk(v, s.pc) && Enabled(s, FilterMessage(silent))
    ensures LengthOk(v, AfterFilter(s, silent).pc)
  {
    var m, rest := s.pc.todo[0], s.pc.todo[1..];
    assert s.pc.unsilenced + s.pc.todo == s.pc.unsilenced + [m] + rest;
    if v.Trimmed? && silent {
      PartFits(s.pc.unsilenced + rest, s.pc.unsilenced + [m] + rest);
    }
  }

  lemma FilterKeepsPc(s: State, silent: bool)
    requires PcOk(s) && Enabled(s, FilterMessage(silent))
    ensures PcOk(AfterFilter(s, silent))
  {
    assert Own(s.pc.receiver, s.pc.todo[0]);
  }

  lemma FilterKeepsInv(v: Variant, s: State, silent: bool)
    requires Inv(v, s) && Enabled(s, FilterMessage(silent))
    ensures Inv(v, AfterFilter(s, silent))
  {
    FilterKeepsLedgers(s, silent);
    FilterKeepsPc(s, silent);
    FilterKeepsLength(v, s, silent);
    SameDuplicates(v, s, AfterFilter(s, silent));
    SameTimes(s, AfterFilter(s, silent));
    SamePauses(s, AfterFilter(s, silent));
  }

  lemma SameMembers(a: seq<QueueMessage>, b: seq<QueueMessage>)
    requires multiset(a) == multiset(b)
    ensures forall m :: m in a <==> m in b
    ensures a == [] <==> b == []
  {
    forall m ensures m in a <==> m in b {
      assert m in a <==> m in multiset(a);
      assert m in b <==> m in multiset(b);
    }
    assert |a| == |multiset(a)|;
  }

  lemma SortKeepsPc(v: Variant, s: State, sorted: seq<QueueMessage>)
    requires PcOk(s) && Enabled(s, SortBatch(sorted))
    ensures PcOk(Apply(v, s, SortBatch(sorted)))
  {
    SameMembers(sorted, s.pc.unsilenced);
  }

  lemma SortKeepsLength(v: Variant, s: State, sorted: seq<QueueMessage>)
    requires LengthOk(v, s.pc) && Enabled(s, SortBatch(sorted))
    ensures LengthOk(v, Apply(v, s, SortBatch(sorted)).pc)
  {
    assert s.pc.unsilenced + s.pc.todo == s.pc.unsilenced;
    if v.Trimmed? {
      PartFits(sorted, s.pc.unsilenced);
    }
  }

  lemma SortHolds(v: Variant, s: State, sorted: seq<QueueMessage>)
    requires Enabled(s, SortBatch(sorted))
    ensures forall id :: InFlight(Apply(v, s, SortBatch(sorted)).pc, id) == InFlight(s.pc, id)
  {
    SameMembers(sorted, s.pc.unsilenced);
  }

  lemma SortKeepsInv(v: Variant, s: State, sorted: seq<QueueMessage>)
    requires Inv(v, s) && Enabled(s, SortBatch(sorted))
    ensures Inv(v, Apply(v, s, SortBatch(sorted)))
  {
    SortKeepsPc(v, s, sorted);
    SortKeepsLength(v, s, sorted);
    SortHolds(v, s, sorted);
    NothingMoved(v, s, Apply(v, s, SortBatch(sorted)));
    SameTimes(s, Apply(v, s, SortBatch(sorted)));
    SamePauses(s, Apply(v, s, SortBatch(sorted)));
  }

  lemma SendOkKeepsLedgers(s: State)
    requires LedgersOk(s) && PcOk(s) && s.pc.Sending?
    ensures LedgersOk(AfterSendOk(s))
  {
    var s' := AfterSendOk(s);
    forall id, m | id in s'.pool.queues ensures Balanced(s', id, m) {
      assert Balanced(s, id, m);
    }
  }

  lemma SendOkKeepsDuplicates(v: Variant, s: State)
    requires DuplicatesOk(v, s) && PcOk(s) && s.pc.Sending?
    ensures DuplicatesOk(v, AfterSendOk(s))
  {
    SameDuplicates(v, s, AfterSendOk(s));
  }

  lemma SendOkKeepsInv(v: Variant, s: State)
    requires Inv(v, s) && s.pc.Sending?
    ensures Inv(v, AfterSendOk(s))
  {
    SendOkKeepsLedgers(s);
    SendOkKeepsDuplicates(v, s);
    SameTimes(s, AfterSendOk(s));
    SamePauses(s, AfterSendOk(s));
  }

  lemma SendFailKeepsInv(v: Variant, s: State)
    requires Inv(v, s) && s.pc.Sending?
    ensures Inv(v, s.(pc := Requeueing(s.pc.receiver, s.pc.batch)))
  {
    NothingMoved(v, s, s.(pc := Requeueing(s.pc.receiver, s.pc.batch)));
    SamePauses(s, s.(pc := Requeueing(s.pc.receiver, s.pc.batch)));
  }

  lemma ReenqueueHolds(s: State, stampedAt: Time, at: Time, m: QueueMessage)
    requires Enabled(s, Reenqueue(stampedAt, at))
    requires s.pc.receiver in s.pool.queues && Own(s.pc.receiver, s.pc.rest[0])
    ensures var s', r, one := AfterReenqueue(s, stampedAt, at), s.pc.receiver, if m == s.pc.rest[0] then 1 else 0;
            && s'.pool.queues == s.pool.queues[r := Queue(s.pool.queues[r].messages + [s.pc.rest[0]], at)]
            && InFlight(s'.pc, r)[m] == InFlight(s.pc, r)[m] - one
            && multiset(s'.pool.queues[r].messages)[m] == multiset(s.pool.queues[r].messages)[m] + one
  {
    HeadBag(s.pc.rest, m);
    LastBag(s.pool.queues[s.pc.receiver].messages, s.pc.rest[0], m);
  }

  lemma ReenqueueBalances(s: State, stampedAt: Time, at: Time, id: int, m: QueueMessage)
    requires id in s.pool.queues && Balanced(s, id, m) && Enabled(s, Reenqueue(stampedAt, at))
    requires s.pc.receiver in s.pool.queues && Own(s.pc.receiver, s.pc.rest[0])
    ensures id in AfterReenqueue(s, stampedAt, at).pool.queues
    ensures Balanced(AfterReenqueue(s, stampedAt, at), id, m)
  {
    ReenqueueHolds(s, stampedAt, at, m);
    if id != s.pc.receiver {
      assert InFlight(AfterReenqueue(s, stampedAt, at).pc, id)[m] == 0 == InFlight(s.pc, id)[m];
    }
  }

  lemma ReenqueueKeepsLedgers(s: State, stampedAt: Time, at: Time)
    requires LedgersOk(s) && PcOk(s) && Enabled(s, Reenqueue(stampedAt, at))
    ensures LedgersOk(AfterReenqueue(s, stampedAt, at))
  {
    var s' := AfterReenqueue(s, stampedAt, at);
    assert Own(s.pc.receiver, s.pc.rest[0]);
    Entered(s.pool, s.pc.rest[0], at);
    forall id, m | id in s'.pool.queues ensures Balanced(s', id, m) {
      ReenqueueBalances(s, stampedAt, at, id, m);
    }
  }

  lemma ReenqueueKeepsTimes(s: State, stampedAt: Time, at: Time)
    requires TimesOk(s) && Enabled(s, Reenqueue(stampedAt, at))
    ensures TimesOk(AfterReenqueue(s, stampedAt, at))
  {
    EnteredKeepsTimes(s.pool, Stamp(s.pc.rest[0], stampedAt), s.log, s.now, at);
  }

  lemma ReenqueueKeepsRest(v: Variant, s: State, stampedAt: Time, at: Time)
    requires PoolOk(s.pool) && DuplicatesOk(v, s) && PcOk(s) && Enabled(s, Reenqueue(stampedAt, at))
    ensures var s' := AfterReenqueue(s, stampedAt, at);
            PoolOk(s'.pool) && PcOk(s') && LengthOk(v, s'.pc) && DuplicatesOk(v, s')
  {
    var s' := AfterReenqueue(s, stampedAt, at);
    assert Own(s.pc.receiver, s.pc.rest[0]);
    EnqueueKeepsPool(s.pool, s.pc.rest[0], at);
    Entered(s.pool, s.pc.rest[0], at);
    SameDuplicates(v, s, s');
  }

  lemma ReenqueueKeepsInv(v: Variant, s: State, stampedAt: Time, at: Time)
    requires Inv(v, s) && Enabled(s, Reenqueue(stampedAt, at))
    ensures Inv(v, AfterReenqueue(s, stampedAt, at))
  {
    ReenqueueKeepsLedgers(s, stampedAt, at);
    ReenqueueKeepsTimes(s, stampedAt, at);
    ReenqueueKeepsRest(v, s, stampedAt, at);
    SamePauses(s, AfterReenqueue(s, stampedAt, at));
  }

  lemma StepKeepsInv(v: Variant, s: State, step: Step)
    requires Inv(v, s) && Enabled(s, step)
    ensures Inv(v, Apply(v, s, step))
  {
    match step
    case Enqueue(message, stampedAt, at, aliased) => EnqueueKeepsInv(v, s, message, stampedAt, at, aliased);
    case TakeBatch(at) => TakeBatchKeepsInv(v, s, at);
    case FilterMessage(silent) => FilterKeepsInv(v, s, silent);
    case SortBatch(sorted) => SortKeepsInv(v, s, sorted);
    case SendOk => SendOkKeepsInv(v, s);
    case SendFail => SendFailKeepsInv(v, s);
    case Reenqueue(stampedAt, at) => ReenqueueKeepsInv(v, s, stampedAt, at);
    case _ => ScanKeepsInv(v, s, step);
  }

  // ----- runs

  ghost predicate Feasible(v: Variant, s: State, steps: seq<Step>)
    decreases |steps|
  {
    steps == [] || (Enabled(s, steps[0]) && Feasible(v, Apply(v, s, steps[0]), steps[1..]))
  }

  function After(v: Variant, s: State, steps: seq<Step>): State
    requires Feasible(v, s, steps)
    decreases |steps|
  {
    if steps == [] then s else After(v, Apply(v, s, steps[0]), steps[1..])
  }

  lemma {:induction false} RunKeepsInv(v: Variant, s: State, steps: seq<Step>)
    requires Inv(v, s) && Feasible(v, s, steps)
    ensures Inv(v, After(v, s, steps))
    decreases |steps|
  {
    if steps != [] {
      StepKeepsInv(v, s, steps[0]);
      RunKeepsInv(v, Apply(v, s, steps[0]), steps[1..]);
    }
  }

  /** What is left of the messages of a receiver: held by the pusher, or in the queue. */
  function Pending(s: State, id: int): multiset<QueueMessage>
    requires id in s.pool.queues
  {
    InFlight(s.pc, id) + multiset(s.pool.queues[id].messages)
  }

  /** MAIN. In every run and for every receiver, what was accepted and what was duplicated
      together are exactly what was sent, silenced or is pending, so nothing is ever lost;
      and what was accepted is exactly that by itself if and only if no dequeue of the
      receiver was capped, or capped batches are trimmed. */
  lemma Conservation(v: Variant, now: Time, steps: seq<Step>, id: int)
    requires now > 0 && Feasible(v, Initial(now), steps)
    requires id in After(v, Initial(now), steps).pool.queues
    ensures var s := After(v, Initial(now), steps);
            var l := LedgerOf(s, id);
            && l.accepted + l.duplicated == l.sent + l.silenced + Pending(s, id)
            && l.accepted <= l.sent + l.silenced + Pending(s, id)
            && (l.accepted == l.sent + l.silenced + Pending(s, id) <==> v.Trimmed? || NeverCapped(s.log, id))
  {
    var s := After(v, Initial(now), steps);
    InitialInv(v, now);
    RunKeepsInv(v, Initial(now), steps);
    var l := LedgerOf(s, id);
    var rest := l.sent + l.silenced + Pending(s, id);
    forall m ensures (l.accepted + l.duplicated)[m] == rest[m] {
      assert Balanced(s, id, m);
    }
    assert l.accepted + l.duplicated == rest;
    assert l.accepted == rest ==> forall m :: l.duplicated[m] == (l.accepted + l.duplicated)[m] - l.accepted[m];
  }

  /** MAIN. In every run, two dequeues of one receiver are at least a minute apart. */
  lemma DequeuesSpaced(v: Variant, now: Time, steps: seq<Step>, i: nat, j: nat)
    requires now > 0 && Feasible(v, Initial(now), steps)
    requires var log := After(v, Initial(now), steps).log;
             i < j < |log| && log[i].receiver == log[j].receiver
    ensures var log := After(v, Initial(now), steps).log;
            log[j].at - log[i].at >= 60_000_000_000
  {
    InitialInv(v, now);
    RunKeepsInv(v, Initial(now), steps);
  }

  /** MAIN. In every run, any two dequeues, of whatever receivers, are at least 300 ms apart. */
  lemma TurnsSpaced(v: Variant, now: Time, steps: seq<Step>, i: nat, j: nat)
    requires now > 0 && Feasible(v, Initial(now), steps)
    requires i < j < |After(v, Initial(now), steps).log|
    ensures var log := After(v, Initial(now), steps).log;
            log[j].at - log[i].at >= 300_000_000
  {
    InitialInv(v, now);
    RunKeepsInv(v, Initial(now), steps);
  }

  /** MAIN. In every run, although the pusher's list may be overwritten under its feet, each
      receiver's queue is listed exactly once and holds only messages of that receiver; and a
      batch about to be sent is sorted, and fits if batches are trimmed. */
  lemma QueuesListedOnce(v: Variant, now: Time, steps: seq<Step>)
    requires now > 0 && Feasible(v, Initial(now), steps)
    ensures var s := After(v, Initial(now), steps);
            && NoDuplicates(s.pool.priority + s.pool.nonPriority)
            && (forall id :: id in s.pool.queues <==> id in s.pool.priority + s.pool.nonPriority)
            && (forall id, m :: id in s.pool.queues && m in s.pool.queues[id].messages ==>
                  m.receiverId == id && m.enqueueTimeUTC != 0)
            && (s.pc.Sending? ==> s.pc.batch != [] && forall m :: m in s.pc.batch ==> m.receiverId == s.pc.receiver)
            && (s.pc.Sending? ==> SortedBy(s.pc.batch, MessageLess))
            && (s.pc.Sending? && v.Trimmed? ==> |Join(s.pc.batch)| < 4096)
  {
    InitialInv(v, now);
    RunKeepsInv(v, Initial(now), steps);
  }

  /** MAIN. What one dequeue hands out fits exactly when the dequeue is not capped, or trims. */
  lemma HandedOutFitsIff(v: Variant, taken: seq<QueueMessage>)
    ensures Fits(HandedOut(v, taken)) <==> v.Trimmed? || Kept(taken) == |taken|
  {
    KeptIsLongest(taken, Kept(taken));
    KeptIsLongest(taken, |taken|);
    assert taken[..|taken|] == taken;
  }

  /** As written, the cap does duplicate: after two messages that do not fit together, one
      turn has the second both in the batch and still in the queue. */
  lemma CappedMessageIsDuplicated(a: QueueMessage, b: QueueMessage)
    requires Own(1, a) && Own(1, b) && !a.priority
    requires Fits([a]) && !Fits([a, b])
    ensures var steps := TwoMessagesOneTurn(a, b);
            Feasible(AsWritten, Initial(1), steps)
            && var s := After(AsWritten, Initial(1), steps);
            && s.pc == Filtering(1, [a, b], [])
            && s.pool.queues == map[1 := Queue([b], 2 + MINUTE)]
            && LedgerOf(s, 1) == Ledger(multiset{a, b}, multiset{}, multiset{}, multiset{b})
  {
    var t := 2 + MINUTE;
    var x, y := Enqueue(a, 1, 1, false), Enqueue(b, 1, 2, false);
    var s1 := Apply(AsWritten, Initial(1), x);
    var s2 := Apply(AsWritten, s1, y);
    TwoAccepted(a, b);
    var s9 := CappedTurn(s2, a, b, t);
    TwoFirst(AsWritten, Initial(1), s1, s2, x, y, [GoToSleep, StartTurn(t)] + TurnSteps(t));
    assert TwoMessagesOneTurn(a, b) == [x, y] + ([GoToSleep, StartTurn(t)] + TurnSteps(t));
  }

  /** A whole turn over the one queue, which holds `a` and `b`. */
  lemma CappedTurn(s: State, a: QueueMessage, b: QueueMessage, t: Time) returns (end: State)
    requires s.pool == Pool(map[1 := Queue([a, b], 2)], [], [1]) && s.pc == Idle && s.now == 2 && t == 2 + MINUTE
    requires s.ledgers == map[1 := Ledger(multiset{a, b}, multiset{}, multiset{}, multiset{})]
    requires Fits([a]) && !Fits([a, b])
    ensures var steps := [GoToSleep, StartTurn(t)] + TurnSteps(t);
            Feasible(AsWritten, s, steps) && After(AsWritten, s, steps) == end
    ensures end.pc == Filtering(1, [a, b], []) && end.pool.queues == map[1 := Queue([b], t)]
    ensures LedgerOf(end, 1) == Ledger(multiset{a, b}, multiset{}, multiset{}, multiset{b})
  {
    var s3 := Apply(AsWritten, s, GoToSleep);
    var s4 := Apply(AsWritten, s3, StartTurn(t));
    assert 1 in s.pool.queues && s.pool.queues[1] == Queue([a, b], 2);
    assert s.pool.priority + s.pool.nonPriority == [1];
    end := OneTurn(s4, t);
    CapOfTwo(a, b);
    assert [a, b][1..] == [b];
    TwoFirst(AsWritten, s, s3, s4, GoToSleep, StartTurn(t), TurnSteps(t));
  }

  lemma TwoAccepted(a: QueueMessage, b: QueueMessage)
    requires Own(1, a) && Own(1, b) && !a.priority
    ensures Apply(AsWritten, Apply(AsWritten, Initial(1), Enqueue(a, 1, 1, false)), Enqueue(b, 1, 2, false))
         == State(2, Pool(map[1 := Queue([a, b], 2)], [], [1]), Idle,
                  map[1 := Ledger(multiset{a, b}, multiset{}, multiset{}, multiset{})], [])
  {
    var s1 := Apply(AsWritten, Initial(1), Enqueue(a, 1, 1, false));
    assert Stamp(a, 1) == a && Stamp(b, 1) == b;
    assert [] + [1] == [1] && multiset{} + multiset{a} == multiset{a};
    assert s1.pool == Pool(map[1 := Queue([a], 1)], [], [1]);
    assert s1.ledgers == map[1 := Ledger(multiset{a}, multiset{}, multiset{}, multiset{})];
    assert s1 == State(1, Pool(map[1 := Queue([a], 1)], [], [1]), Idle,
                       map[1 := Ledger(multiset{a}, multiset{}, multiset{}, multiset{})], []);
    assert [a] + [b] == [a, b] && multiset{a} + multiset{b} == multiset{a, b};
  }

  function TurnSteps(t: Time): seq<Step> {
    [PeekQueue, ReadQueueInfo, TestQueue(t), EndScan, TakeBatch(t)]
  }

  function TwoMessagesOneTurn(a: QueueMessage, b: QueueMessage): seq<Step> {
    [Enqueue(a, 1, 1, false), Enqueue(b, 1, 2, false), GoToSleep, StartTurn(2 + MINUTE)] + TurnSteps(2 + MINUTE)
  }

  lemma CapOfTwo(a: QueueMessage, b: QueueMessage)
    requires Fits([a]) && !Fits([a, b])
    ensures Taken([a, b], BATCH_SIZE_TELEGRAM_PUSH_PER_USER) == [a, b] && Kept([a, b]) == 1
  {
    assert [a, b][..1] == [a] && [a, b][..2] == [a, b];
    KeptHere([a, b], 1);
  }

  lemma TwoFirst(v: Variant, s0: State, s1: State, s2: State, x: Step, y: Step, rest: seq<Step>)
    requires Enabled(s0, x) && s1 == Apply(v, s0, x) && Enabled(s1, y) && s2 == Apply(v, s1, y)
    requires Feasible(v, s2, rest)
    ensures Feasible(v, s0, [x, y] + rest)
    ensures After(v, s0, [x, y] + rest) == After(v, s2, rest)
  {
    var steps := [x, y] + rest;
    assert steps[0] == x && steps[1..] == [y] + rest;
    assert ([y] + rest)[1..] == rest;
    assert Feasible(v, s1, [y] + rest) && After(v, s1, [y] + rest) == After(v, s2, rest);
  }

  /** A turn over a single receiver whose cool-down is over. */
  lemma OneTurn(s: State, t: Time) returns (end: State)
    requires s.pc == Peek([1], 0, None) && s.now <= t
    requires 1 in s.pool.queues && s.pool.queues[1].messages != [] && t - s.pool.queues[1].lastEnqueueUTC >= MINUTE
    ensures Feasible(AsWritten, s, TurnSteps(t)) && After(AsWritten, s, TurnSteps(t)) == end
    ensures Enabled(s.(pc := Selected(1)), TakeBatch(t)) && end == Apply(AsWritten, s.(pc := Selected(1)), TakeBatch(t))
  {
    var s4 := s.(pc := ReadInfo([1], 0, None, 1));
    var s5 := s.(pc := TestInfo([1], 0, None, 1, s.pool.queues[1].lastEnqueueUTC));
    var s6 := s.(now := t, pc := Peek([1], 1, Some(1)));
    var s7 := s6.(pc := Selected(1));
    end := Apply(AsWritten, s7, TakeBatch(t));
    assert end == Apply(AsWritten, s.(pc := Selected(1)), TakeBatch(t));
    var last := [TakeBatch(t)];
    assert last[1..] == [] && Feasible(AsWritten, end, last[1..]) && After(AsWritten, end, last[1..]) == end;
    assert Feasible(AsWritten, s7, [TakeBatch(t)]) && After(AsWritten, s7, [TakeBatch(t)]) == end;
    TwoFirst(AsWritten, s5, s6, s7, TestQueue(t), EndScan, [TakeBatch(t)]);
    TwoFirst(AsWritten, s, s4, s5, PeekQueue, ReadQueueInfo, [TestQueue(t), EndScan] + [TakeBatch(t)]);
    assert [PeekQueue, ReadQueueInfo] + ([TestQueue(t), EndScan] + [TakeBatch(t)]) == TurnSteps(t);
  }

  // ----- an oversized first message

  predicate HeadTooLong(messages: seq<QueueMessage>) {
    messages != [] && |messages[0].message| >= 4096
  }

  /** A dequeue of a queue that is not empty shortens it exactly when the first message alone is
      short enough, whether capped batches are trimmed or not. */
  lemma DequeueShortensIff(v: Variant, s: State, at: Time)
    requires Enabled(s, TakeBatch(at)) && s.pool.queues[s.pc.receiver].messages != []
    ensures var before, after := s.pool.queues[s.pc.receiver].messages, AfterTakeBatch(v, s, at).pool.queues[s.pc.receiver].messages;
            && (|after| < |before| <==> !HeadTooLong(before))
            && (HeadTooLong(before) ==> after == before)
  {
    KeepsSomethingIff(Taken(s.pool.queues[s.pc.receiver].messages, BATCH_SIZE_TELEGRAM_PUSH_PER_USER));
  }

  lemma HeadStaysOneStep(v: Variant, s: State, step: Step, id: int)
    requires Enabled(s, step) && id in s.pool.queues && HeadTooLong(s.pool.queues[id].messages)
    ensures id in Apply(v, s, step).pool.queues
    ensures s.pool.queues[id].messages <= Apply(v, s, step).pool.queues[id].messages
  {
    if step.TakeBatch? && s.pc.receiver == id {
      DequeueShortensIff(v, s, step.at);
    }
  }

  /** A dequeue takes the first 20 messages, or all if there are fewer. */
  lemma DequeueTakesTwenty(v: Variant, s: State, at: Time)
    requires Enabled(s, TakeBatch(at))
    ensures var messages, log := s.pool.queues[s.pc.receiver].messages, AfterTakeBatch(v, s, at).log;
            && |log| == |s.log| + 1 && log[|s.log|].receiver == s.pc.receiver && log[|s.log|].at == at
            && log[|s.log|].taken == messages[..if |messages| < 20 then |messages| else 20]
            && (v.AsWritten? ==> InFlight(AfterTakeBatch(v, s, at).pc, s.pc.receiver) == multiset(log[|s.log|].taken))
  {
  }

  /** What an enqueue does: the message goes to the end of its receiver's queue, with the time of
      the enqueue if it had none; a new receiver is listed by its priority; nothing else moves. */
  lemma EnqueueAppends(s: State, message: QueueMessage, stampedAt: Time, at: Time, aliased: bool)
    ensures var s' := AfterEnqueue(s, message, stampedAt, at, aliased);
            var id, time := message.receiverId, if message.enqueueTimeUTC == 0 then stampedAt else message.enqueueTimeUTC;
            var before := if id in s.pool.queues then s.pool.queues[id].messages else [];
            && id in s'.pool.queues && s'.pool.queues[id].lastEnqueueUTC == at
            && s'.pool.queues[id].messages
            == before + [QueueMessage(id, message.priority, message.fatal, message.message, time)]
            && (forall other :: other != id ==> (other in s'.pool.queues <==> other in s.pool.queues))
            && (forall other :: other in s.pool.queues && other != id ==> s'.pool.queues[other] == s.pool.queues[other])
            && s'.pool.priority == s.pool.priority + (if id !in s.pool.queues && message.priority then [id] else [])
            && s'.pool.nonPriority == s.pool.nonPriority + (if id !in s.pool.queues && !message.priority then [id] else [])
  {
    assert [] + [Stamp(message, stampedAt)] == [Stamp(message, stampedAt)];
  }

  /** MAIN. In every run, a message put back after a failed send keeps all it had, its enqueue time
      included, and goes to the end of its queue. */
  lemma RequeuedUnchanged(v: Variant, now: Time, steps: seq<Step>, stampedAt: Time, at: Time)
    requires now > 0 && Feasible(v, Initial(now), steps)
    requires Enabled(After(v, Initial(now), steps), Reenqueue(stampedAt, at))
    ensures var s := After(v, Initial(now), steps);
            s.pc.receiver in s.pool.queues
            && Apply(v, s, Reenqueue(stampedAt, at)).pool.queues
            == s.pool.queues[s.pc.receiver := Queue(s.pool.queues[s.pc.receiver].messages + [s.pc.rest[0]], at)]
  {
    InitialInv(v, now);
    RunKeepsInv(v, Initial(now), steps);
    var s := After(v, Initial(now), steps);
    assert Own(s.pc.receiver, s.pc.rest[0]);
  }

  /** Putting back the messages of a failed batch, one by one. */
  function Reenqueues(n: nat, at: Time): seq<Step> {
    if n == 0 then [] else [Reenqueue(at, at)] + Reenqueues(n - 1, at)
  }

  lemma {:induction false} PutBackRuns(v: Variant, s: State, at: Time)
    requires s.pc.Requeueing? && s.pc.rest != [] && AllOwn(s.pc.receiver, s.pc.rest) && s.pc.receiver in s.pool.queues
    requires s.now <= at
    ensures Feasible(v, s, Reenqueues(|s.pc.rest|, at))
    ensures var id := s.pc.receiver;
            After(v, s, Reenqueues(|s.pc.rest|, at))
            == s.(now := at, pc := Idle,
                  pool := s.pool.(queues := s.pool.queues[id := Queue(s.pool.queues[id].messages + s.pc.rest, at)]))
    decreases |s.pc.rest|
  {
    var m, rest, id := s.pc.rest[0], s.pc.rest[1..], s.pc.receiver;
    var steps := Reenqueues(|s.pc.rest|, at);
    var s1 := Apply(v, s, Reenqueue(at, at));
    assert Own(id, m);
    assert steps[1..] == Reenqueues(|rest|, at);
    assert s1.pool.queues[id].messages + rest == s.pool.queues[id].messages + s.pc.rest;
    if rest != [] {
      PutBackRuns(v, s1, at);
    } else {
      assert s.pc.rest == [m];
      assert After(v, s, steps) == After(v, s1, []) == s1;
    }
  }

  /** MAIN. After every run, a batch that could not be sent comes back whole: the pusher goes on to put
      all of it, unchanged and in its order, behind what has been pending, and no account changes. */
  lemma FailedBatchReturns(v: Variant, now: Time, steps: seq<Step>, at: Time) returns (more: seq<Step>)
    requires now > 0 && Feasible(v, Initial(now), steps)
    requires var s := After(v, Initial(now), steps); s.pc.Sending? && s.now <= at
    ensures var s := After(v, Initial(now), steps);
            var id := s.pc.receiver;
            && more == [SendFail] + Reenqueues(|s.pc.batch|, at) && Feasible(v, s, more)
            && id in s.pool.queues
            && After(v, s, more)
               == s.(now := at, pc := Idle,
                     pool := s.pool.(queues := s.pool.queues[id := Queue(s.pool.queues[id].messages + s.pc.batch, at)]))
  {
    InitialInv(v, now);
    RunKeepsInv(v, Initial(now), steps);
    var s := After(v, Initial(now), steps);
    var failed := Apply(v, s, SendFail);
    more := [SendFail] + Reenqueues(|s.pc.batch|, at);
    assert more[1..] == Reenqueues(|s.pc.batch|, at);
    PutBackRuns(v, failed, at);
  }

  /** MAIN. A first message of 4096 bytes or more blocks its queue for ever, as written just as
      with trimmed batches: whatever happens, nothing that is in the queue leaves it. */
  lemma {:induction false} OversizedHeadBlocks(v: Variant, s: State, steps: seq<Step>, id: int)
    requires Feasible(v, s, steps) && id in s.pool.queues && HeadTooLong(s.pool.queues[id].messages)
    ensures id in After(v, s, steps).pool.queues
    ensures s.pool.queues[id].messages <= After(v, s, steps).pool.queues[id].messages
    decreases |steps|
  {
    if steps != [] {
      HeadStaysOneStep(v, s, steps[0], id);
      OversizedHeadBlocks(v, Apply(v, s, steps[0]), steps[1..], id);
    }
  }

  // ----- which queue a turn picks

  predicate EligibleIn(queues: map<int, Queue>, id: int, at: Time) {
    && id in queues && queues[id].messages != []
    && at - queues[id].lastEnqueueUTC >= 60_000_000_000
  }

  /** The last eligible queue of a list. */
  function LastEligible(queues: map<int, Queue>, order: seq<int>, at: Time): Option<int> {
    if order == [] then None
    else if EligibleIn(queues, order[|order| - 1], at) then Some(order[|order| - 1])
    else LastEligible(queues, order[..|order| - 1], at)
  }

  /** A step of the loop over the queues, with the given clock reading. */
  predicate LooksAt(step: Step, at: Time) {
    step.PeekQueue? || step.ReadQueueInfo? || step.EndScan? || step == TestQueue(at)
  }

  /** What the loop over `order` knows so far. */
  ghost predicate ScanKnows(pc: Pc, queues: map<int, Queue>, order: seq<int>, at: Time) {
    match pc
    case Peek(o, i, picked) => o == order && i <= |order| && picked == LastEligible(queues, order[..i], at)
    case ReadInfo(o, i, picked, current) =>
      o == order && i < |order| && picked == LastEligible(queues, order[..i], at) && current == order[i]
    case TestInfo(o, i, picked, current, last) =>
      && o == order && i < |order| && picked == LastEligible(queues, order[..i], at) && current == order[i]
      && current in queues && queues[current].messages != [] && last == queues[current].lastEnqueueUTC
    case Selected(r) => LastEligible(queues, order, at) == Some(r)
    case Idle => LastEligible(queues, order, at) == None
    case _ => false
  }

  lemma LookKnows(v: Variant, s: State, step: Step, order: seq<int>, at: Time)
    requires ScanKnows(s.pc, s.pool.queues, order, at) && Enabled(s, step) && LooksAt(step, at)
    ensures ScanKnows(Apply(v, s, step).pc, s.pool.queues, order, at) && Apply(v, s, step).pool == s.pool
  {
    if Scanning(s.pc) {
      if s.pc.i < |order| {
        TakeOneMore(order, s.pc.i);
        assert order[..s.pc.i + 1][..s.pc.i] == order[..s.pc.i];
      } else {
        TakeAll(order);
      }
    }
  }

  /** In every run of the loop that no enqueue disturbs and whose clock readings agree, the queue
      selected is the last eligible one of the list. */
  lemma {:induction false} LoopPicksLast(v: Variant, s: State, steps: seq<Step>, order: seq<int>, at: Time)
    requires ScanKnows(s.pc, s.pool.queues, order, at) && Feasible(v, s, steps)
    requires forall step :: step in steps ==> LooksAt(step, at)
    ensures ScanKnows(After(v, s, steps).pc, s.pool.queues, order, at)
    decreases |steps|
  {
    if steps != [] {
      LookKnows(v, s, steps[0], order, at);
      LoopPicksLast(v, Apply(v, s, steps[0]), steps[1..], order, at);
    }
  }

  lemma {:induction false} LastEligibleMeans(queues: map<int, Queue>, order: seq<int>, at: Time)
    ensures LastEligible(queues, order, at) == None <==> forall id :: id in order ==> !EligibleIn(queues, id, at)
    ensures LastEligible(queues, order, at).Some? ==>
              LastEligible(queues, order, at).value in order && EligibleIn(queues, LastEligible(queues, order, at).value, at)
  {
    if order != [] {
      LastEligibleMeans(queues, order[..|order| - 1], at);
      TakeOneMore(order, |order| - 1);
      TakeAll(order);
    }
  }

  lemma {:induction false} LastEligibleConcat(queues: map<int, Queue>, a: seq<int>, b: seq<int>, at: Time)
    ensures LastEligible(queues, a + b, at)
         == if LastEligible(queues, b, at).Some? then LastEligible(queues, b, at) else LastEligible(queues, a, at)
  {
    if b == [] {
      assert a + b == a;
    } else {
      assert (a + b)[..|a + b| - 1] == a + b[..|b| - 1];
      LastEligibleConcat(queues, a, b[..|b| - 1], at);
    }
  }

  /** MAIN. In every turn that no enqueue disturbs and whose clock readings agree, a queue with
      priority is selected if and only if some such queue is eligible and no other queue is. */
  lemma PriorityPickedIff(v: Variant, s: State, steps: seq<Step>, at: Time)
    requires PoolOk(s.pool) && s.pc == Peek(s.pool.priority + s.pool.nonPriority, 0, None) && Feasible(v, s, steps)
    requires forall step :: step in steps ==> LooksAt(step, at)
    requires After(v, s, steps).pc.Selected? || After(v, s, steps).pc.Idle?
    ensures After(v, s, steps).pc.Selected? && After(v, s, steps).pc.receiver in s.pool.priority
       <==> && (exists id :: id in s.pool.priority && EligibleIn(s.pool.queues, id, at))
            && (forall id :: id in s.pool.nonPriority ==> !EligibleIn(s.pool.queues, id, at))
    ensures forall id :: id in s.pool.queues ==>
              (EligibleIn(s.pool.queues, id, at)
               <==> s.pool.queues[id].messages != [] && at - s.pool.queues[id].lastEnqueueUTC >= 60_000_000_000)
  {
    var p, n := s.pool.priority, s.pool.nonPriority;
    LoopPicksLast(v, s, steps, p + n, at);
    LastEligibleConcat(s.pool.queues, p, n, at);
    LastEligibleMeans(s.pool.queues, p, at);
    LastEligibleMeans(s.pool.queues, n, at);
    forall id | id in n ensures id !in p {
      ListedApart(p, n, id);
    }
  }

  lemma ListedApart(p: seq<int>, n: seq<int>, id: int)
    requires NoDuplicates(p + n) && id in n
    ensures id !in p
  {
    var j :| 0 <= j < |n| && n[j] == id;
    assert (p + n)[|p| + j] == id;
    assert forall i :: 0 <= i < |p| ==> (p + n)[i] == p[i];
  }

  lemma FirstOf<T>(first: seq<T>, rest: seq<T>)
    requires first != []
    ensures first + rest != [] && (first + rest)[0] == first[0] && (first + rest)[1..] == first[1..] + rest
  {
  }

  lemma {:induction false} RunOn(v: Variant, s: State, first: seq<Step>, rest: seq<Step>)
    requires Feasible(v, s, first) && Feasible(v, After(v, s, first), rest)
    ensures Feasible(v, s, first + rest)
    ensures After(v, s, first + rest) == After(v, After(v, s, first), rest)
    decreases |first|
  {
    if first == [] {
      assert first + rest == rest;
    } else {
      FirstOf(first, rest);
      RunOn(v, Apply(v, s, first[0]), first[1..], rest);
    }
  }

  lemma OneStep(v: Variant, s: State, step: Step)
    requires Enabled(s, step)
    ensures Feasible(v, s, [step]) && After(v, s, [step]) == Apply(v, s, step)
  {
    assert [step][1..] == [];
  }

  /** One turn of the loop, over a queue that is not empty: the clock is read once. */
  lemma LookAtPending(v: Variant, s: State, at: Time) returns (steps: seq<Step>)
    requires s.pc.Peek? && s.pc.i < |s.pc.order| && s.now <= at
    requires s.pc.order[s.pc.i] in s.pool.queues && s.pool.queues[s.pc.order[s.pc.i]].messages != []
    ensures Feasible(v, s, steps)
    ensures var id := s.pc.order[s.pc.i];
            After(v, s, steps) ==
            s.(now := at, pc := Peek(s.pc.order, s.pc.i + 1, if EligibleIn(s.pool.queues, id, at) then Some(id) else s.pc.picked))
    ensures forall step :: step in steps ==> LooksAt(step, at)
  {
    var order, i, picked, id := s.pc.order, s.pc.i, s.pc.picked, s.pc.order[s.pc.i];
    var s1 := s.(pc := ReadInfo(order, i, picked, id));
    var s2 := s.(pc := TestInfo(order, i, picked, id, s.pool.queues[id].lastEnqueueUTC));
    OneStep(v, s, PeekQueue);
    OneStep(v, s1, ReadQueueInfo);
    OneStep(v, s2, TestQueue(at));
    RunOn(v, s1, [ReadQueueInfo], [TestQueue(at)]);
    RunOn(v, s, [PeekQueue], [ReadQueueInfo] + [TestQueue(at)]);
    steps := [PeekQueue] + ([ReadQueueInfo] + [TestQueue(at)]);
  }

  /** One turn of the loop, over any queue, when the loop reads the clock at `at`. */
  lemma Look(v: Variant, s: State, at: Time) returns (steps: seq<Step>)
    requires s.pc.Peek? && s.pc.i < |s.pc.order| && s.pc.order[s.pc.i] in s.pool.queues && s.now <= at
    ensures Feasible(v, s, steps)
    ensures var id := s.pc.order[s.pc.i];
            After(v, s, steps) ==
            s.(now := if s.pool.queues[id].messages == [] then s.now else at,
               pc := Peek(s.pc.order, s.pc.i + 1, if EligibleIn(s.pool.queues, id, at) then Some(id) else s.pc.picked))
  {
    if s.pool.queues[s.pc.order[s.pc.i]].messages == [] {
      OneStep(v, s, PeekQueue);
      steps := [PeekQueue];
    } else {
      steps := LookAtPending(v, s, at);
    }
  }

  /** A queue with priority does lose: of two receivers whose messages wait equally long, the
      one without priority is selected. */
  lemma PriorityLoses(v: Variant, a: QueueMessage, b: QueueMessage) returns (steps: seq<Step>)
    requires Own(1, a) && a.priority && Own(2, b) && !b.priority
    ensures Feasible(v, Initial(1), steps)
    ensures var s := After(v, Initial(1), steps);
            && s.pool.priority == [1] && s.pool.nonPriority == [2] && s.pc == Selected(2)
            && EligibleIn(s.pool.queues, 1, s.now) && EligibleIn(s.pool.queues, 2, s.now)
  {
    var at := 1 + MINUTE;
    var x, y := Enqueue(a, 1, 1, false), Enqueue(b, 1, 1, false);
    var s1 := Apply(v, Initial(1), x);
    var s2 := Apply(v, s1, y);
    BothListed(v, a, b);
    var asleep := Apply(v, s2, GoToSleep);
    var s3 := Apply(v, asleep, StartTurn(at));
    assert [1] + [2] == [1, 2];
    var first := LookAtPending(v, s3, at);
    var s4 := After(v, s3, first);
    var second := LookAtPending(v, s4, at);
    var s5 := After(v, s4, second);
    OneStep(v, s5, EndScan);
    RunOn(v, s4, second, [EndScan]);
    RunOn(v, s3, first, second + [EndScan]);
    var turn := first + (second + [EndScan]);
    TwoFirst(v, s2, asleep, s3, GoToSleep, StartTurn(at), turn);
    var rest := [GoToSleep, StartTurn(at)] + turn;
    TwoFirst(v, Initial(1), s1, s2, x, y, rest);
    steps := [x, y] + rest;
  }

  lemma BothListed(v: Variant, a: QueueMessage, b: QueueMessage)
    requires Own(1, a) && a.priority && Own(2, b) && !b.priority
    ensures var s := Apply(v, Apply(v, Initial(1), Enqueue(a, 1, 1, false)), Enqueue(b, 1, 1, false));
            s.now == 1 && s.pc == Idle && s.pool == Pool(map[1 := Queue([a], 1), 2 := Queue([b], 1)], [1], [2])
  {
    assert [] + [1] == [1] && [] + [2] == [2];
  }
}
