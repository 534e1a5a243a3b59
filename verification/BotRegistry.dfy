/** registry/telegram_bot_registry/telegram_bot_registry.go with the two ends it is tied to: the
    call center that receives new bots, and the exit function that flags the shutdown and then
    closes the channel. Any number of threads ask for bots, interleaved at every lock, at the
    channel and at the calls between. */
module BotRegistry {
  import opened GoRuntime

  /** A bot is known by its id, which is unique. */
  type Bot = int

  datatype Holder = NoOne | Caller(thread: int) | ExitFunction

  datatype Reason = EmptyToken | SendOnClosedChannel

  /** What a look-up finds. */
  datatype Lookup = Down | Found(bot: Bot) | Absent

  /** Where a thread is in `GetTelegramBotByTokenWL`. */
  datatype Pc =
    | Idle
    | Called(token: string)
    | Reading(token: string)
    | HasRead(token: string, lookup: Lookup)
    | Missed(token: string)
    | Locked(token: string)
    | Creating(token: string)
    | Sending(token: string, bot: Bot)
    | Leaving(token: string, result: Option<Bot>)
    | Returned(token: string, result: Option<Bot>)
    | Panicked(reason: Reason)

  datatype Center = Waiting | Handling(bot: Bot) | Stopped

  datatype Exit = Running | Flagging | Flagged | Closed

  /** `answers`, `sends` and `launched` record, in order, what was returned to callers, received
      from the channel, and given an employee. */
  datatype State = State(
    threads: map<int, Pc>, writer: Holder, readers: set<int>, bots: map<string, Bot>, shuttingDown: bool,
    center: Center, tracker: set<Bot>, exit: Exit,
    answers: seq<(string, Option<Bot>)>, sends: seq<Bot>, launched: seq<Bot>)

  datatype Step =
    | Call(thread: int, token: string)
    | TakeReadLock(thread: int)
    | Look(thread: int)
    | DropReadLock(thread: int)
    | TakeLock(thread: int)
    | LookAgain(thread: int)
    | Create(thread: int, made: Option<Bot>)
    | Send(thread: int)
    | SendPanics(thread: int)
    | DropLock(thread: int)
    | Launch
    | CenterPanics
    | RangeEnds
    | ExitLocks
    | ExitFlags
    | ExitCloses

  function Initial(): State {
    State(map[], NoOne, {}, map[], false, Waiting, {}, Running, [], [], [])
  }

  function PcOf(s: State, t: int): Pc {
    if t in s.threads then s.threads[t] else Idle
  }

  /** Steps of the threads that ask for bots. */
  predicate Asks(step: Step) {
    !step.Launch? && !step.CenterPanics? && !step.RangeEnds? && !step.ExitLocks? && !step.ExitFlags? && !step.ExitCloses?
  }

  predicate LockFree(s: State) {
    s.writer == NoOne && s.readers == {}
  }

  predicate CallerEnabled(s: State, step: Step)
    requires Asks(step)
  {
    var pc := PcOf(s, step.thread);
    match step
    case Call(_, _) => pc.Idle? || pc.Returned?
    case TakeReadLock(_) => pc.Called? && s.writer == NoOne
    case Look(_) => pc.Reading?
    case DropReadLock(_) => pc.HasRead?
    case TakeLock(_) => pc.Missed? && LockFree(s)
    case LookAgain(_) => pc.Locked?
    case Create(_, made) => pc.Creating? && (made.Some? ==> made.value !in s.bots.Values)
    case Send(_) => pc.Sending? && s.center == Waiting && s.exit != Closed
    case SendPanics(_) => pc.Sending? && s.exit == Closed
    case DropLock(_) => pc.Leaving?
  }

  predicate Enabled(s: State, step: Step) {
    match step
    case Launch => s.center.Handling?
    case CenterPanics => s.center.Handling?
    case RangeEnds => s.center == Waiting && s.exit == Closed
    case ExitLocks => s.exit == Running && LockFree(s)
    case ExitFlags => s.exit == Flagging
    case ExitCloses => s.exit == Flagged
    case _ => CallerEnabled(s, step)
  }

  /** `getTelegramBotByTokenRL`, under either lock. */
  function LookUp(s: State, token: string): Lookup {
    if s.shuttingDown then Down
    else if token in s.bots then Found(s.bots[token])
    else Absent
  }

  function Go(s: State, t: int, pc: Pc): State {
    s.(threads := s.threads[t := pc])
  }

  function AfterAsking(s: State, step: Step): State
    requires Asks(step) && CallerEnabled(s, step)
  {
    var t := step.thread;
    var pc := PcOf(s, t);
    match step
    case Call(_, token) => Go(s, t, if token == "" then Panicked(EmptyToken) else Called(token))
    case TakeReadLock(_) => Go(s, t, Reading(pc.token)).(readers := s.readers + {t})
    case Look(_) => Go(s, t, HasRead(pc.token, LookUp(s, pc.token)))
    case DropReadLock(_) => AfterDropReadLock(s, t)
    case TakeLock(_) => Go(s, t, Locked(pc.token)).(writer := Caller(t))
    case LookAgain(_) =>
      Go(s, t, match LookUp(s, pc.token)
               case Down => Leaving(pc.token, None)
               case Found(bot) => Leaving(pc.token, Some(bot))
               case Absent => Creating(pc.token))
    case Create(_, made) =>
      if made.None? then Go(s, t, Leaving(pc.token, None))
      else Go(s, t, Sending(pc.token, made.value)).(bots := s.bots[pc.token := made.value])
    case Send(_) =>
      Go(s, t, Leaving(pc.token, Some(pc.bot))).(center := Handling(pc.bot), sends := s.sends + [pc.bot])
    case SendPanics(_) => Go(s, t, Panicked(SendOnClosedChannel)).(writer := NoOne)
    case DropLock(_) =>
      Go(s, t, Returned(pc.token, pc.result)).(writer := NoOne, answers := s.answers + [(pc.token, pc.result)])
  }

  function AfterDropReadLock(s: State, t: int): State
    requires PcOf(s, t).HasRead?
  {
    var pc := PcOf(s, t);
    var unlocked := s.(readers := s.readers - {t});
    match pc.lookup
    case Down => Go(unlocked, t, Returned(pc.token, None)).(answers := s.answers + [(pc.token, None)])
    case Found(bot) => Go(unlocked, t, Returned(pc.token, Some(bot))).(answers := s.answers + [(pc.token, Some(bot))])
    case Absent => Go(unlocked, t, Missed(pc.token))
  }

  /** The loop of the call center: an employee for each bot whose id is new. */
  function AfterLaunch(s: State): State
    requires s.center.Handling?
  {
    if s.center.bot in s.tracker then s.(center := Waiting)
    else s.(center := Waiting, tracker := s.tracker + {s.center.bot}, launched := s.launched + [s.center.bot])
  }

  function Apply(s: State, step: Step): State
    requires Enabled(s, step)
  {
    match step
    case Launch => AfterLaunch(s)
    case CenterPanics => s.(center := Stopped)
    case RangeEnds => s.(center := Stopped)
    case ExitLocks => s.(writer := ExitFunction, exit := Flagging)
    case ExitFlags => s.(writer := NoOne, shuttingDown := true, exit := Flagged)
    case ExitCloses => s.(exit := Closed)
    case _ => AfterAsking(s, step)
  }

  // ----- what every state keeps

  /** A thread that holds the lock is the one the lock says; a bot that a thread has is the
      registered one; and one that is being sent is sent to a channel still open. */
  ghost predicate ThreadOk(s: State, t: int) {
    match PcOf(s, t)
    case Reading(_) => t in s.readers
    case HasRead(token, lookup) => t in s.readers && (lookup.Found? ==> Registered(s, token, lookup.bot))
    case Locked(_) => s.writer == Caller(t)
    case Creating(token) => s.writer == Caller(t) && token !in s.bots && !s.shuttingDown
    case Sending(token, bot) => s.writer == Caller(t) && Registered(s, token, bot) && bot !in s.sends && !s.shuttingDown
    case Leaving(token, result) => s.writer == Caller(t) && (result.Some? ==> Registered(s, token, result.value))
    case Returned(token, result) => result.Some? ==> Registered(s, token, result.value)
    case Panicked(reason) => reason == EmptyToken
    case _ => true
  }

  ghost predicate Registered(s: State, token: string, bot: Bot) {
    token in s.bots && s.bots[token] == bot
  }

  ghost predicate ThreadsOk(s: State) {
    forall t :: ThreadOk(s, t)
  }

  /** The bot on its way through the channel, which only the holder of the lock can have. */
  function Pending(s: State): Option<Bot> {
    if s.writer.Caller? && PcOf(s, s.writer.thread).Sending? then Some(PcOf(s, s.writer.thread).bot) else None
  }

  predicate InsideLock(pc: Pc) {
    pc.Locked? || pc.Creating? || pc.Sending? || pc.Leaving?
  }

  predicate InsideReadLock(pc: Pc) {
    pc.Reading? || pc.HasRead?
  }

  ghost predicate LocksOk(s: State) {
    && (forall t :: t in s.readers ==> InsideReadLock(PcOf(s, t)))
    && (s.writer != NoOne ==> s.readers == {})
    && (s.writer.Caller? ==> InsideLock(PcOf(s, s.writer.thread)))
    && (s.writer == ExitFunction <==> s.exit == Flagging)
    && (s.shuttingDown <==> s.exit == Flagged || s.exit == Closed)
  }

  /** Bots differ from token to token, and each is sent once, all but the one on its way. */
  ghost predicate SendsOk(s: State) {
    && (forall a, b :: a in s.bots && b in s.bots && a != b ==> s.bots[a] != s.bots[b])
    && NoDuplicates(s.sends)
    && (forall bot :: bot in s.sends <==> bot in s.bots.Values && Pending(s) != Some(bot))
  }

  /** Employees were launched for what was received, in order, except for the bot in hand. */
  ghost predicate LaunchesOk(s: State) {
    && (forall bot :: bot in s.tracker <==> bot in s.launched)
    && s.launched <= s.sends && |s.sends| <= |s.launched| + 1
    && (s.center == Waiting ==> s.sends == s.launched)
    && (s.center.Handling? ==> s.sends == s.launched + [s.center.bot])
  }

  ghost predicate ReturnsOk(s: State) {
    forall k :: 0 <= k < |s.answers| && s.answers[k].1.Some? ==> Registered(s, s.answers[k].0, s.answers[k].1.value)
  }

  ghost predicate Inv(s: State) {
    ThreadsOk(s) && LocksOk(s) && SendsOk(s) && LaunchesOk(s) && ReturnsOk(s)
  }

  // ----- one step

  /** Another thread is untouched when the registry grows or the lock moves between others. */
  lemma OthersOk(s: State, s': State, t: int)
    requires ThreadOk(s, t) && PcOf(s', t) == PcOf(s, t)
    requires s'.shuttingDown == s.shuttingDown
    requires forall token :: token in s.bots ==> Registered(s', token, s.bots[token])
    requires InsideLock(PcOf(s, t)) ==> s'.writer == s.writer && s'.bots == s.bots && s'.sends == s.sends
    requires t in s.readers ==> t in s'.readers
    ensures ThreadOk(s', t)
  {
  }

  lemma AskerOk(s: State, step: Step)
    requires ThreadsOk(s) && LocksOk(s) && SendsOk(s) && Asks(step) && CallerEnabled(s, step) && !step.SendPanics?
    ensures ThreadOk(AfterAsking(s, step), step.thread)
  {
    assert ThreadOk(s, step.thread);
    assert forall bot :: bot in s.sends ==> bot in s.bots.Values;
  }

  lemma OtherAskersOk(s: State, step: Step, t: int)
    requires Asks(step) && ThreadOk(s, t) && ThreadOk(s, step.thread) && t != step.thread
    requires LocksOk(s) && CallerEnabled(s, step) && !step.SendPanics?
    ensures ThreadOk(AfterAsking(s, step), t)
  {
    OthersOk(s, AfterAsking(s, step), t);
  }

  lemma AskingKeepsThreads(s: State, step: Step)
    requires ThreadsOk(s) && LocksOk(s) && SendsOk(s) && Asks(step) && CallerEnabled(s, step) && !step.SendPanics?
    ensures ThreadsOk(AfterAsking(s, step))
  {
    assert ThreadOk(s, step.thread);
    forall t ensures ThreadOk(AfterAsking(s, step), t) {
      assert ThreadOk(s, t);
      if t == step.thread {
        AskerOk(s, step);
      } else {
        OtherAskersOk(s, step, t);
      }
    }
  }

  lemma AskingKeepsLocks(s: State, step: Step)
    requires ThreadsOk(s) && LocksOk(s) && Asks(step) && CallerEnabled(s, step) && !step.SendPanics?
    ensures LocksOk(AfterAsking(s, step))
  {
    assert ThreadOk(s, step.thread);
    if s.writer.Caller? {
      assert ThreadOk(s, s.writer.thread);
    }
  }

  lemma AskingKeepsReturns(s: State, step: Step)
    requires ThreadsOk(s) && ReturnsOk(s) && Asks(step) && CallerEnabled(s, step)
    ensures ReturnsOk(AfterAsking(s, step))
  {
    assert ThreadOk(s, step.thread);
  }

  /** Only creating and sending move a bot. */
  lemma NoBotMoves(s: State, step: Step)
    requires ThreadsOk(s) && LocksOk(s) && SendsOk(s) && Asks(step) && CallerEnabled(s, step)
    requires !step.SendPanics? && !step.Create? && !step.Send?
    ensures SendsOk(AfterAsking(s, step))
  {
    var s' := AfterAsking(s, step);
    assert ThreadOk(s, step.thread);
    assert Pending(s') == Pending(s);
  }

  lemma CreateKeepsSends(s: State, t: int, made: Option<Bot>)
    requires ThreadsOk(s) && SendsOk(s) && CallerEnabled(s, Create(t, made))
    ensures SendsOk(AfterAsking(s, Create(t, made)))
  {
    var s' := AfterAsking(s, Create(t, made));
    var token := PcOf(s, t).token;
    assert ThreadOk(s, t);
    if made.Some? {
      assert token in s'.bots && s'.bots[token] == made.value;
      forall bot ensures bot in s'.bots.Values <==> bot in s.bots.Values || bot == made.value {
        if bot in s.bots.Values {
          var a :| a in s.bots && s.bots[a] == bot;
          assert a in s'.bots && s'.bots[a] == bot;
        }
      }
    }
  }

  lemma SendKeepsSends(s: State, t: int)
    requires ThreadsOk(s) && SendsOk(s) && CallerEnabled(s, Send(t))
    ensures SendsOk(AfterAsking(s, Send(t)))
  {
    assert ThreadOk(s, t);
    assert PcOf(s, t).bot in s.bots.Values;
  }

  lemma AskingKeepsLaunches(s: State, step: Step)
    requires LaunchesOk(s) && Asks(step) && CallerEnabled(s, step)
    ensures LaunchesOk(AfterAsking(s, step))
  {
  }

  lemma AskingKeepsInv(s: State, step: Step)
    requires Inv(s) && Asks(step) && CallerEnabled(s, step)
    ensures Inv(AfterAsking(s, step))
  {
    NoSendAfterFlag(s, step.thread);
    AskingKeepsThreads(s, step);
    AskingKeepsLocks(s, step);
    AskingKeepsReturns(s, step);
    AskingKeepsLaunches(s, step);
    match step
    case Create(t, made) => CreateKeepsSends(s, t, made);
    case Send(t) => SendKeepsSends(s, t);
    case _ => NoBotMoves(s, step);
  }

  /** Once the shutdown is flagged, no thread is creating or sending. */
  lemma NoSendAfterFlag(s: State, t: int)
    requires Inv(s)
    ensures s.exit == Flagged || s.exit == Closed ==> !PcOf(s, t).Sending? && !PcOf(s, t).Creating?
    ensures !Enabled(s, SendPanics(t))
  {
    assert ThreadOk(s, t);
  }

  lemma LaunchKeepsInv(s: State)
    requires Inv(s) && Enabled(s, Launch)
    ensures Inv(AfterLaunch(s))
  {
    var bot := s.center.bot;
    assert s.sends[|s.launched|] == bot;
    assert bot !in s.launched;
    SameThreads(s, AfterLaunch(s));
  }

  /** A step of the call center or the exit function is seen by no thread. */
  lemma SameThreads(s: State, s': State)
    requires ThreadsOk(s) && LocksOk(s)
    requires s'.threads == s.threads && s'.bots == s.bots && s'.sends == s.sends && s'.readers == s.readers
    requires s'.writer == s.writer || (!s.writer.Caller? && !s'.writer.Caller?)
    requires s'.shuttingDown == s.shuttingDown || !s.writer.Caller?
    ensures ThreadsOk(s') && Pending(s') == Pending(s)
  {
    forall t ensures ThreadOk(s', t) {
      assert ThreadOk(s, t);
    }
  }

  lemma RestKeepsInv(s: State, step: Step)
    requires Inv(s) && Enabled(s, step) && !Asks(step)
    ensures Inv(Apply(s, step))
  {
    if step.Launch? {
      LaunchKeepsInv(s);
    } else {
      SameThreads(s, Apply(s, step));
    }
  }

  lemma StepKeepsInv(s: State, step: Step)
    requires Inv(s) && Enabled(s, step)
    ensures Inv(Apply(s, step))
  {
    if Asks(step) {
      AskingKeepsInv(s, step);
    } else {
      RestKeepsInv(s, step);
    }
  }

  // ----- runs

  ghost predicate Feasible(s: State, steps: seq<Step>)
    decreases |steps|
  {
    steps == [] || (Enabled(s, steps[0]) && Feasible(Apply(s, steps[0]), steps[1..]))
  }

  function After(s: State, steps: seq<Step>): State
    requires Feasible(s, steps)
    decreases |steps|
  {
    if steps == [] then s else After(Apply(s, steps[0]), steps[1..])
  }

  lemma InitialInv()
    ensures Inv(Initial())
  {
  }

  lemma {:induction false} RunKeepsInv(s: State, steps: seq<Step>)
    requires Inv(s) && Feasible(s, steps)
    ensures Inv(After(s, steps))
    decreases |steps|
  {
    if steps != [] {
      StepKeepsInv(s, steps[0]);
      RunKeepsInv(Apply(s, steps[0]), steps[1..]);
    }
  }

  /** MAIN. In every run, once the shutdown is flagged no thread waits to send on the channel or
      is about to, so none can be caught by the close; and no thread has ever panicked except
      for an empty token. */
  lemma NoSendOnClosedChannel(steps: seq<Step>, t: int)
    requires Feasible(Initial(), steps)
    ensures var s := After(Initial(), steps);
            && (s.exit == Flagged || s.exit == Closed ==> !PcOf(s, t).Creating? && !PcOf(s, t).Sending?)
            && !Enabled(s, SendPanics(t))
            && PcOf(s, t) != Panicked(SendOnClosedChannel)
  {
    InitialInv();
    RunKeepsInv(Initial(), steps);
    var s := After(Initial(), steps);
    NoSendAfterFlag(s, t);
    assert ThreadOk(s, t);
  }

  /** MAIN. In every run, all callers that were ever given a bot for a token were given the same
      one, and callers with different tokens different ones. */
  lemma SameTokenSameBot(steps: seq<Step>, i: nat, j: nat)
    requires Feasible(Initial(), steps)
    requires var r := After(Initial(), steps).answers;
             i < |r| && j < |r| && r[i].1.Some? && r[j].1.Some?
    ensures var r := After(Initial(), steps).answers;
            r[i].1 == r[j].1 <==> r[i].0 == r[j].0
  {
    InitialInv();
    RunKeepsInv(Initial(), steps);
    var s := After(Initial(), steps);
    assert Registered(s, s.answers[i].0, s.answers[i].1.value);
    assert Registered(s, s.answers[j].0, s.answers[j].1.value);
  }

  /** How often `x` occurs. */
  ghost function Times<T>(q: seq<T>, x: T): nat {
    multiset(q)[x]
  }

  lemma {:induction false} OnceIfDistinct<T>(q: seq<T>, x: T)
    requires NoDuplicates(q)
    ensures Times(q, x) == if x in q then 1 else 0
  {
    if q != [] {
      var n := |q| - 1;
      OnceIfDistinct(q[..n], x);
      assert q == q[..n] + [q[n]];
      assert q[n] !in q[..n];
    }
  }

  /** MAIN. In every run, a created bot has been sent exactly once, unless its creator is still
      sending it and so still holds the lock: then it has not been sent at all, and it is the
      only one. Nothing else is ever sent. */
  lemma EachBotSentOnce(steps: seq<Step>, bot: Bot)
    requires Feasible(Initial(), steps)
    ensures var s := After(Initial(), steps);
            && Times(s.sends, bot) == (if bot in s.bots.Values && Pending(s) != Some(bot) then 1 else 0)
            && (forall t :: PcOf(s, t).Sending? ==> s.writer == Caller(t) && Pending(s) == Some(PcOf(s, t).bot))
  {
    InitialInv();
    RunKeepsInv(Initial(), steps);
    var s := After(Initial(), steps);
    OnceIfDistinct(s.sends, bot);
    forall t | PcOf(s, t).Sending? ensures s.writer == Caller(t) && Pending(s) == Some(PcOf(s, t).bot) {
      assert ThreadOk(s, t);
    }
  }

  /** MAIN. In every run, a bot gets at most one employee; and whenever the call center waits
      for the next bot, every bot received has got one, in the order received. */
  lemma OneEmployeeForEachBot(steps: seq<Step>, bot: Bot)
    requires Feasible(Initial(), steps)
    ensures var s := After(Initial(), steps);
            && Times(s.launched, bot) <= 1
            && (s.launched <= s.sends)
            && (s.center == Waiting ==> s.launched == s.sends)
  {
    InitialInv();
    RunKeepsInv(Initial(), steps);
    var s := After(Initial(), steps);
    assert forall k :: 0 <= k < |s.launched| ==> s.launched[k] == s.sends[k];
    OnceIfDistinct(s.launched, bot);
  }

  lemma {:induction false} RunOn(s: State, first: seq<Step>, rest: seq<Step>)
    requires Feasible(s, first) && Feasible(After(s, first), rest)
    ensures Feasible(s, first + rest) && After(s, first + rest) == After(After(s, first), rest)
    decreases |first|
  {
    if first == [] {
      assert first + rest == rest;
    } else {
      assert (first + rest)[1..] == first[1..] + rest;
      RunOn(Apply(s, first[0]), first[1..], rest);
    }
  }

  lemma FirstStep(s: State, step: Step, rest: seq<Step>)
    requires Enabled(s, step) && Feasible(Apply(s, step), rest)
    ensures Feasible(s, [step] + rest) && After(s, [step] + rest) == After(Apply(s, step), rest)
  {
    assert ([step] + rest)[1..] == rest;
  }

  // ----- whether the shutdown can be flagged

  /** The call center has stopped while a bot is being sent. */
  predicate Stuck(s: State) {
    s.center == Stopped && Pending(s).Some?
  }

  lemma StuckStays(s: State, step: Step)
    requires Inv(s) && Stuck(s) && Enabled(s, step)
    ensures Stuck(Apply(s, step)) && Pending(Apply(s, step)) == Pending(s)
    ensures !Apply(s, step).shuttingDown
  {
    assert ThreadOk(s, s.writer.thread);
    if Asks(step) {
      assert ThreadOk(s, step.thread);
    }
  }

  /** Then the sender keeps the lock, and no run ever flags the shutdown. */
  lemma {:induction false} StoppedCenterBlocksShutdown(s: State, steps: seq<Step>)
    requires Inv(s) && Stuck(s) && Feasible(s, steps)
    ensures var s' := After(s, steps);
            Stuck(s') && Pending(s') == Pending(s) && !s'.shuttingDown
    decreases |steps|
  {
    assert ThreadOk(s, s.writer.thread);
    if steps != [] {
      StuckStays(s, steps[0]);
      StepKeepsInv(s, steps[0]);
      StoppedCenterBlocksShutdown(Apply(s, steps[0]), steps[1..]);
    }
  }

  /** How far the holder of the lock is from dropping it. */
  function Rank(s: State): nat {
    if !s.writer.Caller? then 0
    else
      match PcOf(s, s.writer.thread)
      case Locked(_) => 4
      case Creating(_) => 3
      case Sending(_, _) => if s.center.Handling? then 3 else 2
      case _ => 1
  }

  /** How far the exit function is from flagging. */
  function Distance(s: State): nat {
    if s.shuttingDown then 0
    else if s.exit == Flagging then 1
    else 2 + Rank(s) + |s.readers|
  }

  /** The holder of the lock goes on, and a creation fails. */
  lemma HolderMovesOn(s: State) returns (step: Step)
    requires Inv(s) && !Stuck(s) && s.writer.Caller? && !s.shuttingDown
    ensures Enabled(s, step) && !Stuck(Apply(s, step)) && Distance(Apply(s, step)) < Distance(s)
  {
    var t := s.writer.thread;
    assert ThreadOk(s, t);
    match PcOf(s, t)
    case Locked(_) => step := LookAgain(t);
    case Creating(_) => step := Create(t, None);
    case Sending(_, _) => step := if s.center.Handling? then Launch else Send(t);
    case _ => step := DropLock(t);
  }

  lemma ReaderMovesOn(s: State, t: int) returns (steps: seq<Step>)
    requires Inv(s) && s.writer == NoOne && t in s.readers && !s.shuttingDown
    ensures Feasible(s, steps)
    ensures var s' := After(s, steps);
            !Stuck(s') && Distance(s') < Distance(s)
  {
    assert InsideReadLock(PcOf(s, t));
    if PcOf(s, t).Reading? {
      var s1 := Apply(s, Look(t));
      assert Apply(s1, DropReadLock(t)).readers == s.readers - {t};
      FirstStep(s1, DropReadLock(t), []);
      FirstStep(s, Look(t), [DropReadLock(t)] + []);
      steps := [Look(t)] + ([DropReadLock(t)] + []);
    } else {
      FirstStep(s, DropReadLock(t), []);
      steps := [DropReadLock(t)] + [];
    }
  }

  /** Some steps bring the exit function nearer. */
  lemma ShutdownNearer(s: State) returns (steps: seq<Step>)
    requires Inv(s) && !Stuck(s) && !s.shuttingDown
    ensures Feasible(s, steps) && !Stuck(After(s, steps)) && Distance(After(s, steps)) < Distance(s)
  {
    if s.writer.Caller? {
      var step := HolderMovesOn(s);
      FirstStep(s, step, []);
      steps := [step] + [];
    } else if s.exit == Flagging {
      FirstStep(s, ExitFlags, []);
      steps := [ExitFlags] + [];
    } else if s.readers != {} {
      var t := SomeMember(s.readers);
      steps := ReaderMovesOn(s, t);
    } else {
      FirstStep(s, ExitLocks, []);
      steps := [ExitLocks] + [];
    }
  }

  lemma {:induction false} ShutdownReached(s: State) returns (steps: seq<Step>)
    requires Inv(s) && !Stuck(s)
    ensures Feasible(s, steps) && After(s, steps).shuttingDown
    decreases Distance(s)
  {
    steps := [];
    if !s.shuttingDown {
      var first := ShutdownNearer(s);
      RunKeepsInv(s, first);
      var rest := ShutdownReached(After(s, first));
      RunOn(s, first, rest);
      steps := first + rest;
    }
  }

  ghost predicate CanShutDown(s: State) {
    exists steps :: Feasible(s, steps) && After(s, steps).shuttingDown
  }

  lemma CanShutDownFrom(s: State)
    requires Inv(s)
    ensures CanShutDown(s) <==> !Stuck(s)
  {
    if Stuck(s) {
      forall more | Feasible(s, more) ensures !After(s, more).shuttingDown {
        StoppedCenterBlocksShutdown(s, more);
      }
    } else {
      var more := ShutdownReached(s);
    }
  }

  /** MAIN. After every run, the shutdown can still be flagged if and only if the call center has
      not stopped while a bot is being sent. */
  lemma CanShutDownIff(steps: seq<Step>)
    requires Feasible(Initial(), steps)
    ensures CanShutDown(After(Initial(), steps)) <==> !Stuck(After(Initial(), steps))
  {
    InitialInv();
    RunKeepsInv(Initial(), steps);
    CanShutDownFrom(After(Initial(), steps));
  }

  /** While nothing panics in the loop of the call center, that loop ends only after the close. */
  lemma {:induction false} CenterOutlivesChannel(s: State, steps: seq<Step>)
    requires Feasible(s, steps) && CenterPanics !in steps
    requires s.center == Stopped ==> s.exit == Closed
    ensures After(s, steps).center == Stopped ==> After(s, steps).exit == Closed
    decreases |steps|
  {
    if steps != [] {
      CenterOutlivesChannel(Apply(s, steps[0]), steps[1..]);
    }
  }

  /** MAIN. After every run in which the loop body of the call center has not panicked, the shutdown
      can still be flagged. */
  lemma CanShutDownUnlessPanic(steps: seq<Step>)
    requires Feasible(Initial(), steps) && CenterPanics !in steps
    ensures CanShutDown(After(Initial(), steps))
  {
    InitialInv();
    RunKeepsInv(Initial(), steps);
    CenterOutlivesChannel(Initial(), steps);
    var s := After(Initial(), steps);
    if s.writer.Caller? {
      assert ThreadOk(s, s.writer.thread);
    }
    CanShutDownFrom(s);
  }

  /** A call that finds nothing, up to the second lock. */
  lemma MissFirst(s: State, t: int, token: string) returns (s': State)
    requires PcOf(s, t).Idle? && LockFree(s) && LookUp(s, token) == Absent && token != ""
    ensures var steps := [Call(t, token), TakeReadLock(t), Look(t), DropReadLock(t)];
            Feasible(s, steps) && After(s, steps) == s'
    ensures s' == s.(threads := s'.threads) && PcOf(s', t) == Missed(token)
    ensures forall u :: u != t ==> PcOf(s', u) == PcOf(s, u)
  {
    var s1 := Apply(s, Call(t, token));
    var s2 := Apply(s1, TakeReadLock(t));
    var s3 := Apply(s2, Look(t));
    s' := Apply(s3, DropReadLock(t));
    assert s'.readers == s.readers;
    FourSteps(s, s1, s2, s3, s', Call(t, token), TakeReadLock(t), Look(t), DropReadLock(t), []);
    assert [Call(t, token), TakeReadLock(t), Look(t), DropReadLock(t)] + [] == [Call(t, token), TakeReadLock(t), Look(t), DropReadLock(t)];
  }

  /** From there to the send of a new bot. */
  lemma CreateNext(s: State, t: int, bot: Bot) returns (s': State)
    requires PcOf(s, t).Missed? && LockFree(s) && LookUp(s, PcOf(s, t).token) == Absent && bot !in s.bots.Values
    ensures var steps := [TakeLock(t), LookAgain(t), Create(t, Some(bot))];
            Feasible(s, steps) && After(s, steps) == s'
    ensures PcOf(s', t) == Sending(PcOf(s, t).token, bot)
    ensures s' == s.(threads := s'.threads, writer := Caller(t), bots := s.bots[PcOf(s, t).token := bot])
    ensures forall u :: u != t ==> PcOf(s', u) == PcOf(s, u)
  {
    var s1 := Apply(s, TakeLock(t));
    var s2 := Apply(s1, LookAgain(t));
    s' := Apply(s2, Create(t, Some(bot)));
    FirstStep(s2, Create(t, Some(bot)), []);
    FirstStep(s1, LookAgain(t), [Create(t, Some(bot))] + []);
    FirstStep(s, TakeLock(t), [LookAgain(t)] + ([Create(t, Some(bot))] + []));
    assert [TakeLock(t)] + ([LookAgain(t)] + ([Create(t, Some(bot))] + [])) == [TakeLock(t), LookAgain(t), Create(t, Some(bot))];
  }

  /** A whole call by which a new bot is on its way into the channel. */
  lemma CallUntilSend(s: State, t: int, token: string, bot: Bot) returns (steps: seq<Step>, s': State)
    requires PcOf(s, t).Idle? && LockFree(s) && LookUp(s, token) == Absent && token != "" && bot !in s.bots.Values
    ensures Feasible(s, steps) && After(s, steps) == s'
    ensures PcOf(s', t) == Sending(token, bot)
    ensures s' == s.(threads := s'.threads, writer := Caller(t), bots := s.bots[token := bot])
    ensures forall u :: u != t ==> PcOf(s', u) == PcOf(s, u)
  {
    var s1 := MissFirst(s, t, token);
    s' := CreateNext(s1, t, bot);
    var first, second := [Call(t, token), TakeReadLock(t), Look(t), DropReadLock(t)], [TakeLock(t), LookAgain(t), Create(t, Some(bot))];
    RunOn(s, first, second);
    steps := first + second;
  }

  lemma SendAndLeave(s: State, t: int) returns (steps: seq<Step>, s': State)
    requires PcOf(s, t).Sending? && s.center == Waiting && s.exit == Running
    ensures Feasible(s, steps) && After(s, steps) == s'
    ensures s'.center == Handling(PcOf(s, t).bot) && s'.writer == NoOne
    ensures s'.readers == s.readers && s'.bots == s.bots && s'.shuttingDown == s.shuttingDown && s'.exit == Running
    ensures forall u :: u != t ==> PcOf(s', u) == PcOf(s, u)
  {
    var s1 := Apply(s, Send(t));
    s' := Apply(s1, DropLock(t));
    FirstStep(s1, DropLock(t), []);
    FirstStep(s, Send(t), [DropLock(t)] + []);
    steps := [Send(t)] + ([DropLock(t)] + []);
  }

  /** The other state is reached: while the call center is busy with a first bot, a second caller
      creates its bot, and then the loop body of the call center panics. */
  lemma StuckReached(t: int, u: int, a: string, b: string, x: Bot, y: Bot) returns (steps: seq<Step>)
    requires t != u && a != b && a != "" && b != "" && x != y
    ensures Feasible(Initial(), steps)
    ensures Stuck(After(Initial(), steps)) && Pending(After(Initial(), steps)) == Some(y)
  {
    var first, s1 := CallUntilSend(Initial(), t, a, x);
    var second, s2 := SendAndLeave(s1, t);
    assert s2.bots == map[a := x];
    var third, s3 := CallUntilSend(s2, u, b, y);
    FirstStep(s3, CenterPanics, []);
    RunOn(s2, third, [CenterPanics] + []);
    RunOn(s1, second, third + ([CenterPanics] + []));
    RunOn(Initial(), first, second + (third + ([CenterPanics] + [])));
    steps := first + (second + (third + ([CenterPanics] + [])));
  }

  // ----- one call, undisturbed

  /** The registry and the answer after a call; `made` is what creating a bot would give. */
  function AfterGet(bots: map<string, Bot>, shuttingDown: bool, token: string, made: Option<Bot>): (map<string, Bot>, Option<Bot>) {
    if shuttingDown then (bots, None)
    else if token in bots then (bots, Some(bots[token]))
    else if made.None? then (bots, None)
    else (bots[token := made.value], made)
  }

  class TelegramBotRegistry {
    var bots: map<string, Bot>
    var shuttingDown: bool
    ghost var channel: seq<Bot>

    constructor ()
      ensures bots == map[] && !shuttingDown && channel == []
    {
      bots, shuttingDown, channel := map[], false, [];
    }

    method Look(token: string) returns (lookup: Lookup)
      ensures lookup == if shuttingDown then Down else if token in bots then Found(bots[token]) else Absent
    {
      if shuttingDown {
        return Down;
      }
      return if token in bots then Found(bots[token]) else Absent;
    }

    /** `GetTelegramBotByTokenWL` when nothing comes between; the empty token is a panic. Creating
        a bot gives a new one or fails. */
    method GetTelegramBotByToken(token: string) returns (r: Result<Option<Bot>, Reason>, ghost made: Option<Bot>)
      modifies this
      ensures made.Some? ==> made.value !in old(bots).Values
      ensures r == Err(EmptyToken) <==> token == ""
      ensures token == "" ==> bots == old(bots) && channel == old(channel)
      ensures token != "" ==>
                && r.Ok? && (bots, r.value) == AfterGet(old(bots), shuttingDown, token, made)
                && channel == old(channel) + if bots == old(bots) then [] else [bots[token]]
      ensures token != "" && shuttingDown ==> r == Ok(None)
      ensures token != "" && !shuttingDown && token in old(bots) ==> r == Ok(Some(old(bots)[token]))
      ensures token != "" && !shuttingDown && token !in old(bots) ==> r == Ok(made)
      ensures token != "" && !shuttingDown && token !in old(bots) && made.Some? ==>
                bots == old(bots)[token := made.value] && channel == old(channel) + [made.value]
      ensures shuttingDown || token in old(bots) || made.None? ==> bots == old(bots) && channel == old(channel)
      ensures shuttingDown == old(shuttingDown)
    {
      made := None;
      if token == "" {
        return Err(EmptyToken), made;
      }
      var lookup := Look(token);
      match lookup {
        case Down => return Ok(None), made;
        case Found(bot) => return Ok(Some(bot)), made;
        case Absent =>
      }
      lookup := Look(token);
      match lookup {
        case Down => return Ok(None), made;
        case Found(bot) => return Ok(Some(bot)), made;
        case Absent =>
      }
      var newBot: Option<Bot> :| newBot.Some? ==> newBot.value !in bots.Values;
      made := newBot;
      if newBot.None? {
        return Ok(None), made;
      }
      bots := bots[token := newBot.value];
      channel := channel + [newBot.value];
      return Ok(newBot), made;
    }

    method FlagShuttingDown()
      modifies this`shuttingDown
      ensures shuttingDown
    {
      shuttingDown := true;
    }
  }

  /** The steps of a call that no other thread interrupts. */
  function AloneSteps(s: State, t: int, token: string, made: Option<Bot>): seq<Step> {
    [Call(t, token), TakeReadLock(t), Look(t), DropReadLock(t)]
    + if LookUp(s, token) != Absent then [] else [TakeLock(t), LookAgain(t), Create(t, made)] + AfterCreating(t, made)
  }

  function AfterCreating(t: int, made: Option<Bot>): seq<Step> {
    if made.None? then [DropLock(t)] else [Send(t), DropLock(t)]
  }

  /** The last steps of a call that holds the lock and is about to create. */
  lemma CreateAlone(s: State, t: int, made: Option<Bot>)
    requires PcOf(s, t).Creating? && s.center == Waiting && s.exit == Running
    requires made.Some? ==> made.value !in s.bots.Values
    ensures var steps, token := [Create(t, made)] + AfterCreating(t, made), PcOf(s, t).token;
            Feasible(s, steps)
            && var s' := After(s, steps);
            && s'.answers == s.answers + [(token, made)]
            && s'.bots == (if made.None? then s.bots else s.bots[token := made.value])
            && s'.sends == s.sends + (if made.None? then [] else [made.value])
  {
    var s1 := Apply(s, Create(t, made));
    if made.None? {
      FirstStep(s1, DropLock(t), []);
    } else {
      var s2 := Apply(s1, Send(t));
      FirstStep(s2, DropLock(t), []);
      FirstStep(s1, Send(t), [DropLock(t)]);
      assert [Send(t)] + [DropLock(t)] == AfterCreating(t, made);
    }
    assert [DropLock(t)] + [] == [DropLock(t)];
    FirstStep(s, Create(t, made), AfterCreating(t, made));
  }

  /** A call that finds no bot and takes the lock. */
  lemma LockAlone(s: State, t: int, made: Option<Bot>)
    requires PcOf(s, t).Missed? && LockFree(s) && LookUp(s, PcOf(s, t).token) == Absent
    requires s.center == Waiting && s.exit == Running
    requires made.Some? ==> made.value !in s.bots.Values
    ensures var steps, token := [TakeLock(t), LookAgain(t), Create(t, made)] + AfterCreating(t, made), PcOf(s, t).token;
            Feasible(s, steps)
            && var s' := After(s, steps);
            && s'.answers == s.answers + [(token, made)]
            && s'.bots == (if made.None? then s.bots else s.bots[token := made.value])
            && s'.sends == s.sends + (if made.None? then [] else [made.value])
  {
    var s1 := Apply(s, TakeLock(t));
    var s2 := Apply(s1, LookAgain(t));
    CreateAlone(s2, t, made);
    var rest := [Create(t, made)] + AfterCreating(t, made);
    FirstStep(s1, LookAgain(t), rest);
    FirstStep(s, TakeLock(t), [LookAgain(t)] + rest);
    assert [TakeLock(t)] + ([LookAgain(t)] + rest)
        == [TakeLock(t), LookAgain(t), Create(t, made)] + AfterCreating(t, made);
  }

  lemma FourSteps(s: State, s1: State, s2: State, s3: State, s4: State, a: Step, b: Step, c: Step, d: Step, rest: seq<Step>)
    requires Enabled(s, a) && Apply(s, a) == s1 && Enabled(s1, b) && Apply(s1, b) == s2
    requires Enabled(s2, c) && Apply(s2, c) == s3 && Enabled(s3, d) && Apply(s3, d) == s4
    requires Feasible(s4, rest)
    ensures Feasible(s, [a, b, c, d] + rest)
    ensures After(s, [a, b, c, d] + rest) == After(s4, rest)
  {
    FirstStep(s3, d, rest);
    FirstStep(s2, c, [d] + rest);
    FirstStep(s1, b, [c] + ([d] + rest));
    FirstStep(s, a, [b] + ([c] + ([d] + rest)));
    assert [a] + ([b] + ([c] + ([d] + rest))) == [a, b, c, d] + rest;
  }

  /** The method is a run of the machine: the steps of one thread that nothing interrupts. */
  lemma CallAlone(s: State, t: int, token: string, made: Option<Bot>)
    requires PcOf(s, t).Idle? && LockFree(s) && s.center == Waiting && token != ""
    requires s.shuttingDown <==> s.exit != Running
    requires made.Some? ==> made.value !in s.bots.Values
    ensures var steps := AloneSteps(s, t, token, made);
            Feasible(s, steps)
            && var s', (bots, answer) := After(s, steps), AfterGet(s.bots, s.shuttingDown, token, made);
            && s'.bots == bots && s'.answers == s.answers + [(token, answer)]
            && s'.sends == s.sends + (if bots == s.bots then [] else [bots[token]])
  {
    var s1 := Apply(s, Call(t, token));
    var s2 := Apply(s1, TakeReadLock(t));
    var s3 := Apply(s2, Look(t));
    var s4 := Apply(s3, DropReadLock(t));
    if LookUp(s, token) != Absent {
      FourSteps(s, s1, s2, s3, s4, Call(t, token), TakeReadLock(t), Look(t), DropReadLock(t), []);
    } else {
      var rest := [TakeLock(t), LookAgain(t), Create(t, made)] + AfterCreating(t, made);
      LockAlone(s4, t, made);
      FourSteps(s, s1, s2, s3, s4, Call(t, token), TakeReadLock(t), Look(t), DropReadLock(t), rest);
    }
  }
}
