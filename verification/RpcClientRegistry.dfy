/** registry/rpc_client_registry/rpc_client_registry.go: one client for each normalised endpoint,
    asked for by any number of threads that interleave at every lock. */
module RpcClientRegistry {
  import opened GoRuntime
  import opened Endpoint

  /** A client is known by a number; nothing says that two creations give different ones. */
  type Client = int

  /** Where a thread is in `GetRpcClientByEndpointWL`; `key` is the normal form of what it was
      called with. The panic on the empty endpoint comes before. */
  datatype Pc =
    | Idle
    | Called(key: string)
    | Reading(key: string)
    | HasRead(key: string, found: Option<Client>)
    | Missed(key: string)
    | Locked(key: string)
    | Creating(key: string)
    | Leaving(key: string, result: Option<Client>)
    | Returned(key: string, result: Option<Client>)

  datatype Answer = Answer(key: string, result: Option<Client>)

  /** `created` records the keys of the successful creations, `answers` what callers got. */
  datatype State = State(
    threads: map<int, Pc>, writer: Option<int>, readers: set<int>, clients: map<string, Client>,
    created: seq<string>, answers: seq<Answer>)

  datatype Step =
    | Call(thread: int, key: string)
    | TakeReadLock(thread: int)
    | Look(thread: int)
    | DropReadLock(thread: int)
    | TakeLock(thread: int)
    | LookAgain(thread: int)
    | Create(thread: int, made: Option<Client>)
    | DropLock(thread: int)

  function Initial(): State {
    State(map[], None, {}, map[], [], [])
  }

  function PcOf(s: State, t: int): Pc {
    if t in s.threads then s.threads[t] else Idle
  }

  predicate Enabled(s: State, step: Step) {
    var pc := PcOf(s, step.thread);
    match step
    case Call(_, _) => pc.Idle? || pc.Returned?
    case TakeReadLock(_) => pc.Called? && s.writer == None
    case Look(_) => pc.Reading?
    case DropReadLock(_) => pc.HasRead?
    case TakeLock(_) => pc.Missed? && s.writer == None && s.readers == {}
    case LookAgain(_) => pc.Locked?
    case Create(_, _) => pc.Creating?
    case DropLock(_) => pc.Leaving?
  }

  /** `getRpcClientByEndpointRL` on a normal form, under either lock. */
  function LookUp(clients: map<string, Client>, key: string): Option<Client> {
    if key in clients then Some(clients[key]) else None
  }

  function Go(s: State, t: int, pc: Pc): State {
    s.(threads := s.threads[t := pc])
  }

  function Apply(s: State, step: Step): State
    requires Enabled(s, step)
  {
    var t := step.thread;
    var pc := PcOf(s, t);
    match step
    case Call(_, key) => Go(s, t, Called(key))
    case TakeReadLock(_) => Go(s, t, Reading(pc.key)).(readers := s.readers + {t})
    case Look(_) => Go(s, t, HasRead(pc.key, LookUp(s.clients, pc.key)))
    case DropReadLock(_) =>
      var unlocked := s.(readers := s.readers - {t});
      if pc.found.None? then Go(unlocked, t, Missed(pc.key))
      else Go(unlocked, t, Returned(pc.key, pc.found)).(answers := s.answers + [Answer(pc.key, pc.found)])
    case TakeLock(_) => Go(s, t, Locked(pc.key)).(writer := Some(t))
    case LookAgain(_) =>
      var found := LookUp(s.clients, pc.key);
      Go(s, t, if found.Some? then Leaving(pc.key, found) else Creating(pc.key))
    case Create(_, made) =>
      if made.None? then Go(s, t, Leaving(pc.key, None))
      else Go(s, t, Leaving(pc.key, made)).(clients := s.clients[pc.key := made.value],
                                                 created := s.created + [pc.key])
    case DropLock(_) =>
      Go(s, t, Returned(pc.key, pc.result)).(writer := None, answers := s.answers + [Answer(pc.key, pc.result)])
  }

  // ----- what every state keeps

  predicate InsideLock(pc: Pc) {
    pc.Locked? || pc.Creating? || pc.Leaving?
  }

  predicate InsideReadLock(pc: Pc) {
    pc.Reading? || pc.HasRead?
  }

  /** A thread that holds a lock is known to hold it, one that creates has found nothing, and
      the client that a thread has is the cached one. */
  ghost predicate ThreadOk(s: State, t: int) {
    var pc := PcOf(s, t);
    && (InsideLock(pc) ==> s.writer == Some(t))
    && (InsideReadLock(pc) ==> t in s.readers)
    && (pc.Creating? ==> pc.key !in s.clients)
    && (pc.HasRead? && pc.found.Some? ==> LookUp(s.clients, pc.key) == pc.found)
    && (pc.Leaving? && pc.result.Some? ==> LookUp(s.clients, pc.key) == pc.result)
  }

  ghost predicate Inv(s: State) {
    && (forall t :: ThreadOk(s, t))
    && (s.writer.Some? ==> s.readers == {})
    && NoDuplicates(s.created)
    && (forall key :: key in s.created <==> key in s.clients)
    && (forall a :: a in s.answers && a.result.Some? ==> LookUp(s.clients, a.key) == a.result)
  }

  lemma OthersOk(s: State, step: Step, t: int)
    requires ThreadOk(s, t) && ThreadOk(s, step.thread) && Enabled(s, step) && t != step.thread
    requires s.writer.Some? ==> s.readers == {}
    ensures ThreadOk(Apply(s, step), t)
  {
    assert PcOf(Apply(s, step), t) == PcOf(s, t);
  }

  lemma StepKeepsInv(s: State, step: Step)
    requires Inv(s) && Enabled(s, step)
    ensures Inv(Apply(s, step))
  {
    var s' := Apply(s, step);
    assert ThreadOk(s, step.thread);
    forall t ensures ThreadOk(s', t) {
      assert ThreadOk(s, t);
      if t != step.thread {
        OthersOk(s, step, t);
      }
    }
  }

  // ----- runs

  ghost predicate Feasible(s: State, steps: seq<Step>)
    decreases |steps|
  {
    steps == [] || (Enabled(s, steps[0]) && Feasible(Apply(s, steps[0]), steps[1..]))
  }

  function After(s: State, steps: seq<Step>): State
    requires Feasible(s, steps)
    decreases |steps|
  {
    if steps == [] then s else After(Apply(s, steps[0]), steps[1..])
  }

  lemma InitialInv()
    ensures Inv(Initial())
  {
  }

  lemma {:induction false} RunKeepsInv(s: State, steps: seq<Step>)
    requires Inv(s) && Feasible(s, steps)
    ensures Inv(After(s, steps))
    decreases |steps|
  {
    if steps != [] {
      StepKeepsInv(s, steps[0]);
      RunKeepsInv(Apply(s, steps[0]), steps[1..]);
    }
  }

  /** MAIN. In every run, a client is created at most once for each normal form; and all callers
      that ever got a client for endpoints of one normal form got the one that is cached. */
  lemma OneClientForEachEndpoint(steps: seq<Step>)
    requires Feasible(Initial(), steps)
    ensures var s := After(Initial(), steps);
            && NoDuplicates(s.created)
            && (forall key :: key in s.created <==> key in s.clients)
            && (forall a, b :: a in s.answers && b in s.answers && a.result.Some? && b.result.Some? && a.key == b.key ==>
                  a.result == b.result == LookUp(s.clients, a.key))
  {
    InitialInv();
    RunKeepsInv(Initial(), steps);
  }

  /** MAIN. The map is written only while no other thread is inside either lock. */
  lemma WritesAreAlone(steps: seq<Step>, t: int, made: Client, other: int)
    requires Feasible(Initial(), steps) && Enabled(After(Initial(), steps), Create(t, Some(made))) && other != t
    ensures var pc := PcOf(After(Initial(), steps), other);
            !InsideLock(pc) && !InsideReadLock(pc)
  {
    InitialInv();
    RunKeepsInv(Initial(), steps);
    var s := After(Initial(), steps);
    assert ThreadOk(s, t) && ThreadOk(s, other);
  }

  /** MAIN. A cached client stays for ever, whatever happens next. */
  lemma {:induction false} EntriesStay(s: State, steps: seq<Step>, key: string)
    requires Inv(s) && Feasible(s, steps) && key in s.clients
    ensures key in After(s, steps).clients && After(s, steps).clients[key] == s.clients[key]
    decreases |steps|
  {
    if steps != [] {
      assert ThreadOk(s, steps[0].thread);
      StepKeepsInv(s, steps[0]);
      EntriesStay(Apply(s, steps[0]), steps[1..], key);
    }
  }

  /** The thread is not past the first look-up of a key that it did not find. */
  predicate SureToHit(pc: Pc, key: string, client: Client) {
    match pc
    case HasRead(k, found) => k == key ==> found == Some(client)
    case Missed(k) => k != key
    case Locked(k) => k != key
    case Creating(k) => k != key
    case Leaving(k, result) => k == key ==> result == Some(client)
    case Returned(k, result) => k == key ==> result == Some(client)
    case _ => true
  }

  lemma HitOneStep(s: State, step: Step, t: int, key: string)
    requires Inv(s) && Enabled(s, step) && key in s.clients && SureToHit(PcOf(s, t), key, s.clients[key])
    ensures key in Apply(s, step).clients && Apply(s, step).clients[key] == s.clients[key]
    ensures SureToHit(PcOf(Apply(s, step), t), key, s.clients[key])
  {
    assert ThreadOk(s, step.thread);
  }

  /** MAIN. Once a key is cached, a thread that asks for it again gets that client, whatever
      the others do: this is the second look-up of `getMostHealthyRpc`, which cannot fail. */
  lemma {:induction false} CachedKeyHits(s: State, steps: seq<Step>, t: int, key: string)
    requires Inv(s) && Feasible(s, steps) && key in s.clients && SureToHit(PcOf(s, t), key, s.clients[key])
    ensures SureToHit(PcOf(After(s, steps), t), key, s.clients[key])
    decreases |steps|
  {
    if steps != [] {
      HitOneStep(s, steps[0], t, key);
      StepKeepsInv(s, steps[0]);
      CachedKeyHits(Apply(s, steps[0]), steps[1..], t, key);
    }
  }

  // ----- one call

  /** Every client cached before is still cached. */
  ghost predicate Grown(before: map<string, Client>, after: map<string, Client>) {
    forall k :: k in before ==> k in after && after[k] == before[k]
  }

  /** The cache only grows, whatever the threads do. */
  lemma CacheGrows(s: State, steps: seq<Step>)
    requires Inv(s) && Feasible(s, steps)
    ensures Grown(s.clients, After(s, steps).clients)
  {
    forall k | k in s.clients ensures k in After(s, steps).clients && After(s, steps).clients[k] == s.clients[k] {
      EntriesStay(s, steps, k);
    }
  }

  /** The cache and the answer after a call; `made` is what creating a client would give. */
  function AfterGet(clients: map<string, Client>, key: string, made: Option<Client>): (map<string, Client>, Option<Client>) {
    if key in clients then (clients, Some(clients[key]))
    else if made.None? then (clients, None)
    else (clients[key := made.value], made)
  }

  /** An answer with a client means that the client is cached. */
  lemma AfterGetCaches(clients: map<string, Client>, key: string, made: Option<Client>)
    ensures var (after, r) := AfterGet(clients, key, made);
            && (r.Some? ==> LookUp(after, key) == r)
            && (r.None? <==> key !in clients && made.None?)
            && Grown(clients, after)
  {
  }

  function ToOption(r: Result<Client, Failure>): Option<Client> {
    if r.Ok? then Some(r.value) else None
  }

  datatype Failure = EmptyEndpoint | CreationFailed

  class RpcClientRegistry {
    var clients: map<string, Client>

    constructor ()
      ensures clients == map[]
    {
      clients := map[];
    }

    method Look(key: string) returns (found: Option<Client>)
      ensures found == if key in clients then Some(clients[key]) else None
    {
      return if key in clients then Some(clients[key]) else None;
    }

    /** What the other threads do while this one holds no lock: they may add clients. */
    method OthersMeanwhile()
      modifies this
      ensures Grown(old(clients), clients)
    {
      var added: map<string, Client> := *;
      clients := added + clients;
    }

    /** `GetRpcClientByEndpointWL`; the empty endpoint is a panic. Between the two look-ups the
        other threads go on: `locked` is the cache when this thread gets the lock, and `made`
        what creating a client gives. */
    method GetRpcClientByEndpoint(endpoint: string)
      returns (r: Result<Client, Failure>, ghost locked: map<string, Client>, ghost made: Option<Client>)
      modifies this
      ensures Grown(old(clients), locked)
      ensures r == Err(EmptyEndpoint) <==> endpoint == ""
      ensures endpoint == "" ==> clients == old(clients)
      ensures endpoint != "" ==> (clients, ToOption(r)) == AfterGet(locked, Key(endpoint), made)
      ensures endpoint != "" && Key(endpoint) in locked ==> r == Ok(locked[Key(endpoint)]) && clients == locked
      ensures endpoint != "" && Key(endpoint) !in locked && made.Some? ==>
                r == Ok(made.value) && clients == locked[Key(endpoint) := made.value]
      ensures endpoint != "" && Key(endpoint) !in locked && made.None? ==> r == Err(CreationFailed) && clients == locked
      ensures endpoint != "" && Key(endpoint) in old(clients) ==> locked == old(clients)
    {
      locked, made := clients, None;
      if endpoint == "" {
        return Err(EmptyEndpoint), locked, made;
      }
      var key := NormalizeRpcEndpoint(ReplaceAnySchemeWithHttp(endpoint));
      var found := Look(key);
      match found {
        case Some(client) => return Ok(client), locked, made;
        case None =>
      }
      OthersMeanwhile();
      locked := clients;
      found := Look(key);
      match found {
        case Some(client) => return Ok(client), locked, made;
        case None =>
      }
      var newClient: Option<Client> := *;
      made := newClient;
      match newClient {
        case Some(client) =>
          clients := clients[key := client];
          return Ok(client), locked, made;
        case None => return Err(CreationFailed), locked, made;
      }
    }
  }

  function AloneSteps(s: State, t: int, key: string, made: Option<Client>): seq<Step> {
    [Call(t, key), TakeReadLock(t), Look(t), DropReadLock(t)]
    + if LookUp(s.clients, key).Some? then [] else [TakeLock(t), LookAgain(t), Create(t, made), DropLock(t)]
  }

  lemma FirstStep(s: State, step: Step, rest: seq<Step>)
    requires Enabled(s, step) && Feasible(Apply(s, step), rest)
    ensures Feasible(s, [step] + rest) && After(s, [step] + rest) == After(Apply(s, step), rest)
  {
    assert ([step] + rest)[1..] == rest;
  }

  lemma FourSteps(s: State, s1: State, s2: State, s3: State, s4: State, a: Step, b: Step, c: Step, d: Step, rest: seq<Step>)
    requires Enabled(s, a) && Apply(s, a) == s1 && Enabled(s1, b) && Apply(s1, b) == s2
    requires Enabled(s2, c) && Apply(s2, c) == s3 && Enabled(s3, d) && Apply(s3, d) == s4
    requires Feasible(s4, rest)
    ensures Feasible(s, [a, b, c, d] + rest)
    ensures After(s, [a, b, c, d] + rest) == After(s4, rest)
  {
    FirstStep(s3, d, rest);
    FirstStep(s2, c, [d] + rest);
    FirstStep(s1, b, [c] + ([d] + rest));
    FirstStep(s, a, [b] + ([c] + ([d] + rest)));
    assert [a] + ([b] + ([c] + ([d] + rest))) == [a, b, c, d] + rest;
  }

  /** The method is a run of the machine: the steps of one thread that nothing interrupts. */
  lemma CallAlone(s: State, t: int, key: string, made: Option<Client>)
    requires PcOf(s, t).Idle? && s.writer == None && s.readers == {}
    ensures var steps := AloneSteps(s, t, key, made);
            Feasible(s, steps)
            && var s', (clients, answer) := After(s, steps), AfterGet(s.clients, key, made);
            s'.clients == clients && s'.answers == s.answers + [Answer(key, answer)]
  {
    var s1 := Apply(s, Call(t, key));
    var s2 := Apply(s1, TakeReadLock(t));
    var s3 := Apply(s2, Look(t));
    var s4 := Apply(s3, DropReadLock(t));
    if LookUp(s.clients, key).Some? {
      FourSteps(s, s1, s2, s3, s4, Call(t, key), TakeReadLock(t), Look(t), DropReadLock(t), []);
    } else {
      var rest := [TakeLock(t), LookAgain(t), Create(t, made), DropLock(t)];
      CreateAlone(s4, t, made);
      FourSteps(s, s1, s2, s3, s4, Call(t, key), TakeReadLock(t), Look(t), DropReadLock(t), rest);
    }
  }

  /** A call that found no client and goes on under the lock. */
  lemma CreateAlone(s: State, t: int, made: Option<Client>)
    requires PcOf(s, t).Missed? && s.writer == None && s.readers == {} && PcOf(s, t).key !in s.clients
    ensures var steps := [TakeLock(t), LookAgain(t), Create(t, made), DropLock(t)];
            Feasible(s, steps)
            && var s', (clients, answer) := After(s, steps), AfterGet(s.clients, PcOf(s, t).key, made);
            s'.clients == clients && s'.answers == s.answers + [Answer(PcOf(s, t).key, answer)]
  {
    var s1 := Apply(s, TakeLock(t));
    var s2 := Apply(s1, LookAgain(t));
    var s3 := Apply(s2, Create(t, made));
    FourSteps(s, s1, s2, s3, Apply(s3, DropLock(t)), TakeLock(t), LookAgain(t), Create(t, made), DropLock(t), []);
    assert [TakeLock(t), LookAgain(t), Create(t, made), DropLock(t)] + [] == [TakeLock(t), LookAgain(t), Create(t, made), DropLock(t)];
  }
}
