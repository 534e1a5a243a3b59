/** The choice of the next chain (registry/chain_registry/chain_registry.go:51-69) as a machine:
    several workers scan the sorted chains, and the pause test, the reading of the last check,
    the test of its age and the stamp of a scan are separate steps. A reload takes the lock
    that every scan holds for reading. */
module ChainScheduler {
  import opened GoRuntime
  import opened ChainRegistry

  /** `exclusive` is a variant in which a scan holds the lock alone; the source has it shared. */
  datatype Setup = Setup(crew: set<int>, interval: Duration, exclusive: bool)

  datatype Pc =
    | Idle
    | Testing(order: seq<string>, i: nat)
    | Unpaused(order: seq<string>, i: nat)
    | HasRead(order: seq<string>, i: nat, last: Option<Time>)
    | Passed(order: seq<string>, i: nat)

  datatype Pick = Pick(generation: nat, chain: string, worker: int, at: Time)

  /** `generation` counts the reloads, each of which makes new objects for all chains. */
  datatype State = State(
    now: Time, workers: map<int, Pc>, generation: nat, priority: map<string, bool>, last: map<string, Option<Time>>,
    pauses: map<string, Time>, log: seq<Pick>)

  datatype Step =
    | Begin(worker: int, order: seq<string>)
    | TestPause(worker: int, at: Time)
    | ReadLast(worker: int)
    | TestDue(worker: int, at: Time)
    | Stamp(worker: int, at: Time)
    | EndScan(worker: int)
    | Reload(priority: map<string, bool>)
    | Pause(chain: string, duration: Duration, at: Time)
    | Unpause(chain: string)

  function Initial(now: Time): State {
    State(now, map[], 0, map[], map[], map[], [])
  }

  function PcOf(s: State, w: int): Pc {
    if w in s.workers then s.workers[w] else Idle
  }

  ghost predicate NobodyScans(s: State) {
    forall w :: PcOf(s, w).Idle?
  }

  /** `getCopyAllChainConfigs().Sort()`, by name. */
  ghost predicate Sorted(order: seq<string>, priority: map<string, bool>) {
    SortedBy(order, Order(priority)) && NoDuplicates(order) && forall n :: n in order <==> n in priority
  }

  predicate At(s: State, pc: Pc) {
    !pc.Idle? && pc.i < |pc.order| && pc.order[pc.i] in s.last
  }

  ghost predicate Enabled(c: Setup, s: State, step: Step) {
    match step
    case Begin(w, order) =>
      w in c.crew && PcOf(s, w).Idle? && (c.exclusive ==> NobodyScans(s)) && Sorted(order, s.priority)
    case TestPause(w, at) => PcOf(s, w).Testing? && At(s, PcOf(s, w)) && s.now <= at
    case ReadLast(w) => PcOf(s, w).Unpaused? && At(s, PcOf(s, w))
    case TestDue(w, at) => PcOf(s, w).HasRead? && s.now <= at
    case Stamp(w, at) => PcOf(s, w).Passed? && At(s, PcOf(s, w)) && s.now <= at
    case EndScan(w) => PcOf(s, w).Testing? && PcOf(s, w).i >= |PcOf(s, w).order|
    case Reload(_) => NobodyScans(s)
    case Pause(_, _, at) => s.now <= at
    case Unpause(_) => true
  }

  function Go(s: State, w: int, pc: Pc): State {
    s.(workers := s.workers[w := pc])
  }

  function AfterStamp(s: State, w: int, at: Time): State
    requires At(s, PcOf(s, w))
  {
    var chain := PcOf(s, w).order[PcOf(s, w).i];
    Go(s, w, Idle).(now := at, last := s.last[chain := Some(at)], log := s.log + [Pick(s.generation, chain, w, at)])
  }

  function AfterReload(s: State, priority: map<string, bool>): State {
    s.(generation := s.generation + 1, priority := priority, last := map n | n in priority :: None)
  }

  function AfterTestDue(c: Setup, pc: Pc, at: Time): Pc
    requires pc.HasRead?
  {
    if Due(pc.last, at, c.interval) then Passed(pc.order, pc.i) else Testing(pc.order, pc.i + 1)
  }

  function Apply(c: Setup, s: State, step: Step): State
    requires Enabled(c, s, step)
  {
    match step
    case Begin(w, order) => Go(s, w, Testing(order, 0))
    case TestPause(w, at) =>
      var pc := PcOf(s, w);
      Go(s, w, if Paused(s.pauses, pc.order[pc.i], at) then Testing(pc.order, pc.i + 1) else Unpaused(pc.order, pc.i)).(now := at)
    case ReadLast(w) =>
      var pc := PcOf(s, w);
      Go(s, w, HasRead(pc.order, pc.i, s.last[pc.order[pc.i]]))
    case TestDue(w, at) =>
      Go(s, w, AfterTestDue(c, PcOf(s, w), at)).(now := at)
    case Stamp(w, at) => AfterStamp(s, w, at)
    case EndScan(w) => Go(s, w, Idle)
    case Reload(priority) => AfterReload(s, priority)
    case Pause(chain, duration, at) => s.(now := at, pauses := s.pauses[chain := at + duration])
    case Unpause(chain) => s.(pauses := s.pauses - {chain})
  }

  // ----- what every state keeps

  /** Scans cannot overlap. */
  predicate Solo(c: Setup) {
    c.exclusive || |c.crew| <= 1
  }

  /** The picks that worker `w` can be sure to have seen when it reads the last check. */
  predicate Seen(c: Setup, s: State, p: Pick, w: int, chain: string) {
    p.generation == s.generation && p.chain == chain && (p.worker == w || Solo(c))
  }

  ghost predicate WorkerOk(c: Setup, s: State, w: int) {
    var pc := PcOf(s, w);
    && (!pc.Idle? ==> w in c.crew && Sorted(pc.order, s.priority))
    && (pc.Unpaused? || pc.HasRead? || pc.Passed? ==> pc.i < |pc.order|)
    && (pc.HasRead? ==>
          forall k :: 0 <= k < |s.log| && Seen(c, s, s.log[k], w, pc.order[pc.i]) ==>
            pc.last.Some? && s.log[k].at <= pc.last.value)
    && (pc.HasRead? ==> ReadBefore(c, s, pc))
    && (pc.Passed? ==>
          forall k :: 0 <= k < |s.log| && Seen(c, s, s.log[k], w, pc.order[pc.i]) ==>
            s.log[k].at + c.interval <= s.now)
  }

  /** What a worker has read of a chain is no later than the last check, and is the last check if
      scans cannot overlap. */
  predicate ReadBefore(c: Setup, s: State, pc: Pc)
    requires pc.HasRead? && pc.i < |pc.order|
  {
    && pc.order[pc.i] in s.last
    && (pc.last.Some? ==> s.last[pc.order[pc.i]].Some? && pc.last.value <= s.last[pc.order[pc.i]].value)
    && (Solo(c) ==> pc.last == s.last[pc.order[pc.i]])
  }

  ghost predicate WorkersOk(c: Setup, s: State) {
    && (forall w :: WorkerOk(c, s, w))
    && (Solo(c) ==> forall u, w :: !PcOf(s, u).Idle? && !PcOf(s, w).Idle? ==> u == w)
  }

  /** A chain was last checked no earlier than any of its picks of this generation. */
  ghost predicate StampsOk(c: Setup, s: State) {
    && s.last.Keys == s.priority.Keys
    && (forall n :: n in s.last && s.last[n].Some? ==> s.last[n].value <= s.now)
    && forall k :: 0 <= k < |s.log| ==> PickOk(c, s, s.log[k])
  }

  ghost predicate PickOk(c: Setup, s: State, p: Pick) {
    && p.worker in c.crew && p.at <= s.now && p.generation <= s.generation
    && (p.generation == s.generation ==> p.chain in s.last && s.last[p.chain].Some? && p.at <= s.last[p.chain].value)
  }

  /** Picks of one chain, by one worker or without overlap, are an interval apart. */
  ghost predicate Apart(c: Setup, log: seq<Pick>) {
    forall i, j :: 0 <= i < j < |log| && Rival(c, log[i], log[j]) ==> log[i].at + c.interval <= log[j].at
  }

  predicate Rival(c: Setup, p: Pick, q: Pick) {
    p.generation == q.generation && p.chain == q.chain && (p.worker == q.worker || Solo(c))
  }

  ghost predicate Inv(c: Setup, s: State) {
    WorkersOk(c, s) && StampsOk(c, s) && Apart(c, s.log)
  }

  lemma InitialInv(c: Setup, now: Time)
    ensures Inv(c, Initial(now))
  {
  }

  // ----- one step

  lemma SoleMember<T>(s: set<T>, a: T, b: T)
    requires |s| <= 1 && a in s && b in s
    ensures a == b
  {
    assert |s - {a}| == |s| - 1;
    assert a == b || b in s - {a};
  }

  /** A step by one worker that makes no pick. */
  lemma MoveKeepsInv(c: Setup, s: State, w: int, pc: Pc, at: Time)
    requires Inv(c, s) && !PcOf(s, w).Idle? && s.now <= at
    requires WorkerOk(c, Go(s, w, pc).(now := at), w)
    ensures Inv(c, Go(s, w, pc).(now := at))
  {
    var s' := Go(s, w, pc).(now := at);
    forall u ensures WorkerOk(c, s', u) {
      if u != w {
        assert WorkerOk(c, s, u);
      }
    }
    assert forall u :: !PcOf(s', u).Idle? ==> !PcOf(s, u).Idle?;
    assert forall p :: PickOk(c, s, p) ==> PickOk(c, s', p);
  }

  lemma BeginKeepsInv(c: Setup, s: State, w: int, order: seq<string>)
    requires Inv(c, s) && Enabled(c, s, Begin(w, order))
    ensures Inv(c, Apply(c, s, Begin(w, order)))
  {
    var s' := Apply(c, s, Begin(w, order));
    forall u ensures WorkerOk(c, s', u) {
      assert WorkerOk(c, s, u);
    }
    if Solo(c) {
      forall u | u != w && !PcOf(s', u).Idle? ensures false {
        assert WorkerOk(c, s, u) && !PcOf(s, u).Idle?;
        if !c.exclusive {
          SoleMember(c.crew, u, w);
        }
      }
    }
    assert forall p :: PickOk(c, s, p) ==> PickOk(c, s', p);
  }

  lemma ReadKeepsInv(c: Setup, s: State, w: int)
    requires Inv(c, s) && Enabled(c, s, ReadLast(w))
    ensures Inv(c, Apply(c, s, ReadLast(w)))
  {
    var pc := PcOf(s, w);
    assert WorkerOk(c, s, w);
    assert forall k :: 0 <= k < |s.log| ==> PickOk(c, s, s.log[k]);
    MoveKeepsInv(c, s, w, HasRead(pc.order, pc.i, s.last[pc.order[pc.i]]), s.now);
  }

  /** Since no pick that the worker has seen is later than what it read, all are old enough. */
  lemma TestDueOk(c: Setup, s: State, w: int, at: Time)
    requires WorkerOk(c, s, w) && PcOf(s, w).HasRead? && s.now <= at
    ensures WorkerOk(c, Go(s, w, AfterTestDue(c, PcOf(s, w), at)).(now := at), w)
  {
  }

  lemma TestDueKeepsInv(c: Setup, s: State, w: int, at: Time)
    requires Inv(c, s) && Enabled(c, s, TestDue(w, at))
    ensures Inv(c, Apply(c, s, TestDue(w, at)))
  {
    assert WorkerOk(c, s, w);
    TestDueOk(c, s, w, at);
    MoveKeepsInv(c, s, w, AfterTestDue(c, PcOf(s, w), at), at);
  }

  lemma TestPauseKeepsInv(c: Setup, s: State, w: int, at: Time)
    requires Inv(c, s) && Enabled(c, s, TestPause(w, at))
    ensures Inv(c, Apply(c, s, TestPause(w, at)))
  {
    var pc := PcOf(s, w);
    assert WorkerOk(c, s, w);
    MoveKeepsInv(c, s, w,
                 if Paused(s.pauses, pc.order[pc.i], at) then Testing(pc.order, pc.i + 1) else Unpaused(pc.order, pc.i), at);
  }

  lemma StampKeepsWorkers(c: Setup, s: State, w: int, at: Time)
    requires WorkersOk(c, s) && StampsOk(c, s) && Enabled(c, s, Stamp(w, at))
    ensures WorkersOk(c, AfterStamp(s, w, at))
  {
    var s' := AfterStamp(s, w, at);
    assert WorkerOk(c, s, w);
    assert forall u :: !PcOf(s', u).Idle? ==> !PcOf(s, u).Idle?;
    forall u ensures WorkerOk(c, s', u) {
      assert WorkerOk(c, s, u);
    }
  }

  lemma StampKeepsRest(c: Setup, s: State, w: int, at: Time)
    requires Inv(c, s) && Enabled(c, s, Stamp(w, at))
    ensures StampsOk(c, AfterStamp(s, w, at)) && Apart(c, AfterStamp(s, w, at).log)
  {
    var s' := AfterStamp(s, w, at);
    assert WorkerOk(c, s, w);
    forall k | 0 <= k < |s'.log| ensures PickOk(c, s', s'.log[k]) {
      if k < |s.log| {
        assert PickOk(c, s, s.log[k]);
      }
    }
    forall i | 0 <= i < |s.log| && Rival(c, s.log[i], s'.log[|s.log|]) ensures s.log[i].at + c.interval <= at {
      assert Seen(c, s, s.log[i], w, PcOf(s, w).order[PcOf(s, w).i]);
    }
  }

  lemma ReloadKeepsInv(c: Setup, s: State, priority: map<string, bool>)
    requires Inv(c, s) && Enabled(c, s, Reload(priority))
    ensures Inv(c, AfterReload(s, priority))
  {
    var s' := AfterReload(s, priority);
    assert forall w :: PcOf(s', w) == PcOf(s, w);
    forall k | 0 <= k < |s'.log| ensures PickOk(c, s', s'.log[k]) {
      assert PickOk(c, s, s.log[k]);
    }
  }

  lemma PausesKeepInv(c: Setup, s: State, pauses: map<string, Time>, at: Time)
    requires Inv(c, s) && s.now <= at
    ensures Inv(c, s.(now := at, pauses := pauses))
  {
    var s' := s.(now := at, pauses := pauses);
    assert forall w :: PcOf(s', w) == PcOf(s, w);
    forall w ensures WorkerOk(c, s', w) {
      assert WorkerOk(c, s, w);
    }
    forall k | 0 <= k < |s'.log| ensures PickOk(c, s', s'.log[k]) {
      assert PickOk(c, s, s.log[k]);
    }
  }

  lemma StepKeepsInv(c: Setup, s: State, step: Step)
    requires Inv(c, s) && Enabled(c, s, step)
    ensures Inv(c, Apply(c, s, step))
  {
    match step
    case Begin(w, order) => BeginKeepsInv(c, s, w, order);
    case TestPause(w, at) => TestPauseKeepsInv(c, s, w, at);
    case ReadLast(w) => ReadKeepsInv(c, s, w);
    case TestDue(w, at) => TestDueKeepsInv(c, s, w, at);
    case Stamp(w, at) =>
      StampKeepsWorkers(c, s, w, at);
      StampKeepsRest(c, s, w, at);
    case EndScan(w) => MoveKeepsInv(c, s, w, Idle, s.now);
    case Reload(priority) => ReloadKeepsInv(c, s, priority);
    case Pause(chain, duration, at) => PausesKeepInv(c, s, s.pauses[chain := at + duration], at);
    case Unpause(chain) => PausesKeepInv(c, s, s.pauses - {chain}, s.now);
  }

  // ----- runs

  ghost predicate Feasible(c: Setup, s: State, steps: seq<Step>)
    decreases |steps|
  {
    steps == [] || (Enabled(c, s, steps[0]) && Feasible(c, Apply(c, s, steps[0]), steps[1..]))
  }

  ghost function After(c: Setup, s: State, steps: seq<Step>): State
    requires Feasible(c, s, steps)
    decreases |steps|
  {
    if steps == [] then s else After(c, Apply(c, s, steps[0]), steps[1..])
  }

  lemma {:induction false} RunKeepsInv(c: Setup, s: State, steps: seq<Step>)
    requires Inv(c, s) && Feasible(c, s, steps)
    ensures Inv(c, After(c, s, steps))
    decreases |steps|
  {
    if steps != [] {
      StepKeepsInv(c, s, steps[0]);
      RunKeepsInv(c, Apply(c, s, steps[0]), steps[1..]);
    }
  }

  /** The places in the log where the chain is picked within an interval from `from`. */
  function PicksWithin(log: seq<Pick>, generation: nat, chain: string, from: Time, interval: Duration): set<nat> {
    set k: nat | k < |log| && log[k].generation == generation && log[k].chain == chain && from <= log[k].at < from + interval
  }

  /** A one-to-one image is no smaller. */
  lemma {:induction false} InjectionBound<A, B>(s: set<A>, f: A --> B, t: set<B>)
    requires forall a :: a in s ==> f.requires(a) && f(a) in t
    requires forall a, b :: a in s && b in s && f(a) == f(b) ==> a == b
    ensures |s| <= |t|
    decreases s
  {
    if s != {} {
      var a :| a in s;
      InjectionBound(s - {a}, f, t - {f(a)});
    }
  }

  /** MAIN. In every run, within any time shorter than the interval a chain is picked at most
      once by each worker, so at most as often as there are workers; and at most once in all
      if scans cannot overlap. */
  lemma PicksBounded(c: Setup, now: Time, steps: seq<Step>, generation: nat, chain: string, from: Time)
    requires Feasible(c, Initial(now), steps)
    ensures var picks := PicksWithin(After(c, Initial(now), steps).log, generation, chain, from, c.interval);
            |picks| <= |c.crew| && (Solo(c) ==> |picks| <= 1)
  {
    InitialInv(c, now);
    RunKeepsInv(c, Initial(now), steps);
    var log := After(c, Initial(now), steps).log;
    var picks := PicksWithin(log, generation, chain, from, c.interval);
    var worker := (k: nat) requires k < |log| => log[k].worker;
    forall k | k in picks ensures worker(k) in c.crew {
      assert PickOk(c, After(c, Initial(now), steps), log[k]);
    }
    forall i, j | i in picks && j in picks && i < j
      ensures !Rival(c, log[i], log[j]) && !Rival(c, log[j], log[i])
    {
      assert Rival(c, log[j], log[i]) == Rival(c, log[i], log[j]);
    }
    assert forall i, j :: i in picks && j in picks && worker(i) == worker(j) ==> Rival(c, log[i], log[j]);
    InjectionBound(picks, worker, c.crew);
    if Solo(c) {
      assert forall i, j :: i in picks && j in picks ==> Rival(c, log[i], log[j]);
      InjectionBound(picks, (k: nat) => 0, {0});
    }
  }

  // ----- the bound is reached

  /** Four steps of a worker, up to the passed test. */
  function LookSteps(w: int, chain: string, t: Time): seq<Step> {
    [Begin(w, [chain]), TestPause(w, t), ReadLast(w), TestDue(w, t)]
  }

  /** All workers look at the chain before any stamps it. */
  function LookAll(ws: seq<int>, chain: string, t: Time): seq<Step> {
    if ws == [] then [] else LookAll(ws[..|ws| - 1], chain, t) + LookSteps(ws[|ws| - 1], chain, t)
  }

  function StampAll(ws: seq<int>, t: Time): seq<Step> {
    if ws == [] then [] else StampAll(ws[..|ws| - 1], t) + [Stamp(ws[|ws| - 1], t)]
  }

  function DoublePicks(ws: seq<int>, chain: string, t: Time): seq<Step> {
    ([Reload(map[chain := false])] + LookAll(ws, chain, t)) + StampAll(ws, t)
  }

  lemma {:induction false} RunOn(c: Setup, s: State, first: seq<Step>, rest: seq<Step>)
    requires Feasible(c, s, first) && Feasible(c, After(c, s, first), rest)
    ensures Feasible(c, s, first + rest)
    ensures After(c, s, first + rest) == After(c, After(c, s, first), rest)
    decreases |first|
  {
    if first == [] {
      assert first + rest == rest;
    } else {
      assert (first + rest)[1..] == first[1..] + rest;
      RunOn(c, Apply(c, s, first[0]), first[1..], rest);
    }
  }

  lemma OneStep(c: Setup, s: State, step: Step)
    requires Enabled(c, s, step)
    ensures Feasible(c, s, [step]) && After(c, s, [step]) == Apply(c, s, step)
  {
    assert [step][1..] == [];
  }

  lemma FourSteps(c: Setup, s: State, s1: State, s2: State, s3: State, s4: State, a: Step, b: Step, d: Step, e: Step)
    requires Enabled(c, s, a) && Apply(c, s, a) == s1 && Enabled(c, s1, b) && Apply(c, s1, b) == s2
    requires Enabled(c, s2, d) && Apply(c, s2, d) == s3 && Enabled(c, s3, e) && Apply(c, s3, e) == s4
    ensures Feasible(c, s, [a, b, d, e]) && After(c, s, [a, b, d, e]) == s4
  {
    OneStep(c, s, a);
    OneStep(c, s1, b);
    RunOn(c, s, [a], [b]);
    OneStep(c, s2, d);
    RunOn(c, s, [a] + [b], [d]);
    OneStep(c, s3, e);
    RunOn(c, s, [a] + [b] + [d], [e]);
    assert [a] + [b] + [d] + [e] == [a, b, d, e];
  }

  /** One chain, never checked, never paused. */
  ghost predicate Fresh(s: State, chain: string, t: Time) {
    s.now == t && s.priority == map[chain := false] && s.last == map[chain := None] && s.pauses == map[]
  }

  lemma SingleIsSorted(chain: string)
    ensures Sorted([chain], map[chain := false])
  {
  }

  /** The states of a worker that looks at the one chain, which is neither paused nor checked. */
  lemma LooksOn(c: Setup, s: State, w: int, chain: string, t: Time)
    requires Fresh(s, chain, t)
    ensures var s1, s2, s3 := Go(s, w, Testing([chain], 0)), Go(s, w, Unpaused([chain], 0)), Go(s, w, HasRead([chain], 0, None));
            && Enabled(c, s1, TestPause(w, t)) && Apply(c, s1, TestPause(w, t)) == s2
            && Enabled(c, s2, ReadLast(w)) && Apply(c, s2, ReadLast(w)) == s3
            && Enabled(c, s3, TestDue(w, t)) && Apply(c, s3, TestDue(w, t)) == Go(s, w, Passed([chain], 0))
  {
  }

  lemma LookOnce(c: Setup, s: State, w: int, chain: string, t: Time)
    requires Fresh(s, chain, t) && w in c.crew && PcOf(s, w).Idle? && (c.exclusive ==> NobodyScans(s))
    ensures Feasible(c, s, LookSteps(w, chain, t))
    ensures After(c, s, LookSteps(w, chain, t)) == Go(s, w, Passed([chain], 0))
  {
    var a, b, d, e := Begin(w, [chain]), TestPause(w, t), ReadLast(w), TestDue(w, t);
    var s1 := Go(s, w, Testing([chain], 0));
    var s2 := Go(s, w, Unpaused([chain], 0));
    var s3 := Go(s, w, HasRead([chain], 0, None));
    SingleIsSorted(chain);
    LooksOn(c, s, w, chain, t);
    assert Enabled(c, s, a) && Apply(c, s, a) == s1;
    FourSteps(c, s, s1, s2, s3, Go(s, w, Passed([chain], 0)), a, b, d, e);
  }

  lemma {:induction false} LookAllRuns(c: Setup, s: State, ws: seq<int>, chain: string, t: Time)
    requires Fresh(s, chain, t) && !c.exclusive && NobodyScans(s)
    requires NoDuplicates(ws) && forall w :: w in ws ==> w in c.crew
    ensures Feasible(c, s, LookAll(ws, chain, t))
    ensures var s' := After(c, s, LookAll(ws, chain, t));
            && s' == s.(workers := s'.workers)
            && (forall w :: PcOf(s', w) == if w in ws then Passed([chain], 0) else Idle)
  {
    if ws != [] {
      var earlier, w := ws[..|ws| - 1], ws[|ws| - 1];
      LookAllRuns(c, s, earlier, chain, t);
      assert w !in earlier && ws == earlier + [w];
      var middle := After(c, s, LookAll(earlier, chain, t));
      LookOnce(c, middle, w, chain, t);
      RunOn(c, s, LookAll(earlier, chain, t), LookSteps(w, chain, t));
    }
  }

  function PicksBy(ws: seq<int>, generation: nat, chain: string, t: Time): (picks: seq<Pick>)
    ensures |picks| == |ws|
    ensures forall p :: p in picks ==> p.generation == generation && p.chain == chain && p.at == t
  {
    if ws == [] then []
    else PicksBy(ws[..|ws| - 1], generation, chain, t) + [Pick(generation, chain, ws[|ws| - 1], t)]
  }

  lemma StampOnce(c: Setup, s: State, w: int, chain: string, t: Time)
    requires s.now == t && chain in s.last && PcOf(s, w) == Passed([chain], 0)
    ensures Feasible(c, s, [Stamp(w, t)])
    ensures var s' := After(c, s, [Stamp(w, t)]);
            && s'.now == t && s'.generation == s.generation && chain in s'.last
            && s'.log == s.log + [Pick(s.generation, chain, w, t)]
            && (forall v :: v != w ==> PcOf(s', v) == PcOf(s, v))
  {
    OneStep(c, s, Stamp(w, t));
  }

  /** The state once the workers `ws`, ready to stamp, have all done so. */
  ghost predicate Stamped(s: State, s': State, ws: seq<int>, chain: string, t: Time) {
    && s'.now == t && s'.generation == s.generation && chain in s'.last
    && s'.log == s.log + PicksBy(ws, s.generation, chain, t)
    && (forall w :: w !in ws ==> PcOf(s', w) == PcOf(s, w))
  }

  lemma StampedOneMore(s: State, middle: State, s': State, ws: seq<int>, w: int, chain: string, t: Time)
    requires Stamped(s, middle, ws, chain, t)
    requires s'.now == t && s'.generation == s.generation && chain in s'.last
    requires s'.log == middle.log + [Pick(s.generation, chain, w, t)]
    requires forall v :: v != w ==> PcOf(s', v) == PcOf(middle, v)
    ensures Stamped(s, s', ws + [w], chain, t)
  {
    assert (ws + [w])[..|ws|] == ws;
    assert s.log + PicksBy(ws, s.generation, chain, t) + [Pick(s.generation, chain, w, t)]
        == s.log + PicksBy(ws + [w], s.generation, chain, t);
  }

  lemma {:induction false} StampAllRuns(c: Setup, s: State, ws: seq<int>, chain: string, t: Time)
    requires s.now == t && chain in s.last && NoDuplicates(ws)
    requires forall w :: w in ws ==> PcOf(s, w) == Passed([chain], 0)
    ensures Feasible(c, s, StampAll(ws, t))
    ensures Stamped(s, After(c, s, StampAll(ws, t)), ws, chain, t)
  {
    if ws == [] {
      assert s.log == s.log + PicksBy(ws, s.generation, chain, t);
    } else {
      var earlier, w := ws[..|ws| - 1], ws[|ws| - 1];
      assert w !in earlier && ws == earlier + [w];
      StampAllRuns(c, s, earlier, chain, t);
      var middle := After(c, s, StampAll(earlier, t));
      StampOnce(c, middle, w, chain, t);
      RunOn(c, s, StampAll(earlier, t), [Stamp(w, t)]);
      StampedOneMore(s, middle, After(c, middle, [Stamp(w, t)]), earlier, w, chain, t);
    }
  }

  /** The numbers below `n`. */
  function Below(n: nat): (r: set<nat>)
    ensures |r| == n && forall k: nat :: k in r <==> k < n
  {
    if n == 0 then {} else Below(n - 1) + {n - 1}
  }

  /** The members of a set in some order. */
  lemma {:induction false} Listing<T>(s: set<T>) returns (r: seq<T>)
    ensures NoDuplicates(r) && |r| == |s| && forall x :: x in r <==> x in s
    decreases s
  {
    r := [];
    if s != {} {
      var x :| x in s;
      r := Listing(s - {x});
      r := r + [x];
    }
  }

  /** MAIN. The bound is exact: with the shared lock there is a run in which every worker picks
      the same chain at the same instant. */
  lemma EveryWorkerPicks(c: Setup, t: Time, chain: string) returns (steps: seq<Step>)
    requires !c.exclusive && c.interval > 0
    ensures Feasible(c, Initial(t), steps)
    ensures |PicksWithin(After(c, Initial(t), steps).log, 1, chain, t, c.interval)| == |c.crew|
  {
    var ws := Listing(c.crew);
    steps := DoublePicks(ws, chain, t);
    var reload := Reload(map[chain := false]);
    OneStep(c, Initial(t), reload);
    var s1 := After(c, Initial(t), [reload]);
    assert s1.last == map[chain := None];
    LookAllRuns(c, s1, ws, chain, t);
    RunOn(c, Initial(t), [reload], LookAll(ws, chain, t));
    var s2 := After(c, s1, LookAll(ws, chain, t));
    StampAllRuns(c, s2, ws, chain, t);
    RunOn(c, Initial(t), [reload] + LookAll(ws, chain, t), StampAll(ws, t));
    var log := After(c, s2, StampAll(ws, t)).log;
    assert log == PicksBy(ws, 1, chain, t);
    assert forall k :: 0 <= k < |log| ==> log[k] in log;
    assert PicksWithin(log, 1, chain, t, c.interval) == Below(|ws|);
  }

  ghost predicate NeverTwice(c: Setup, now: Time) {
    forall steps, generation, chain, from :: Feasible(c, Initial(now), steps) ==>
      |PicksWithin(After(c, Initial(now), steps).log, generation, chain, from, c.interval)| <= 1
  }

  /** MAIN. Within one generation, the stamp prevents a double health-check, as its comment says,
      exactly when scans cannot overlap: with one worker, or under an exclusive lock. */
  lemma NoDoubleCheckIff(c: Setup, now: Time)
    requires c.interval > 0
    ensures NeverTwice(c, now) <==> Solo(c)
  {
    if Solo(c) {
      forall steps, generation, chain, from | Feasible(c, Initial(now), steps)
        ensures |PicksWithin(After(c, Initial(now), steps).log, generation, chain, from, c.interval)| <= 1
      {
        PicksBounded(c, now, steps, generation, chain, from);
      }
    } else {
      var steps := EveryWorkerPicks(c, now, "");
      assert |PicksWithin(After(c, Initial(now), steps).log, 1, "", now, c.interval)| > 1;
    }
  }

  // ----- across reloads

  /** The places in the log where the chain is picked within an interval from `from`, whatever the
      generation, and the generations of those picks. */
  function AllPicksWithin(log: seq<Pick>, chain: string, from: Time, interval: Duration): set<nat> {
    set k: nat | k < |log| && log[k].chain == chain && from <= log[k].at < from + interval
  }

  function GenerationsOf(log: seq<Pick>, picks: set<nat>): set<nat>
    requires forall k :: k in picks ==> k < |log|
  {
    set k | k in picks :: log[k].generation
  }

  /** The elements that `f` takes to `g`. */
  function Part<T, G(==)>(s: set<T>, f: T -> G, g: G): set<T> {
    set x | x in s && f(x) == g
  }

  lemma CutPart<T>(s: set<T>, part: set<T>)
    requires part <= s
    ensures |s| == |s - part| + |part|
  {
    assert s == (s - part) + part;
  }

  /** A set that falls into parts of bounded size. */
  lemma {:induction false} PartsBound<T, G>(s: set<T>, f: T -> G, groups: set<G>, bound: nat)
    requires forall x :: x in s ==> f(x) in groups
    requires forall g :: g in groups ==> |Part(s, f, g)| <= bound
    ensures |s| <= bound * |groups|
    decreases groups
  {
    if groups == {} {
      assert s == {};
    } else {
      var g :| g in groups;
      var part, fewer := Part(s, f, g), groups - {g};
      forall h | h in fewer ensures |Part(s - part, f, h)| <= bound {
        assert Part(s - part, f, h) == Part(s, f, h);
      }
      PartsBound(s - part, f, fewer, bound);
      CutPart(s, part);
      assert bound * |groups| == bound * |fewer| + bound;
    }
  }

  /** MAIN. Over whole runs: within any time shorter than the interval a chain is picked at most as
      often as there are workers, or once if scans cannot overlap, for each generation met. */
  lemma PicksBoundedAcrossReloads(c: Setup, now: Time, steps: seq<Step>, chain: string, from: Time)
    requires Feasible(c, Initial(now), steps)
    ensures var log := After(c, Initial(now), steps).log;
            var picks := AllPicksWithin(log, chain, from, c.interval);
            |picks| <= (if Solo(c) then 1 else |c.crew|) * |GenerationsOf(log, picks)|
  {
    var log := After(c, Initial(now), steps).log;
    var picks := AllPicksWithin(log, chain, from, c.interval);
    var bound := if Solo(c) then 1 else |c.crew|;
    var generation := (k: nat) => if k < |log| then log[k].generation else 0;
    forall g | g in GenerationsOf(log, picks) ensures |Part(picks, generation, g)| <= bound {
      PicksBounded(c, now, steps, g, chain, from);
      assert Part(picks, generation, g) == PicksWithin(log, g, chain, from, c.interval);
    }
    PartsBound(picks, generation, GenerationsOf(log, picks), bound);
  }

  /** MAIN. If scans cannot overlap, a chain is checked twice within the interval only across a
      reload: of two such picks, the later one is of a later generation. */
  lemma CloserOnlyAcrossReload(c: Setup, now: Time, steps: seq<Step>, i: nat, j: nat)
    requires Feasible(c, Initial(now), steps) && Solo(c)
    requires var log := After(c, Initial(now), steps).log;
             i < j < |log| && log[i].chain == log[j].chain && log[j].at - log[i].at < c.interval
    ensures var log := After(c, Initial(now), steps).log;
            log[i].generation < log[j].generation
  {
    InitialInv(c, now);
    RunKeepsInv(c, Initial(now), steps);
    GenerationsGrow(c, now, steps, i, j);
    var log := After(c, Initial(now), steps).log;
    assert !Rival(c, log[i], log[j]);
  }

  ghost predicate InOrder(s: State) {
    && (forall k :: 0 <= k < |s.log| ==> s.log[k].generation <= s.generation)
    && (forall i, j :: 0 <= i < j < |s.log| ==> s.log[i].generation <= s.log[j].generation)
  }

  lemma {:induction false} OrderKept(c: Setup, s: State, steps: seq<Step>)
    requires InOrder(s) && Feasible(c, s, steps)
    ensures InOrder(After(c, s, steps))
    decreases |steps|
  {
    if steps != [] {
      OrderKept(c, Apply(c, s, steps[0]), steps[1..]);
    }
  }

  lemma GenerationsGrow(c: Setup, now: Time, steps: seq<Step>, i: nat, j: nat)
    requires Feasible(c, Initial(now), steps) && i < j < |After(c, Initial(now), steps).log|
    ensures var log := After(c, Initial(now), steps).log;
            log[i].generation <= log[j].generation
  {
    OrderKept(c, Initial(now), steps);
  }

  /** A worker picks the chain of a fresh registry. */
  lemma PickFresh(c: Setup, s: State, w: int, chain: string, t: Time) returns (s': State)
    requires Fresh(s, chain, t) && w in c.crew && NobodyScans(s)
    ensures Feasible(c, s, LookSteps(w, chain, t) + [Stamp(w, t)])
    ensures After(c, s, LookSteps(w, chain, t) + [Stamp(w, t)]) == s'
    ensures s'.log == s.log + [Pick(s.generation, chain, w, t)]
    ensures NobodyScans(s') && s'.now == t && s'.pauses == map[] && s'.generation == s.generation
  {
    LookOnce(c, s, w, chain, t);
    var ready := Go(s, w, Passed([chain], 0));
    OneStep(c, ready, Stamp(w, t));
    RunOn(c, s, LookSteps(w, chain, t), [Stamp(w, t)]);
    s' := AfterStamp(ready, w, t);
    assert forall u :: PcOf(s', u) == if u == w then Idle else PcOf(s, u);
  }

  lemma ReloadFresh(c: Setup, s: State, chain: string)
    requires NobodyScans(s) && s.pauses == map[]
    ensures var reload := Reload(map[chain := false]);
            Feasible(c, s, [reload]) && var s' := After(c, s, [reload]);
            && Fresh(s', chain, s.now) && NobodyScans(s') && s'.log == s.log && s'.generation == s.generation + 1
  {
    OneStep(c, s, Reload(map[chain := false]));
    var s' := After(c, s, [Reload(map[chain := false])]);
    assert s'.last == map[chain := None];
    assert forall u :: PcOf(s', u) == PcOf(s, u);
  }

  /** A reload does let one worker check a chain twice at the same instant. */
  lemma ReloadChecksTwice(c: Setup, w: int, chain: string, t: Time) returns (steps: seq<Step>)
    requires w in c.crew
    ensures Feasible(c, Initial(t), steps)
    ensures After(c, Initial(t), steps).log == [Pick(1, chain, w, t), Pick(2, chain, w, t)]
  {
    var reload, look := [Reload(map[chain := false])], LookSteps(w, chain, t) + [Stamp(w, t)];
    ReloadFresh(c, Initial(t), chain);
    var s2 := PickFresh(c, After(c, Initial(t), reload), w, chain, t);
    ReloadFresh(c, s2, chain);
    var s4 := PickFresh(c, After(c, s2, reload), w, chain, t);
    RunOn(c, s2, reload, look);
    RunOn(c, After(c, Initial(t), reload), look, reload + look);
    RunOn(c, Initial(t), reload, look + (reload + look));
    steps := reload + (look + (reload + look));
  }

  ghost predicate NeverTwiceEver(c: Setup, now: Time) {
    forall steps, chain, from :: Feasible(c, Initial(now), steps) ==>
      |AllPicksWithin(After(c, Initial(now), steps).log, chain, from, c.interval)| <= 1
  }

  /** Over whole runs with reloads, then, no double check is excluded only if nobody works. */
  lemma NoDoubleCheckEverIff(c: Setup, now: Time)
    requires c.interval > 0
    ensures NeverTwiceEver(c, now) <==> c.crew == {}
  {
    if c.crew != {} {
      var w := SomeMember(c.crew);
      var steps := ReloadChecksTwice(c, w, "", now);
      var log := After(c, Initial(now), steps).log;
      assert AllPicksWithin(log, "", now, c.interval) == {0, 1};
    } else {
      forall steps, chain, from | Feasible(c, Initial(now), steps)
        ensures |AllPicksWithin(After(c, Initial(now), steps).log, chain, from, c.interval)| <= 1
      {
        NobodyPicks(c, now, steps);
        assert AllPicksWithin([], chain, from, c.interval) == {};
      }
    }
  }

  lemma NobodyPicks(c: Setup, now: Time, steps: seq<Step>)
    requires Feasible(c, Initial(now), steps) && c.crew == {}
    ensures After(c, Initial(now), steps).log == []
  {
    InitialInv(c, now);
    RunKeepsInv(c, Initial(now), steps);
    var s := After(c, Initial(now), steps);
    assert s.log != [] ==> PickOk(c, s, s.log[0]);
  }

  // ----- a scan that nothing interrupts

  /** The chain at place `k` of the list may be picked at the instant `at`. */
  predicate EligibleAt(c: Setup, s: State, order: seq<string>, k: nat, at: Time)
    requires k < |order| && order[k] in s.last
  {
    NotPaused(s, order[k], at) && DueNow(c, s, order[k], at)
  }

  predicate NotPaused(s: State, chain: string, at: Time) {
    chain !in s.pauses || s.pauses[chain] <= at
  }

  predicate DueNow(c: Setup, s: State, chain: string, at: Time)
    requires chain in s.last
  {
    s.last[chain].None? || at - s.last[chain].value >= c.interval
  }

  /** The first eligible place from `i` on, or the end of the list. */
  ghost predicate First(c: Setup, s: State, order: seq<string>, i: nat, k: nat, at: Time)
    requires forall n :: n in order ==> n in s.last
  {
    && i <= k <= |order|
    && (forall j :: i <= j < k ==> !EligibleAt(c, s, order, j, at))
    && (k < |order| ==> EligibleAt(c, s, order, k, at))
  }

  lemma PickAlone(c: Setup, s: State, w: int, at: Time)
    requires PcOf(s, w).Testing? && At(s, PcOf(s, w)) && s.now <= at
    requires EligibleAt(c, s, PcOf(s, w).order, PcOf(s, w).i, at)
    ensures var steps := [TestPause(w, at), ReadLast(w), TestDue(w, at), Stamp(w, at)];
            Feasible(c, s, steps) && After(c, s, steps) == AfterStamp(s, w, at)
  {
    var order, i := PcOf(s, w).order, PcOf(s, w).i;
    var s1 := Go(s, w, Unpaused(order, i)).(now := at);
    var s2 := Go(s1, w, HasRead(order, i, s.last[order[i]]));
    var s3 := Go(s2, w, Passed(order, i));
    assert Apply(c, s3, Stamp(w, at)) == AfterStamp(s, w, at);
    FourSteps(c, s, s1, s2, s3, AfterStamp(s, w, at), TestPause(w, at), ReadLast(w), TestDue(w, at), Stamp(w, at));
  }

  lemma PassOver(c: Setup, s: State, w: int, at: Time) returns (steps: seq<Step>)
    requires PcOf(s, w).Testing? && At(s, PcOf(s, w)) && s.now <= at
    requires !EligibleAt(c, s, PcOf(s, w).order, PcOf(s, w).i, at)
    ensures Feasible(c, s, steps)
    ensures After(c, s, steps) == Go(s, w, Testing(PcOf(s, w).order, PcOf(s, w).i + 1)).(now := at)
  {
    var order, i := PcOf(s, w).order, PcOf(s, w).i;
    OneStep(c, s, TestPause(w, at));
    steps := [TestPause(w, at)];
    if !Paused(s.pauses, order[i], at) {
      var s1 := Go(s, w, Unpaused(order, i)).(now := at);
      var s2 := Go(s1, w, HasRead(order, i, s.last[order[i]]));
      OneStep(c, s1, ReadLast(w));
      OneStep(c, s2, TestDue(w, at));
      RunOn(c, s1, [ReadLast(w)], [TestDue(w, at)]);
      RunOn(c, s, steps, [ReadLast(w)] + [TestDue(w, at)]);
      steps := steps + ([ReadLast(w)] + [TestDue(w, at)]);
      assert Go(s2, w, Testing(order, i + 1)) == Go(s, w, Testing(order, i + 1)).(now := at);
    }
  }

  lemma FirstStays(c: Setup, s: State, s1: State, order: seq<string>, i: nat, k: nat, at: Time)
    requires forall n :: n in order ==> n in s.last
    requires First(c, s, order, i, k, at) && i < k && s1.last == s.last && s1.pauses == s.pauses
    ensures First(c, s1, order, i + 1, k, at)
  {
    forall j | i + 1 <= j < k ensures !EligibleAt(c, s1, order, j, at) {
      assert !EligibleAt(c, s, order, j, at);
    }
    assert k < |order| ==> EligibleAt(c, s, order, k, at);
  }

  /** MAIN. A scan that nothing interrupts picks and stamps the first chain of the sorted list
      that is neither paused nor checked too recently, and otherwise changes nothing. */
  lemma {:induction false} ScanAlone(c: Setup, s: State, w: int, k: nat, at: Time) returns (steps: seq<Step>)
    requires PcOf(s, w).Testing? && PcOf(s, w).i <= |PcOf(s, w).order| && s.now <= at
    requires forall n :: n in PcOf(s, w).order ==> n in s.last
    requires First(c, s, PcOf(s, w).order, PcOf(s, w).i, k, at)
    ensures Feasible(c, s, steps)
    ensures var s', order := After(c, s, steps), PcOf(s, w).order;
            && s.now <= s'.now <= at
            && s' == s.(now := s'.now, workers := s.workers[w := Idle],
                        log := s.log + (if k < |order| then [Pick(s.generation, order[k], w, at)] else []),
                        last := if k < |order| then s.last[order[k] := Some(at)] else s.last)
    decreases |PcOf(s, w).order| - PcOf(s, w).i
  {
    var order, i := PcOf(s, w).order, PcOf(s, w).i;
    if i == |order| {
      OneStep(c, s, EndScan(w));
      steps := [EndScan(w)];
    } else if i == k {
      PickAlone(c, s, w, at);
      steps := [TestPause(w, at), ReadLast(w), TestDue(w, at), Stamp(w, at)];
    } else {
      var first := PassOver(c, s, w, at);
      var s1 := Go(s, w, Testing(order, i + 1)).(now := at);
      FirstStays(c, s, s1, order, i, k, at);
      var rest := ScanAlone(c, s1, w, k, at);
      RunOn(c, s, first, rest);
      steps := first + rest;
    }
  }

  // ----- every chain that is due is picked

  lemma FirstEligible(c: Setup, s: State, order: seq<string>, at: Time) returns (k: nat)
    requires forall n :: n in order ==> n in s.last
    ensures First(c, s, order, 0, k, at)
  {
    k := 0;
    while k < |order| && !EligibleAt(c, s, order, k, at)
      invariant k <= |order| && forall j :: 0 <= j < k ==> !EligibleAt(c, s, order, j, at)
    {
      k := k + 1;
    }
  }

  /** A whole scan by a worker that was idle. */
  lemma WholeScan(c: Setup, s: State, w: int, order: seq<string>, at: Time, k: nat) returns (steps: seq<Step>)
    requires Enabled(c, s, Begin(w, order)) && s.last.Keys == s.priority.Keys && s.now <= at
    requires First(c, s, order, 0, k, at) && k < |order|
    ensures Feasible(c, s, steps)
    ensures var s' := After(c, s, steps);
            && s.now <= s'.now <= at
            && s' == s.(now := s'.now, workers := s.workers[w := Idle], last := s.last[order[k] := Some(at)],
                        log := s.log + [Pick(s.generation, order[k], w, at)])
  {
    var s1 := Go(s, w, Testing(order, 0));
    OneStep(c, s, Begin(w, order));
    assert First(c, s1, order, 0, k, at) by {
      assert forall j :: 0 <= j < |order| ==> EligibleAt(c, s1, order, j, at) == EligibleAt(c, s, order, j, at);
    }
    var scan := ScanAlone(c, s1, w, k, at);
    RunOn(c, s, [Begin(w, order)], scan);
    steps := [Begin(w, order)] + scan;
    assert s1.workers[w := Idle] == s.workers[w := Idle];
  }

  /** Every chain that is neither paused nor checked less than the interval before has been picked
      by `w` at `at`; the others are as they were. */
  ghost predicate DuePicked(c: Setup, s: State, s': State, w: int, at: Time)
    requires s.last.Keys == s.priority.Keys
  {
    && s'.last.Keys == s.last.Keys && s'.generation == s.generation && s.log <= s'.log
    && forall n :: n in s.priority ==>
         if (n in s.pauses ==> s.pauses[n] <= at) && (s.last[n].Some? ==> at - s.last[n].value >= c.interval)
         then s'.last[n] == Some(at) && Pick(s.generation, n, w, at) in s'.log[|s.log|..]
         else s'.last[n] == s.last[n]
  }

  lemma DuePickedOneMore(c: Setup, s: State, s1: State, s': State, w: int, at: Time, chain: string)
    requires s.last.Keys == s.priority.Keys && c.interval > 0 && chain in s.last && NotPaused(s, chain, at) && DueNow(c, s, chain, at)
    requires s1.last == s.last[chain := Some(at)] && s1.log == s.log + [Pick(s.generation, chain, w, at)]
    requires s1.pauses == s.pauses && s1.priority == s.priority && s1.generation == s.generation
    requires DuePicked(c, s1, s', w, at)
    ensures DuePicked(c, s, s', w, at)
  {
    assert s'.log[|s.log|..] == [Pick(s.generation, chain, w, at)] + s'.log[|s1.log|..];
    assert Pick(s.generation, chain, w, at) in s'.log[|s.log|..];
  }

  /** MAIN. From every state in which a worker is idle and may scan, it can go on alone so that, at any
      instant from now on, it picks every chain of the sorted list that is then due and not paused,
      and no other: the stamp holds no chain back for longer than the interval. */
  lemma {:induction false} AllDueArePicked(c: Setup, s: State, w: int, order: seq<string>, at: Time, due: set<string>)
    returns (steps: seq<Step>)
    requires Enabled(c, s, Begin(w, order)) && s.last.Keys == s.priority.Keys && s.now <= at && c.interval > 0
    requires forall n :: n in due <==> n in s.priority && NotPaused(s, n, at) && DueNow(c, s, n, at)
    ensures Feasible(c, s, steps)
    ensures var s' := After(c, s, steps);
            && DuePicked(c, s, s', w, at) && |s'.log| == |s.log| + |due|
            && s' == s.(now := s'.now, workers := s'.workers, last := s'.last, log := s'.log)
            && s'.now <= at && forall u :: PcOf(s', u) == PcOf(s, u)
    decreases |due|
  {
    var k := FirstEligible(c, s, order, at);
    if k == |order| {
      steps := [];
      forall n | n in order ensures n !in due {
        var j :| 0 <= j < |order| && order[j] == n;
        assert !EligibleAt(c, s, order, j, at);
      }
      assert due == {};
    } else {
      assert EligibleAt(c, s, order, k, at) && order[k] in order;
      var first := WholeScan(c, s, w, order, at, k);
      var s1 := After(c, s, first);
      assert forall u :: PcOf(s1, u) == PcOf(s, u);
      steps := AllDueArePicked(c, s1, w, order, at, due - {order[k]});
      DuePickedOneMore(c, s, s1, After(c, s1, steps), w, at, order[k]);
      RunOn(c, s, first, steps);
      steps := first + steps;
    }
  }

  /** MAIN. A chain is picked again as soon as its interval is over, in one generation. */
  lemma PickedAgain(c: Setup, t: Time, w: int, chain: string) returns (steps: seq<Step>)
    requires w in c.crew && c.interval > 0
    ensures Feasible(c, Initial(t), steps)
    ensures After(c, Initial(t), steps).log == [Pick(1, chain, w, t), Pick(1, chain, w, t + c.interval)]
  {
    var reload := Reload(map[chain := false]);
    OneStep(c, Initial(t), reload);
    var s := After(c, Initial(t), [reload]);
    SingleIsSorted(chain);
    var first := WholeScan(c, s, w, [chain], t, 0);
    RunOn(c, Initial(t), [reload], first);
    var s1 := After(c, s, first);
    var second := WholeScan(c, s1, w, [chain], t + c.interval, 0);
    var s2 := After(c, s1, second);
    RunOn(c, s, first, second);
    RunOn(c, Initial(t), [reload], first + second);
    steps := [reload] + (first + second);
    assert s2.log == s1.log + [Pick(1, chain, w, t + c.interval)];
    assert s1.log == [] + [Pick(1, chain, w, t)];
  }

  // ----- why a chain was picked

  ghost predicate Prefix(c: Setup, now: Time, steps: seq<Step>, m: nat) {
    m < |steps| && Feasible(c, Initial(now), steps[..m])
  }

  /** The state in which step `m` of a run is taken. */
  ghost function Before(c: Setup, now: Time, steps: seq<Step>, m: nat): State
    requires Prefix(c, now, steps, m)
  {
    After(c, Initial(now), steps[..m])
  }

  /** At step `m`, worker `w` is at place `j` of `order`. */
  ghost predicate Looks(c: Setup, now: Time, steps: seq<Step>, m: nat, w: int, order: seq<string>, j: nat) {
    && Prefix(c, now, steps, m) && j < |order|
    && var s := Before(c, now, steps, m);
    var pc := PcOf(s, w);
    !pc.Idle? && pc.order == order && pc.i == j && order[j] in s.last
  }

  /** Step `m` is the test by which `w` refuses place `j`: the chain is then paused, or was last
      checked less than the interval before. */
  ghost predicate RefusedAt(c: Setup, now: Time, steps: seq<Step>, m: nat, w: int, order: seq<string>, j: nat) {
    && Looks(c, now, steps, m, w, order, j)
    && (steps[m].TestPause? || steps[m].TestDue?) && steps[m].worker == w
    && var s, chain, at := Before(c, now, steps, m), order[j], steps[m].at;
    (chain in s.pauses && at < s.pauses[chain]) || (s.last[chain].Some? && at - s.last[chain].value < c.interval)
  }

  /** Step `m` is the test by which `w` finds place `j` not paused. */
  ghost predicate UnpausedAt(c: Setup, now: Time, steps: seq<Step>, m: nat, w: int, order: seq<string>, j: nat) {
    && Looks(c, now, steps, m, w, order, j)
    && steps[m].TestPause? && steps[m].worker == w
    && var pauses := Before(c, now, steps, m).pauses;
    order[j] in pauses ==> pauses[order[j]] <= steps[m].at
  }

  /** Step `m` is the test by which `w` finds place `j` due, by what it read; and if scans cannot
      overlap, by the last check. */
  ghost predicate DueAt(c: Setup, now: Time, steps: seq<Step>, m: nat, w: int, order: seq<string>, j: nat) {
    && Looks(c, now, steps, m, w, order, j)
    && steps[m].TestDue? && steps[m].worker == w
    && var s, at := Before(c, now, steps, m), steps[m].at;
    && PcOf(s, w).HasRead? && (PcOf(s, w).last.Some? ==> at - PcOf(s, w).last.value >= c.interval)
    && (Solo(c) ==> s.last[order[j]].Some? ==> at - s.last[order[j]].value >= c.interval)
  }

  /** When the present scan of `w` began. */
  function LastBegin(steps: seq<Step>, w: int): int {
    if steps == [] then -1
    else if steps[|steps| - 1].Begin? && steps[|steps| - 1].worker == w then |steps| - 1
    else LastBegin(steps[..|steps| - 1], w)
  }

  /** The present scan of `w` is over `order`. */
  ghost predicate BeganWith(steps: seq<Step>, w: int, order: seq<string>) {
    0 <= LastBegin(steps, w) < |steps| && steps[LastBegin(steps, w)] == Begin(w, order)
  }

  /** Each happened in the present scan of `w`. */
  ghost predicate WasRefused(c: Setup, now: Time, steps: seq<Step>, w: int, order: seq<string>, j: nat) {
    exists m: nat :: LastBegin(steps, w) < m && RefusedAt(c, now, steps, m, w, order, j)
  }

  ghost predicate WasUnpaused(c: Setup, now: Time, steps: seq<Step>, w: int, order: seq<string>, j: nat) {
    exists m: nat :: LastBegin(steps, w) < m && UnpausedAt(c, now, steps, m, w, order, j)
  }

  ghost predicate WasDue(c: Setup, now: Time, steps: seq<Step>, w: int, order: seq<string>, j: nat) {
    exists m: nat :: LastBegin(steps, w) < m && DueAt(c, now, steps, m, w, order, j)
  }

  /** What the present scan of `w` has found, step by step. */
  ghost predicate Explained(c: Setup, now: Time, steps: seq<Step>, w: int, pc: Pc) {
    !pc.Idle? ==>
      && BeganWith(steps, w, pc.order)
      && (forall j :: 0 <= j < pc.i && j < |pc.order| ==> WasRefused(c, now, steps, w, pc.order, j))
      && (!pc.Testing? ==> WasUnpaused(c, now, steps, w, pc.order, pc.i))
      && (pc.Passed? ==> WasDue(c, now, steps, w, pc.order, pc.i))
  }

  lemma {:induction false} SplitLast(c: Setup, s: State, steps: seq<Step>)
    requires Feasible(c, s, steps) && steps != []
    ensures var n := |steps| - 1;
            && Feasible(c, s, steps[..n]) && Enabled(c, After(c, s, steps[..n]), steps[n])
            && After(c, s, steps) == Apply(c, After(c, s, steps[..n]), steps[n])
    decreases |steps|
  {
    var n := |steps| - 1;
    if n > 0 {
      SplitLast(c, Apply(c, s, steps[0]), steps[1..]);
      assert steps[1..][..n - 1] == steps[..n][1..];
    }
  }

  lemma BeginStays(steps: seq<Step>, last: Step, w: int)
    ensures LastBegin(steps + [last], w) == if last.Begin? && last.worker == w then |steps| else LastBegin(steps, w)
  {
    assert (steps + [last])[..|steps|] == steps;
  }

  /** What happened earlier in a run is not changed by one more step. */
  lemma LooksStay(c: Setup, now: Time, steps: seq<Step>, last: Step, m: nat, w: int, order: seq<string>, j: nat)
    ensures RefusedAt(c, now, steps, m, w, order, j) ==> RefusedAt(c, now, steps + [last], m, w, order, j)
    ensures UnpausedAt(c, now, steps, m, w, order, j) ==> UnpausedAt(c, now, steps + [last], m, w, order, j)
    ensures DueAt(c, now, steps, m, w, order, j) ==> DueAt(c, now, steps + [last], m, w, order, j)
  {
    if m < |steps| {
      assert (steps + [last])[..m] == steps[..m] && (steps + [last])[m] == steps[m];
    }
  }

  lemma FindingsStay(c: Setup, now: Time, steps: seq<Step>, last: Step, w: int, order: seq<string>, j: nat)
    requires !(last.Begin? && last.worker == w)
    ensures WasRefused(c, now, steps, w, order, j) ==> WasRefused(c, now, steps + [last], w, order, j)
    ensures WasUnpaused(c, now, steps, w, order, j) ==> WasUnpaused(c, now, steps + [last], w, order, j)
    ensures WasDue(c, now, steps, w, order, j) ==> WasDue(c, now, steps + [last], w, order, j)
  {
    BeginStays(steps, last, w);
    forall m: nat {
      LooksStay(c, now, steps, last, m, w, order, j);
    }
  }

  /** A step that leaves `w` where it is, or that `w` takes without a test. */
  lemma ExplainedStays(c: Setup, now: Time, steps: seq<Step>, last: Step, w: int, pc: Pc)
    requires Explained(c, now, steps, w, pc) && !(last.Begin? && last.worker == w)
    ensures Explained(c, now, steps + [last], w, pc)
  {
    BeginStays(steps, last, w);
    if !pc.Idle? {
      forall j: nat {
        FindingsStay(c, now, steps, last, w, pc.order, j);
      }
    }
  }

  lemma {:induction false} BeginIsEarlier(steps: seq<Step>, w: int)
    ensures LastBegin(steps, w) < |steps|
  {
    if steps != [] {
      BeginIsEarlier(steps[..|steps| - 1], w);
    }
  }

  /** The test at the end of a run is what it is taken for. */
  lemma TestIs(c: Setup, now: Time, steps: seq<Step>, last: Step, w: int)
    requires Feasible(c, Initial(now), steps) && Enabled(c, After(c, Initial(now), steps), last)
    requires Inv(c, After(c, Initial(now), steps))
    requires (last.TestPause? || last.TestDue?) && last.worker == w
    ensures var s, all, m := After(c, Initial(now), steps), steps + [last], |steps|;
            var pc := PcOf(s, w);
            && (PcOf(Apply(c, s, last), w).i > pc.i ==> RefusedAt(c, now, all, m, w, pc.order, pc.i))
            && (last.TestPause? && PcOf(Apply(c, s, last), w).i == pc.i ==> UnpausedAt(c, now, all, m, w, pc.order, pc.i))
            && (last.TestDue? && PcOf(Apply(c, s, last), w).i == pc.i ==> DueAt(c, now, all, m, w, pc.order, pc.i))
  {
    var s := After(c, Initial(now), steps);
    assert (steps + [last])[..|steps|] == steps;
    assert WorkerOk(c, s, w);
  }

  lemma ExplainedAfterTest(c: Setup, now: Time, steps: seq<Step>, last: Step, w: int)
    requires Feasible(c, Initial(now), steps) && Enabled(c, After(c, Initial(now), steps), last)
    requires Inv(c, After(c, Initial(now), steps)) && Explained(c, now, steps, w, PcOf(After(c, Initial(now), steps), w))
    requires (last.TestPause? || last.TestDue?) && last.worker == w
    ensures Explained(c, now, steps + [last], w, PcOf(Apply(c, After(c, Initial(now), steps), last), w))
  {
    var s := After(c, Initial(now), steps);
    var pc, pc' := PcOf(s, w), PcOf(Apply(c, s, last), w);
    TestIs(c, now, steps, last, w);
    ExplainedStays(c, now, steps, last, w, pc);
    BeginStays(steps, last, w);
    BeginIsEarlier(steps, w);
  }

  /** A step of another worker, or one without a test. */
  lemma ExplainedAfterOther(c: Setup, now: Time, steps: seq<Step>, s: State, last: Step, w: int)
    requires Enabled(c, s, last) && Explained(c, now, steps, w, PcOf(s, w))
    requires !((last.TestPause? || last.TestDue?) && last.worker == w)
    ensures Explained(c, now, steps + [last], w, PcOf(Apply(c, s, last), w))
  {
    BeginStays(steps, last, w);
    if !(last.Begin? && last.worker == w) {
      ExplainedStays(c, now, steps, last, w, PcOf(s, w));
    }
  }

  lemma {:induction false} ScansExplained(c: Setup, now: Time, steps: seq<Step>, w: int)
    requires Feasible(c, Initial(now), steps)
    ensures Explained(c, now, steps, w, PcOf(After(c, Initial(now), steps), w))
    decreases |steps|
  {
    if steps != [] {
      var earlier, last := steps[..|steps| - 1], steps[|steps| - 1];
      SplitLast(c, Initial(now), steps);
      assert steps == earlier + [last];
      ScansExplained(c, now, earlier, w);
      if (last.TestPause? || last.TestDue?) && last.worker == w {
        InitialInv(c, now);
        RunKeepsInv(c, Initial(now), earlier);
        ExplainedAfterTest(c, now, earlier, last, w);
      } else {
        ExplainedAfterOther(c, now, earlier, After(c, Initial(now), earlier), last, w);
      }
    }
  }

  /** MAIN. In every run, whatever the other workers, reloads and pauses do, a chain is stamped only
      for a reason: in the same scan, each chain that stands before it in the sorted list was
      tested and was then paused or checked too recently, and the chain itself was tested and
      was not paused, and due by what the worker read; by its last check if scans cannot overlap. */
  lemma PickHasReasons(c: Setup, now: Time, steps: seq<Step>, k: nat)
    requires Feasible(c, Initial(now), steps) && k < |steps| && steps[k].Stamp?
    ensures Prefix(c, now, steps, k)
    ensures var s, w, past := Before(c, now, steps, k), steps[k].worker, steps[..k];
            var pc := PcOf(s, w);
            && pc.Passed? && pc.i < |pc.order| && Sorted(pc.order, s.priority) && BeganWith(past, w, pc.order)
            && (forall j :: 0 <= j < pc.i ==> WasRefused(c, now, past, w, pc.order, j))
            && WasUnpaused(c, now, past, w, pc.order, pc.i) && WasDue(c, now, past, w, pc.order, pc.i)
  {
    PrefixRuns(c, Initial(now), steps, k);
    ScansExplained(c, now, steps[..k], steps[k].worker);
    InitialInv(c, now);
    RunKeepsInv(c, Initial(now), steps[..k]);
    assert WorkerOk(c, Before(c, now, steps, k), steps[k].worker);
  }

  lemma {:induction false} PrefixRuns(c: Setup, s: State, steps: seq<Step>, k: nat)
    requires Feasible(c, s, steps) && k < |steps|
    ensures Feasible(c, s, steps[..k]) && Enabled(c, After(c, s, steps[..k]), steps[k])
    decreases |steps|
  {
    if k > 0 {
      PrefixRuns(c, Apply(c, s, steps[0]), steps[1..], k - 1);
      assert steps[1..][..k - 1] == steps[..k][1..];
    }
  }
}
