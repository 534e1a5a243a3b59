/** The panics of the workers and of the registries they call, over every run of reloads of users
    and chains, health-checks and informs. A worker keeps the chain it has picked while reloads
    go on, so chains that have left the registry count as well. */
module Safety {
  import opened GoRuntime
  import opened Config
  import opened Endpoint
  import opened RegisteredChain
  import opened UserRegistry
  import opened Valoper

  /** A registered chain; informs reorder its endpoints. */
  datatype Chain = Chain(validators: seq<ValidatorOfChain>, rpc: seq<string>, healthCheckRPC: seq<string>)

  /** worker.go:75, worker.go:888, rpc_client_registry.go:14, worker.go:633, telegram_bot_registry.go:18. */
  datatype Panic = IncompleteTelegram | NoRpc | EmptyEndpoint | NoAddressPrefix | EmptyToken

  /** A worker between the reading of the endpoints of a chain and the inform. */
  datatype Pc = Free | Checking(chain: nat, rpc: seq<string>)

  /** `chains` are all chains ever registered. */
  datatype State = State(
    users: map<string, UserRecord>, identities: map<int, string>, chains: seq<Chain>, workers: map<int, Pc>, panics: set<Panic>)

  datatype Step =
    | ReloadUsers(records: seq<UserRecord>, users: map<string, UserRecord>, identities: map<int, string>)
    | ReloadChains(configs: seq<ChainConfig>, known: map<string, UserRecord>, made: seq<Chain>)
    | FindWatcher(identity: string)
    | ReadEndpoints(worker: int, chain: nat)
    | AskClient(worker: int, endpoint: string)
    | Inform(worker: int, endpoint: string)
    | AskManagedClient(chain: nat, endpoint: string)
    | DeriveAddress(chain: nat, validator: ValidatorOfChain)
    | AskOptionalClient(chain: nat, validator: ValidatorOfChain)
    | AskBot(telegramId: int)
    | AskBotOnReload(records: seq<UserRecord>, record: UserRecord)

  function Initial(): State {
    State(map[], map[], [], map[], {})
  }

  function PcOf(s: State, w: int): Pc {
    if w in s.workers then s.workers[w] else Free
  }

  /** What `newRegisteredChainConfig` makes of a configured chain. */
  ghost predicate Made(chain: Chain, c: ChainConfig) {
    && ValidatorsFrom(chain.validators, c)
    && EndpointsFrom(chain.rpc, c.rpcs + c.healthCheckRPC)
    && (forall e :: e in chain.healthCheckRPC ==> exists r :: r in c.healthCheckRPC && e == NormalizeRPC(r))
  }

  /** The objects of the chain registry are such chains. */
  lemma ObjectsAreMade(r: RegisteredChainConfig, c: ChainConfig)
    requires r.MadeFrom(c)
    ensures Made(Chain(r.validators, r.rpc, r.healthCheckRPC), c)
  {
    forall e | e in r.healthCheckRPC ensures exists q :: q in c.healthCheckRPC && e == NormalizeRPC(q) {
      var i :| 0 <= i < |r.healthCheckRPC| && r.healthCheckRPC[i] == e;
      assert c.healthCheckRPC[i] in c.healthCheckRPC;
    }
  }

  ghost predicate MadeAll(made: seq<Chain>, configs: seq<ChainConfig>) {
    forall chain :: chain in made ==> exists c :: c in configs && !c.disable && Made(chain, c)
  }

  ghost predicate Enabled(s: State, step: Step) {
    match step
    case ReloadUsers(records, users, identities) => ValidUsers(records) ==> Indexes(records, users, identities)
    case ReloadChains(configs, _, made) => MadeAll(made, configs)
    case FindWatcher(_) => true
    case ReadEndpoints(_, chain) => chain < |s.chains|
    case AskClient(w, endpoint) => PcOf(s, w).Checking? && endpoint in PcOf(s, w).rpc
    case Inform(w, endpoint) => PcOf(s, w).Checking? && PcOf(s, w).chain < |s.chains| && endpoint in PcOf(s, w).rpc
    case AskManagedClient(chain, endpoint) => chain < |s.chains| && endpoint in s.chains[chain].healthCheckRPC
    case DeriveAddress(chain, v) => chain < |s.chains| && v in s.chains[chain].validators
    case AskOptionalClient(chain, v) => chain < |s.chains| && v in s.chains[chain].validators
    case AskBot(_) => true
    case AskBotOnReload(records, r) => r in records
  }

  function PanicIf(s: State, condition: bool, panic: Panic): State {
    if condition then s.(panics := s.panics + {panic}) else s
  }

  /** The pusher gives up on an unknown user or an incomplete Telegram section before it asks. */
  function TokenAsked(s: State, telegramId: int): Option<string> {
    match ByTelegramId(s.users, s.identities, telegramId)
    case None => None
    case Some(r) => if IsEmptyOrIncompleteConfig(r.telegram) then None else Some(r.telegram.value.token)
  }

  /** The worker skips the optional endpoint of a validator when there is none. */
  function OptionalAsked(v: ValidatorOfChain): Option<string> {
    if v.optionalHealthCheckRPC != "" then Some(v.optionalHealthCheckRPC) else None
  }

  /** After an accepted reload, the bot of each record with a Telegram section is asked for. */
  ghost function ReloadAsks(records: seq<UserRecord>, r: UserRecord): Option<string> {
    if ValidUsers(records) && r.telegram.Some? then Some(r.telegram.value.token) else None
  }

  ghost function Apply(s: State, step: Step): State
    requires Enabled(s, step)
  {
    match step
    case ReloadUsers(records, users, identities) =>
      if ValidUsers(records) then s.(users := users, identities := identities) else s
    case ReloadChains(configs, known, made) =>
      if ValidChains(configs, known) then s.(chains := s.chains + made) else s
    case FindWatcher(identity) =>
      PanicIf(s, identity in s.users && IsEmptyOrIncompleteConfig(s.users[identity].telegram), IncompleteTelegram)
    case ReadEndpoints(w, chain) =>
      PanicIf(s.(workers := s.workers[w := Checking(chain, s.chains[chain].rpc)]), s.chains[chain].rpc == [], NoRpc)
    case AskClient(_, endpoint) => PanicIf(s, endpoint == "", EmptyEndpoint)
    case Inform(w, endpoint) =>
      var k := PcOf(s, w).chain;
      s.(workers := s.workers[w := Free],
         chains := s.chains[k := s.chains[k].(rpc := MoveToFront(s.chains[k].rpc, endpoint))])
    case AskManagedClient(_, endpoint) => PanicIf(s, endpoint == "", EmptyEndpoint)
    case DeriveAddress(_, v) => PanicIf(s, GetAddrHrpFromValoperHrp(v.valoper).None?, NoAddressPrefix)
    case AskOptionalClient(_, v) => PanicIf(s, OptionalAsked(v) == Some(""), EmptyEndpoint)
    case AskBot(id) => PanicIf(s, TokenAsked(s, id) == Some(""), EmptyToken)
    case AskBotOnReload(records, r) => PanicIf(s, ReloadAsks(records, r) == Some(""), EmptyToken)
  }

  /** The panics of the source are those of the machine: each is recorded when, and only when, the
      worker meets what the source panics on. */
  lemma PanicsAreSeen(s: State, step: Step)
    requires Enabled(s, step)
    ensures var seen := Apply(s, step).panics;
            && (step.FindWatcher? && step.identity in s.users ==>
                  var t := s.users[step.identity].telegram;
                  seen == s.panics + if t.None? || t.value.username == "" || t.value.userId == 0 || t.value.token == ""
                                     then {IncompleteTelegram} else {})
            && (step.ReadEndpoints? ==> seen == s.panics + if s.chains[step.chain].rpc == [] then {NoRpc} else {})
            && (step.AskClient? || step.AskManagedClient? ==>
                  seen == s.panics + if step.endpoint == "" then {EmptyEndpoint} else {})
            && (step.DeriveAddress? ==>
                  seen == s.panics + if exists before, data :: '1' !in data && step.validator.valoper == before + "valoper" + "1" + data
                                     then {} else {NoAddressPrefix})
            && (step.AskBotOnReload? && ValidUsers(step.records) && step.record.telegram.Some? ==>
                  seen == s.panics + if step.record.telegram.value.token == "" then {EmptyToken} else {})
  {
    if step.DeriveAddress? {
      PrefixSucceedsIff(step.validator.valoper);
    }
  }

  // ----- what every state keeps

  ghost predicate ChainOk(chain: Chain) {
    && chain.rpc != [] && "" !in chain.rpc && "" !in chain.healthCheckRPC
    && forall v :: v in chain.validators ==> IsValoperAddressFormat(v.valoper)
  }

  ghost predicate WorkerOk(s: State, w: int) {
    var pc := PcOf(s, w);
    pc.Checking? ==> pc.chain < |s.chains| && forall e :: e in pc.rpc ==> e in s.chains[pc.chain].rpc
  }

  ghost predicate Inv(s: State) {
    && (forall id :: id in s.users ==> !IsEmptyOrIncompleteConfig(s.users[id].telegram))
    && (forall k :: 0 <= k < |s.chains| ==> ChainOk(s.chains[k]))
    && (forall w :: WorkerOk(s, w))
    && s.panics == {}
  }

  lemma NormalEndpointsNonEmpty(rpc: seq<string>, configured: seq<string>)
    requires "" !in configured
    requires forall e :: e in rpc ==> exists r :: r in configured && e == NormalizeRPC(r)
    ensures "" !in rpc
  {
    forall e | e in rpc ensures e != "" {
      var r :| r in configured && e == NormalizeRPC(r);
      KeyNonEmpty(r);
    }
  }

  /** What validation asks of an enabled chain is what the worker needs. */
  lemma ValidatedChainIsOk(chain: Chain, c: ChainConfig)
    ensures Made(chain, c) && ValidChain(c) && !c.disable ==> ChainOk(chain)
  {
    var configured := c.rpcs + c.healthCheckRPC;
    if Made(chain, c) && ValidChain(c) && !c.disable {
      EndpointsMembers(chain.rpc, configured);
      NormalEndpointsNonEmpty(chain.rpc, configured);
      NormalEndpointsNonEmpty(chain.healthCheckRPC, c.healthCheckRPC);
      assert configured[0] in configured;
      assert NormalizeRPC(configured[0]) in chain.rpc;
    }
  }

  lemma MoveKeepsMembers(rpc: seq<string>, endpoint: string)
    requires endpoint in rpc
    ensures MoveToFront(rpc, endpoint) != []
    ensures forall e :: e in MoveToFront(rpc, endpoint) <==> e in rpc
  {
    forall e ensures e in MoveToFront(rpc, endpoint) <==> e in rpc {
      WithoutMember(rpc, endpoint, e);
    }
  }

  lemma InformKeepsInv(s: State, w: int, endpoint: string)
    requires Inv(s) && Enabled(s, Inform(w, endpoint))
    ensures Inv(Apply(s, Inform(w, endpoint)))
  {
    var s' := Apply(s, Inform(w, endpoint));
    var k := PcOf(s, w).chain;
    assert WorkerOk(s, w);
    MoveKeepsMembers(s.chains[k].rpc, endpoint);
    assert ChainOk(s.chains[k]);
    forall u ensures WorkerOk(s', u) {
      assert WorkerOk(s, u);
    }
  }

  lemma ReloadKeepsInv(s: State, configs: seq<ChainConfig>, known: map<string, UserRecord>, made: seq<Chain>)
    requires Inv(s) && Enabled(s, ReloadChains(configs, known, made))
    ensures Inv(Apply(s, ReloadChains(configs, known, made)))
  {
    var s' := Apply(s, ReloadChains(configs, known, made));
    if ValidChains(configs, known) {
      forall chain | chain in made ensures ChainOk(chain) {
        var c :| c in configs && !c.disable && Made(chain, c);
        ValidatedChainIsOk(chain, c);
      }
      forall w ensures WorkerOk(s', w) {
        assert WorkerOk(s, w);
      }
    }
  }

  lemma UsersKeepInv(s: State, records: seq<UserRecord>, users: map<string, UserRecord>, identities: map<int, string>)
    requires Inv(s) && Enabled(s, ReloadUsers(records, users, identities))
    ensures Inv(Apply(s, ReloadUsers(records, users, identities)))
  {
    var s' := Apply(s, ReloadUsers(records, users, identities));
    if ValidUsers(records) {
      LookupsAgree(records, users, identities);
    }
    forall w ensures WorkerOk(s', w) {
      assert WorkerOk(s, w);
    }
  }

  lemma ReadKeepsInv(s: State, w: int, chain: nat)
    requires Inv(s) && Enabled(s, ReadEndpoints(w, chain))
    ensures Inv(Apply(s, ReadEndpoints(w, chain)))
  {
    var s' := Apply(s, ReadEndpoints(w, chain));
    assert ChainOk(s.chains[chain]);
    forall u ensures WorkerOk(s', u) {
      assert WorkerOk(s, u);
    }
  }

  lemma StepKeepsInv(s: State, step: Step)
    requires Inv(s) && Enabled(s, step)
    ensures Inv(Apply(s, step))
  {
    match step
    case ReloadUsers(records, users, identities) => UsersKeepInv(s, records, users, identities);
    case ReloadChains(configs, known, made) => ReloadKeepsInv(s, configs, known, made);
    case ReadEndpoints(w, chain) => ReadKeepsInv(s, w, chain);
    case Inform(w, endpoint) => InformKeepsInv(s, w, endpoint);
    case AskClient(w, _) => assert WorkerOk(s, w) && ChainOk(s.chains[PcOf(s, w).chain]);
    case AskManagedClient(chain, _) => assert ChainOk(s.chains[chain]);
    case DeriveAddress(chain, _) => assert ChainOk(s.chains[chain]);
    case _ =>
  }

  // ----- runs

  ghost predicate Feasible(s: State, steps: seq<Step>)
    decreases |steps|
  {
    steps == [] || (Enabled(s, steps[0]) && Feasible(Apply(s, steps[0]), steps[1..]))
  }

  ghost function After(s: State, steps: seq<Step>): State
    requires Feasible(s, steps)
    decreases |steps|
  {
    if steps == [] then s else After(Apply(s, steps[0]), steps[1..])
  }

  lemma {:induction false} RunKeepsInv(s: State, steps: seq<Step>)
    requires Inv(s) && Feasible(s, steps)
    ensures Inv(After(s, steps))
    decreases |steps|
  {
    if steps != [] {
      StepKeepsInv(s, steps[0]);
      RunKeepsInv(Apply(s, steps[0]), steps[1..]);
    }
  }

  lemma InitialInv()
    ensures Inv(Initial())
  {
  }

  /** MAIN. After every run of reloads, accepted or rejected, health-checks and informs: every user has
      a complete Telegram section, also when found by a Telegram id; every chain that anything
      still holds has an endpoint, no empty endpoint and only addresses whose prefix can be
      read; and no worker holds an empty endpoint. */
  lemma WorkersFindWhatTheyNeed(steps: seq<Step>)
    requires Feasible(Initial(), steps)
    ensures var s := After(Initial(), steps);
            && (forall id :: id in s.users ==>
                  && s.users[id].telegram.Some? && s.users[id].telegram.value.username != ""
                  && s.users[id].telegram.value.userId != 0 && s.users[id].telegram.value.token != "")
            && (forall t: int :: t in s.identities && s.identities[t] in s.users ==> s.users[s.identities[t]].telegram.Some?)
            && (forall k :: 0 <= k < |s.chains| ==>
                  s.chains[k].rpc != [] && "" !in s.chains[k].rpc && "" !in s.chains[k].healthCheckRPC)
            && (forall k, v :: 0 <= k < |s.chains| && v in s.chains[k].validators ==>
                  exists account, data :: '1' !in data && v.valoper == account + "valoper" + "1" + data)
            && (forall w :: w in s.workers && s.workers[w].Checking? ==> "" !in s.workers[w].rpc)
  {
    InitialInv();
    RunKeepsInv(Initial(), steps);
    var s := After(Initial(), steps);
    forall k, v | 0 <= k < |s.chains| && v in s.chains[k].validators
      ensures exists account, data :: '1' !in data && v.valoper == account + "valoper" + "1" + data
    {
      assert ChainOk(s.chains[k]);
      PrefixSucceedsIff(v.valoper);
    }
    forall w | w in s.workers && s.workers[w].Checking? ensures "" !in s.workers[w].rpc {
      assert WorkerOk(s, w) && ChainOk(s.chains[s.workers[w].chain]);
    }
    forall k | 0 <= k < |s.chains| ensures s.chains[k].rpc != [] && "" !in s.chains[k].rpc && "" !in s.chains[k].healthCheckRPC {
      assert ChainOk(s.chains[k]);
    }
  }

  /** MAIN. No run of reloads, accepted or rejected, health-checks and informs reaches any of
      these panics. */
  lemma NoPanic(steps: seq<Step>)
    requires Feasible(Initial(), steps)
    ensures After(Initial(), steps).panics == {}
  {
    InitialInv();
    RunKeepsInv(Initial(), steps);
  }

  /** MAIN. A chain keeps its validators and the set of its endpoints for as long as anything
      holds it, whatever is informed and reloaded. */
  lemma {:induction false} ChainsKeepEndpoints(s: State, steps: seq<Step>, k: nat)
    requires Inv(s) && Feasible(s, steps) && k < |s.chains|
    ensures var s' := After(s, steps);
            && k < |s'.chains| && s'.chains[k].validators == s.chains[k].validators
            && forall e :: e in s'.chains[k].rpc <==> e in s.chains[k].rpc
    decreases |steps|
  {
    if steps != [] {
      StepKeepsInv(s, steps[0]);
      if steps[0].Inform? {
        assert WorkerOk(s, steps[0].worker);
        MoveKeepsMembers(s.chains[PcOf(s, steps[0].worker).chain].rpc, steps[0].endpoint);
      }
      ChainsKeepEndpoints(Apply(s, steps[0]), steps[1..], k);
    }
  }
}
