/** registry/chain_registry/chain_registry.go and pauser.go: the registered chains, the index
    of watchers, the pauses, and the choice of the chain to check next. */
module ChainRegistry {
  import opened GoRuntime
  import opened Text
  import opened Config
  import opened RegisteredChain

  // ----- the watcher index

  /** Operator addresses by watcher and chain name: the two levels of the nested map. */
  type WatcherIndex = map<(string, string), seq<string>>

  function Watched(index: WatcherIndex, watcher: string, chain: string): seq<string> {
    if (watcher, chain) in index then index[(watcher, chain)] else []
  }

  /** How often `valoper` is listed for a watcher on a chain. */
  ghost function Mult(index: WatcherIndex, watcher: string, chain: string, valoper: string): nat {
    multiset(Watched(index, watcher, chain))[valoper]
  }

  /** How often a watcher is listed by a validator, if the chain has that validator. */
  ghost function Count(validators: map<string, ChainValidatorConfig>, watcher: string, valoper: string): nat {
    if valoper in validators then multiset(validators[valoper].watchers)[watcher] else 0
  }

  function AddWatcher(index: WatcherIndex, watcher: string, chain: string, valoper: string): WatcherIndex {
    index[(watcher, chain) := Watched(index, watcher, chain) + [valoper]]
  }

  /** The inner loop: every watcher of one validator. */
  function AddWatchers(index: WatcherIndex, watchers: seq<string>, chain: string, valoper: string): WatcherIndex {
    if watchers == [] then index
    else AddWatcher(AddWatchers(index, watchers[..|watchers| - 1], chain, valoper), watchers[|watchers| - 1], chain, valoper)
  }

  lemma AddWatcherCounts(index: WatcherIndex, watcher: string, chain: string, valoper: string, w: string, c: string, v: string)
    ensures Mult(AddWatcher(index, watcher, chain, valoper), w, c, v)
         == Mult(index, w, c, v) + if w == watcher && c == chain && v == valoper then 1 else 0
  {
  }

  lemma {:induction false} AddWatchersCounts(index: WatcherIndex, watchers: seq<string>, chain: string, valoper: string,
                                             w: string, c: string, v: string)
    ensures Mult(AddWatchers(index, watchers, chain, valoper), w, c, v)
         == Mult(index, w, c, v) + if c == chain && v == valoper then multiset(watchers)[w] else 0
  {
    if watchers != [] {
      var earlier, last := watchers[..|watchers| - 1], watchers[|watchers| - 1];
      AddWatchersCounts(index, earlier, chain, valoper, w, c, v);
      assert watchers == earlier + [last];
      AddWatcherCounts(AddWatchers(index, earlier, chain, valoper), last, chain, valoper, w, c, v);
    }
  }

  /** The index lists exactly the watchers of the validators `done` of the chain, on top of `base`. */
  ghost predicate Lists(index: WatcherIndex, base: WatcherIndex, done: map<string, ChainValidatorConfig>, chain: string) {
    forall w, c, v :: Mult(index, w, c, v) == Mult(base, w, c, v) + if c == chain then Count(done, w, v) else 0
  }

  lemma ListsNothing(index: WatcherIndex, chain: string)
    ensures Lists(index, index, map[], chain)
  {
    var none: map<string, ChainValidatorConfig> := map[];
    assert forall w, v :: Count(none, w, v) == 0;
  }

  lemma ListsOneMore(index: WatcherIndex, base: WatcherIndex, done: map<string, ChainValidatorConfig>, chain: string,
                     valoper: string, config: ChainValidatorConfig)
    requires Lists(index, base, done, chain) && valoper !in done
    ensures Lists(AddWatchers(index, config.watchers, chain, valoper), base, done[valoper := config], chain)
  {
    forall w, c, v
      ensures Mult(AddWatchers(index, config.watchers, chain, valoper), w, c, v)
           == Mult(base, w, c, v) + if c == chain then Count(done[valoper := config], w, v) else 0
    {
      AddWatchersCounts(index, config.watchers, chain, valoper, w, c, v);
      assert Mult(index, w, c, v) == Mult(base, w, c, v) + if c == chain then Count(done, w, v) else 0;
    }
  }

  /** The configured and enabled chain of that name, if there is one. */
  ghost predicate Has(configs: seq<ChainConfig>, name: string, config: ChainConfig) {
    config in configs && !config.disable && config.chainName == name
  }

  /** The enabled chains by name; a later one of the same name would win. */
  function EnabledByName(configs: seq<ChainConfig>): map<string, ChainConfig> {
    if configs == [] then map[]
    else
      var earlier, c := EnabledByName(configs[..|configs| - 1]), configs[|configs| - 1];
      if c.disable then earlier else earlier[c.chainName := c]
  }

  lemma EnabledOneMore(configs: seq<ChainConfig>, c: ChainConfig)
    ensures EnabledByName(configs + [c])
         == if c.disable then EnabledByName(configs) else EnabledByName(configs)[c.chainName := c]
  {
    assert (configs + [c])[..|configs|] == configs;
  }

  /** With unique names, no enabled chain is lost. */
  lemma {:induction false} EnabledMeaning(configs: seq<ChainConfig>, name: string, c: ChainConfig)
    requires forall i, j :: 0 <= i < j < |configs| ==> configs[i].chainName != configs[j].chainName
    ensures (name in EnabledByName(configs) && EnabledByName(configs)[name] == c)
       <==> c in configs && !c.disable && c.chainName == name
  {
    if configs != [] {
      var earlier, last := configs[..|configs| - 1], configs[|configs| - 1];
      EnabledMeaning(earlier, name, c);
      assert configs == earlier + [last];
      assert forall d :: d in earlier ==> d.chainName != last.chainName;
    }
  }

  /** MAIN, as the meaning of the index: `v` is listed for watcher `w` on chain `c` as often
      as `w` watches the validator `v` of the enabled chain `c`, and not at all otherwise. */
  ghost predicate IndexAgrees(index: WatcherIndex, configs: seq<ChainConfig>) {
    && (forall w, c, v, config :: Has(configs, c, config) ==> Mult(index, w, c, v) == Count(config.validators, w, v))
    && (forall w, c, v :: Mult(index, w, c, v) > 0 ==> exists config :: Has(configs, c, config))
  }

  /** One more enabled chain, whose name is new. */
  lemma IndexOneMore(index: WatcherIndex, index': WatcherIndex, configs: seq<ChainConfig>, config: ChainConfig)
    requires IndexAgrees(index, configs) && !config.disable
    requires forall c :: c in configs ==> c.chainName != config.chainName
    requires Lists(index', index, config.validators, config.chainName)
    ensures IndexAgrees(index', configs + [config])
  {
    var longer := configs + [config];
    var name := config.chainName;
    forall c, other ensures Has(longer, c, other) <==> Has(configs, c, other) || (c == name && other == config) {
    }
    assert forall other :: !Has(configs, name, other);
    assert forall w, v :: Mult(index, w, name, v) == 0;
    forall w, c, v, other | Has(longer, c, other) ensures Mult(index', w, c, v) == Count(other.validators, w, v) {
      assert Mult(index', w, c, v) == Mult(index, w, c, v) + if c == name then Count(config.validators, w, v) else 0;
    }
    forall w, c, v | Mult(index', w, c, v) > 0 ensures exists other :: Has(longer, c, other) {
      assert Mult(index', w, c, v) == Mult(index, w, c, v) + if c == name then Count(config.validators, w, v) else 0;
      if c == name {
        assert Has(longer, c, config);
      } else {
        var other :| Has(configs, c, other);
        assert Has(longer, c, other);
      }
    }
  }

  lemma IndexSkipsDisabled(index: WatcherIndex, configs: seq<ChainConfig>, config: ChainConfig)
    requires IndexAgrees(index, configs) && config.disable
    ensures IndexAgrees(index, configs + [config])
  {
    forall c, other ensures Has(configs + [config], c, other) <==> Has(configs, c, other) {
    }
  }

  /** What a reader takes from it: an address is listed iff an enabled chain has that validator
      and the watcher watches it. */
  lemma ListedIff(index: WatcherIndex, configs: seq<ChainConfig>, w: string, c: string, v: string)
    requires IndexAgrees(index, configs)
    ensures (w, c) in index && v in index[(w, c)] <==>
              exists config :: config in configs && !config.disable && config.chainName == c
                               && v in config.validators && w in config.validators[v].watchers
  {
    assert v in Watched(index, w, c) <==> Mult(index, w, c, v) > 0;
    if config :| Has(configs, c, config) {
      assert Mult(index, w, c, v) == Count(config.validators, w, v);
    }
  }

  // ----- the order of chains

  /** The comparison of `Sort`: priority chains first, then by name. */
  predicate Before(priority: map<string, bool>, a: string, b: string) {
    var pa, pb := a in priority && priority[a], b in priority && priority[b];
    if pa == pb then Less(a, b) else pa
  }

  function Order(priority: map<string, bool>): (string, string) -> bool {
    (a, b) => Before(priority, a, b)
  }

  lemma OrderIsStrict(priority: map<string, bool>)
    ensures StrictWeakOrder(Order(priority))
  {
    var less := Order(priority);
    forall a ensures !less(a, a) {
      LessIsIrreflexive(a);
    }
    forall a, b, c | less(a, b) && less(b, c) ensures less(a, c) {
      LessIsTransitive(a, b, c);
    }
    forall a, b, c | Incomparable(less, a, b) && Incomparable(less, b, c) ensures Incomparable(less, a, c) {
      LessIsTotal(a, b);
      LessIsTotal(b, c);
    }
  }

  /** In a sorted list, chains with priority come first, and in both groups the names ascend. */
  lemma SortedChains(names: seq<string>, priority: map<string, bool>, i: nat, j: nat)
    requires SortedBy(names, Order(priority)) && i < j < |names|
    requires names[i] in priority && names[j] in priority
    ensures priority[names[j]] ==> priority[names[i]]
    ensures priority[names[i]] == priority[names[j]] ==> names[i] == names[j] || Less(names[i], names[j])
  {
    assert !Order(priority)(names[j], names[i]);
    LessIsTotal(names[i], names[j]);
  }

  /** In a sorted list of names, what comes before an entry stands before it. */
  lemma EarlierInOrder(names: seq<string>, priority: map<string, bool>, n: string, i: nat)
    requires SortedBy(names, Order(priority))
    requires i < |names| && n in names && Before(priority, n, names[i])
    ensures exists k :: 0 <= k < i && names[k] == n
  {
    LessIsIrreflexive(n);
    var k :| 0 <= k < |names| && names[k] == n;
    assert forall j :: i < j < |names| ==> !Order(priority)(names[j], names[i]);
  }

  /** `getCopyAllChainConfigs().Sort()`, by name: the keys in any order, and then sorted. */
  method SortedNames(priority: map<string, bool>) returns (names: seq<string>)
    ensures forall n :: n in names <==> n in priority
    ensures SortedBy(names, Order(priority))
  {
    var unsorted := Enumerate(priority.Keys);
    OrderIsStrict(priority);
    names := SortSlice(unsorted, Order(priority));
    forall n ensures n in names <==> n in priority {
      assert n in names <==> n in multiset(names);
      assert n in unsorted <==> n in multiset(unsorted);
    }
  }

  // ----- pauses

  class Pauser {
    var pausedChains: map<string, Time>

    constructor ()
      ensures pausedChains == map[]
    {
      pausedChains := map[];
    }

    method PauseChain(chain: string, duration: Duration, clock: Clock) returns (expiry: Time)
      modifies this, clock
      ensures old(clock.now) <= clock.now && expiry == clock.now + duration
      ensures pausedChains == old(pausedChains)[chain := expiry]
    {
      var t := clock.Now();
      expiry := t + duration;
      pausedChains := pausedChains[chain := expiry];
    }

    method UnpauseChain(chain: string)
      modifies this
      ensures pausedChains == old(pausedChains) - {chain}
    {
      pausedChains := pausedChains - {chain};
    }

    method IsChainPaused(chain: string, clock: Clock) returns (paused: bool)
      modifies clock
      ensures old(clock.now) <= clock.now
      ensures paused <==> chain in pausedChains && clock.now < pausedChains[chain]
    {
      var t := clock.Now();
      paused := chain in pausedChains && t < pausedChains[chain];
    }
  }

  predicate Paused(pauses: map<string, Time>, chain: string, now: Time) {
    chain in pauses && now < pauses[chain]
  }

  predicate Due(last: Option<Time>, now: Time, interval: Duration) {
    last.None? || now - last.value >= interval
  }

  predicate Eligible(name: string, pauses: map<string, Time>, last: Option<Time>, now: Time, interval: Duration) {
    !Paused(pauses, name, now) && Due(last, now, interval)
  }

  // ----- the registry

  class ChainRegistry {
    var chains: map<string, RegisteredChainConfig>
    var index: WatcherIndex

    ghost predicate Valid()
      reads this
    {
      forall n :: n in chains ==> chains[n].chainName == n
    }

    constructor ()
      ensures Valid() && chains == map[] && index == map[]
    {
      chains, index := map[], map[];
    }

    /** The registry holds one object for each of the chains, newly made. */
    ghost predicate Holds(configured: map<string, ChainConfig>)
      reads this, chains.Values
    {
      && chains.Keys == configured.Keys
      && forall n :: n in chains ==> chains[n].MadeFrom(configured[n])
    }

    /** `UpdateChainsConfigWL`: all or nothing. */
    method UpdateChainsConfig(configs: seq<ChainConfig>, users: map<string, UserRecord>) returns (ok: bool)
      requires Valid()
      modifies this
      ensures Valid()
      ensures ok <==> ValidChains(configs, users)
      ensures !ok ==> chains == old(chains) && index == old(index)
      ensures ok ==> Holds(EnabledByName(configs)) && forall m :: m in chains ==> fresh(chains[m])
      ensures ok ==> IndexAgrees(index, configs)
    {
      ok := ValidateChains(configs, users);
      if ok {
        Rebuild(configs);
      }
    }

    method Rebuild(configs: seq<ChainConfig>)
      requires Valid()
      requires forall i, j :: 0 <= i < j < |configs| ==> configs[i].chainName != configs[j].chainName
      modifies this
      ensures Valid() && forall m :: m in chains ==> fresh(chains[m])
      ensures Holds(EnabledByName(configs))
      ensures IndexAgrees(index, configs)
    {
      chains, index := map[], map[];
      for n := 0 to |configs|
        invariant Valid() && forall m :: m in chains ==> fresh(chains[m])
        invariant Holds(EnabledByName(configs[..n]))
        invariant IndexAgrees(index, configs[..n])
      {
        var c := configs[n];
        TakeOneMore(configs, n);
        EnabledOneMore(configs[..n], c);
        if c.disable {
          IndexSkipsDisabled(index, configs[..n], c);
          continue;
        }
        ghost var before := index;
        PutChain(c);
        AddChain(c);
        IndexOneMore(before, index, configs[..n], c);
      }
      TakeAll(configs);
    }

    method PutChain(c: ChainConfig)
      requires Valid()
      modifies this`chains
      ensures Valid() && c.chainName in chains
      ensures fresh(chains[c.chainName]) && chains[c.chainName].MadeFrom(c)
      ensures chains == old(chains)[c.chainName := chains[c.chainName]]
    {
      var r := new RegisteredChainConfig(c);
      chains := chains[c.chainName := r];
    }

    /** The loops over the validators of a chain, in any order, and over their watchers. */
    method AddChain(c: ChainConfig)
      modifies this`index
      ensures Lists(index, old(index), c.validators, c.chainName)
    {
      ListsNothing(index, c.chainName);
      var todo := c.validators.Keys;
      ghost var done: map<string, ChainValidatorConfig> := map[];
      while todo != {}
        invariant todo + done.Keys == c.validators.Keys && todo !! done.Keys
        invariant forall v :: v in done ==> done[v] == c.validators[v]
        invariant Lists(index, old(index), done, c.chainName)
        decreases todo
      {
        var v :| v in todo;
        ListsOneMore(index, old(index), done, c.chainName, v, c.validators[v]);
        AddValidator(c.chainName, v, c.validators[v].watchers);
        todo := todo - {v};
        done := done[v := c.validators[v]];
      }
      assert done == c.validators;
    }

    method AddValidator(chain: string, valoper: string, watchers: seq<string>)
      modifies this`index
      ensures index == AddWatchers(old(index), watchers, chain, valoper)
    {
      for i := 0 to |watchers|
        invariant index == AddWatchers(old(index), watchers[..i], chain, valoper)
      {
        TakeOneMore(watchers, i);
        index := AddWatcher(index, watchers[i], chain, valoper);
      }
      TakeAll(watchers);
    }

    ghost function Priorities(): map<string, bool>
      reads this
    {
      map n | n in chains :: chains[n].priority
    }

    /** Chains with priority come first, then the name decides. */
    ghost predicate Earlier(n: string, name: string)
      requires n in chains && name in chains
      reads this
    {
      if chains[n].priority == chains[name].priority then Less(n, name) else chains[n].priority
    }

    /** One turn of the loop of `GetFirstChainConfigForHealthCheckRL`: pause test, reading of
        the last check, due test, and stamp. */
    method TryChain(chain: RegisteredChainConfig, interval: Duration, pauser: Pauser, clock: Clock) returns (picked: bool)
      modifies chain`lastHealthCheckUtc, clock
      ensures old(clock.now) <= clock.now
      ensures picked ==>
                && Eligible(chain.chainName, pauser.pausedChains, old(chain.lastHealthCheckUtc), clock.now, interval)
                && chain.lastHealthCheckUtc == Some(clock.now)
      ensures !picked ==>
                && !Eligible(chain.chainName, pauser.pausedChains, chain.lastHealthCheckUtc, old(clock.now), interval)
                && chain.lastHealthCheckUtc == old(chain.lastHealthCheckUtc)
    {
      var paused := pauser.IsChainPaused(chain.chainName, clock);
      if paused {
        return false;
      }
      var last := chain.lastHealthCheckUtc;
      var t := clock.Now();
      if last.None? || t - last.value >= interval {
        chain.SetLastHealthCheckUtc(clock);
        return true;
      }
      return false;
    }

    /** The loop of `GetFirstChainConfigForHealthCheckRL` over the sorted chains. */
    method Scan(names: seq<string>, interval: Duration, pauser: Pauser, clock: Clock) returns (k: nat)
      requires Valid()
      requires forall i :: 0 <= i < |names| ==> names[i] in chains
      modifies chains.Values`lastHealthCheckUtc, clock
      ensures k <= |names| && old(clock.now) <= clock.now
      ensures forall i :: 0 <= i < k ==>
                !Eligible(names[i], pauser.pausedChains, old(chains[names[i]].lastHealthCheckUtc), old(clock.now), interval)
      ensures k < |names| ==>
                && Eligible(names[k], pauser.pausedChains, old(chains[names[k]].lastHealthCheckUtc), clock.now, interval)
                && chains[names[k]].lastHealthCheckUtc == Some(clock.now)
      ensures forall n :: n in chains && (k == |names| || n != names[k]) ==>
                chains[n].lastHealthCheckUtc == old(chains[n].lastHealthCheckUtc)
    {
      ghost var start := clock.now;
      for i := 0 to |names|
        invariant start <= clock.now
        invariant forall n :: n in chains ==> chains[n].lastHealthCheckUtc == old(chains[n].lastHealthCheckUtc)
        invariant forall j :: 0 <= j < i ==>
                    !Eligible(names[j], pauser.pausedChains, old(chains[names[j]].lastHealthCheckUtc), start, interval)
      {
        ghost var middle := clock.now;
        var picked := TryChain(chains[names[i]], interval, pauser, clock);
        if picked {
          return i;
        }
        IneligibleEarlier(names[i], pauser.pausedChains, chains[names[i]].lastHealthCheckUtc, start, middle, interval);
      }
      return |names|;
    }

    /** `GetFirstChainConfigForHealthCheckRL`, when no other worker runs. The clock moves while
        the chains are looked at, so the call is judged at its ends: every chain that comes
        before the one picked was ineligible when the call began, the picked chain is eligible
        when it ends, and only the stamp of that chain changes. */
    method GetFirstChainConfigForHealthCheck(interval: Duration, pauser: Pauser, clock: Clock)
      returns (picked: Option<RegisteredChainConfig>)
      requires Valid()
      modifies chains.Values`lastHealthCheckUtc, clock
      ensures old(clock.now) <= clock.now
      ensures picked.Some? ==>
                var name := picked.value.chainName;
                && name in chains && chains[name] == picked.value
                && (name in pauser.pausedChains ==> pauser.pausedChains[name] <= clock.now)
                && (old(chains[name].lastHealthCheckUtc).Some? ==>
                      clock.now - old(chains[name].lastHealthCheckUtc).value >= interval)
                && picked.value.lastHealthCheckUtc == Some(clock.now)
      ensures forall n :: n in chains && (picked.Some? ==> Earlier(n, picked.value.chainName)) ==>
                || (n in pauser.pausedChains && old(clock.now) < pauser.pausedChains[n])
                || (old(chains[n].lastHealthCheckUtc).Some?
                    && old(clock.now) - old(chains[n].lastHealthCheckUtc).value < interval)
      ensures forall n :: n in chains && picked != Some(chains[n]) ==>
                chains[n].lastHealthCheckUtc == old(chains[n].lastHealthCheckUtc)
    {
      ghost var priorities := Priorities();
      var names := SortedNames(map n | n in chains :: chains[n].priority);
      assert forall i :: 0 <= i < |names| ==> names[i] in names;
      var k := Scan(names, interval, pauser, clock);
      if k == |names| {
        assert forall n :: n in chains ==> n in names;
        return None;
      }
      forall n | n in chains && Earlier(n, names[k])
        ensures !Eligible(n, pauser.pausedChains, old(chains[n].lastHealthCheckUtc), old(clock.now), interval)
      {
        EarlierInOrder(names, priorities, n, k);
      }
      return Some(chains[names[k]]);
    }
  }

  /** Paused or not due stays so when time is turned back. */
  lemma IneligibleEarlier(name: string, pauses: map<string, Time>, last: Option<Time>, early: Time, late: Time, interval: Duration)
    requires early <= late && !Eligible(name, pauses, last, late, interval)
    ensures !Eligible(name, pauses, last, early, interval)
  {
  }
}
