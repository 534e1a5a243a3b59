/** config/users_config.go and config/chain_config.go: what a loaded configuration must satisfy. */
module Config {
  import opened GoRuntime
  import opened Text
  import opened Valoper

  datatype TelegramConfig = TelegramConfig(username: string, userId: int, token: string)

  datatype UserRecord = UserRecord(identity: string, root: bool, telegram: Option<TelegramConfig>)

  predicate IsEmptyOrIncompleteConfig(t: Option<TelegramConfig>) {
    t.None? || t.value.username == "" || t.value.userId == 0 || t.value.token == ""
  }

  /** The regular expression `^[a-zA-Z\d_]+$`. */
  predicate WordOnly(s: string) {
    s != "" && forall c | c in s :: WordByte(c)
  }

  datatype UserError =
    | IdentityMissing | IdentityFormat | TelegramMissing | UsernameMissing | UsernameFormat
    | UserIdMissing | TokenMissing | TelegramIncomplete

  /** `UserRecord.Validate`. The last branch repeats the checks on the parts of the Telegram
      section, so its error cannot come up. */
  function ValidateUser(r: UserRecord): (e: Option<UserError>)
    ensures e.None? <==>
              && r.identity != "" && (forall c | c in r.identity :: 'a' <= c <= 'z' || 'A' <= c <= 'Z' || '0' <= c <= '9' || c == '_')
              && r.telegram.Some? && r.telegram.value.userId != 0 && r.telegram.value.token != ""
              && var name := r.telegram.value.username;
              name != "" && forall c | c in name :: 'a' <= c <= 'z' || 'A' <= c <= 'Z' || '0' <= c <= '9' || c == '_'
    ensures e != Some(TelegramIncomplete)
  {
    if r.identity == "" then Some(IdentityMissing)
    else if !WordOnly(r.identity) then Some(IdentityFormat)
    else if r.telegram.None? then Some(TelegramMissing)
    else if r.telegram.value.username == "" then Some(UsernameMissing)
    else if !WordOnly(r.telegram.value.username) then Some(UsernameFormat)
    else if r.telegram.value.userId == 0 then Some(UserIdMissing)
    else if r.telegram.value.token == "" then Some(TokenMissing)
    else if IsEmptyOrIncompleteConfig(r.telegram) then Some(TelegramIncomplete)
    else None
  }

  /** The records that `UserRecords.Validate` accepts. */
  ghost predicate ValidUsers(records: seq<UserRecord>) {
    && (forall r :: r in records ==> ValidateUser(r).None?)
    && (forall i, j :: 0 <= i < j < |records| ==> Differ(records[i], records[j]))
    && (exists r :: r in records && r.root)
  }

  /** Two records share neither identity nor Telegram name nor Telegram id. */
  predicate Differ(a: UserRecord, b: UserRecord) {
    && a.identity != b.identity
    && (a.telegram.Some? && b.telegram.Some? ==>
          a.telegram.value.username != b.telegram.value.username && a.telegram.value.userId != b.telegram.value.userId)
  }

  lemma UsersMean(records: seq<UserRecord>)
    ensures ValidUsers(records)
       <==> && (forall r :: r in records ==> ValidateUser(r).None?)
            && (forall i, j :: 0 <= i < j < |records| ==>
                  && records[i].identity != records[j].identity
                  && (records[i].telegram.Some? && records[j].telegram.Some? ==>
                        && records[i].telegram.value.username != records[j].telegram.value.username
                        && records[i].telegram.value.userId != records[j].telegram.value.userId))
            && (exists r :: r in records && r.root)
  {
  }

  method ValidateUsers(records: seq<UserRecord>) returns (ok: bool)
    ensures ok <==> ValidUsers(records)
    ensures ok <==>
              && (forall r :: r in records ==> ValidateUser(r).None?)
              && (forall i, j :: 0 <= i < j < |records| ==>
                    && records[i].identity != records[j].identity
                    && (records[i].telegram.Some? && records[j].telegram.Some? ==>
                          && records[i].telegram.value.username != records[j].telegram.value.username
                          && records[i].telegram.value.userId != records[j].telegram.value.userId))
              && (exists r :: r in records && r.root)
  {
    ok := ValidateRecords(records);
    UsersMean(records);
  }

  /** The loop of `UserRecords.Validate`. */
  method ValidateRecords(records: seq<UserRecord>) returns (ok: bool)
    ensures ok <==> ValidUsers(records)
  {
    if |records| < 1 {
      return false;
    }
    var identities, usernames, userIds := {}, {}, {};
    var anyRoot := false;
    for n := 0 to |records|
      invariant forall k :: 0 <= k < n ==> ValidateUser(records[k]).None?
      invariant forall i, j :: 0 <= i < j < n ==> Differ(records[i], records[j])
      invariant forall k :: 0 <= k < n ==> records[k].telegram.Some?
      invariant identities == set k | 0 <= k < n :: records[k].identity
      invariant usernames == set k | 0 <= k < n :: records[k].telegram.value.username
      invariant userIds == set k | 0 <= k < n :: records[k].telegram.value.userId
      invariant anyRoot <==> exists k :: 0 <= k < n && records[k].root
    {
      var r := records[n];
      if ValidateUser(r).Some? {
        assert r in records;
        return false;
      }
      if r.identity in identities || r.telegram.value.username in usernames || r.telegram.value.userId in userIds {
        assert exists k :: 0 <= k < n && !Differ(records[k], records[n]);
        return false;
      }
      identities := identities + {r.identity};
      usernames := usernames + {r.telegram.value.username};
      userIds := userIds + {r.telegram.value.userId};
      if r.root {
        anyRoot := true;
      }
    }
    if anyRoot {
      var k :| 0 <= k < |records| && records[k].root;
      assert records[k] in records;
    }
    return anyRoot;
  }

  // ----- chains

  /** The operator address of a validator is its key, as `LoadChainsConfig` sets it. */
  datatype ChainValidatorConfig = ChainValidatorConfig(watchers: seq<string>, optionalHealthCheckRPC: string)

  datatype ChainConfig = ChainConfig(
    chainName: string, chainId: string, disable: bool, priority: bool, rpcs: seq<string>,
    validators: map<string, ChainValidatorConfig>, healthCheckRPC: seq<string>)

  /** The regular expression `^[\w-]+$`. */
  predicate ChainWordOnly(s: string) {
    s != "" && forall c | c in s :: WordByte(c) || c == '-'
  }

  /** `ChainConfig.Validate` returns no error. Nothing but the names of a disabled chain matters. */
  predicate ValidChain(c: ChainConfig) {
    && ChainWordOnly(c.chainName) && ChainWordOnly(c.chainId)
    && (c.disable || ValidEnabledChain(c))
  }

  predicate ValidEnabledChain(c: ChainConfig) {
    && "" !in c.rpcs
    && |c.validators| != 0
    && (forall v | v in c.validators ::
          IsValoperAddressFormat(v) && c.validators[v].watchers != [] && "" !in c.validators[v].watchers)
    && "" !in c.healthCheckRPC
    && !(c.rpcs == [] && c.healthCheckRPC == [])
  }

  /** Watchers are users of the configuration with a complete Telegram section. */
  predicate WatchersKnown(c: ChainConfig, users: map<string, UserRecord>) {
    forall v | v in c.validators :: forall w | w in c.validators[v].watchers ::
      w in users && !IsEmptyOrIncompleteConfig(users[w].telegram)
  }

  /** The configurations that `ChainsConfig.Validate` accepts. */
  ghost predicate ValidChains(configs: seq<ChainConfig>, users: map<string, UserRecord>) {
    && (forall c :: c in configs ==> ValidChain(c) && WatchersKnown(c, users))
    && (forall i, j :: 0 <= i < j < |configs| ==> configs[i].chainName != configs[j].chainName)
    && (exists c :: c in configs && !c.disable)
  }

  method AnyEmpty(s: seq<string>) returns (found: bool)
    ensures found <==> "" in s
  {
    for i := 0 to |s|
      invariant forall k :: 0 <= k < i ==> s[k] != ""
    {
      if s[i] == "" {
        return true;
      }
    }
    return false;
  }

  /** The loop over the validators of a chain, in any order. */
  method ValidateValidators(validators: map<string, ChainValidatorConfig>) returns (ok: bool)
    ensures ok <==> forall v :: v in validators ==>
              IsValoperAddressFormat(v) && validators[v].watchers != [] && "" !in validators[v].watchers
  {
    var todo := validators.Keys;
    while todo != {}
      invariant todo <= validators.Keys
      invariant forall v :: v in validators && v !in todo ==>
                  IsValoperAddressFormat(v) && validators[v].watchers != [] && "" !in validators[v].watchers
      decreases todo
    {
      var v :| v in todo;
      var anyEmpty := AnyEmpty(validators[v].watchers);
      if !IsValoperAddressFormat(v) || |validators[v].watchers| == 0 || anyEmpty {
        return false;
      }
      todo := todo - {v};
    }
    return true;
  }

  /** `ChainConfig.Validate`. */
  method ValidateChain(c: ChainConfig) returns (ok: bool)
    ensures ok <==> ValidChain(c)
    ensures ok <==>
              && c.chainName != "" && c.chainId != ""
              && (forall x | x in c.chainName :: 'a' <= x <= 'z' || 'A' <= x <= 'Z' || '0' <= x <= '9' || x == '_' || x == '-')
              && (forall x | x in c.chainId :: 'a' <= x <= 'z' || 'A' <= x <= 'Z' || '0' <= x <= '9' || x == '_' || x == '-')
              && (c.disable ||
                  (&& "" !in c.rpcs && "" !in c.healthCheckRPC && !(c.rpcs == [] && c.healthCheckRPC == [])
                   && |c.validators| > 0
                   && forall v :: v in c.validators ==>
                        IsValoperAddressFormat(v) && c.validators[v].watchers != [] && "" !in c.validators[v].watchers))
  {
    if !ChainWordOnly(c.chainName) || !ChainWordOnly(c.chainId) {
      return false;
    }
    if c.disable {
      return true;
    }
    var anyEmpty := AnyEmpty(c.rpcs);
    if anyEmpty || |c.validators| == 0 {
      return false;
    }
    var valid := ValidateValidators(c.validators);
    if !valid {
      return false;
    }
    anyEmpty := AnyEmpty(c.healthCheckRPC);
    return !anyEmpty && !(|c.rpcs| == 0 && |c.healthCheckRPC| == 0);
  }

  method AllKnown(watchers: seq<string>, users: map<string, UserRecord>) returns (ok: bool)
    ensures ok <==> forall w :: w in watchers ==>
              && w in users && users[w].telegram.Some? && users[w].telegram.value.username != ""
              && users[w].telegram.value.userId != 0 && users[w].telegram.value.token != ""
  {
    for i := 0 to |watchers|
      invariant forall k :: 0 <= k < i ==> watchers[k] in users && !IsEmptyOrIncompleteConfig(users[watchers[k]].telegram)
    {
      if watchers[i] !in users || IsEmptyOrIncompleteConfig(users[watchers[i]].telegram) {
        return false;
      }
    }
    return true;
  }

  /** The loops over the validators of a chain, in any order, and over their watchers. */
  method WatchersExist(c: ChainConfig, users: map<string, UserRecord>) returns (ok: bool)
    ensures ok <==> WatchersKnown(c, users)
    ensures ok <==> forall v, w :: v in c.validators && w in c.validators[v].watchers ==>
              && w in users && users[w].telegram.Some? && users[w].telegram.value.username != ""
              && users[w].telegram.value.userId != 0 && users[w].telegram.value.token != ""
  {
    var todo := c.validators.Keys;
    while todo != {}
      invariant todo <= c.validators.Keys
      invariant forall v, w :: v in c.validators && v !in todo && w in c.validators[v].watchers ==>
                  w in users && !IsEmptyOrIncompleteConfig(users[w].telegram)
      decreases todo
    {
      var v :| v in todo;
      var known := AllKnown(c.validators[v].watchers, users);
      if !known {
        return false;
      }
      todo := todo - {v};
    }
    return true;
  }

  ghost predicate EachPasses(configs: seq<ChainConfig>, users: map<string, UserRecord>) {
    forall c :: c in configs ==> ValidChain(c) && WatchersKnown(c, users)
  }

  lemma EachPassesOneMore(prefix: seq<ChainConfig>, c: ChainConfig, users: map<string, UserRecord>)
    ensures EachPasses(prefix + [c], users) <==> EachPasses(prefix, users) && ValidChain(c) && WatchersKnown(c, users)
  {
    assert c in prefix + [c] && forall d :: d in prefix ==> d in prefix + [c];
  }

  /** What `ChainsConfig.Validate` asks of single chains: the earlier ones pass, and so must the next. */
  method ValidateNext(configs: seq<ChainConfig>, n: nat, users: map<string, UserRecord>) returns (ok: bool)
    requires n < |configs| && EachPasses(configs[..n], users)
    ensures ok ==> EachPasses(configs[..n + 1], users)
    ensures !ok ==> !EachPasses(configs, users)
  {
    TakeOneMore(configs, n);
    EachPassesOneMore(configs[..n], configs[n], users);
    var valid := ValidateChain(configs[n]);
    var known := WatchersExist(configs[n], users);
    ok := valid && known;
    if !ok {
      assert configs[n] in configs;
    }
  }

  /** `ChainsConfig.Validate`. */
  method ValidateChains(configs: seq<ChainConfig>, users: map<string, UserRecord>) returns (ok: bool)
    ensures ok <==> ValidChains(configs, users)
    ensures ok <==>
              && EachPasses(configs, users)
              && (forall i, j :: 0 <= i < j < |configs| ==> configs[i].chainName != configs[j].chainName)
              && (exists c :: c in configs && !c.disable)
  {
    if configs == [] {
      return false;
    }
    var names: set<string> := {};
    var notDisabledCount := 0;
    for n := 0 to |configs|
      invariant EachPasses(configs[..n], users)
      invariant forall i, j :: 0 <= i < j < n ==> configs[i].chainName != configs[j].chainName
      invariant names == set k | 0 <= k < n :: configs[k].chainName
      invariant notDisabledCount >= 0
      invariant notDisabledCount > 0 <==> exists k :: 0 <= k < n && !configs[k].disable
    {
      var passes := ValidateNext(configs, n, users);
      if !passes || configs[n].chainName in names {
        return false;
      }
      names := names + {configs[n].chainName};
      if !configs[n].disable {
        notDisabledCount := notDisabledCount + 1;
      }
    }
    TakeAll(configs);
    if notDisabledCount > 0 {
      var k :| 0 <= k < |configs| && !configs[k].disable;
      assert configs[k] in configs;
    }
    return notDisabledCount != 0;
  }
}
