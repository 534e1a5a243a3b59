/** registry/user_registry/user_config_registry.go: users by identity and by Telegram id. */
module UserRegistry {
  import opened GoRuntime
  import opened Config

  /** Both maps say what the records say. */
  ghost predicate Indexes(records: seq<UserRecord>, users: map<string, UserRecord>, identities: map<int, string>) {
    && (forall r :: r in records ==> r.identity in users && users[r.identity] == r)
    && (forall r :: r in records && r.telegram.Some? ==>
          r.telegram.value.userId in identities && identities[r.telegram.value.userId] == r.identity)
    && (forall id :: id in users ==> users[id] in records && users[id].identity == id)
    && (forall t :: t in identities ==>
          identities[t] in users && users[identities[t]].telegram.Some? && users[identities[t]].telegram.value.userId == t)
  }

  function ByTelegramId(users: map<string, UserRecord>, identities: map<int, string>, id: int): Option<UserRecord> {
    if id in identities && identities[id] in users then Some(users[identities[id]]) else None
  }

  /** MAIN. After an accepted update, looking up a Telegram id gives the one record that has
      it, with a complete Telegram section, and nothing for any other id: what the pusher
      relies on to find the receiver of a queue. */
  lemma LookupsAgree(records: seq<UserRecord>, users: map<string, UserRecord>, identities: map<int, string>)
    requires ValidUsers(records) && Indexes(records, users, identities)
    ensures forall id, r :: ByTelegramId(users, identities, id) == Some(r) <==>
              r in records && r.telegram.Some? && r.telegram.value.userId == id
    ensures forall id :: id in users ==> !IsEmptyOrIncompleteConfig(users[id].telegram)
    ensures forall a, b :: a in users && b in users && a != b ==>
              users[a].telegram.value.userId != users[b].telegram.value.userId
  {
    forall a, b | a in users && b in users && a != b ensures users[a].telegram.value.userId != users[b].telegram.value.userId {
      var i :| 0 <= i < |records| && records[i] == users[a];
      var j :| 0 <= j < |records| && records[j] == users[b];
      assert Differ(records[i], records[j]) || Differ(records[j], records[i]);
    }
  }

  lemma IndexesExtend(prefix: seq<UserRecord>, r: UserRecord, users: map<string, UserRecord>, identities: map<int, string>)
    requires Indexes(prefix, users, identities)
    requires r.telegram.Some? && forall q :: q in prefix ==> Differ(q, r)
    ensures Indexes(prefix + [r], users[r.identity := r], identities[r.telegram.value.userId := r.identity])
  {
    forall q | q in prefix + [r] ensures q in prefix || q == r {
    }
    assert r in prefix + [r] && forall q :: q in prefix ==> q in prefix + [r];
  }

  lemma EarlierDiffer(records: seq<UserRecord>, n: nat)
    requires ValidUsers(records) && n < |records|
    ensures records[n].telegram.Some?
    ensures forall q :: q in records[..n] ==> Differ(q, records[n])
  {
    assert records[n] in records;
    forall q | q in records[..n] ensures Differ(q, records[n]) {
      var k :| 0 <= k < n && records[k] == q;
    }
  }

  class UserRegistry {
    var users: map<string, UserRecord>
    var identities: map<int, string>

    constructor ()
      ensures users == map[] && identities == map[]
    {
      users, identities := map[], map[];
    }

    /** `UpdateUsersConfigWL`: all or nothing. */
    method UpdateUsersConfig(records: seq<UserRecord>) returns (ok: bool)
      modifies this
      ensures ok <==> ValidUsers(records)
      ensures ok ==> Indexes(records, users, identities)
      ensures !ok ==> users == old(users) && identities == old(identities)
    {
      ok := ValidateUsers(records);
      if !ok {
        return;
      }
      users, identities := map[], map[];
      for n := 0 to |records|
        invariant Indexes(records[..n], users, identities)
      {
        var r := records[n];
        ghost var users0, identities0 := users, identities;
        users := users[r.identity := r];
        if r.telegram.Some? {
          identities := identities[r.telegram.value.userId := r.identity];
        }
        EarlierDiffer(records, n);
        IndexesExtend(records[..n], r, users0, identities0);
        TakeOneMore(records, n);
      }
      TakeAll(records);
    }

    method GetUserRecordByIdentity(identity: string) returns (r: Option<UserRecord>)
      ensures r == if identity in users then Some(users[identity]) else None
    {
      return if identity in users then Some(users[identity]) else None;
    }

    method GetUserRecordByTelegramUserId(id: int) returns (r: Option<UserRecord>)
      ensures r == ByTelegramId(users, identities, id)
    {
      if id !in identities {
        return None;
      }
      r := GetUserRecordByIdentity(identities[id]);
    }
  }
}
