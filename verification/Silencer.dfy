/** services/telegram_push_message_svc/silencer.go: expiring patterns that keep messages back.
    Patterns are taken after `strings.TrimSpace`. */
module Silencer {
  import opened GoRuntime
  import opened Text

  const SILENT_PATTERN_MINIMUM_LENGTH := 10
  const MAXIMUM_PATTERNS_ALLOWED_PER_CHAT_ID := 50

  /** Patterns and their expiry, for one chat. */
  type Patterns = map<string, Time>

  /** What survives the deletion of every pattern that expired before `now`. */
  function Purge(m: Patterns, now: Time): Patterns {
    map p | p in m && m[p] >= now :: m[p]
  }

  predicate Silences(m: Patterns, message: string, now: Time) {
    exists p :: p in m && m[p] >= now && Contains(message, p)
  }

  function Get(chats: map<int, Patterns>, chatID: int): Patterns {
    if chatID in chats then chats[chatID] else map[]
  }

  // ----- the code

  datatype SetError = TooShort | TooMany

  datatype RemoveError = MissingPattern | NotSilentAny | PatternDoesNotExist

  class Silencer {
    var chats: map<int, Patterns>

    constructor ()
      ensures chats == map[]
    {
      chats := map[];
    }

    /** The deletion loop that set and query share: the order of the keys does not matter. */
    method DeleteExpired(chatID: int, nowUTC: Time)
      requires chatID in chats
      modifies this
      ensures chats == old(chats)[chatID := Purge(old(chats)[chatID], nowUTC)]
    {
      var m := chats[chatID];
      var todo := m.Keys;
      while todo != {}
        invariant todo <= m.Keys <= old(chats)[chatID].Keys
        invariant forall p :: p in m ==> m[p] == old(chats)[chatID][p]
        invariant forall p :: p in old(chats)[chatID] && p !in todo ==> (p in m <==> old(chats)[chatID][p] >= nowUTC)
        decreases todo
      {
        var p :| p in todo;
        if m[p] < nowUTC {
          m := m - {p};
        }
        todo := todo - {p};
      }
      assert m == Purge(old(chats)[chatID], nowUTC);
      chats := chats[chatID := m];
    }

    method SetSilencePattern(chatID: int, pattern: string, duration: Duration, clock: Clock)
      returns (r: Result<bool, SetError>)
      modifies this, clock
      ensures old(clock.now) <= clock.now
      ensures r.Ok? ==> r.value == Renews(old(chats), chatID, pattern, clock.now)
      ensures r == Err(TooShort) <==> |pattern| < 10
      ensures r == Err(TooMany) <==> |pattern| >= 10 && Full(old(chats), chatID, clock.now)
      ensures chats == if r == Err(TooShort) then old(chats) else AfterSet(old(chats), chatID, pattern, duration, clock.now)
    {
      if |pattern| < SILENT_PATTERN_MINIMUM_LENGTH {
        return Err(TooShort);
      }
      var nowUTC := clock.Now();
      if chatID in chats {
        DeleteExpired(chatID, nowUTC);
        if |chats[chatID]| > MAXIMUM_PATTERNS_ALLOWED_PER_CHAT_ID {
          return Err(TooMany);
        }
      } else {
        chats := chats[chatID := map[]];
      }
      var exists_ := pattern in chats[chatID] && chats[chatID][pattern] > nowUTC;
      chats := chats[chatID := chats[chatID][pattern := nowUTC + duration]];
      return Ok(exists_);
    }

    method RemoveSilencePattern(chatID: int, pattern: string) returns (r: Option<RemoveError>)
      modifies this
      ensures r.None? <==> pattern != "" && chatID in old(chats) && pattern in old(chats)[chatID]
      ensures r == Some(MissingPattern) <==> pattern == ""
      ensures r == Some(NotSilentAny) <==> pattern != "" && chatID !in old(chats)
      ensures r.Some? ==> chats == old(chats)
      ensures r.None? ==> chats.Keys == old(chats).Keys && forall c :: c in chats && c != chatID ==> chats[c] == old(chats)[c]
      ensures r.None? ==> forall p :: p in chats[chatID] <==> p in old(chats)[chatID] && p != pattern
      ensures r.None? ==> forall p :: p in chats[chatID] ==> chats[chatID][p] == old(chats)[chatID][p]
      ensures chats == if r.None? then AfterRemove(old(chats), chatID, pattern) else old(chats)
    {
      if |pattern| < 1 {
        return Some(MissingPattern);
      }
      if chatID !in chats {
        return Some(NotSilentAny);
      }
      if pattern !in chats[chatID] {
        return Some(PatternDoesNotExist);
      }
      chats := chats[chatID := chats[chatID] - {pattern}];
      return None;
    }

    /** The first phase of `shouldSilentByChatIdRWL`, under the read lock. `nowUTC` was read
        before the lock was taken. */
    method ShouldSilent(chatID: int, message: string, nowUTC: Time) returns (silent: bool, needCleanup: bool)
      ensures silent == Silences(Get(chats, chatID), message, nowUTC)
      ensures needCleanup ==> chatID in chats && Purge(chats[chatID], nowUTC) != chats[chatID]
    {
      needCleanup := false;
      if chatID !in chats {
        return false, false;
      }
      var todo := chats[chatID].Keys;
      while todo != {}
        invariant todo <= chats[chatID].Keys
        invariant forall p :: p in chats[chatID] && p !in todo ==> chats[chatID][p] < nowUTC || !Contains(message, p)
        invariant needCleanup ==> Purge(chats[chatID], nowUTC) != chats[chatID]
        decreases todo
      {
        var p :| p in todo;
        todo := todo - {p};
        if chats[chatID][p] < nowUTC {
          needCleanup := true;
          assert p !in Purge(chats[chatID], nowUTC);
          continue;
        }
        if Contains(message, p) {
          return true, needCleanup;
        }
      }
      return false, needCleanup;
    }

    /** The second phase, under the write lock, still with the `nowUTC` of the first. */
    method Cleanup(chatID: int, nowUTC: Time)
      modifies this
      ensures chats == AfterCleanup(old(chats), chatID, nowUTC)
    {
      if chatID in chats {
        DeleteExpired(chatID, nowUTC);
      }
    }
  }

  /** Whether setting is refused: the chat is known and keeps more than 50 live patterns. */
  predicate Full(chats: map<int, Patterns>, chatID: int, now: Time) {
    chatID in chats && |Purge(chats[chatID], now)| > MAXIMUM_PATTERNS_ALLOWED_PER_CHAT_ID
  }

  /** Whether setting extends a pattern still in force. */
  predicate Renews(chats: map<int, Patterns>, chatID: int, pattern: string, now: Time) {
    pattern in Get(chats, chatID) && Get(chats, chatID)[pattern] > now
  }

  function AfterSet(chats: map<int, Patterns>, chatID: int, pattern: string, duration: Duration, now: Time): map<int, Patterns> {
    var purged := Purge(Get(chats, chatID), now);
    chats[chatID := if Full(chats, chatID, now) then purged else purged[pattern := now + duration]]
  }

  function AfterRemove(chats: map<int, Patterns>, chatID: int, pattern: string): map<int, Patterns> {
    if chatID in chats then chats[chatID := chats[chatID] - {pattern}] else chats
  }

  function AfterCleanup(chats: map<int, Patterns>, chatID: int, staleNow: Time): map<int, Patterns> {
    if chatID in chats then chats[chatID := Purge(chats[chatID], staleNow)] else chats
  }

  /** What setting does, on the stored expiries: it refuses a chat with more than 50 live patterns,
      renews a pattern still in force, drops what expired, keeps the rest, and touches no other chat. */
  lemma SetMeans(chats: map<int, Patterns>, chatID: int, pattern: string, duration: Duration, now: Time)
    ensures var m := if chatID in chats then chats[chatID] else map[];
            var after := AfterSet(chats, chatID, pattern, duration, now);
            && (Full(chats, chatID, now) <==> |set p | p in m && m[p] >= now| > 50)
            && (Renews(chats, chatID, pattern, now) <==> pattern in m && m[pattern] > now)
            && after.Keys == chats.Keys + {chatID} && (forall c :: c in chats && c != chatID ==> after[c] == chats[c])
            && (forall p :: p != pattern || Full(chats, chatID, now) ==>
                  (p in after[chatID] <==> p in m && m[p] >= now) && (p in after[chatID] ==> after[chatID][p] == m[p]))
            && (!Full(chats, chatID, now) ==> pattern in after[chatID] && after[chatID][pattern] == now + duration)
  {
    var m := Get(chats, chatID);
    assert Purge(m, now).Keys == set p | p in m && m[p] >= now;
    SizeOfKeys(Purge(m, now));
  }

  lemma SizeOfKeys(m: Patterns)
    ensures |m| == |m.Keys|
  {
  }

  /** What a cleanup does, on the stored expiries. */
  lemma CleanupMeans(chats: map<int, Patterns>, chatID: int, seen: Time)
    ensures var after := AfterCleanup(chats, chatID, seen);
            && after.Keys == chats.Keys && (forall c :: c in chats && c != chatID ==> after[c] == chats[c])
            && (chatID in chats ==>
                  && (forall p :: p in after[chatID] <==> p in chats[chatID] && chats[chatID][p] >= seen)
                  && (forall p :: p in after[chatID] ==> after[chatID][p] == chats[chatID][p]))
  {
  }

  // ----- runs, beside a reference that never purges

  /** Every step happens under the lock at the instant `at`. A query and its cleanup use an
      earlier reading `seen`, and other steps may come between them. */
  datatype Step =
    | Set(chatID: int, pattern: string, duration: Duration, at: Time)
    | Remove(chatID: int, pattern: string, at: Time)
    | Query(chatID: int, message: string, seen: Time, at: Time)
    | Clean(chatID: int, seen: Time, at: Time)

  /** `horizons` holds, for each chat, the latest instant that a purge of it so far has used. */
  datatype State = State(now: Time, horizons: map<int, Time>, chats: map<int, Patterns>, reference: map<int, Patterns>)

  function Initial(now: Time): State {
    State(now, map[], map[], map[])
  }

  predicate Enabled(s: State, step: Step) {
    s.now <= step.at && ((step.Query? || step.Clean?) ==> step.seen <= step.at)
  }

  function Later(a: Time, b: Time): Time {
    if a < b then b else a
  }

  function Apply(s: State, step: Step): State {
    match step
    case Set(chatID, pattern, duration, at) =>
      if |pattern| < SILENT_PATTERN_MINIMUM_LENGTH then s.(now := at)
      else
        var refused := Full(s.reference, chatID, at);
        State(at, s.horizons[chatID := at], AfterSet(s.chats, chatID, pattern, duration, at),
              if refused then s.reference else s.reference[chatID := Get(s.reference, chatID)[pattern := at + duration]])
    case Remove(chatID, pattern, at) =>
      State(at, s.horizons, AfterRemove(s.chats, chatID, pattern),
            if chatID !in s.reference then s.reference
            else s.reference[chatID := map p | p in s.reference[chatID] && p != pattern :: s.reference[chatID][p]])
    case Query(_, _, _, at) => s.(now := at)
    case Clean(chatID, seen, at) =>
      State(at, if chatID in s.horizons then s.horizons[chatID := Later(s.horizons[chatID], seen)] else s.horizons,
            AfterCleanup(s.chats, chatID, seen), s.reference)
  }

  ghost predicate Feasible(s: State, steps: seq<Step>)
    decreases |steps|
  {
    steps == [] || (Enabled(s, steps[0]) && Feasible(Apply(s, steps[0]), steps[1..]))
  }

  function After(s: State, steps: seq<Step>): State
    decreases |steps|
  {
    if steps == [] then s else After(Apply(s, steps[0]), steps[1..])
  }

  /** One chat holds a part of its reference, and what it lacks expired before the horizon. */
  ghost predicate Agrees(m: Patterns, reference: Patterns, horizon: Time) {
    && (forall p :: p in m ==> p in reference && m[p] == reference[p])
    && (forall p :: p in reference && p !in m ==> reference[p] < horizon)
    && |m| <= MAXIMUM_PATTERNS_ALLOWED_PER_CHAT_ID + 1
  }

  ghost predicate Inv(s: State) {
    && s.chats.Keys == s.reference.Keys == s.horizons.Keys
    && forall c :: c in s.chats ==> s.horizons[c] <= s.now && Agrees(s.chats[c], s.reference[c], s.horizons[c])
  }

  lemma {:induction false} SubsetIsSmaller<T>(a: set<T>, b: set<T>)
    requires a <= b
    ensures |a| <= |b|
  {
    if a != {} {
      var x :| x in a;
      SubsetIsSmaller(a - {x}, b - {x});
    }
  }

  lemma PurgeIsSmaller(m: Patterns, now: Time)
    ensures |Purge(m, now)| <= |m|
  {
    SubsetIsSmaller(Purge(m, now).Keys, m.Keys);
  }

  lemma PurgeAgrees(m: Patterns, reference: Patterns, horizon: Time, at: Time)
    requires Agrees(m, reference, horizon)
    ensures Agrees(Purge(m, at), reference, Later(horizon, at))
    ensures horizon <= at ==> Purge(m, at) == Purge(reference, at)
  {
    PurgeIsSmaller(m, at);
  }

  lemma RemoveAgrees(m: Patterns, reference: Patterns, horizon: Time, pattern: string)
    requires Agrees(m, reference, horizon)
    ensures Agrees(m - {pattern}, map p | p in reference && p != pattern :: reference[p], horizon)
  {
    SubsetIsSmaller((m - {pattern}).Keys, m.Keys);
  }

  /** The refusal and the renewal that the code computes from purged patterns are those of
      the reference. */
  lemma SetOutcomesAgree(s: State, chatID: int, pattern: string, at: Time)
    requires Inv(s) && s.now <= at
    ensures Full(s.chats, chatID, at) <==> Full(s.reference, chatID, at)
    ensures Renews(s.chats, chatID, pattern, at) <==> Renews(s.reference, chatID, pattern, at)
  {
    if chatID in s.chats {
      PurgeAgrees(s.chats[chatID], s.reference[chatID], s.horizons[chatID], at);
    }
  }

  lemma ExtendAgrees(m: Patterns, reference: Patterns, horizon: Time, pattern: string, e: Time)
    requires Agrees(m, reference, horizon) && |m| <= MAXIMUM_PATTERNS_ALLOWED_PER_CHAT_ID
    ensures Agrees(m[pattern := e], reference[pattern := e], horizon)
  {
  }

  lemma SetAgrees(s: State, c: int, pattern: string, duration: Duration, at: Time)
    requires Inv(s) && s.now <= at && |pattern| >= SILENT_PATTERN_MINIMUM_LENGTH
    ensures var s' := Apply(s, Set(c, pattern, duration, at));
            Agrees(Get(s'.chats, c), Get(s'.reference, c), at)
  {
    SetOutcomesAgree(s, c, pattern, at);
    var m, reference := Get(s.chats, c), Get(s.reference, c);
    PurgeAgrees(m, reference, if c in s.horizons then s.horizons[c] else at, at);
    if !Full(s.chats, c, at) {
      PurgeOfNothing(at);
      ExtendAgrees(Purge(m, at), reference, at, pattern, at + duration);
    }
  }

  lemma PurgeOfNothing(at: Time)
    ensures Purge(map[], at) == map[]
  {
  }

  lemma SetKeepsInv(s: State, c: int, pattern: string, duration: Duration, at: Time)
    requires Inv(s) && s.now <= at && |pattern| >= SILENT_PATTERN_MINIMUM_LENGTH
    ensures Inv(Apply(s, Set(c, pattern, duration, at)))
  {
    var s' := Apply(s, Set(c, pattern, duration, at));
    SetOutcomesAgree(s, c, pattern, at);
    SetAgrees(s, c, pattern, duration, at);
    assert s'.chats.Keys == s'.reference.Keys;
  }

  lemma RemoveKeepsInv(s: State, c: int, pattern: string, at: Time)
    requires Inv(s) && s.now <= at
    ensures Inv(Apply(s, Remove(c, pattern, at)))
  {
    if c in s.chats {
      RemoveAgrees(s.chats[c], s.reference[c], s.horizons[c], pattern);
    }
  }

  lemma CleanKeepsInv(s: State, c: int, seen: Time, at: Time)
    requires Inv(s) && s.now <= at && seen <= at
    ensures Inv(Apply(s, Clean(c, seen, at)))
  {
    if c in s.chats {
      PurgeAgrees(s.chats[c], s.reference[c], s.horizons[c], seen);
    }
  }

  lemma StepKeepsInv(s: State, step: Step)
    requires Inv(s) && Enabled(s, step)
    ensures Inv(Apply(s, step))
  {
    match step
    case Set(c, pattern, duration, at) =>
      if |pattern| >= SILENT_PATTERN_MINIMUM_LENGTH {
        SetKeepsInv(s, c, pattern, duration, at);
      }
    case Remove(c, pattern, at) => RemoveKeepsInv(s, c, pattern, at);
    case Query(_, _, _, _) =>
    case Clean(c, seen, at) => CleanKeepsInv(s, c, seen, at);
  }

  lemma {:induction false} RunKeepsInv(s: State, steps: seq<Step>)
    requires Inv(s) && Feasible(s, steps)
    ensures Inv(After(s, steps))
    decreases |steps|
  {
    if steps != [] {
      StepKeepsInv(s, steps[0]);
      RunKeepsInv(Apply(s, steps[0]), steps[1..]);
    }
  }

  /** MAIN. In every run, a query answers between the reference at the reading it uses and the
      reference at the latest purge of its chat; so it agrees with the reference that never
      purges unless a purge of that chat has used a later instant than the query. */
  lemma QueriesAgree(start: Time, steps: seq<Step>, chatID: int, message: string, seen: Time)
    requires Feasible(Initial(start), steps)
    ensures var s := After(Initial(start), steps);
            var answer := Silences(Get(s.chats, chatID), message, seen);
            && (answer ==> Silences(Get(s.reference, chatID), message, seen))
            && (chatID !in s.horizons ==> !Silences(Get(s.reference, chatID), message, seen))
            && (chatID in s.horizons ==>
                  && s.horizons[chatID] <= s.now
                  && (Silences(Get(s.reference, chatID), message, Later(seen, s.horizons[chatID])) ==> answer)
                  && (seen >= s.horizons[chatID] ==> (answer <==> Silences(Get(s.reference, chatID), message, seen))))
  {
    RunKeepsInv(Initial(start), steps);
  }

  /** MAIN. No run purges a live pattern, and no chat ever holds more than 51 patterns. */
  lemma NoLivePatternPurged(start: Time, steps: seq<Step>, chatID: int)
    requires Feasible(Initial(start), steps)
    ensures var s := After(Initial(start), steps);
            && (forall p :: p in Get(s.reference, chatID) && Get(s.reference, chatID)[p] >= s.now ==>
                  p in Get(s.chats, chatID) && Get(s.chats, chatID)[p] == Get(s.reference, chatID)[p])
            && |Get(s.chats, chatID)| <= 51
  {
    RunKeepsInv(Initial(start), steps);
  }

  // ----- what is set silences until it expires, and what is removed does not

  /** No step of the run sets or removes the pattern in the chat. */
  predicate Untouched(steps: seq<Step>, chatID: int, pattern: string) {
    forall step :: step in steps && (step.Set? || step.Remove?) ==> step.chatID != chatID || step.pattern != pattern
  }

  /** MAIN. After every run, setting a pattern in a chat with at most 50 live ones silences every text
      around it, until the pattern expires, is set again or is removed, whatever else is set,
      removed, queried or purged meanwhile. */
  lemma SetSilences(start: Time, before: seq<Step>, chatID: int, pattern: string, duration: Duration, at: Time,
                    later: seq<Step>, left: string, right: string, seen: Time)
    requires Feasible(Initial(start), before)
    requires var s, set_ := After(Initial(start), before), Set(chatID, pattern, duration, at);
             && s.now <= at && |pattern| >= 10
             && (chatID in s.chats ==> |set p | p in s.chats[chatID] && s.chats[chatID][p] >= at| <= 50)
             && Feasible(Apply(s, set_), later)
    requires Untouched(later, chatID, pattern)
    requires forall step :: step in later ==> step.at <= at + duration
    requires seen <= at + duration
    ensures var s := After(Apply(After(Initial(start), before), Set(chatID, pattern, duration, at)), later);
            Silences(Get(s.chats, chatID), left + pattern + right, seen)
  {
    var s := After(Initial(start), before);
    SetMeans(s.chats, chatID, pattern, duration, at);
    PurgeOfNothing(at);
    var s' := Apply(s, Set(chatID, pattern, duration, at));
    StaysUntilExpiry(s', later, chatID, pattern, at + duration);
    ContainsIff(left + pattern + right, pattern);
  }

  lemma {:induction false} StaysUntilExpiry(s: State, steps: seq<Step>, chatID: int, pattern: string, e: Time)
    requires chatID in s.chats && pattern in s.chats[chatID] && s.chats[chatID][pattern] == e
    requires Feasible(s, steps) && Untouched(steps, chatID, pattern)
    requires forall step :: step in steps ==> step.at <= e
    ensures var s' := After(s, steps);
            chatID in s'.chats && pattern in s'.chats[chatID] && s'.chats[chatID][pattern] == e
    decreases |steps|
  {
    if steps != [] {
      var step := steps[0];
      assert step in steps;
      StepKeepsLive(s, step, chatID, pattern, e);
      StaysUntilExpiry(Apply(s, step), steps[1..], chatID, pattern, e);
    }
  }

  lemma StepKeepsLive(s: State, step: Step, chatID: int, pattern: string, e: Time)
    requires chatID in s.chats && pattern in s.chats[chatID] && s.chats[chatID][pattern] == e
    requires Enabled(s, step) && Untouched([step], chatID, pattern) && step.at <= e
    ensures var s' := Apply(s, step);
            chatID in s'.chats && pattern in s'.chats[chatID] && s'.chats[chatID][pattern] == e
  {
    assert step in [step];
  }

  /** MAIN. Once removed, a pattern silences nothing until it is set again: every query of the chat
      that is silenced is silenced by another stored pattern, which stands in the message. */
  lemma RemovedStaysAway(s: State, chatID: int, pattern: string, at: Time, later: seq<Step>, message: string, seen: Time)
    requires Feasible(Apply(s, Remove(chatID, pattern, at)), later)
    requires forall step :: step in later && step.Set? ==> step.chatID != chatID || step.pattern != pattern
    ensures var m := Get(After(Apply(s, Remove(chatID, pattern, at)), later).chats, chatID);
            && pattern !in m
            && (Silences(m, message, seen) ==>
                  exists p, left, right :: p in m && p != pattern && m[p] >= seen && message == left + p + right)
  {
    var s' := Apply(s, Remove(chatID, pattern, at));
    StaysAway(s', later, chatID, pattern);
    var m := Get(After(s', later).chats, chatID);
    if Silences(m, message, seen) {
      var p :| p in m && m[p] >= seen && Contains(message, p);
      ContainsIff(message, p);
    }
  }

  lemma {:induction false} StaysAway(s: State, steps: seq<Step>, chatID: int, pattern: string)
    requires Feasible(s, steps) && pattern !in Get(s.chats, chatID)
    requires forall step :: step in steps && step.Set? ==> step.chatID != chatID || step.pattern != pattern
    ensures pattern !in Get(After(s, steps).chats, chatID)
    decreases |steps|
  {
    if steps != [] {
      assert steps[0] in steps;
      StaysAway(Apply(s, steps[0]), steps[1..], chatID, pattern);
    }
  }

  // ----- when a query misses

  /** The exception is real: a pattern in force when a query reads the clock can be purged by
      a set before the query takes the lock, and the query then misses it. */
  lemma StaleQueryMisses(start: Time, seen: Time, at: Time, chatID: int, pattern: string, other: string) returns (steps: seq<Step>)
    requires start <= seen < at
    requires |pattern| >= SILENT_PATTERN_MINIMUM_LENGTH && |other| >= SILENT_PATTERN_MINIMUM_LENGTH
    requires pattern != other && !Contains(pattern, other)
    ensures Feasible(Initial(start), steps)
    ensures var s := After(Initial(start), steps);
            && s.horizons == map[chatID := at]
            && !Silences(Get(s.chats, chatID), pattern, seen) && Silences(Get(s.reference, chatID), pattern, seen)
  {
    var first, second := Set(chatID, pattern, seen - start, start), Set(chatID, other, 5, at);
    FirstSet(start, seen, chatID, pattern);
    var s2 := PurgingSet(start, seen, at, chatID, pattern, other);
    steps := [first, second];
    assert steps[1..] == [second] && [second][1..] == [];
    assert After(Apply(Initial(start), first), [second]) == After(s2, []);
    StoredButPurged(s2, chatID, pattern, seen);
  }

  function OnePattern(now: Time, chatID: int, pattern: string, expiry: Time): State {
    State(now, map[chatID := now], map[chatID := map[pattern := expiry]], map[chatID := map[pattern := expiry]])
  }

  lemma FirstSet(start: Time, seen: Time, chatID: int, pattern: string)
    requires |pattern| >= SILENT_PATTERN_MINIMUM_LENGTH
    ensures Apply(Initial(start), Set(chatID, pattern, seen - start, start)) == OnePattern(start, chatID, pattern, seen)
  {
    PurgeOfNothing(start);
  }

  lemma PurgingSet(start: Time, seen: Time, at: Time, chatID: int, pattern: string, other: string) returns (s: State)
    requires seen < at && |other| >= SILENT_PATTERN_MINIMUM_LENGTH && pattern != other
    ensures Apply(OnePattern(start, chatID, pattern, seen), Set(chatID, other, 5, at)) == s
    ensures s == State(at, map[chatID := at], map[chatID := map[other := at + 5]],
                       map[chatID := map[pattern := seen, other := at + 5]])
  {
    assert Purge(map[pattern := seen], at) == map[];
    s := Apply(OnePattern(start, chatID, pattern, seen), Set(chatID, other, 5, at));
  }

  lemma StoredButPurged(s: State, chatID: int, pattern: string, seen: Time)
    requires pattern in Get(s.reference, chatID) && Get(s.reference, chatID)[pattern] == seen
    requires forall p :: p in Get(s.chats, chatID) ==> !Contains(pattern, p)
    ensures !Silences(Get(s.chats, chatID), pattern, seen) && Silences(Get(s.reference, chatID), pattern, seen)
  {
    OccursInItself(pattern);
  }

  lemma OccursInItself(s: string)
    ensures Contains(s, s)
  {
    assert OccursAt(s, s, 0);
  }

  /** After every run whose latest purge of the chat used the instant `horizon`. */
  ghost predicate PurgedAt(start: Time, steps: seq<Step>, chatID: int, horizon: Time) {
    && Feasible(Initial(start), steps)
    && chatID in After(Initial(start), steps).horizons && After(Initial(start), steps).horizons[chatID] == horizon
  }

  ghost predicate AnswersAgree(start: Time, steps: seq<Step>, chatID: int, message: string, seen: Time) {
    var s := After(Initial(start), steps);
    Silences(Get(s.chats, chatID), message, seen) <==> Silences(Get(s.reference, chatID), message, seen)
  }

  /** Whatever was set, removed and purged in any chat, a query of this chat that reads the clock at
      `seen` answers as the reference does. */
  ghost predicate AlwaysAgrees(start: Time, chatID: int, horizon: Time, seen: Time) {
    forall steps, message :: PurgedAt(start, steps, chatID, horizon) ==> AnswersAgree(start, steps, chatID, message, seen)
  }

  /** MAIN. The queries of a chat agree with the reference that never purges if and only if no purge
      of that chat has used a later instant than the reading of the query. */
  lemma QueriesAgreeIff(start: Time, chatID: int, horizon: Time, seen: Time)
    requires start <= seen
    ensures AlwaysAgrees(start, chatID, horizon, seen) <==> seen >= horizon
  {
    if seen >= horizon {
      forall steps, message | PurgedAt(start, steps, chatID, horizon) ensures AnswersAgree(start, steps, chatID, message, seen) {
        QueriesAgree(start, steps, chatID, message, seen);
      }
    } else {
      SomeAnswerDiffers(start, chatID, horizon, seen);
    }
  }

  lemma SomeAnswerDiffers(start: Time, chatID: int, horizon: Time, seen: Time)
    requires start <= seen < horizon
    ensures exists steps, message :: PurgedAt(start, steps, chatID, horizon) && !AnswersAgree(start, steps, chatID, message, seen)
  {
    var pattern, other := "aaaaaaaaaa", "bbbbbbbbbb";
    assert other[0] !in pattern;
    IndexNone(pattern, other);
    var steps := StaleQueryMisses(start, seen, horizon, chatID, pattern, other);
    assert PurgedAt(start, steps, chatID, horizon) && !AnswersAgree(start, steps, chatID, pattern, seen);
  }

  // ----- the limit on patterns

  /** MAIN. The announced limit of 50 is passed by exactly one: setting a pattern leaves more than 50
      in a chat if and only if 51 are live already, and it is refused, or 50 others are live. */
  lemma OverFiftyIff(chats: map<int, Patterns>, chatID: int, pattern: string, duration: Duration, now: Time)
    requires |Get(chats, chatID)| <= 51
    ensures var live, after := Purge(Get(chats, chatID), now), Get(AfterSet(chats, chatID, pattern, duration, now), chatID);
            && (|after| > 50 <==> |live| == 51 || (|live| == 50 && pattern !in live))
            && (|after| > 50 ==> |after| == 51)
            && (Full(chats, chatID, now) <==> |live| == 51)
            && (|live| == 51 ==> after == live)
  {
    PurgeIsSmaller(Get(chats, chatID), now);
    if chatID !in chats {
      PurgeOfNothing(now);
    }
  }

  /** Setting the patterns one by one at the same instant. */
  function SetAll(ps: seq<string>, duration: Duration, at: Time): seq<Step> {
    if ps == [] then [] else SetAll(ps[..|ps| - 1], duration, at) + [Set(1, ps[|ps| - 1], duration, at)]
  }

  lemma {:induction false} RunOn(s: State, first: seq<Step>, last: Step)
    requires Feasible(s, first) && Enabled(After(s, first), last)
    ensures Feasible(s, first + [last]) && After(s, first + [last]) == Apply(After(s, first), last)
    decreases |first|
  {
    if first == [] {
      assert first + [last] == [last] && [last][1..] == [];
    } else {
      assert (first + [last])[1..] == first[1..] + [last];
      RunOn(Apply(s, first[0]), first[1..], last);
    }
  }

  /** The chat holds exactly the patterns `ps`, all in force at `at`. */
  ghost predicate HoldsAll(m: Patterns, ps: seq<string>, at: Time) {
    |m| == |ps| && (forall p :: p in m <==> p in ps) && (forall p :: p in m ==> m[p] >= at)
  }

  lemma HoldsOneMore(s: State, ps: seq<string>, p: string, duration: Duration)
    requires HoldsAll(Get(s.chats, 1), ps, s.now) && p !in ps && |ps| <= 50 && duration >= 0
    requires |p| >= SILENT_PATTERN_MINIMUM_LENGTH
    ensures var s' := Apply(s, Set(1, p, duration, s.now));
            s'.now == s.now && HoldsAll(Get(s'.chats, 1), ps + [p], s.now)
  {
    var m := Get(s.chats, 1);
    assert Purge(m, s.now) == m;
    assert Get(AfterSet(s.chats, 1, p, duration, s.now), 1) == m[p := s.now + duration];
    assert m[p := s.now + duration].Keys == m.Keys + {p};
  }

  lemma {:induction false} AllAreSet(start: Time, ps: seq<string>, duration: Duration)
    requires NoDuplicates(ps) && |ps| <= 51 && duration >= 0
    requires forall p :: p in ps ==> |p| >= SILENT_PATTERN_MINIMUM_LENGTH
    ensures Feasible(Initial(start), SetAll(ps, duration, start))
    ensures var s := After(Initial(start), SetAll(ps, duration, start));
            s.now == start && HoldsAll(Get(s.chats, 1), ps, start)
  {
    if ps != [] {
      var earlier, p := ps[..|ps| - 1], ps[|ps| - 1];
      assert p !in earlier && ps == earlier + [p];
      AllAreSet(start, earlier, duration);
      var s := After(Initial(start), SetAll(earlier, duration, start));
      RunOn(Initial(start), SetAll(earlier, duration, start), Set(1, p, duration, start));
      HoldsOneMore(s, earlier, p, duration);
    }
  }

  /** Patterns that differ in length. */
  function Patterned(n: nat): (ps: seq<string>)
    ensures |ps| == n && forall i :: 0 <= i < n ==> |ps[i]| == SILENT_PATTERN_MINIMUM_LENGTH + i
  {
    if n == 0 then [] else Patterned(n - 1) + [seq(SILENT_PATTERN_MINIMUM_LENGTH + n - 1, i => 'a')]
  }

  /** The 51 patterns are reached by a run. */
  lemma FiftyOneReached(start: Time, duration: Duration) returns (steps: seq<Step>)
    requires duration >= 0
    ensures Feasible(Initial(start), steps) && |Get(After(Initial(start), steps).chats, 1)| == 51
  {
    var ps := Patterned(51);
    assert NoDuplicates(ps) by {
      forall i, j | 0 <= i < j < 51 ensures ps[i] != ps[j] {
        assert |ps[i]| < |ps[j]|;
      }
    }
    AllAreSet(start, ps, duration);
    steps := SetAll(ps, duration, start);
  }
}
