/** services/telegram_push_message_svc/prevent_spamming.go and
    services/telegram_call_center_svc/types/rate_limiter.go: at most one per interval.
    Both are one throttle, whose law is stated on the log of its decisions. */
module Throttle {
  import opened GoRuntime

  /** One decision. `readAt` is the clock reading compared with the last acceptance,
      `stampedAt` the later reading recorded by an acceptance. */
  datatype Check<K(==)> = Check(key: K, interval: Duration, readAt: Time, stampedAt: Time, accepted: bool)

  /** When `key` was last accepted. */
  function LastAccepted<K(==)>(log: seq<Check<K>>, key: K): Option<Time> {
    if log == [] then None
    else
      var c := log[|log| - 1];
      if c.accepted && c.key == key then Some(c.stampedAt) else LastAccepted(log[..|log| - 1], key)
  }

  predicate Grants<K(==)>(log: seq<Check<K>>, key: K, interval: Duration, readAt: Time) {
    match LastAccepted(log, key)
    case None => true
    case Some(last) => readAt - last >= interval
  }

  /** A decision that may come after the `earlier` ones: time goes on, and it is granted as
      the source grants. */
  ghost predicate Follows<K>(earlier: seq<Check<K>>, c: Check<K>) {
    && c.readAt <= c.stampedAt
    && (earlier != [] ==> earlier[|earlier| - 1].stampedAt <= c.readAt)
    && (c.accepted <==> Grants(earlier, c.key, c.interval, c.readAt))
  }

  /** The log of a throttle. */
  ghost predicate Lawful<K>(log: seq<Check<K>>) {
    log == [] || (Lawful(log[..|log| - 1]) && Follows(log[..|log| - 1], log[|log| - 1]))
  }

  lemma {:induction false} LawfulAt<K>(log: seq<Check<K>>, j: nat)
    requires Lawful(log) && j < |log|
    ensures Lawful(log[..j]) && Follows(log[..j], log[j])
  {
    var n := |log| - 1;
    if j < n {
      LawfulAt(log[..n], j);
      assert log[..n][..j] == log[..j];
    }
  }

  lemma {:induction false} TimeGoesOn<K>(log: seq<Check<K>>, i: nat, j: nat)
    requires Lawful(log) && i < j < |log|
    ensures log[i].stampedAt <= log[j].readAt
  {
    LawfulAt(log, j);
    if i < j - 1 {
      TimeGoesOn(log, i, j - 1);
      LawfulAt(log, j - 1);
    }
  }

  /** The last acceptance is the stamp of some entry, and no acceptance comes after it. */
  lemma {:induction false} LastAcceptedIsLatest<K>(log: seq<Check<K>>, key: K) returns (i: int)
    ensures LastAccepted(log, key).None? ==> forall j :: 0 <= j < |log| && log[j].accepted ==> log[j].key != key
    ensures LastAccepted(log, key).Some? ==>
              0 <= i < |log| && log[i].accepted && log[i].key == key && LastAccepted(log, key) == Some(log[i].stampedAt)
    ensures LastAccepted(log, key).Some? ==>
              forall j :: i < j < |log| && log[j].accepted ==> log[j].key != key
  {
    i := |log| - 1;
    if log != [] && !(log[i].accepted && log[i].key == key) {
      i := LastAcceptedIsLatest(log[..|log| - 1], key);
    }
  }

  /** MAIN. Any two acceptances of one key, however far apart in the log and whatever the
      intervals of the calls between, are separated by the later call's interval. */
  lemma AcceptancesApart<K>(log: seq<Check<K>>, i: nat, j: nat)
    requires Lawful(log)
    requires i < j < |log| && log[i].key == log[j].key && log[i].accepted && log[j].accepted
    ensures log[j].readAt - log[i].stampedAt >= log[j].interval
  {
    LawfulAt(log, j);
    var k := LastAcceptedIsLatest(log[..j], log[j].key);
    assert log[..j][i] == log[i];
    if i < k {
      TimeGoesOn(log, i, k);
      LawfulAt(log, k);
    }
  }

  /** MAIN. A refusal has a reason: an acceptance of the same key closer than the interval. */
  lemma RefusalHasReason<K>(log: seq<Check<K>>, j: nat) returns (i: nat)
    requires Lawful(log)
    requires j < |log| && !log[j].accepted
    ensures i < j && log[i].key == log[j].key && log[i].accepted
    ensures log[j].readAt - log[i].stampedAt < log[j].interval
  {
    LawfulAt(log, j);
    i := LastAcceptedIsLatest(log[..j], log[j].key);
  }

  /** MAIN. While less than the interval passes, a key is accepted at most once. */
  lemma OncePerInterval<K>(log: seq<Check<K>>, i: nat, j: nat)
    requires Lawful(log)
    requires i < j < |log| && log[i].key == log[j].key && log[i].accepted
    requires log[j].readAt - log[i].readAt < log[j].interval
    ensures !log[j].accepted
  {
    if log[j].accepted {
      AcceptancesApart(log, i, j);
      LawfulAt(log, i);
    }
  }

  /** The keys accepted by a stretch of the log, in order. */
  function Accepted<K(==)>(log: seq<Check<K>>): seq<K> {
    if log == [] then []
    else Accepted(log[..|log| - 1]) + (if log[|log| - 1].accepted then [log[|log| - 1].key] else [])
  }

  lemma {:induction false} AcceptedMeans<K>(log: seq<Check<K>>, key: K)
    ensures key in Accepted(log) <==> exists j :: 0 <= j < |log| && log[j].accepted && log[j].key == key
  {
    if log != [] {
      var shorter := log[..|log| - 1];
      AcceptedMeans(shorter, key);
      assert forall j :: 0 <= j < |log| - 1 ==> shorter[j] == log[j];
    }
  }

  lemma NoDuplicatesOneMore<T>(s: seq<T>, x: T)
    requires NoDuplicates(s) && x !in s
    ensures NoDuplicates(s + [x])
  {
  }

  /** An acceptance that ends a short stretch is of a key not accepted in the stretch before. */
  lemma LastIsNew<K>(log: seq<Check<K>>, from: nat)
    requires Lawful(log) && from < |log|
    requires log[|log| - 1].accepted
    requires log[|log| - 1].stampedAt - log[from].readAt < log[|log| - 1].interval
    ensures log[|log| - 1].key !in Accepted(log[from..|log| - 1])
  {
    var last := |log| - 1;
    var before := log[from..last];
    AcceptedMeans(before, log[last].key);
    forall j | 0 <= j < |before| && before[j].accepted ensures before[j].key != log[last].key {
      if log[from + j].key == log[last].key {
        AcceptancesApart(log, from + j, last);
        LawfulAt(log, last);
        LawfulAt(log, from + j);
        if j > 0 {
          TimeGoesOn(log, from, from + j);
          LawfulAt(log, from);
        }
      }
    }
  }

  /** MAIN. A stretch of requests shorter than the interval that they all give lets every key
      through once: the identities returned by one call are distinct. */
  lemma {:induction false} StretchHasNoDuplicates<K>(log: seq<Check<K>>, from: nat, interval: Duration)
    requires Lawful(log) && from <= |log|
    requires forall j :: from <= j < |log| ==> log[j].interval == interval
    requires from < |log| ==> log[|log| - 1].stampedAt - log[from].readAt < interval
    ensures NoDuplicates(Accepted(log[from..]))
  {
    if from < |log| {
      var last := |log| - 1;
      var before := log[..last];
      LawfulAt(log, last);
      if from < last {
        assert before[|before| - 1].stampedAt <= log[last].readAt;
      }
      StretchHasNoDuplicates(before, from, interval);
      assert before[from..] == log[from..last] == log[from..][..last - from];
      if log[last].accepted {
        LastIsNew(log, from);
        NoDuplicatesOneMore(Accepted(log[from..last]), log[last].key);
      }
    }
  }

  // ----- the two throttles of the source

  /** `e` is a decision about `key` taken between two instants. */
  ghost predicate Decides<K>(e: Check<K>, key: K, interval: Duration, start: Time, end: Time) {
    e.key == key && e.interval == interval && start <= e.readAt <= e.stampedAt <= end
  }

  /** A case and an identity: the two levels of the map of the spam preventer. */
  type SpamKey = (int, string)

  /** The stretch `log` answers the identities one by one. */
  ghost predicate Answers(log: seq<Check<SpamKey>>, c: int, identities: seq<string>, interval: Duration, start: Time, end: Time) {
    && |log| == |identities|
    && forall k :: 0 <= k < |log| ==> Decides(log[k], (c, identities[k]), interval, start, end)
  }

  lemma AnswersExtend(log: seq<Check<SpamKey>>, c: int, identities: seq<string>, interval: Duration,
                      start: Time, middle: Time, end: Time, e: Check<SpamKey>, identity: string)
    requires start <= middle <= end
    requires Answers(log, c, identities, interval, start, middle)
    requires Decides(e, (c, identity), interval, middle, end)
    ensures Answers(log + [e], c, identities + [identity], interval, start, end)
    ensures Accepted(log + [e]) == Accepted(log) + if e.accepted then [(c, identity)] else []
  {
    assert (log + [e])[..|log|] == log;
  }

  lemma AnswersHaveNoDuplicates(log: seq<Check<SpamKey>>, from: nat, c: int, identities: seq<string>, interval: Duration,
                                start: Time, end: Time)
    requires Lawful(log) && from <= |log| && Answers(log[from..], c, identities, interval, start, end) && end - start < interval
    ensures NoDuplicates(Accepted(log[from..]))
  {
    assert forall j :: from <= j < |log| ==> log[j] == log[from..][j - from];
    StretchHasNoDuplicates(log, from, interval);
  }

  ghost function Get<K>(m: map<K, Time>, key: K): Option<Time> {
    if key in m then Some(m[key]) else None
  }

  /** The map of last acceptances says what the log says. */
  ghost predicate Represents<K(!new)>(m: map<K, Time>, log: seq<Check<K>>) {
    forall key :: Get(m, key) == LastAccepted(log, key)
  }

  /** The state of a throttle after one more decision, taken as both sources take it. */
  lemma DecisionKeeps<K(!new)>(m: map<K, Time>, log: seq<Check<K>>, e: Check<K>)
    requires Lawful(log) && Represents(m, log)
    requires e.readAt <= e.stampedAt
    requires log != [] ==> log[|log| - 1].stampedAt <= e.readAt
    requires e.accepted <==> (e.key in m ==> e.readAt - m[e.key] >= e.interval)
    ensures Lawful(log + [e])
    ensures Represents(if e.accepted then m[e.key := e.stampedAt] else m, log + [e])
  {
    assert (log + [e])[..|log|] == log;
    assert Get(m, e.key) == LastAccepted(log, e.key);
    var m' := if e.accepted then m[e.key := e.stampedAt] else m;
    forall key ensures Get(m', key) == LastAccepted(log + [e], key) {
      assert Get(m, key) == LastAccepted(log, key);
    }
  }

  class SpamPreventer {
    const clock: Clock
    var registry: map<SpamKey, Time>
    ghost var log: seq<Check<SpamKey>>

    ghost predicate Valid()
      reads this, clock
    {
      && Lawful(log)
      && (log != [] ==> log[|log| - 1].stampedAt <= clock.now)
      && Represents(registry, log)
    }

    constructor (clock: Clock)
      ensures Valid() && log == [] && this.clock == clock
    {
      this.clock := clock;
      registry := map[];
      log := [];
    }

    /** One turn of the loop of `ShouldSendMessageWL`. */
    method CheckIdentity(c: int, identity: string, interval: Duration) returns (send: bool)
      requires Valid()
      modifies this, clock
      ensures Valid()
      ensures |log| == |old(log)| + 1 && log == old(log) + [log[|old(log)|]]
      ensures Decides(log[|old(log)|], (c, identity), interval, old(clock.now), clock.now)
      ensures log[|old(log)|].accepted == send && old(clock.now) <= clock.now
    {
      send := true;
      if (c, identity) in registry {
        var t := clock.Now();
        send := t - registry[(c, identity)] >= interval;
      }
      ghost var readAt := clock.now;
      ghost var before := registry;
      if send {
        var t := clock.Now();
        registry := registry[(c, identity) := t];
      }
      ghost var e := Check((c, identity), interval, readAt, clock.now, send);
      DecisionKeeps(before, log, e);
      log := log + [e];
    }

    /** `ShouldSendMessageWL`: the log grows by one decision for each identity, in order, and
        the identities accepted by those decisions are returned. */
    method ShouldSendMessage(c: int, identities: seq<string>, ignoreIfLastSentLessThan: Duration)
      returns (shouldSendTo: seq<SpamKey>)
      requires Valid()
      modifies this, clock
      ensures Valid()
      ensures |old(log)| <= |log| && log[..|old(log)|] == old(log)
      ensures Answers(log[|old(log)|..], c, identities, ignoreIfLastSentLessThan, old(clock.now), clock.now)
      ensures shouldSendTo == Accepted(log[|old(log)|..])
      ensures clock.now - old(clock.now) < ignoreIfLastSentLessThan ==> NoDuplicates(shouldSendTo)
    {
      shouldSendTo := [];
      ghost var start := |log|;
      for n := 0 to |identities|
        invariant Valid() && old(clock.now) <= clock.now
        invariant start <= |log| && log[..start] == old(log)
        invariant Answers(log[start..], c, identities[..n], ignoreIfLastSentLessThan, old(clock.now), clock.now)
        invariant shouldSendTo == Accepted(log[start..])
      {
        ghost var before, middle := log, clock.now;
        var send := CheckIdentity(c, identities[n], ignoreIfLastSentLessThan);
        if send {
          shouldSendTo := shouldSendTo + [(c, identities[n])];
        }
        ghost var e := log[|before|];
        DropThenAppend(before, e, start);
        TakeOneMore(identities, n);
        AnswersExtend(before[start..], c, identities[..n], ignoreIfLastSentLessThan, old(clock.now), middle, clock.now, e, identities[n]);
      }
      TakeAll(identities);
      if clock.now - old(clock.now) < ignoreIfLastSentLessThan {
        AnswersHaveNoDuplicates(log, start, c, identities, ignoreIfLastSentLessThan, old(clock.now), clock.now);
      }
    }
  }

  class RateLimiter {
    const clock: Clock
    var lastRequest: map<string, Time>
    ghost var log: seq<Check<string>>

    ghost predicate Valid()
      reads this, clock
    {
      && Lawful(log)
      && (log != [] ==> log[|log| - 1].stampedAt <= clock.now)
      && Represents(lastRequest, log)
    }

    constructor (clock: Clock)
      ensures Valid() && log == [] && this.clock == clock
    {
      this.clock := clock;
      lastRequest := map[];
      log := [];
    }

    /** `Request` adds one decision to the log of the same throttle. */
    method Request(key: string, interval: Duration) returns (allowed: bool)
      requires Valid()
      modifies this, clock
      ensures Valid()
      ensures |log| == |old(log)| + 1 && old(log) <= log
      ensures Decides(log[|old(log)|], key, interval, old(clock.now), clock.now)
      ensures log[|old(log)|].accepted == allowed
    {
      allowed := true;
      if key in lastRequest {
        var t := clock.Now();
        if t - lastRequest[key] < interval {
          allowed := false;
        }
      }
      ghost var readAt := clock.now;
      ghost var before := lastRequest;
      if allowed {
        var t := clock.Now();
        lastRequest := lastRequest[key := t];
      }
      ghost var e := Check(key, interval, readAt, clock.now, allowed);
      DecisionKeeps(before, log, e);
      log := log + [e];
    }
  }
}
