/** services/telegram_push_message_svc: a batch of messages, its joined length and its order. */
module Batch {
  import opened GoRuntime

  datatype QueueMessage = QueueMessage(receiverId: int, priority: bool, fatal: bool, message: string, enqueueTimeUTC: Time)

  const BATCH_MESSAGES_LINE_DIVIDER := "\n---\n"
  const MAXIMUM_TELEGRAM_MESSAGE_LENGTH := 4096
  const BATCH_SIZE_TELEGRAM_PUSH_PER_USER := 20
  const MINIMUM_BETWEEN_TELEGRAM_PUSH_SAME_USER: Duration := MINUTE

  /** `strings.Join` of the texts. */
  function Join(ms: seq<QueueMessage>): string {
    if |ms| == 0 then ""
    else if |ms| == 1 then ms[0].message
    else Join(ms[..|ms| - 1]) + BATCH_MESSAGES_LINE_DIVIDER + ms[|ms| - 1].message
  }

  /** Short enough for one Telegram message. */
  predicate Fits(ms: seq<QueueMessage>) {
    |Join(ms)| < MAXIMUM_TELEGRAM_MESSAGE_LENGTH
  }

  /** How many of the first messages fit together. */
  function Kept(ms: seq<QueueMessage>): (k: nat)
    ensures k <= |ms|
  {
    if ms == [] || Fits(ms) then |ms| else Kept(ms[..|ms| - 1])
  }

  lemma JoinOneMore(ms: seq<QueueMessage>, m: QueueMessage)
    ensures Join(ms + [m]) == if ms == [] then m.message else Join(ms) + BATCH_MESSAGES_LINE_DIVIDER + m.message
  {
    assert (ms + [m])[..|ms|] == ms;
  }

  /** What the joined text is: a text alone is itself, and between two there is the divider. */
  lemma {:induction false} JoinMeans(m: QueueMessage, a: seq<QueueMessage>, b: seq<QueueMessage>)
    ensures Join([]) == "" && Join([m]) == m.message
    ensures a != [] && b != [] ==> Join(a + b) == Join(a) + "\n---\n" + Join(b)
    decreases |b|
  {
    if a != [] && |b| > 1 {
      var shorter, last := b[..|b| - 1], b[|b| - 1];
      JoinMeans(m, a, shorter);
      assert b == shorter + [last] && a + b == (a + shorter) + [last];
      JoinOneMore(a + shorter, last);
      JoinOneMore(shorter, last);
      Regrouped(Join(a), BATCH_MESSAGES_LINE_DIVIDER, Join(shorter), last.message);
    } else if a != [] && |b| == 1 {
      assert a + b == a + [b[0]];
      JoinOneMore(a, b[0]);
    }
  }

  lemma Regrouped(a: string, divider: string, b: string, c: string)
    ensures (a + divider + b) + divider + c == a + divider + (b + divider + c)
  {
  }

  lemma {:induction false} PrefixIsShorter(ms: seq<QueueMessage>, k: nat)
    requires k <= |ms|
    ensures |Join(ms[..k])| <= |Join(ms)|
  {
    if k == |ms| {
      assert ms[..k] == ms;
    } else {
      var shorter := ms[..|ms| - 1];
      PrefixIsShorter(shorter, k);
      assert shorter[..k] == ms[..k];
      JoinOneMore(shorter, ms[|ms| - 1]);
      assert ms == shorter + [ms[|ms| - 1]];
    }
  }

  /** MAIN. The kept messages are the longest prefix that fits: a prefix fits exactly when it
      is no longer than the kept one. */
  lemma {:induction false} KeptIsLongest(ms: seq<QueueMessage>, k: nat)
    requires k <= |ms|
    ensures |Join(ms[..k])| < 4096 <==> k <= Kept(ms)
  {
    if ms == [] || Fits(ms) {
      PrefixIsShorter(ms, k);
    } else {
      if k == |ms| {
        assert ms[..k] == ms;
      } else {
        KeptIsLongest(ms[..|ms| - 1], k);
        assert ms[..|ms| - 1][..k] == ms[..k];
      }
    }
  }

  /** Something is kept exactly when the first message alone fits. */
  lemma KeepsSomethingIff(ms: seq<QueueMessage>)
    requires ms != []
    ensures Kept(ms) > 0 <==> |ms[0].message| < 4096
  {
    KeptIsLongest(ms, 1);
    assert ms[..1] == [ms[0]];
  }

  // ----- the length does not depend on the order

  function TotalLength(ms: seq<QueueMessage>): nat {
    if ms == [] then 0 else |ms[0].message| + |BATCH_MESSAGES_LINE_DIVIDER| + TotalLength(ms[1..])
  }

  lemma {:induction false} TotalLengthConcat(a: seq<QueueMessage>, b: seq<QueueMessage>)
    ensures TotalLength(a + b) == TotalLength(a) + TotalLength(b)
  {
    if a == [] {
      assert a + b == b;
    } else {
      assert (a + b)[1..] == a[1..] + b;
      TotalLengthConcat(a[1..], b);
    }
  }

  lemma {:induction false} JoinLength(ms: seq<QueueMessage>)
    ensures |Join(ms)| + (if ms == [] then 0 else |BATCH_MESSAGES_LINE_DIVIDER|) == TotalLength(ms)
  {
    if |ms| > 0 {
      var shorter, m := ms[..|ms| - 1], ms[|ms| - 1];
      JoinLength(shorter);
      assert ms == shorter + [m];
      JoinOneMore(shorter, m);
      TotalLengthConcat(shorter, [m]);
      assert TotalLength([m]) == |m.message| + |BATCH_MESSAGES_LINE_DIVIDER|;
    }
  }

  lemma RemoveLength(ms: seq<QueueMessage>, i: nat)
    requires i < |ms|
    ensures TotalLength(ms) == TotalLength(ms[..i] + ms[i + 1..]) + |ms[i].message| + |BATCH_MESSAGES_LINE_DIVIDER|
  {
    var left, right := ms[..i], ms[i + 1..];
    assert ms == left + ([ms[i]] + right);
    TotalLengthConcat(left, right);
    TotalLengthConcat(left, [ms[i]] + right);
    assert ([ms[i]] + right)[1..] == right;
  }

  /** Taking the same element out of a part and of the whole leaves a part. */
  lemma RemoveFromBoth<T>(part: seq<T>, ms: seq<T>, i: nat)
    requires multiset(part) <= multiset(ms) && part != [] && i < |ms| && ms[i] == part[0]
    ensures multiset(part[1..]) <= multiset(ms[..i] + ms[i + 1..])
  {
    var rest := ms[..i] + ms[i + 1..];
    assert part == [part[0]] + part[1..];
    assert ms == ms[..i] + [ms[i]] + ms[i + 1..];
    forall y ensures multiset(part[1..])[y] <= multiset(rest)[y] {
      var one := if y == part[0] then 1 else 0;
      assert multiset(part)[y] == multiset(part[1..])[y] + one;
      assert multiset(ms)[y] == multiset(rest)[y] + one;
    }
  }

  /** Any part of a batch, in any order, is no longer than the batch. */
  lemma {:induction false} PartIsShorter(part: seq<QueueMessage>, ms: seq<QueueMessage>)
    requires multiset(part) <= multiset(ms)
    ensures TotalLength(part) <= TotalLength(ms)
    decreases |part|
  {
    if part != [] {
      assert part[0] in multiset(part);
      var i :| 0 <= i < |ms| && ms[i] == part[0];
      RemoveLength(ms, i);
      RemoveFromBoth(part, ms, i);
      PartIsShorter(part[1..], ms[..i] + ms[i + 1..]);
    }
  }

  /** MAIN. Whatever part of a fitting batch is left by the silencer, and however it is then
      sorted, the joined text still fits. */
  lemma PartFits(part: seq<QueueMessage>, ms: seq<QueueMessage>)
    requires multiset(part) <= multiset(ms)
    requires Fits(ms)
    ensures Fits(part)
  {
    PartIsShorter(part, ms);
    JoinLength(part);
    JoinLength(ms);
    if ms == [] {
      assert |part| == |multiset(part)| <= |multiset(ms)|;
    }
  }

  // ----- the order inside a batch

  /** Fatal messages first, then by enqueue time. */
  predicate MessageLess(left: QueueMessage, right: QueueMessage) {
    if left.fatal != right.fatal then left.fatal else left.enqueueTimeUTC < right.enqueueTimeUTC
  }

  lemma MessageLessIsStrict()
    ensures StrictWeakOrder(MessageLess)
  {
  }

  /** In a sorted batch all fatal messages come first, and in both groups time does not go back. */
  lemma SortedBatch(ms: seq<QueueMessage>, i: nat, j: nat)
    requires SortedBy(ms, MessageLess) && i < j < |ms|
    ensures ms[j].fatal ==> ms[i].fatal
    ensures ms[i].fatal == ms[j].fatal ==> ms[i].enqueueTimeUTC <= ms[j].enqueueTimeUTC
  {
    assert !MessageLess(ms[j], ms[i]);
  }

  /** The body of a push turn between dequeue and send. `silenced` are the silencer's answers. */
  method PrepareBatch(dequeued: seq<QueueMessage>, silenced: seq<bool>)
    returns (messages: seq<QueueMessage>, combined: string)
    requires |silenced| == |dequeued|
    ensures forall m :: multiset(messages)[m] == |set i: nat | i < |dequeued| && dequeued[i] == m && !silenced[i]|
    ensures SortedBy(messages, MessageLess)
    ensures combined == Join(messages)
    ensures |Join(dequeued)| < 4096 ==> |combined| < 4096
  {
    var unsilenced: seq<QueueMessage> := [];
    for i := 0 to |dequeued|
      invariant unsilenced == Unsilenced(dequeued[..i], silenced[..i])
    {
      TakeOneMore(dequeued, i);
      TakeOneMore(silenced, i);
      UnsilencedOneMore(dequeued[..i], silenced[..i], dequeued[i], silenced[i]);
      if silenced[i] {
        continue;
      }
      unsilenced := unsilenced + [dequeued[i]];
    }
    TakeAll(dequeued);
    TakeAll(silenced);
    MessageLessIsStrict();
    messages := SortSlice(unsilenced, MessageLess);
    combined := "";
    for i := 0 to |messages|
      invariant combined == Join(messages[..i])
    {
      TakeOneMore(messages, i);
      JoinOneMore(messages[..i], messages[i]);
      combined := if i == 0 then messages[i].message else combined + BATCH_MESSAGES_LINE_DIVIDER + messages[i].message;
    }
    TakeAll(messages);
    UnsilencedIsPart(dequeued, silenced);
    UnsilencedCounted(dequeued, silenced);
    if Fits(dequeued) {
      PartFits(messages, dequeued);
    }
  }

  function Unsilenced(ms: seq<QueueMessage>, silenced: seq<bool>): seq<QueueMessage>
    requires |silenced| == |ms|
  {
    if ms == [] then []
    else Unsilenced(ms[..|ms| - 1], silenced[..|ms| - 1]) + if silenced[|ms| - 1] then [] else [ms[|ms| - 1]]
  }

  lemma UnsilencedOneMore(ms: seq<QueueMessage>, silenced: seq<bool>, m: QueueMessage, s: bool)
    requires |silenced| == |ms|
    ensures Unsilenced(ms + [m], silenced + [s]) == Unsilenced(ms, silenced) + if s then [] else [m]
  {
    assert (ms + [m])[..|ms|] == ms && (silenced + [s])[..|ms|] == silenced;
  }

  /** A message is left as often as it stands at a place whose answer is no. */
  lemma UnsilencedCounted(ms: seq<QueueMessage>, silenced: seq<bool>)
    requires |silenced| == |ms|
    ensures forall m :: multiset(Unsilenced(ms, silenced))[m] == |set i: nat | i < |ms| && ms[i] == m && !silenced[i]|
  {
    forall m ensures multiset(Unsilenced(ms, silenced))[m] == |set i: nat | i < |ms| && ms[i] == m && !silenced[i]| {
      UnsilencedCount(ms, silenced, m);
      assert Places(ms, silenced, m) == set i: nat | i < |ms| && ms[i] == m && !silenced[i];
    }
  }

  function Places(ms: seq<QueueMessage>, silenced: seq<bool>, m: QueueMessage): set<nat>
    requires |silenced| == |ms|
  {
    set i: nat | i < |ms| && ms[i] == m && !silenced[i]
  }

  lemma {:induction false} UnsilencedCount(ms: seq<QueueMessage>, silenced: seq<bool>, m: QueueMessage)
    requires |silenced| == |ms|
    ensures multiset(Unsilenced(ms, silenced))[m] == |Places(ms, silenced, m)|
  {
    if ms != [] {
      var n := |ms| - 1;
      UnsilencedCount(ms[..n], silenced[..n], m);
      PlacesOneMore(ms, silenced, m, n);
      CountOneMore(Unsilenced(ms[..n], silenced[..n]), ms[n], m);
    }
  }

  lemma PlacesOneMore(ms: seq<QueueMessage>, silenced: seq<bool>, m: QueueMessage, n: nat)
    requires |silenced| == |ms| == n + 1
    ensures |Places(ms, silenced, m)| == |Places(ms[..n], silenced[..n], m)| + if ms[n] == m && !silenced[n] then 1 else 0
  {
    var earlier := Places(ms[..n], silenced[..n], m);
    assert n !in earlier;
    forall i: nat ensures i in Places(ms, silenced, m) <==> i in earlier || (i == n && ms[n] == m && !silenced[n]) {
      assert i < n ==> ms[..n][i] == ms[i] && silenced[..n][i] == silenced[i];
    }
    if ms[n] == m && !silenced[n] {
      assert Places(ms, silenced, m) == earlier + {n};
    } else {
      assert Places(ms, silenced, m) == earlier;
    }
  }

  lemma CountOneMore<T>(xs: seq<T>, x: T, m: T)
    ensures multiset(xs + [x])[m] == multiset(xs)[m] + if x == m then 1 else 0
  {
  }

  lemma {:induction false} UnsilencedIsPart(ms: seq<QueueMessage>, silenced: seq<bool>)
    requires |silenced| == |ms|
    ensures multiset(Unsilenced(ms, silenced)) <= multiset(ms)
  {
    if ms != [] {
      UnsilencedIsPart(ms[..|ms| - 1], silenced[..|ms| - 1]);
      assert ms == ms[..|ms| - 1] + [ms[|ms| - 1]];
    }
  }
}
