/** The functions of Go's `strings` package that the daemon uses, on strings read as bytes. */
module Text {

  predicate OccursAt(s: string, sep: string, k: int) {
    0 <= k && k + |sep| <= |s| && s[k..k + |sep|] == sep
  }

  /** `strings.Index`: where `sep` first occurs in `s`, or -1. */
  function Index(s: string, sep: string): (k: int)
    ensures k == -1 || OccursAt(s, sep, k)
    ensures forall j :: OccursAt(s, sep, j) ==> 0 <= k <= j
  {
    if sep <= s then
      assert OccursAt(s, sep, 0);
      0
    else if s == "" then
      -1
    else
      var rest := Index(s[1..], sep);
      assert forall j :: OccursAt(s, sep, j) ==> j > 0 && OccursAt(s[1..], sep, j - 1);
      if rest < 0 then -1 else rest + 1
  }

  predicate Contains(s: string, sep: string) {
    Index(s, sep) >= 0
  }

  /** A string contains another exactly when it stands somewhere between two parts of it. */
  lemma ContainsIff(s: string, sep: string)
    ensures Contains(s, sep) <==> exists a, b :: s == a + sep + b
  {
    if Contains(s, sep) {
      var k := Index(s, sep);
      assert OccursAt(s, sep, k);
      assert s == s[..k] + sep + s[k + |sep|..];
    }
    if a, b :| s == a + sep + b {
      assert s[|a|..|a| + |sep|] == sep;
      assert OccursAt(s, sep, |a|);
    }
  }

  /** `strings.LastIndex` for a one-byte separator. */
  function LastIndex(s: string, c: char): (k: int)
    ensures -1 <= k < |s|
    ensures k >= 0 ==> s[k] == c
    ensures forall j :: k < j < |s| ==> s[j] != c
  {
    if s == "" then -1
    else if s[|s| - 1] == c then |s| - 1
    else LastIndex(s[..|s| - 1], c)
  }

  predicate HasSuffix(s: string, suffix: string) {
    |suffix| <= |s| && s[|s| - |suffix|..] == suffix
  }

  function TrimSuffix(s: string, suffix: string): string {
    if HasSuffix(s, suffix) then s[..|s| - |suffix|] else s
  }

  predicate Digit(c: char) {
    '0' <= c <= '9'
  }

  predicate LowerOrDigit(c: char) {
    'a' <= c <= 'z' || Digit(c)
  }

  /** The class `[a-zA-Z\d_]`, which is also RE2's `\w`. */
  predicate WordByte(c: char) {
    LowerOrDigit(c) || 'A' <= c <= 'Z' || c == '_'
  }

  lemma OccursAtByte(s: string, sep: string, k: int, i: nat)
    requires OccursAt(s, sep, k) && i < |sep|
    ensures s[k + i] == sep[i]
  {
    assert s[k..k + |sep|][i] == s[k + i];
  }

  /** A separator is found right after a text in which its first byte does not occur. */
  lemma IndexAfter(before: string, sep: string, after: string)
    requires sep != "" && sep[0] !in before
    ensures Index(before + sep + after, sep) == |before|
  {
    var s := before + sep + after;
    assert OccursAt(s, sep, |before|);
    OccursAtByte(s, sep, Index(s, sep), 0);
  }

  lemma IndexNone(s: string, sep: string)
    requires sep != "" && sep[0] !in s
    ensures Index(s, sep) == -1
  {
    if Index(s, sep) >= 0 {
      OccursAtByte(s, sep, Index(s, sep), 0);
    }
  }

  // ----- byte-wise string order, the order of Go's `<`

  predicate Less(a: string, b: string) {
    b != "" && (a == "" || a[0] < b[0] || (a[0] == b[0] && Less(a[1..], b[1..])))
  }

  lemma {:induction false} LessIsTotal(a: string, b: string)
    ensures Less(a, b) || Less(b, a) || a == b
    ensures !(Less(a, b) && Less(b, a))
  {
    if a != "" && b != "" {
      LessIsTotal(a[1..], b[1..]);
      assert a == [a[0]] + a[1..] && b == [b[0]] + b[1..];
    }
  }

  lemma {:induction false} LessIsTransitive(a: string, b: string, c: string)
    ensures Less(a, b) && Less(b, c) ==> Less(a, c)
  {
    if a != "" && b != "" && c != "" {
      LessIsTransitive(a[1..], b[1..], c[1..]);
    }
  }

  lemma {:induction false} LessIsIrreflexive(a: string)
    ensures !Less(a, a)
  {
    if a != "" {
      LessIsIrreflexive(a[1..]);
    }
  }

  /** `a` and `b` agree on the first `k` bytes, and then `a` ends or has the smaller byte. */
  predicate SmallerAt(a: string, b: string, k: nat) {
    k <= |a| && k < |b| && a[..k] == b[..k] && (k == |a| || a[k] < b[k])
  }

  lemma {:induction false} LessMeans(a: string, b: string)
    ensures Less(a, b) <==> exists k: nat :: SmallerAt(a, b, k)
  {
    if a != "" && b != "" && a[0] == b[0] {
      LessMeans(a[1..], b[1..]);
      if k: nat :| SmallerAt(a[1..], b[1..], k) {
        assert a[..k + 1] == [a[0]] + a[1..][..k] && b[..k + 1] == [b[0]] + b[1..][..k];
        assert SmallerAt(a, b, k + 1);
      }
      if k: nat :| SmallerAt(a, b, k) {
        assert k > 0 && a[1..][..k - 1] == a[..k][1..] && b[1..][..k - 1] == b[..k][1..];
        assert SmallerAt(a[1..], b[1..], k - 1);
      }
    } else if b != "" {
      assert a == "" || a[0] < b[0] ==> SmallerAt(a, b, 0);
      assert forall k: nat :: SmallerAt(a, b, k) && k > 0 ==> a[..k][0] == b[..k][0];
    }
  }
}
