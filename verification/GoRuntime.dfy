/** The parts of Go's run time that the daemon leans on: wall-clock time, `sort.Slice`
    and slices that share a backing array. */
module GoRuntime {

  datatype Option<+T> = None | Some(value: T)

  datatype Result<+T, +E> = Ok(value: T) | Err(error: E)

  /** Instants and durations in nanoseconds. The zero `time.Time{}` is the instant 0. */
  type Time = int

  type Duration = int

  const MILLISECOND: Duration := 1_000_000
  const SECOND: Duration := 1_000 * MILLISECOND
  const MINUTE: Duration := 60 * SECOND
  const HOUR: Duration := 60 * MINUTE

  /** The constants of Go's `time` package, in nanoseconds. */
  lemma GoDurations()
    ensures MILLISECOND == 1_000_000 && SECOND == 1_000_000_000 && MINUTE == 60_000_000_000 && HOUR == 3_600_000_000_000
  {
  }

  /** A wall clock that never runs backwards. Every reading may find that time has passed. */
  class Clock {
    var now: Time

    constructor (start: Time)
      ensures now == start
    {
      now := start;
    }

    method Now() returns (t: Time)
      modifies this
      ensures old(now) <= t == now
    {
      var elapsed :| elapsed >= 0;
      now := now + elapsed;
      t := now;
    }

    /** `time.Sleep`: at least `d` passes. */
    method Sleep(d: Duration)
      modifies this
      ensures now >= old(now) && now >= old(now) + d
    {
      var elapsed :| elapsed >= 0;
      now := now + elapsed + if d > 0 then d else 0;
    }
  }

  // ----- sort.Slice

  ghost predicate Irreflexive<T(!new)>(less: (T, T) -> bool) {
    forall x :: !less(x, x)
  }

  ghost predicate Transitive<T(!new)>(less: (T, T) -> bool) {
    forall x, y, z :: less(x, y) && less(y, z) ==> less(x, z)
  }

  ghost predicate Incomparable<T>(less: (T, T) -> bool, x: T, y: T) {
    !less(x, y) && !less(y, x)
  }

  /** What `sort.Slice` asks of `less`. */
  ghost predicate StrictWeakOrder<T(!new)>(less: (T, T) -> bool) {
    && Irreflexive(less)
    && Transitive(less)
    && forall x, y, z :: Incomparable(less, x, y) && Incomparable(less, y, z) ==> Incomparable(less, x, z)
  }

  ghost predicate SortedBy<T>(s: seq<T>, less: (T, T) -> bool) {
    forall i, j :: 0 <= i < j < |s| ==> !less(s[j], s[i])
  }

  lemma Chain<T(!new)>(less: (T, T) -> bool, x: T, y: T, z: T)
    requires StrictWeakOrder(less)
    ensures less(x, y) && less(y, z) ==> less(x, z)
  {
  }

  /** `sort.Slice`: some permutation sorted by `less`; elements that tie come in any order. */
  method SortSlice<T(!new)>(s: seq<T>, less: (T, T) -> bool) returns (r: seq<T>)
    requires StrictWeakOrder(less)
    ensures multiset(r) == multiset(s)
    ensures SortedBy(r, less)
  {
    r := [];
    for n := 0 to |s|
      invariant multiset(r) == multiset(s[..n])
      invariant SortedBy(r, less)
    {
      r := Insert(r, s[n], less);
      assert s[..n + 1] == s[..n] + [s[n]];
    }
    assert s[..|s|] == s;
  }

  method Insert<T(!new)>(s: seq<T>, x: T, less: (T, T) -> bool) returns (r: seq<T>)
    requires StrictWeakOrder(less)
    requires SortedBy(s, less)
    ensures multiset(r) == multiset(s) + multiset{x}
    ensures SortedBy(r, less)
  {
    var k := 0;
    while k < |s| && !less(x, s[k])
      invariant 0 <= k <= |s|
      invariant forall i :: 0 <= i < k ==> !less(x, s[i])
    {
      k := k + 1;
    }
    InsertedIsSorted(s, x, k, less);
    assert s == s[..k] + s[k..];
    r := s[..k] + [x] + s[k..];
  }

  lemma InsertedIsSorted<T(!new)>(s: seq<T>, x: T, k: nat, less: (T, T) -> bool)
    requires StrictWeakOrder(less) && SortedBy(s, less) && k <= |s|
    requires forall i :: 0 <= i < k ==> !less(x, s[i])
    requires k < |s| ==> less(x, s[k])
    ensures SortedBy(s[..k] + [x] + s[k..], less)
  {
    var r := s[..k] + [x] + s[k..];
    forall i | k <= i < |s| ensures !less(s[i], x) {
      Chain(less, s[i], x, s[k]);
    }
    forall i, j | 0 <= i < j < |r| ensures !less(r[j], r[i]) {
      var p, q := if i <= k then i else i - 1, if j <= k then j else j - 1;
      assert i != k ==> r[i] == s[p];
      assert j != k ==> r[j] == s[q];
    }
  }

  /** A loop that fills a slice with `f` of each element. */
  method MapSlice<T, U>(s: seq<T>, f: T --> U) returns (r: seq<U>)
    requires forall x :: x in s ==> f.requires(x)
    ensures |r| == |s|
    ensures forall i :: 0 <= i < |s| ==> r[i] == f(s[i])
  {
    r := [];
    for i := 0 to |s|
      invariant |r| == i
      invariant forall k :: 0 <= k < i ==> r[k] == f(s[k])
    {
      r := r + [f(s[i])];
    }
  }

  // ----- sequences

  ghost predicate NoDuplicates<T>(s: seq<T>) {
    forall i, j :: 0 <= i < j < |s| ==> s[i] != s[j]
  }

  lemma SomeMember<T>(s: set<T>) returns (x: T)
    requires s != {}
    ensures x in s
  {
    x :| x in s;
  }

  lemma TakeAll<T>(s: seq<T>)
    ensures s[..|s|] == s
  {
  }

  lemma CutTwice<T>(s: seq<T>, k: nat, n: nat)
    requires k <= n <= |s|
    ensures s[..n][k..] + s[n..] == s[k..]
  {
  }

  lemma DropThenAppend<T>(a: seq<T>, x: T, n: nat)
    requires n <= |a|
    ensures (a + [x])[n..] == a[n..] + [x] && (a + [x])[..n] == a[..n]
  {
  }

  lemma TakeOneMore<T>(s: seq<T>, n: nat)
    requires n < |s|
    ensures s[..n + 1] == s[..n] + [s[n]]
  {
  }

  // ----- slices

  /** A Go slice: a window on a backing array that other slices may share. Its capacity
      reaches to the end of the array, since the daemon never cuts with three indices. */
  datatype Slice<T> = Slice(buf: array<T>, off: nat, len: nat) {
    ghost predicate Valid() {
      off + len <= buf.Length
    }

    function Cap(): int {
      buf.Length - off
    }

    function End(): nat {
      off + len
    }

    function View(): seq<T>
      requires Valid()
      reads buf
    {
      buf[off..off + len]
    }

    /** The expression `s[i:j]`: no copy, the window only moves. */
    function Cut(i: nat, j: nat): Slice<T>
      requires i <= j <= len
    {
      Slice(buf, off + i, j - i)
    }
  }

  /** `append(s, xs...)`: in place when the capacity allows, even over cells that another
      slice sees, and otherwise into a new and larger array. */
  method Append<T(0)>(s: Slice<T>, xs: seq<T>) returns (r: Slice<T>)
    requires s.Valid()
    modifies s.buf
    ensures r.Valid() && r.len == s.len + |xs|
    ensures r.View() == old(s.View()) + xs
    ensures s.len + |xs| <= s.Cap() ==> r.buf == s.buf && r.off == s.off
    ensures s.len + |xs| > s.Cap() ==> fresh(r.buf) && r.off == 0
    ensures s.buf[..s.End()] == old(s.buf[..s.End()])
    ensures s.len + |xs| <= s.Cap() ==>
              s.buf[s.End()..s.End() + |xs|] == xs && s.buf[s.End() + |xs|..] == old(s.buf[s.End() + |xs|..])
    ensures s.len + |xs| > s.Cap() ==> s.buf[..] == old(s.buf[..])
  {
    if s.len + |xs| <= s.Cap() {
      forall i | 0 <= i < |xs| {
        s.buf[s.End() + i] := xs[i];
      }
      r := Slice(s.buf, s.off, s.len + |xs|);
    } else {
      var spare :| spare >= 0;
      var bigger := new T[s.len + |xs| + spare];
      forall i | 0 <= i < s.len {
        bigger[i] := s.buf[s.off + i];
      }
      forall i | 0 <= i < |xs| {
        bigger[s.len + i] := xs[i];
      }
      r := Slice(bigger, 0, s.len + |xs|);
    }
  }
}
