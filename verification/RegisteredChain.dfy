/** registry/chain_registry/registered_chain_config.go: one chain as the workers see it. */
module RegisteredChain {
  import opened GoRuntime
  import opened Config
  import opened Endpoint

  // ----- the order of the RPC list

  function Without<T(==)>(s: seq<T>, x: T): seq<T> {
    if s == [] then []
    else (if s[0] == x then [] else [s[0]]) + Without(s[1..], x)
  }

  /** `InformPriorityLatestHealthyRpcWL` on the list. */
  function MoveToFront<T(==)>(s: seq<T>, x: T): seq<T> {
    if s == [] then [] else [x] + Without(s, x)
  }

  /** The list after a sequence of informs. */
  function AfterInforms<T(==)>(s: seq<T>, informs: seq<T>): seq<T> {
    if informs == [] then s
    else MoveToFront(AfterInforms(s, informs[..|informs| - 1]), informs[|informs| - 1])
  }

  /** The informed ones, each once, the last informed first. */
  function RecentFirst<T(==)>(informs: seq<T>): seq<T> {
    if informs == [] then []
    else
      var x := informs[|informs| - 1];
      [x] + Without(RecentFirst(informs[..|informs| - 1]), x)
  }

  /** The ones never informed, in their order. */
  function Untouched<T(==)>(s: seq<T>, informs: seq<T>): seq<T> {
    if s == [] then []
    else (if s[0] in informs then [] else [s[0]]) + Untouched(s[1..], informs)
  }

  lemma {:induction false} WithoutConcat<T>(a: seq<T>, b: seq<T>, x: T)
    ensures Without(a + b, x) == Without(a, x) + Without(b, x)
  {
    if a == [] {
      assert a + b == b;
    } else {
      assert (a + b)[1..] == a[1..] + b;
      WithoutConcat(a[1..], b, x);
    }
  }

  lemma {:induction false} WithoutMember<T>(s: seq<T>, x: T, y: T)
    ensures y in Without(s, x) <==> y in s && y != x
  {
    if s != [] {
      WithoutMember(s[1..], x, y);
    }
  }

  lemma {:induction false} UntouchedOneMore<T>(s: seq<T>, informs: seq<T>, x: T)
    ensures Untouched(s, informs + [x]) == Without(Untouched(s, informs), x)
  {
    if s != [] {
      UntouchedOneMore(s[1..], informs, x);
      WithoutConcat(if s[0] in informs then [] else [s[0]], Untouched(s[1..], informs), x);
    }
  }

  lemma {:induction false} UntouchedByNone<T>(s: seq<T>)
    ensures Untouched(s, []) == s
  {
    if s != [] {
      UntouchedByNone(s[1..]);
    }
  }

  lemma {:induction false} AfterInformsNonEmpty<T>(s: seq<T>, informs: seq<T>)
    requires s != []
    ensures AfterInforms(s, informs) != []
  {
    if informs != [] {
      AfterInformsNonEmpty(s, informs[..|informs| - 1]);
    }
  }

  /** MAIN. After any informs, the list is the informed ones, most recent first and once
      each, and then the others in the order they had. */
  lemma {:induction false} InformsReorder<T>(s: seq<T>, informs: seq<T>)
    requires s != []
    ensures AfterInforms(s, informs) == RecentFirst(informs) + Untouched(s, informs)
  {
    if informs == [] {
      UntouchedByNone(s);
    } else {
      var earlier, x := informs[..|informs| - 1], informs[|informs| - 1];
      InformsReorder(s, earlier);
      assert informs == earlier + [x];
      UntouchedOneMore(s, earlier, x);
      WithoutConcat(RecentFirst(earlier), Untouched(s, earlier), x);
      AfterInformsNonEmpty(s, earlier);
    }
  }

  lemma {:induction false} RecentFirstMember<T>(informs: seq<T>, y: T)
    ensures y in RecentFirst(informs) <==> y in informs
  {
    if informs != [] {
      RecentFirstMember(informs[..|informs| - 1], y);
      WithoutMember(RecentFirst(informs[..|informs| - 1]), informs[|informs| - 1], y);
    }
  }

  lemma {:induction false} UntouchedMember<T>(s: seq<T>, informs: seq<T>, y: T)
    ensures y in Untouched(s, informs) <==> y in s && y !in informs
  {
    if s != [] {
      UntouchedMember(s[1..], informs, y);
    }
  }

  /** The untouched ones keep the order they had, and each is there as often as before. */
  lemma {:induction false} UntouchedKeepsOrder<T>(s: seq<T>, informs: seq<T>, i: nat, j: nat) returns (p: nat, q: nat)
    requires i < j < |Untouched(s, informs)|
    ensures p < q < |s| && s[p] == Untouched(s, informs)[i] && s[q] == Untouched(s, informs)[j]
  {
    var rest := Untouched(s[1..], informs);
    if s[0] in informs {
      p, q := UntouchedKeepsOrder(s[1..], informs, i, j);
      p, q := p + 1, q + 1;
    } else if i > 0 {
      p, q := UntouchedKeepsOrder(s[1..], informs, i - 1, j - 1);
      p, q := p + 1, q + 1;
    } else {
      UntouchedMember(s[1..], informs, rest[j - 1]);
      p := 0;
      q :| 0 < q < |s| && s[q] == rest[j - 1];
    }
  }

  lemma {:induction false} UntouchedCount<T>(s: seq<T>, informs: seq<T>, x: T)
    ensures multiset(Untouched(s, informs))[x] == if x in informs then 0 else multiset(s)[x]
  {
    if s != [] {
      UntouchedCount(s[1..], informs, x);
      assert s == [s[0]] + s[1..];
    }
  }

  /** MAIN. Informs with members of the list lose nothing and add nothing. */
  lemma InformsKeepMembers<T>(s: seq<T>, informs: seq<T>, y: T)
    requires s != [] && forall x :: x in informs ==> x in s
    ensures y in AfterInforms(s, informs) <==> y in s
  {
    InformsReorder(s, informs);
    RecentFirstMember(informs, y);
    UntouchedMember(s, informs, y);
  }

  /** Two places of a filtered list come from two places of the list, in the same order. */
  lemma {:induction false} WithoutKeepsOrder<T>(s: seq<T>, x: T, i: nat, j: nat) returns (p: nat, q: nat)
    requires i < j < |Without(s, x)|
    ensures p < q < |s| && s[p] == Without(s, x)[i] && s[q] == Without(s, x)[j] && s[q] != x
  {
    var rest := Without(s[1..], x);
    if s[0] == x {
      p, q := WithoutKeepsOrder(s[1..], x, i, j);
      p, q := p + 1, q + 1;
    } else if i > 0 {
      p, q := WithoutKeepsOrder(s[1..], x, i - 1, j - 1);
      p, q := p + 1, q + 1;
    } else {
      WithoutMember(s[1..], x, rest[j - 1]);
      p := 0;
      q :| 0 < q < |s| && s[q] == rest[j - 1];
      WithoutMember(s[1..], x, s[q]);
    }
  }

  /** Of two entries behind the last informed one, both were informed earlier, in that order. */
  lemma EarlierOrder<T>(earlier: seq<T>, x: T, i: nat, j: nat) returns (p: nat, q: nat)
    requires i < j < |Without(RecentFirst(earlier), x)|
    ensures p < q < |RecentFirst(earlier)| && RecentFirst(earlier)[q] != x
    ensures RecentFirst(earlier)[p] == Without(RecentFirst(earlier), x)[i]
    ensures RecentFirst(earlier)[q] == Without(RecentFirst(earlier), x)[j]
  {
    p, q := WithoutKeepsOrder(RecentFirst(earlier), x, i, j);
  }

  lemma NotInLongerTail<T>(s: seq<T>, x: T, k: nat, y: T)
    requires k <= |s| && y !in s[k..] && y != x
    ensures y !in (s + [x])[k..]
  {
    assert (s + [x])[k..] == s[k..] + [x];
  }

  /** Between two informed ones, the one that stands first was informed after the last
      inform of the other. */
  lemma {:induction false} RecentFirstOrder<T>(informs: seq<T>, i: nat, j: nat) returns (k: nat)
    requires i < j < |RecentFirst(informs)|
    ensures k < |informs| && informs[k] == RecentFirst(informs)[i] && RecentFirst(informs)[j] !in informs[k..]
  {
    var earlier, x := informs[..|informs| - 1], informs[|informs| - 1];
    var filtered := Without(RecentFirst(earlier), x);
    assert informs == earlier + [x];
    assert RecentFirst(informs) == [x] + filtered;
    if i == 0 {
      WithoutMember(RecentFirst(earlier), x, filtered[j - 1]);
      k := |earlier|;
      NotInLongerTail(earlier, x, k, filtered[j - 1]);
    } else {
      var p, q := EarlierOrder(earlier, x, i - 1, j - 1);
      k := RecentFirstOrder(earlier, p, q);
      NotInLongerTail(earlier, x, k, filtered[j - 1]);
    }
  }

  // ----- the object

  datatype ValidatorOfChain = ValidatorOfChain(valoper: string, watchers: seq<string>, optionalHealthCheckRPC: string)

  function NormalizeRPC(rpc: string): string {
    if rpc != "" then Key(rpc) else rpc
  }

  /** The elements of a set in some order, as when Go ranges over a map. */
  method Enumerate<T(==)>(s: set<T>) returns (r: seq<T>)
    ensures |r| == |s| && NoDuplicates(r)
    ensures forall x :: x in r <==> x in s
  {
    r := [];
    var todo := s;
    while todo != {}
      invariant todo <= s
      invariant |r| + |todo| == |s| && NoDuplicates(r)
      invariant forall x :: x in r <==> x in s && x !in todo
      decreases todo
    {
      var x :| x in todo;
      r := r + [x];
      todo := todo - {x};
    }
  }

  method NormalizeRPCs(rpcs: seq<string>) returns (r: seq<string>)
    ensures |r| == |rpcs|
    ensures forall i :: 0 <= i < |rpcs| ==> r[i] == NormalizeRPC(rpcs[i])
  {
    r := MapSlice(rpcs, NormalizeRPC);
  }

  /** The validators are those of the configuration, once each, in some order. */
  ghost predicate ValidatorsFrom(vs: seq<ValidatorOfChain>, c: ChainConfig) {
    && |vs| == |c.validators|
    && (forall v :: v in vs ==> v.valoper in c.validators && v == Registered(v.valoper, c.validators[v.valoper]))
    && (forall k :: k in c.validators ==> Registered(k, c.validators[k]) in vs)
  }

  function Registered(valoper: string, v: ChainValidatorConfig): ValidatorOfChain {
    ValidatorOfChain(valoper, v.watchers, NormalizeRPC(v.optionalHealthCheckRPC))
  }

  method BuildValidators(c: ChainConfig) returns (vs: seq<ValidatorOfChain>)
    ensures ValidatorsFrom(vs, c)
  {
    var keys := Enumerate(c.validators.Keys);
    vs := MapSlice(keys, k requires k in c.validators => Registered(k, c.validators[k]));
    forall v | v in vs ensures v.valoper in c.validators && v == Registered(v.valoper, c.validators[v.valoper]) {
      var i :| 0 <= i < |vs| && vs[i] == v;
      assert keys[i] in keys;
    }
    forall k | k in c.validators ensures Registered(k, c.validators[k]) in vs {
      assert k in keys;
      var i :| 0 <= i < |keys| && keys[i] == k;
      assert vs[i] == Registered(k, c.validators[k]);
    }
  }

  /** `Distinct`: every element of the list once, in any order. */
  ghost predicate IsDistinct(distinct: seq<string>, all: seq<string>) {
    NoDuplicates(distinct) && forall r :: r in distinct <==> r in all
  }

  ghost predicate Normalized(rpc: seq<string>, rpcs: seq<string>) {
    |rpc| == |rpcs| && forall i :: 0 <= i < |rpcs| ==> rpc[i] == NormalizeRPC(rpcs[i])
  }

  /** The endpoints are made distinct before they are normalised: there is one entry for each
      distinct configured endpoint, so two entries may be equal. */
  ghost predicate EndpointsFrom(rpc: seq<string>, configured: seq<string>) {
    exists distinct :: IsDistinct(distinct, configured) && Normalized(rpc, distinct)
  }

  /** As a set, the endpoints are the normal forms of the configured ones. */
  lemma EndpointsMembers(rpc: seq<string>, configured: seq<string>)
    requires EndpointsFrom(rpc, configured)
    ensures forall e :: e in rpc ==> exists r :: r in configured && e == NormalizeRPC(r)
    ensures forall r :: r in configured ==> NormalizeRPC(r) in rpc
  {
    var distinct :| IsDistinct(distinct, configured) && Normalized(rpc, distinct);
    forall e | e in rpc ensures exists r :: r in configured && e == NormalizeRPC(r) {
      var i :| 0 <= i < |rpc| && rpc[i] == e;
      assert distinct[i] in distinct;
    }
    forall r | r in configured ensures NormalizeRPC(r) in rpc {
      assert r in distinct;
      var i :| 0 <= i < |distinct| && distinct[i] == r;
      assert rpc[i] == NormalizeRPC(r);
    }
  }

  lemma ValidatorsMean(vs: seq<ValidatorOfChain>, c: ChainConfig)
    requires ValidatorsFrom(vs, c)
    ensures forall k :: k in c.validators ==>
              var optional := c.validators[k].optionalHealthCheckRPC;
              ValidatorOfChain(k, c.validators[k].watchers, if optional == "" then "" else Key(optional)) in vs
  {
    forall k | k in c.validators
      ensures var optional := c.validators[k].optionalHealthCheckRPC;
              ValidatorOfChain(k, c.validators[k].watchers, if optional == "" then "" else Key(optional)) in vs
    {
      assert Registered(k, c.validators[k]) in vs;
    }
  }

  lemma EndpointsMean(rpc: seq<string>, configured: seq<string>)
    requires EndpointsFrom(rpc, configured)
    ensures forall r :: r in configured ==> (if r == "" then "" else Key(r)) in rpc
  {
    EndpointsMembers(rpc, configured);
    forall r | r in configured ensures (if r == "" then "" else Key(r)) in rpc {
      assert NormalizeRPC(r) in rpc;
    }
  }

  lemma EndpointsCount(rpc: seq<string>, configured: seq<string>)
    requires EndpointsFrom(rpc, configured)
    ensures |rpc| == |set r | r in configured|
  {
    var distinct :| IsDistinct(distinct, configured) && Normalized(rpc, distinct);
    SizeOfDistinct(distinct);
    assert (set r | r in configured) == set r | r in distinct;
  }

  lemma {:induction false} SizeOfDistinct<T>(s: seq<T>)
    requires NoDuplicates(s)
    ensures |set x | x in s| == |s|
  {
    if s != [] {
      var shorter, last := s[..|s| - 1], s[|s| - 1];
      SizeOfDistinct(shorter);
      assert s == shorter + [last];
      assert (set x | x in s) == (set x | x in shorter) + {last};
    }
  }

  /** No two different configured endpoints have one normal form. */
  ghost predicate NormalFormsDiffer(configured: seq<string>) {
    forall a, b :: a in configured && b in configured && a != b ==> NormalizeRPC(a) != NormalizeRPC(b)
  }

  /** Applying a function to each of different elements gives an element twice iff the function
      takes two of them to one. */
  lemma ImageTwiceIff<T, U>(s: seq<T>, image: seq<U>, f: T -> U)
    requires NoDuplicates(s) && |image| == |s| && forall i :: 0 <= i < |s| ==> image[i] == f(s[i])
    ensures NoDuplicates(image) <==> forall a, b :: a in s && b in s && a != b ==> f(a) != f(b)
  {
    if NoDuplicates(image) {
      forall a, b | a in s && b in s && a != b ensures f(a) != f(b) {
        var i :| 0 <= i < |s| && s[i] == a;
        var j :| 0 <= j < |s| && s[j] == b;
        assert if i < j then image[i] != image[j] else image[j] != image[i];
      }
    }
    if forall a, b :: a in s && b in s && a != b ==> f(a) != f(b) {
      forall i, j | 0 <= i < j < |image| ensures image[i] != image[j] {
        assert s[i] in s && s[j] in s;
      }
    }
  }

  /** MAIN. The list holds an endpoint twice if and only if two different configured endpoints have
      one normal form. */
  lemma EndpointTwiceIff(rpc: seq<string>, configured: seq<string>)
    requires EndpointsFrom(rpc, configured)
    ensures NoDuplicates(rpc) <==> NormalFormsDiffer(configured)
  {
    var distinct :| IsDistinct(distinct, configured) && Normalized(rpc, distinct);
    ImageTwiceIff(distinct, rpc, NormalizeRPC);
  }

  /** It does happen: a host with and without a final slash gives two equal entries. */
  lemma EndpointTwice(scheme: string, host: string, rpc: seq<string>)
    requires WebScheme(scheme) && host != "" && '/' !in host
    requires EndpointsFrom(rpc, [scheme + SCHEME_MARK + host, scheme + SCHEME_MARK + (host + "/")])
    ensures !NoDuplicates(rpc)
  {
    SpellingsOfHost(scheme, host);
    TwoSpellings(rpc, scheme + SCHEME_MARK + host, scheme + SCHEME_MARK + (host + "/"));
  }

  lemma TwoSpellings(rpc: seq<string>, a: string, b: string)
    requires EndpointsFrom(rpc, [a, b])
    ensures a != b && NormalizeRPC(a) == NormalizeRPC(b) ==> !NoDuplicates(rpc)
  {
    assert a in [a, b] && b in [a, b];
    EndpointTwiceIff(rpc, [a, b]);
  }

  lemma SpellingsOfHost(scheme: string, host: string)
    requires WebScheme(scheme) && host != "" && '/' !in host
    ensures scheme + SCHEME_MARK + host != scheme + SCHEME_MARK + (host + "/")
    ensures NormalizeRPC(scheme + SCHEME_MARK + host) == NormalizeRPC(scheme + SCHEME_MARK + (host + "/"))
  {
    var a, b := scheme + SCHEME_MARK + host, scheme + SCHEME_MARK + (host + "/");
    assert |a| < |b|;
    KeyIsAssembled(scheme, host, "", false);
    KeyIsAssembled(scheme, host, "", true);
    assert host + Path("") + "" == host && host + Path("") + "/" == host + "/";
    assert Key(a) == Key(b);
  }

  /** Once informed, an endpoint of the list occurs in it once. */
  lemma InformedOnce<T>(s: seq<T>, x: T)
    requires s != []
    ensures multiset(MoveToFront(s, x))[x] == 1
  {
    WithoutMember(s, x, x);
    assert x !in multiset(Without(s, x));
  }

  method BuildEndpoints(configured: seq<string>) returns (rpc: seq<string>)
    ensures EndpointsFrom(rpc, configured)
  {
    var distinct := Enumerate(set r | r in configured);
    rpc := NormalizeRPCs(distinct);
    assert IsDistinct(distinct, configured) && Normalized(rpc, distinct);
  }

  class RegisteredChainConfig {
    const chainName: string
    const chainId: string
    const priority: bool
    const validators: seq<ValidatorOfChain>
    const healthCheckRPC: seq<string>
    var rpc: seq<string>
    var lastHealthCheckUtc: Option<Time>

    /** The object is what `newRegisteredChainConfig` makes of `c`. */
    ghost predicate MadeFrom(c: ChainConfig)
      reads this
    {
      && chainName == c.chainName && chainId == c.chainId && priority == c.priority
      && ValidatorsFrom(validators, c)
      && EndpointsFrom(rpc, c.rpcs + c.healthCheckRPC)
      && |healthCheckRPC| == |c.healthCheckRPC|
      && (forall i :: 0 <= i < |healthCheckRPC| ==> healthCheckRPC[i] == NormalizeRPC(c.healthCheckRPC[i]))
      && lastHealthCheckUtc == None
    }

    constructor (c: ChainConfig)
      ensures MadeFrom(c)
      ensures chainName == c.chainName && chainId == c.chainId && priority == c.priority && lastHealthCheckUtc == None
      ensures |validators| == |c.validators| && forall v :: v in validators ==> v.valoper in c.validators
      ensures forall k :: k in c.validators ==>
                var optional := c.validators[k].optionalHealthCheckRPC;
                ValidatorOfChain(k, c.validators[k].watchers, if optional == "" then "" else Key(optional)) in validators
      ensures forall r :: r in c.rpcs || r in c.healthCheckRPC ==> (if r == "" then "" else Key(r)) in rpc
      ensures |rpc| == |set r | r in c.rpcs + c.healthCheckRPC|
      ensures |healthCheckRPC| == |c.healthCheckRPC|
      ensures forall i :: 0 <= i < |c.healthCheckRPC| ==>
                healthCheckRPC[i] == if c.healthCheckRPC[i] == "" then "" else Key(c.healthCheckRPC[i])
    {
      chainName, chainId, priority := c.chainName, c.chainId, c.priority;
      var vs := BuildValidators(c);
      validators := vs;
      var endpoints := BuildEndpoints(c.rpcs + c.healthCheckRPC);
      rpc := endpoints;
      var managed := NormalizeRPCs(c.healthCheckRPC);
      healthCheckRPC := managed;
      lastHealthCheckUtc := None;
      new;
      ValidatorsMean(validators, c);
      EndpointsMean(rpc, c.rpcs + c.healthCheckRPC);
      EndpointsCount(rpc, c.rpcs + c.healthCheckRPC);
    }

    method InformPriorityLatestHealthyRpc(healthy: string)
      modifies this`rpc
      ensures rpc == MoveToFront(old(rpc), healthy)
      ensures old(rpc) == [] ==> rpc == []
      ensures old(rpc) != [] ==> rpc != [] && rpc[0] == healthy && forall e :: e in rpc[1..] <==> e in old(rpc) && e != healthy
    {
      forall e {
        WithoutMember(rpc, healthy, e);
      }
      if |rpc| == 0 {
        return;
      }
      var reordered := [healthy];
      for i := 0 to |rpc|
        invariant rpc == old(rpc)
        invariant reordered == [healthy] + Without(rpc[..i], healthy)
      {
        TakeOneMore(rpc, i);
        WithoutConcat(rpc[..i], [rpc[i]], healthy);
        if rpc[i] == healthy {
          continue;
        }
        reordered := reordered + [rpc[i]];
      }
      TakeAll(rpc);
      rpc := reordered;
    }

    method SetLastHealthCheckUtc(clock: Clock)
      modifies this`lastHealthCheckUtc, clock
      ensures old(clock.now) <= clock.now && lastHealthCheckUtc == Some(clock.now)
    {
      var t := clock.Now();
      lastHealthCheckUtc := Some(t);
    }
  }
}
