/** work/health_check_worker/worker.go, lines 886-978: probe every endpoint of a chain at once and
    choose the one with the latest block. */
module MostHealthy {
  import opened GoRuntime
  import opened Endpoint
  import opened RpcClientRegistry

  /** What a node answers to a status request, after all retries. */
  datatype Answer = NoWebsocket | NoStatus | Status(network: string, latestBlockHeight: int, latestBlockTime: Time)

  /** What one goroutine meets: the client it is given, and the answer. */
  datatype Probe = Probe(client: Result<Client, Failure>, answer: Answer)

  datatype ProbeError = ProbePanicked | NoClient | WebsocketIsNil | StatusFailed | NetworkMismatch

  datatype ScoredRPC = ScoredRPC(latestBlock: int, latestBlockTime: Time, endpoint: string, err: Option<ProbeError>)

  datatype Outcome = NoRpcPanic | Failed(error: ProbeError) | ClientLost | Healthiest(client: Client, endpoint: string, time: Time)

  predicate Alive(chainId: string, p: Probe) {
    p.client.Ok? && p.answer.Status? && p.answer.network == chainId
  }

  function Score(endpoint: string, chainId: string, p: Probe): ScoredRPC {
    if Alive(chainId, p) then ScoredRPC(p.answer.latestBlockHeight, p.answer.latestBlockTime, endpoint, None)
    else ScoredRPC(0, 0, endpoint, Some(ErrorOf(p)))
  }

  function ErrorOf(p: Probe): ProbeError {
    if p.client == Err(EmptyEndpoint) then ProbePanicked
    else if p.client.Err? then NoClient
    else if p.answer.NoWebsocket? then WebsocketIsNil
    else if p.answer.NoStatus? then StatusFailed
    else NetworkMismatch
  }

  /** The comparison given to `sort.Slice`. */
  predicate Healthier(left: ScoredRPC, right: ScoredRPC) {
    if left.err.Some? && right.err.Some? then left.latestBlock > right.latestBlock
    else if left.err.Some? then false
    else if right.err.Some? then true
    else left.latestBlock > right.latestBlock
  }

  lemma HealthierIsStrict()
    ensures StrictWeakOrder(Healthier)
  {
  }

  /** A probe that got a client leaves it in the cache, and only an empty endpoint panics. */
  ghost predicate Cached(clients: map<string, Client>, endpoint: string, p: Probe) {
    && (p.client == Err(EmptyEndpoint) <==> endpoint == "")
    && (p.client.Ok? ==> LookUp(clients, Key(endpoint)) == Some(p.client.value))
  }

  /** The body of a probing goroutine, beside any others. The node's answer is arbitrary. */
  method ProbeEndpoint(endpoint: string, chainId: string, registry: RpcClientRegistry)
    returns (scored: ScoredRPC, ghost probe: Probe)
    modifies registry
    ensures scored == Score(endpoint, chainId, probe)
    ensures Cached(registry.clients, endpoint, probe) && Grown(old(registry.clients), registry.clients)
  {
    registry.OthersMeanwhile();
    var client;
    ghost var locked, made;
    client, locked, made := registry.GetRpcClientByEndpoint(endpoint);
    AfterGetCaches(locked, Key(endpoint), made);
    var answer: Answer := *;
    probe := Probe(client, answer);
    scored := ScoredRPC(0, 0, endpoint, None);
    if client == Err(EmptyEndpoint) {
      scored := scored.(err := Some(ProbePanicked));
    } else if client.Err? {
      scored := scored.(err := Some(NoClient));
    } else {
      match answer {
        case NoWebsocket => scored := scored.(err := Some(WebsocketIsNil));
        case NoStatus => scored := scored.(err := Some(StatusFailed));
        case Status(network, height, time) =>
          if network != chainId {
            scored := scored.(err := Some(NetworkMismatch));
          } else {
            scored := scored.(latestBlock := height, latestBlockTime := time);
          }
      }
    }
  }

  /** All probes were scored into the channel. */
  ghost predicate ScoresOf(channel: multiset<ScoredRPC>, rpc: seq<string>, chainId: string, probes: seq<Probe>) {
    && |probes| == |rpc|
    && (forall i :: 0 <= i < |rpc| ==> Score(rpc[i], chainId, probes[i]) in channel)
    && (forall s :: s in channel ==> exists i :: 0 <= i < |rpc| && s == Score(rpc[i], chainId, probes[i]))
    && |channel| == |rpc|
  }

  lemma ScoresOneMore(channel: multiset<ScoredRPC>, rpc: seq<string>, chainId: string, probes: seq<Probe>, endpoint: string, p: Probe)
    requires ScoresOf(channel, rpc, chainId, probes)
    ensures ScoresOf(channel + multiset{Score(endpoint, chainId, p)}, rpc + [endpoint], chainId, probes + [p])
  {
    var longer, more := rpc + [endpoint], probes + [p];
    var channel' := channel + multiset{Score(endpoint, chainId, p)};
    forall s | s in channel' ensures exists i :: 0 <= i < |longer| && s == Score(longer[i], chainId, more[i]) {
      if s in channel {
        var i :| 0 <= i < |rpc| && s == Score(rpc[i], chainId, probes[i]);
        assert s == Score(longer[i], chainId, more[i]);
      } else {
        assert s == Score(longer[|rpc|], chainId, more[|rpc|]);
      }
    }
  }

  ghost predicate AllCached(clients: map<string, Client>, rpc: seq<string>, probes: seq<Probe>) {
    |probes| == |rpc| && forall i :: 0 <= i < |rpc| ==> Cached(clients, rpc[i], probes[i])
  }

  lemma AllCachedOneMore(before: map<string, Client>, after: map<string, Client>, rpc: seq<string>, probes: seq<Probe>,
                         endpoint: string, p: Probe)
    requires AllCached(before, rpc, probes) && Grown(before, after) && Cached(after, endpoint, p)
    ensures AllCached(after, rpc + [endpoint], probes + [p])
  {
    AllCachedStays(before, after, rpc, probes);
  }

  lemma AllCachedStays(before: map<string, Client>, after: map<string, Client>, rpc: seq<string>, probes: seq<Probe>)
    requires AllCached(before, rpc, probes) && Grown(before, after)
    ensures AllCached(after, rpc, probes)
  {
    forall i | 0 <= i < |rpc| ensures Cached(after, rpc[i], probes[i]) {
      assert Cached(before, rpc[i], probes[i]);
    }
  }

  /** The goroutines, each of which sends its score once. They are taken one by one, but each
      runs beside all that the others may do to the cache. */
  method ProbeAll(rpc: seq<string>, chainId: string, registry: RpcClientRegistry)
    returns (channel: multiset<ScoredRPC>, ghost probes: seq<Probe>)
    modifies registry
    ensures ScoresOf(channel, rpc, chainId, probes)
    ensures AllCached(registry.clients, rpc, probes) && Grown(old(registry.clients), registry.clients)
  {
    channel, probes := multiset{}, [];
    for n := 0 to |rpc|
      invariant ScoresOf(channel, rpc[..n], chainId, probes)
      invariant AllCached(registry.clients, rpc[..n], probes) && Grown(old(registry.clients), registry.clients)
    {
      ghost var before := registry.clients;
      var scored;
      ghost var probe;
      scored, probe := ProbeEndpoint(rpc[n], chainId, registry);
      ScoresOneMore(channel, rpc[..n], chainId, probes, rpc[n], probe);
      AllCachedOneMore(before, registry.clients, rpc[..n], probes, rpc[n], probe);
      TakeOneMore(rpc, n);
      channel := channel + multiset{scored};
      probes := probes + [probe];
    }
    TakeAll(rpc);
  }

  /** As many receives as there were probes, in whatever order the scores arrive. */
  method Receive(channel: multiset<ScoredRPC>, count: nat) returns (scores: seq<ScoredRPC>)
    requires |channel| == count
    ensures multiset(scores) == channel
  {
    scores := [];
    var left := channel;
    for i := 0 to count
      invariant |left| == count - i
      invariant multiset(scores) + left == channel
    {
      var next :| next in left;
      left := left - multiset{next};
      scores := scores + [next];
    }
    assert left == multiset{};
  }

  /** The first of the sorted scores tells whether any probe is alive, and is the best. */
  lemma FirstIsBest(scores: seq<ScoredRPC>, s: ScoredRPC)
    requires SortedBy(scores, Healthier) && s in scores
    ensures scores[0].err.Some? ==> s.err.Some?
    ensures s.err.None? ==> s.latestBlock <= scores[0].latestBlock
  {
    var k :| 0 <= k < |scores| && scores[k] == s;
    assert k > 0 ==> !Healthier(scores[k], scores[0]);
  }

  /** The probe at `i` is alive, and no live probe saw a higher block. */
  ghost predicate Best(chainId: string, probes: seq<Probe>, i: nat) {
    && i < |probes| && Alive(chainId, probes[i])
    && forall j :: 0 <= j < |probes| && Alive(chainId, probes[j]) ==>
         probes[j].answer.latestBlockHeight <= probes[i].answer.latestBlockHeight
  }

  /** What sorting the scores decides, in terms of the probes. */
  lemma FirstDecides(scores: seq<ScoredRPC>, rpc: seq<string>, chainId: string, probes: seq<Probe>) returns (i: nat)
    requires ScoresOf(multiset(scores), rpc, chainId, probes) && SortedBy(scores, Healthier) && rpc != []
    ensures |scores| == |rpc| && i < |rpc| && scores[0] == Score(rpc[i], chainId, probes[i])
    ensures scores[0].err.Some? <==> forall j :: 0 <= j < |probes| ==> !Alive(chainId, probes[j])
    ensures scores[0].err.None? ==> Best(chainId, probes, i)
  {
    assert |scores| == |multiset(scores)|;
    assert scores[0] in multiset(scores);
    i :| 0 <= i < |rpc| && scores[0] == Score(rpc[i], chainId, probes[i]);
    forall j | 0 <= j < |probes| && Alive(chainId, probes[j])
      ensures scores[0].err.None? && probes[j].answer.latestBlockHeight <= scores[0].latestBlock
    {
      var s := Score(rpc[j], chainId, probes[j]);
      assert s in multiset(scores);
      FirstIsBest(scores, s);
    }
  }

  lemma AliveMeans(chainId: string, probes: seq<Probe>)
    ensures forall j :: 0 <= j < |probes| ==>
              (Alive(chainId, probes[j])
               <==> probes[j].client.Ok? && probes[j].answer.Status? && probes[j].answer.network == chainId)
  {
  }

  /** Which error each kind of failed probe gives. */
  lemma ErrorMeans(endpoint: string, chainId: string, p: Probe, s: ScoredRPC)
    requires s == Score(endpoint, chainId, p)
    ensures s.err == Some(ProbePanicked) <==> p.client == Err(EmptyEndpoint)
    ensures s.err == Some(NoClient) <==> p.client == Err(CreationFailed)
    ensures s.err == Some(WebsocketIsNil) <==> p.client.Ok? && p.answer == NoWebsocket
    ensures s.err == Some(StatusFailed) <==> p.client.Ok? && p.answer == NoStatus
    ensures s.err == Some(NetworkMismatch) <==> p.client.Ok? && p.answer.Status? && p.answer.network != chainId
    ensures s.err == None <==> p.client.Ok? && p.answer.Status? && p.answer.network == chainId
  {
    match p.client
    case Ok(_) =>
    case Err(EmptyEndpoint) =>
    case Err(CreationFailed) =>
  }

  /** The second look-up, of an endpoint whose client is cached. */
  method LookUpAgain(endpoint: string, registry: RpcClientRegistry, ghost p: Probe)
    returns (client: Result<Client, Failure>)
    requires Cached(registry.clients, endpoint, p) && p.client.Ok?
    modifies registry
    ensures client == p.client && Grown(old(registry.clients), registry.clients)
  {
    registry.OthersMeanwhile();
    ghost var locked, made;
    client, locked, made := registry.GetRpcClientByEndpoint(endpoint);
  }

  /** The probes, their scores in whatever order they arrive, and the first after sorting. */
  method ProbeAndSort(rpc: seq<string>, chainId: string, registry: RpcClientRegistry)
    returns (first: ScoredRPC, ghost probes: seq<Probe>, ghost k: nat)
    requires rpc != []
    modifies registry
    ensures AllCached(registry.clients, rpc, probes) && Grown(old(registry.clients), registry.clients)
    ensures k < |rpc| && first == Score(rpc[k], chainId, probes[k])
    ensures first.err.Some? <==> forall j :: 0 <= j < |probes| ==> !Alive(chainId, probes[j])
    ensures first.err.None? ==> Best(chainId, probes, k)
  {
    var channel;
    channel, probes := ProbeAll(rpc, chainId, registry);
    var scores := Receive(channel, |rpc|);
    HealthierIsStrict();
    var sorted := SortSlice(scores, Healthier);
    k := FirstDecides(sorted, rpc, chainId, probes);
    first := sorted[0];
  }

  /** MAIN. Whatever the nodes answer and in whatever order, the call fails exactly when no node gave
      a status of this chain; otherwise the endpoint chosen is in the list, its node gave a status of
      this chain, no such node saw a higher block, and the client is the cached one that its
      probe used, so that the second look-up never fails. The error of a failed call is that
      of some probe. `k` is the probe that decides. */
  method GetMostHealthyRpc(rpc: seq<string>, chainId: string, registry: RpcClientRegistry)
    returns (r: Outcome, ghost probes: seq<Probe>, ghost k: nat)
    modifies registry
    ensures forall key :: key in old(registry.clients) ==>
              key in registry.clients && registry.clients[key] == old(registry.clients)[key]
    ensures r != ClientLost
    ensures r == NoRpcPanic <==> rpc == []
    ensures rpc != [] ==> k < |rpc| == |probes|
    ensures rpc != [] ==> forall i :: 0 <= i < |rpc| ==> (probes[i].client == Err(EmptyEndpoint) <==> rpc[i] == "")
    ensures r.Failed? <==> rpc != [] && forall i :: 0 <= i < |rpc| ==>
              probes[i].client.Err? || probes[i].answer.NoWebsocket? || probes[i].answer.NoStatus?
              || probes[i].answer.network != chainId
    ensures r.Failed? ==> (r.error == ProbePanicked <==> rpc[k] == "")
    ensures r.Failed? ==> (r.error == NoClient <==> probes[k].client == Err(CreationFailed))
    ensures r.Failed? ==> (r.error == WebsocketIsNil <==> probes[k].client.Ok? && probes[k].answer == NoWebsocket)
    ensures r.Failed? ==> (r.error == StatusFailed <==> probes[k].client.Ok? && probes[k].answer == NoStatus)
    ensures r.Failed? ==>
              (r.error == NetworkMismatch
               <==> probes[k].client.Ok? && probes[k].answer.Status? && probes[k].answer.network != chainId)
    ensures r.Healthiest? ==>
              && probes[k].client == Ok(r.client) && probes[k].answer.Status? && probes[k].answer.network == chainId
              && r.endpoint == rpc[k] && r.time == probes[k].answer.latestBlockTime
              && Key(r.endpoint) in registry.clients && registry.clients[Key(r.endpoint)] == r.client
    ensures r.Healthiest? ==> forall j :: 0 <= j < |rpc| ==>
              probes[j].client.Ok? && probes[j].answer.Status? && probes[j].answer.network == chainId ==>
              probes[j].answer.latestBlockHeight <= probes[k].answer.latestBlockHeight
  {
    if |rpc| == 0 {
      return NoRpcPanic, [], 0;
    }
    var first;
    first, probes, k := ProbeAndSort(rpc, chainId, registry);
    ErrorMeans(rpc[k], chainId, probes[k], first);
    AliveMeans(chainId, probes);
    if first.err.Some? {
      return Failed(first.err.value), probes, k;
    }
    ghost var cached := registry.clients;
    var client := LookUpAgain(first.endpoint, registry, probes[k]);
    AllCachedStays(cached, registry.clients, rpc, probes);
    if client.Err? {
      return ClientLost, probes, k;
    }
    r := Healthiest(client.value, first.endpoint, first.latestBlockTime);
  }
}
