/**
 The backend registry of the load balancer: for a service name it keeps a pool of the
 backends that answered a liveness probe, reuses that pool while it is younger than the
 cache time, and otherwise resolves the service's SRV records again, probes every target
 and publishes the new pool. One backend of the pool is then picked at random.

 The environment is passed in: `now` is the monotonic clock in nanoseconds when the
 lookup starts and `stamp` the clock read after the probes, `resolve` answers the SRV
 query for a name, `probe(k)` gives the outcome of the HEAD request for the k-th answer,
 and `intn` is `math/rand.Intn`.
 */
module Registry {
  import opened Wrappers
  import opened Text

  type Service = string

  /** A TCP port, Go's `uint16`. */
  type Port = n: int | 0 <= n < 0x1_0000

  /** One second, in the nanoseconds of Go's `time.Duration`. */
  const SECOND: int := 1_000_000_000
  const CACHE_TIME: int := 10 * SECOND
  const SERVER_ERROR_START: int := 500
  const SERVER_ERROR_END: int := 599

  datatype Backend = Backend(host: string, port: Port)

  /** The target and port of one SRV answer record. */
  datatype Srv = Srv(target: string, port: Port)

  /** What the SRV lookup gives: the answer records in response order, or a failure. */
  datatype Answer = Answered(records: seq<Srv>) | LookupFailed

  /**
   How the HEAD request to a backend ended: a response with its status; a redirect that
   the client's redirect hook stopped with the sentinel error, which still comes with the
   redirect response and its status; or any other transport error.
   */
  datatype Outcome = Response(status: int) | RedirectStopped(status: int) | TransportFailure

  /** A candidate backend together with the outcome of its probe. */
  datatype Probe = Probe(backend: Backend, outcome: Outcome)

  /** The alive backends of one service and the time they were resolved. */
  datatype Pool = Pool(time: int, backends: seq<Backend>)

  datatype Error = ResolutionError | NoBackendError

  /** `backend.url`: the probe address `http://host:port`. */
  function Url(b: Backend): string
  {
    "http://" + b.host + ":" + Decimal(b.port)
  }

  /** Reads a probe address back into the backend it names. */
  function ParseUrl(u: string): Option<Backend>
  {
    if |u| >= 7 && u[..7] == "http://" then
      match ParseHostPort(u[7..])
      case Some((host, n)) => if n < 0x1_0000 then Some(Backend(host, n)) else None
      case None => None
    else None
  }

  lemma UrlRoundTrip(b: Backend)
    ensures ParseUrl(Url(b)) == Some(b)
  {
    var u := Url(b);
    assert u[7..] == b.host + ":" + Decimal(b.port);
    HostPortRoundTrip(b.host, b.port);
  }

  /** `backend.alive`, on the outcome of its probe. */
  predicate Alive(o: Outcome)
  {
    match o
    case TransportFailure => false
    case Response(status) => !(SERVER_ERROR_START <= status <= SERVER_ERROR_END)
    case RedirectStopped(status) => !(SERVER_ERROR_START <= status <= SERVER_ERROR_END)
  }

  /**
   For a three-digit status, a backend is dead exactly when the status is in the 5xx
   class; a stopped redirect is judged by its status like any response; a transport
   error is dead.
   */
  lemma AliveByStatusClass(status: int)
    requires 100 <= status <= 999
    ensures Alive(Response(status)) <==> status / 100 != 5
    ensures Alive(RedirectStopped(status)) == Alive(Response(status))
    ensures !Alive(TransportFailure)
  {
  }

  /** `pool.fresh`: younger than the cache time, strictly. */
  predicate Fresh(p: Pool, now: int)
  {
    now - p.time < CACHE_TIME
  }

  /** A pool is fresh for the ten seconds after it was stamped, and stale from then on. */
  lemma FreshWindow(p: Pool, now: int, later: int)
    ensures Fresh(p, now) <==> now < p.time + 10 * SECOND
    ensures !Fresh(p, p.time + 10 * SECOND)
    ensures !Fresh(p, now) && now <= later ==> !Fresh(p, later)
  {
  }

  /** `pool.randomBackend`, with the value `rand.Intn(n)` would draw given as `draw`. */
  function RandomBackend(p: Pool, draw: nat): (r: Option<Backend>)
    requires |p.backends| >= 2 ==> draw < |p.backends|
    ensures r.None? <==> |p.backends| == 0
    ensures r.Some? ==> r.value in p.backends
    ensures |p.backends| == 1 ==> r == Some(p.backends[0])
    ensures |p.backends| >= 2 ==> r == Some(p.backends[draw])
  {
    match |p.backends|
    case 0 => None
    case 1 => Some(p.backends[0])
    case _ => Some(p.backends[draw])
  }

  /** Every backend of a pool is the pick for some draw, so a uniform draw picks each alike. */
  lemma EveryBackendSelectable(p: Pool, k: nat)
    requires k < |p.backends|
    ensures RandomBackend(p, k) == Some(p.backends[k])
  {
  }

  /** What `rand.Intn` is assumed to give: a value in `[0, n)` for every positive `n`. */
  ghost predicate DrawsBelow(intn: nat -> nat)
  {
    forall n: nat :: 0 < n ==> intn(n) < n
  }

  function BackendOf(rr: Srv): Backend
  {
    Backend(rr.target, rr.port)
  }

  /**
   The backends named by the answer records, each with the outcome of its own probe: the
   k-th answer is probed by the k-th request, so two answers naming one backend may differ.
   */
  function Candidates(records: seq<Srv>, probe: nat -> Outcome): seq<Probe>
  {
    seq(|records|, k requires 0 <= k < |records| => Probe(BackendOf(records[k]), probe(k)))
  }

  /** Probing one more answer adds its candidate at the end. */
  lemma CandidatesExtend(records: seq<Srv>, i: nat, probe: nat -> Outcome)
    requires i < |records|
    ensures Candidates(records[..i + 1], probe) ==
            Candidates(records[..i], probe) + [Probe(BackendOf(records[i]), probe(i))]
  {
    var longer, shorter := Candidates(records[..i + 1], probe), Candidates(records[..i], probe);
    forall k | 0 <= k < i
      ensures longer[k] == shorter[k]
    {
      assert records[..i + 1][k] == records[..i][k];
    }
  }

  /** The backends of the candidates whose probe says alive, in candidate order. */
  function AliveOf(cs: seq<Probe>): (r: seq<Backend>)
    ensures |r| <= |cs|
  {
    if cs == [] then []
    else AliveOf(cs[..|cs| - 1]) + (if Alive(cs[|cs| - 1].outcome) then [cs[|cs| - 1].backend] else [])
  }

  /** A backend is kept exactly when some candidate with that backend was probed alive. */
  lemma {:induction false} AliveOfMembers(cs: seq<Probe>, b: Backend)
    ensures b in AliveOf(cs) <==> exists k :: 0 <= k < |cs| && cs[k].backend == b && Alive(cs[k].outcome)
  {
    if cs != [] {
      var init := cs[..|cs| - 1];
      AliveOfMembers(init, b);
      if b in AliveOf(init) {
        var k :| 0 <= k < |init| && init[k].backend == b && Alive(init[k].outcome);
        assert cs[k] == init[k];
      }
      if exists k :: 0 <= k < |cs| && cs[k].backend == b && Alive(cs[k].outcome) {
        var k :| 0 <= k < |cs| && cs[k].backend == b && Alive(cs[k].outcome);
        if k < |init| {
          assert init[k] == cs[k];
        }
      }
    }
  }

  /** Filtering distributes over concatenation: the survivors keep the order of the answers. */
  lemma {:induction false} AliveOfAppend(cs: seq<Probe>, ds: seq<Probe>)
    ensures AliveOf(cs + ds) == AliveOf(cs) + AliveOf(ds)
  {
    if ds == [] {
      assert cs + ds == cs;
    } else {
      var ds' := ds[..|ds| - 1];
      AliveOfAppend(cs, ds');
      assert (cs + ds)[..|cs + ds| - 1] == cs + ds';
    }
  }

  /** At most one backend per candidate, exactly one each when every probe said alive. */
  lemma {:induction false} AliveOfLength(cs: seq<Probe>)
    ensures |AliveOf(cs)| <= |cs|
    ensures |AliveOf(cs)| == |cs| <==> forall k :: 0 <= k < |cs| ==> Alive(cs[k].outcome)
  {
    if cs != [] {
      var init := cs[..|cs| - 1];
      AliveOfLength(init);
      if forall k :: 0 <= k < |cs| ==> Alive(cs[k].outcome) {
        assert forall k :: 0 <= k < |init| ==> init[k] == cs[k];
      }
    }
  }

  /** Each backend kept from the answers is named by an answer whose own probe said alive. */
  lemma KeptAnswersProbedAlive(records: seq<Srv>, probe: nat -> Outcome)
    ensures forall i :: 0 <= i < |AliveOf(Candidates(records, probe))| ==>
              exists k: nat :: k < |records| && BackendOf(records[k]) == AliveOf(Candidates(records, probe))[i] &&
                               Alive(probe(k))
  {
    var cs := Candidates(records, probe);
    var kept := AliveOf(cs);
    forall i | 0 <= i < |kept|
      ensures exists k: nat :: k < |records| && BackendOf(records[k]) == kept[i] && Alive(probe(k))
    {
      AliveOfMembers(cs, kept[i]);
      var k :| 0 <= k < |cs| && cs[k].backend == kept[i] && Alive(cs[k].outcome);
      assert cs[k] == Probe(BackendOf(records[k]), probe(k));
    }
    assert kept == AliveOf(Candidates(records, probe));
    assert forall i :: 0 <= i < |kept| ==>
              exists k: nat :: k < |records| && BackendOf(records[k]) == kept[i] && Alive(probe(k));
  }

  /** Every cached pool holds exactly the alive backends of the candidates it was built from. */
  ghost predicate Consistent(pools: map<Service, Pool>, probed: map<Service, seq<Probe>>)
  {
    pools.Keys == probed.Keys && forall s :: s in pools ==> pools[s].backends == AliveOf(probed[s])
  }

  /** So no backend in the cache ever failed its probe. */
  lemma CachedBackendsPassedProbe(pools: map<Service, Pool>, probed: map<Service, seq<Probe>>, s: Service, b: Backend)
    requires Consistent(pools, probed) && s in pools && b in pools[s].backends
    ensures s in probed
    ensures exists k :: 0 <= k < |probed[s]| && probed[s][k].backend == b && Alive(probed[s][k].outcome)
  {
    AliveOfMembers(probed[s], b);
  }

  /** The cached pool of `name` when there is one and it is still fresh. */
  function Cached(pools: map<Service, Pool>, name: Service, now: int): Option<Pool>
  {
    if name in pools && Fresh(pools[name], now) then Some(pools[name]) else None
  }

  /** `registry.resolvPool` without its store: the new pool for `name`, stamped with the clock read after the probes. */
  function Refresh(name: Service, stamp: int, resolve: Service -> Answer, probe: nat -> Outcome): (r: Result<Pool, Error>)
    ensures r.Err? <==> resolve(name).LookupFailed?
    ensures r.Err? ==> r.error == ResolutionError
    ensures r.Ok? ==> r.value.time == stamp && |r.value.backends| <= |resolve(name).records|
    ensures r.Ok? ==> forall i :: 0 <= i < |r.value.backends| ==>
              exists k: nat :: k < |resolve(name).records| &&
                               BackendOf(resolve(name).records[k]) == r.value.backends[i] && Alive(probe(k))
  {
    match resolve(name)
    case LookupFailed => Err(ResolutionError)
    case Answered(records) =>
      var kept := AliveOf(Candidates(records, probe));
      KeptAnswersProbedAlive(records, probe);
      assert forall i :: 0 <= i < |kept| ==>
               exists k: nat :: k < |records| && BackendOf(records[k]) == kept[i] && Alive(probe(k));
      Ok(Pool(stamp, kept))
  }

  /** The pool `registry.getPool` returns. */
  function PoolFor(pools: map<Service, Pool>, name: Service, now: int, stamp: int,
                   resolve: Service -> Answer, probe: nat -> Outcome): (r: Result<Pool, Error>)
    ensures r.Err? ==> r.error == ResolutionError && resolve(name).LookupFailed?
    ensures r.Ok? ==> (name in pools && r.value == pools[name]) || r.value.time == stamp
    ensures r.Ok? && now <= stamp ==> Fresh(r.value, now)
  {
    match Cached(pools, name, now)
    case Some(p) => Ok(p)
    case None => Refresh(name, stamp, resolve, probe)
  }

  /** The cache after `registry.getPool`. */
  function PoolsAfter(pools: map<Service, Pool>, name: Service, now: int, stamp: int,
                      resolve: Service -> Answer, probe: nat -> Outcome): (r: map<Service, Pool>)
    ensures r.Keys == if PoolFor(pools, name, now, stamp, resolve, probe).Ok? then pools.Keys + {name} else pools.Keys
    ensures PoolFor(pools, name, now, stamp, resolve, probe).Ok? ==> r[name] == PoolFor(pools, name, now, stamp, resolve, probe).value
    ensures forall s :: s in pools && s != name ==> r[s] == pools[s]
  {
    if Cached(pools, name, now).Some? then pools
    else match Refresh(name, stamp, resolve, probe)
      case Ok(p) => pools[name := p]
      case Err(_) => pools
  }

  /** The record of probed candidates after `registry.getPool`. */
  ghost function ProbedAfter(pools: map<Service, Pool>, probed: map<Service, seq<Probe>>, name: Service, now: int, stamp: int,
                             resolve: Service -> Answer, probe: nat -> Outcome): map<Service, seq<Probe>>
  {
    if Cached(pools, name, now).Some? then probed
    else match resolve(name)
      case LookupFailed => probed
      case Answered(records) => probed[name := Candidates(records, probe)]
  }

  /** The result of `registry.getBackend`. */
  function BackendFor(pools: map<Service, Pool>, name: Service, now: int, stamp: int,
                      resolve: Service -> Answer, probe: nat -> Outcome, intn: nat -> nat): Result<Backend, Error>
    requires DrawsBelow(intn)
  {
    match PoolFor(pools, name, now, stamp, resolve, probe)
    case Err(e) => Err(e)
    case Ok(p) =>
      var n := |p.backends|;
      match RandomBackend(p, if n >= 2 then intn(n) else 0)
      case None => Err(NoBackendError)
      case Some(b) => Ok(b)
  }

  /** A fresh hit returns the cached pool and changes nothing, without any lookup or probe. */
  lemma FreshHitKeepsCache(pools: map<Service, Pool>, name: Service, now: int, stamp: int,
                           resolve: Service -> Answer, probe: nat -> Outcome,
                           stamp': int, resolve': Service -> Answer, probe': nat -> Outcome)
    requires name in pools && Fresh(pools[name], now)
    ensures PoolFor(pools, name, now, stamp, resolve, probe) == Ok(pools[name])
    ensures PoolsAfter(pools, name, now, stamp, resolve, probe) == pools
    ensures PoolFor(pools, name, now, stamp', resolve', probe') == PoolFor(pools, name, now, stamp, resolve, probe)
  {
  }

  /**
   A missing or stale entry is replaced by a pool stamped with the clock read after the
   probes, holding the alive answers in answer order, and that pool is the result; no other
   service's entry changes. As the clock does not run backwards, the new pool is fresh at
   the instant the lookup began.
   */
  lemma MissRebuildsEntry(pools: map<Service, Pool>, name: Service, now: int, stamp: int,
                          resolve: Service -> Answer, probe: nat -> Outcome, other: Service)
    requires name !in pools || !Fresh(pools[name], now)
    requires resolve(name).Answered?
    ensures var p := Pool(stamp, AliveOf(Candidates(resolve(name).records, probe)));
            PoolFor(pools, name, now, stamp, resolve, probe) == Ok(p) &&
            PoolsAfter(pools, name, now, stamp, resolve, probe) == pools[name := p]
    ensures now <= stamp ==> Fresh(Pool(stamp, AliveOf(Candidates(resolve(name).records, probe))), now)
    ensures other != name ==>
              (other in PoolsAfter(pools, name, now, stamp, resolve, probe) <==> other in pools) &&
              (other in pools ==> PoolsAfter(pools, name, now, stamp, resolve, probe)[other] == pools[other])
  {
  }

  /** A failed lookup is an error result and leaves the cache as it was. */
  lemma LookupFailureKeepsCache(pools: map<Service, Pool>, name: Service, now: int, stamp: int,
                                resolve: Service -> Answer, probe: nat -> Outcome)
    requires name !in pools || !Fresh(pools[name], now)
    requires resolve(name).LookupFailed?
    ensures PoolFor(pools, name, now, stamp, resolve, probe) == Err(ResolutionError)
    ensures PoolsAfter(pools, name, now, stamp, resolve, probe) == pools
  {
  }

  /** The registry starts empty, so the first lookup of any service resolves it. */
  lemma FirstLookupResolves(name: Service, now: int, stamp: int, resolve: Service -> Answer, probe: nat -> Outcome)
    ensures PoolFor(map[], name, now, stamp, resolve, probe) == Refresh(name, stamp, resolve, probe)
  {
  }

  /**
   After a lookup, any later lookup of the same service within the pool's ten seconds
   gets the same pool and changes nothing, whatever DNS and the probes would now say.
   */
  lemma WarmAfterLookup(pools: map<Service, Pool>, name: Service, now: int, stamp: int, later: int,
                        resolve: Service -> Answer, probe: nat -> Outcome,
                        stamp': int, resolve': Service -> Answer, probe': nat -> Outcome)
    requires PoolFor(pools, name, now, stamp, resolve, probe).Ok?
    requires now <= later < PoolFor(pools, name, now, stamp, resolve, probe).value.time + CACHE_TIME
    ensures var pools' := PoolsAfter(pools, name, now, stamp, resolve, probe);
            PoolFor(pools', name, later, stamp', resolve', probe') == PoolFor(pools, name, now, stamp, resolve, probe) &&
            PoolsAfter(pools', name, later, stamp', resolve', probe') == pools'
  {
  }

  /** Once the cached pool is ten seconds old the next lookup resolves again. */
  lemma ExpiredEntryResolves(pools: map<Service, Pool>, name: Service, now: int, stamp: int,
                             resolve: Service -> Answer, probe: nat -> Outcome)
    requires name in pools && now >= pools[name].time + CACHE_TIME
    ensures PoolFor(pools, name, now, stamp, resolve, probe) == Refresh(name, stamp, resolve, probe)
  {
  }

  /** The pool `getPool` returns is the one the cache holds for `name` afterwards. */
  lemma PoolForIsCached(pools: map<Service, Pool>, name: Service, now: int, stamp: int,
                        resolve: Service -> Answer, probe: nat -> Outcome)
    requires PoolFor(pools, name, now, stamp, resolve, probe).Ok?
    ensures name in PoolsAfter(pools, name, now, stamp, resolve, probe)
    ensures PoolsAfter(pools, name, now, stamp, resolve, probe)[name] == PoolFor(pools, name, now, stamp, resolve, probe).value
  {
  }

  /** `getPool` keeps every cached pool equal to the alive part of its probed candidates. */
  lemma ConsistencyPreserved(pools: map<Service, Pool>, probed: map<Service, seq<Probe>>, name: Service, now: int, stamp: int,
                             resolve: Service -> Answer, probe: nat -> Outcome)
    requires Consistent(pools, probed)
    ensures Consistent(PoolsAfter(pools, name, now, stamp, resolve, probe),
                       ProbedAfter(pools, probed, name, now, stamp, resolve, probe))
  {
  }

  /** `getBackend` returns a member of the pool it used, and an error exactly when there is none. */
  lemma BackendForIsPoolMember(pools: map<Service, Pool>, name: Service, now: int, stamp: int,
                               resolve: Service -> Answer, probe: nat -> Outcome, intn: nat -> nat)
    requires DrawsBelow(intn)
    ensures var r := BackendFor(pools, name, now, stamp, resolve, probe, intn);
            var pr := PoolFor(pools, name, now, stamp, resolve, probe);
            (r.Ok? ==> pr.Ok? && r.value in pr.value.backends) &&
            (r == Err(NoBackendError) <==> pr.Ok? && pr.value.backends == []) &&
            (r == Err(ResolutionError) <==> pr == Err(ResolutionError))
  {
  }

  /** `getBackend` never returns a backend whose probe failed. */
  lemma SelectedBackendPassedProbe(pools: map<Service, Pool>, probed: map<Service, seq<Probe>>, name: Service, now: int, stamp: int,
                                   resolve: Service -> Answer, probe: nat -> Outcome, intn: nat -> nat)
    requires Consistent(pools, probed) && DrawsBelow(intn)
    requires BackendFor(pools, name, now, stamp, resolve, probe, intn).Ok?
    ensures var probed' := ProbedAfter(pools, probed, name, now, stamp, resolve, probe);
            var b := BackendFor(pools, name, now, stamp, resolve, probe, intn).value;
            name in probed' &&
            exists k :: 0 <= k < |probed'[name]| && probed'[name][k].backend == b && Alive(probed'[name][k].outcome)
  {
    var pools' := PoolsAfter(pools, name, now, stamp, resolve, probe);
    var probed' := ProbedAfter(pools, probed, name, now, stamp, resolve, probe);
    BackendForIsPoolMember(pools, name, now, stamp, resolve, probe, intn);
    PoolForIsCached(pools, name, now, stamp, resolve, probe);
    ConsistencyPreserved(pools, probed, name, now, stamp, resolve, probe);
    CachedBackendsPassedProbe(pools', probed', name, BackendFor(pools, name, now, stamp, resolve, probe, intn).value);
  }

  /**
   A service whose lookup gives no records, or only records whose probes fail, yields
   the no-backend error on a cold or stale cache.
   */
  lemma AllDeadMeansNoBackend(pools: map<Service, Pool>, name: Service, now: int, stamp: int,
                              resolve: Service -> Answer, probe: nat -> Outcome, intn: nat -> nat)
    requires DrawsBelow(intn)
    requires name !in pools || !Fresh(pools[name], now)
    requires resolve(name).Answered?
    requires forall k :: 0 <= k < |resolve(name).records| ==> !Alive(probe(k))
    ensures BackendFor(pools, name, now, stamp, resolve, probe, intn) == Err(NoBackendError)
  {
  }

  /**
   Three candidates h1:80, h2:80, h3:80 of which h2 answers 503 and the others 200: the
   pick on a cold or stale cache is h1:80 or h3:80, and never h2:80.
   */
  lemma ThreeCandidatesScenario(pools: map<Service, Pool>, name: Service, now: int, stamp: int,
                                resolve: Service -> Answer, probe: nat -> Outcome, intn: nat -> nat)
    requires DrawsBelow(intn)
    requires name !in pools || !Fresh(pools[name], now)
    requires resolve(name) == Answered([Srv("h1", 80), Srv("h2", 80), Srv("h3", 80)])
    requires probe(0) == Response(200) && probe(1) == Response(503) && probe(2) == Response(200)
    ensures BackendFor(pools, name, now, stamp, resolve, probe, intn) in {Ok(Backend("h1", 80)), Ok(Backend("h3", 80))}
  {
    var cs := Candidates(resolve(name).records, probe);
    var c1, c2, c3 := Probe(Backend("h1", 80), Response(200)), Probe(Backend("h2", 80), Response(503)),
                      Probe(Backend("h3", 80), Response(200));
    var rs := resolve(name).records;
    assert BackendOf(rs[0]) == c1.backend && BackendOf(rs[1]) == c2.backend && BackendOf(rs[2]) == c3.backend;
    assert cs[0] == c1 && cs[1] == c2 && cs[2] == c3;
    assert cs == [c1] + [c2] + [c3];
    AliveOfAppend([c1] + [c2], [c3]);
    AliveOfAppend([c1], [c2]);
    assert AliveOf(cs) == [Backend("h1", 80), Backend("h3", 80)];
  }

  /**
   Two answers naming the same backend are probed separately: when the first probe says
   alive and the second does not, the backend is kept once.
   */
  lemma DuplicateAnswersProbedApart(rr: Srv, probe: nat -> Outcome)
    requires Alive(probe(0)) && !Alive(probe(1))
    ensures AliveOf(Candidates([rr, rr], probe)) == [BackendOf(rr)]
  {
    var cs := Candidates([rr, rr], probe);
    assert cs == [cs[0]] + [cs[1]];
    AliveOfAppend([cs[0]], [cs[1]]);
  }

  class Registry {
    var pools: map<Service, Pool>
    /** The candidates and probe outcomes each cached pool was built from. */
    ghost var probed: map<Service, seq<Probe>>

    ghost predicate Valid()
      reads this
    {
      Consistent(pools, probed)
    }

    /** `NewRegistry`: an empty cache. */
    constructor ()
      ensures Valid() && pools == map[] && probed == map[]
    {
      pools := map[];
      probed := map[];
    }

    /** `registry.getPool`: the fresh cached pool, or a newly resolved one. */
    method GetPool(name: Service, now: int, stamp: int, resolve: Service -> Answer, probe: nat -> Outcome)
      returns (r: Result<Pool, Error>)
      requires now <= stamp  // the clock read after the probes is not before the lookup began
      requires Valid()
      modifies this
      ensures Valid()
      ensures r == PoolFor(old(pools), name, now, stamp, resolve, probe)
      ensures pools == PoolsAfter(old(pools), name, now, stamp, resolve, probe)
      ensures probed == ProbedAfter(old(pools), old(probed), name, now, stamp, resolve, probe)
    {
      if name in pools {
        var p := pools[name];
        if Fresh(p, now) {
          return Ok(p);
        }
      }
      r := ResolvPool(name, stamp, resolve, probe);
    }

    /** `registry.resolvPool`: look the name up, probe every answer in order, publish the alive ones. */
    method ResolvPool(name: Service, stamp: int, resolve: Service -> Answer, probe: nat -> Outcome)
      returns (r: Result<Pool, Error>)
      requires Valid()
      modifies this
      ensures Valid()
      ensures r == Refresh(name, stamp, resolve, probe)
      ensures r.Ok? ==> pools == old(pools)[name := r.value] &&
                        probed == old(probed)[name := Candidates(resolve(name).records, probe)]
      ensures r.Err? ==> pools == old(pools) && probed == old(probed)
    {
      var answer := resolve(name);
      if answer.LookupFailed? {
        return Err(ResolutionError);
      }
      var records := answer.records;
      var backends: seq<Backend> := [];
      ghost var cands: seq<Probe> := [];
      for i := 0 to |records|
        invariant cands == Candidates(records[..i], probe)
        invariant backends == AliveOf(cands)
        invariant pools == old(pools) && probed == old(probed)
      {
        var b := Backend(records[i].target, records[i].port);
        var outcome := probe(i);
        if Alive(outcome) {
          backends := backends + [b];
        }
        assert (cands + [Probe(b, outcome)])[..|cands|] == cands;
        cands := cands + [Probe(b, outcome)];
        CandidatesExtend(records, i, probe);
      }
      assert records[..|records|] == records;
      var p := Pool(stamp, backends);
      pools := pools[name := p];
      probed := probed[name := cands];
      return Ok(p);
    }

    /** `registry.getBackend`: a random backend of the pool `getPool` gives. */
    method GetBackend(name: Service, now: int, stamp: int, resolve: Service -> Answer, probe: nat -> Outcome, intn: nat -> nat)
      returns (r: Result<Backend, Error>)
      requires now <= stamp  // the clock read after the probes is not before the lookup began
      requires Valid() && DrawsBelow(intn)
      modifies this
      ensures Valid()
      ensures r == BackendFor(old(pools), name, now, stamp, resolve, probe, intn)
      ensures pools == PoolsAfter(old(pools), name, now, stamp, resolve, probe)
      ensures probed == ProbedAfter(old(pools), old(probed), name, now, stamp, resolve, probe)
      ensures r.Ok? ==> name in probed &&
                        exists k :: 0 <= k < |probed[name]| && probed[name][k].backend == r.value &&
                                    Alive(probed[name][k].outcome)
    {
      ghost var pools0, probed0 := pools, probed;
      var pr := GetPool(name, now, stamp, resolve, probe);
      if pr.Err? {
        return Err(pr.error);
      }
      var p := pr.value;
      var n := |p.backends|;
      var draw := if n >= 2 then intn(n) else 0;
      var chosen := RandomBackend(p, draw);
      if chosen.None? {
        return Err(NoBackendError);
      }
      r := Ok(chosen.value);
      SelectedBackendPassedProbe(pools0, probed0, name, now, stamp, resolve, probe, intn);
    }
  }
}
