# wizbal load balancer: backend registry and director, in Dafny

wizbal is a small HTTP reverse proxy. For each request it derives a service name from the
Host header, resolves it with a DNS SRV query to candidate backends, probes each candidate
with an HTTP HEAD request, caches the alive ones as a pool for ten seconds, and sends the
request to a randomly picked backend of that pool. Without a backend, the transport fails
the request with `ENoBackend`.

This project models that core:

- `registry.dfy`, module `Registry` (lb/registry.go):
  - backends, SRV answers, probe outcomes and pools as datatypes;
  - the liveness rule `Alive`, the freshness rule `Fresh`, and `RandomBackend`;
  - the registry as a class with a mutable `pools` map. `GetPool` is proved equal to
    `PoolFor` and `PoolsAfter`, `ResolvPool` to `Refresh`, and `GetBackend` to
    `BackendFor`. The lemmas are about these pure functions.
- `proxy.dfy`, module `Proxy` (lb/proxy.go):
  - the service-name derivation and the `host:port` rendering;
  - the director, as a method that rewrites a request's URL object in place;
  - the transport's empty-host guard.
- `text.dfy`, module `Text`, holds the parts of Go's `fmt` and `strings` that the code
  relies on: `%d`, `strings.Split(..)[0]` and `strings.TrimSuffix`. It also holds an
  independent `host:port` parser, used to prove that rendering loses nothing.
- `wrappers.dfy`: `Option` and `Result`.

The environment is passed in as values:

- `now` is the clock read by the freshness check, in the nanoseconds of Go's
  `time.Duration`.
- `stamp` is the later clock read that stamps a new pool, taken after every answer has
  been probed. The methods require `now <= stamp`, since the clock does not run backwards.
- `resolve` gives the SRV answer for a name, either the records in answer order or a
  failure.
- `probe(k)` gives the outcome of the HEAD request for the k-th answer: a response status,
  a stopped redirect (Go returns the redirect response together with the sentinel error),
  or another transport error. Each answer has its own probe, so two answers that name the
  same backend can get different outcomes.
- `intn` stands for `rand.Intn`, assumed to return a value in `[0, n)`.

The class carries a ghost record `probed`: the candidates and outcomes each cached pool was
built from. Its invariant `Valid` says every cached pool holds exactly the alive candidates
of that record.

A pool exactly ten seconds old is stale: the check is `age < 10s` (lb/registry.go:65).
Selection ignores SRV priority and weight.

One deliberate change: on a failed DNS lookup the code calls `log.Fatalf` and the process
exits. The model returns `Err(ResolutionError)` and leaves the cache unchanged. The director
treats that error like "no backend".

## Model

| member | source | states |
|---|---|---|
| Registry.Url | lb/registry.go:33-35 | the probe address of a backend, `http://host:port`; what it holds is proved in `UrlRoundTrip` |
| Registry.UrlRoundTrip | lb/registry.go:33-35 | `url()` renders `http://host:port` with the port in decimal; reading it back gives the same backend, whatever the host holds |
| Text.DecimalRoundTrip | lb/registry.go:16 | the `%d` rendering of a port is a digit string whose value is the port |
| Text.Decimal | lb/proxy.go:67 | `%d` writes a non-empty digit string with no leading zero |
| Registry.Alive | lb/registry.go:37-56 | the liveness rule on a probe outcome; its meaning is stated in `AliveByStatusClass` |
| Registry.AliveByStatusClass | lb/registry.go:37-56 | a response is dead exactly when its status is in the 5xx class; a redirect stopped by the sentinel goes on to the same status check; any other transport error is dead |
| Registry.Fresh | lb/registry.go:64-66 | the freshness rule `now - time < 10s`; its window is stated in `FreshWindow` |
| Registry.FreshWindow | lb/registry.go:64-66 | a pool is fresh iff `now - stamp < 10s`; a pool exactly 10s old is stale; once stale it stays stale |
| Registry.RandomBackend | lb/registry.go:68-82 | none on an empty pool, the only element on a one-element pool, the element at the drawn index otherwise; any result is a member of the pool |
| Registry.EveryBackendSelectable | lb/registry.go:79-80 | every backend of the pool is the pick for some draw in `[0, n)`, so a uniform draw reaches each one |
| Registry.Candidates | lb/registry.go:119-126 | the k-th answer's backend paired with the k-th probe outcome; `CandidatesExtend` states how it grows |
| Registry.AliveOf | lb/registry.go:119-126 | the filter keeps at most one backend per candidate |
| Registry.AliveOfMembers | lb/registry.go:119-126 | a backend is in the new pool iff some answer for it was probed alive |
| Registry.AliveOfAppend | lb/registry.go:119-126 | filtering distributes over concatenation, so the pool keeps the answers' order |
| Registry.AliveOfLength | lb/registry.go:119-126 | the pool has at most one backend per answer, and exactly one per answer iff every probe said alive |
| Registry.CandidatesExtend | lb/registry.go:120-123 | probing one more answer adds its candidate at the end of the candidate list |
| Registry.KeptAnswersProbedAlive | lb/registry.go:119-126 | every backend the loop keeps is named by an answer whose own probe said alive |
| Registry.DuplicateAnswersProbedApart | lb/registry.go:119-126 | two answers naming one backend are probed separately; when only the first is alive, the backend is kept once |
| Registry.CachedBackendsPassedProbe | lb/registry.go:123-132 | under the registry invariant, every cached backend had an alive probe outcome |
| Registry.Registry.constructor | lb/registry.go:85-94 | `NewRegistry` starts with an empty map |
| Registry.Refresh | lb/registry.go:113-131 | a resolution error exactly when the lookup fails; otherwise a pool stamped with the clock read after the probes, with at most one backend per answer, each named by an answer whose probe said alive |
| Registry.PoolFor | lb/registry.go:101-111 | the result of `getPool`: an error only when the lookup failed; otherwise the cached pool or one stamped after the probes, so, with a clock that does not run backwards, never a stale pool |
| Registry.PoolsAfter | lb/registry.go:101-111 | the cache after `getPool`: `name` is added exactly when a pool was obtained and then holds that pool; every other service's entry is unchanged |
| Registry.BackendFor | lb/registry.go:136-138 | the result of `getBackend`, a random member of the pool `PoolFor` gives; its properties are stated in `BackendForIsPoolMember` and `SelectedBackendPassedProbe` |
| Registry.FirstLookupResolves | lb/registry.go:92-110 | on the empty map, the first lookup of any service resolves it |
| Registry.FreshHitKeepsCache | lb/registry.go:101-107 | a present, fresh entry is returned and the map is unchanged, with no resolution or probe |
| Registry.MissRebuildsEntry | lb/registry.go:108-133 | on a missing or stale entry, the entry becomes a pool holding the alive answers, stamped with the clock read after the probes and so fresh when the lookup began; that pool is the result; other services' entries are unchanged |
| Registry.LookupFailureKeepsCache | lb/registry.go:113-117 | a failed lookup yields `ResolutionError` and leaves the map unchanged |
| Registry.WarmAfterLookup | lb/registry.go:101-110 | a second lookup within the pool's ten seconds returns the same pool and changes nothing, whatever DNS and the probes would now say |
| Registry.ExpiredEntryResolves | lb/registry.go:105-110 | once the cached pool is ten seconds old, the lookup resolves again |
| Registry.PoolForIsCached | lb/registry.go:128-133 | the pool `getPool` returns is the entry the map holds for that name afterwards |
| Registry.ConsistencyPreserved | lb/registry.go:119-133 | `getPool` keeps every cached pool equal to the alive part of the candidates it was built from |
| Registry.BackendForIsPoolMember | lb/registry.go:136-138 | `getBackend` returns a member of the pool `getPool` gives; it fails with no-backend iff that pool is empty, and with a resolution error iff the lookup failed |
| Registry.SelectedBackendPassedProbe | lb/registry.go:123-138 | `getBackend` never returns a backend whose probe failed |
| Registry.AllDeadMeansNoBackend | lb/registry.go:119-138 | zero answers, or answers that all fail their probes, give the no-backend error |
| Registry.ThreeCandidatesScenario | lb/registry.go:119-138 | with answers h1:80, h2:80, h3:80 whose probes give 200, 503 and 200, the pick is h1:80 or h3:80 |
| Registry.Registry.GetPool | lb/registry.go:101-111 | the method's result and new map are those of `PoolFor` and `PoolsAfter`; the invariant is kept |
| Registry.Registry.ResolvPool | lb/registry.go:113-134 | the loop probes every answer in order, each with its own request, and keeps the alive ones; the map entry for `name` becomes the new pool, stamped with the clock read after the loop, and nothing else changes |
| Registry.Registry.GetBackend | lb/registry.go:136-138 | the method's result is `BackendFor`; a returned backend has an alive probe outcome in the record of the pool it came from |
| Text.FirstField | lb/proxy.go:60 | `strings.Split(host, ":")[0]` is the longest prefix of the host without a colon; it ends at the first colon or at the end of the host |
| Text.FirstFieldBefore | lb/proxy.go:60 | a colon-free host, with or without `:port` after it, has itself as first field |
| Text.TrimSuffix | lb/proxy.go:61 | when `hostStrip` is a suffix, the result followed by `hostStrip` is the original; otherwise the string is unchanged |
| Text.TrimSuffixOnce | lb/proxy.go:61 | only one occurrence of the suffix is removed |
| Text.HostPortRoundTrip | lb/proxy.go:67 | `%s:%d` text parses back to the same host and port |
| Proxy.ServiceName | lb/proxy.go:60-63 | the service a Host header names; its properties are stated in `ServiceNameOf`, `ServiceNameIgnoresPort` and `ServiceNameUnstripped` |
| Proxy.ServiceNameOf | lb/proxy.go:60-63 | `prefix + hostStrip`, with or without a port, names `prefix.domainAdd` |
| Proxy.ServiceNameIgnoresPort | lb/proxy.go:60-63 | the Host header's port does not affect the service name |
| Proxy.ServiceNameUnstripped | lb/proxy.go:61-63 | a host not ending in `hostStrip` keeps its whole first field before `.domainAdd` |
| Proxy.DefaultServiceName | wizbal.go:11-12 | with the default flags, `foo.app.example.com:8080` names `foo.srv.example.com` |
| Proxy.HostPort | lb/proxy.go:67 | the `host:port` text written for a backend; `HostPortNamesBackend` states that it loses nothing |
| Proxy.DirectedHost | lb/proxy.go:66-70 | the URL host the director writes: the backend's `host:port`, or empty without one; used by `RefusedExactlyWithoutBackend` |
| Proxy.HostPortNamesBackend | lb/proxy.go:67 | the URL host written for a backend reads back as that backend's host and port |
| Proxy.HostPortIsProbedAddress | lb/proxy.go:67 | the request goes to the same `host:port` that the liveness probe used |
| Proxy.RoundTrip | lb/proxy.go:19-25 | an empty URL host gives `ENoBackend` and nothing is forwarded; any other host is forwarded unchanged |
| Proxy.RefusedExactlyWithoutBackend | lb/proxy.go:65-70 | after the director, the transport refuses exactly when the registry had no backend; otherwise it forwards to that backend's `host:port` |
| Proxy.Proxy.New | lb/proxy.go:35-48 | a proxy with the given strip suffix and domain over a fresh, empty registry |
| Proxy.Proxy.Director | lb/proxy.go:58-71 | the scheme becomes `http`; the URL host becomes the chosen backend's `host:port`, or empty without one; the registry changes as `getPool` prescribes for the derived service name |

## Left out

- The DNS query itself and the type assertion of each answer to an SRV record: answers come in as `(target, port)` records or a lookup failure.
- The `log.Fatalf` on a failed lookup: the model returns a resolution error instead, and the cache is unchanged.
- The HTTP HEAD request, closing the body and the client's redirect hook: only the classification of the outcome is modelled.
- `time.Now()` and `rand.Intn`: they are parameters, with one parameter for each of the two clock reads. Go's `time.Sub` saturation at the limits of `int64` is not modelled, since the clock is an unbounded integer.
- Selection fairness is probabilistic. The model proves only that every backend is reachable by some draw (`EveryBackendSelectable`); it cannot state equal probability.
- All `log.Printf` calls.
- Concurrency: the source has no locking, single-flight or atomic publication. Every call is modelled as one sequential step.
- `ListenAndServe`, the `httputil.ReverseProxy` wiring and the forwarding by the embedded `http.Transport`: `RoundTrip` only says whether the request is forwarded and to which host.
- The listen address and flag parsing in wizbal.go. Only the defaults of `-host` and `-domain` are used, in `DefaultServiceName`.
- Proxy.Director: the request URL is modelled by its scheme, host and path only. The other `url.URL` fields are not modelled.
