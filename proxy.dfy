/**
 The reverse-proxy side of the load balancer: the director turns the request's Host
 header into a service name, asks the registry for a backend and points the request's
 URL at it; the transport refuses a request whose URL has no host.
 */
module Proxy {
  import opened Wrappers
  import opened Text
  import Registry

  /** The defaults of the `-host` and `-domain` flags. */
  const HOST_STRIP_DEFAULT: string := ".app.example.com"
  const DOMAIN_ADD_DEFAULT: string := "srv.example.com"

  /**
   The service a Host header names: the part before the first colon, with `hostStrip`
   removed once from its end, then a dot and `domainAdd`.
   */
  function ServiceName(host: string, hostStrip: string, domainAdd: string): Registry.Service
  {
    TrimSuffix(FirstField(host, ':'), hostStrip) + "." + domainAdd
  }

  /** A prefix followed by the stripped suffix, with or without a port, names `prefix.domainAdd`. */
  lemma ServiceNameOf(prefix: string, hostStrip: string, domainAdd: string, port: string)
    requires ':' !in prefix + hostStrip
    ensures ServiceName(prefix + hostStrip, hostStrip, domainAdd) == prefix + "." + domainAdd
    ensures ServiceName(prefix + hostStrip + ":" + port, hostStrip, domainAdd) == prefix + "." + domainAdd
  {
    FirstFieldBefore(prefix + hostStrip, ':', port);
    TrimSuffixOnce(prefix, hostStrip);
  }

  /** The port of the Host header plays no part in the service name. */
  lemma ServiceNameIgnoresPort(host: string, hostStrip: string, domainAdd: string, port: string)
    requires ':' !in host
    ensures ServiceName(host + ":" + port, hostStrip, domainAdd) == ServiceName(host, hostStrip, domainAdd)
  {
    FirstFieldBefore(host, ':', port);
  }

  /** A host that does not end in `hostStrip` keeps its whole first field. */
  lemma ServiceNameUnstripped(host: string, hostStrip: string, domainAdd: string)
    requires !HasSuffix(FirstField(host, ':'), hostStrip)
    ensures ServiceName(host, hostStrip, domainAdd) == FirstField(host, ':') + "." + domainAdd
  {
  }

  /** With the default flags, `foo.app.example.com:8080` names `foo.srv.example.com`. */
  lemma DefaultServiceName()
    ensures ServiceName("foo" + HOST_STRIP_DEFAULT + ":8080", HOST_STRIP_DEFAULT, DOMAIN_ADD_DEFAULT)
            == "foo." + DOMAIN_ADD_DEFAULT
  {
    assert ':' !in "foo" + HOST_STRIP_DEFAULT by {
      assert "foo" + HOST_STRIP_DEFAULT == "foo.app.example.com";
    }
    ServiceNameOf("foo", HOST_STRIP_DEFAULT, DOMAIN_ADD_DEFAULT, "8080");
    assert "foo" + HOST_STRIP_DEFAULT + ":8080" == "foo" + HOST_STRIP_DEFAULT + ":" + "8080";
    assert "foo." + DOMAIN_ADD_DEFAULT == "foo" + "." + DOMAIN_ADD_DEFAULT;
  }

  /** The `host:port` the director writes for a backend. */
  function HostPort(b: Registry.Backend): string
  {
    b.host + ":" + Decimal(b.port)
  }

  /** The written host reads back as the backend's host and port. */
  lemma HostPortNamesBackend(b: Registry.Backend)
    ensures ParseHostPort(HostPort(b)) == Some((b.host, b.port))
  {
    HostPortRoundTrip(b.host, b.port);
  }

  /** The request goes to the address the registry probed. */
  lemma HostPortIsProbedAddress(b: Registry.Backend)
    ensures Registry.Url(b) == "http://" + HostPort(b)
  {
  }

  /** The URL host the director writes for the registry's answer: `host:port`, or empty for none. */
  function DirectedHost(sel: Result<Registry.Backend, Registry.Error>): string
  {
    match sel
    case Ok(b) => HostPort(b)
    case Err(_) => ""
  }

  /** What the transport does with a request: hand it on to that host, or fail with `ENoBackend`. */
  datatype Dispatch = Forwarded(host: string) | NoBackendsFound

  /** `transport.RoundTrip`: an empty URL host is refused, anything else is forwarded. */
  function RoundTrip(urlHost: string): (r: Dispatch)
    ensures r == NoBackendsFound <==> urlHost == ""
    ensures r.Forwarded? ==> r.host == urlHost
  {
    if urlHost == "" then NoBackendsFound else Forwarded(urlHost)
  }

  /** A directed request is refused exactly when the registry had no backend, and otherwise goes to it. */
  lemma RefusedExactlyWithoutBackend(sel: Result<Registry.Backend, Registry.Error>)
    ensures RoundTrip(DirectedHost(sel)) == if sel.Ok? then Forwarded(HostPort(sel.value)) else NoBackendsFound
  {
  }

  /** The parts of a request URL the director touches. */
  class RequestUrl {
    var scheme: string
    var host: string
    var path: string

    constructor (scheme: string, host: string, path: string)
      ensures this.scheme == scheme && this.host == host && this.path == path
    {
      this.scheme, this.host, this.path := scheme, host, path;
    }
  }

  class Request {
    /** The Host header. */
    const host: string
    const url: RequestUrl

    constructor (host: string, url: RequestUrl)
      ensures this.host == host && this.url == url
    {
      this.host, this.url := host, url;
    }
  }

  class Proxy {
    const hostStrip: string
    const domainAdd: string
    const registry: Registry.Registry

    ghost predicate Valid()
      reads this, registry
    {
      registry.Valid()
    }

    /** `New`, without the listen address and the HTTP wiring: a proxy over an empty registry. */
    constructor New(hostStrip: string, domainAdd: string)
      ensures Valid() && fresh(registry)
      ensures this.hostStrip == hostStrip && this.domainAdd == domainAdd
      ensures registry.pools == map[]
    {
      this.hostStrip, this.domainAdd := hostStrip, domainAdd;
      registry := new Registry.Registry();
    }

    /**
     `proxy.director`: the URL's scheme becomes `http` and its host the `host:port` of the
     backend the registry picks for the Host header's service, or empty when there is none.
     */
    method Director(req: Request, now: int, stamp: int, resolve: Registry.Service -> Registry.Answer,
                    probe: nat -> Registry.Outcome, intn: nat -> nat)
      requires now <= stamp
      requires Valid() && Registry.DrawsBelow(intn)
      modifies req.url, registry
      ensures Valid()
      ensures req.url.scheme == "http" && req.url.path == old(req.url.path)
      ensures var name := ServiceName(req.host, hostStrip, domainAdd);
              req.url.host == DirectedHost(Registry.BackendFor(old(registry.pools), name, now, stamp, resolve, probe, intn)) &&
              registry.pools == Registry.PoolsAfter(old(registry.pools), name, now, stamp, resolve, probe) &&
              registry.probed == Registry.ProbedAfter(old(registry.pools), old(registry.probed), name, now, stamp, resolve, probe)
    {
      req.url.scheme := "http";
      var field := FirstField(req.host, ':');
      var name := TrimSuffix(field, hostStrip);
      var serviceName := name + "." + domainAdd;
      var backend := registry.GetBackend(serviceName, now, stamp, resolve, probe, intn);
      if backend.Ok? {
        req.url.host := backend.value.host + ":" + Decimal(backend.value.port);
      } else {
        req.url.host := "";
      }
    }
  }
}
