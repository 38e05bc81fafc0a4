/** Gateway discovery: one factory call creates a shared cache (the gateway record and its
    expiry) and hands out discovery handles, each with its own SSDP search and time-out
    hook. A handle returns the cached gateway while it has not expired, synthesises a record
    for a configured gateway address, or runs a search. The clock and the outcome of the
    search are inputs. */
module Discovery {
  import opened Common
  import opened UpnpDevice

  /** The search target of an Internet Gateway Device. */
  const ST: string := "urn:schemas-upnp-org:device:InternetGatewayDevice:1"
  const ONE_MINUTE: int := 60000
  const ONE_HOUR: int := ONE_MINUTE * 60
  const UNKNOWN: string := "unknown"

  datatype DiscoveryOptions = DiscoveryOptions(
    gateway: Option<string>,
    timeout: Option<int>,
    discoveryTimeout: Option<int>)

  /** A discovered gateway: its description's location, the description's root device, the
      record's expiry, its search target and its unique service name. */
  datatype Service = Service(
    location: string,
    device: Option<GatewayDevice>,
    expires: int,
    serviceType: string,
    uniqueServiceName: string)

  /** The UPnP device a gateway record is turned into. */
  function AsDevice(s: Service): Device {
    Device(s.location, s.device)
  }

  /** How a search ends: the first gateway found, the search ending without one, or the
      discovery time limit passing first. */
  datatype Outcome = Found(service: Service) | Ended | TimedOut

  datatype DiscoveryError = CouldNotDiscover | Timeout

  // ---------------------------------------------------------------------------
  // The configured gateway

  const HTTP: string := "http"
  const HTTP_SCHEME: string := "http://"

  /** A configured address that does not start with "http" gets the "http://" scheme. */
  function NormalizeGateway(g: string): (r: string)
    ensures StartsWith(r, HTTP)
    ensures StartsWith(g, HTTP) ==> r == g
    ensures !StartsWith(g, HTTP) ==> r == HTTP_SCHEME + g
  {
    if StartsWith(g, HTTP) then g
    else
      assert (HTTP_SCHEME + g)[..|HTTP|] == HTTP;
      HTTP_SCHEME + g
  }

  /** Writing the normalised address back into the options is harmless: normalising it
      again changes nothing. */
  lemma NormalizeIdempotent(g: string)
    ensures NormalizeGateway(NormalizeGateway(g)) == NormalizeGateway(g)
  {
  }

  /** The device of a synthesised record: empty service and device lists. */
  function EmptyDevice(): GatewayDevice {
    GatewayDevice(Some(Many([])), Some(Many([])))
  }

  function StaticService(location: string, expires: int): Service {
    Service(location, Some(EmptyDevice()), expires, ST, UNKNOWN)
  }

  /** A synthesised record lists no service, so a UPnP client that receives it finds no
      WAN connection service in it. */
  lemma {:induction false} StaticGatewayHasNoService(location: string, expires: int, types: seq<string>)
    ensures GetService(AsDevice(StaticService(location, expires)), types) == Err(ServiceNotFound)
  {
    var d := EmptyDevice();
    assert Children(d) == [];
    assert OwnServices(d) == [];
    assert ServicesOfChildren(d, 0) == [];
    assert AllServices(Some(d)) == [];
  }

  // ---------------------------------------------------------------------------
  // The cache and the handle, as values

  /** The shared part: the configured address, the cached record and its expiry. */
  datatype ScopeState = ScopeState(gateway: Option<string>, service: Option<Service>, expires: Option<int>)

  /** One handle: whether its search object was created, whether its time-out hook is set,
      the searches it ran, and the calls it made to stop the search and to clear the
      time-out. */
  datatype HandleState = HandleState(started: bool, clearSet: bool, searches: nat, stops: nat, clears: nat)

  function IdleHandle(): HandleState {
    HandleState(false, false, 0, 0, 0)
  }

  /** The cache is used when a record is held and its expiry is not before `now`. */
  predicate Cached(sc: ScopeState, now: int) {
    sc.service.Some? && !(sc.expires.Some? && sc.expires.value < now)
  }

  /** `gateway()`. `now` is the clock when the call starts, `doneAt` the clock when the
      search settles. */
  function GatewaySpec(sc: ScopeState, h: HandleState, timeout: int, now: int, doneAt: int, outcome: Outcome)
    : (ScopeState, HandleState, Result<Service, DiscoveryError>)
  {
    if Cached(sc, now) then (sc, h, Ok(sc.service.value))
    else if sc.gateway.Some? then
      var location := NormalizeGateway(sc.gateway.value);
      var svc := StaticService(location, now + timeout);
      (ScopeState(Some(location), Some(svc), Some(now + timeout)), h, Ok(svc))
    else
      var h1 := h.(started := true, clearSet := true, searches := h.searches + 1);
      match outcome
      case Found(svc) => (sc.(service := Some(svc), expires := Some(doneAt + timeout)), h1, Ok(svc))
      case Ended => (sc, h1, Err(CouldNotDiscover))
      case TimedOut => (sc, h1, Err(Timeout))
  }

  /** `cancel()`: stop the search if one was created, clear the time-out if it was set. */
  function CancelSpec(h: HandleState): HandleState {
    h.(stops := h.stops + (if h.started then 1 else 0),
       clears := h.clears + (if h.clearSet then 1 else 0))
  }

  // ---------------------------------------------------------------------------
  // Properties

  /** A record that has not expired is returned with no other effect, whatever the
      configuration or the search would do. */
  lemma CacheHitHasNoEffect(sc: ScopeState, h: HandleState, timeout: int, now: int, doneAt: int, outcome: Outcome)
    requires sc.service.Some? && sc.expires.Some? && sc.expires.value >= now
    ensures GatewaySpec(sc, h, timeout, now, doneAt, outcome) == (sc, h, Ok(sc.service.value))
  {
  }

  /** With a configured address and no usable cache, no search runs: the record is
      synthesised from the normalised address, which is also written back, and expires
      `timeout` after `now`. */
  lemma StaticOverride(sc: ScopeState, h: HandleState, timeout: int, now: int, doneAt: int, outcome: Outcome)
    requires !Cached(sc, now) && sc.gateway.Some?
    ensures var (sc2, h2, r) := GatewaySpec(sc, h, timeout, now, doneAt, outcome);
      && r.Ok? && h2 == h
      && StartsWith(r.value.location, HTTP)
      && r.value.location == NormalizeGateway(sc.gateway.value)
      && r.value.serviceType == ST && r.value.uniqueServiceName == UNKNOWN
      && r.value.expires == now + timeout
      && r.value.device == Some(EmptyDevice())
      && sc2 == ScopeState(Some(r.value.location), Some(r.value), Some(now + timeout))
  {
  }

  /** A search that finds nothing or times out leaves the cache as it was; one that finds
      a gateway caches it until `timeout` after it settled. Either way the handle's time-out
      hook is now set. */
  lemma SearchOutcome(sc: ScopeState, h: HandleState, timeout: int, now: int, doneAt: int, outcome: Outcome)
    requires !Cached(sc, now) && sc.gateway.None?
    ensures var (sc2, h2, r) := GatewaySpec(sc, h, timeout, now, doneAt, outcome);
      && h2.started && h2.clearSet && h2.searches == h.searches + 1
      && (r.Err? <==> !outcome.Found?)
      && (r.Err? ==> sc2 == sc)
      && (r.Ok? ==> r.value == outcome.service && sc2.service == Some(outcome.service)
                    && sc2.expires == Some(doneAt + timeout) && sc2.gateway == sc.gateway)
  {
  }

  /** The cache is shared: once one handle's search found a gateway, another handle asking
      before it expires gets the same record and runs no search. */
  lemma {:induction false} SharedCache(sc: ScopeState, a: HandleState, b: HandleState, timeout: int,
                                       now: int, doneAt: int, svc: Service, later: int, laterDone: int, outcome: Outcome)
    requires !Cached(sc, now) && sc.gateway.None?
    requires later <= doneAt + timeout
    ensures var sc2 := GatewaySpec(sc, a, timeout, now, doneAt, Found(svc)).0;
      GatewaySpec(sc2, b, timeout, later, laterDone, outcome) == (sc2, b, Ok(svc))
  {
    var sc2 := GatewaySpec(sc, a, timeout, now, doneAt, Found(svc)).0;
    assert sc2.service == Some(svc) && sc2.expires == Some(doneAt + timeout);
    assert Cached(sc2, later);
  }

  /** `cancel` does nothing on a handle that never searched, nor after a cached or
      configured gateway was returned; after a search it stops it and clears its time-out. */
  lemma CancelAfterGateway(sc: ScopeState, timeout: int, now: int, doneAt: int, outcome: Outcome)
    ensures CancelSpec(IdleHandle()) == IdleHandle()
    ensures var (_, h2, _) := GatewaySpec(sc, IdleHandle(), timeout, now, doneAt, outcome);
      var c := CancelSpec(h2);
      && (Cached(sc, now) || sc.gateway.Some? ==> c == IdleHandle())
      && (!Cached(sc, now) && sc.gateway.None? ==> c.stops == 1 && c.clears == 1)
  {
  }

  // ---------------------------------------------------------------------------
  // The objects

  /** What one call of the factory shares between its handles. */
  class Scope {
    var gateway: Option<string>
    var service: Option<Service>
    var expires: Option<int>
    const timeout: int
    const discoveryTimeout: int

    function State(): ScopeState
      reads this
    {
      ScopeState(gateway, service, expires)
    }

    /** `discoverGateway(options)`: a missing timeout is one hour, a missing discovery
        time limit one minute. */
    constructor(options: DiscoveryOptions)
      ensures State() == ScopeState(options.gateway, None, None)
      ensures timeout == (if options.timeout.Some? then options.timeout.value else ONE_HOUR)
      ensures discoveryTimeout
                == (if options.discoveryTimeout.Some? then options.discoveryTimeout.value else ONE_MINUTE)
    {
      gateway := options.gateway;
      service := None;
      expires := None;
      timeout := if options.timeout.Some? then options.timeout.value else ONE_HOUR;
      discoveryTimeout := if options.discoveryTimeout.Some? then options.discoveryTimeout.value else ONE_MINUTE;
    }

    /** The function the factory returns: each call makes a handle over this cache. */
    method NewHandle() returns (h: Handle)
      ensures fresh(h) && h.scope == this && h.State() == IdleHandle()
    {
      h := new Handle(this);
    }
  }

  /** A `DiscoverGateway` handle. */
  class Handle {
    const scope: Scope
    var started: bool
    var clearSet: bool
    var searches: nat
    var stops: nat
    var clears: nat

    function State(): HandleState
      reads this
    {
      HandleState(started, clearSet, searches, stops, clears)
    }

    constructor(scope: Scope)
      ensures this.scope == scope && State() == IdleHandle()
    {
      this.scope := scope;
      started := false;
      clearSet := false;
      searches := 0;
      stops := 0;
      clears := 0;
    }

    method Gateway(now: int, doneAt: int, outcome: Outcome) returns (r: Result<Service, DiscoveryError>)
      modifies this, scope
      ensures (scope.State(), State(), r)
                == GatewaySpec(old(scope.State()), old(State()), scope.timeout, now, doneAt, outcome)
    {
      if scope.service.Some? && !(scope.expires.Some? && scope.expires.value < now) {
        return Ok(scope.service.value);
      }
      if scope.gateway.Some? {
        var location := NormalizeGateway(scope.gateway.value);
        scope.gateway := Some(location);
        scope.expires := Some(now + scope.timeout);
        var svc := StaticService(location, now + scope.timeout);
        scope.service := Some(svc);
        return Ok(svc);
      }
      if !started {
        started := true;
      }
      searches := searches + 1;
      clearSet := true;
      if outcome.Found? {
        scope.service := Some(outcome.service);
        scope.expires := Some(doneAt + scope.timeout);
        r := Ok(outcome.service);
      } else if outcome.Ended? {
        r := Err(CouldNotDiscover);
      } else {
        r := Err(Timeout);
      }
    }

    method Cancel()
      modifies this
      ensures State() == CancelSpec(old(State()))
    {
      if started {
        stops := stops + 1;
      }
      if clearSet {
        clears := clears + 1;
      }
    }
  }
}
