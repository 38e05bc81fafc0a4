/** The port-mapping orchestrator `NatAPI`: it normalises the lifetime and the mapping
    options, forwards every request to a protocol client (UPnP or NAT-PMP), remembers the
    mappings it opened and keeps one refresh timer per mapping key. The client's replies are
    injected outcomes; its calls are recorded in a log. */
module NatApi {
  import opened Common
  import UpnpDevice
  import UpnpClient

  /** `NatAPIOptions`. */
  datatype NatApiOptions = NatApiOptions(
    ttl: Option<int>,
    description: Option<string>,
    gateway: Option<string>,
    keepAlive: Option<bool>)

  /** `Partial<MapPortOptions>`, as `map` and `unmap` receive it; a missing or null field is None. */
  datatype MapInput = MapInput(
    publicPort: Option<int>,
    localPort: Option<int>,
    localAddress: Option<string>,
    protocol: Option<string>,
    description: Option<string>,
    ttl: Option<int>,
    gateway: Option<string>)

  datatype NatError =
    | Destroyed            // 'client is destroyed'
    | AlreadyClosed        // 'client already closed'
    | InvalidParameters    // 'invalid parameters'
    | NoLocalAddress       // 'Please pass a `localAddress` to the map function'
    | ClientFailed         // the protocol client rejected

  /** A call made on the protocol client. */
  datatype ClientCall = MapCall(opts: MapPortOptions) | UnmapCall(opts: MapPortOptions) | CloseCall | ExternalIpCall

  const DEFAULT_TTL: int := 7200
  const MIN_TTL: int := 1200
  const REFRESH_MARGIN: int := 600
  const DEFAULT_DESCRIPTION: string := "NatAPI"
  const DEFAULT_PROTOCOL: string := "TCP"

  /** The lifetime in seconds the instance asks for: at least 20 minutes, 2 hours by default. */
  function EffectiveTtl(ttl: Option<int>): (r: int)
    ensures r >= MIN_TTL
    ensures ttl.None? ==> r == DEFAULT_TTL
    ensures ttl.Some? ==> r >= ttl.value && (r == ttl.value || r == MIN_TTL)
  {
    if ttl.Some? then (if ttl.value > MIN_TTL then ttl.value else MIN_TTL) else DEFAULT_TTL
  }

  /** The refresh period in milliseconds: ten minutes before the lifetime ends. */
  function KeepAliveInterval(ttl: int): (r: int)
    requires ttl >= MIN_TTL
    ensures r >= 600_000 && r % 1000 == 0
    ensures r + REFRESH_MARGIN * 1000 == ttl * 1000
  {
    (ttl - REFRESH_MARGIN) * 1000
  }

  /** The instance values `validateInput` falls back on. */
  datatype Config = Config(
    ttl: int,
    description: string,
    gateway: Option<string>,
    keepAlive: bool,
    keepAliveInterval: int,
    destroyed: bool)

  /** `validateInput`; `found` is what the local interface lookup returns, None when it throws.
      The lookup runs only when no local address is given. */
  function ValidateInput(input: MapInput, cfg: Config, found: Option<string>): (r: Result<MapPortOptions, NatError>)
    ensures r.Err? <==> input.localPort.None? || (input.localAddress.None? && found.None?)
    ensures input.localPort.None? ==> r == Err(InvalidParameters)
    ensures r.Ok? ==>
      && r.value.localPort == input.localPort.value
      && r.value.localAddress == (if input.localAddress.Some? then input.localAddress.value else found.value)
      && r.value.publicPort == (if input.publicPort.Some? then input.publicPort.value else input.localPort.value)
      && r.value.protocol == (if input.protocol.Some? then input.protocol.value else DEFAULT_PROTOCOL)
      && r.value.description == (if input.description.Some? then input.description.value else cfg.description)
      && r.value.ttl == (if input.ttl.Some? then input.ttl.value else cfg.ttl)
      && r.value.gateway == (if input.gateway.Some? then input.gateway else cfg.gateway)
  {
    if input.localPort.None? then Err(InvalidParameters)
    else
      var address := if input.localAddress.Some? then input.localAddress else found;
      if address.None? then Err(NoLocalAddress)
      else Ok(MapPortOptions(
        if input.publicPort.Some? then input.publicPort.value else input.localPort.value,
        input.localPort.value,
        address.value,
        if input.protocol.Some? then input.protocol.value else DEFAULT_PROTOCOL,
        if input.description.Some? then input.description.value else cfg.description,
        if input.ttl.Some? then input.ttl.value else cfg.ttl,
        if input.gateway.Some? then input.gateway else cfg.gateway))
  }

  /** A complete options object passed back as a partial one (as `close` does). */
  function AsInput(o: MapPortOptions): MapInput {
    MapInput(Some(o.publicPort), Some(o.localPort), Some(o.localAddress), Some(o.protocol),
             Some(o.description), Some(o.ttl), o.gateway)
  }

  /** Validating options that validation produced gives them back unchanged, whatever the
      interface lookup would say. */
  lemma ValidateInputIdempotent(input: MapInput, cfg: Config, found: Option<string>, found2: Option<string>)
    requires ValidateInput(input, cfg, found).Ok?
    ensures ValidateInput(AsInput(ValidateInput(input, cfg, found).value), cfg, found2)
            == ValidateInput(input, cfg, found)
  {
  }

  /** The refresh-timer key `${publicPort}:${localPort}-${protocol}`: the public port's
      text and a colon, then the local port's text, then a dash and the protocol. */
  function Key(o: MapPortOptions): (k: string)
    ensures StartsWith(k, IntToString(o.publicPort) + ":")
    ensures EndsWith(k, "-" + o.protocol)
    ensures |k| == |IntToString(o.publicPort)| + |IntToString(o.localPort)| + |o.protocol| + 2
    ensures k[|IntToString(o.publicPort)| + 1 .. |k| - |o.protocol| - 1] == IntToString(o.localPort)
  {
    var k := IntToString(o.publicPort) + ":" + IntToString(o.localPort) + "-" + o.protocol;
    assert k[|k| - |"-" + o.protocol|..] == "-" + o.protocol;
    assert k[..|IntToString(o.publicPort) + ":"|] == IntToString(o.publicPort) + ":";
    k
  }

  /** Two mappings share a key only when they agree on the public port, the local port and
      the protocol, so the key map holds one timer per such triple. */
  lemma KeyInjective(a: MapPortOptions, b: MapPortOptions)
    requires Key(a) == Key(b)
    ensures a.publicPort == b.publicPort && a.localPort == b.localPort && a.protocol == b.protocol
  {
    var pa, pb := IntToString(a.publicPort), IntToString(b.publicPort);
    var la, lb := IntToString(a.localPort), IntToString(b.localPort);
    assert Key(a) == pa + [':'] + (la + ['-'] + a.protocol);
    assert Key(b) == pb + [':'] + (lb + ['-'] + b.protocol);
    SplitAfterIntText(pa, pb, ':', la + ['-'] + a.protocol, lb + ['-'] + b.protocol);
    SplitAfterIntText(la, lb, '-', a.protocol, b.protocol);
    IntToStringInjective(a.publicPort, b.publicPort);
    IntToStringInjective(a.localPort, b.localPort);
  }

  /** The filter `unmap` applies to `openPorts`. */
  function Retain(ports: seq<MapPortOptions>, target: MapPortOptions): (r: seq<MapPortOptions>)
    ensures |r| <= |ports|
    ensures forall p :: p in r <==>
              p in ports && p.publicPort != target.publicPort && p.protocol != target.protocol
  {
    if ports == [] then []
    else
      var rest := Retain(ports[1..], target);
      if ports[0].publicPort != target.publicPort && ports[0].protocol != target.protocol
      then [ports[0]] + rest
      else rest
  }

  /** Filtering after a sequence of unmaps, in order. */
  function RetainAll(ports: seq<MapPortOptions>, targets: seq<MapPortOptions>): seq<MapPortOptions>
    decreases |targets|
  {
    if targets == [] then ports else RetainAll(Retain(ports, targets[0]), targets[1..])
  }

  /** Retain distributes over concatenation, keeping order. */
  lemma {:induction false} RetainAppend(a: seq<MapPortOptions>, b: seq<MapPortOptions>, t: MapPortOptions)
    ensures Retain(a + b, t) == Retain(a, t) + Retain(b, t)
    decreases |a|
  {
    if a == [] {
      assert a + b == b;
    } else {
      assert (a + b)[0] == a[0];
      assert (a + b)[1..] == a[1..] + b;
      RetainAppend(a[1..], b, t);
    }
  }

  /** Two unmaps leave the same list whichever of them completes first. */
  lemma {:induction false} RetainCommutes(ports: seq<MapPortOptions>, t: MapPortOptions, u: MapPortOptions)
    ensures Retain(Retain(ports, t), u) == Retain(Retain(ports, u), t)
    decreases |ports|
  {
    if ports != [] {
      RetainCommutes(ports[1..], t, u);
      var p := ports[0];
      var rt := Retain(ports[1..], t);
      var ru := Retain(ports[1..], u);
      if p.publicPort != t.publicPort && p.protocol != t.protocol {
        RetainAppend([p], rt, u);
      }
      if p.publicPort != u.publicPort && p.protocol != u.protocol {
        RetainAppend([p], ru, t);
      }
    }
  }

  /** Membership after several unmaps: an entry survives iff it shares neither the public
      port nor the protocol with any of them. */
  lemma {:induction false} RetainAllMembership(ports: seq<MapPortOptions>, targets: seq<MapPortOptions>, p: MapPortOptions)
    ensures p in RetainAll(ports, targets) <==>
              p in ports && forall t :: t in targets ==> p.publicPort != t.publicPort && p.protocol != t.protocol
    decreases |targets|
  {
    if targets != [] {
      RetainAllMembership(Retain(ports, targets[0]), targets[1..], p);
      assert forall t :: t in targets <==> t == targets[0] || t in targets[1..];
    }
  }

  /** The mutable part of an instance: open mappings, the key-to-timer map, the timers still
      running (each with the options it refreshes), the next timer handle and the calls made
      on the client. */
  datatype NatState = NatState(
    openPorts: seq<MapPortOptions>,
    updateIntervals: map<string, nat>,
    running: map<nat, MapPortOptions>,
    nextTimer: nat,
    calls: seq<ClientCall>)

  /** Every key's timer is running, no two keys share a timer, and every handle was handed out. */
  ghost predicate TimersTracked(s: NatState) {
    && (forall k :: k in s.updateIntervals ==> s.updateIntervals[k] in s.running)
    && (forall k, k' :: k in s.updateIntervals && k' in s.updateIntervals && k != k' ==>
          s.updateIntervals[k] != s.updateIntervals[k'])
    && (forall h :: h in s.running ==> h < s.nextTimer)
  }

  /** `map`, with the client's outcome injected. */
  function MapSpec(s: NatState, cfg: Config, input: MapInput, found: Option<string>, clientOk: bool): (NatState, Result<MapPortOptions, NatError>) {
    if cfg.destroyed then (s, Err(Destroyed))
    else match ValidateInput(input, cfg, found)
      case Err(e) => (s, Err(e))
      case Ok(opts) =>
        var called := s.(calls := s.calls + [MapCall(opts)]);
        if !clientOk then (called, Err(ClientFailed))
        else
          var pushed := called.(openPorts := s.openPorts + [opts]);
          if !cfg.keepAlive then (pushed, Ok(opts))
          else
            (pushed.(updateIntervals := s.updateIntervals[Key(opts) := s.nextTimer],
                     running := s.running[s.nextTimer := opts],
                     nextTimer := s.nextTimer + 1),
             Ok(opts))
  }

  /** `unmap`, with the client's outcome injected. */
  function UnmapSpec(s: NatState, cfg: Config, input: MapInput, found: Option<string>, clientOk: bool): (NatState, Result<MapPortOptions, NatError>) {
    if cfg.destroyed then (s, Err(Destroyed))
    else match ValidateInput(input, cfg, found)
      case Err(e) => (s, Err(e))
      case Ok(opts) =>
        var called := s.(calls := s.calls + [UnmapCall(opts)]);
        if !clientOk then (called, Err(ClientFailed))
        else
          var key := Key(opts);
          (called.(openPorts := Retain(s.openPorts, opts),
                   running := if key in s.updateIntervals then s.running - {s.updateIntervals[key]} else s.running,
                   updateIntervals := s.updateIntervals - {key}),
           Ok(opts))
  }

  /** The options among `ports` whose unmap succeeded. */
  function Succeeded(ports: seq<MapPortOptions>, ok: seq<bool>): (r: seq<MapPortOptions>)
    requires |ok| == |ports|
    ensures forall p :: p in r ==> p in ports
  {
    if ports == [] then [] else (if ok[0] then [ports[0]] else []) + Succeeded(ports[1..], ok[1..])
  }

  function UnmapCalls(ports: seq<MapPortOptions>): (r: seq<ClientCall>)
    ensures |r| == |ports| && forall i :: 0 <= i < |ports| ==> r[i] == UnmapCall(ports[i])
  {
    if ports == [] then [] else [UnmapCall(ports[0])] + UnmapCalls(ports[1..])
  }

  function AllTrue(ok: seq<bool>): bool {
    forall i :: 0 <= i < |ok| ==> ok[i]
  }

  /** `close`: close the client, stop every timer and forget the keys, then start one unmap
      per open mapping (all are issued before any completes); `unmapOk[i]` is the outcome
      of the unmap of the i-th mapping. */
  function CloseSpec(s: NatState, cfg: Config, closeOk: bool, unmapOk: seq<bool>): (NatState, Result<(), NatError>)
    requires |unmapOk| == |s.openPorts|
  {
    if cfg.destroyed then (s, Err(AlreadyClosed))
    else if !closeOk then (s.(calls := s.calls + [CloseCall]), Err(ClientFailed))
    else
      (s.(calls := s.calls + [CloseCall] + UnmapCalls(s.openPorts),
          running := s.running - s.updateIntervals.Values,
          updateIntervals := map[],
          openPorts := RetainAll(s.openPorts, Succeeded(s.openPorts, unmapOk))),
       if AllTrue(unmapOk) then Ok(()) else Err(ClientFailed))
  }

  /** `close` as evidently intended: stop every timer and forget the keys, unmap every open
      mapping while the client is still open, and close the client last. A failed unmap
      rejects the `Promise.all`, and the client is then not closed. */
  function CloseUnmappingFirstSpec(s: NatState, cfg: Config, unmapOk: seq<bool>, closeOk: bool): (NatState, Result<(), NatError>)
    requires |unmapOk| == |s.openPorts|
  {
    if cfg.destroyed then (s, Err(AlreadyClosed))
    else
      var unmapped := s.(calls := s.calls + UnmapCalls(s.openPorts),
                         running := s.running - s.updateIntervals.Values,
                         updateIntervals := map[],
                         openPorts := RetainAll(s.openPorts, Succeeded(s.openPorts, unmapOk)));
      if !AllTrue(unmapOk) then (unmapped, Err(ClientFailed))
      else (unmapped.(calls := unmapped.calls + [CloseCall]), if closeOk then Ok(()) else Err(ClientFailed))
  }

  /** The outcome of each of `close`'s unmaps when the protocol client is the UPnP client in
      state `c`; `found` is what gateway discovery delivers and `reply` the gateway's answer. */
  function UpnpUnmapOutcomes(c: UpnpClient.ClientState, ports: seq<MapPortOptions>,
                             found: Option<UpnpDevice.Device>, reply: Option<JsValue>): (ok: seq<bool>)
    ensures |ok| == |ports|
    decreases |ports|
  {
    if ports == [] then []
    else
      var (c1, r) := UpnpClient.UnmapSpec(c, UpnpClient.UnmapFromOptions(ports[0]), found, reply);
      [r.Ok?] + UpnpUnmapOutcomes(c1, ports[1..], found, reply)
  }

  /** A refresh timer firing: a running timer asks the client to map its options again; its
      failure is only logged. */
  function FireSpec(s: NatState, handle: nat): NatState {
    if handle in s.running then s.(calls := s.calls + [MapCall(s.running[handle])]) else s
  }

  // ---------------------------------------------------------------------------
  // Properties of the operations

  /** `map` records the mapping only after the client succeeded; a failure leaves everything
      but the call log as it was. */
  lemma MapRecordsOnlySuccess(s: NatState, cfg: Config, input: MapInput, found: Option<string>, clientOk: bool)
    ensures var (t, r) := MapSpec(s, cfg, input, found, clientOk);
      && (r.Ok? <==> !cfg.destroyed && ValidateInput(input, cfg, found).Ok? && clientOk)
      && (r.Ok? ==> t.openPorts == s.openPorts + [r.value] && t.calls == s.calls + [MapCall(r.value)])
      && (r.Err? ==> t.openPorts == s.openPorts && t.updateIntervals == s.updateIntervals && t.running == s.running)
  {
  }

  /** With keep-alive, `map` sets exactly its own key; a timer it replaces keeps running. */
  lemma MapSetsOnlyItsKey(s: NatState, cfg: Config, input: MapInput, found: Option<string>)
    requires TimersTracked(s)
    requires cfg.keepAlive && MapSpec(s, cfg, input, found, true).1.Ok?
    ensures var (t, r) := MapSpec(s, cfg, input, found, true);
      && Key(r.value) in t.updateIntervals
      && t.running[t.updateIntervals[Key(r.value)]] == r.value
      && (forall k :: k in s.updateIntervals && k != Key(r.value) ==> k in t.updateIntervals && t.updateIntervals[k] == s.updateIntervals[k])
      && (forall k :: k in t.updateIntervals ==> k in s.updateIntervals || k == Key(r.value))
      && (Key(r.value) in s.updateIntervals ==> s.updateIntervals[Key(r.value)] in t.running)
  {
  }

  /** `unmap` deletes only its own key and stops only that key's timer. */
  lemma UnmapDeletesOnlyItsKey(s: NatState, cfg: Config, input: MapInput, found: Option<string>)
    requires UnmapSpec(s, cfg, input, found, true).1.Ok?
    ensures var (t, r) := UnmapSpec(s, cfg, input, found, true);
      && Key(r.value) !in t.updateIntervals
      && (forall k :: k in s.updateIntervals && k != Key(r.value) <==> k in t.updateIntervals)
      && (forall k :: k in t.updateIntervals ==> t.updateIntervals[k] == s.updateIntervals[k])
      && (forall p :: p in t.openPorts <==>
            p in s.openPorts && p.publicPort != r.value.publicPort && p.protocol != r.value.protocol)
  {
  }

  /** `close` closes the client first, then issues the unmaps in list order; the timers of
      every key are stopped and no key is left. */
  lemma CloseOrder(s: NatState, cfg: Config, unmapOk: seq<bool>)
    requires |unmapOk| == |s.openPorts|
    requires !cfg.destroyed
    ensures var t := CloseSpec(s, cfg, true, unmapOk).0;
      && t.updateIntervals == map[]
      && (forall h :: h in s.updateIntervals.Values ==> h !in t.running)
      && |t.calls| == |s.calls| + 1 + |s.openPorts|
      && t.calls[|s.calls|] == CloseCall
      && (forall i :: 0 <= i < |s.openPorts| ==> t.calls[|s.calls| + 1 + i] == UnmapCall(s.openPorts[i]))
  {
  }

  /** Every mapping is left open when no unmap succeeds. */
  lemma {:induction false} SucceededNone(ports: seq<MapPortOptions>, ok: seq<bool>)
    requires |ok| == |ports| && forall i :: 0 <= i < |ok| ==> !ok[i]
    ensures Succeeded(ports, ok) == []
    decreases |ports|
  {
    if ports != [] {
      SucceededNone(ports[1..], ok[1..]);
    }
  }

  /** A closed UPnP client refuses every unmap, and stays closed. */
  lemma {:induction false} ClosedUpnpRefusesUnmaps(c: UpnpClient.ClientState, ports: seq<MapPortOptions>,
                                                   found: Option<UpnpDevice.Device>, reply: Option<JsValue>)
    requires c.closed
    ensures forall i :: 0 <= i < |ports| ==> !UpnpUnmapOutcomes(c, ports, found, reply)[i]
    decreases |ports|
  {
    if ports != [] {
      ClosedUpnpRefusesUnmaps(c, ports[1..], found, reply);
    }
  }

  /** `close` as written closes the client before it unmaps. With the UPnP client every
      unmap is then refused with "client is closed", so no mapping is removed, and `close`
      rejects whenever a mapping was open. */
  lemma {:induction false} CloseAsWrittenKeepsOpenPorts(s: NatState, cfg: Config, c: UpnpClient.ClientState,
                                                        found: Option<UpnpDevice.Device>, reply: Option<JsValue>)
    requires !cfg.destroyed
    ensures var ok := UpnpUnmapOutcomes(UpnpClient.CloseSpec(c), s.openPorts, found, reply);
      var (t, r) := CloseSpec(s, cfg, true, ok);
      && t.openPorts == s.openPorts
      && (r.Ok? <==> s.openPorts == [])
  {
    var closed := UpnpClient.CloseSpec(c);
    var ok := UpnpUnmapOutcomes(closed, s.openPorts, found, reply);
    ClosedUpnpRefusesUnmaps(closed, s.openPorts, found, reply);
    SucceededNone(s.openPorts, ok);
    if s.openPorts != [] {
      assert !ok[0];
    }
  }

  /** The intended `close`: once every unmap succeeded no mapping is left open and the client
      is closed after the last unmap; `close` succeeds iff every unmap and the client's close
      did, and no key is left in either case. */
  lemma {:induction false} CloseClearsOpenPorts(s: NatState, cfg: Config, unmapOk: seq<bool>, closeOk: bool)
    requires |unmapOk| == |s.openPorts| && !cfg.destroyed
    ensures var (t, r) := CloseUnmappingFirstSpec(s, cfg, unmapOk, closeOk);
      && (r.Ok? <==> AllTrue(unmapOk) && closeOk)
      && (AllTrue(unmapOk) ==> t.openPorts == [] && t.calls == s.calls + UnmapCalls(s.openPorts) + [CloseCall])
      && t.updateIntervals == map[]
  {
    var t := CloseUnmappingFirstSpec(s, cfg, unmapOk, closeOk).0;
    if AllTrue(unmapOk) {
      SucceededAll(s.openPorts, unmapOk);
      if t.openPorts != [] {
        var p := t.openPorts[0];
        RetainAllMembership(s.openPorts, s.openPorts, p);
      }
    }
  }

  /** An open UPnP client whose gateway has a usable service and answers grants every unmap
      of the intended `close`, so the intended `close` leaves no mapping open. */
  lemma {:induction false} OpenUpnpGrantsUnmaps(c: UpnpClient.ClientState, ports: seq<MapPortOptions>,
                                                d: UpnpDevice.Device, reply: JsValue)
    requires !c.closed && !c.aborted && UpnpDevice.GetService(d, UpnpDevice.IGD_SERVICES).Ok?
    ensures AllTrue(UpnpUnmapOutcomes(c, ports, Some(d), Some(reply)))
    decreases |ports|
  {
    if ports != [] {
      var (c1, r) := UpnpClient.UnmapSpec(c, UpnpClient.UnmapFromOptions(ports[0]), Some(d), Some(reply));
      assert r.Ok?;
      OpenUpnpGrantsUnmaps(c1, ports[1..], d, reply);
      var ok := UpnpUnmapOutcomes(c, ports, Some(d), Some(reply));
      assert forall i :: 1 <= i < |ok| ==> ok[i] == UpnpUnmapOutcomes(c1, ports[1..], Some(d), Some(reply))[i - 1];
    }
  }

  lemma {:induction false} SucceededAll(ports: seq<MapPortOptions>, ok: seq<bool>)
    requires |ok| == |ports| && AllTrue(ok)
    ensures Succeeded(ports, ok) == ports
    decreases |ports|
  {
    if ports != [] {
      assert AllTrue(ok[1..]) by {
        forall i | 0 <= i < |ok[1..]| ensures ok[1..][i] { assert ok[1..][i] == ok[i + 1]; }
      }
      SucceededAll(ports[1..], ok[1..]);
    }
  }

  lemma MapKeepsTimersTracked(s: NatState, cfg: Config, input: MapInput, found: Option<string>, clientOk: bool)
    requires TimersTracked(s)
    ensures TimersTracked(MapSpec(s, cfg, input, found, clientOk).0)
  {
  }

  lemma CloseKeepsTimersTracked(s: NatState, cfg: Config, closeOk: bool, unmapOk: seq<bool>)
    requires TimersTracked(s) && |unmapOk| == |s.openPorts|
    ensures TimersTracked(CloseSpec(s, cfg, closeOk, unmapOk).0)
  {
  }

  lemma FireKeepsTimersTracked(s: NatState, handle: nat)
    requires TimersTracked(s)
    ensures TimersTracked(FireSpec(s, handle))
  {
  }

  lemma UnmapKeepsTimersTracked(s: NatState, cfg: Config, input: MapInput, found: Option<string>, clientOk: bool)
    requires TimersTracked(s)
    ensures TimersTracked(UnmapSpec(s, cfg, input, found, clientOk).0)
  {
    var (t, r) := UnmapSpec(s, cfg, input, found, clientOk);
    if r.Ok? {
      var key := Key(r.value);
      forall k | k in t.updateIntervals ensures t.updateIntervals[k] in t.running {
        assert k in s.updateIntervals && k != key;
      }
    }
  }

  // ---------------------------------------------------------------------------
  // The instance

  class NatApi {
    const ttl: int
    const description: string
    const gateway: Option<string>
    const keepAlive: bool
    const keepAliveInterval: int
    /** Read-only in the source and set once, to false, by the constructor. */
    const destroyed: bool
    var openPorts: seq<MapPortOptions>
    var updateIntervals: map<string, nat>
    var running: map<nat, MapPortOptions>
    var nextTimer: nat
    var calls: seq<ClientCall>

    function Cfg(): Config {
      Config(ttl, description, gateway, keepAlive, keepAliveInterval, destroyed)
    }

    function State(): NatState
      reads this
    {
      NatState(openPorts, updateIntervals, running, nextTimer, calls)
    }

    constructor (opts: NatApiOptions)
      ensures ttl == EffectiveTtl(opts.ttl)
      ensures keepAliveInterval == KeepAliveInterval(ttl)
      ensures description == (if opts.description.Some? then opts.description.value else DEFAULT_DESCRIPTION)
      ensures gateway == opts.gateway
      ensures keepAlive == (opts.keepAlive != Some(false))
      ensures !destroyed
      ensures State() == NatState([], map[], map[], 0, [])
    {
      ttl := EffectiveTtl(opts.ttl);
      description := if opts.description.Some? then opts.description.value else DEFAULT_DESCRIPTION;
      gateway := opts.gateway;
      keepAlive := if opts.keepAlive.Some? then opts.keepAlive.value else true;
      updateIntervals := map[];
      keepAliveInterval := KeepAliveInterval(EffectiveTtl(opts.ttl));
      destroyed := false;
      openPorts := [];
      running := map[];
      nextTimer := 0;
      calls := [];
    }

    method Map(input: MapInput, found: Option<string>, clientOk: bool) returns (r: Result<MapPortOptions, NatError>)
      modifies this
      ensures (State(), r) == MapSpec(old(State()), Cfg(), input, found, clientOk)
    {
      if destroyed {
        return Err(Destroyed);
      }
      var v := ValidateInput(input, Cfg(), found);
      if v.Err? {
        return Err(v.error);
      }
      var opts := v.value;
      calls := calls + [MapCall(opts)];
      if !clientOk {
        return Err(ClientFailed);
      }
      openPorts := openPorts + [opts];
      if keepAlive {
        var handle := nextTimer;  // start the refresh timer
        nextTimer := nextTimer + 1;
        running := running[handle := opts];
        updateIntervals := updateIntervals[Key(opts) := handle];
      }
      r := Ok(opts);
    }

    method Unmap(input: MapInput, found: Option<string>, clientOk: bool) returns (r: Result<MapPortOptions, NatError>)
      modifies this
      ensures (State(), r) == UnmapSpec(old(State()), Cfg(), input, found, clientOk)
    {
      if destroyed {
        return Err(Destroyed);
      }
      var v := ValidateInput(input, Cfg(), found);
      if v.Err? {
        return Err(v.error);
      }
      var opts := v.value;
      calls := calls + [UnmapCall(opts)];
      if !clientOk {
        return Err(ClientFailed);
      }
      openPorts := Retain(openPorts, opts);
      var key := Key(opts);
      if key in updateIntervals {
        running := running - {updateIntervals[key]};   // stop its refresh timer
      }
      updateIntervals := updateIntervals - {key};
      r := Ok(opts);
    }

    method Close(closeOk: bool, unmapOk: seq<bool>) returns (r: Result<(), NatError>)
      requires |unmapOk| == |openPorts|
      modifies this
      ensures (State(), r) == CloseSpec(old(State()), Cfg(), closeOk, unmapOk)
    {
      if destroyed {
        return Err(AlreadyClosed);
      }
      calls := calls + [CloseCall];
      if !closeOk {
        return Err(ClientFailed);
      }
      // stop all updates
      running := StopTimers(running, updateIntervals);
      updateIntervals := map[];
      // unmap all ports: every call is issued, then each success filters the list
      var snapshot := openPorts;
      calls := IssueUnmaps(calls, snapshot);
      openPorts := ApplyUnmaps(snapshot, Succeeded(snapshot, unmapOk));
      r := if AllTrue(unmapOk) then Ok(()) else Err(ClientFailed);
    }

    /** The intended `close` of `CloseUnmappingFirstSpec`. */
    method CloseUnmappingFirst(unmapOk: seq<bool>, closeOk: bool) returns (r: Result<(), NatError>)
      requires |unmapOk| == |openPorts|
      modifies this
      ensures (State(), r) == CloseUnmappingFirstSpec(old(State()), Cfg(), unmapOk, closeOk)
    {
      if destroyed {
        return Err(AlreadyClosed);
      }
      running := StopTimers(running, updateIntervals);
      updateIntervals := map[];
      var snapshot := openPorts;
      calls := IssueUnmaps(calls, snapshot);
      openPorts := ApplyUnmaps(snapshot, Succeeded(snapshot, unmapOk));
      if !AllTrue(unmapOk) {
        return Err(ClientFailed);
      }
      calls := calls + [CloseCall];
      r := if closeOk then Ok(()) else Err(ClientFailed);
    }

    method ExternalIp(outcome: Result<string, NatError>) returns (r: Result<string, NatError>)
      modifies this`calls
      ensures r == outcome
      ensures calls == old(calls) + [ExternalIpCall]
    {
      calls := calls + [ExternalIpCall];
      r := outcome;
    }

    /** A refresh timer firing. */
    method Fire(handle: nat)
      modifies this`calls
      ensures State() == FireSpec(old(State()), handle)
    {
      if handle in running {
        calls := calls + [MapCall(running[handle])];
      }
    }
  }

  /** Stops the timer of every key in the key map. */
  method StopTimers(running: map<nat, MapPortOptions>, keys: map<string, nat>) returns (live: map<nat, MapPortOptions>)
    ensures live == running - keys.Values
    ensures forall h :: h in live ==> h in running && h !in keys.Values
  {
    var handles := keys.Values;
    var stopped: set<nat> := {};
    live := running;
    while handles != {}
      invariant handles + stopped == keys.Values && handles !! stopped
      invariant live == running - stopped
      decreases handles
    {
      var h :| h in handles;
      live := live - {h};
      stopped := stopped + {h};
      handles := handles - {h};
    }
  }

  /** Issues `unmap` for every open mapping, in list order. */
  method IssueUnmaps(calls: seq<ClientCall>, ports: seq<MapPortOptions>) returns (log: seq<ClientCall>)
    ensures |log| == |calls| + |ports|
    ensures log[..|calls|] == calls
    ensures forall i :: 0 <= i < |ports| ==> log[|calls| + i] == UnmapCall(ports[i])
    ensures log == calls + UnmapCalls(ports)
  {
    log := calls;
    var i := 0;
    while i < |ports|
      invariant 0 <= i <= |ports|
      invariant |log| == |calls| + i && log[..|calls|] == calls
      invariant forall k :: 0 <= k < i ==> log[|calls| + k] == UnmapCall(ports[k])
    {
      log := log + [UnmapCall(ports[i])];
      i := i + 1;
    }
    assert forall k :: 0 <= k < |log| ==> log[k] == (calls + UnmapCalls(ports))[k];
  }

  /** The `openPorts` filters of the unmaps that succeeded, applied in turn. */
  method ApplyUnmaps(ports: seq<MapPortOptions>, done: seq<MapPortOptions>) returns (rest: seq<MapPortOptions>)
    ensures rest == RetainAll(ports, done)
    ensures forall p :: p in rest <==>
              p in ports && forall t :: t in done ==> p.publicPort != t.publicPort && p.protocol != t.protocol
  {
    rest := ports;
    var j := 0;
    while j < |done|
      invariant 0 <= j <= |done|
      invariant RetainAll(rest, done[j..]) == RetainAll(ports, done)
    {
      assert done[j..][1..] == done[j + 1..];
      rest := Retain(rest, done[j]);
      j := j + 1;
    }
    assert done[j..] == [];
    forall p ensures p in rest <==>
        p in ports && forall t :: t in done ==> p.publicPort != t.publicPort && p.protocol != t.protocol {
      RetainAllMembership(ports, done, p);
    }
  }
}
