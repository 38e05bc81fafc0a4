/** The UPnP port-mapping client: it normalises the mapping request, builds the SOAP argument
    lists of the WAN connection service's actions, picks the external address out of the
    reply and keeps the `closed` flag and the cancel hook of a pending gateway discovery.
    Gateway discovery and the control request's reply are inputs to each call. */
module UpnpClient {
  import opened Common
  import opened UpnpDevice

  const DEFAULT_TTL: int := 60 * 30
  const DEFAULT_DESCRIPTION: string := "node:nat:upnp"
  const RESPONSE_SUFFIX: string := ":GetExternalIPAddressResponse"
  const EXTERNAL_ADDRESS: string := "NewExternalIPAddress"

  const ADD_PORT_MAPPING: string := "AddPortMapping"
  const DELETE_PORT_MAPPING: string := "DeletePortMapping"
  const GET_EXTERNAL_IP_ADDRESS: string := "GetExternalIPAddress"

  // ---------------------------------------------------------------------------
  // The mapping request as the client receives it

  /** `options.ttl`: missing, a number, or a string together with the number `Number(text)`
      yields for it (JavaScript's string-to-number conversion is not modelled). */
  datatype TtlInput = NoTtl | NumberTtl(n: Num) | StringTtl(text: string, number: Num)

  datatype MapInput = MapInput(
    publicPort: int,
    localPort: int,
    localAddress: string,
    protocol: Option<string>,
    description: Option<string>,
    ttl: TtlInput)

  datatype UnmapInput = UnmapInput(publicPort: int, protocol: Option<string>)

  /** The options the orchestrator passes once it has filled in every default. */
  function FromOptions(o: MapPortOptions): MapInput {
    MapInput(o.publicPort, o.localPort, o.localAddress, Some(o.protocol), Some(o.description),
             NumberTtl(Int(o.ttl)))
  }

  /** The options the orchestrator passes to `unmap`: only the public port and the protocol
      are read. */
  function UnmapFromOptions(o: MapPortOptions): UnmapInput {
    UnmapInput(o.publicPort, Some(o.protocol))
  }

  /** The lease duration: 1800 seconds unless a number, or a string that converts to a
      number other than NaN, is given. */
  function LeaseDuration(t: TtlInput): (r: Num)
    ensures t.NoTtl? ==> r == Int(DEFAULT_TTL)
    ensures r.NaN? <==> t == NumberTtl(NaN)
    ensures r != Int(DEFAULT_TTL) ==>
              (t.NumberTtl? && r == t.n) || (t.StringTtl? && r == t.number)
    ensures t.NumberTtl? ==> r == t.n
    ensures t.StringTtl? && !t.number.NaN? ==> r == t.number
    ensures t.StringTtl? && t.number.NaN? ==> r == Int(DEFAULT_TTL)
  {
    match t
    case NoTtl => Int(DEFAULT_TTL)
    case NumberTtl(n) => n
    case StringTtl(_, n) => if n.NaN? then Int(DEFAULT_TTL) else n
  }

  /** A ttl given as a numeric string leases exactly as long as the same number given as a
      number; a string that does not convert leases as long as no ttl at all. */
  lemma StringTtlAgreesWithNumber(text: string, n: Num)
    ensures n != NaN ==> LeaseDuration(StringTtl(text, n)) == LeaseDuration(NumberTtl(n))
    ensures n == NaN ==> LeaseDuration(StringTtl(text, n)) == LeaseDuration(NoTtl)
  {
  }

  /** The protocol sent first: exactly "TCP" stays, anything else becomes "UDP". */
  function WireProtocol(p: Option<string>): (r: string)
    ensures r == "TCP" <==> p == Some("TCP")
    ensures r == "TCP" || r == "UDP"
  {
    if p == Some("TCP") then "TCP" else "UDP"
  }

  /** The comparison is case-sensitive: a lower-case protocol is sent as UDP. */
  lemma LowerCaseTcpIsSentAsUdp()
    ensures WireProtocol(Some("tcp")) == "UDP"
  {
  }

  /** The protocol as given, or an empty element when it is missing. */
  function RawProtocol(p: Option<string>): ArgValue {
    if p.Some? then Text(p.value) else Null
  }

  function Description(d: Option<string>): string {
    if d.Some? then d.value else DEFAULT_DESCRIPTION
  }

  // ---------------------------------------------------------------------------
  // Argument lists

  function ArgNames(args: seq<(string, ArgValue)>): seq<string> {
    seq(|args|, i requires 0 <= i < |args| => args[i].0)
  }

  const NEW_EXTERNAL_PORT: string := "NewExternalPort"
  const NEW_PROTOCOL: string := "NewProtocol"
  const NEW_INTERNAL_PORT: string := "NewInternalPort"
  const NEW_INTERNAL_CLIENT: string := "NewInternalClient"
  const NEW_ENABLED: string := "NewEnabled"
  const NEW_DESCRIPTION: string := "NewPortMappingDescription"
  const NEW_LEASE_DURATION: string := "NewLeaseDuration"

  const ADD_PORT_MAPPING_NAMES: seq<string> := [
    NEW_EXTERNAL_PORT, NEW_PROTOCOL, NEW_INTERNAL_PORT, NEW_INTERNAL_CLIENT,
    NEW_ENABLED, NEW_DESCRIPTION, NEW_LEASE_DURATION, NEW_PROTOCOL]

  const DELETE_PORT_MAPPING_NAMES: seq<string> := [NEW_EXTERNAL_PORT, NEW_PROTOCOL]

  /** The arguments of `AddPortMapping`: eight pairs, `NewProtocol` twice. */
  function AddPortMappingArgs(o: MapInput): (r: seq<(string, ArgValue)>)
    ensures ArgNames(r) == ADD_PORT_MAPPING_NAMES
    ensures r[1].1 == Text(WireProtocol(o.protocol)) && r[7].1 == RawProtocol(o.protocol)
    ensures r[0].1 == ArgValue.Number(Int(o.publicPort)) && r[2].1 == ArgValue.Number(Int(o.localPort))
    ensures r[3].1 == Text(o.localAddress) && r[4].1 == ArgValue.Number(Int(1))
    ensures r[5].1 == Text(Description(o.description)) && r[6].1 == ArgValue.Number(LeaseDuration(o.ttl))
  {
    [(NEW_EXTERNAL_PORT, ArgValue.Number(Int(o.publicPort))),
     (NEW_PROTOCOL, Text(WireProtocol(o.protocol))),
     (NEW_INTERNAL_PORT, ArgValue.Number(Int(o.localPort))),
     (NEW_INTERNAL_CLIENT, Text(o.localAddress)),
     (NEW_ENABLED, ArgValue.Number(Int(1))),
     (NEW_DESCRIPTION, Text(Description(o.description))),
     (NEW_LEASE_DURATION, ArgValue.Number(LeaseDuration(o.ttl))),
     (NEW_PROTOCOL, RawProtocol(o.protocol))]
  }

  /** The arguments of `DeletePortMapping`: the external port and the protocol as given. */
  function DeletePortMappingArgs(u: UnmapInput): (r: seq<(string, ArgValue)>)
    ensures ArgNames(r) == DELETE_PORT_MAPPING_NAMES
    ensures r[0].1 == ArgValue.Number(Int(u.publicPort)) && r[1].1 == RawProtocol(u.protocol)
  {
    [(NEW_EXTERNAL_PORT, ArgValue.Number(Int(u.publicPort))),
     (NEW_PROTOCOL, RawProtocol(u.protocol))]
  }

  /** For the orchestrator's options the two `NewProtocol` entries agree exactly when the
      protocol is "TCP" or "UDP", the lease is the orchestrator's ttl and the description
      is the orchestrator's. */
  lemma OrchestratorArgs(o: MapPortOptions)
    ensures var args := AddPortMappingArgs(FromOptions(o));
      && (args[1].1 == args[7].1 <==> o.protocol == "TCP" || o.protocol == "UDP")
      && args[6].1 == ArgValue.Number(Int(o.ttl))
      && args[5].1 == Text(o.description)
  {
    var args := AddPortMappingArgs(FromOptions(o));
    if o.protocol == "UDP" {
      assert args[1].1 == Text("UDP");
    }
  }

  // ---------------------------------------------------------------------------
  // The external address in the reply

  /** `Object.keys` of an object: its keys in order. */
  function Keys(es: seq<(string, JsValue)>): (r: seq<string>)
    ensures |r| == |es| && forall i :: 0 <= i < |es| ==> r[i] == es[i].0
  {
    seq(|es|, i requires 0 <= i < |es| => es[i].0)
  }

  /** The index of the first key that ends with ":GetExternalIPAddressResponse". */
  function FirstResponseKey(keys: seq<string>, from: nat): (r: Option<nat>)
    requires from <= |keys|
    ensures r.Some? ==> from <= r.value < |keys| && EndsWith(keys[r.value], RESPONSE_SUFFIX)
    ensures r.Some? ==> forall j :: from <= j < r.value ==> !EndsWith(keys[j], RESPONSE_SUFFIX)
    ensures r.None? ==> forall j :: from <= j < |keys| ==> !EndsWith(keys[j], RESPONSE_SUFFIX)
    decreases |keys| - from
  {
    if from == |keys| then None
    else if EndsWith(keys[from], RESPONSE_SUFFIX) then Some(from)
    else FirstResponseKey(keys, from + 1)
  }

  /** The `.some` scan: stops at the first key with the suffix. */
  method FindResponseKey(keys: seq<string>) returns (key: Option<string>)
    ensures key.Some? <==> exists i :: 0 <= i < |keys| && EndsWith(keys[i], RESPONSE_SUFFIX)
    ensures key.Some? ==> key.value == keys[FirstResponseKey(keys, 0).value]
  {
    key := None;
    var i := 0;
    while i < |keys| && key.None?
      invariant 0 <= i <= |keys|
      invariant key.None? ==> FirstResponseKey(keys, 0) == FirstResponseKey(keys, i)
      invariant key.Some? ==> 0 < i && FirstResponseKey(keys, 0) == Some(i - 1)
                              && key.value == keys[i - 1]
      decreases |keys| - i
    {
      if EndsWith(keys[i], RESPONSE_SUFFIX) {
        key := Some(keys[i]);
      }
      i := i + 1;
    }
  }

  /** `data[key].NewExternalIPAddress` of the body member: a missing body is a TypeError,
      a body without a matching key is "Incorrect response". The keys of a string or an
      array are its indices, which never end in a colon-prefixed name. */
  function ExternalAddress(data: Option<JsValue>): (r: Result<Option<JsValue>, ClientError>)
    ensures data.None? ==> r == Err(NotAnObject)
    ensures data.Some? && !data.value.Obj? ==> r == Err(IncorrectResponse)
    ensures data.Some? && data.value.Obj? ==>
      var es := data.value.entries;
      && (r.Err? <==> forall j :: 0 <= j < |es| ==> !EndsWith(es[j].0, RESPONSE_SUFFIX))
      && (r.Err? ==> r == Err(IncorrectResponse))
      && (r.Ok? ==> exists i :: FirstResponseKey(Keys(es), 0) == Some(i)
                                && r.value == Member(es[i].1, EXTERNAL_ADDRESS))
  {
    if data.None? then Err(NotAnObject)
    else if !data.value.Obj? then Err(IncorrectResponse)
    else
      var es := data.value.entries;
      var keys := Keys(es);
      match FirstResponseKey(keys, 0)
      case None => Err(IncorrectResponse)
      case Some(i) =>
        FirstKeyLookup(es, i);
        Ok(Member(Lookup(es, keys[i]).value, EXTERNAL_ADDRESS))
  }

  /** `v.name`: an object's member, undefined on anything else. */
  function Member(v: JsValue, name: string): Option<JsValue> {
    if v.Obj? then Lookup(v.entries, name) else None
  }

  /** A key whose earlier keys all lack the suffix is looked up at its own position. */
  lemma {:induction false} FirstKeyLookup(es: seq<(string, JsValue)>, i: nat)
    requires i < |es| && EndsWith(es[i].0, RESPONSE_SUFFIX)
    requires forall j :: 0 <= j < i ==> !EndsWith(es[j].0, RESPONSE_SUFFIX)
    ensures Lookup(es, es[i].0) == Some(es[i].1)
  {
    if i > 0 {
      assert es[0].0 != es[i].0;
      FirstKeyLookup(es[1..], i - 1);
    }
  }

  // ---------------------------------------------------------------------------
  // The client's state, as values

  datatype ClientError =
    | ClientClosed
    | DiscoveryFailed
    | DeviceFailed(cause: DeviceError)
    | IncorrectResponse
    | NotAnObject

  /** `closed`, whether `cancelGatewayDiscovery` is set, whether the abort signal fired, the
      number of discovery handles requested, the number of cancel calls, and the control
      requests sent. */
  datatype ClientState = ClientState(
    closed: bool,
    cancelSet: bool,
    aborted: bool,
    lookups: nat,
    cancelCalls: nat,
    sent: seq<SoapRequest>)

  function Initial(): ClientState {
    ClientState(false, false, false, 0, 0, [])
  }

  /** The part of `findGateway` up to the await: refuse when closed, otherwise take a
      discovery handle and keep its cancel hook. */
  function BeginFindSpec(s: ClientState): (ClientState, Result<(), ClientError>) {
    if s.closed then (s, Err(ClientClosed))
    else (s.(cancelSet := true, lookups := s.lookups + 1), Ok(()))
  }

  /** The rest of `findGateway`: the hook is dropped when the discovery delivers a gateway;
      a failed discovery leaves it set. */
  function EndFindSpec(s: ClientState, found: Option<Device>): (ClientState, Result<Device, ClientError>) {
    if found.None? then (s, Err(DiscoveryFailed))
    else (s.(cancelSet := false), Ok(found.value))
  }

  function FindSpec(s: ClientState, found: Option<Device>): (ClientState, Result<Device, ClientError>) {
    var (s1, r) := BeginFindSpec(s);
    if r.Err? then (s1, Err(r.error)) else EndFindSpec(s1, found)
  }

  /** `gateway.run(...)` with the client's abort signal: once aborted, the transport fails. */
  function RunSpec(s: ClientState, dev: Device, action: string, args: seq<(string, ArgValue)>, reply: Option<JsValue>)
    : (ClientState, Result<Option<JsValue>, ClientError>)
  {
    var out := Transport(s, dev, action, args, reply);
    (s.(sent := Sent(s.sent, out.0)),
     if out.1.Err? then Err(DeviceFailed(out.1.error)) else Ok(out.1.value))
  }

  /** The log after a request, if one was made. */
  function Sent(log: seq<SoapRequest>, request: Option<SoapRequest>): seq<SoapRequest> {
    if request.Some? then log + [request.value] else log
  }

  /** The device's `run` as this client's transport sees it: no reply once aborted. */
  function Transport(s: ClientState, dev: Device, action: string, args: seq<(string, ArgValue)>, reply: Option<JsValue>)
    : (Option<SoapRequest>, Result<Option<JsValue>, DeviceError>)
  {
    Run(dev, action, args, if s.aborted then None else reply)
  }

  function MapSpec(s: ClientState, o: MapInput, found: Option<Device>, reply: Option<JsValue>)
    : (ClientState, Result<(), ClientError>)
  {
    if s.closed then (s, Err(ClientClosed))
    else
      var (s1, g) := FindSpec(s, found);
      if g.Err? then (s1, Err(g.error))
      else
        var (s2, r) := RunSpec(s1, g.value, ADD_PORT_MAPPING, AddPortMappingArgs(o), reply);
        (s2, if r.Err? then Err(r.error) else Ok(()))
  }

  function UnmapSpec(s: ClientState, u: UnmapInput, found: Option<Device>, reply: Option<JsValue>)
    : (ClientState, Result<(), ClientError>)
  {
    if s.closed then (s, Err(ClientClosed))
    else
      var (s1, g) := FindSpec(s, found);
      if g.Err? then (s1, Err(g.error))
      else
        var (s2, r) := RunSpec(s1, g.value, DELETE_PORT_MAPPING, DeletePortMappingArgs(u), reply);
        (s2, if r.Err? then Err(r.error) else Ok(()))
  }

  function ExternalIpSpec(s: ClientState, found: Option<Device>, reply: Option<JsValue>)
    : (ClientState, Result<Option<JsValue>, ClientError>)
  {
    if s.closed then (s, Err(ClientClosed))
    else
      var (s1, g) := FindSpec(s, found);
      if g.Err? then (s1, Err(g.error))
      else
        var (s2, r) := RunSpec(s1, g.value, GET_EXTERNAL_IP_ADDRESS, [], reply);
        (s2, if r.Err? then Err(r.error) else ExternalAddress(r.value))
  }

  /** `close`: mark closed, fire the abort signal, and call the cancel hook when it is set. */
  function CloseSpec(s: ClientState): ClientState {
    s.(closed := true, aborted := true,
       cancelCalls := s.cancelCalls + (if s.cancelSet then 1 else 0))
  }

  // ---------------------------------------------------------------------------
  // Properties

  /** Once closed, every operation is refused with "client is closed" and changes nothing. */
  lemma ClosedRefusesEverything(s: ClientState, o: MapInput, u: UnmapInput, found: Option<Device>, reply: Option<JsValue>)
    ensures var c := CloseSpec(s);
      && MapSpec(c, o, found, reply) == (c, Err(ClientClosed))
      && UnmapSpec(c, u, found, reply) == (c, Err(ClientClosed))
      && ExternalIpSpec(c, found, reply) == (c, Err(ClientClosed))
      && FindSpec(c, found) == (c, Err(ClientClosed))
      && CloseSpec(c).cancelCalls == c.cancelCalls + (if s.cancelSet then 1 else 0)
  {
  }

  /** The cancel hook is called by `close` exactly when a discovery is pending or has
      failed: not on a fresh client, once while a discovery is pending, not after a
      discovery delivered a gateway, and once after a discovery failed. */
  lemma CancelOnlyForPendingDiscovery(d: Device)
    ensures CloseSpec(Initial()).cancelCalls == 0
    ensures var s1 := BeginFindSpec(Initial()).0;
      && CloseSpec(s1).cancelCalls == 1
      && CloseSpec(EndFindSpec(s1, Some(d)).0).cancelCalls == 0
      && CloseSpec(EndFindSpec(s1, None).0).cancelCalls == 1
  {
  }

  /** A `close` while the discovery is pending cancels it, and the request the operation
      then sends fails, because the abort signal has fired. */
  lemma {:induction false} CloseDuringDiscovery(s: ClientState, d: Device, args: seq<(string, ArgValue)>, reply: Option<JsValue>)
    requires !s.closed
    ensures var s1 := BeginFindSpec(s).0;
      var s2 := CloseSpec(s1);
      var (s3, g) := EndFindSpec(s2, Some(d));
      && s2.cancelCalls == s.cancelCalls + 1
      && g == Ok(d)
      && RunSpec(s3, d, ADD_PORT_MAPPING, args, reply).1.Err?
  {
    var s3 := EndFindSpec(CloseSpec(BeginFindSpec(s).0), Some(d)).0;
    assert s3.aborted;
    var result := Run(d, ADD_PORT_MAPPING, args, None).1;
    assert result.Err?;
  }

  /** An open client with a usable gateway sends exactly one `AddPortMapping` request whose
      body is the envelope of the argument list, and succeeds exactly when a reply arrives. */
  lemma {:induction false} MapSendsOneRequest(s: ClientState, o: MapInput, d: Device, reply: Option<JsValue>)
    requires !s.closed && !s.aborted
    requires GetService(d, IGD_SERVICES).Ok?
    ensures var (s2, r) := MapSpec(s, o, Some(d), reply);
      && |s2.sent| == |s.sent| + 1
      && s2.sent[..|s.sent|] == s.sent
      && s2.sent[|s.sent|].body
           == Envelope(ADD_PORT_MAPPING, GetService(d, IGD_SERVICES).value.service, AddPortMappingArgs(o))
      && (r.Ok? <==> reply.Some?)
      && s2.closed == s.closed && !s2.cancelSet && s2.lookups == s.lookups + 1
  {
    var s1 := FindSpec(s, Some(d)).0;
    assert !s1.aborted;
    var (request, result) := Run(d, ADD_PORT_MAPPING, AddPortMappingArgs(o), reply);
    assert request.Some?;
  }

  /** Without a gateway nothing is sent. */
  lemma NoGatewayNoRequest(s: ClientState, o: MapInput, u: UnmapInput, reply: Option<JsValue>)
    ensures MapSpec(s, o, None, reply).0.sent == s.sent
    ensures UnmapSpec(s, u, None, reply).0.sent == s.sent
    ensures ExternalIpSpec(s, None, reply).0.sent == s.sent
    ensures !s.closed ==> MapSpec(s, o, None, reply).1 == Err(DiscoveryFailed)
  {
  }

  // ---------------------------------------------------------------------------
  // The client object

  class Client {
    var closed: bool
    var cancelSet: bool
    var aborted: bool
    var lookups: nat
    var cancelCalls: nat
    var sent: seq<SoapRequest>

    function State(): ClientState
      reads this
    {
      ClientState(closed, cancelSet, aborted, lookups, cancelCalls, sent)
    }

    constructor()
      ensures State() == Initial()
    {
      closed := false;
      cancelSet := false;
      aborted := false;
      lookups := 0;
      cancelCalls := 0;
      sent := [];
    }

    method BeginFindGateway() returns (r: Result<(), ClientError>)
      modifies this
      ensures (State(), r) == BeginFindSpec(old(State()))
    {
      if closed {
        return Err(ClientClosed);
      }
      cancelSet := true;
      lookups := lookups + 1;
      r := Ok(());
    }

    /** `found` is the gateway `discovery.gateway()` delivers, None when it rejects. */
    method CompleteFindGateway(found: Option<Device>) returns (r: Result<Device, ClientError>)
      modifies this
      ensures (State(), r) == EndFindSpec(old(State()), found)
    {
      if found.None? {
        return Err(DiscoveryFailed);
      }
      cancelSet := false;
      r := Ok(found.value);
    }

    method FindGateway(found: Option<Device>) returns (r: Result<Device, ClientError>)
      modifies this
      ensures (State(), r) == FindSpec(old(State()), found)
    {
      var b := BeginFindGateway();
      if b.Err? {
        return Err(b.error);
      }
      r := CompleteFindGateway(found);
    }

    /** The transport records the request it sends, if any. */
    method Record(request: Option<SoapRequest>)
      modifies this
      ensures State() == old(State()).(sent := Sent(old(sent), request))
    {
      sent := Sent(sent, request);
    }

    /** `gateway.run`: the request, if any, is recorded as sent. */
    method RunAction(dev: Device, action: string, args: seq<(string, ArgValue)>, reply: Option<JsValue>)
      returns (r: Result<Option<JsValue>, ClientError>)
      modifies this
      ensures (State(), r) == RunSpec(old(State()), dev, action, args, reply)
    {
      var out := Transport(State(), dev, action, args, reply);
      Record(out.0);
      r := if out.1.Err? then Err(DeviceFailed(out.1.error)) else Ok(out.1.value);
    }

    method Map(o: MapInput, found: Option<Device>, reply: Option<JsValue>) returns (r: Result<(), ClientError>)
      modifies this
      ensures (State(), r) == MapSpec(old(State()), o, found, reply)
    {
      if closed {
        return Err(ClientClosed);
      }
      var g := FindGateway(found);
      if g.Err? {
        return Err(g.error);
      }
      var res := RunAction(g.value, ADD_PORT_MAPPING, AddPortMappingArgs(o), reply);
      r := if res.Err? then Err(res.error) else Ok(());
    }

    method Unmap(u: UnmapInput, found: Option<Device>, reply: Option<JsValue>) returns (r: Result<(), ClientError>)
      modifies this
      ensures (State(), r) == UnmapSpec(old(State()), u, found, reply)
    {
      if closed {
        return Err(ClientClosed);
      }
      var g := FindGateway(found);
      if g.Err? {
        return Err(g.error);
      }
      var res := RunAction(g.value, DELETE_PORT_MAPPING, DeletePortMappingArgs(u), reply);
      r := if res.Err? then Err(res.error) else Ok(());
    }

    method ExternalIp(found: Option<Device>, reply: Option<JsValue>) returns (r: Result<Option<JsValue>, ClientError>)
      modifies this
      ensures (State(), r) == ExternalIpSpec(old(State()), found, reply)
    {
      if closed {
        return Err(ClientClosed);
      }
      var g := FindGateway(found);
      if g.Err? {
        return Err(g.error);
      }
      var res := RunAction(g.value, GET_EXTERNAL_IP_ADDRESS, [], reply);
      if res.Err? {
        return Err(res.error);
      }
      r := ExternalAddress(res.value);
    }

    method Close()
      modifies this
      ensures State() == CloseSpec(old(State()))
    {
      closed := true;
      aborted := true;
      if cancelSet {
        cancelCalls := cancelCalls + 1;
      }
    }
  }
}
