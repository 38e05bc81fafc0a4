/** The UPnP gateway device: its description tree, the selection of the WAN connection
    service, the SOAP envelope and SOAPAction header of a control request (UPnP Device
    Architecture 1.1, section 3.2; SOAP 1.1) and the lookup of the reply's body. The XML
    parser's output is taken as an input tree; URL resolution is kept symbolic. */
module UpnpDevice {
  import opened Common

  /** A field xml2js leaves as a single item or turns into an array. */
  datatype Items<T> = One(item: T) | Many(items: seq<T>)

  /** `toArray`. */
  function ToArray<T>(x: Items<T>): (r: seq<T>)
    ensures x.Many? ==> r == x.items
    ensures x.One? ==> r == [x.item]
  {
    match x
    case One(item) => [item]
    case Many(items) => items
  }

  /** A `<service>` element; the URL fields may be missing. */
  datatype GatewayService = GatewayService(
    serviceType: string,
    serviceId: string,
    scpdUrl: Option<string>,
    controlUrl: Option<string>,
    eventSubUrl: Option<string>)

  /** A `<device>` element. `deviceList` is None when `deviceList?.device` is null or
      undefined, and likewise `serviceList`; an entry of either may itself be null. */
  datatype GatewayDevice = GatewayDevice(
    deviceList: Option<Items<Option<GatewayDevice>>>,
    serviceList: Option<Items<Option<GatewayService>>>)

  function Children(d: GatewayDevice): (r: seq<Option<GatewayDevice>>)
    ensures forall i :: 0 <= i < |r| && r[i].Some? ==> r[i].value < d
  {
    match d.deviceList
    case None => []
    case Some(One(c)) => [c]
    case Some(Many(cs)) => cs
  }

  function OwnServices(d: GatewayDevice): seq<Option<GatewayService>> {
    if d.serviceList.Some? then ToArray(d.serviceList.value) else []
  }

  /** The entries of a list that are not null, in order. */
  function Present<T(!new)>(xs: seq<Option<T>>): (r: seq<T>)
    ensures |r| <= |xs|
    ensures forall x :: x in r <==> Some(x) in xs
  {
    if xs == [] then []
    else (if xs[0].Some? then [xs[0].value] else []) + Present(xs[1..])
  }

  // ---------------------------------------------------------------------------
  // The traversal of `parseDescription`, as functions

  /** Devices in pre-order: a device, then the subtrees of its children in order. */
  function Devices(d: GatewayDevice): seq<GatewayDevice>
    decreases d, 1
  {
    [d] + DevicesOfChildren(d, 0)
  }

  function DevicesOfChildren(d: GatewayDevice, i: nat): seq<GatewayDevice>
    decreases d, 0, |Children(d)| - i
  {
    if i >= |Children(d)| then []
    else SubtreeDevices(Children(d)[i]) + DevicesOfChildren(d, i + 1)
  }

  /** The devices of a child entry; a null entry has none. */
  function SubtreeDevices(c: Option<GatewayDevice>): seq<GatewayDevice>
    decreases c, 2
  {
    if c.Some? then Devices(c.value) else []
  }

  /** Services: those of every child subtree first, in order, then the device's own. */
  function Services(d: GatewayDevice): seq<GatewayService>
    decreases d, 1
  {
    ServicesOfChildren(d, 0) + Present(OwnServices(d))
  }

  function ServicesOfChildren(d: GatewayDevice, i: nat): seq<GatewayService>
    decreases d, 0, |Children(d)| - i
  {
    if i >= |Children(d)| then []
    else SubtreeServices(Children(d)[i]) + ServicesOfChildren(d, i + 1)
  }

  function SubtreeServices(c: Option<GatewayDevice>): seq<GatewayService>
    decreases c, 2
  {
    if c.Some? then Services(c.value) else []
  }

  function AllDevices(root: Option<GatewayDevice>): seq<GatewayDevice> {
    if root.Some? then Devices(root.value) else []
  }

  function AllServices(root: Option<GatewayDevice>): seq<GatewayService> {
    if root.Some? then Services(root.value) else []
  }

  /** Every collected service is one a collected device lists itself. */
  lemma {:induction false} ServicesBelongToDevices(d: GatewayDevice, s: GatewayService)
    requires s in Services(d)
    ensures exists e :: e in Devices(d) && Some(s) in OwnServices(e)
    decreases d, 1
  {
    if s in Present(OwnServices(d)) {
      assert d in Devices(d);
    } else {
      ChildServicesBelong(d, 0, s);
    }
  }

  lemma {:induction false} ChildServicesBelong(d: GatewayDevice, i: nat, s: GatewayService)
    requires s in ServicesOfChildren(d, i)
    ensures exists e :: e in DevicesOfChildren(d, i) && Some(s) in OwnServices(e)
    decreases d, 0, |Children(d)| - i
  {
    var c := Children(d)[i];
    var here := SubtreeServices(c);
    if s in here {
      ServicesBelongToDevices(c.value, s);
      var e :| e in Devices(c.value) && Some(s) in OwnServices(e);
      assert e in DevicesOfChildren(d, i);
    } else {
      ChildServicesBelong(d, i + 1, s);
      var e :| e in DevicesOfChildren(d, i + 1) && Some(s) in OwnServices(e);
      assert e in DevicesOfChildren(d, i);
    }
  }

  /** The children from index `j` on collect what those from index `i` on collect, after
      what the children between them collect. */
  lemma {:induction false} ChildrenPrefix(d: GatewayDevice, j: nat, i: nat)
    requires j <= i <= |Children(d)|
    ensures exists pre :: ServicesOfChildren(d, j) == pre + ServicesOfChildren(d, i)
    ensures exists pre :: DevicesOfChildren(d, j) == pre + DevicesOfChildren(d, i)
    decreases i - j
  {
    if j == i {
      assert ServicesOfChildren(d, j) == [] + ServicesOfChildren(d, i);
      assert DevicesOfChildren(d, j) == [] + DevicesOfChildren(d, i);
    } else {
      ChildrenPrefix(d, j + 1, i);
      var ps :| ServicesOfChildren(d, j + 1) == ps + ServicesOfChildren(d, i);
      var pd :| DevicesOfChildren(d, j + 1) == pd + DevicesOfChildren(d, i);
      var c := Children(d)[j];
      assert ServicesOfChildren(d, j) == (SubtreeServices(c) + ps) + ServicesOfChildren(d, i);
      assert DevicesOfChildren(d, j) == (SubtreeDevices(c) + pd) + DevicesOfChildren(d, i);
    }
  }

  /** Whichever child a device has, that child's subtree contributes its services as one
      block before the device's own services, and its devices as one block after the
      device itself. */
  lemma {:induction false} ChildServicesComeFirst(d: GatewayDevice, i: nat)
    requires i < |Children(d)| && Children(d)[i].Some?
    ensures exists pre, post :: Services(d) == pre + Services(Children(d)[i].value) + post + Present(OwnServices(d))
    ensures exists pre, post :: Devices(d) == [d] + pre + Devices(Children(d)[i].value) + post
  {
    ChildServicesBlock(d, i);
    ChildDevicesBlock(d, i);
  }

  lemma {:induction false} ChildServicesBlock(d: GatewayDevice, i: nat)
    requires i < |Children(d)| && Children(d)[i].Some?
    ensures exists pre, post :: Services(d) == pre + Services(Children(d)[i].value) + post + Present(OwnServices(d))
  {
    var c := Children(d)[i].value;
    ChildrenPrefix(d, 0, i);
    var ps :| ServicesOfChildren(d, 0) == ps + ServicesOfChildren(d, i);
    var own, rest := Present(OwnServices(d)), ServicesOfChildren(d, i + 1);
    assert ServicesOfChildren(d, i) == Services(c) + rest;
    calc {
      Services(d);
      (ps + (Services(c) + rest)) + own;
      ps + Services(c) + rest + own;
    }
  }

  lemma {:induction false} ChildDevicesBlock(d: GatewayDevice, i: nat)
    requires i < |Children(d)| && Children(d)[i].Some?
    ensures exists pre, post :: Devices(d) == [d] + pre + Devices(Children(d)[i].value) + post
  {
    var c := Children(d)[i].value;
    ChildrenPrefix(d, 0, i);
    var pd :| DevicesOfChildren(d, 0) == pd + DevicesOfChildren(d, i);
    var rest := DevicesOfChildren(d, i + 1);
    assert DevicesOfChildren(d, i) == Devices(c) + rest;
    calc {
      Devices(d);
      [d] + (pd + (Devices(c) + rest));
      [d] + pd + Devices(c) + rest;
    }
  }

  // ---------------------------------------------------------------------------
  // The traversal as the source runs it: pushes onto two lists

  class Description {
    var services: seq<GatewayService>
    var devices: seq<GatewayDevice>

    constructor ()
      ensures services == [] && devices == []
    {
      services := [];
      devices := [];
    }

    /** `traverseServices`. */
    method TraverseService(s: Option<GatewayService>)
      modifies this`services
      ensures services == old(services) + Present([s])
    {
      if s.None? {
        return;
      }
      services := services + [s.value];
    }

    /** `traverseDevices` on a present device. */
    method TraverseDevice(d: GatewayDevice)
      modifies this`devices, this`services
      ensures devices == old(devices) + Devices(d)
      ensures services == old(services) + Services(d)
      decreases d, 2
    {
      devices := devices + [d];
      TraverseChildren(d);
      TraverseOwnServices(d);
    }

    /** The traversal of each child device in list order, a single child read as a list of one. */
    method TraverseChildren(d: GatewayDevice)
      modifies this`devices, this`services
      ensures devices == old(devices) + DevicesOfChildren(d, 0)
      ensures services == old(services) + ServicesOfChildren(d, 0)
      decreases d, 1
    {
      var children := Children(d);
      var i := 0;
      while i < |children|
        invariant 0 <= i <= |children|
        invariant devices + DevicesOfChildren(d, i) == old(devices) + DevicesOfChildren(d, 0)
        invariant services + ServicesOfChildren(d, i) == old(services) + ServicesOfChildren(d, 0)
      {
        TraverseChild(d, i);
        i := i + 1;
      }
      assert devices == devices + DevicesOfChildren(d, i);
      assert services == services + ServicesOfChildren(d, i);
    }

    /** The collection of each of the device's own services in list order, a single service
        read as a list of one. */
    method TraverseOwnServices(d: GatewayDevice)
      modifies this`services
      ensures services == old(services) + Present(OwnServices(d))
    {
      var own := OwnServices(d);
      var j := 0;
      while j < |own|
        invariant 0 <= j <= |own|
        invariant services == old(services) + Present(own[..j])
      {
        PresentSnoc(own[..j], own[j]);
        assert own[..j + 1] == own[..j] + [own[j]];
        TraverseService(own[j]);
        j := j + 1;
      }
      assert own[..j] == own;
    }

    /** One step of the `forEach` over the children: the i-th child's subtree. */
    method TraverseChild(d: GatewayDevice, i: nat)
      requires i < |Children(d)|
      modifies this`devices, this`services
      ensures devices == old(devices) + SubtreeDevices(Children(d)[i])
      ensures services == old(services) + SubtreeServices(Children(d)[i])
      decreases d, 0
    {
      var c := Children(d)[i];
      if c.Some? {
        TraverseDevice(c.value);
      }
    }
  }

  lemma {:induction false} PresentSnoc<T(!new)>(xs: seq<Option<T>>, x: Option<T>)
    ensures Present(xs + [x]) == Present(xs) + Present([x])
    decreases |xs|
  {
    if xs == [] {
      assert xs + [x] == [x];
    } else {
      assert (xs + [x])[1..] == xs[1..] + [x];
      PresentSnoc(xs[1..], x);
    }
  }

  /** `parseDescription(details)`: the services and devices of the tree under `device`. */
  method ParseDescription(root: Option<GatewayDevice>) returns (services: seq<GatewayService>, devices: seq<GatewayDevice>)
    ensures services == AllServices(root)
    ensures devices == AllDevices(root)
    ensures root.Some? ==> |devices| >= 1 && devices[0] == root.value
  {
    var acc := new Description();
    if root.Some? {
      acc.TraverseDevice(root.value);
    }
    services, devices := acc.services, acc.devices;
  }

  // ---------------------------------------------------------------------------
  // Service selection

  /** The IGD connection services this client can drive. */
  const IGD_SERVICES: seq<string> := [
    "urn:schemas-upnp-org:service:WANIPConnection:1",
    "urn:schemas-upnp-org:service:WANIPConnection:2",
    "urn:schemas-upnp-org:service:WANPPPConnection:1"
  ]

  /** The first service (in collection order) whose type is in `types`. */
  function FirstOfType(services: seq<GatewayService>, types: seq<string>): (r: Option<nat>)
    ensures r.Some? ==> r.value < |services| && services[r.value].serviceType in types
    ensures r.Some? ==> forall j :: 0 <= j < r.value ==> services[j].serviceType !in types
    ensures r.None? ==> forall j :: 0 <= j < |services| ==> services[j].serviceType !in types
  {
    if services == [] then None
    else if services[0].serviceType in types then Some(0)
    else match FirstOfType(services[1..], types)
      case None => None
      case Some(k) => Some(k + 1)
  }

  /** A URL resolved against the description's location (WHATWG URL parsing is not modelled). */
  datatype Url = Resolved(base: string, reference: string)

  datatype ServiceInfo = ServiceInfo(service: string, scpdUrl: Url, controlUrl: Url)

  datatype DeviceError = ServiceNotFound | TransportFailed

  /** The SSDP record a device is built from: where its description lives and the parsed tree. */
  datatype Device = Device(location: string, root: Option<GatewayDevice>)

  /** `getService`: the first allow-listed service, provided it has both URLs. */
  function GetService(dev: Device, types: seq<string>): (r: Result<ServiceInfo, DeviceError>)
    ensures var all := AllServices(dev.root);
      r.Ok? <==> exists i :: 0 <= i < |all| && all[i].serviceType in types
                   && all[i].controlUrl.Some? && all[i].scpdUrl.Some?
                   && forall j :: 0 <= j < i ==> all[j].serviceType !in types
    ensures r.Ok? ==>
      && r.value.service in types
      && r.value.controlUrl.base == dev.location
      && r.value.scpdUrl.base == dev.location
    ensures r.Ok? ==>
      exists i :: (FirstOfType(AllServices(dev.root), types) == Some(i)
        && r.value.service == AllServices(dev.root)[i].serviceType
        && r.value.controlUrl == Resolved(dev.location, AllServices(dev.root)[i].controlUrl.value)
        && r.value.scpdUrl == Resolved(dev.location, AllServices(dev.root)[i].scpdUrl.value))
    ensures r.Err? ==> r == Err(ServiceNotFound)
  {
    var all := AllServices(dev.root);
    match FirstOfType(all, types)
    case None => Err(ServiceNotFound)
    case Some(i) =>
      var s := all[i];
      if s.controlUrl.None? || s.scpdUrl.None? then Err(ServiceNotFound)
      else Ok(ServiceInfo(s.serviceType, Resolved(dev.location, s.scpdUrl.value),
                          Resolved(dev.location, s.controlUrl.value)))
  }

  // ---------------------------------------------------------------------------
  // Namespace prefix of the reply

  const XMLNS: string := "xmlns:"

  /** `xmlns:<key>` declared with exactly the value `uri`. */
  predicate Declares(attrs: seq<(string, JsValue)>, key: string, uri: string) {
    StartsWith(key, XMLNS) && Lookup(attrs, key) == Some(Str(uri))
  }

  /** The index of the first attribute that declares `uri`. */
  function FirstDeclaration(attrs: seq<(string, JsValue)>, uri: string, i: nat): (r: Option<nat>)
    ensures r.Some? ==> i <= r.value < |attrs| && Declares(attrs, attrs[r.value].0, uri)
    ensures r.Some? ==> forall j :: i <= j < r.value ==> !Declares(attrs, attrs[j].0, uri)
    ensures r.None? ==> forall j :: i <= j < |attrs| ==> !Declares(attrs, attrs[j].0, uri)
    decreases |attrs| - i
  {
    if i >= |attrs| then None
    else if Declares(attrs, attrs[i].0, uri) then Some(i)
    else FirstDeclaration(attrs, uri, i + 1)
  }

  /** The attributes object `data['@']`, when it is an object. */
  function Attributes(data: JsValue): seq<(string, JsValue)> {
    if data.Obj? then
      match Lookup(data.entries, "@")
      case Some(Obj(attrs)) => attrs
      case _ => []
    else []
  }

  /** `getNamespace`: `"p:"` for the first `xmlns:p` whose value is `uri`, else `""`. */
  function Namespace(data: JsValue, uri: string): (r: string)
    ensures var attrs := Attributes(data); var k := FirstDeclaration(attrs, uri, 0);
      && (k.None? ==> r == "")
      && (k.Some? ==> r == attrs[k.value].0[|XMLNS|..] + ":")
  {
    var attrs := Attributes(data);
    match FirstDeclaration(attrs, uri, 0)
    case None => ""
    case Some(k) => attrs[k].0[|XMLNS|..] + ":"
  }

  /** `getNamespace` as the source computes it: `.some` over the keys, recording the prefix
      of the first match. */
  method GetNamespace(data: JsValue, uri: string) returns (prefix: string)
    ensures prefix == Namespace(data, uri)
  {
    var attrs := Attributes(data);
    var ns: Option<string> := None;
    var i := 0;
    while i < |attrs| && ns.None?
      invariant 0 <= i <= |attrs|
      invariant ns.None? ==> FirstDeclaration(attrs, uri, 0) == FirstDeclaration(attrs, uri, i)
      invariant ns.Some? ==> 0 < i && FirstDeclaration(attrs, uri, 0) == Some(i - 1)
                             && ns.value == attrs[i - 1].0[|XMLNS|..]
    {
      var key := attrs[i].0;
      if StartsWith(key, XMLNS) && Lookup(attrs, key) == Some(Str(uri)) {
        ns := Some(key[|XMLNS|..]);
      }
      i := i + 1;
    }
    prefix := if ns.Some? then ns.value + ":" else "";
  }

  // ---------------------------------------------------------------------------
  // The SOAP request

  /** An argument value: a string, a number or null. */
  datatype ArgValue = Text(s: string) | Number(n: Num) | Null

  function ValueText(v: ArgValue): string {
    match v
    case Text(s) => s
    case Number(n) => NumToString(n)
    case Null => ""
  }

  function ArgElement(arg: (string, ArgValue)): string {
    "\n      <" + arg.0 + ">" + ValueText(arg.1) + "</" + arg.0 + ">"
  }

  /** `args.map(...).join('')`. */
  function RenderArgs(args: seq<(string, ArgValue)>): string {
    if args == [] then "" else ArgElement(args[0]) + RenderArgs(args[1..])
  }

  /** Rendering a concatenation renders the parts one after the other. */
  lemma {:induction false} RenderArgsAppend(a: seq<(string, ArgValue)>, b: seq<(string, ArgValue)>)
    ensures RenderArgs(a + b) == RenderArgs(a) + RenderArgs(b)
    decreases |a|
  {
    if a == [] {
      assert a + b == b;
    } else {
      assert (a + b)[1..] == a[1..] + b;
      RenderArgsAppend(a[1..], b);
    }
  }

  /** Each argument appears as `<name>value</name>`, in input order. */
  lemma RenderArgsOrder(args: seq<(string, ArgValue)>, i: nat)
    requires i < |args|
    ensures var off := |RenderArgs(args[..i])|;
      off + |ArgElement(args[i])| <= |RenderArgs(args)|
      && RenderArgs(args)[off..off + |ArgElement(args[i])|] == ArgElement(args[i])
  {
    assert args == args[..i] + [args[i]] + args[i + 1..];
    RenderArgsAppend(args[..i] + [args[i]], args[i + 1..]);
    RenderArgsAppend(args[..i], [args[i]]);
    assert RenderArgs([args[i]]) == ArgElement(args[i]);
  }

  const SOAP_ENVELOPE_NS: string := "http://schemas.xmlsoap.org/soap/envelope/"

  /** The envelope up to the action element's name. */
  const ENVELOPE_OPEN: string :=
    "<?xml version=\"1.0\"?>\n<s:Envelope xmlns:s=\"" + SOAP_ENVELOPE_NS
    + "\" s:encodingStyle=\"http://schemas.xmlsoap.org/soap/encoding/\">\n  <s:Body>\n    <u:"

  /** The envelope after the action element's name in its closing tag. */
  const ENVELOPE_CLOSE: string := ">\n  </s:Body>\n</s:Envelope>"

  function EnvelopeHead(action: string, service: string): string {
    ENVELOPE_OPEN + action + " xmlns:u=\"" + service + "\">"
  }

  function EnvelopeTail(action: string): string {
    "\n    </u:" + action + ENVELOPE_CLOSE
  }

  /** The request body of `run`. */
  function Envelope(action: string, service: string, args: seq<(string, ArgValue)>): (r: string)
    ensures |r| == |EnvelopeHead(action, service)| + |RenderArgs(args)| + |EnvelopeTail(action)|
    ensures r[..|EnvelopeHead(action, service)|] == EnvelopeHead(action, service)
    ensures r[|EnvelopeHead(action, service)|..|r| - |EnvelopeTail(action)|] == RenderArgs(args)
    ensures r[|r| - |EnvelopeTail(action)|..] == EnvelopeTail(action)
  {
    var head, body, tail := EnvelopeHead(action, service), RenderArgs(args), EnvelopeTail(action);
    MiddleOf(head, body, tail);
    head + body + tail
  }

  lemma MiddleOf(a: string, b: string, c: string)
    ensures |a + b + c| == |a| + |b| + |c|
    ensures (a + b + c)[..|a|] == a
    ensures (a + b + c)[|a|..|a + b + c| - |c|] == b
    ensures (a + b + c)[|a + b + c| - |c|..] == c
  {
  }

  /** `JSON.stringify(service + '#' + action)`, for strings without quotes or backslashes. */
  function SoapAction(service: string, action: string): string {
    "\"" + service + "#" + action + "\""
  }

  /** The part of a SOAPAction value after its last `#`, quotes removed. */
  function ActionOf(header: string): (r: Option<string>)
  {
    if |header| < 2 || header[0] != '"' || header[|header| - 1] != '"' then None
    else LastSegment(header[1..|header| - 1])
  }

  function LastSegment(s: string): (r: Option<string>)
    ensures r.Some? ==> EndsWith(s, r.value) && '#' !in r.value && |r.value| < |s|
    ensures r.Some? ==> s[|s| - |r.value| - 1] == '#'
    ensures r.None? ==> '#' !in s
  {
    if s == [] then None
    else if s[|s| - 1] == '#' then Some([])
    else match LastSegment(s[..|s| - 1])
      case None => None
      case Some(t) =>
        var r := t + [s[|s| - 1]];
        assert s[|s| - |r|..] == s[|s| - |r| .. |s| - 1] + [s[|s| - 1]];
        Some(r)
  }

  /** The header names the action it was built for, whatever the service type contains. */
  lemma {:induction false} SoapActionRoundTrip(service: string, action: string)
    requires '#' !in action
    ensures ActionOf(SoapAction(service, action)) == Some(action)
    decreases |action|
  {
    var h := SoapAction(service, action);
    assert h[1..|h| - 1] == service + "#" + action;
    ActionLastSegment(service, action);
  }

  lemma {:induction false} ActionLastSegment(service: string, action: string)
    requires '#' !in action
    ensures LastSegment(service + "#" + action) == Some(action)
    decreases |action|
  {
    var s := service + "#" + action;
    if action != [] {
      var init := action[..|action| - 1];
      assert s[..|s| - 1] == service + "#" + init;
      assert forall c :: c in init ==> c in action;
      ActionLastSegment(service, init);
      assert init + [action[|action| - 1]] == action;
    }
  }

  /** A POST the control request sends. */
  datatype SoapRequest = SoapRequest(url: Url, contentType: string, contentLength: string, soapAction: string, body: string)

  /** `run`: select the service, build the request, then read the member `<prefix>Body` of
      the parsed reply (`reply` is the parsed XML, or None when the transport or the parser
      failed). */
  function Run(dev: Device, action: string, args: seq<(string, ArgValue)>, reply: Option<JsValue>): (r: (Option<SoapRequest>, Result<Option<JsValue>, DeviceError>))
    ensures var g := GetService(dev, IGD_SERVICES);
      && (g.Err? <==> r.0.None?)
      && (g.Ok? ==> r.0.value.url == g.value.controlUrl
                    && r.0.value.body == Envelope(action, g.value.service, args)
                    && DigitsValue(r.0.value.contentLength) == |r.0.value.body|)
    ensures r.0.None? ==> r.1 == Err(ServiceNotFound)
    ensures r.0.Some? && reply.None? ==> r.1 == Err(TransportFailed)
    ensures r.0.Some? && reply.Some? ==> r.1 == Ok(ReplyBody(reply.value))
    ensures GetService(dev, IGD_SERVICES).Ok? ==>
      r.0.value.soapAction == SoapAction(GetService(dev, IGD_SERVICES).value.service, action)
  {
    var g := GetService(dev, IGD_SERVICES);
    if g.Err? then (None, Err(g.error))
    else
      (Some(ControlRequest(g.value, action, args)),
       if reply.None? then Err(TransportFailed) else Ok(ReplyBody(reply.value)))
  }

  /** The POST `run` sends to the selected service: the envelope as body, its length in
      decimal as Content-Length, and the SOAPAction header. */
  function ControlRequest(info: ServiceInfo, action: string, args: seq<(string, ArgValue)>): (q: SoapRequest)
    ensures q.url == info.controlUrl && q.body == Envelope(action, info.service, args)
    ensures DigitsValue(q.contentLength) == |q.body|
  {
    var body := Envelope(action, info.service, args);
    NatToStringRoundTrip(|body|);
    SoapRequest(info.controlUrl, "text/xml", NatToString(|body|), SoapAction(info.service, action), body)
  }

  /** The member `<prefix>Body` of the parsed reply, the prefix being the one bound to the
      SOAP envelope namespace. */
  function ReplyBody(data: JsValue): Option<JsValue> {
    var key := Namespace(data, SOAP_ENVELOPE_NS) + "Body";
    if data.Obj? then Lookup(data.entries, key) else None
  }
}
