# nat-api, modelled in Dafny

nat-api maps ports on a home router. It speaks two protocols:

- **NAT-PMP** (RFC 6886). `PMPClient` encodes fixed-width big-endian request frames and decodes the gateway's responses. It runs a FIFO request queue with at most one request in flight, driven by a small socket state machine.
- **UPnP IGD.** An SSDP transport multicasts M-SEARCH queries and parses the advertisements that come back. A gateway-discovery facade caches the gateway it found. A `Device` walks the gateway's description tree, picks the WAN connection service and builds SOAP control requests. `UPNPClient` builds the argument lists of `AddPortMapping`, `DeletePortMapping` and `GetExternalIPAddress`.

The orchestrator `NatAPI` sits on top of either client. It normalises the lifetime and the options, remembers the mappings it opened, and keeps one refresh timer per mapping.

The project has one Dafny module per source file:

| file | module | source |
|---|---|---|
| common.dfy | `Common` | values shared by all: results, JavaScript numbers and values, decimal rendering, the validated mapping options |
| pmp.dfy | `Pmp` | src/pmp/index.ts |
| natapi.dfy | `NatApi` | src/index.ts |
| device.dfy | `UpnpDevice` | src/upnp/device.ts |
| ssdp.dfy | `Ssdp` | lib/upnp/ssdp.js |
| upnpclient.dfy | `UpnpClient` | src/upnp/index.ts |
| discovery.dfy | `Discovery` | src/discovery/index.ts |

Code that changes state in place is modelled as a class whose fields are the source's fields:

- `PmpClient`;
- `NatApi`;
- the `Description` traversal;
- `SsdpTransport`;
- the UPnP `Client`;
- the discovery `Scope` and `Handle`.

Each such class has a `State()` value. Each of its methods is proved to move that value exactly as a pure specification function says (`MapSpec`, `OnMessageSpec`, …). The source's properties are proved as lemmas about those functions. Loops become `while` loops with invariants: the device traversal over children and own services, `getNamespace`, the `.some` key scan, the ready gate's replay, the socket broadcast, and `close`'s timer and unmap loops.

The outside world becomes inputs and logs:

- sockets, timers, the clock, the XML parser, HTTP, gateway discovery and the protocol client's replies become parameters of the methods;
- what the code does to that world becomes a log in the state: datagrams sent, deferreds settled, cancel and clear calls, SOAP requests sent, client calls made.

## Model

| member | source | states |
|---|---|---|
| Common.Lookup | src/upnp/device.ts:82 | property lookup yields a value stored under the key, and undefined only when no entry has the key |
| Common.NatToStringRoundTrip | src/upnp/device.ts:61 | the decimal text of a length reads back as that length |
| Common.IntToString | src/index.ts:83 | template rendering of an integer: a leading '-' exactly for negatives, followed by the decimal digits of the magnitude |
| Common.IntToStringInjective | src/index.ts:83 | different integers render to different texts |
| Common.ToLower | lib/upnp/ssdp.js:151 | lower-casing keeps the length and maps exactly the ASCII capitals |
| Pmp.OpOf | src/pmp/index.ts:179-228 | `request` accepts exactly the opcodes 0, 1 and 2, and each maps back to its code |
| Pmp.ReadUintBE | src/pmp/index.ts:338-353 | a big-endian field reads back as the value written |
| Pmp.WriteUInt16BE | src/pmp/index.ts:208-213 | writes exactly two big-endian bytes at `pos` and leaves the rest of the buffer alone |
| Pmp.WriteUInt32BE | src/pmp/index.ts:214-215 | writes exactly four big-endian bytes at `pos` and leaves the rest alone |
| Pmp.WriteMappingFrame | src/pmp/index.ts:202-216 | the step-by-step buffer writes produce the 12-byte RFC 6886 section 3.3 frame |
| Pmp.WriteExternalIpFrame | src/pmp/index.ts:217-226 | the external-address frame is exactly [0, 0] |
| Pmp.MappingFrameLayout | src/pmp/index.ts:202-215 | a mapping frame is 12 bytes: [0, op, 0, 0, internal BE16, external BE16, ttl BE32] |
| Pmp.MappingRoundTrip | src/pmp/index.ts:348-355 | decoding the grant of an encoded mapping yields the encoded ports and lifetime; the type is "udp" iff op = 1 |
| Pmp.ExternalIpRoundTrip | src/pmp/index.ts:338-361 | a successful external address response resolves with its epoch and bytes 8-11 as the four-byte address array |
| Pmp.RequestPortChecks | src/pmp/index.ts:186-200 | a mapping request throws the "whole integer" error for a port iff it is not a 32-bit integer (the `< 0` test is never reached); a negative or too large 32-bit port is Buffer's range error for that port |
| Pmp.NonZeroResultRejects | src/pmp/index.ts:338-345 | a matched version-0 response with a non-zero result code rejects with that code; a text exists iff code ≤ 5 |
| Pmp.ProtocolSelection | src/pmp/index.ts:91-100 | tcp → 2 and udp → 1, case-insensitively; any other name throws before discovery or queueing, changing nothing |
| Pmp.UpperCaseProtocols | src/pmp/index.ts:91-97 | "TCP" and "UDP" are accepted |
| Pmp.RequestOpcodes | src/pmp/index.ts:217-233 | opcode 0 queues exactly [0, 0]; an unknown opcode throws "Invalid opcode" and queues nothing |
| Pmp.MappingFields | src/pmp/index.ts:186-215 | a mapping frame carries the ports read from the options; the lifetime is the ttl if it is a 32-bit integer, else 7200 |
| Pmp.MapFramesCarryPortZero | src/pmp/index.ts:186-200 | `map`'s frames carry ports 0 (the options have no private/public fields); a negative ttl is a range error |
| Pmp.UnmapFrameDeletesAll | src/pmp/index.ts:117-126 | `unmap` sends ports 0 and lifetime 0 |
| Pmp.NextSendsOnlyWhenIdle | src/pmp/index.ts:243-280 | `_next` sends iff the queue is non-empty, the socket listens and nothing is active; it sends the head, marks it active and keeps it queued; it binds iff not listening and not connecting |
| Pmp.IgnoredMessageChangesNothing | src/pmp/index.ts:291-325 | a message on an empty queue, or with op − 128 ≠ head op, changes nothing |
| Pmp.MatchedMessagePopsHead | src/pmp/index.ts:299-345 | a matching message pops the head once; its deferred is settled, and rejected iff version ≠ 0 or result ≠ 0; the next frame is sent iff listening and one is queued |
| Pmp.ErrorKeepsActiveRequest | src/pmp/index.ts:376-389 | `onError` rejects nothing, keeps `reqActive`/`req` and the queue, and, when an 'error' listener is attached, resets the socket flags |
| Pmp.NextKeepsOrder | src/pmp/index.ts:243-280 | `_next` preserves the FIFO invariant |
| Pmp.PushKeepsOrder | src/pmp/index.ts:233 | appending a request under the next deferred preserves the FIFO invariant |
| Pmp.PopKeepsOrder | src/pmp/index.ts:330 | shifting the head preserves the FIFO invariant |
| Pmp.SettleKeepsOrder | src/pmp/index.ts:299-315 | settling the head and sending the next preserves the FIFO invariant |
| Pmp.QueueShape | src/pmp/index.ts:102-114 | after discovery, a request is pushed under a fresh deferred, then `_next` runs |
| Pmp.QueueKeepsOrder | src/pmp/index.ts:102-114 | queueing a request preserves the FIFO invariant |
| Pmp.CompleteKeepsOrder | src/pmp/index.ts:105-114 | completing a request after the gateway wait preserves the FIFO invariant, whatever ran during the wait |
| Pmp.CloseDuringDiscovery | src/pmp/index.ts:102-114 | a close during the gateway wait cancels the discovery; a gateway still delivered pushes the request onto the emptied queue and binds the closed socket again |
| Pmp.MessageKeepsOrder | src/pmp/index.ts:291-368 | `onMessage` preserves the FIFO invariant |
| Pmp.StepKeepsOrder | src/pmp/index.ts:81-389 | every call and socket event preserves the FIFO invariant |
| Pmp.RunKeepsOrder | src/pmp/index.ts:232-280 | any sequence of events keeps requests sent and settled at most once, in submission order |
| Pmp.InitialOrdered | src/pmp/index.ts:56-79 | the constructed client satisfies the FIFO invariant |
| Pmp.MapShape | src/pmp/index.ts:88-115 | a successful `map` has an accepted protocol and pushes its encoded frame, then runs `_next` |
| Pmp.SecondRequestWaitsForFirst | src/pmp/index.ts:268-280 | with two requests queued only the first is sent; the second goes out once the first's response is consumed |
| Pmp.PmpClient.constructor | src/pmp/index.ts:56-79 | empty queue, flags cleared, one bind |
| Pmp.PmpClient.Connect | src/pmp/index.ts:81-86 | binds once unless already connecting |
| Pmp.PmpClient.Next | src/pmp/index.ts:243-280 | moves the state as `NextSpec` |
| Pmp.PmpClient.Request | src/pmp/index.ts:168-237 | builds the frame in a buffer and queues it, or throws with the state unchanged, as `RequestSpec` |
| Pmp.PmpClient.BeginQueue | src/pmp/index.ts:102-103 | keeps the discovery's cancel hook |
| Pmp.PmpClient.CompleteQueue | src/pmp/index.ts:105-114 | drops the hook and queues the request under a fresh deferred, as `CompleteQueueSpec` |
| Pmp.PmpClient.Queue | src/pmp/index.ts:102-114 | both halves in turn, as `QueueSpec` |
| Pmp.PmpClient.Map | src/pmp/index.ts:88-115 | as `MapSpec` |
| Pmp.PmpClient.Unmap | src/pmp/index.ts:117-126 | `map` with ttl 0 and empty description and address |
| Pmp.PmpClient.ExternalIp | src/pmp/index.ts:128-144 | queues an opcode-0 request after discovery |
| Pmp.PmpClient.Close | src/pmp/index.ts:146-162 | closes the socket, drops the queue, clears the flags, cancels a pending discovery |
| Pmp.PmpClient.OnListening | src/pmp/index.ts:282-289 | listening, no longer connecting, then `_next` |
| Pmp.PmpClient.OnMessage | src/pmp/index.ts:291-368 | as `OnMessageSpec` |
| Pmp.PmpClient.OnClose | src/pmp/index.ts:370-374 | clears `listening` and `connecting` |
| Pmp.PmpClient.OnError | src/pmp/index.ts:376-389 | as `OnErrorSpec` |
| NatApi.EffectiveTtl | src/index.ts:56 | max(ttl, 1200), or 7200 when absent |
| NatApi.KeepAliveInterval | src/index.ts:64 | (ttl − 600)·1000, hence ≥ 600000 |
| NatApi.ValidateInput | src/index.ts:138-154 | fails iff localPort is absent (or no local address can be found); each field defaults as the source says |
| NatApi.ValidateInputIdempotent | src/index.ts:138-154 | validating validated options returns them unchanged |
| NatApi.Key | src/index.ts:83 | the key is the public port's text and `:`, then the local port's text, then `-` and the protocol |
| NatApi.KeyInjective | src/index.ts:83 | two mappings share a key only if they agree on public port, local port and protocol |
| NatApi.Retain | src/index.ts:105-107 | an entry is kept iff both its publicPort and its protocol differ |
| NatApi.RetainAppend | src/index.ts:105-107 | the filter distributes over concatenation |
| NatApi.RetainCommutes | src/index.ts:105-107 | two unmaps give the same list in either order |
| NatApi.RetainAllMembership | src/index.ts:105-107 | after several unmaps an entry survives iff it shares neither field with any of them |
| NatApi.MapRecordsOnlySuccess | src/index.ts:78-80 | `openPorts` grows by the options only after `client.map` succeeds; on failure nothing but the call log changes |
| NatApi.MapSetsOnlyItsKey | src/index.ts:82-89 | with keepAlive exactly the mapping's key is set; an overwritten timer keeps running |
| NatApi.UnmapDeletesOnlyItsKey | src/index.ts:109-111 | `unmap` deletes only its key and stops only its timer |
| NatApi.CloseOrder | src/index.ts:116-136 | close closes the client first, clears every timer and key, then unmaps each open port in order |
| NatApi.CloseAsWrittenKeepsOpenPorts | src/index.ts:121-135 | with the UPnP client, `close` as written closes the client first, so every unmap is refused; no mapping is removed, and `close` rejects iff a mapping was open |
| NatApi.CloseClearsOpenPorts | src/index.ts:126-135 | the corrected `close` (unmap first, close the client last) succeeds iff every unmap and the client's close do; once every unmap succeeds no mapping is left open, and the client is closed after the last unmap |
| NatApi.OpenUpnpGrantsUnmaps | src/upnp/index.ts:58-69 | an open UPnP client with a usable service and a reply grants every unmap |
| NatApi.NatApi.CloseUnmappingFirst | src/index.ts:116-136 | as `CloseUnmappingFirstSpec`, the corrected order |
| NatApi.MapKeepsTimersTracked | src/index.ts:82-89 | `map` keeps every key's timer running and distinct |
| NatApi.UnmapKeepsTimersTracked | src/index.ts:109-111 | `unmap` keeps every key's timer running and distinct |
| NatApi.CloseKeepsTimersTracked | src/index.ts:126-130 | `close` keeps every key's timer running and distinct |
| NatApi.FireKeepsTimersTracked | src/index.ts:83-88 | a firing timer keeps every key's timer running and distinct |
| NatApi.NatApi.constructor | src/index.ts:54-67 | ttl, keep-alive period, description, gateway and keepAlive defaults; `destroyed` is false and never changes |
| NatApi.NatApi.Map | src/index.ts:69-92 | as `MapSpec` |
| NatApi.NatApi.Unmap | src/index.ts:94-114 | as `UnmapSpec` |
| NatApi.NatApi.Close | src/index.ts:116-136 | as `CloseSpec` |
| NatApi.NatApi.ExternalIp | src/index.ts:156-158 | forwards to the client and returns its answer |
| NatApi.NatApi.Fire | src/index.ts:83-88 | a firing refresh timer re-maps its options |
| NatApi.StopTimers | src/index.ts:127-130 | every timer in the key map is stopped, no other |
| NatApi.IssueUnmaps | src/index.ts:133-135 | one `unmap` per open port, in list order |
| NatApi.ApplyUnmaps | src/index.ts:105-107 | the successful unmaps' filters applied in turn |
| UpnpDevice.ToArray | src/upnp/device.ts:123-125 | an array unchanged, a single item as a singleton |
| UpnpDevice.Present | src/upnp/device.ts:127-138 | null entries are skipped, nothing else |
| UpnpDevice.ServicesBelongToDevices | src/upnp/device.ts:135-148 | every collected service is listed by a collected device |
| UpnpDevice.ChildServicesComeFirst | src/upnp/device.ts:142-148 | for every child, its subtree's services form one block before the device's own services, and its devices one block after the device |
| UpnpDevice.Description.constructor | src/upnp/device.ts:120-121 | both lists start empty |
| UpnpDevice.Description.TraverseService | src/upnp/device.ts:127-133 | pushes a service unless it is null |
| UpnpDevice.Description.TraverseDevice | src/upnp/device.ts:135-149 | appends the subtree's pre-order devices and its services, children first |
| UpnpDevice.Description.TraverseChildren | src/upnp/device.ts:142-144 | the children's subtrees, in order |
| UpnpDevice.Description.TraverseOwnServices | src/upnp/device.ts:146-148 | the device's own services, in order |
| UpnpDevice.Description.TraverseChild | src/upnp/device.ts:143 | one child's subtree |
| UpnpDevice.ParseDescription | src/upnp/device.ts:119-157 | the recursive pushes yield the pre-order devices and the children-first services; the root comes first |
| UpnpDevice.FirstOfType | src/upnp/device.ts:86-89 | the first service, in traversal order, whose type is allow-listed |
| UpnpDevice.GetService | src/upnp/device.ts:85-116 | succeeds iff the first allow-listed service has both URLs, even if a later one would; the record returned is that first service's type and its URLs resolved against the location |
| UpnpDevice.FirstDeclaration | src/upnp/device.ts:163-170 | the first `xmlns:` attribute whose value equals the URI |
| UpnpDevice.Namespace | src/upnp/device.ts:159-173 | `"p:"` for the first `xmlns:p` declaring the URI, else `""` |
| UpnpDevice.GetNamespace | src/upnp/device.ts:159-173 | the `.some` scan computes `Namespace` |
| UpnpDevice.RenderArgsAppend | src/upnp/device.ts:48-49 | rendering is compositional |
| UpnpDevice.RenderArgsOrder | src/upnp/device.ts:48-49 | each pair appears as `<name>value</name>` in input order; null renders empty |
| UpnpDevice.Envelope | src/upnp/device.ts:45-52 | the body starts with the fixed prolog and the opening `<u:action xmlns:u="service">`, ends with `</u:action>` and the closing `s:Body`/`s:Envelope` tags, and holds exactly the rendered arguments between them |
| UpnpDevice.SoapActionRoundTrip | src/upnp/device.ts:62 | the SOAPAction header names the action it was built for |
| UpnpDevice.ActionLastSegment | src/upnp/device.ts:62 | the action is what follows the last `#` |
| UpnpDevice.Run | src/upnp/device.ts:42-82 | no service → no request; otherwise a POST to the control URL with the envelope, its length and the SOAPAction header `serviceType#action`; with a reply the result is its `<prefix>Body` member, without one a transport error |
| Ssdp.FindCrlf | lib/upnp/ssdp.js:146 | the first CRLF at or after a position |
| Ssdp.Split | lib/upnp/ssdp.js:146 | splitting on CRLF yields at least one line |
| Ssdp.SplitJoin | lib/upnp/ssdp.js:146 | splitting undoes joining lines without CRLF |
| Ssdp.FirstColon | lib/upnp/ssdp.js:150 | the first colon of a line |
| Ssdp.TrimStart | lib/upnp/ssdp.js:150 | drops exactly the leading `\s` characters |
| Ssdp.ParseLine | lib/upnp/ssdp.js:150-152 | no match iff the line has no colon or a line terminator is left after the colon's trimmed rest; otherwise the key is the lower-cased text before the first colon and the value the rest with leading whitespace dropped |
| Ssdp.UnsetKeyKept | lib/upnp/ssdp.js:149-154 | a key no line sets keeps its value |
| Ssdp.LastLineWins | lib/upnp/ssdp.js:149-154 | later duplicates win |
| Ssdp.HeaderLine | lib/upnp/ssdp.js:150-151 | `Name: value` reads back as (lowercase name, value) |
| Ssdp.QueryText | lib/upnp/ssdp.js:56-63 | the query is the request line, HOST, MAN, MX, ST, each CRLF-terminated, then a blank line |
| Ssdp.TargetHeader | lib/upnp/ssdp.js:61 | the ST line reads back as the target |
| Ssdp.QueryTarget | lib/upnp/ssdp.js:56-63 | parsing the query's headers gives back its search target |
| Ssdp.LooksLikeAdvert | lib/upnp/ssdp.js:135 | some line starts with HTTP or NOTIFY |
| Ssdp.ParseResponse | lib/upnp/ssdp.js:131-143 | headers are emitted iff some line starts with HTTP/NOTIFY and `st` is non-empty |
| Ssdp.Broadcast | lib/upnp/ssdp.js:66-68 | one send per socket, in order, to the multicast group on port 1900 |
| Ssdp.IndexOf | lib/upnp/ssdp.js:118 | `indexOf`: the first position, or −1 when absent |
| Ssdp.Deliver | lib/upnp/ssdp.js:70-75 | a live listener is reached iff it searched exactly the advertised target |
| Ssdp.WithoutHandle | lib/upnp/ssdp.js:79-81 | 'end' detaches exactly that promise's listeners |
| Ssdp.SearchBeforeBoundQueues | lib/upnp/ssdp.js:47-50 | before the gate opens a search is queued and returns its handle; nothing is sent |
| Ssdp.SearchAfterBound | lib/upnp/ssdp.js:52-83 | after the gate opens an ended promise sends nothing; otherwise the query goes to every socket and a listener is added |
| Ssdp.ReplayEffect | lib/upnp/ssdp.js:105-107 | the replay sends one broadcast per live queued search, in order |
| Ssdp.ReadyGate | lib/upnp/ssdp.js:101-108 | the gate opens iff boundCount ≥ number of sockets, then replays the queue, which is kept |
| Ssdp.ErrorDropsSocket | lib/upnp/ssdp.js:116-120 | a bind error closes and removes exactly that socket, then the gate opens iff every socket left is counted, replaying the queue |
| Ssdp.MessageReachesMatchingListeners | lib/upnp/ssdp.js:90-96 | an advertisement reaches every live listener of its target and no other; nothing is parsed after destroy |
| Ssdp.SsdpTransport.constructor | lib/upnp/ssdp.js:6-36 | one socket per external interface, gate closed, empty queue |
| Ssdp.SsdpTransport.Search | lib/upnp/ssdp.js:38-84 | as `SearchSpec` |
| Ssdp.SsdpTransport.OnReady | lib/upnp/ssdp.js:101-108 | as `OnReadySpec` |
| Ssdp.SsdpTransport.OnListening | lib/upnp/ssdp.js:110-113 | counts the socket, then `onReady` |
| Ssdp.SsdpTransport.OnError | lib/upnp/ssdp.js:116-120 | as `OnErrorSpec` |
| Ssdp.SsdpTransport.OnMessage | lib/upnp/ssdp.js:90-96 | as `OnMessageSpec` |
| Ssdp.SsdpTransport.End | lib/upnp/ssdp.js:42-44 | marks the promise ended and detaches its listeners |
| Ssdp.SsdpTransport.Destroy | lib/upnp/ssdp.js:157-162 | closes every socket and sets destroyed |
| Ssdp.SendOnEach | lib/upnp/ssdp.js:66-68 | the `forEach` sends exactly `Broadcast` |
| UpnpClient.LeaseDuration | src/upnp/index.ts:33-41 | 1800 when absent; a number is used as given (NaN included); a string gives its converted number unless that is NaN, in which case 1800 |
| UpnpClient.StringTtlAgreesWithNumber | src/upnp/index.ts:35-41 | a numeric string leases as long as the same number would; a string that is not a number leases as long as no ttl |
| UpnpClient.WireProtocol | src/upnp/index.ts:33 | "TCP" iff the option is exactly "TCP", else "UDP" |
| UpnpClient.LowerCaseTcpIsSentAsUdp | src/upnp/index.ts:33 | "tcp" is sent as "UDP" |
| UpnpClient.AddPortMappingArgs | src/upnp/index.ts:46-55 | eight pairs in fixed order: the public port as external port, the wire protocol, the local port as internal port, the local address as client, enabled 1, the description (default applied), the lease duration, then the raw protocol |
| UpnpClient.DeletePortMappingArgs | src/upnp/index.ts:65-68 | exactly `[NewExternalPort, NewProtocol]` |
| UpnpClient.OrchestratorArgs | src/upnp/index.ts:46-55 | for `NatAPI`'s options the two protocols agree iff it is "TCP" or "UDP"; the lease is the ttl |
| UpnpClient.FirstResponseKey | src/upnp/index.ts:81-87 | the first key ending in `:GetExternalIPAddressResponse` |
| UpnpClient.FindResponseKey | src/upnp/index.ts:81-87 | the `.some` scan finds a key iff one matches, and it is the first |
| UpnpClient.ExternalAddress | src/upnp/index.ts:81-94 | "Incorrect response" iff no key matches; otherwise the first match's `NewExternalIPAddress` |
| UpnpClient.ClosedRefusesEverything | src/upnp/index.ts:26-120 | after `close`, `map`, `unmap`, `externalIp` and `findGateway` all throw "client is closed" and change nothing |
| UpnpClient.CancelOnlyForPendingDiscovery | src/upnp/index.ts:102-119 | `close` calls cancel once while a discovery is pending (or after it failed), never otherwise |
| UpnpClient.CloseDuringDiscovery | src/upnp/index.ts:102-119 | a close during discovery cancels it, and the request that follows fails on the aborted signal |
| UpnpClient.MapSendsOneRequest | src/upnp/index.ts:26-56 | an open client sends one `AddPortMapping` envelope of the argument list and succeeds iff a reply arrives |
| UpnpClient.NoGatewayNoRequest | src/upnp/index.ts:97-109 | a failed discovery sends nothing |
| UpnpClient.Client.constructor | src/upnp/index.ts:18-24 | not closed, no hook, not aborted |
| UpnpClient.Client.BeginFindGateway | src/upnp/index.ts:97-103 | refuses when closed, else takes a discovery handle and keeps its cancel |
| UpnpClient.Client.CompleteFindGateway | src/upnp/index.ts:105-110 | drops the hook when a gateway arrives; a rejection leaves it set |
| UpnpClient.Client.FindGateway | src/upnp/index.ts:97-110 | both halves in turn |
| UpnpClient.Client.RunAction | src/upnp/index.ts:46-55 | `gateway.run` with the abort signal; the request is logged |
| UpnpClient.Client.Map | src/upnp/index.ts:26-56 | as `MapSpec` |
| UpnpClient.Client.Unmap | src/upnp/index.ts:58-69 | as `UnmapSpec` |
| UpnpClient.Client.ExternalIp | src/upnp/index.ts:71-95 | as `ExternalIpSpec` |
| UpnpClient.Client.Close | src/upnp/index.ts:112-120 | closed, aborted, cancel called iff the hook is set |
| Discovery.NormalizeGateway | src/discovery/index.ts:55-57 | the result starts with "http"; an address without it gets "http://" |
| Discovery.NormalizeIdempotent | src/discovery/index.ts:55-57 | writing the normalised address back is harmless |
| Discovery.StaticGatewayHasNoService | src/discovery/index.ts:61-76 | a synthesised record has no service, so `getService` finds none |
| Discovery.CacheHitHasNoEffect | src/discovery/index.ts:48-50 | a held record with expires ≥ now is returned with no other effect |
| Discovery.StaticOverride | src/discovery/index.ts:52-76 | empty lists, ST, "unknown", expires = now + timeout, the normalised address persisted, no search |
| Discovery.SearchOutcome | src/discovery/index.ts:78-105 | no result → error with the cache unchanged; a result is cached until doneAt + timeout |
| Discovery.SharedCache | src/discovery/index.ts:39-50 | one handle's result serves another handle before it expires |
| Discovery.CancelAfterGateway | src/discovery/index.ts:110-118 | cancel stops only a started search and clears only a set time-out |
| Discovery.Scope.constructor | src/discovery/index.ts:36-40 | timeout 3600000 and discoveryTimeout 60000 by default; the cache starts empty |
| Discovery.Scope.NewHandle | src/discovery/index.ts:42-44 | a fresh handle over the shared cache |
| Discovery.Handle.constructor | src/discovery/index.ts:43-44 | no search, no time-out hook |
| Discovery.Handle.Gateway | src/discovery/index.ts:47-109 | as `GatewaySpec` |
| Discovery.Handle.Cancel | src/discovery/index.ts:110-118 | as `CancelSpec` |

## Findings

| source | as written | input that shows it | evidently intended | confidence | as-written member | corrected member |
|---|---|---|---|---|---|---|
| src/index.ts:121-135 | `close` closes the protocol client, then unmaps every open mapping through it | a `NatAPI` over the UPnP client with one open mapping: its unmap throws "client is closed", the mapping stays in `openPorts`, and `close` rejects | unmap every open mapping first, then close the client | not executed | NatApi.CloseAsWrittenKeepsOpenPorts | NatApi.CloseClearsOpenPorts |

With the NAT-PMP client the unmaps after `close` fail as well, because their requests bind the closed socket again (`Pmp.CloseDuringDiscovery` shows the same re-bind). That failure is Node's socket behaviour, which is not modelled. `NatApi.NatApi.Close` models the code as written. `NatApi.NatApi.CloseUnmappingFirst` is the corrected order.

## Left out

- Sockets, timers, the clock, HTTP (src/upnp/fetch.ts), `os.networkInterfaces`, `findLocalAddress` and `default-gateway` are not modelled. Their results are parameters and their effects are logged.
- XML parsing is not modelled. The parsed tree is an input datatype.
- WHATWG URL resolution (`addPrefix`, `new URL(...).host`) is kept symbolic as a (base, reference) pair. `new URL` throwing on a malformed address is not modelled.
- Logging is not modelled.
- `JSON.stringify` escaping is not modelled: service types and actions are assumed to contain no quote or backslash.
- Asynchrony is collapsed. Each `await` on a collaborator is an injected outcome. Interleavings are modelled only where they matter:
  - for the UPnP client, a close during gateway discovery (Begin/CompleteFindGateway);
  - for NAT-PMP, a close or any socket event during the gateway wait of `map`, `unmap` and `externalIp` (BeginQueue/CompleteQueue, and the `DiscoveryStarted`/`DiscoverySettled` events of `RunKeepsOrder`).
- Pmp.PmpClient.Connect: Node refuses to bind a dgram socket that was closed (ERR_SOCKET_DGRAM_NOT_RUNNING). The model only counts binds, so a bind after `close` succeeds here, and a later `OnListening` marks the closed client listening.
- Pmp.PmpClient.Close: Node also refuses to close a dgram socket twice. The model counts closes and never throws.
- `NatAPI` calls the client one operation at a time. The concurrent unmaps of `close` are issued in list order, and their effects on `openPorts` are applied in that order.
- Pmp.PmpClient.Unmap: `opts.protocol ?? 'tcp'` is not modelled. `MapPortOptions.protocol` is always present here.
- Pmp.PmpClient.OnMessage: the `Unknown opcode` branch is not modelled. It cannot be reached, because every queued opcode is 0, 1 or 2.
- NatApi.MapInput: ttl and ports are integers. A non-integer JavaScript number passed to `NatAPI` is not represented.
- UpnpClient.LeaseDuration: JavaScript's string-to-number conversion is not modelled. A string ttl carries the number `Number(text)` gives for it.
- UpnpDevice.Run: `requestBody.length` counts UTF-16 code units. The model counts characters, which is the same only for text without astral characters.
- Common.ToLower: only ASCII letters are folded. `toLowerCase` also folds other Unicode letters.
- Ssdp.QueryTarget: only the ST header is proved to read back from the query. The MAN and MX headers are fixed text, shown in `QueryText`, but they are not proved to parse back.
- Discovery.Handle.Gateway: a failure of the SSDP library to create or start its search is not modelled. The `discoveryTimeout` limit shows up only as the `TimedOut` outcome.
- JavaScript object key order puts integer-like keys first. The model keeps the parser's key order, which gives the same first match, because no integer-like key ends in `:GetExternalIPAddressResponse`.
