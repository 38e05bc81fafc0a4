/** The NAT-PMP client of src/pmp/index.ts: request frames (RFC 6886 sections 3.2 to 3.5),
    response decoding, and the socket state machine with its FIFO request queue. */
module Pmp {
  import opened Common

  const CLIENT_PORT := 5350
  const SERVER_PORT := 5351

  const OP_EXTERNAL_IP := 0
  const OP_MAP_UDP := 1
  const OP_MAP_TCP := 2
  const SERVER_DELTA := 128

  /** RFC 6886 section 3.3: the recommended port mapping lifetime, in seconds. */
  const RECOMMENDED_LIFETIME := 7200

  const U16_LIMIT := 0x1_0000
  const U32_LIMIT := 0x1_0000_0000

  /** The opcodes a request may carry. */
  datatype Op = ExternalIp | MapUdp | MapTcp {
    function Code(): byte {
      match this
      case ExternalIp => OP_EXTERNAL_IP
      case MapUdp => OP_MAP_UDP
      case MapTcp => OP_MAP_TCP
    }
  }

  /** The `switch (op)` of `request`: which opcode numbers it accepts. */
  function OpOf(code: int): (r: Option<Op>)
    ensures r.Some? <==> code in {OP_EXTERNAL_IP, OP_MAP_UDP, OP_MAP_TCP}
    ensures r.Some? ==> r.value.Code() == code
  {
    if code == OP_EXTERNAL_IP then Some(ExternalIp)
    else if code == OP_MAP_UDP then Some(MapUdp)
    else if code == OP_MAP_TCP then Some(MapTcp)
    else None
  }

  /** The texts of the result codes of RFC 6886 section 3.5, by code. */
  const RESULT_CODES: seq<string> := [
    "Success",
    "Unsupported Version",
    "Not Authorized/Refused (gateway may have NAT-PMP disabled)",
    "Network Failure (gateway may have not obtained a DHCP lease)",
    "Out of Resources (no ports left)",
    "Unsupported opcode"
  ]

  /** `RESULT_CODES[code]`: undefined past the last code. */
  function ResultMessage(code: int): (r: Option<string>)
    ensures r.Some? <==> 0 <= code < |RESULT_CODES|
  {
    if 0 <= code < |RESULT_CODES| then Some(RESULT_CODES[code]) else None
  }

  /** Errors the client raises or rejects a request with. */
  datatype PmpError =
    | InvalidType                            // '"type" must be either "tcp" or "udp"'
    | GatewayDiscoveryFailed                 // the gateway discovery promise rejected
    | OptionsRequired                        // 'mapping a port requires an "options" object'
    | PrivatePortInvalid                     // 'the "private" port must be a whole integer >= 0'
    | PublicPortInvalid                      // 'the "public" port must be a whole integer >= 0'
    | OutOfRange(value: int)                 // RangeError of Buffer.writeUInt16BE/writeUInt32BE
    | InvalidOpcode(op: int)                 // 'Invalid opcode: <op>'
    | BadVersion(vers: int)                  // '"vers" must be 0. Got: <vers>'
    | ResultCode(code: int, message: Option<string>)  // non-zero result code, message from RESULT_CODES

  // ---------------------------------------------------------------------------
  // Big-endian integers

  function Pow256(n: nat): nat {
    if n == 0 then 1 else 256 * Pow256(n - 1)
  }

  lemma Pow256Limits()
    ensures Pow256(2) == U16_LIMIT && Pow256(4) == U32_LIMIT
  {
  }

  /** The `width` bytes of `v`, most significant first, as `writeUIntBE` lays them out. */
  function UintBE(v: nat, width: nat): (r: seq<byte>)
    requires v < Pow256(width)
    ensures |r| == width
  {
    if width == 0 then [] else UintBE(v / 256, width - 1) + [v % 256]
  }

  /** The unsigned value of bytes read most significant first (`readUInt16BE`, `readUInt32BE`). */
  function ReadBE(s: seq<byte>): nat {
    if s == [] then 0 else ReadBE(s[..|s| - 1]) * 256 + s[|s| - 1]
  }

  /** Reading back what was written gives the value written. */
  lemma {:induction false} ReadUintBE(v: nat, width: nat)
    requires v < Pow256(width)
    ensures ReadBE(UintBE(v, width)) == v
    decreases width
  {
    if width > 0 {
      var r := UintBE(v, width);
      assert r[..|r| - 1] == UintBE(v / 256, width - 1);
      ReadUintBE(v / 256, width - 1);
    }
  }

  // ---------------------------------------------------------------------------
  // Request frames

  /** RFC 6886 section 3.2: the external address request is the version and the opcode. */
  const EXTERNAL_IP_FRAME: seq<byte> := [0, OP_EXTERNAL_IP]

  /** RFC 6886 section 3.3: version, opcode, two reserved zero bytes, internal port,
      requested external port and requested lifetime, all big-endian. */
  function MappingFrame(op: Op, internal: nat, external: nat, ttl: nat): seq<byte>
    requires internal < U16_LIMIT && external < U16_LIMIT && ttl < U32_LIMIT
  {
    Pow256Limits();
    [0, op.Code()] + UintBE(0, 2) + UintBE(internal, 2) + UintBE(external, 2) + UintBE(ttl, 4)
  }

  /** The options object `request` reads; each field is absent or a number. */
  datatype PortMappingOptions = PortMappingOptions(
    privatePort: Option<Num>,
    internal: Option<Num>,
    publicPort: Option<Num>,
    external: Option<Num>,
    ttl: Option<Num>)

  /** `Number(a ?? b ?? 0)`. */
  function FirstDefined(a: Option<Num>, b: Option<Num>): Num {
    if a.Some? then a.value else if b.Some? then b.value else Int(0)
  }

  /** `Number(obj.ttl ?? 0)`, replaced by the recommended lifetime unless it survives `| 0`. */
  function RequestedLifetime(ttl: Option<Num>): Num {
    var t := if ttl.Some? then ttl.value else Int(0);
    if IsInt32(t) then t else Int(RECOMMENDED_LIFETIME)
  }

  /** A queued frame together with the opcode it was built for. */
  datatype Frame = Frame(op: Op, buf: seq<byte>)

  /** What `request` builds for an opcode and an options object before queueing it,
      or the error it throws (in which case nothing is queued). The writes happen in
      order, so the first out-of-range field is the one Buffer reports. */
  function EncodeRequest(op: int, obj: Option<PortMappingOptions>): Result<Frame, PmpError> {
    match OpOf(op)
    case None => Err(InvalidOpcode(op))
    case Some(ExternalIp) => Ok(Frame(ExternalIp, EXTERNAL_IP_FRAME))
    case Some(o) =>
      if obj.None? then Err(OptionsRequired)
      else
        var internal := FirstDefined(obj.value.privatePort, obj.value.internal);
        var external := FirstDefined(obj.value.publicPort, obj.value.external);
        var ttl := RequestedLifetime(obj.value.ttl);
        if !IsInt32(internal) then Err(PrivatePortInvalid)
        else if !IsInt32(external) then Err(PublicPortInvalid)
        else if !(0 <= internal.v < U16_LIMIT) then Err(OutOfRange(internal.v))
        else if !(0 <= external.v < U16_LIMIT) then Err(OutOfRange(external.v))
        else if !(0 <= ttl.v < U32_LIMIT) then Err(OutOfRange(ttl.v))
        else Ok(Frame(o, MappingFrame(o, internal.v, external.v, ttl.v)))
  }

  /** Writes `v` as two big-endian bytes at `pos` (Buffer.writeUInt16BE). */
  method WriteUInt16BE(buf: array<byte>, v: nat, pos: nat)
    requires v < U16_LIMIT && pos + 2 <= buf.Length
    modifies buf
    ensures buf[..] == old(buf[..pos]) + UintBE(v, 2) + old(buf[pos + 2..])
  {
    Pow256Limits();
    buf[pos] := v / 256;
    buf[pos + 1] := v % 256;
  }

  /** Writes `v` as four big-endian bytes at `pos` (Buffer.writeUInt32BE). */
  method WriteUInt32BE(buf: array<byte>, v: nat, pos: nat)
    requires v < U32_LIMIT && pos + 4 <= buf.Length
    modifies buf
    ensures buf[..] == old(buf[..pos]) + UintBE(v, 4) + old(buf[pos + 4..])
  {
    Pow256Limits();
    var b1, b2, b3 := v / 256, v / 256 / 256, v / 256 / 256 / 256;
    assert b3 / 256 == 0 && UintBE(b3 / 256, 0) == [];
    assert UintBE(b3, 1) == [b3 % 256];
    assert UintBE(b2, 2) == [b3 % 256, b2 % 256];
    assert UintBE(b1, 3) == [b3 % 256, b2 % 256, b1 % 256];
    assert UintBE(v, 4) == [b3 % 256, b2 % 256, b1 % 256, v % 256];
    buf[pos] := v / 256 / 256 / 256 % 256;
    buf[pos + 1] := v / 256 / 256 % 256;
    buf[pos + 2] := v / 256 % 256;
    buf[pos + 3] := v % 256;
  }

  /** The mapping branch of `request`: allocate twelve zero bytes and write the fields
      one after the other, advancing `pos`. */
  method WriteMappingFrame(op: Op, internal: nat, external: nat, ttl: nat) returns (frame: seq<byte>)
    requires internal < U16_LIMIT && external < U16_LIMIT && ttl < U32_LIMIT
    ensures frame == MappingFrame(op, internal, external, ttl)
    ensures |frame| == 12
  {
    var buf := new byte[12](_ => 0);
    var pos := 0;
    buf[pos] := 0;
    pos := pos + 1;             // Vers = 0
    buf[pos] := op.Code();
    pos := pos + 1;             // OP
    ghost var written: seq<byte> := [0, op.Code()];
    assert buf[..pos] == written;
    WriteUInt16BE(buf, 0, pos);
    WrittenPrefix(buf[..], written, UintBE(0, 2));
    pos := pos + 2;             // Reserved
    written := written + UintBE(0, 2);
    WriteUInt16BE(buf, internal, pos);
    WrittenPrefix(buf[..], written, UintBE(internal, 2));
    pos := pos + 2;             // Internal Port
    written := written + UintBE(internal, 2);
    WriteUInt16BE(buf, external, pos);
    WrittenPrefix(buf[..], written, UintBE(external, 2));
    pos := pos + 2;             // Requested External Port
    written := written + UintBE(external, 2);
    WriteUInt32BE(buf, ttl, pos);
    WrittenPrefix(buf[..], written, UintBE(ttl, 4));
    pos := pos + 4;             // Requested Port Mapping Lifetime
    written := written + UintBE(ttl, 4);
    assert pos == buf.Length;
    frame := buf[..];
  }

  /** After a write behind the bytes already written, the written part has grown by the
      bytes of that write. */
  lemma WrittenPrefix(after: seq<byte>, written: seq<byte>, field: seq<byte>)
    requires exists rest :: after == written + field + rest
    ensures after[..|written| + |field|] == written + field
  {
  }

  /** The external address branch of `request`: two bytes, version then opcode. */
  method WriteExternalIpFrame() returns (frame: seq<byte>)
    ensures frame == EXTERNAL_IP_FRAME
  {
    var buf := new byte[2](_ => 0);
    buf[0] := 0;
    buf[1] := OP_EXTERNAL_IP;
    frame := buf[..];
  }

  /** A mapping frame is twelve bytes laid out as RFC 6886 section 3.3 prescribes, and each
      field reads back as the value written. */
  lemma MappingFrameLayout(op: Op, internal: nat, external: nat, ttl: nat)
    requires internal < U16_LIMIT && external < U16_LIMIT && ttl < U32_LIMIT
    ensures var f := MappingFrame(op, internal, external, ttl);
      |f| == 12 && f[0] == 0 && f[1] == op.Code() && f[2] == 0 && f[3] == 0
      && ReadBE(f[4..6]) == internal && ReadBE(f[6..8]) == external && ReadBE(f[8..12]) == ttl
  {
    Pow256Limits();
    var f := MappingFrame(op, internal, external, ttl);
    var zero := UintBE(0, 2);
    assert zero == [0, 0];
    FieldSlices([0, op.Code()], zero, UintBE(internal, 2), UintBE(external, 2), UintBE(ttl, 4));
    assert f[..2] == [0, op.Code()] && f[2..4] == zero;
    ReadUintBE(internal, 2);
    ReadUintBE(external, 2);
    ReadUintBE(ttl, 4);
  }

  /** The five fields of a mapping frame sit at offsets 0, 2, 4, 6 and 8. */
  lemma FieldSlices(a: seq<byte>, b: seq<byte>, c: seq<byte>, d: seq<byte>, e: seq<byte>)
    requires |a| == 2 && |b| == 2 && |c| == 2 && |d| == 2 && |e| == 4
    ensures var f := a + b + c + d + e;
      |f| == 12 && f[..2] == a && f[2..4] == b && f[4..6] == c && f[6..8] == d && f[8..12] == e
  {
  }

  // ---------------------------------------------------------------------------
  // Responses

  /** The object `onMessage` resolves a request with. `msg` is the raw datagram; a mapping
      result carries the ports and lifetime the gateway granted and the protocol named by
      the request's opcode; an external address result carries the four address bytes as
      an array, not as a dotted string. */
  datatype Parsed =
    | MappingResult(msg: seq<byte>, vers: int, op: int, resultCode: int, epoch: int,
                    internal: int, external: int, ttl: int, protocol: string)
    | ExternalIpResult(msg: seq<byte>, vers: int, op: int, resultCode: int, epoch: int, ip: seq<byte>)

  /** How the head request ends once a datagram with the matching opcode arrived. `Crash` is
      a Buffer read past the end of a short datagram: it throws after the request was shifted
      off the queue and before its deferred is settled. */
  datatype Settle = Resolve(value: Parsed) | Reject(error: PmpError) | Crash

  /** What a datagram means for the request at the head of the queue. `Unreadable` is a
      datagram too short to hold the version and the opcode: the read throws before anything
      changes. `Stray` is an opcode other than the head's plus SERVER_DELTA. */
  datatype Response = Unreadable | Stray(op: int) | Matched(settle: Settle)

  /** The decoding part of `onMessage` for the request at the head of the queue. */
  function Respond(head: Op, msg: seq<byte>): Response {
    if |msg| < 2 then Unreadable
    else
      var vers := msg[0];
      var op := msg[1];
      if op - SERVER_DELTA != head.Code() then Stray(op)
      else if vers != 0 then Matched(Reject(BadVersion(vers)))
      else if |msg| < 8 then Matched(Crash)
      else
        var code := ReadBE(msg[2..4]);
        var epoch := ReadBE(msg[4..8]);
        if code != 0 then Matched(Reject(ResultCode(code, ResultMessage(code))))
        else if head == ExternalIp then
          if |msg| < 12 then Matched(Crash)
          else Matched(Resolve(ExternalIpResult(msg, vers, op, code, epoch, msg[8..12])))
        else if |msg| < 16 then Matched(Crash)
        else Matched(Resolve(MappingResult(msg, vers, op, code, epoch,
                                           ReadBE(msg[8..10]), ReadBE(msg[10..12]), ReadBE(msg[12..16]),
                                           if head == MapUdp then "udp" else "tcp")))
  }

  /** RFC 6886 section 3.3: the success response a gateway sends to a mapping frame it grants
      as requested: version 0, the opcode plus 128, result code 0, the epoch, and then the
      request's internal port, external port and lifetime bytes. */
  function GrantResponse(frame: seq<byte>, epoch: nat): seq<byte>
    requires |frame| == 12 && frame[1] < SERVER_DELTA && epoch < U32_LIMIT
  {
    Pow256Limits();
    [0, frame[1] + SERVER_DELTA] + UintBE(0, 2) + UintBE(epoch, 4) + frame[4..12]
  }

  /** Encoding a mapping request and decoding the gateway's granting response round-trips:
      the result carries the internal port, external port and lifetime that were encoded,
      and the protocol is "udp" exactly when the opcode is MapUdp. */
  lemma MappingRoundTrip(op: Op, internal: nat, external: nat, ttl: nat, epoch: nat)
    requires op != ExternalIp
    requires internal < U16_LIMIT && external < U16_LIMIT && ttl < U32_LIMIT && epoch < U32_LIMIT
    ensures var msg := GrantResponse(MappingFrame(op, internal, external, ttl), epoch);
      Respond(op, msg) == Matched(Resolve(MappingResult(msg, 0, op.Code() + SERVER_DELTA, 0, epoch,
                                                          internal, external, ttl,
                                                          if op == MapUdp then "udp" else "tcp")))
  {
    Pow256Limits();
    var f := MappingFrame(op, internal, external, ttl);
    MappingFrameLayout(op, internal, external, ttl);
    var msg := GrantResponse(f, epoch);
    GrantFields(f, epoch);
    RespondGranted(op, msg);
  }

  /** RFC 6886 section 3.2: a successful external address response (version 0, opcode 128,
      result 0, the epoch, four address bytes) resolves the external address request with
      those four bytes as they are, not as a dotted string. */
  lemma ExternalIpRoundTrip(epoch: nat, addr: seq<byte>)
    requires epoch < Pow256(4) && |addr| == 4
    ensures var msg := [0, SERVER_DELTA] + UintBE(0, 2) + UintBE(epoch, 4) + addr;
      Respond(ExternalIp, msg) == Matched(Resolve(ExternalIpResult(msg, 0, SERVER_DELTA, 0, epoch, addr)))
  {
    Pow256Limits();
    var msg := [0, SERVER_DELTA] + UintBE(0, 2) + UintBE(epoch, 4) + addr;
    assert msg[2..4] == UintBE(0, 2) && msg[4..8] == UintBE(epoch, 4) && msg[8..12] == addr;
    ReadUintBE(0, 2);
    ReadUintBE(epoch, 4);
  }

  /** The granting response holds version 0, the reply opcode, result 0, the epoch, and the
      request's port and lifetime bytes. */
  lemma GrantFields(frame: seq<byte>, epoch: nat)
    requires |frame| == 12 && frame[1] < SERVER_DELTA && epoch < U32_LIMIT
    ensures var m := GrantResponse(frame, epoch);
      |m| == 16 && m[0] == 0 && m[1] == frame[1] + SERVER_DELTA
      && ReadBE(m[2..4]) == 0 && ReadBE(m[4..8]) == epoch
      && m[8..10] == frame[4..6] && m[10..12] == frame[6..8] && m[12..16] == frame[8..12]
  {
    Pow256Limits();
    var tail := frame[4..12];
    ResponseSlices([0, frame[1] + SERVER_DELTA], UintBE(0, 2), UintBE(epoch, 4), tail);
    SliceOfSlice(frame, 4, 12, 0, 2);
    SliceOfSlice(frame, 4, 12, 2, 4);
    SliceOfSlice(frame, 4, 12, 4, 8);
    ReadUintBE(0, 2);
    ReadUintBE(epoch, 4);
  }

  lemma SliceOfSlice(s: seq<byte>, i: nat, j: nat, k: nat, l: nat)
    requires i <= j <= |s| && k <= l <= j - i
    ensures s[i..j][k..l] == s[i + k..i + l]
  {
    assert forall t :: 0 <= t < l - k ==> s[i..j][k..l][t] == s[i + k + t];
  }

  /** A long enough version-0 response with the head's reply opcode and result 0 resolves a
      mapping request with the fields it carries. */
  lemma RespondGranted(head: Op, msg: seq<byte>)
    requires head != ExternalIp
    requires |msg| >= 16 && msg[0] == 0 && msg[1] == head.Code() + SERVER_DELTA && ReadBE(msg[2..4]) == 0
    ensures Respond(head, msg)
      == Matched(Resolve(MappingResult(msg, 0, head.Code() + SERVER_DELTA, 0, ReadBE(msg[4..8]),
                                       ReadBE(msg[8..10]), ReadBE(msg[10..12]), ReadBE(msg[12..16]),
                                       if head == MapUdp then "udp" else "tcp")))
  {
  }

  /** The fields of a mapping response sit at offsets 0, 2, 4 and 8, and the copied request
      fields at 8, 10 and 12. */
  lemma ResponseSlices(a: seq<byte>, b: seq<byte>, c: seq<byte>, d: seq<byte>)
    requires |a| == 2 && |b| == 2 && |c| == 4 && |d| == 8
    ensures var m := a + b + c + d;
      |m| == 16 && m[..2] == a && m[2..4] == b && m[4..8] == c
      && m[8..10] == d[0..2] && m[10..12] == d[2..4] && m[12..16] == d[4..8]
  {
  }

  /** RFC 6886 section 3.5: a matched response with version 0 and a non-zero result code rejects
      the request with that code and the RESULT_CODES text (none for codes above 5). */
  lemma NonZeroResultRejects(head: Op, msg: seq<byte>)
    requires |msg| >= 8 && msg[0] == 0 && msg[1] == head.Code() + SERVER_DELTA
    requires ReadBE(msg[2..4]) != 0
    ensures var code := ReadBE(msg[2..4]);
      Respond(head, msg) == Matched(Reject(ResultCode(code, ResultMessage(code))))
      && (ResultMessage(code).Some? <==> code <= 5)
  {
  }

  // ---------------------------------------------------------------------------
  // The client state machine

  /** A queue entry: the opcode, the encoded frame and the deferred its outcome settles. */
  datatype QueuedRequest = QueuedRequest(op: Op, buf: seq<byte>, deferred: nat)

  /** A datagram handed to `socket.send`, addressed to SERVER_PORT on the gateway host;
      `deferred` names the queued request it was sent for. */
  datatype Datagram = Datagram(buf: seq<byte>, host: Option<string>, deferred: nat)

  /** The outcome a deferred was settled with. */
  datatype Settlement = Settlement(deferred: nat, outcome: Result<Parsed, PmpError>)

  /** Everything the client's fields hold, together with what it did to the outside world:
      `binds` counts the binds of the socket to the client port, `socketCloses` counts its closes,
      `sent` lists the datagrams sent, `settled` the deferreds settled, `emitted` the
      socket errors re-emitted as 'error' events, `cancelCalls` the calls of the gateway
      discovery's cancel. */
  datatype PmpState = PmpState(
    queue: seq<QueuedRequest>,
    connecting: bool,
    listening: bool,
    req: Option<QueuedRequest>,
    reqActive: bool,
    gateway: Option<string>,
    cancelPending: bool,
    nextDeferred: nat,
    binds: nat,
    socketCloses: nat,
    sent: seq<Datagram>,
    settled: seq<Settlement>,
    emitted: seq<string>,
    cancelCalls: nat)

  /** The state right after the constructor: nothing queued and a bind under way. */
  function Initial(): PmpState {
    ConnectSpec(PmpState([], false, false, None, false, None, false, 0, 0, 0, [], [], [], 0))
  }

  /** `connect`: bind once unless a bind is already under way. */
  function ConnectSpec(s: PmpState): PmpState {
    if s.connecting then s else s.(connecting := true, binds := s.binds + 1)
  }

  /** `_next`: send the head of the queue when the socket listens and nothing is in flight;
      when the socket does not listen, start connecting instead. The head stays queued. */
  function NextSpec(s: PmpState): PmpState {
    if s.queue == [] then s
    else if !s.listening then (if !s.connecting then ConnectSpec(s) else s)
    else if s.reqActive then s
    else s.(reqActive := true, req := Some(s.queue[0]),
            sent := s.sent + [Datagram(s.queue[0].buf, s.gateway, s.queue[0].deferred)])
  }

  /** `request`: encode the frame (or throw, leaving everything unchanged), append it to the
      queue and try to send. */
  function RequestSpec(s: PmpState, op: int, obj: Option<PortMappingOptions>, deferred: nat): Result<PmpState, PmpError> {
    match EncodeRequest(op, obj)
    case Err(e) => Err(e)
    case Ok(f) => Ok(NextSpec(s.(queue := s.queue + [QueuedRequest(f.op, f.buf, deferred)])))
  }

  /** `onListening`. */
  function OnListeningSpec(s: PmpState): PmpState {
    NextSpec(s.(listening := true, connecting := false))
  }

  /** The `cb` of `onMessage` after the head was shifted off: clear the active request,
      settle the head's deferred and try to send the next one. */
  function SettleHead(s: PmpState, head: QueuedRequest, outcome: Result<Parsed, PmpError>): PmpState {
    NextSpec(s.(req := None, reqActive := false, settled := s.settled + [Settlement(head.deferred, outcome)]))
  }

  /** `onMessage`. */
  function OnMessageSpec(s: PmpState, msg: seq<byte>): PmpState {
    if s.queue == [] then s
    else
      var head := s.queue[0];
      var popped := s.(queue := s.queue[1..]);
      match Respond(head.op, msg)
      case Unreadable => s
      case Stray(_) => s
      case Matched(Crash) => popped
      case Matched(Resolve(p)) => SettleHead(popped, head, Ok(p))
      case Matched(Reject(e)) => SettleHead(popped, head, Err(e))
  }

  /** `onClose`. */
  function OnCloseSpec(s: PmpState): PmpState {
    s.(listening := false, connecting := false)
  }

  /** `onError`: the queued entries carry no `cb`, so the error is re-emitted as an 'error'
      event. With no 'error' listener attached that emit throws and the rest of the handler
      does not run; with one, the socket is closed and `onClose` runs. The active request is
      never rejected and `reqActive` is never cleared. */
  function OnErrorSpec(s: PmpState, err: string, hasErrorListener: bool): PmpState {
    if !hasErrorListener then s
    else OnCloseSpec(s.(emitted := s.emitted + [err], socketCloses := s.socketCloses + 1))
  }

  /** `close`: close the socket, drop the queue (its deferreds are never settled), reset the
      flags, and cancel a gateway discovery that is still pending. */
  function CloseSpec(s: PmpState): PmpState {
    s.(socketCloses := s.socketCloses + 1, queue := [], connecting := false, listening := false,
       req := None, reqActive := false,
       cancelCalls := if s.cancelPending then s.cancelCalls + 1 else s.cancelCalls)
  }

  /** The object `map` hands to `request`: a MapPortOptions has no private, internal, public
      or external field, so only the lifetime is read from it. */
  function MappingOptionsOf(opts: MapPortOptions): PortMappingOptions {
    PortMappingOptions(None, None, None, None, Some(Int(opts.ttl)))
  }

  /** The opcode `map` chooses for a protocol name, compared case-insensitively. */
  function ProtocolOpcode(protocol: string): Option<int> {
    var p := ToLower(protocol);
    if p == "tcp" then Some(OP_MAP_TCP) else if p == "udp" then Some(OP_MAP_UDP) else None
  }

  /** The part of `map`, `unmap` and `externalIp` after the opcode is known, up to the wait
      for the gateway: remember the discovery's cancel hook. */
  function BeginQueueSpec(s: PmpState): PmpState {
    s.(cancelPending := true)
  }

  /** The rest, once the gateway discovery settled (`discovered`, the host of its location, or
      None when discovery rejects, which leaves the cancel hook in place): forget the hook,
      then queue the request under a fresh deferred. On success the result is that deferred. */
  function CompleteQueueSpec(s: PmpState, op: int, obj: Option<PortMappingOptions>, discovered: Option<string>): (PmpState, Result<nat, PmpError>) {
    if discovered.None? then (s, Err(GatewayDiscoveryFailed))
    else
      var d := s.nextDeferred;
      var found := s.(cancelPending := false, gateway := discovered, nextDeferred := d + 1);
      match RequestSpec(found, op, obj, d)
      case Err(e) => (found, Err(e))
      case Ok(queued) => (queued, Ok(d))
  }

  /** Both halves with nothing in between. */
  function QueueSpec(s: PmpState, op: int, obj: Option<PortMappingOptions>, discovered: Option<string>): (PmpState, Result<nat, PmpError>) {
    CompleteQueueSpec(BeginQueueSpec(s), op, obj, discovered)
  }

  /** `map`. */
  function MapSpec(s: PmpState, opts: MapPortOptions, discovered: Option<string>): (PmpState, Result<nat, PmpError>) {
    match ProtocolOpcode(opts.protocol)
    case None => (s, Err(InvalidType))
    case Some(op) => QueueSpec(s, op, Some(MappingOptionsOf(opts)), discovered)
  }

  /** `unmap`: a mapping request with lifetime 0 (RFC 6886 section 3.4). */
  function UnmapOptions(opts: MapPortOptions): MapPortOptions {
    opts.(description := "", localAddress := "", ttl := 0)
  }

  /** `externalIp`. */
  function ExternalIpSpec(s: PmpState, discovered: Option<string>): (PmpState, Result<nat, PmpError>) {
    QueueSpec(s, OP_EXTERNAL_IP, Some(PortMappingOptions(None, None, None, None, None)), discovered)
  }

  // ---------------------------------------------------------------------------
  // Properties of the state machine

  /** `_next` sends exactly when the queue is non-empty, the socket listens and nothing is in
      flight; it then marks the head active and sends its frame, leaving it queued. It never
      touches the queue or the settled deferreds. */
  lemma NextSendsOnlyWhenIdle(s: PmpState)
    ensures var t := NextSpec(s);
      t.queue == s.queue && t.settled == s.settled
      && (t.sent != s.sent <==> s.queue != [] && s.listening && !s.reqActive)
      && (t.sent != s.sent ==>
            t.sent == s.sent + [Datagram(s.queue[0].buf, s.gateway, s.queue[0].deferred)]
            && t.reqActive && t.req == Some(s.queue[0]))
      && (t.binds != s.binds <==> s.queue != [] && !s.listening && !s.connecting)
  {
    var t := NextSpec(s);
    if s.queue != [] && s.listening && !s.reqActive {
      assert |t.sent| == |s.sent| + 1;
    }
  }

  /** A datagram while the queue is empty, a datagram too short to read, and a datagram whose
      opcode is not the head's plus 128 change nothing at all. */
  lemma IgnoredMessageChangesNothing(s: PmpState, msg: seq<byte>)
    requires s.queue == [] || |msg| < 2 || msg[1] - SERVER_DELTA != s.queue[0].op.Code()
    ensures OnMessageSpec(s, msg) == s
  {
  }

  /** A datagram with the head's opcode plus 128 pops the head exactly once whatever the
      outcome. Unless a read runs past its end, it settles the head's deferred (rejecting it
      when the version or the result code is not 0), clears the active request and sends the
      next queued frame if the socket listens. */
  lemma MatchedMessagePopsHead(s: PmpState, msg: seq<byte>)
    requires s.queue != [] && |msg| >= 2 && msg[1] - SERVER_DELTA == s.queue[0].op.Code()
    ensures var t := OnMessageSpec(s, msg);
      t.queue == s.queue[1..]
      && (Respond(s.queue[0].op, msg) != Matched(Crash) ==>
            |t.settled| == |s.settled| + 1
            && t.settled[|s.settled|].deferred == s.queue[0].deferred
            && (t.settled[|s.settled|].outcome.Err? <==>
                  msg[0] != 0 || (|msg| >= 4 && ReadBE(msg[2..4]) != 0))
            && (t.reqActive <==> s.listening && s.queue[1..] != [])
            && (t.reqActive ==> t.sent == s.sent + [Datagram(s.queue[1].buf, s.gateway, s.queue[1].deferred)]))
  {
    var head := s.queue[0];
    var popped := s.(queue := s.queue[1..]);
    match Respond(head.op, msg)
    case Matched(Resolve(p)) =>
      NextSendsOnlyWhenIdle(popped.(req := None, reqActive := false, settled := s.settled + [Settlement(head.deferred, Ok(p))]));
    case Matched(Reject(e)) =>
      NextSendsOnlyWhenIdle(popped.(req := None, reqActive := false, settled := s.settled + [Settlement(head.deferred, Err(e))]));
    case _ =>
  }

  /** `onError` never rejects the active request, never clears `reqActive` and never touches
      the queue. */
  lemma ErrorKeepsActiveRequest(s: PmpState, err: string, heard: bool)
    ensures var t := OnErrorSpec(s, err, heard);
      t.queue == s.queue && t.req == s.req && t.reqActive == s.reqActive && t.settled == s.settled
      && t.sent == s.sent && (heard ==> !t.listening && !t.connecting)
  {
  }

  /** The events the client reacts to: its public calls, with the gateway discovery's outcome
      supplied, and its socket's events. */
  datatype Event =
    | MapCall(opts: MapPortOptions, discovered: Option<string>)
    | UnmapCall(opts: MapPortOptions, discovered: Option<string>)
    | ExternalIpCall(discovered: Option<string>)
    | CloseCall
    | Listening
    | Message(msg: seq<byte>)
    | SocketClosed
    | SocketError(err: string, heard: bool)
    | DiscoveryStarted
    | DiscoverySettled(op: int, obj: Option<PortMappingOptions>, discovered: Option<string>)

  function Step(s: PmpState, e: Event): PmpState {
    match e
    case MapCall(opts, d) => MapSpec(s, opts, d).0
    case UnmapCall(opts, d) => MapSpec(s, UnmapOptions(opts), d).0
    case ExternalIpCall(d) => ExternalIpSpec(s, d).0
    case CloseCall => CloseSpec(s)
    case Listening => OnListeningSpec(s)
    case Message(msg) => OnMessageSpec(s, msg)
    case SocketClosed => OnCloseSpec(s)
    case SocketError(err, heard) => OnErrorSpec(s, err, heard)
    case DiscoveryStarted => BeginQueueSpec(s)
    case DiscoverySettled(op, obj, d) => CompleteQueueSpec(s, op, obj, d).0
  }

  function Run(s: PmpState, events: seq<Event>): PmpState
    decreases |events|
  {
    if events == [] then s else Run(Step(s, events[0]), events[1..])
  }

  /** The FIFO discipline, as an invariant over deferred numbers (which grow with submission):
      queued requests, settled deferreds and sent datagrams are each in submission order;
      everything settled was submitted before everything still queued; every datagram sent
      belongs to a request before the queued ones, except that the active head may have been
      sent; and all of them are below the next deferred number. */
  ghost predicate Ordered(s: PmpState) {
    OrderedParts(s.queue, s.settled, s.sent, s.reqActive, s.nextDeferred)
  }

  ghost predicate OrderedParts(q: seq<QueuedRequest>, st: seq<Settlement>, sn: seq<Datagram>, reqActive: bool, nextDeferred: nat) {
    (forall i, j :: 0 <= i < j < |q| ==> q[i].deferred < q[j].deferred)
    && (forall i, j :: 0 <= i < j < |st| ==> st[i].deferred < st[j].deferred)
    && (forall i, j :: 0 <= i < j < |sn| ==> sn[i].deferred < sn[j].deferred)
    && (forall i, j :: 0 <= i < |st| && 0 <= j < |q| ==> st[i].deferred < q[j].deferred)
    && (forall i, j :: 0 <= i < |sn| && 0 <= j < |q| ==>
          sn[i].deferred < q[j].deferred || (reqActive && j == 0 && sn[i].deferred == q[0].deferred))
    && (forall i :: 0 <= i < |q| ==> q[i].deferred < nextDeferred)
    && (forall i :: 0 <= i < |st| ==> st[i].deferred < nextDeferred)
    && (forall i :: 0 <= i < |sn| ==> sn[i].deferred < nextDeferred)
  }

  /** Skipping a deferred number keeps the order. */
  lemma BumpKeepsOrder(q: seq<QueuedRequest>, st: seq<Settlement>, sn: seq<Datagram>, reqActive: bool, nextDeferred: nat)
    requires OrderedParts(q, st, sn, reqActive, nextDeferred)
    ensures OrderedParts(q, st, sn, reqActive, nextDeferred + 1)
  {
  }

  lemma NextKeepsOrder(s: PmpState)
    requires Ordered(s)
    ensures Ordered(NextSpec(s))
  {
    if s.queue != [] && s.listening && !s.reqActive {
      var d := Datagram(s.queue[0].buf, s.gateway, s.queue[0].deferred);
      SendKeepsOrder(s.queue, s.settled, s.sent, s.nextDeferred, d);
      assert NextSpec(s) == s.(reqActive := true, req := Some(s.queue[0]), sent := s.sent + [d]);
    }
  }

  /** Sending the head of an idle queue keeps the order. */
  lemma SendKeepsOrder(q: seq<QueuedRequest>, st: seq<Settlement>, sn: seq<Datagram>, nextDeferred: nat, d: Datagram)
    requires OrderedParts(q, st, sn, false, nextDeferred)
    requires q != [] && d.deferred == q[0].deferred
    ensures OrderedParts(q, st, sn + [d], true, nextDeferred)
  {
    var sn' := sn + [d];
    assert forall i :: 0 <= i < |sn| ==> sn'[i] == sn[i];
  }

  lemma PushKeepsOrder(s: PmpState, r: QueuedRequest)
    requires Ordered(s) && r.deferred == s.nextDeferred
    ensures Ordered(s.(queue := s.queue + [r], nextDeferred := s.nextDeferred + 1))
  {
  }

  lemma PopKeepsOrder(s: PmpState)
    requires Ordered(s) && s.queue != []
    ensures Ordered(s.(queue := s.queue[1..]))
  {
    var q := s.queue[1..];
    assert forall j :: 0 <= j < |q| ==> q[j] == s.queue[j + 1];
  }

  lemma SettleKeepsOrder(s: PmpState, head: QueuedRequest, outcome: Result<Parsed, PmpError>)
    requires s.queue != [] && head == s.queue[0] && Ordered(s)
    ensures Ordered(SettleHead(s.(queue := s.queue[1..]), head, outcome))
  {
    var x := Settlement(head.deferred, outcome);
    SettlePartsKeepOrder(s.queue, s.settled, s.sent, s.reqActive, s.nextDeferred, x);
    var u := s.(queue := s.queue[1..], req := None, reqActive := false, settled := s.settled + [x]);
    NextKeepsOrder(u);
  }

  /** Settling the head under its own deferred number and dropping it from the queue keeps the
      order, with no request in flight afterwards. */
  lemma SettlePartsKeepOrder(q: seq<QueuedRequest>, st: seq<Settlement>, sn: seq<Datagram>, reqActive: bool, nextDeferred: nat, x: Settlement)
    requires OrderedParts(q, st, sn, reqActive, nextDeferred) && q != [] && x.deferred == q[0].deferred
    ensures OrderedParts(q[1..], st + [x], sn, false, nextDeferred)
  {
    var q' := q[1..];
    assert forall j :: 0 <= j < |q'| ==> q'[j] == q[j + 1];
    var st' := st + [x];
    assert forall i :: 0 <= i < |st| ==> st'[i] == st[i];
    assert st'[|st|] == x;
  }

  /** What `QueueSpec` does when discovery succeeds and the frame encodes: push under the next
      deferred number, then `_next`. */
  lemma QueueShape(s: PmpState, op: int, obj: Option<PortMappingOptions>, discovered: Option<string>)
    requires discovered.Some? && EncodeRequest(op, obj).Ok?
    ensures var f := EncodeRequest(op, obj).value;
      QueueSpec(s, op, obj, discovered).0
        == NextSpec(s.(cancelPending := false, gateway := discovered,
                       queue := s.queue + [QueuedRequest(f.op, f.buf, s.nextDeferred)],
                       nextDeferred := s.nextDeferred + 1))
  {
  }

  lemma QueueKeepsOrder(s: PmpState, op: int, obj: Option<PortMappingOptions>, discovered: Option<string>)
    requires Ordered(s)
    ensures Ordered(QueueSpec(s, op, obj, discovered).0)
  {
    CompleteKeepsOrder(BeginQueueSpec(s), op, obj, discovered);
  }

  /** Whatever happened while the call waited for the gateway, its completion keeps the order. */
  lemma CompleteKeepsOrder(s: PmpState, op: int, obj: Option<PortMappingOptions>, discovered: Option<string>)
    requires Ordered(s)
    ensures Ordered(CompleteQueueSpec(s, op, obj, discovered).0)
  {
    if discovered.Some? {
      if EncodeRequest(op, obj).Err? {
        QueueFailedKeepsOrder(s, op, obj, discovered);
      } else {
        QueuedKeepsOrder(s, op, obj, discovered);
      }
    }
  }

  /** A request that does not encode only uses up a deferred number. */
  lemma QueueFailedKeepsOrder(s: PmpState, op: int, obj: Option<PortMappingOptions>, discovered: Option<string>)
    requires Ordered(s) && discovered.Some? && EncodeRequest(op, obj).Err?
    ensures Ordered(CompleteQueueSpec(s, op, obj, discovered).0)
  {
    var t := s.(cancelPending := false, gateway := discovered, nextDeferred := s.nextDeferred + 1);
    assert CompleteQueueSpec(s, op, obj, discovered).0 == t;
    BumpKeepsOrder(s.queue, s.settled, s.sent, s.reqActive, s.nextDeferred);
  }

  /** A request that encodes is pushed under the next deferred number and `_next` runs. */
  lemma QueuedKeepsOrder(s: PmpState, op: int, obj: Option<PortMappingOptions>, discovered: Option<string>)
    requires Ordered(s) && discovered.Some? && EncodeRequest(op, obj).Ok?
    ensures Ordered(CompleteQueueSpec(s, op, obj, discovered).0)
  {
    var enc := EncodeRequest(op, obj);
    var r := QueuedRequest(enc.value.op, enc.value.buf, s.nextDeferred);
    var found := s.(cancelPending := false, gateway := discovered);
    PushKeepsOrder(found, r);
    NextKeepsOrder(found.(queue := s.queue + [r], nextDeferred := s.nextDeferred + 1));
    assert CompleteQueueSpec(s, op, obj, discovered).0
             == NextSpec(found.(queue := s.queue + [r], nextDeferred := s.nextDeferred + 1));
  }

  /** A `close` while a call waits for the gateway calls the discovery's cancel hook. A static
      gateway ignores that cancel and is still delivered; the request is then pushed onto the
      queue `close` emptied, and `_next` binds the socket `close` closed again. */
  lemma CloseDuringDiscovery(s: PmpState, op: int, obj: Option<PortMappingOptions>, host: string)
    requires EncodeRequest(op, obj).Ok?
    ensures var c := CloseSpec(BeginQueueSpec(s));
      var (t, r) := CompleteQueueSpec(c, op, obj, Some(host));
      && c.cancelCalls == s.cancelCalls + 1 && c.queue == []
      && r == Ok(s.nextDeferred)
      && |t.queue| == 1 && t.queue[0].deferred == s.nextDeferred
      && t.socketCloses == s.socketCloses + 1
      && t.binds == s.binds + 1 && !t.listening && t.connecting
      && t.sent == s.sent
  {
  }

  lemma MessageKeepsOrder(s: PmpState, msg: seq<byte>)
    requires Ordered(s)
    ensures Ordered(OnMessageSpec(s, msg))
  {
    if s.queue != [] {
      var head := s.queue[0];
      var resp := Respond(head.op, msg);
      if resp.Matched? {
        match resp.settle
        case Resolve(p) => SettleKeepsOrder(s, head, Ok(p));
        case Reject(e) => SettleKeepsOrder(s, head, Err(e));
        case Crash => PopKeepsOrder(s);
      }
    }
  }

  /** Every event keeps the FIFO invariant. */
  lemma {:induction false} StepKeepsOrder(s: PmpState, e: Event)
    requires Ordered(s)
    ensures Ordered(Step(s, e))
  {
    match e
    case MapCall(opts, d) => MapKeepsOrder(s, opts, d);
    case UnmapCall(opts, d) => MapKeepsOrder(s, UnmapOptions(opts), d);
    case ExternalIpCall(d) =>
      QueueKeepsOrder(s, OP_EXTERNAL_IP, Some(PortMappingOptions(None, None, None, None, None)), d);
    case CloseCall => SocketEventKeepsOrder(s, e);
    case Listening =>
      NextKeepsOrder(s.(listening := true, connecting := false));
    case Message(msg) =>
      MessageKeepsOrder(s, msg);
    case SocketClosed => SocketEventKeepsOrder(s, e);
    case SocketError(err, heard) => SocketEventKeepsOrder(s, e);
    case DiscoveryStarted => SocketEventKeepsOrder(s, e);
    case DiscoverySettled(op, obj, d) => CompleteKeepsOrder(s, op, obj, d);
  }

  lemma MapKeepsOrder(s: PmpState, opts: MapPortOptions, d: Option<string>)
    requires Ordered(s)
    ensures Ordered(MapSpec(s, opts, d).0)
  {
    if ProtocolOpcode(opts.protocol).Some? {
      QueueKeepsOrder(s, ProtocolOpcode(opts.protocol).value, Some(MappingOptionsOf(opts)), d);
    }
  }

  /** Closing the client, the socket's close and error events and the start of a gateway
      discovery send and settle nothing. */
  lemma SocketEventKeepsOrder(s: PmpState, e: Event)
    requires Ordered(s) && (e.CloseCall? || e.SocketClosed? || e.SocketError? || e.DiscoveryStarted?)
    ensures Ordered(Step(s, e))
  {
  }

  /** From the initial state, whatever happens, requests are sent at most once and in
      submission order, and deferreds are settled in submission order. */
  lemma {:induction false} RunKeepsOrder(s: PmpState, events: seq<Event>)
    requires Ordered(s)
    ensures Ordered(Run(s, events))
    decreases |events|
  {
    if events != [] {
      StepKeepsOrder(s, events[0]);
      RunKeepsOrder(Step(s, events[0]), events[1..]);
    }
  }

  lemma InitialOrdered()
    ensures Ordered(Initial())
  {
  }

  /** The protocol name is compared case-insensitively: "tcp" selects opcode 2 and "udp"
      opcode 1; any other name makes `map` throw before the discovery starts or anything
      is queued. */
  lemma ProtocolSelection(s: PmpState, opts: MapPortOptions, discovered: Option<string>)
    ensures ProtocolOpcode(opts.protocol) == Some(OP_MAP_TCP) <==> ToLower(opts.protocol) == "tcp"
    ensures ProtocolOpcode(opts.protocol) == Some(OP_MAP_UDP) <==> ToLower(opts.protocol) == "udp"
    ensures ProtocolOpcode(opts.protocol).None? ==> MapSpec(s, opts, discovered) == (s, Err(InvalidType))
  {
  }

  lemma UpperCaseProtocols()
    ensures ProtocolOpcode("TCP") == Some(OP_MAP_TCP) && ProtocolOpcode("UDP") == Some(OP_MAP_UDP)
  {
    assert ToLower("TCP") == "tcp";
    assert ToLower("UDP") == "udp";
  }

  /** `request` queues the two-byte frame [0, 0] for opcode 0 and throws "Invalid opcode",
      queueing nothing, for any opcode other than 0, 1 and 2. */
  lemma RequestOpcodes(s: PmpState, op: int, obj: Option<PortMappingOptions>, deferred: nat)
    ensures OpOf(op).None? ==> RequestSpec(s, op, obj, deferred) == Err(InvalidOpcode(op))
    ensures op == OP_EXTERNAL_IP ==>
      && RequestSpec(s, op, obj, deferred).Ok?
      && RequestSpec(s, op, obj, deferred).value.queue == s.queue + [QueuedRequest(ExternalIp, [0, 0], deferred)]
  {
  }

  /** Which ports a mapping request refuses, and with which error. The "whole integer" errors
      come only from a port that is not a 32-bit integer: the test for a negative port sits
      behind `??` on a boolean and is never evaluated. A negative or too large 32-bit port
      passes that check and fails later, in Buffer's 16-bit write, with a range error. */
  lemma RequestPortChecks(op: int, obj: Option<PortMappingOptions>)
    requires op == OP_MAP_UDP || op == OP_MAP_TCP
    requires obj.Some?
    ensures var internal := FirstDefined(obj.value.privatePort, obj.value.internal);
      var external := FirstDefined(obj.value.publicPort, obj.value.external);
      && (EncodeRequest(op, obj) == Err(PrivatePortInvalid) <==> !IsInt32(internal))
      && (EncodeRequest(op, obj) == Err(PublicPortInvalid) <==> IsInt32(internal) && !IsInt32(external))
      && (IsInt32(internal) && IsInt32(external) && !(0 <= internal.v < U16_LIMIT) ==>
            EncodeRequest(op, obj) == Err(OutOfRange(internal.v)))
      && (IsInt32(internal) && IsInt32(external) && 0 <= internal.v < U16_LIMIT && !(0 <= external.v < U16_LIMIT) ==>
            EncodeRequest(op, obj) == Err(OutOfRange(external.v)))
  {
  }

  /** The fields of an encoded mapping frame: the internal and external ports read from
      the options, and the lifetime, which is the requested one when it is a 32-bit integer
      and RFC 6886's recommended 7200 seconds otherwise. */
  lemma {:induction false} MappingFields(op: int, obj: Option<PortMappingOptions>)
    requires op != OP_EXTERNAL_IP && EncodeRequest(op, obj).Ok?
    ensures obj.Some?
    ensures var f := EncodeRequest(op, obj).value.buf;
      var t := if obj.value.ttl.Some? then obj.value.ttl.value else Int(0);
      && |f| == 12 && f[0] == 0 && f[1] == op
      && ReadBE(f[4..6]) == FirstDefined(obj.value.privatePort, obj.value.internal).v
      && ReadBE(f[6..8]) == FirstDefined(obj.value.publicPort, obj.value.external).v
      && ReadBE(f[8..12]) == (if IsInt32(t) then t.v else RECOMMENDED_LIFETIME)
  {
    var o := OpOf(op).value;
    var internal := FirstDefined(obj.value.privatePort, obj.value.internal);
    var external := FirstDefined(obj.value.publicPort, obj.value.external);
    var ttl := RequestedLifetime(obj.value.ttl);
    MappingFrameLayout(o, internal.v, external.v, ttl.v);
  }

  /** `map` hands `request` an object with none of the port fields it reads, so its frames
      carry internal and external port 0; the lifetime is the mapping's ttl, and a negative
      32-bit ttl is a range error. */
  lemma {:induction false} MapFramesCarryPortZero(opts: MapPortOptions)
    requires ProtocolOpcode(opts.protocol).Some?
    ensures var e := EncodeRequest(ProtocolOpcode(opts.protocol).value, Some(MappingOptionsOf(opts)));
      && (e.Ok? <==> !(INT32_MIN <= opts.ttl < 0))
      && (e.Ok? ==> ReadBE(e.value.buf[4..6]) == 0 && ReadBE(e.value.buf[6..8]) == 0
                    && ReadBE(e.value.buf[8..12])
                         == (if IsInt32(Int(opts.ttl)) then opts.ttl else RECOMMENDED_LIFETIME))
  {
    var op := ProtocolOpcode(opts.protocol).value;
    var obj := Some(MappingOptionsOf(opts));
    var e := EncodeRequest(op, obj);
    assert FirstDefined(None, None) == Int(0);
    if e.Ok? {
      MappingFields(op, obj);
    }
  }

  /** `unmap` sends ports 0 and lifetime 0, which section 3.4 of RFC 6886 defines as a
      request to delete all of the client's mappings for that protocol. */
  lemma {:induction false} UnmapFrameDeletesAll(opts: MapPortOptions)
    requires ProtocolOpcode(opts.protocol).Some?
    ensures var u := EncodeRequest(ProtocolOpcode(opts.protocol).value, Some(MappingOptionsOf(UnmapOptions(opts))));
      u.Ok? && ReadBE(u.value.buf[4..6]) == 0 && ReadBE(u.value.buf[6..8]) == 0
      && ReadBE(u.value.buf[8..12]) == 0
  {
    var op := ProtocolOpcode(opts.protocol).value;
    var obj := Some(MappingOptionsOf(UnmapOptions(opts)));
    assert FirstDefined(None, None) == Int(0);
    assert RequestedLifetime(Some(Int(0))) == Int(0);
    assert EncodeRequest(op, obj).Ok?;
    MappingFields(op, obj);
  }

  /** What `map` does when the protocol is accepted, discovery succeeds and the frame
      encodes: push the frame under the next deferred number, then `_next`. */
  lemma MapShape(s: PmpState, opts: MapPortOptions, host: string)
    requires MapSpec(s, opts, Some(host)).1.Ok?
    ensures ProtocolOpcode(opts.protocol).Some?
    ensures var f := EncodeRequest(ProtocolOpcode(opts.protocol).value, Some(MappingOptionsOf(opts)));
      f.Ok?
      && MapSpec(s, opts, Some(host)).0
           == NextSpec(s.(cancelPending := false, gateway := Some(host),
                          queue := s.queue + [QueuedRequest(f.value.op, f.value.buf, s.nextDeferred)],
                          nextDeferred := s.nextDeferred + 1))
  {
    var op := ProtocolOpcode(opts.protocol).value;
    var obj := Some(MappingOptionsOf(opts));
    assert EncodeRequest(op, obj).Ok?;
    QueueShape(s, op, obj, Some(host));
  }

  /** Two mapping requests issued before any response: only the first frame goes out; the
      second goes out when the first one's matching response has been consumed. */
  lemma SecondRequestWaitsForFirst(s: PmpState, a: MapPortOptions, b: MapPortOptions, host: string, reply: seq<byte>)
    requires s.listening && !s.reqActive && s.queue == []
    requires MapSpec(s, a, Some(host)).1.Ok?
    requires MapSpec(MapSpec(s, a, Some(host)).0, b, Some(host)).1.Ok?
    ensures var s2 := MapSpec(MapSpec(s, a, Some(host)).0, b, Some(host)).0;
      |s2.queue| == 2
      && s2.sent == s.sent + [Datagram(s2.queue[0].buf, Some(host), s2.queue[0].deferred)]
      && (|reply| >= 2 && reply[1] - SERVER_DELTA == s2.queue[0].op.Code()
          && Respond(s2.queue[0].op, reply) != Matched(Crash)
          ==> OnMessageSpec(s2, reply).sent
                == s2.sent + [Datagram(s2.queue[1].buf, Some(host), s2.queue[1].deferred)])
  {
    var s1 := MapSpec(s, a, Some(host)).0;
    MapShape(s, a, host);
    var fa := EncodeRequest(ProtocolOpcode(a.protocol).value, Some(MappingOptionsOf(a))).value;
    var p1 := s.(cancelPending := false, gateway := Some(host),
                 queue := [QueuedRequest(fa.op, fa.buf, s.nextDeferred)], nextDeferred := s.nextDeferred + 1);
    assert s.queue + [QueuedRequest(fa.op, fa.buf, s.nextDeferred)] == p1.queue;
    NextSendsOnlyWhenIdle(p1);
    assert s1 == NextSpec(p1);
    assert s1.reqActive && s1.queue == p1.queue && s1.listening;
    var s2 := MapSpec(s1, b, Some(host)).0;
    MapShape(s1, b, host);
    var fb := EncodeRequest(ProtocolOpcode(b.protocol).value, Some(MappingOptionsOf(b))).value;
    var p2 := s1.(cancelPending := false, gateway := Some(host),
                  queue := s1.queue + [QueuedRequest(fb.op, fb.buf, s1.nextDeferred)], nextDeferred := s1.nextDeferred + 1);
    NextSendsOnlyWhenIdle(p2);
    assert s2 == NextSpec(p2);
    if |reply| >= 2 && reply[1] - SERVER_DELTA == s2.queue[0].op.Code()
       && Respond(s2.queue[0].op, reply) != Matched(Crash) {
      MatchedMessagePopsHead(s2, reply);
    }
  }

  // ---------------------------------------------------------------------------
  // The client object

  /** PMPClient. Its fields are those of the source; the counters and logs record the calls
      it makes on its socket, its deferreds and the gateway discovery. */
  class PmpClient {
    var queue: seq<QueuedRequest>
    var connecting: bool
    var listening: bool
    var req: Option<QueuedRequest>
    var reqActive: bool
    var gateway: Option<string>
    var cancelPending: bool
    var nextDeferred: nat
    var binds: nat
    var socketCloses: nat
    var sent: seq<Datagram>
    var settled: seq<Settlement>
    var emitted: seq<string>
    var cancelCalls: nat

    function State(): PmpState
      reads this
    {
      PmpState(queue, connecting, listening, req, reqActive, gateway, cancelPending, nextDeferred,
               binds, socketCloses, sent, settled, emitted, cancelCalls)
    }

    /** The constructor resets the fields and tries to connect. */
    constructor ()
      ensures State() == Initial()
    {
      queue, connecting, listening, req, reqActive := [], false, false, None, false;
      gateway, cancelPending, nextDeferred := None, false, 0;
      binds, socketCloses, sent, settled, emitted, cancelCalls := 0, 0, [], [], [], 0;
      new;
      Connect();
    }

    method Connect()
      modifies this
      ensures State() == ConnectSpec(old(State()))
    {
      if connecting {
        return;
      }
      connecting := true;
      binds := binds + 1;         // bind the socket to the client port
    }

    method Next()
      modifies this
      ensures State() == NextSpec(old(State()))
    {
      if queue == [] {
        return;                   // nothing to process
      }
      if !listening {
        if !connecting {
          Connect();
        }
        return;
      }
      if reqActive {
        return;                   // already an active request
      }
      reqActive := true;
      req := Some(queue[0]);
      sent := sent + [Datagram(queue[0].buf, gateway, queue[0].deferred)];
    }

    method Request(op: int, obj: Option<PortMappingOptions>, deferred: nat) returns (r: Result<(), PmpError>)
      modifies this
      ensures match RequestSpec(old(State()), op, obj, deferred)
              case Ok(t) => r.Ok? && State() == t
              case Err(e) => r == Err(e) && State() == old(State())
    {
      var code := OpOf(op);
      if code.None? {
        return Err(InvalidOpcode(op));
      }
      var frame: Frame;
      if code.value == Op.ExternalIp {
        var buf := WriteExternalIpFrame();
        frame := Frame(Op.ExternalIp, buf);
      } else {
        if obj.None? {
          return Err(OptionsRequired);
        }
        var internal := FirstDefined(obj.value.privatePort, obj.value.internal);
        if !IsInt32(internal) {
          return Err(PrivatePortInvalid);
        }
        var external := FirstDefined(obj.value.publicPort, obj.value.external);
        if !IsInt32(external) {
          return Err(PublicPortInvalid);
        }
        var ttl := RequestedLifetime(obj.value.ttl);
        if !(0 <= internal.v < U16_LIMIT) {
          return Err(OutOfRange(internal.v));
        }
        if !(0 <= external.v < U16_LIMIT) {
          return Err(OutOfRange(external.v));
        }
        if !(0 <= ttl.v < U32_LIMIT) {
          return Err(OutOfRange(ttl.v));
        }
        var buf := WriteMappingFrame(code.value, internal.v, external.v, ttl.v);
        frame := Frame(code.value, buf);
      }
      queue := queue + [QueuedRequest(frame.op, frame.buf, deferred)];
      Next();
      r := Ok(());
    }

    /** Up to the wait for the gateway: keep the discovery's cancel hook. */
    method BeginQueue()
      modifies this
      ensures State() == BeginQueueSpec(old(State()))
    {
      cancelPending := true;
    }

    /** After the gateway discovery settled. */
    method CompleteQueue(op: int, obj: Option<PortMappingOptions>, discovered: Option<string>) returns (r: Result<nat, PmpError>)
      modifies this
      ensures (State(), r) == CompleteQueueSpec(old(State()), op, obj, discovered)
    {
      if discovered.None? {
        return Err(GatewayDiscoveryFailed);
      }
      cancelPending := false;
      gateway := discovered;
      var d := nextDeferred;      // a fresh deferred
      nextDeferred := d + 1;
      var q := Request(op, obj, d);
      if q.Err? {
        return Err(q.error);
      }
      r := Ok(d);
    }

    method Queue(op: int, obj: Option<PortMappingOptions>, discovered: Option<string>) returns (r: Result<nat, PmpError>)
      modifies this
      ensures (State(), r) == QueueSpec(old(State()), op, obj, discovered)
    {
      BeginQueue();
      r := CompleteQueue(op, obj, discovered);
    }

    method Map(opts: MapPortOptions, discovered: Option<string>) returns (r: Result<nat, PmpError>)
      modifies this
      ensures (State(), r) == MapSpec(old(State()), opts, discovered)
    {
      var op := ProtocolOpcode(opts.protocol);
      if op.None? {
        return Err(InvalidType);
      }
      r := Queue(op.value, Some(MappingOptionsOf(opts)), discovered);
    }

    method Unmap(opts: MapPortOptions, discovered: Option<string>) returns (r: Result<nat, PmpError>)
      modifies this
      ensures (State(), r) == MapSpec(old(State()), UnmapOptions(opts), discovered)
    {
      r := Map(UnmapOptions(opts), discovered);
    }

    method ExternalIp(discovered: Option<string>) returns (r: Result<nat, PmpError>)
      modifies this
      ensures (State(), r) == ExternalIpSpec(old(State()), discovered)
    {
      r := Queue(OP_EXTERNAL_IP, Some(PortMappingOptions(None, None, None, None, None)), discovered);
    }

    method Close()
      modifies this
      ensures State() == CloseSpec(old(State()))
    {
      socketCloses := socketCloses + 1;   // close the socket
      queue, connecting, listening, req, reqActive := [], false, false, None, false;
      if cancelPending {
        cancelCalls := cancelCalls + 1;   // cancel the pending discovery
      }
    }

    method OnListening()
      modifies this
      ensures State() == OnListeningSpec(old(State()))
    {
      listening := true;
      connecting := false;
      Next();
    }

    method OnMessage(msg: seq<byte>)
      modifies this
      ensures State() == OnMessageSpec(old(State()), msg)
    {
      if queue == [] {
        return;                   // not expecting a message
      }
      var head := queue[0];
      var response := Respond(head.op, msg);
      if response.Unreadable? || response.Stray? {
        return;
      }
      queue := queue[1..];        // shift the request off the queue
      if response.settle.Crash? {
        return;                   // reading a field past the end throws
      }
      var outcome: Result<Parsed, PmpError> :=
        if response.settle.Resolve? then Ok(response.settle.value) else Err(response.settle.error);
      Settle(head, outcome);
    }

    /** The `cb` closure of `onMessage`: clear the active request, settle the deferred of
      the request that was shifted off, and try to send the next one. */
    method Settle(head: QueuedRequest, outcome: Result<Parsed, PmpError>)
      modifies this
      ensures State() == SettleHead(old(State()), head, outcome)
    {
      req := None;
      reqActive := false;
      settled := settled + [Settlement(head.deferred, outcome)];
      Next();
    }

    method OnClose()
      modifies this
      ensures State() == OnCloseSpec(old(State()))
    {
      listening := false;
      connecting := false;
    }

    method OnError(err: string, hasErrorListener: bool)
      modifies this
      ensures State() == OnErrorSpec(old(State()), err, hasErrorListener)
    {
      if !hasErrorListener {
        return;                   // emit('error') with no listener throws
      }
      emitted := emitted + [err];
      socketCloses := socketCloses + 1;
      OnClose();
    }
  }
}
