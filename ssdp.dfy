/** The SSDP transport: the M-SEARCH query (UPnP Device Architecture 1.1, section 1.3.2), the
    MIME-style header parser, the filter on received datagrams, and the `Ssdp` object whose
    "ready gate" holds searches back until every socket is bound or has failed. Sockets are
    numbered; sending, closing and the socket events are recorded or received as calls. */
module Ssdp {
  import opened Common

  const MULTICAST: string := "239.255.255.250"
  const PORT: int := 1900
  /** The multicast port written as decimal text, as it appears in the HOST header. */
  const PORT_TEXT: string := "1900"

  // ---------------------------------------------------------------------------
  // Characters as JavaScript regular expressions see them

  /** A line terminator: what `.` does not match. */
  predicate IsLineTerminator(c: char) {
    c == '\n' || c == '\r' || c == '\U{2028}' || c == '\U{2029}'
  }

  /** A character matched by `\s`. */
  predicate IsJsSpace(c: char) {
    || c == '\t' || c == '\n' || c == '\U{000B}' || c == '\U{000C}' || c == '\r' || c == ' '
    || c == '\U{00A0}' || c == '\U{1680}' || ('\U{2000}' <= c <= '\U{200A}')
    || c == '\U{2028}' || c == '\U{2029}' || c == '\U{202F}' || c == '\U{205F}' || c == '\U{3000}'
    || c == '\U{FEFF}'
  }

  // ---------------------------------------------------------------------------
  // Splitting on CRLF

  const CRLF: string := "\r\n"

  predicate CrlfAt(s: string, i: int) {
    0 <= i && i + 1 < |s| && s[i] == '\r' && s[i + 1] == '\n'
  }

  predicate HasCrlf(s: string) {
    exists i :: 0 <= i < |s| && CrlfAt(s, i)
  }

  /** The index of the first CRLF at or after `from`. */
  function FindCrlf(s: string, from: nat): (r: Option<nat>)
    ensures r.Some? ==> from <= r.value && CrlfAt(s, r.value)
    ensures r.Some? ==> forall j :: from <= j < r.value ==> !CrlfAt(s, j)
    ensures r.None? ==> forall j :: from <= j ==> !CrlfAt(s, j)
    decreases |s| - from
  {
    if from + 1 >= |s| then None
    else if s[from] == '\r' && s[from + 1] == '\n' then Some(from)
    else FindCrlf(s, from + 1)
  }

  /** `s.split(/\r\n/g)`. */
  function Split(s: string): (r: seq<string>)
    ensures |r| >= 1
    decreases |s|
  {
    match FindCrlf(s, 0)
    case None => [s]
    case Some(i) => [s[..i]] + Split(s[i + 2..])
  }

  /** The lines joined with CRLF. */
  function Join(lines: seq<string>): string
    requires |lines| >= 1
  {
    if |lines| == 1 then lines[0] else lines[0] + CRLF + Join(lines[1..])
  }

  /** Splitting undoes joining, for lines that contain no CRLF themselves. */
  lemma {:induction false} SplitJoin(lines: seq<string>)
    requires |lines| >= 1
    requires forall i :: 0 <= i < |lines| ==> !HasCrlf(lines[i])
    ensures Split(Join(lines)) == lines
    decreases |lines|
  {
    var l := lines[0];
    if |lines| == 1 {
      assert !HasCrlf(l);
    } else {
      var rest := Join(lines[1..]);
      var s := l + CRLF + rest;
      forall j | 0 <= j < |l| ensures !CrlfAt(s, j) {
        if CrlfAt(s, j) && j + 1 < |l| {
          assert CrlfAt(l, j);
        }
      }
      assert CrlfAt(s, |l|);
      FindFirst(s, 0, |l|);
      assert s[..|l|] == l;
      assert s[|l| + 2..] == rest;
      SplitJoin(lines[1..]);
    }
  }

  lemma {:induction false} FindFirst(s: string, from: nat, k: nat)
    requires from <= k && CrlfAt(s, k)
    requires forall j :: from <= j < k ==> !CrlfAt(s, j)
    ensures FindCrlf(s, from) == Some(k)
    decreases k - from
  {
    if from < k {
      FindFirst(s, from + 1, k);
    }
  }

  // ---------------------------------------------------------------------------
  // `_parseMimeHeader`

  function FirstColon(s: string): (r: Option<nat>)
    ensures r.Some? ==> r.value < |s| && s[r.value] == ':' && ':' !in s[..r.value]
    ensures r.None? ==> ':' !in s
  {
    if s == [] then None
    else if s[0] == ':' then Some(0)
    else match FirstColon(s[1..])
      case None => None
      case Some(i) => assert s[..i + 1] == [s[0]] + s[1..][..i]; Some(i + 1)
  }

  /** `s` with its leading `\s` characters removed. */
  function TrimStart(s: string): (r: string)
    ensures |r| <= |s| && r == s[|s| - |r|..]
    ensures forall i :: 0 <= i < |s| - |r| ==> IsJsSpace(s[i])
    ensures r == [] || !IsJsSpace(r[0])
  {
    if s != [] && IsJsSpace(s[0]) then TrimStart(s[1..]) else s
  }

  predicate HasLineTerminator(s: string) {
    exists i :: 0 <= i < |s| && IsLineTerminator(s[i])
  }

  /** What `/^([^:]*)\s*:\s*(.*)$/` extracts from one line: the text before the first colon,
      lower-cased and with any trailing spaces kept, and the text after it with leading
      whitespace dropped. The line does not match when it has no colon or when a line
      terminator is left in the value, which `.` cannot cross. */
  function ParseLine(line: string): (r: Option<(string, string)>)
    ensures ':' !in line ==> r.None?
    ensures r.None? <==> FirstColon(line).None? || HasLineTerminator(TrimStart(line[FirstColon(line).value + 1..]))
    ensures r.Some? ==>
      && r.value.0 == ToLower(line[..FirstColon(line).value])
      && r.value.1 == TrimStart(line[FirstColon(line).value + 1..])
    ensures r.Some? ==> |r.value.0| < |line| && ':' !in r.value.0
    ensures r.Some? ==> (r.value.1 == [] || !IsJsSpace(r.value.1[0])) && !HasLineTerminator(r.value.1)
  {
    match FirstColon(line)
    case None => None
    case Some(i) =>
      var value := TrimStart(line[i + 1..]);
      if HasLineTerminator(value) then None
      else
        ToLowerColonFree(line[..i]);
        Some((ToLower(line[..i]), value))
  }

  /** Lower-casing a key cannot create a colon. */
  lemma {:induction false} ToLowerColonFree(s: string)
    requires ':' !in s
    ensures ':' !in ToLower(s)
  {
    var r := ToLower(s);
    forall k | 0 <= k < |r| ensures r[k] != ':' {
      assert s[k] in s;
    }
  }

  /** The line matches, one after the other. */
  function ParsedLines(lines: seq<string>): (r: seq<Option<(string, string)>>)
    ensures |r| == |lines|
    ensures forall i :: 0 <= i < |lines| ==> r[i] == ParseLine(lines[i])
    decreases |lines|
  {
    if lines == [] then [] else [ParseLine(lines[0])] + ParsedLines(lines[1..])
  }

  /** One step of the `reduce`: a matching line sets its key, any other line is skipped. */
  function AddEntry(headers: map<string, string>, e: Option<(string, string)>): map<string, string> {
    match e
    case None => headers
    case Some((key, value)) => headers[key := value]
  }

  function FoldEntries(headers: map<string, string>, es: seq<Option<(string, string)>>): map<string, string>
    decreases |es|
  {
    if es == [] then headers else FoldEntries(AddEntry(headers, es[0]), es[1..])
  }

  /** The `reduce` over the lines, starting from `headers`. */
  function FoldLines(headers: map<string, string>, lines: seq<string>): map<string, string> {
    FoldEntries(headers, ParsedLines(lines))
  }

  /** `_parseMimeHeader`. */
  function ParseMimeHeader(text: string): map<string, string> {
    FoldLines(map[], Split(text))
  }

  predicate EntrySets(e: Option<(string, string)>, key: string) {
    e.Some? && e.value.0 == key
  }

  /** The key a line sets, if any. */
  predicate Sets(line: string, key: string) {
    EntrySets(ParseLine(line), key)
  }

  lemma {:induction false} EntriesUnsetKeyKept(headers: map<string, string>, es: seq<Option<(string, string)>>, key: string)
    requires forall i :: 0 <= i < |es| ==> !EntrySets(es[i], key)
    ensures key in FoldEntries(headers, es) <==> key in headers
    ensures key in headers ==> FoldEntries(headers, es)[key] == headers[key]
    decreases |es|
  {
    if es != [] {
      assert !EntrySets(es[0], key);
      assert forall i :: 0 <= i < |es[1..]| ==> !EntrySets(es[1..][i], key) by {
        forall i | 0 <= i < |es[1..]| ensures !EntrySets(es[1..][i], key) {
          assert es[1..][i] == es[i + 1];
        }
      }
      EntriesUnsetKeyKept(AddEntry(headers, es[0]), es[1..], key);
    }
  }

  lemma {:induction false} EntriesLastWins(headers: map<string, string>, es: seq<Option<(string, string)>>, key: string, j: nat)
    requires j < |es| && EntrySets(es[j], key)
    requires forall i :: j < i < |es| ==> !EntrySets(es[i], key)
    ensures key in FoldEntries(headers, es)
    ensures FoldEntries(headers, es)[key] == es[j].value.1
    decreases |es|
  {
    var next := AddEntry(headers, es[0]);
    if j == 0 {
      assert key in next && next[key] == es[0].value.1;
      assert forall i :: 0 <= i < |es[1..]| ==> !EntrySets(es[1..][i], key) by {
        forall i | 0 <= i < |es[1..]| ensures !EntrySets(es[1..][i], key) {
          assert es[1..][i] == es[i + 1];
        }
      }
      EntriesUnsetKeyKept(next, es[1..], key);
    } else {
      assert es[1..][j - 1] == es[j];
      assert forall i :: j - 1 < i < |es[1..]| ==> !EntrySets(es[1..][i], key) by {
        forall i | j - 1 < i < |es[1..]| ensures !EntrySets(es[1..][i], key) {
          assert es[1..][i] == es[i + 1];
        }
      }
      EntriesLastWins(next, es[1..], key, j - 1);
    }
  }

  /** A key no line sets keeps its earlier value. */
  lemma {:induction false} UnsetKeyKept(headers: map<string, string>, lines: seq<string>, key: string)
    requires forall i :: 0 <= i < |lines| ==> !Sets(lines[i], key)
    ensures key in FoldLines(headers, lines) <==> key in headers
    ensures key in headers ==> FoldLines(headers, lines)[key] == headers[key]
  {
    var es := ParsedLines(lines);
    assert forall i :: 0 <= i < |es| ==> !EntrySets(es[i], key) by {
      forall i | 0 <= i < |es| ensures !EntrySets(es[i], key) {
        assert !Sets(lines[i], key);
      }
    }
    EntriesUnsetKeyKept(headers, es, key);
  }

  /** The last line that sets a key decides its value: later duplicates win. */
  lemma {:induction false} LastLineWins(headers: map<string, string>, lines: seq<string>, key: string, j: nat)
    requires j < |lines| && Sets(lines[j], key)
    requires forall i :: j < i < |lines| ==> !Sets(lines[i], key)
    ensures key in FoldLines(headers, lines)
    ensures FoldLines(headers, lines)[key] == ParseLine(lines[j]).value.1
  {
    var es := ParsedLines(lines);
    assert forall i :: j < i < |es| ==> !EntrySets(es[i], key) by {
      forall i | j < i < |es| ensures !EntrySets(es[i], key) {
        assert !Sets(lines[i], key);
      }
    }
    EntriesLastWins(headers, es, key, j);
  }

  lemma {:induction false} FirstColonAt(s: string, k: nat)
    requires k < |s| && s[k] == ':' && ':' !in s[..k]
    ensures FirstColon(s) == Some(k)
    decreases k
  {
    if k > 0 {
      assert s[1..][..k - 1] == s[1..k];
      assert forall c :: c in s[1..k] ==> c in s[..k];
      FirstColonAt(s[1..], k - 1);
    }
  }

  lemma {:induction false} TrimStartStops(s: string)
    requires s == [] || !IsJsSpace(s[0])
    ensures TrimStart(s) == s
  {
  }

  lemma {:induction false} TrimStartSkips(c: char, s: string)
    requires IsJsSpace(c)
    ensures TrimStart([c] + s) == TrimStart(s)
  {
    assert ([c] + s)[1..] == s;
  }

  /** A header line `Name: value` reads back as the lower-cased name and the value. */
  lemma {:induction false} HeaderLine(name: string, value: string)
    requires ':' !in name
    requires value == [] || !IsJsSpace(value[0])
    requires !HasLineTerminator(value)
    ensures ParseLine(name + ": " + value) == Some((ToLower(name), value))
  {
    var line := name + ": " + value;
    assert line[..|name|] == name && line[|name|] == ':';
    FirstColonAt(line, |name|);
    var after := line[|name| + 1..];
    assert after == [' '] + value;
    TrimStartSkips(' ', value);
    TrimStartStops(value);
  }

  // ---------------------------------------------------------------------------
  // The search query

  const REQUEST_LINE: string := "M-SEARCH * HTTP/1.1"
  const HOST_LINE: string := "HOST: " + MULTICAST + ":" + PORT_TEXT
  const MAN_LINE: string := "MAN: \"ssdp:discover\""
  const MX_LINE: string := "MX: 1"

  function QueryLines(device: string): seq<string> {
    [REQUEST_LINE, HOST_LINE, MAN_LINE, MX_LINE, "ST: " + device, "", ""]
  }

  /** The query datagram for a search target: the request line and four headers, each
      followed by CRLF, then an empty line. */
  function Query(device: string): string {
    Join(QueryLines(device))
  }

  /** The query is the request line and the HOST, MAN, MX and ST headers, each ended by
      CRLF, and then an empty line. */
  lemma {:induction false} QueryText(device: string)
    ensures Query(device) == REQUEST_LINE + CRLF + HOST_LINE + CRLF + MAN_LINE + CRLF + MX_LINE + CRLF
                             + "ST: " + device + CRLF + CRLF
  {
    var ls := QueryLines(device);
    assert Join(ls[6..]) == "";
    assert Join(ls[5..]) == CRLF;
    assert Join(ls[4..]) == "ST: " + device + CRLF + CRLF;
    assert Join(ls[3..]) == MX_LINE + CRLF + ("ST: " + device + CRLF + CRLF);
    assert Join(ls[2..]) == MAN_LINE + CRLF + (MX_LINE + CRLF + ("ST: " + device + CRLF + CRLF));
    assert Join(ls[1..]) == HOST_LINE + CRLF + (MAN_LINE + CRLF + (MX_LINE + CRLF + ("ST: " + device + CRLF + CRLF)));
  }

  lemma {:induction false} NoTerminatorNoCrlf(s: string)
    requires !HasLineTerminator(s)
    ensures !HasCrlf(s)
  {
  }

  lemma EmptyNoCrlf(s: string)
    requires s == []
    ensures !HasCrlf(s)
  {
  }

  lemma PlainConcat(a: string, b: string)
    requires !HasLineTerminator(a) && !HasLineTerminator(b)
    ensures !HasLineTerminator(a + b)
  {
  }

  lemma FixedLinesPlain()
    ensures !HasLineTerminator(REQUEST_LINE) && !HasLineTerminator(HOST_LINE)
    ensures !HasLineTerminator(MAN_LINE) && !HasLineTerminator(MX_LINE) && !HasLineTerminator("ST: ")
  {
  }

  lemma TargetHeader(device: string)
    requires !HasLineTerminator(device)
    requires device == [] || !IsJsSpace(device[0])
    ensures ParseLine("ST: " + device) == Some(("st", device))
  {
    assert "ST: " + device == "ST" + ": " + device;
    HeaderLine("ST", device);
    assert ToLower("ST") == "st";
  }

  /** In text made of lines without CRLF, a key takes the value of the last line that sets
      it, when only colon-free lines follow that one. */
  lemma {:induction false} HeaderOfJoin(ls: seq<string>, k: nat, key: string, value: string)
    requires k < |ls|
    requires forall i :: 0 <= i < |ls| ==> !HasCrlf(ls[i])
    requires ParseLine(ls[k]) == Some((key, value))
    requires forall i :: k < i < |ls| ==> ':' !in ls[i]
    ensures key in ParseMimeHeader(Join(ls)) && ParseMimeHeader(Join(ls))[key] == value
  {
    SplitJoin(ls);
    LastLineWins(map[], ls, key, k);
  }

  /** The header parser reads the search target back from the query, for a target on one
      line that does not start with whitespace. */
  lemma {:induction false} QueryTarget(device: string)
    requires !HasLineTerminator(device)
    requires device == [] || !IsJsSpace(device[0])
    ensures var h := ParseMimeHeader(Query(device)); "st" in h && h["st"] == device
  {
    var ls := QueryLines(device);
    QueryLinesNoCrlf(device);
    TargetHeader(device);
    assert ls[4] == "ST: " + device;
    HeaderOfJoin(ls, 4, "st", device);
  }

  /** No line of the query holds a CRLF of its own. */
  lemma QueryLinesNoCrlf(device: string)
    requires !HasLineTerminator(device)
    ensures forall i :: 0 <= i < |QueryLines(device)| ==> !HasCrlf(QueryLines(device)[i])
  {
    var ls := QueryLines(device);
    FixedLinesPlain();
    PlainConcat("ST: ", device);
    forall i | 0 <= i < |ls| ensures !HasCrlf(ls[i]) {
      if i < 5 {
        NoTerminatorNoCrlf(ls[i]);
      } else {
        EmptyNoCrlf(ls[i]);
      }
    }
  }

  // ---------------------------------------------------------------------------
  // `_parseResponse`

  /** `/^(HTTP|NOTIFY)/m`: some line of the text starts with HTTP or NOTIFY. */
  ghost predicate AdvertLine(text: string) {
    exists p :: 0 <= p <= |text| && (p == 0 || IsLineTerminator(text[p - 1]))
                && (StartsWith(text[p..], "HTTP") || StartsWith(text[p..], "NOTIFY"))
  }

  function LooksLikeAdvert(text: string, p: nat): (r: bool)
    requires p <= |text|
    ensures r <==> exists q :: p <= q <= |text| && (q == 0 || IsLineTerminator(text[q - 1]))
                              && (StartsWith(text[q..], "HTTP") || StartsWith(text[q..], "NOTIFY"))
    decreases |text| - p
  {
    var here := (p == 0 || IsLineTerminator(text[p - 1]))
                && (StartsWith(text[p..], "HTTP") || StartsWith(text[p..], "NOTIFY"));
    if here then true
    else if p == |text| then false
    else
      var later := LooksLikeAdvert(text, p + 1);
      assert later ==> exists q :: p <= q <= |text| && (q == 0 || IsLineTerminator(text[q - 1]))
                                   && (StartsWith(text[q..], "HTTP") || StartsWith(text[q..], "NOTIFY"));
      later
  }

  /** `_parseResponse` up to the emit: the headers of an advertisement that names a search
      target, or None when the datagram is ignored. */
  function ParseResponse(text: string): (r: Option<map<string, string>>)
    ensures r.Some? <==> AdvertLine(text) && "st" in ParseMimeHeader(text) && ParseMimeHeader(text)["st"] != ""
    ensures r.Some? ==> r.value == ParseMimeHeader(text)
  {
    if !LooksLikeAdvert(text, 0) then None
    else
      var headers := ParseMimeHeader(text);
      if "st" !in headers || headers["st"] == "" then None else Some(headers)
  }

  // ---------------------------------------------------------------------------
  // The transport object

  datatype Interface = Interface(family: string, address: string, internal: bool)

  /** A datagram sent on a socket. */
  datatype Send = Send(socket: nat, payload: string, port: int, host: string)

  /** `{action: 'search', device, promise}`; a promise is named by a handle number. */
  datatype QueuedSearch = QueuedSearch(device: string, handle: nat)

  /** An `ondevice` listener registered by a search. */
  datatype Listener = Listener(device: string, handle: nat)

  /** A 'device' event emitted on a search's promise. */
  datatype Found = Found(handle: nat, headers: map<string, string>, address: string)

  datatype SsdpState = SsdpState(
    sockets: seq<nat>,
    bound: bool,
    boundCount: nat,
    destroyed: bool,
    queue: seq<QueuedSearch>,
    ended: set<nat>,
    listeners: seq<Listener>,
    nextHandle: nat,
    sent: seq<Send>,
    closed: seq<nat>,
    found: seq<Found>)

  /** The query sent once on every socket, in socket order. */
  function Broadcast(sockets: seq<nat>, query: string): (r: seq<Send>)
    ensures |r| == |sockets|
    ensures forall i :: 0 <= i < |r| ==> r[i] == Send(sockets[i], query, PORT, MULTICAST)
  {
    if sockets == [] then [] else [Send(sockets[0], query, PORT, MULTICAST)] + Broadcast(sockets[1..], query)
  }

  /** `search(device, promise)`; `promise` None creates a fresh handle. The result is the
      handle returned, or None for the `return` of an ended promise. */
  function SearchSpec(s: SsdpState, device: string, promise: Option<nat>): (SsdpState, Option<nat>) {
    var h: nat := if promise.Some? then promise.value else s.nextHandle;
    var s1 := if promise.Some? then s else s.(nextHandle := s.nextHandle + 1);
    if !s1.bound then (s1.(queue := s1.queue + [QueuedSearch(device, h)]), Some(h))
    else if h in s1.ended then (s1, None)
    else (s1.(sent := s1.sent + Broadcast(s1.sockets, Query(device)),
              listeners := s1.listeners + [Listener(device, h)]), Some(h))
  }

  /** The `forEach` over the queue, each item searched again with its own promise. */
  function Replay(s: SsdpState, items: seq<QueuedSearch>): SsdpState
    decreases |items|
  {
    if items == [] then s else Replay(SearchSpec(s, items[0].device, Some(items[0].handle)).0, items[1..])
  }

  /** `onReady`. */
  function OnReadySpec(s: SsdpState): SsdpState {
    if s.boundCount < |s.sockets| then s else Replay(s.(bound := true), s.queue)
  }

  function OnListeningSpec(s: SsdpState): SsdpState {
    OnReadySpec(s.(boundCount := s.boundCount + 1))
  }

  /** `indexOf`: the first position of `x`, or -1. */
  function IndexOf(xs: seq<nat>, x: nat): (r: int)
    ensures -1 <= r < |xs|
    ensures r >= 0 ==> xs[r] == x && x !in xs[..r]
    ensures r == -1 ==> x !in xs
  {
    if xs == [] then -1
    else if xs[0] == x then 0
    else
      var k := IndexOf(xs[1..], x);
      if k == -1 then -1 else (assert xs[..k + 1] == [xs[0]] + xs[1..][..k]; k + 1)
  }

  /** `splice(start, 1)`; a negative start counts from the end. */
  function SpliceOne(xs: seq<nat>, start: int): (r: seq<nat>)
    requires -1 <= start < |xs|
  {
    if start >= 0 then xs[..start] + xs[start + 1..]
    else if xs == [] then [] else xs[..|xs| - 1]
  }

  /** The bind error handler of a socket: close it, drop it from `sockets`, re-run the gate. */
  function OnErrorSpec(s: SsdpState, socket: nat): SsdpState {
    OnReadySpec(s.(closed := s.closed + [socket],
                   sockets := SpliceOne(s.sockets, IndexOf(s.sockets, socket))))
  }

  /** The listeners a parsed advertisement reaches: not ended, same search target. */
  function Deliver(ls: seq<Listener>, ended: set<nat>, headers: map<string, string>, address: string): (r: seq<Found>)
    ensures forall f :: f in r ==> f.handle !in ended && f.headers == headers && f.address == address
                                   && "st" in headers && Listener(headers["st"], f.handle) in ls
    ensures forall l :: l in ls && l.handle !in ended && "st" in headers && headers["st"] == l.device ==>
              Found(l.handle, headers, address) in r
    ensures |r| <= |ls|
  {
    if ls == [] then []
    else
      var rest := Deliver(ls[1..], ended, headers, address);
      if ls[0].handle !in ended && "st" in headers && headers["st"] == ls[0].device
      then [Found(ls[0].handle, headers, address)] + rest
      else rest
  }

  lemma {:induction false} DeliverUnfold(ls: seq<Listener>, i: nat, ended: set<nat>, headers: map<string, string>,
                                        address: string)
    requires i < |ls|
    ensures Deliver(ls[i..], ended, headers, address)
              == (if ls[i].handle !in ended && "st" in headers && headers["st"] == ls[i].device
                  then [Found(ls[i].handle, headers, address)] else [])
                 + Deliver(ls[i + 1..], ended, headers, address)
  {
    assert ls[i..][1..] == ls[i + 1..];
  }

  /** A datagram received on a socket whose interface address is `address`. */
  function OnMessageSpec(s: SsdpState, text: string, address: string): SsdpState {
    if s.destroyed then s
    else match ParseResponse(text)
      case None => s
      case Some(headers) => s.(found := s.found + Deliver(s.listeners, s.ended, headers, address))
  }

  /** The 'end' event on a promise: mark it ended and detach its listeners. */
  function EndSpec(s: SsdpState, handle: nat): SsdpState {
    s.(ended := s.ended + {handle}, listeners := WithoutHandle(s.listeners, handle))
  }

  function WithoutHandle(ls: seq<Listener>, handle: nat): (r: seq<Listener>)
    ensures forall l :: l in r <==> l in ls && l.handle != handle
  {
    if ls == [] then []
    else (if ls[0].handle != handle then [ls[0]] else []) + WithoutHandle(ls[1..], handle)
  }

  function DestroySpec(s: SsdpState): SsdpState {
    s.(closed := s.closed + s.sockets, destroyed := true)
  }

  // ---------------------------------------------------------------------------
  // Properties

  /** Before the gate opens a search is only queued: nothing is sent. */
  lemma SearchBeforeBoundQueues(s: SsdpState, device: string, promise: Option<nat>)
    requires !s.bound
    ensures var (t, r) := SearchSpec(s, device, promise);
      && r.Some? && t.queue == s.queue + [QueuedSearch(device, r.value)]
      && t.sent == s.sent && t.listeners == s.listeners
  {
  }

  /** Once the gate is open, a search whose promise has ended returns without sending
      anything; any other search sends the query on every socket, in socket order, and
      registers a listener for its target. Nothing is queued either way. */
  lemma SearchAfterBound(s: SsdpState, device: string, promise: Option<nat>)
    requires s.bound
    ensures var h := if promise.Some? then promise.value else s.nextHandle;
      var (t, r) := SearchSpec(s, device, promise);
      && t.queue == s.queue
      && (h in s.ended ==> r.None? && t.sent == s.sent && t.listeners == s.listeners)
      && (h !in s.ended ==> r == Some(h) && t.sent == s.sent + Broadcast(s.sockets, Query(device))
                            && t.listeners == s.listeners + [Listener(device, h)])
  {
  }

  /** What the replay of a queue sends: one broadcast per queued search whose promise has
      not ended, in queue order. */
  function ReplaySends(sockets: seq<nat>, ended: set<nat>, items: seq<QueuedSearch>): seq<Send>
    decreases |items|
  {
    if items == [] then []
    else (if items[0].handle in ended then [] else Broadcast(sockets, Query(items[0].device)))
         + ReplaySends(sockets, ended, items[1..])
  }

  lemma {:induction false} ReplayEffect(s: SsdpState, items: seq<QueuedSearch>)
    requires s.bound
    ensures var t := Replay(s, items);
      && t.sent == s.sent + ReplaySends(s.sockets, s.ended, items)
      && t.queue == s.queue && t.sockets == s.sockets && t.bound && t.ended == s.ended
      && t.boundCount == s.boundCount && t.closed == s.closed && t.found == s.found
    decreases |items|
  {
    if items != [] {
      var s1 := SearchSpec(s, items[0].device, Some(items[0].handle)).0;
      ReplayEffect(s1, items[1..]);
    }
  }

  /** The ready gate opens exactly when every remaining socket is counted as bound; it then
      re-runs every queued search in order and keeps the queue. */
  lemma ReadyGate(s: SsdpState)
    ensures var t := OnReadySpec(s);
      && (t.bound <==> s.bound || s.boundCount >= |s.sockets|)
      && t.queue == s.queue
      && (s.boundCount >= |s.sockets| ==> t.sent == s.sent + ReplaySends(s.sockets, s.ended, s.queue))
      && (s.boundCount < |s.sockets| ==> t == s)
  {
    if s.boundCount >= |s.sockets| {
      ReplayEffect(s.(bound := true), s.queue);
    }
  }

  /** A bind error closes the failing socket, drops exactly that socket and re-runs the gate,
      which opens when every socket left is counted as bound and then replays the queue.
      (Each socket's error handler names that socket, so `indexOf` finds it; for a socket
      not in the list, `splice(-1, 1)` would drop the last one.) */
  lemma ErrorDropsSocket(s: SsdpState, socket: nat)
    ensures var t := OnErrorSpec(s, socket);
      && t.closed == s.closed + [socket]
      && (socket in s.sockets ==>
            |t.sockets| == |s.sockets| - 1 && multiset(t.sockets) == multiset(s.sockets) - multiset{socket})
      && (socket !in s.sockets && s.sockets != [] ==> t.sockets == s.sockets[..|s.sockets| - 1])
      && (t.bound <==> s.bound || s.boundCount >= |t.sockets|)
      && t.queue == s.queue
      && (!s.bound && s.boundCount >= |t.sockets| ==> t.sent == s.sent + ReplaySends(t.sockets, s.ended, s.queue))
      && (!s.bound && s.boundCount < |t.sockets| ==> t.sent == s.sent)
  {
    var k := IndexOf(s.sockets, socket);
    if k >= 0 {
      assert s.sockets == s.sockets[..k] + [socket] + s.sockets[k + 1..];
    }
    var s1 := s.(closed := s.closed + [socket], sockets := SpliceOne(s.sockets, k));
    if s1.boundCount >= |s1.sockets| {
      ReplayEffect(s1.(bound := true), s1.queue);
    }
  }

  /** Only listeners of the advertised target whose promise is live hear of it; nothing is
      heard after `destroy`. */
  lemma MessageReachesMatchingListeners(s: SsdpState, text: string, address: string)
    ensures var t := OnMessageSpec(s, text, address);
      && t.found[..|s.found|] == s.found
      && (forall i :: |s.found| <= i < |t.found| ==>
            t.found[i].handle !in s.ended && ParseResponse(text).Some?
            && Listener(ParseResponse(text).value["st"], t.found[i].handle) in s.listeners)
      && (s.destroyed || ParseResponse(text).None? ==> t == s)
      && (!s.destroyed && ParseResponse(text).Some? ==>
            forall l :: l in s.listeners && l.handle !in s.ended && l.device == ParseResponse(text).value["st"] ==>
              Found(l.handle, ParseResponse(text).value, address) in t.found)
  {
    var t := OnMessageSpec(s, text, address);
    if !s.destroyed && ParseResponse(text).Some? {
      var d := Deliver(s.listeners, s.ended, ParseResponse(text).value, address);
      assert t.found == s.found + d;
      forall i | |s.found| <= i < |t.found|
        ensures t.found[i].handle !in s.ended
                && Listener(ParseResponse(text).value["st"], t.found[i].handle) in s.listeners
      {
        assert t.found[i] == d[i - |s.found|];
        assert t.found[i] in d;
      }
    }
  }

  // ---------------------------------------------------------------------------
  // The object

  class SsdpTransport {
    var sockets: seq<nat>
    var bound: bool
    var boundCount: nat
    var destroyed: bool
    var queue: seq<QueuedSearch>
    var ended: set<nat>
    var listeners: seq<Listener>
    var nextHandle: nat
    var sent: seq<Send>
    var closed: seq<nat>
    var found: seq<Found>

    function State(): SsdpState
      reads this
    {
      SsdpState(sockets, bound, boundCount, destroyed, queue, ended, listeners, nextHandle, sent, closed, found)
    }

    /** One socket per external interface, numbered in interface order. */
    constructor (interfaces: seq<Interface>)
      ensures State() == SsdpState(Numbered(Count(interfaces)), false, 0, false, [], {}, [], 0, [], [], [])
    {
      bound, boundCount, destroyed := false, 0, false;
      queue, ended, listeners, nextHandle := [], {}, [], 0;
      sent, closed, found := [], [], [];
      var socks: seq<nat> := [];
      var i := 0;
      while i < |interfaces|
        invariant 0 <= i <= |interfaces|
        invariant socks == Numbered(Count(interfaces[..i]))
      {
        assert interfaces[..i + 1] == interfaces[..i] + [interfaces[i]];
        CountSnoc(interfaces[..i], interfaces[i]);
        if !interfaces[i].internal {
          socks := socks + [|socks|];
        }
        i := i + 1;
      }
      assert interfaces[..i] == interfaces;
      sockets := socks;
    }

    method Search(device: string, promise: Option<nat>) returns (r: Option<nat>)
      modifies this
      ensures (State(), r) == SearchSpec(old(State()), device, promise)
    {
      var h: nat;
      if promise.None? {
        h := nextHandle;          // a new EventEmitter
        nextHandle := nextHandle + 1;
      } else {
        h := promise.value;
      }
      if !bound {
        queue := queue + [QueuedSearch(device, h)];
        return Some(h);
      }
      if h in ended {
        return None;
      }
      var sends := SendOnEach(sockets, Query(device));
      sent := sent + sends;
      listeners := listeners + [Listener(device, h)];
      r := Some(h);
    }

    method OnReady()
      modifies this
      ensures State() == OnReadySpec(old(State()))
    {
      if boundCount < |sockets| {
        return;
      }
      bound := true;
      var items := queue;
      var i := 0;
      while i < |items|
        invariant 0 <= i <= |items|
        invariant Replay(State(), items[i..]) == OnReadySpec(old(State()))
      {
        assert items[i..][1..] == items[i + 1..];
        var _ := Search(items[i].device, Some(items[i].handle));
        i := i + 1;
      }
    }

    method OnListening()
      modifies this
      ensures State() == OnListeningSpec(old(State()))
    {
      boundCount := boundCount + 1;
      OnReady();
    }

    method OnError(socket: nat)
      modifies this
      ensures State() == OnErrorSpec(old(State()), socket)
    {
      closed := closed + [socket];
      sockets := SpliceOne(sockets, IndexOf(sockets, socket));
      OnReady();
    }

    method OnMessage(text: string, address: string)
      modifies this`found
      ensures State() == OnMessageSpec(old(State()), text, address)
    {
      if destroyed {
        return;
      }
      var headers := ParseResponse(text);
      if headers.None? {
        return;
      }
      var i := 0;
      var heard := found;
      while i < |listeners|
        invariant 0 <= i <= |listeners| && found == old(found)
        invariant heard + Deliver(listeners[i..], ended, headers.value, address)
                  == found + Deliver(listeners, ended, headers.value, address)
      {
        DeliverUnfold(listeners, i, ended, headers.value, address);
        var l := listeners[i];
        if l.handle !in ended && headers.value["st"] == l.device {
          var f := Found(l.handle, headers.value, address);
          assert heard + ([f] + Deliver(listeners[i + 1..], ended, headers.value, address))
                 == heard + [f] + Deliver(listeners[i + 1..], ended, headers.value, address);
          heard := heard + [f];
        }
        i := i + 1;
      }
      assert listeners[i..] == [];
      found := heard;
    }

    method End(handle: nat)
      requires handle < nextHandle
      modifies this`ended, this`listeners
      ensures State() == EndSpec(old(State()), handle)
    {
      ended := ended + {handle};
      listeners := WithoutHandle(listeners, handle);
    }

    method Destroy()
      modifies this`closed, this`destroyed
      ensures State() == DestroySpec(old(State()))
    {
      var i := 0;
      var shut := closed;
      while i < |sockets|
        invariant 0 <= i <= |sockets|
        invariant shut == closed + sockets[..i]
      {
        assert sockets[..i + 1] == sockets[..i] + [sockets[i]];
        shut := shut + [sockets[i]];
        i := i + 1;
      }
      assert sockets[..i] == sockets;
      closed := shut;
      destroyed := true;
    }
  }

  /** Sends the query once on each socket, in socket order, to the multicast group. */
  method SendOnEach(sockets: seq<nat>, query: string) returns (out: seq<Send>)
    ensures out == Broadcast(sockets, query)
  {
    out := [];
    var i := 0;
    while i < |sockets|
      invariant 0 <= i <= |sockets|
      invariant out == Broadcast(sockets[..i], query)
    {
      BroadcastSnoc(sockets[..i], sockets[i], query);
      assert sockets[..i + 1] == sockets[..i] + [sockets[i]];
      out := out + [Send(sockets[i], query, PORT, MULTICAST)];
      i := i + 1;
    }
    assert sockets[..i] == sockets;
  }

  /** The number of external interfaces. */
  function Count(interfaces: seq<Interface>): nat {
    if interfaces == [] then 0 else (if interfaces[0].internal then 0 else 1) + Count(interfaces[1..])
  }

  lemma {:induction false} CountSnoc(xs: seq<Interface>, x: Interface)
    ensures Count(xs + [x]) == Count(xs) + (if x.internal then 0 else 1)
    decreases |xs|
  {
    if xs == [] {
      assert xs + [x] == [x];
    } else {
      assert (xs + [x])[1..] == xs[1..] + [x];
      CountSnoc(xs[1..], x);
    }
  }

  /** `[0, 1, ..., n - 1]`. */
  function Numbered(n: nat): (r: seq<nat>)
    ensures |r| == n && forall i :: 0 <= i < n ==> r[i] == i
  {
    if n == 0 then [] else Numbered(n - 1) + [n - 1]
  }

  lemma {:induction false} BroadcastSnoc(sockets: seq<nat>, s: nat, query: string)
    ensures Broadcast(sockets + [s], query) == Broadcast(sockets, query) + [Send(s, query, PORT, MULTICAST)]
  {
    var a := Broadcast(sockets + [s], query);
    var b := Broadcast(sockets, query) + [Send(s, query, PORT, MULTICAST)];
    assert |a| == |b|;
    forall i | 0 <= i < |a| ensures a[i] == b[i] {
    }
  }
}
