/** The localhost bridge for browser-sourced USB devices (agent/internal/api/usb_passthrough_browser.go): a preamble
    line, then messages behind a two-byte length, over a byte stream that arrives in any chunks. */
module BridgeFraming {

  import opened Bytes

  const NEWLINE: byte := 10
  const SPACE: byte := 32
  const BUFFER := 256
  const MAX_FRAME := 0xFFFF
  const PAD_FRAME := 12

  // ASCII of the preamble's words
  const CLIPBOARD: bytes := [67, 76, 73, 80, 66, 79, 65, 82, 68]
  const API: bytes := [65, 80, 73]
  const ATTACH: bytes := [65, 84, 84, 65, 67, 72]
  const GAMEPAD: bytes := [71, 65, 77, 69, 80, 65, 68]
  const PEN: bytes := [80, 69, 78]

  /** io.EOF when nothing at all was read, io.ErrUnexpectedEOF when something was. */
  datatype End = Eof | UnexpectedEof

  datatype Taken = Got(value: bytes, rest: bytes) | Ended(why: End)

  // ---------------------------------------------------------------- frames

  /** What io.ReadFull takes from a stream. */
  function TakeFull(s: bytes, n: nat): Taken {
    if |s| >= n then Got(s[..n], s[n..]) else Ended(if s == [] then Eof else UnexpectedEof)
  }

  function ParseFrame(s: bytes): Taken {
    match TakeFull(s, 2)
    case Ended(why) => Ended(why)
    case Got(head, rest) => TakeFull(rest, head[0] as int * 256 + head[1] as int)
  }

  function Frame(data: bytes): (f: bytes)
    requires |data| <= MAX_FRAME
    ensures |f| == 2 + |data|
  {
    [|data| / 256, |data| % 256] + data
  }

  predicate Sendable(payloads: seq<bytes>) {
    forall p | p in payloads :: |p| <= MAX_FRAME
  }

  function Encode(payloads: seq<bytes>): bytes
    requires Sendable(payloads)
  {
    if payloads == [] then [] else Frame(payloads[0]) + Encode(payloads[1..])
  }

  lemma FrameShrinks(s: bytes)
    ensures ParseFrame(s).Got? ==> |ParseFrame(s).rest| < |s|
  {
  }

  /** All the messages of a stream, and how it ends. */
  function ReadAll(s: bytes): (r: (seq<bytes>, End))
    decreases |s|
  {
    FrameShrinks(s);
    match ParseFrame(s)
    case Ended(why) => ([], why)
    case Got(p, rest) => ([p] + ReadAll(rest).0, ReadAll(rest).1)
  }

  lemma ParseOfFrame(p: bytes, tail: bytes)
    requires |p| <= MAX_FRAME
    ensures ParseFrame(Frame(p) + tail) == Got(p, tail)
  {
    var s := Frame(p) + tail;
    assert s[..2] == [|p| / 256, |p| % 256];
    assert s[2..] == p + tail;
    assert (p + tail)[..|p|] == p && (p + tail)[|p|..] == tail;
  }

  /** A frame is the only stream that reads as its payload. */
  lemma FrameOfParse(s: bytes)
    requires ParseFrame(s).Got?
    ensures var t := ParseFrame(s); |t.value| <= MAX_FRAME && s == Frame(t.value) + t.rest
  {
    var t := ParseFrame(s);
    var n := s[0] as int * 256 + s[1] as int;
    assert |t.value| == n && t.value == s[2..][..n] && t.rest == s[2..][n..];
    assert n / 256 == s[0] && n % 256 == s[1];
    assert s == [s[0], s[1]] + s[2..];
  }

  lemma ReadAllOfFrame(p: bytes, rest: bytes)
    requires |p| <= MAX_FRAME
    ensures ReadAll(Frame(p) + rest) == ([p] + ReadAll(rest).0, ReadAll(rest).1)
  {
    ParseOfFrame(p, rest);
  }

  lemma {:induction false} ReadAllOfEncode(payloads: seq<bytes>, tail: bytes)
    requires Sendable(payloads)
    ensures ReadAll(Encode(payloads) + tail) == (payloads + ReadAll(tail).0, ReadAll(tail).1)
  {
    if payloads == [] {
      assert Encode(payloads) + tail == tail;
      assert payloads + ReadAll(tail).0 == ReadAll(tail).0;
    } else {
      FirstIsRead(payloads, tail);
      ReadAllOfEncode(payloads[1..], tail);
      ConsAppend(payloads, ReadAll(tail).0);
    }
  }

  lemma FirstIsRead(payloads: seq<bytes>, tail: bytes)
    requires payloads != [] && Sendable(payloads)
    ensures var later := ReadAll(Encode(payloads[1..]) + tail);
            ReadAll(Encode(payloads) + tail) == ([payloads[0]] + later.0, later.1)
  {
    SumsAgree(Frame(payloads[0]), Encode(payloads[1..]), tail);
    ReadAllOfFrame(payloads[0], Encode(payloads[1..]) + tail);
  }

  lemma ConsAppend<T>(s: seq<T>, t: seq<T>)
    requires s != []
    ensures [s[0]] + (s[1..] + t) == s + t
  {
  }

  lemma ReadAllOfNothing()
    ensures ReadAll([]) == ([], Eof)
  {
    assert ParseFrame([]) == Ended(Eof);
  }

  /** The messages read are the messages sent. */
  lemma FramesRoundTrip(payloads: seq<bytes>)
    requires Sendable(payloads)
    ensures ReadAll(Encode(payloads)) == (payloads, Eof)
  {
    ReadAllOfEncode(payloads, []);
    ReadAllOfNothing();
    assert Encode(payloads) + [] == Encode(payloads) && payloads + [] == payloads;
  }

  /** A stream reads as these messages exactly when it is their encoding and less than a frame more. */
  lemma {:induction false} ReadAllIsExact(s: bytes) returns (tail: bytes)
    ensures Exactly(s, ReadAll(s), tail)
    decreases |s|
  {
    var t := ParseFrame(s);
    if t.Ended? {
      tail := s;
    } else {
      FrameShrinks(s);
      FrameOfParse(s);
      tail := ReadAllIsExact(t.rest);
      ExactlyMore(t.value, t.rest, ReadAll(t.rest), tail);
    }
  }

  ghost predicate Exactly(s: bytes, r: (seq<bytes>, End), tail: bytes) {
    Sendable(r.0) && s == Encode(r.0) + tail && ParseFrame(tail) == Ended(r.1)
  }

  lemma EncodeMore(p: bytes, payloads: seq<bytes>)
    requires |p| <= MAX_FRAME && Sendable(payloads)
    ensures Sendable([p] + payloads) && Encode([p] + payloads) == Frame(p) + Encode(payloads)
  {
    assert ([p] + payloads)[1..] == payloads;
  }

  lemma ExactlyMore(p: bytes, rest: bytes, r: (seq<bytes>, End), tail: bytes)
    requires |p| <= MAX_FRAME && Exactly(rest, r, tail)
    ensures Exactly(Frame(p) + rest, ([p] + r.0, r.1), tail)
  {
    EncodeMore(p, r.0);
  }

  // ---------------------------------------------------------------- a stream cut short

  lemma CutFrame(p: bytes, k: nat)
    requires |p| <= MAX_FRAME && k < |Frame(p)|
    ensures ParseFrame(Frame(p)[..k]) == Ended(if k == 0 || k == 2 then Eof else UnexpectedEof)
  {
    var s := Frame(p)[..k];
    if k >= 2 {
      assert s[..2] == [|p| / 256, |p| % 256];
      assert |s[2..]| == k - 2;
    }
  }

  lemma {:induction false} EncodeOfSum(some: seq<bytes>, more: seq<bytes>)
    requires Sendable(some) && Sendable(more)
    ensures Sendable(some + more) && Encode(some + more) == Encode(some) + Encode(more)
  {
    if some == [] {
      assert some + more == more;
    } else {
      var first, rest := some[0], some[1..];
      EncodeOfSum(rest, more);
      EncodeMore(first, rest + more);
      EncodeMore(first, rest);
      assert [first] + rest == some;
      assert [first] + (rest + more) == some + more;
      SumsAgree(Frame(first), Encode(rest), Encode(more));
    }
  }

  lemma SumsAgree(f: bytes, a: bytes, b: bytes)
    ensures f + (a + b) == (f + a) + b
  {
  }

  lemma EncodeCutAt(payloads: seq<bytes>, j: nat, k: nat)
    requires Sendable(payloads) && j < |payloads|
    requires k <= |Frame(payloads[j])|
    ensures |Encode(payloads[..j])| + k <= |Encode(payloads)|
    ensures Encode(payloads)[..|Encode(payloads[..j])| + k] == Encode(payloads[..j]) + Frame(payloads[j])[..k]
  {
    var before, later := payloads[..j], payloads[j + 1..];
    assert payloads == before + ([payloads[j]] + later);
    EncodeMore(payloads[j], later);
    EncodeOfSum(before, [payloads[j]] + later);
    var a, f, l := Encode(before), Frame(payloads[j]), Encode(later);
    assert (a + (f + l))[..|a| + k] == a + f[..k];
  }

  /** Cut inside message `j`, the stream gives the messages before it and then an error: io.EOF when the cut is at
      a boundary, and also right behind the length of a message, else io.ErrUnexpectedEOF. */
  lemma TruncatedStream(payloads: seq<bytes>, j: nat, k: nat)
    requires Sendable(payloads) && j < |payloads|
    requires k < |Frame(payloads[j])|
    ensures |Encode(payloads[..j])| + k <= |Encode(payloads)|
    ensures ReadAll(Encode(payloads)[..|Encode(payloads[..j])| + k])
         == (payloads[..j], if k == 0 || k == 2 then Eof else UnexpectedEof)
  {
    EncodeCutAt(payloads, j, k);
    ReadAllOfEncode(payloads[..j], Frame(payloads[j])[..k]);
    CutFrame(payloads[j], k);
    assert payloads[..j] + [] == payloads[..j];
  }

  /** Every cut is inside some message. */
  lemma {:induction false} CutIsInSomeFrame(payloads: seq<bytes>, n: nat) returns (j: nat, k: nat)
    requires Sendable(payloads) && n < |Encode(payloads)|
    ensures j < |payloads| && k < |Frame(payloads[j])| && n == |Encode(payloads[..j])| + k
  {
    var first := |Frame(payloads[0])|;
    if n < first {
      j, k := 0, n;
    } else {
      j, k := CutIsInSomeFrame(payloads[1..], n - first);
      assert payloads[..j + 1][1..] == payloads[1..][..j];
      j := j + 1;
    }
  }

  /** Whatever the cut, what is read is a proper prefix of what was sent. */
  lemma TruncationLosesNoOrder(payloads: seq<bytes>, n: nat)
    requires Sendable(payloads) && n < |Encode(payloads)|
    ensures ReadAll(Encode(payloads)[..n]).0 < payloads
  {
    var j, k := CutIsInSomeFrame(payloads, n);
    TruncatedStream(payloads, j, k);
  }

  // ---------------------------------------------------------------- the preamble

  datatype Preamble =
    | NoLine
    | Clipboard
    | Api
    | Malformed
    | Unknown(verb: bytes)
    | Attach
    | Gamepad(bus: bytes)
    | Pen(bus: bytes)

  /** Where a byte first is; the length when it is nowhere. */
  function IndexOf(s: bytes, b: byte): (i: nat)
    ensures i <= |s| && b !in s[..i] && (i < |s| ==> s[i] == b)
  {
    if s == [] then 0
    else if s[0] == b then 0
    else
      var i := IndexOf(s[1..], b);
      assert s[..i + 1] == [s[0]] + s[1..][..i];
      i + 1
  }

  lemma NotFound(s: bytes, b: byte)
    requires b !in s
    ensures IndexOf(s, b) == |s|
  {
    assert forall k | 0 <= k < |s| :: s[k] in s;
  }

  lemma IndexIs(s: bytes, b: byte, i: nat)
    requires i < |s| && s[i] == b && b !in s[..i]
    ensures IndexOf(s, b) == i
  {
    var j := IndexOf(s, b);
    assert forall k | 0 <= k < i :: s[k] == s[..i][k];
    assert forall k | 0 <= k < j :: s[k] == s[..j][k];
  }

  /** What the line, without its newline, asks for. */
  function ParseLine(line: bytes): Preamble {
    if line == CLIPBOARD then Clipboard
    else if line == API then Api
    else
      var i := IndexOf(line, SPACE);
      if i + 1 >= |line| then Malformed
      else
        var verb, bus := line[..i], line[i + 1..];
        if verb == ATTACH then Attach
        else if verb == GAMEPAD then Gamepad(bus)
        else if verb == PEN then Pen(bus)
        else Unknown(verb)
  }

  /** The preamble and the stream behind it. */
  function ParsePreamble(s: bytes): (Preamble, bytes) {
    var i := IndexOf(s, NEWLINE);
    if i == |s| then (NoLine, []) else (ParseLine(s[..i]), s[i + 1..])
  }

  /** The line a client sends for a bus. */
  function Line(verb: bytes, bus: bytes): bytes { verb + [SPACE] + bus + [NEWLINE] }

  lemma ParseOfLine(verb: bytes, bus: bytes)
    requires SPACE !in verb && bus != []
    ensures ParseLine(verb + [SPACE] + bus) == if verb == ATTACH then Attach else if verb == GAMEPAD then Gamepad(bus)
                                               else if verb == PEN then Pen(bus) else Unknown(verb)
  {
    var line := verb + [SPACE] + bus;
    var i := |verb|;
    assert line[i] == SPACE && line[..i] == verb && line[i + 1..] == bus;
    IndexIs(line, SPACE, i);
    assert SPACE in line;
    assert SPACE !in CLIPBOARD && SPACE !in API;
  }

  /** The other lines: `API` alone, `ATTACH` with a bus; a verb without a bus is malformed, and any other is unknown. */
  lemma OtherLines(verb: bytes, bus: bytes)
    requires SPACE !in verb
    ensures ParseLine([65, 80, 73]) == Api
    ensures bus != [] ==> ParseLine([65, 84, 84, 65, 67, 72] + [SPACE] + bus) == Attach
    ensures verb != [65, 80, 73] && verb != CLIPBOARD ==> ParseLine(verb) == Malformed && ParseLine(verb + [SPACE]) == Malformed
    ensures verb !in {ATTACH, GAMEPAD, PEN} && bus != [] ==> ParseLine(verb + [SPACE] + bus) == Unknown(verb)
  {
    assert SPACE !in ATTACH;
    if bus != [] {
      ParseOfLine(ATTACH, bus);
      ParseOfLine(verb, bus);
    }
    NotFound(verb, SPACE);
    assert (verb + [SPACE])[..|verb|] == verb;
    IndexIs(verb + [SPACE], SPACE, |verb|);
  }

  lemma LineEnds(line: bytes, rest: bytes)
    requires NEWLINE !in line
    ensures ParsePreamble(line + [NEWLINE] + rest) == (ParseLine(line), rest)
  {
    var s := line + [NEWLINE] + rest;
    assert s[..|line|] == line && s[|line|] == NEWLINE && s[|line| + 1..] == rest;
    IndexIs(s, NEWLINE, |line|);
  }

  lemma GamepadLineParses(bus: bytes, rest: bytes)
    requires bus != [] && NEWLINE !in bus
    ensures ParsePreamble(Line(GAMEPAD, bus) + rest) == (Gamepad(bus), rest)
  {
    var line := GAMEPAD + [SPACE] + bus;
    assert Line(GAMEPAD, bus) + rest == line + [NEWLINE] + rest;
    LineEnds(line, rest);
    ParseOfLine(GAMEPAD, bus);
  }

  /** A gamepad connection: preamble and messages come back as they were sent. */
  lemma GamepadRoundTrip(bus: bytes, payloads: seq<bytes>)
    requires bus != [] && NEWLINE !in bus && Sendable(payloads)
    ensures var r := ParsePreamble(Line(GAMEPAD, bus) + Encode(payloads));
            r.0 == Gamepad(bus) && ReadAll(r.1) == (payloads, Eof)
  {
    GamepadLineParses(bus, Encode(payloads));
    FramesRoundTrip(payloads);
  }

  lemma PenRoundTrip(bus: bytes, payloads: seq<bytes>)
    requires bus != [] && NEWLINE !in bus && Sendable(payloads)
    ensures var r := ParsePreamble(Line(PEN, bus) + Encode(payloads));
            r.0 == Pen(bus) && ReadAll(r.1) == (payloads, Eof)
  {
    var line := PEN + [SPACE] + bus;
    assert Line(PEN, bus) + Encode(payloads) == line + [NEWLINE] + Encode(payloads);
    LineEnds(line, Encode(payloads));
    ParseOfLine(PEN, bus);
    FramesRoundTrip(payloads);
  }

  lemma ClipboardRoundTrip(payloads: seq<bytes>)
    requires Sendable(payloads)
    ensures var r := ParsePreamble(CLIPBOARD + [NEWLINE] + Encode(payloads));
            r.0 == Clipboard && ReadAll(r.1) == (payloads, Eof)
  {
    LineEnds(CLIPBOARD, Encode(payloads));
    FramesRoundTrip(payloads);
  }

  lemma OnlyGamepadLinesParse(line: bytes, bus: bytes)
    requires ParseLine(line) == Gamepad(bus)
    ensures bus != [] && line == GAMEPAD + [SPACE] + bus
  {
    var i := IndexOf(line, SPACE);
    assert line == line[..i] + [line[i]] + line[i + 1..];
  }

  lemma OnlyGamepadStreamsParse(s: bytes, bus: bytes, rest: bytes)
    requires ParsePreamble(s) == (Gamepad(bus), rest)
    ensures bus != [] && NEWLINE !in bus && s == Line(GAMEPAD, bus) + rest
  {
    var n := IndexOf(s, NEWLINE);
    OnlyGamepadLinesParse(s[..n], bus);
    assert forall b | b in bus :: b in s[..n];
    assert s == s[..n] + [NEWLINE] + rest;
  }

  /** A stream is taken for a gamepad's exactly when it starts with the line for its bus. */
  lemma GamepadPreambleIsExact(s: bytes, bus: bytes, rest: bytes)
    ensures ParsePreamble(s) == (Gamepad(bus), rest)
       <==> bus != [] && NEWLINE !in bus && s == Line(GAMEPAD, bus) + rest
  {
    if ParsePreamble(s) == (Gamepad(bus), rest) { OnlyGamepadStreamsParse(s, bus, rest); }
    if bus != [] && NEWLINE !in bus { GamepadLineParses(bus, rest); }
  }

  // ---------------------------------------------------------------- gamepad states

  /** One sample: unsigned 16-bit buttons, two 8-bit triggers, four signed 16-bit axes. */
  datatype PadState = PadState(buttons: int, lt: byte, rt: byte, lx: int, ly: int, rx: int, ry: int)

  predicate U16(v: int) { 0 <= v < 0x10000 }
  predicate S16(v: int) { -0x8000 <= v < 0x8000 }

  predicate InRange(p: PadState) {
    U16(p.buttons) && S16(p.lx) && S16(p.ly) && S16(p.rx) && S16(p.ry)
  }

  function Int16(v: int): (r: int)
    requires U16(v)
    ensures S16(r) && (r - v) % 0x10000 == 0
  {
    if v >= 0x8000 then v - 0x10000 else v
  }

  function Decode(b: bytes): (p: PadState)
    requires |b| == PAD_FRAME
    ensures InRange(p)
  {
    PadState(ReadLe16(b, 0), b[2], b[3], Int16(ReadLe16(b, 4)), Int16(ReadLe16(b, 6)), Int16(ReadLe16(b, 8)), Int16(ReadLe16(b, 10)))
  }

  /** Little-endian two's complement. */
  function Signed16(v: int): bytes
    requires S16(v)
  {
    Le16(v % 0x10000)
  }

  function EncodePad(p: PadState): (b: bytes)
    requires InRange(p)
    ensures |b| == PAD_FRAME
  {
    Le16(p.buttons) + [p.lt, p.rt] + Signed16(p.lx) + Signed16(p.ly) + Signed16(p.rx) + Signed16(p.ry)
  }

  lemma SignedSurvives(b: bytes, at: nat, v: int)
    requires at + 2 <= |b| && S16(v) && b[at..at + 2] == Signed16(v)
    ensures Int16(ReadLe16(b, at)) == v
  {
    assert b[at] == b[at..at + 2][0] && b[at + 1] == b[at..at + 2][1];
  }

  /** Decoding inverts the encoding. */
  lemma PadRoundTrip(p: PadState)
    requires InRange(p)
    ensures Decode(EncodePad(p)) == p
  {
    var b := EncodePad(p);
    assert b[4..6] == Signed16(p.lx) && b[6..8] == Signed16(p.ly) && b[8..10] == Signed16(p.rx) && b[10..12] == Signed16(p.ry);
    SignedSurvives(b, 4, p.lx);
    SignedSurvives(b, 6, p.ly);
    SignedSurvives(b, 8, p.rx);
    SignedSurvives(b, 10, p.ry);
  }

  lemma SignedBack(b: bytes, at: nat)
    requires at + 2 <= |b|
    ensures Signed16(Int16(ReadLe16(b, at))) == b[at..at + 2]
  {
    assert b[at..at + 2] == [b[at], b[at + 1]];
  }

  /** And each frame is the encoding of what it decodes to. */
  lemma EveryPadFrameIsAnEncoding(b: bytes)
    requires |b| == PAD_FRAME
    ensures EncodePad(Decode(b)) == b
  {
    SignedBack(b, 4);
    SignedBack(b, 6);
    SignedBack(b, 8);
    SignedBack(b, 10);
    assert Le16(ReadLe16(b, 0)) == [b[0], b[1]];
    assert b == [b[0], b[1]] + [b[2], b[3]] + b[4..6] + b[6..8] + b[8..10] + b[10..12];
  }

  /** The states set by a list of messages: one of another length is passed over. */
  function States(payloads: seq<bytes>): seq<PadState> {
    if payloads == [] then []
    else (if |payloads[0]| == PAD_FRAME then [Decode(payloads[0])] else []) + States(payloads[1..])
  }

  function Samples(states: seq<PadState>): (payloads: seq<bytes>)
    requires forall p | p in states :: InRange(p)
    ensures Sendable(payloads)
  {
    if states == [] then [] else [EncodePad(states[0])] + Samples(states[1..])
  }

  /** The samples sent are the states set, in order. */
  lemma {:induction false} SamplesRoundTrip(states: seq<PadState>)
    requires forall p | p in states :: InRange(p)
    ensures States(Samples(states)) == states
  {
    if states != [] {
      PadRoundTrip(states[0]);
      assert Samples(states)[1..] == Samples(states[1..]);
      SamplesRoundTrip(states[1..]);
    }
  }

  // ---------------------------------------------------------------- the reader

  function Flat(chunks: seq<bytes>): bytes {
    if chunks == [] then [] else chunks[0] + Flat(chunks[1..])
  }

  datatype FrameResult = Message(data: bytes) | Closed(why: End)

  /** A bridge connection with its bufio reader: bytes read ahead, and chunks that the network has yet to give. */
  class BridgeReader {
    var buffered: bytes
    var chunks: seq<bytes>

    ghost predicate Valid()
      reads this
    {
      |buffered| <= BUFFER && forall c | c in chunks :: c != []
    }

    ghost function Unread(): bytes
      reads this
    {
      buffered + Flat(chunks)
    }

    /** net.Conn.Read: at least a byte and at most `n`; nothing only at the end. */
    method ConnRead(n: nat) returns (p: bytes)
      requires Valid() && n > 0
      modifies this`chunks
      ensures Valid() && |p| <= n
      ensures p + Flat(chunks) == old(Flat(chunks))
      ensures p == [] ==> old(Flat(chunks)) == []
    {
      if chunks == [] { return []; }
      assert Flat(chunks) == chunks[0] + Flat(chunks[1..]);
      assert chunks[0] in chunks;
      if |chunks[0]| <= n {
        p := chunks[0];
        assert forall c | c in chunks[1..] :: c in chunks;
        chunks := chunks[1..];
      } else {
        p := chunks[0][..n];
        assert chunks[0] == p + chunks[0][n..];
        var left := [chunks[0][n..]] + chunks[1..];
        assert left[1..] == chunks[1..];
        assert forall c | c in left :: c == chunks[0][n..] || c in chunks;
        chunks := left;
      }
    }

    /** bufio.Reader.Read: one read at most, past the buffer when the caller's is as large. */
    method Read(n: nat) returns (p: bytes)
      requires Valid() && n > 0
      modifies this
      ensures Valid() && |p| <= n
      ensures p + Unread() == old(Unread())
      ensures p == [] ==> old(Unread()) == []
    {
      if buffered == [] {
        if n >= BUFFER {
          p := ConnRead(n);
          return;
        }
        buffered := ConnRead(BUFFER);
      }
      var k := if |buffered| < n then |buffered| else n;
      p := buffered[..k];
      assert buffered == p + buffered[k..];
      buffered := buffered[k..];
    }

    /** io.ReadFull. */
    method ReadFull(n: nat) returns (r: FrameResult)
      requires Valid()
      modifies this
      ensures Valid()
      ensures match TakeFull(old(Unread()), n)
              case Got(value, rest) => r == Message(value) && Unread() == rest
              case Ended(why) => r == Closed(why)
    {
      var got: bytes := [];
      while |got| < n
        invariant Valid() && |got| <= n
        invariant got + Unread() == old(Unread())
        decreases n - |got|
      {
        var p := Read(n - |got|);
        if p == [] {
          return Closed(if got == [] then Eof else UnexpectedEof);
        }
        got := got + p;
      }
      return Message(got);
    }

    /** readUSBPassBridgeFrame: what the stream gives, however it is chunked. */
    method ReadFrame() returns (r: FrameResult)
      requires Valid()
      modifies this
      ensures Valid()
      ensures match ParseFrame(old(Unread()))
              case Got(value, rest) => r == Message(value) && Unread() == rest
              case Ended(why) => r == Closed(why)
    {
      var head := ReadFull(2);
      if head.Closed? { return head; }
      r := ReadFull(head.data[0] as int * 256 + head.data[1] as int);
    }

    /** bufio.Reader.ReadSlice without a newline in the buffer: a full one is handed out, another filled up. */
    method More() returns (eof: bool, out: bytes)
      requires Valid() && NEWLINE !in buffered
      modifies this
      ensures Valid() && NEWLINE !in out
      ensures out + Unread() == old(Unread())
      ensures eof ==> out == [] && Unread() == buffered && NEWLINE !in buffered
      ensures eof || |Flat(chunks)| < old(|Flat(chunks)|)
              || (|Flat(chunks)| == old(|Flat(chunks)|) && |buffered| < old(|buffered|))
    {
      if |buffered| >= BUFFER {
        out := buffered;
        buffered := [];
        return false, out;
      }
      var p := ConnRead(BUFFER - |buffered|);
      buffered := buffered + p;
      return p == [], [];
    }

    /** The buffer up to `i`, and the newline there dropped. */
    method Take(i: nat) returns (out: bytes)
      requires Valid() && i < |buffered| && i == IndexOf(buffered, NEWLINE)
      modifies this`buffered
      ensures Valid() && NEWLINE !in out && out + [NEWLINE] + Unread() == old(Unread())
    {
      out := buffered[..i];
      assert buffered == out + [NEWLINE] + buffered[i + 1..];
      buffered := buffered[i + 1..];
    }

    /** bufio.Reader.ReadString('\n'), without the newline. */
    method ReadLine() returns (ok: bool, line: bytes)
      requires Valid()
      modifies this
      ensures Valid()
      ensures var s := old(Unread()); var i := IndexOf(s, NEWLINE);
              ok == (i < |s|) && (ok ==> line == s[..i] && Unread() == s[i + 1..])
    {
      ghost var s := Unread();
      line := [];
      while NEWLINE !in buffered
        invariant Valid() && NEWLINE !in line
        invariant line + Unread() == s
        decreases |Flat(chunks)|, |buffered|
      {
        var eof, out := More();
        if eof {
          assert NEWLINE !in s;
          return false, [];
        }
        line := line + out;
      }
      ok := true;
      var last := Take(IndexOf(buffered, NEWLINE));
      line := line + last;
      FirstNewline(s, line, Unread());
    }

    /** handleUSBPassBridgeConn, up to handing the connection on. */
    method ReadPreamble() returns (preamble: Preamble)
      requires Valid()
      modifies this
      ensures Valid()
      ensures var r := ParsePreamble(old(Unread())); preamble == r.0 && (preamble.NoLine? || Unread() == r.1)
    {
      var ok, line := ReadLine();
      if !ok { return NoLine; }
      preamble := ParseLine(line);
    }

    /** usbPassBridgeGamepad's loop: the states it sets. */
    method ServeGamepad() returns (states: seq<PadState>)
      requires Valid()
      modifies this
      ensures states == States(ReadAll(old(Unread())).0)
    {
      states := [];
      ghost var seen: seq<bytes> := [];
      while true
        invariant Valid()
        invariant ReadAll(old(Unread())).0 == seen + ReadAll(Unread()).0
        invariant states == States(seen)
        decreases |Unread()|
      {
        FrameShrinks(Unread());
        var r := ReadFrame();
        if r.Closed? {
          assert seen + [] == seen;
          return;
        }
        StatesGrow(seen, r.data);
        assert forall more: seq<bytes> :: seen + ([r.data] + more) == seen + [r.data] + more;
        seen := seen + [r.data];
        if |r.data| != PAD_FRAME { continue; }
        states := states + [Decode(r.data)];
      }
    }
  }

  lemma FirstNewline(s: bytes, line: bytes, rest: bytes)
    requires NEWLINE !in line && s == line + [NEWLINE] + rest
    ensures IndexOf(s, NEWLINE) == |line| && s[..|line|] == line && s[|line| + 1..] == rest
  {
    assert s[..|line|] == line && s[|line|] == NEWLINE;
    IndexIs(s, NEWLINE, |line|);
  }

  lemma {:induction false} StatesGrow(seen: seq<bytes>, p: bytes)
    ensures States(seen + [p]) == States(seen) + if |p| == PAD_FRAME then [Decode(p)] else []
  {
    if seen == [] {
    } else {
      StatesGrow(seen[1..], p);
      assert (seen + [p])[1..] == seen[1..] + [p];
    }
  }

  // ---------------------------------------------------------------- the writer

  datatype WriteResult = Written | TooLarge | Broken

  /** The sending side; the connection breaks once it has taken `room` bytes more. */
  class BridgeWriter {
    var sent: bytes
    var room: nat

    /** net.Conn.Write. */
    method ConnWrite(p: bytes) returns (ok: bool)
      modifies this
      ensures ok == (|p| <= old(room))
      ensures var k := if |p| <= old(room) then |p| else old(room);
              sent == old(sent) + p[..k] && room == old(room) - k
    {
      var k := if |p| <= room then |p| else room;
      sent, room, ok := sent + p[..k], room - k, |p| <= room;
    }

    /** writeUSBPassBridgeFrame: a payload too large sends nothing, one that fits its frame, or on a broken
        connection as much of the frame as went out. */
    method WriteFrame(data: bytes) returns (r: WriteResult)
      modifies this
      ensures r.TooLarge? <==> |data| > MAX_FRAME
      ensures r.TooLarge? ==> sent == old(sent) && room == old(room)
      ensures r.Written? <==> |data| + 2 <= old(room) && |data| <= MAX_FRAME
      ensures r.Written? ==> sent == old(sent) + Frame(data)
      ensures r.Broken? ==> sent == old(sent) + Frame(data)[..old(room)]
    {
      if |data| > MAX_FRAME { return TooLarge; }
      var head: bytes := [|data| / 256, |data| % 256];
      assert Frame(data) == head + data;
      var ok := ConnWrite(head);
      if !ok {
        assert Frame(data)[..old(room)] == head[..old(room)];
        return Broken;
      }
      assert head[..2] == head && data[..|data|] == data;
      ok := ConnWrite(data);
      r := if ok then Written else Broken;
      assert !ok ==> Frame(data)[..old(room)] == head + data[..old(room) - 2];
    }
  }
}
