/** Requests as bytes: how the client library builds them, and how the daemon's server reads any bytes. */
module Wire {
  import opened Wrappers
  import opened Protocol

  // ---------------------------------------------------------------- little-endian words

  function LittleEndian(v: nat, n: nat): (bytes: seq<uint8>)
    ensures |bytes| == n
    decreases n
  {
    if n == 0 then [] else [(v % 256) as uint8] + LittleEndian(v / 256, n - 1)
  }

  function Word(bytes: seq<uint8>): nat {
    if bytes == [] then 0 else bytes[0] as nat + 256 * Word(bytes[1..])
  }

  function Range(n: nat): (r: nat)
    ensures r > 0
  {
    if n == 0 then 1 else 256 * Range(n - 1)
  }

  lemma {:induction false} WordOfLittleEndian(v: nat, n: nat)
    requires v < Range(n)
    ensures Word(LittleEndian(v, n)) == v
    decreases n
  {
    if n > 0 {
      WordOfLittleEndian(v / 256, n - 1);
      assert LittleEndian(v, n)[1..] == LittleEndian(v / 256, n - 1);
    }
  }

  lemma {:induction false} LittleEndianOfWord(bytes: seq<uint8>)
    ensures Word(bytes) < Range(|bytes|)
    ensures LittleEndian(Word(bytes), |bytes|) == bytes
  {
    if bytes != [] {
      LittleEndianOfWord(bytes[1..]);
      assert Word(bytes) / 256 == Word(bytes[1..]);
      assert bytes == [bytes[0]] + bytes[1..];
    }
  }

  lemma RangeValues()
    ensures Range(2) == 0x1_0000 && Range(8) == 0x1_0000_0000_0000_0000
  {
    assert Range(4) == 0x1_0000_0000;
  }

  function Word64(bytes: seq<uint8>): uint64
    requires |bytes| == 8
  {
    LittleEndianOfWord(bytes);
    RangeValues();
    Word(bytes) as uint64
  }

  // ---------------------------------------------------------------- requests

  datatype ReportKind = KeyboardInput | ConsumerInput | VendorKeyboardInput | TopCaseInput | DesktopInput | PointingInput

  datatype Command =
    | Initialize(parameters: Parameters)
    | Terminate(device: Device)
    | Reset(device: Device)
    | InitializePointing
    | Post(kind: ReportKind, report: seq<uint8>)

  /** `sizeof` of the packed report classes. */
  function ReportSize(kind: ReportKind): nat {
    match kind
    case KeyboardInput => 67
    case PointingInput => 8
    case _ => 65
  }

  /** The client library only posts reports of their own class. */
  predicate Sendable(c: Command) {
    c.Post? ==> |c.report| == ReportSize(c.kind)
  }

  function CodeOf(c: Command): uint8 {
    match c
    case Initialize(_) => 0
    case Terminate(Keyboard) => 1
    case Reset(Keyboard) => 2
    case InitializePointing => 3
    case Terminate(Pointing) => 4
    case Reset(Pointing) => 5
    case Post(KeyboardInput, _) => 6
    case Post(ConsumerInput, _) => 7
    case Post(VendorKeyboardInput, _) => 8
    case Post(TopCaseInput, _) => 9
    case Post(DesktopInput, _) => 10
    case Post(PointingInput, _) => 11
  }

  /** `virtual_hid_keyboard_parameters` in memory. */
  function ParameterBytes(p: Parameters): (bytes: seq<uint8>)
    ensures |bytes| == 24
  {
    LittleEndian(p.vendorId as nat, 8) + LittleEndian(p.productId as nat, 8) + LittleEndian(p.countryCode as nat, 8)
  }

  function PayloadOf(c: Command): seq<uint8> {
    match c
    case Initialize(parameters) => ParameterBytes(parameters)
    case Post(_, report) => report
    case _ => []
  }

  function Header(code: uint8): (bytes: seq<uint8>)
    ensures |bytes| == 3
  {
    LittleEndian(EMBEDDED_CLIENT_PROTOCOL_VERSION as nat, 2) + [code]
  }

  /** What `make_request_buffer` builds. */
  function Encode(c: Command): seq<uint8> {
    Header(CodeOf(c)) + PayloadOf(c)
  }

  /** Requests without a payload may carry any further bytes. */
  predicate HasPayload(c: Command) {
    c.Initialize? || c.Post?
  }

  /** `buffer` is a request for `c`: what the client library sends, with anything behind it if `c` has no payload. */
  predicate Requests(buffer: seq<uint8>, c: Command) {
    Sendable(c) && if HasPayload(c) then buffer == Encode(c) else Encode(c) <= buffer
  }

  // ---------------------------------------------------------------- building a request

  class RequestBuffer {
    var data: array<uint8>

    constructor ()
      ensures data[..] == [] && fresh(data)
    {
      data := new uint8[0];
    }

    /** `append_data`: the buffer is resized, and the bytes are copied behind what was there. */
    method AppendData(bytes: seq<uint8>)
      modifies this
      ensures data[..] == old(data[..]) + bytes && fresh(data)
    {
      var size := data.Length;
      var resized := new uint8[size + |bytes|](i requires 0 <= i < size + |bytes| reads this, data =>
        if i < size && size == data.Length then data[i] else 0);
      forall i | 0 <= i < |bytes| {
        resized[size + i] := bytes[i];
      }
      data := resized;
    }
  }

  /** `make_request_buffer` without data. */
  method MakeHeader(code: uint8) returns (buffer: RequestBuffer)
    ensures fresh(buffer) && fresh(buffer.data) && buffer.data[..] == Header(code)
  {
    buffer := new RequestBuffer();
    var version := LittleEndian(EMBEDDED_CLIENT_PROTOCOL_VERSION as nat, 2);
    buffer.AppendData(version);
    buffer.AppendData([code]);
    assert [] + version + [code] == version + [code];
  }

  /** `make_request_buffer`. */
  method MakeRequestBuffer(c: Command) returns (buffer: RequestBuffer)
    ensures fresh(buffer) && fresh(buffer.data) && buffer.data[..] == Encode(c)
  {
    buffer := MakeHeader(CodeOf(c));
    if HasPayload(c) {
      buffer.AppendData(PayloadOf(c));
    } else {
      assert Header(CodeOf(c)) + [] == Header(CodeOf(c));
    }
  }

  // ---------------------------------------------------------------- reading bytes

  /** A buffer and how far it has been read. */
  class RequestReader {
    const buffer: seq<uint8>
    var offset: nat

    constructor (bytes: seq<uint8>)
      ensures buffer == bytes && offset == 0
    {
      buffer, offset := bytes, 0;
    }

    /** `read_data`: the next `n` bytes, if there are so many. */
    method ReadData(n: nat) returns (value: Option<seq<uint8>>)
      modifies this
      ensures value.Some? <==> old(offset) + n <= |buffer|
      ensures value.Some? ==> value.value == buffer[old(offset)..old(offset) + n] && offset == old(offset) + n
      ensures value.None? ==> offset == old(offset)
    {
      if offset > |buffer| || |buffer| - offset < n {
        return None;
      }
      value := Some(buffer[offset..offset + n]);
      offset := offset + n;
    }
  }

  /** How the server answers a request: with nothing, or with the status of the peer's entry. */
  datatype Response = Empty | StatusOfPeer

  function ParametersIn(payload: seq<uint8>): Parameters
    requires |payload| == 24
  {
    Parameters(Word64(payload[..8]), Word64(payload[8..16]), Word64(payload[16..24]))
  }

  /** The report request that a code stands for, if its payload has the right size. */
  function PostFor(kind: ReportKind, payload: seq<uint8>): Option<Command> {
    if |payload| == ReportSize(kind) then Some(Post(kind, payload)) else None
  }

  /** The `switch` on the request code. */
  function CommandFor(code: uint8, payload: seq<uint8>): Option<Command> {
    match code
    case 0 => if |payload| == 24 then Some(Initialize(ParametersIn(payload))) else None
    case 1 => Some(Terminate(Keyboard))
    case 2 => Some(Reset(Keyboard))
    case 3 => Some(Command.InitializePointing)
    case 4 => Some(Terminate(Pointing))
    case 5 => Some(Reset(Pointing))
    case 6 => PostFor(KeyboardInput, payload)
    case 7 => PostFor(ConsumerInput, payload)
    case 8 => PostFor(VendorKeyboardInput, payload)
    case 9 => PostFor(TopCaseInput, payload)
    case 10 => PostFor(DesktopInput, payload)
    case 11 => PostFor(PointingInput, payload)
    case _ => None
  }

  /** What the server makes of any bytes. */
  function Decode(buffer: seq<uint8>): Option<Command> {
    if |buffer| < 3 || Word(buffer[..2]) != EMBEDDED_CLIENT_PROTOCOL_VERSION as nat then None
    else CommandFor(buffer[2], buffer[3..])
  }

  function ResponseTo(action: Option<Command>): Response {
    if action.None? || action.value.Post? then Empty else StatusOfPeer
  }

  // ---------------------------------------------------------------- reading undoes building

  lemma HeaderRead(buffer: seq<uint8>, code: uint8)
    ensures |buffer| >= 3 && Word(buffer[..2]) == EMBEDDED_CLIENT_PROTOCOL_VERSION as nat && buffer[2] == code
       <==> Header(code) <= buffer
  {
    var version := EMBEDDED_CLIENT_PROTOCOL_VERSION as nat;
    RangeValues();
    WordOfLittleEndian(version, 2);
    if |buffer| >= 3 {
      LittleEndianOfWord(buffer[..2]);
      assert buffer[..3] == buffer[..2] + [buffer[2]];
    }
    if Header(code) <= buffer {
      assert buffer[..3] == Header(code);
      assert buffer[..2] == buffer[..3][..2];
    }
  }

  lemma WordParts(a: seq<uint8>, b: seq<uint8>, c: seq<uint8>)
    requires |a| == |b| == |c| == 8
    ensures (a + b + c)[..8] == a && (a + b + c)[8..16] == b && (a + b + c)[16..24] == c
  {
  }

  lemma ParametersRoundTrip(p: Parameters)
    ensures ParametersIn(ParameterBytes(p)) == p
  {
    RangeValues();
    WordOfLittleEndian(p.vendorId as nat, 8);
    WordOfLittleEndian(p.productId as nat, 8);
    WordOfLittleEndian(p.countryCode as nat, 8);
    WordParts(LittleEndian(p.vendorId as nat, 8), LittleEndian(p.productId as nat, 8), LittleEndian(p.countryCode as nat, 8));
  }

  lemma Word64RoundTrip(bytes: seq<uint8>, n: nat)
    requires |bytes| == n == 8
    ensures LittleEndian(Word64(bytes) as nat, n) == bytes
  {
    LittleEndianOfWord(bytes);
  }

  lemma PayloadRoundTrip(payload: seq<uint8>)
    requires |payload| == 24
    ensures ParameterBytes(ParametersIn(payload)) == payload
  {
    var a, b, c := payload[..8], payload[8..16], payload[16..24];
    Word64RoundTrip(a, 8);
    Word64RoundTrip(b, 8);
    Word64RoundTrip(c, 8);
    assert payload == a + b + c;
  }

  lemma ParametersIff(payload: seq<uint8>, p: Parameters)
    requires |payload| == 24
    ensures ParametersIn(payload) == p <==> payload == ParameterBytes(p)
  {
    PayloadRoundTrip(payload);
    ParametersRoundTrip(p);
  }

  lemma CommandForOther(code: uint8, payload: seq<uint8>, c: Command)
    requires !c.Initialize?
    ensures CommandFor(code, payload) == Some(c)
       <==> code == CodeOf(c) && Sendable(c) && (HasPayload(c) ==> payload == PayloadOf(c))
  {
  }

  /** The switch on the code accepts exactly the client's payloads. */
  lemma CommandForIff(code: uint8, payload: seq<uint8>, c: Command)
    ensures CommandFor(code, payload) == Some(c)
       <==> code == CodeOf(c) && Sendable(c) && (HasPayload(c) ==> payload == PayloadOf(c))
  {
    if !c.Initialize? {
      CommandForOther(code, payload, c);
    } else if code == 0 && |payload| == 24 {
      ParametersIff(payload, c.parameters);
    }
  }

  /** Main result: whatever arrives, the server acts on `c` exactly when the bytes are a request for `c`. */
  lemma DecodeIff(buffer: seq<uint8>, c: Command)
    ensures Decode(buffer) == Some(c) <==> Requests(buffer, c)
  {
    HeaderRead(buffer, CodeOf(c));
    if |buffer| >= 3 {
      CommandForIff(buffer[2], buffer[3..], c);
      assert buffer == buffer[..3] + buffer[3..];
      assert Header(CodeOf(c)) <= buffer <==> buffer[..3] == Header(CodeOf(c));
    }
    assert Header(CodeOf(c)) + [] == Header(CodeOf(c));
  }

  /** So what the client library sends is what the server acts on. */
  lemma RoundTrip(c: Command)
    requires Sendable(c)
    ensures Decode(Encode(c)) == Some(c)
  {
    DecodeIff(Encode(c), c);
  }

  // ---------------------------------------------------------------- the server's handler

  /** `request_received`: at most one action, exactly one response, and no byte is read beyond the buffer. */
  method RequestReceived(buffer: seq<uint8>) returns (action: Option<Command>, response: Response)
    ensures action == Decode(buffer)
    ensures response == ResponseTo(Decode(buffer))
  {
    if buffer == [] {
      return None, Empty;
    }
    var reader := new RequestReader(buffer);
    var version := reader.ReadData(2);
    if version.None? {
      return None, Empty;
    }
    var code := reader.ReadData(1);
    if code.None? {
      return None, Empty;
    }
    assert version.value == buffer[..2] && code.value == [buffer[2]];
    if Word(version.value) != EMBEDDED_CLIENT_PROTOCOL_VERSION as nat {
      return None, Empty;
    }
    var payload := buffer[reader.offset..];
    action := CommandFor(code.value[0], payload);
    response := ResponseTo(action);
  }
}
