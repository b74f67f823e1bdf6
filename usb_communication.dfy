/**
 * The host side of the EOM driver's UART protocol: the checksum, the frame
 * each command builds, the byte-by-byte transmission of a frame and the
 * classification of the FPGA's one-byte reply.
 *
 * The serial port is an explicit `SerialPort` object instead of a global: the
 * bytes written to it are a sink sequence, and the bytes the FPGA has sent and
 * the host has not yet read are an inbox sequence.
 */
module UsbCommunication {
  import opened Wrappers
  import opened Commands

  // ---------------------------------------------------------------------------
  // Checksum
  // ---------------------------------------------------------------------------

  /** The sum of a list of integers, added from left to right. */
  function Sum(s: seq<int>): int
  {
    if s == [] then 0 else Sum(s[..|s| - 1]) + s[|s| - 1]
  }

  /** The checksum of a list: its sum reduced mod 256, always one byte. */
  function Checksum(s: seq<int>): (c: int)
    ensures 0 <= c < 256
  {
    Sum(s) % 256
  }

  /** calc_checksum: accumulate the elements, then reduce mod 256. */
  method CalcChecksum(s: seq<int>) returns (c: int)
    ensures c == Checksum(s)
  {
    var sum := 0;
    for i := 0 to |s|
      invariant sum == Sum(s[..i])
    {
      assert s[..i + 1][..i] == s[..i];
      sum := sum + s[i];
    }
    assert s[..|s|] == s;
    c := sum % 256;
  }

  /** The sum of a concatenation is the sum of the parts. */
  lemma {:induction false} SumConcat(a: seq<int>, b: seq<int>)
    ensures Sum(a + b) == Sum(a) + Sum(b)
    decreases |b|
  {
    if b == [] {
      assert a + b == a;
    } else {
      var b' := b[..|b| - 1];
      assert (a + b)[..|a + b| - 1] == a + b';
      SumConcat(a, b');
    }
  }

  /** The sum depends only on the multiset of elements. */
  lemma {:induction false} SumPermutation(s: seq<int>, t: seq<int>)
    requires multiset(s) == multiset(t)
    ensures Sum(s) == Sum(t)
    decreases |s|
  {
    if s == [] {
      assert |t| == |multiset(t)| == 0;
    } else {
      var x := s[|s| - 1];
      var s' := s[..|s| - 1];
      assert s == s' + [x];
      assert x in multiset(t);
      var j :| 0 <= j < |t| && t[j] == x;
      var t' := t[..j] + t[j + 1..];
      assert t == t[..j] + [x] + t[j + 1..];
      assert multiset(t) == multiset(t[..j]) + multiset{x} + multiset(t[j + 1..]);
      assert multiset(t') == multiset(t[..j]) + multiset(t[j + 1..]);
      assert multiset(s) == multiset(s') + multiset{x};
      assert multiset(s') == multiset(s) - multiset{x};
      assert multiset(t') == multiset(t) - multiset{x};
      SumPermutation(s', t');
      SumConcat(t[..j], [x]);
      SumConcat(t[..j] + [x], t[j + 1..]);
      SumConcat(t[..j], t[j + 1..]);
    }
  }

  /** Reordering the bytes of a body does not change its checksum. */
  lemma ChecksumPermutation(s: seq<int>, t: seq<int>)
    requires multiset(s) == multiset(t)
    ensures Checksum(s) == Checksum(t)
  {
    SumPermutation(s, t);
  }

  // ---------------------------------------------------------------------------
  // Frames
  // ---------------------------------------------------------------------------

  /** The seven bytes ahead of the checksum: start byte, opcode, five parameter slots. */
  function Body(op: Opcode, params: seq<int>): seq<int>
    requires |params| == 5
  {
    [START_BYTE, Code(op)] + params
  }

  /** The wire layout of a frame for `op`: eight bytes, the start byte, the
      opcode, five parameter slots and the checksum of the first seven. */
  predicate IsFrameOf(f: seq<int>, op: Opcode)
  {
    |f| == 8 && f[0] == START_BYTE && f[1] == Code(op) && f[7] == Checksum(f[..7])
  }

  /** A body with its checksum appended. */
  function Frame(op: Opcode, params: seq<int>): (f: seq<int>)
    requires |params| == 5
    ensures IsFrameOf(f, op) && f[2..7] == params
  {
    var body := Body(op, params);
    assert (body + [Checksum(body)])[..7] == body;
    body + [Checksum(body)]
  }

  /** The fields a frame carries, as a receiver reads them back. */
  datatype Fields = Fields(op: Opcode, params: seq<int>)

  /** Reads a frame back: it must be eight bytes long, start with the start
      byte, carry a known opcode and end with the checksum of the rest. */
  function Decode(f: seq<int>): Option<Fields>
  {
    if |f| != 8 || f[0] != START_BYTE || f[7] != Checksum(f[..7]) then None
    else match OpcodeOf(f[1])
      case None => None
      case Some(op) => Some(Fields(op, f[2..7]))
  }

  /** Reading back a built frame recovers its opcode and parameters. */
  lemma DecodeFrame(op: Opcode, params: seq<int>)
    requires |params| == 5
    ensures Decode(Frame(op, params)) == Some(Fields(op, params))
  {
  }

  /** Every sequence that reads back is the frame of what it reads back as. */
  lemma FrameDecode(f: seq<int>)
    requires Decode(f).Some?
    ensures |Decode(f).value.params| == 5
    ensures f == Frame(Decode(f).value.op, Decode(f).value.params)
  {
    var fields := Decode(f).value;
    var g := Frame(fields.op, fields.params);
    assert f[..7] == g[..7];
  }

  // ---------------------------------------------------------------------------
  // The command frames
  // ---------------------------------------------------------------------------

  /** The exceptions a command raises before it sends anything. */
  datatype Rejection =
    | PeriodOutOfRange           // set_sequence_period
    | DelayOutOfRange            // set_sequence_delay
    | PulseWidthOutOfRange       // set_LD_pulse_width
    | PulseDelayOutOfRange       // set_LD_pulse_delay
    | PulseNotShorterThanWindow  // write_sequence_window, pulse_width >= window_width
    | ZeroWindowWidth            // write_sequence_window, 1024 / window_width with width 0

  /** The frame of start_sequence: opcode only, parameters zero. */
  function StartSequenceFrame(): (f: seq<int>)
    ensures IsFrameOf(f, Opcode.StartSequence) && f[2..7] == [0, 0, 0, 0, 0]
  {
    Frame(Opcode.StartSequence, [0, 0, 0, 0, 0])
  }

  /** The frame of stop_sequence: opcode only, parameters zero. */
  function StopSequenceFrame(): (f: seq<int>)
    ensures IsFrameOf(f, Opcode.StopSequence) && f[2..7] == [0, 0, 0, 0, 0]
  {
    Frame(Opcode.StopSequence, [0, 0, 0, 0, 0])
  }

  /** set_sequence_period accepts exactly 20..200 and puts the value in byte 2. */
  function SequencePeriodFrame(val: int): (r: Result<seq<int>, Rejection>)
    ensures r.Ok? <==> 20 <= val <= 200
    ensures r.Err? ==> r.error == PeriodOutOfRange
    ensures r.Ok? ==> IsFrameOf(r.value, SequencePeriod) && r.value[2..7] == [val, 0, 0, 0, 0]
  {
    if val < 20 || val > 200 then Err(PeriodOutOfRange)
    else Ok(Frame(SequencePeriod, [val, 0, 0, 0, 0]))
  }

  /** set_sequence_delay accepts exactly 0..255 and puts the value in byte 2. */
  function SequenceDelayFrame(val: int): (r: Result<seq<int>, Rejection>)
    ensures r.Ok? <==> 0 <= val <= 255
    ensures r.Err? ==> r.error == DelayOutOfRange
    ensures r.Ok? ==> IsFrameOf(r.value, SequenceDelay) && r.value[2..7] == [val, 0, 0, 0, 0]
  {
    if val < 0 || val > 255 then Err(DelayOutOfRange)
    else Ok(Frame(SequenceDelay, [val, 0, 0, 0, 0]))
  }

  /** set_LD_pulse_width accepts exactly 1..255 and puts the value in byte 2. */
  function LdPulseWidthFrame(val: int): (r: Result<seq<int>, Rejection>)
    ensures r.Ok? <==> 1 <= val <= 255
    ensures r.Err? ==> r.error == PulseWidthOutOfRange
    ensures r.Ok? ==> IsFrameOf(r.value, LdPulseWidth) && r.value[2..7] == [val, 0, 0, 0, 0]
  {
    if val < 1 || val > 255 then Err(PulseWidthOutOfRange)
    else Ok(Frame(LdPulseWidth, [val, 0, 0, 0, 0]))
  }

  /** set_LD_pulse_delay accepts exactly 0..255 and puts the value in byte 2. */
  function LdPulseDelayFrame(val: int): (r: Result<seq<int>, Rejection>)
    ensures r.Ok? <==> 0 <= val <= 255
    ensures r.Err? ==> r.error == PulseDelayOutOfRange
    ensures r.Ok? ==> IsFrameOf(r.value, LdDelay) && r.value[2..7] == [val, 0, 0, 0, 0]
  {
    if val < 0 || val > 255 then Err(PulseDelayOutOfRange)
    else Ok(Frame(LdDelay, [val, 0, 0, 0, 0]))
  }

  /** write_sequence_window rejects a pulse that is not shorter than its window,
      and a zero window width (the advisory 1024 / window_width divides by
      zero); it checks nothing else, so any integers reach the frame. */
  function WindowFrame(windowNumber: int, windowWidth: int, pulseWidth: int, channelsData: int)
    : (r: Result<seq<int>, Rejection>)
    ensures r.Ok? <==> pulseWidth < windowWidth && windowWidth != 0
    ensures r.Err? ==> r.error == if pulseWidth >= windowWidth then PulseNotShorterThanWindow else ZeroWindowWidth
    ensures r.Ok? ==> IsFrameOf(r.value, WindowData)
    ensures r.Ok? ==> r.value[2..7] == [windowNumber, windowWidth, pulseWidth, channelsData, 0]
  {
    if pulseWidth >= windowWidth then Err(PulseNotShorterThanWindow)
    else if windowWidth == 0 then Err(ZeroWindowWidth)
    else Ok(Frame(WindowData, [windowNumber, windowWidth, pulseWidth, channelsData, 0]))
  }

  /** The advisory window count write_sequence_window reports, for a positive width. */
  function MaxWindowCount(windowWidth: int): (n: int)
    requires windowWidth > 0
    ensures n * windowWidth <= 1024 < (n + 1) * windowWidth
  {
    1024 / windowWidth
  }

  /** The window number is never compared with the advisory count: every
      window number is accepted, those beyond 1024 / window_width included. */
  lemma WindowNumberUnchecked(windowNumber: int, windowWidth: int, pulseWidth: int, channelsData: int)
    requires 0 < windowWidth && pulseWidth < windowWidth
    requires windowNumber > MaxWindowCount(windowWidth)
    ensures WindowFrame(windowNumber, windowWidth, pulseWidth, channelsData).Ok?
  {
  }

  /** No command builds a frame carrying CLEAR_SEQUENCE. */
  lemma NoClearSequenceFrame(val: int, windowNumber: int, windowWidth: int, pulseWidth: int, channelsData: int)
    ensures StartSequenceFrame()[1] != Code(ClearSequence)
    ensures StopSequenceFrame()[1] != Code(ClearSequence)
    ensures SequencePeriodFrame(val).Ok? ==> SequencePeriodFrame(val).value[1] != Code(ClearSequence)
    ensures SequenceDelayFrame(val).Ok? ==> SequenceDelayFrame(val).value[1] != Code(ClearSequence)
    ensures LdPulseWidthFrame(val).Ok? ==> LdPulseWidthFrame(val).value[1] != Code(ClearSequence)
    ensures LdPulseDelayFrame(val).Ok? ==> LdPulseDelayFrame(val).value[1] != Code(ClearSequence)
    ensures var w := WindowFrame(windowNumber, windowWidth, pulseWidth, channelsData);
      w.Ok? ==> w.value[1] != Code(ClearSequence)
  {
  }

  /** The inclusive bounds of set_sequence_period. */
  lemma SequencePeriodBounds()
    ensures SequencePeriodFrame(19) == Err(PeriodOutOfRange)
    ensures SequencePeriodFrame(201) == Err(PeriodOutOfRange)
    ensures SequencePeriodFrame(20).Ok? && SequencePeriodFrame(200).Ok?
  {
  }

  /** A worked window frame: window 1, width 20, pulse 5, channels 0b11001100. */
  lemma WindowFrameExample()
    ensures WindowFrame(1, 20, 5, 0xCC) == Ok([0x55, 0x52, 0x01, 0x14, 0x05, 0xCC, 0x00, 0x8D])
    ensures WindowFrame(1, 20, 20, 0xCC) == Err(PulseNotShorterThanWindow)
  {
    var b := Body(WindowData, [0x01, 0x14, 0x05, 0xCC, 0x00]);
    assert b == [0x55, 0x52, 0x01, 0x14, 0x05, 0xCC, 0x00];
    assert Sum(b[..1]) == 0x55 by { assert b[..1][..0] == []; }
    assert Sum(b[..2]) == 0xA7 by { assert b[..2][..1] == b[..1]; }
    assert Sum(b[..3]) == 0xA8 by { assert b[..3][..2] == b[..2]; }
    assert Sum(b[..4]) == 0xBC by { assert b[..4][..3] == b[..3]; }
    assert Sum(b[..5]) == 0xC1 by { assert b[..5][..4] == b[..4]; }
    assert Sum(b[..6]) == 0x18D by { assert b[..6][..5] == b[..5]; }
    assert Sum(b) == 0x18D by { assert b[..6] == b[..|b| - 1]; }
    assert Checksum(b) == 0x8D;
    assert Frame(WindowData, [0x01, 0x14, 0x05, 0xCC, 0x00]) == b + [0x8D];
    assert b + [0x8D] == [0x55, 0x52, 0x01, 0x14, 0x05, 0xCC, 0x00, 0x8D];
    assert WindowFrame(1, 20, 5, 0xCC) == Ok(Frame(WindowData, [0x01, 0x14, 0x05, 0xCC, 0x00]));
  }

  // ---------------------------------------------------------------------------
  // Reply classification
  // ---------------------------------------------------------------------------

  /** What one read of the reply yields: a known acknowledgement, or anything
      else (another byte value, or nothing at all after a timeout). */
  datatype Outcome = Known(response: Response) | Unknown(raw: seq<byte>)

  /** The if/elif chain of uart_send_message over the bytes read. */
  function Classify(reply: seq<byte>): (o: Outcome)
    ensures o.Known? <==> |reply| == 1 && 0x01 <= reply[0] <= 0x05
    ensures o.Known? ==> reply == [ResponseCode(o.response)]
    ensures o.Unknown? ==> o.raw == reply
  {
    if reply == [ResponseCode(StartByteError)] then Known(StartByteError)
    else if reply == [ResponseCode(ChecksumError)] then Known(ChecksumError)
    else if reply == [ResponseCode(CommandError)] then Known(CommandError)
    else if reply == [ResponseCode(Success)] then Known(Success)
    else if reply == [ResponseCode(ChecksumOk)] then Known(ChecksumOk)
    else Unknown(reply)
  }

  /** Each acknowledgement's byte is classified as that acknowledgement. */
  lemma ClassifyCode(r: Response)
    ensures Classify([ResponseCode(r)]) == Known(r)
  {
  }

  /** A success byte, an unassigned byte and an empty read. */
  lemma ClassifyExamples()
    ensures Classify([0x05]) == Known(Success)
    ensures Classify([0x09]) == Unknown([0x09])
    ensures Classify([]) == Unknown([])
  {
  }

  // ---------------------------------------------------------------------------
  // The serial port and the send step
  // ---------------------------------------------------------------------------

  /** What struct.pack("B", _) accepts: an unsigned byte. */
  predicate IsByte(x: int)
  {
    0 <= x < 256
  }

  /** The position of the first element that is not a byte, or the length
      when every element is one. */
  function FirstNonByte(buf: seq<int>): (k: nat)
    ensures k <= |buf|
    ensures forall j :: 0 <= j < k ==> IsByte(buf[j])
    ensures k < |buf| ==> !IsByte(buf[k])
  {
    if buf == [] || !IsByte(buf[0]) then 0 else 1 + FirstNonByte(buf[1..])
  }

  /** A list of byte-valued integers as bytes. */
  function ToBytes(s: seq<int>): (b: seq<byte>)
    requires forall j :: 0 <= j < |s| ==> IsByte(s[j])
    ensures |b| == |s|
    ensures forall j :: 0 <= j < |s| ==> b[j] as int == s[j]
  {
    if s == [] then []
    else
      assert IsByte(s[|s| - 1]);
      ToBytes(s[..|s| - 1]) + [s[|s| - 1] as byte]
  }

  /** What one read() returns: the first pending byte, or nothing on timeout. */
  function ReadReply(inbox: seq<byte>): (reply: seq<byte>)
    ensures reply <= inbox
    ensures |reply| == if inbox == [] then 0 else 1
  {
    if inbox == [] then [] else [inbox[0]]
  }

  /** The observable state of the port: every byte written so far, and the
      bytes the FPGA has sent that are still unread. */
  datatype Link = Link(written: seq<byte>, inbox: seq<byte>)

  /** The outcome of uart_send_message: struct.pack refused the element at
      `index`, or the frame went out and the reply was classified. */
  datatype SendResult = PackError(index: nat) | Replied(outcome: Outcome)

  datatype Exchange = Exchange(link: Link, result: SendResult)

  /** uart_send_message on a port in state `l`: the elements are written in
      order, each once, up to the first that is not a byte; a refused element
      ends the call with no read, otherwise exactly one read follows. */
  function SendSpec(l: Link, buf: seq<int>): (x: Exchange)
    ensures x.result.PackError? <==> exists j :: 0 <= j < |buf| && !IsByte(buf[j])
    ensures x.result.PackError? ==> x.result.index < |buf| && !IsByte(buf[x.result.index])
    ensures var n := if x.result.PackError? then x.result.index else |buf|;
      |x.link.written| == |l.written| + n && x.link.written[..|l.written|] == l.written &&
      forall j :: 0 <= j < n ==> x.link.written[|l.written| + j] as int == buf[j]
    ensures x.result.PackError? ==> x.link.inbox == l.inbox
    ensures x.result.Replied? ==>
      ReadReply(l.inbox) + x.link.inbox == l.inbox && x.result.outcome == Classify(ReadReply(l.inbox))
  {
    var k := FirstNonByte(buf);
    if k < |buf| then
      Exchange(Link(l.written + ToBytes(buf[..k]), l.inbox), PackError(k))
    else
      assert buf[..k] == buf;
      var reply := ReadReply(l.inbox);
      Exchange(Link(l.written + ToBytes(buf), l.inbox[|reply|..]), Replied(Classify(reply)))
  }

  /** The serial port the driver owns. */
  class SerialPort {
    var written: seq<byte>
    var inbox: seq<byte>

    constructor (pending: seq<byte>)
      ensures written == [] && inbox == pending
    {
      written := [];
      inbox := pending;
    }

    function State(): Link
      reads this
    {
      Link(written, inbox)
    }

    /** Writes one byte. */
    method Write(b: byte)
      modifies this
      ensures written == old(written) + [b] && inbox == old(inbox)
    {
      written := written + [b];
    }

    /** Reads at most one byte; an empty result is a timeout. */
    method Read() returns (reply: seq<byte>)
      modifies this
      ensures reply == ReadReply(old(inbox))
      ensures reply + inbox == old(inbox) && written == old(written)
    {
      reply := ReadReply(inbox);
      inbox := inbox[|reply|..];
    }
  }

  /** uart_send_message: writes the frame byte by byte, then reads and
      classifies one reply. */
  method UartSendMessage(port: SerialPort, buf: seq<int>) returns (r: SendResult)
    modifies port
    ensures Exchange(port.State(), r) == SendSpec(old(port.State()), buf)
  {
    var i := 0;
    while i < |buf|
      invariant 0 <= i <= |buf|
      invariant forall j :: 0 <= j < i ==> IsByte(buf[j])
      invariant port.written == old(port.written) + ToBytes(buf[..i])
      invariant port.inbox == old(port.inbox)
    {
      if !IsByte(buf[i]) {
        return PackError(i);
      }
      assert buf[..i + 1][..i] == buf[..i];
      port.Write(buf[i] as byte);
      i := i + 1;
    }
    assert buf[..i] == buf;
    var reply := port.Read();
    r := Replied(Classify(reply));
  }

  /** A frame whose parameters are all bytes goes out whole: its eight
      bytes are appended to the port and one reply is read. */
  lemma ByteFrameSentWhole(l: Link, op: Opcode, params: seq<int>)
    requires |params| == 5 && forall j :: 0 <= j < 5 ==> IsByte(params[j])
    ensures forall j :: 0 <= j < 8 ==> IsByte(Frame(op, params)[j])
    ensures SendSpec(l, Frame(op, params)) ==
      Exchange(Link(l.written + ToBytes(Frame(op, params)), l.inbox[|ReadReply(l.inbox)|..]),
               Replied(Classify(ReadReply(l.inbox))))
  {
  }

  /** Every frame an accepted setter builds goes out whole. */
  lemma SetterFramesSentWhole(l: Link, val: int)
    ensures SequencePeriodFrame(val).Ok? ==> SendSpec(l, SequencePeriodFrame(val).value).result.Replied?
    ensures SequenceDelayFrame(val).Ok? ==> SendSpec(l, SequenceDelayFrame(val).value).result.Replied?
    ensures LdPulseWidthFrame(val).Ok? ==> SendSpec(l, LdPulseWidthFrame(val).value).result.Replied?
    ensures LdPulseDelayFrame(val).Ok? ==> SendSpec(l, LdPulseDelayFrame(val).value).result.Replied?
  {
    if 0 <= val <= 255 {
      ByteFrameSentWhole(l, SequencePeriod, [val, 0, 0, 0, 0]);
      ByteFrameSentWhole(l, SequenceDelay, [val, 0, 0, 0, 0]);
      ByteFrameSentWhole(l, LdPulseWidth, [val, 0, 0, 0, 0]);
      ByteFrameSentWhole(l, LdDelay, [val, 0, 0, 0, 0]);
    }
  }

  /** write_sequence_window never range-checks its arguments: an accepted
      window number outside 0..255 is refused only by struct.pack, after the
      start byte and the opcode have already gone out, and no reply is read. */
  lemma WindowNumberOutOfByteRange(l: Link, windowNumber: int, windowWidth: int, pulseWidth: int, channelsData: int)
    requires WindowFrame(windowNumber, windowWidth, pulseWidth, channelsData).Ok?
    requires !IsByte(windowNumber)
    ensures SendSpec(l, WindowFrame(windowNumber, windowWidth, pulseWidth, channelsData).value) ==
      Exchange(Link(l.written + [0x55, 0x52], l.inbox), PackError(2))
  {
    var f := WindowFrame(windowNumber, windowWidth, pulseWidth, channelsData).value;
    assert f[2] == f[2..7][0];
    var x := SendSpec(l, f);
    assert x.result.PackError? && x.result.index == 2;
    assert x.link.written == l.written + [0x55, 0x52];
  }

  /** The result of a command that validates its arguments first. */
  datatype CallResult = Rejected(rejection: Rejection) | Sent(result: SendResult)

  /** A validating command: a rejection leaves the port untouched, an
      accepted frame goes through uart_send_message. */
  function CallSpec(l: Link, frame: Result<seq<int>, Rejection>): (Link, CallResult)
  {
    match frame
    case Err(e) => (l, Rejected(e))
    case Ok(f) => var x := SendSpec(l, f); (x.link, Sent(x.result))
  }

  /** Appends the checksum to a body and sends the frame. */
  method SendBody(port: SerialPort, body: seq<int>) returns (r: SendResult)
    modifies port
    ensures Exchange(port.State(), r) == SendSpec(old(port.State()), body + [Checksum(body)])
  {
    var frame := body;
    var c := CalcChecksum(body);
    frame := frame + [c];
    r := UartSendMessage(port, frame);
  }

  method StartSequence(port: SerialPort) returns (r: SendResult)
    modifies port
    ensures Exchange(port.State(), r) == SendSpec(old(port.State()), StartSequenceFrame())
  {
    var body := [START_BYTE, Code(Opcode.StartSequence), 0x00, 0x00, 0x00, 0x00, 0x00];
    assert body == Body(Opcode.StartSequence, [0, 0, 0, 0, 0]);
    r := SendBody(port, body);
  }

  method StopSequence(port: SerialPort) returns (r: SendResult)
    modifies port
    ensures Exchange(port.State(), r) == SendSpec(old(port.State()), StopSequenceFrame())
  {
    var body := [START_BYTE, Code(Opcode.StopSequence), 0x00, 0x00, 0x00, 0x00, 0x00];
    assert body == Body(Opcode.StopSequence, [0, 0, 0, 0, 0]);
    r := SendBody(port, body);
  }

  method SetSequencePeriod(port: SerialPort, val: int) returns (r: CallResult)
    modifies port
    ensures (port.State(), r) == CallSpec(old(port.State()), SequencePeriodFrame(val))
  {
    if val < 20 || val > 200 {
      return Rejected(PeriodOutOfRange);
    }
    var body := [START_BYTE, Code(SequencePeriod), val, 0x00, 0x00, 0x00, 0x00];
    assert body == Body(SequencePeriod, [val, 0, 0, 0, 0]);
    var sent := SendBody(port, body);
    r := Sent(sent);
  }

  method SetSequenceDelay(port: SerialPort, val: int) returns (r: CallResult)
    modifies port
    ensures (port.State(), r) == CallSpec(old(port.State()), SequenceDelayFrame(val))
  {
    if val < 0 || val > 255 {
      return Rejected(DelayOutOfRange);
    }
    var body := [START_BYTE, Code(SequenceDelay), val, 0x00, 0x00, 0x00, 0x00];
    assert body == Body(SequenceDelay, [val, 0, 0, 0, 0]);
    var sent := SendBody(port, body);
    r := Sent(sent);
  }

  method SetLdPulseWidth(port: SerialPort, val: int) returns (r: CallResult)
    modifies port
    ensures (port.State(), r) == CallSpec(old(port.State()), LdPulseWidthFrame(val))
  {
    if val < 1 || val > 255 {
      return Rejected(PulseWidthOutOfRange);
    }
    var body := [START_BYTE, Code(LdPulseWidth), val, 0x00, 0x00, 0x00, 0x00];
    assert body == Body(LdPulseWidth, [val, 0, 0, 0, 0]);
    var sent := SendBody(port, body);
    r := Sent(sent);
  }

  method SetLdPulseDelay(port: SerialPort, val: int) returns (r: CallResult)
    modifies port
    ensures (port.State(), r) == CallSpec(old(port.State()), LdPulseDelayFrame(val))
  {
    if val < 0 || val > 255 {
      return Rejected(PulseDelayOutOfRange);
    }
    var body := [START_BYTE, Code(LdDelay), val, 0x00, 0x00, 0x00, 0x00];
    assert body == Body(LdDelay, [val, 0, 0, 0, 0]);
    var sent := SendBody(port, body);
    r := Sent(sent);
  }

  method WriteSequenceWindow(port: SerialPort, windowNumber: int, windowWidth: int, pulseWidth: int, channelsData: int)
    returns (r: CallResult)
    modifies port
    ensures (port.State(), r) == CallSpec(old(port.State()), WindowFrame(windowNumber, windowWidth, pulseWidth, channelsData))
  {
    if pulseWidth >= windowWidth {
      return Rejected(PulseNotShorterThanWindow);
    }
    if windowWidth == 0 {
      return Rejected(ZeroWindowWidth);
    }
    var body := [START_BYTE, Code(WindowData), windowNumber, windowWidth, pulseWidth, channelsData, 0x00];
    assert body == Body(WindowData, [windowNumber, windowWidth, pulseWidth, channelsData, 0]);
    var sent := SendBody(port, body);
    r := Sent(sent);
  }
}
