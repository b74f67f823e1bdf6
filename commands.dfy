/**
 * The command registry of the EOM driver: the start byte, the frame opcodes
 * and the single-byte response codes the FPGA answers with.
 */
module Commands {
  import opened Wrappers

  /** An unsigned byte, as written to and read from the serial port. */
  newtype byte = x: int | 0 <= x < 256

  /** Every frame begins with this marker. */
  const START_BYTE: int := 0x55

  /** The commands the FPGA understands. */
  datatype Opcode =
    | StartSequence
    | StopSequence
    | ClearSequence
    | SequencePeriod
    | SequenceDelay
    | LdPulseWidth
    | LdDelay
    | WindowData

  /** The byte that identifies `op` on the wire; it fits one byte and never
      looks like the start marker. */
  function Code(op: Opcode): (b: int)
    ensures 0 <= b < 256
    ensures b != START_BYTE
  {
    match op
    case StartSequence => 0x41
    case StopSequence => 0x42
    case ClearSequence => 0x43
    case SequencePeriod => 0x44
    case SequenceDelay => 0x45
    case LdPulseWidth => 0x46
    case LdDelay => 0x47
    case WindowData => 0x52
  }

  /** The opcode a byte stands for, if any. */
  function OpcodeOf(b: int): (r: Option<Opcode>)
    ensures r.Some? ==> Code(r.value) == b
    ensures r.None? ==> forall op: Opcode :: Code(op) != b
  {
    if b == 0x41 then Some(StartSequence)
    else if b == 0x42 then Some(StopSequence)
    else if b == 0x43 then Some(ClearSequence)
    else if b == 0x44 then Some(SequencePeriod)
    else if b == 0x45 then Some(SequenceDelay)
    else if b == 0x46 then Some(LdPulseWidth)
    else if b == 0x47 then Some(LdDelay)
    else if b == 0x52 then Some(WindowData)
    else None
  }

  /** Distinct opcodes have distinct bytes, so a byte names at most one command. */
  lemma CodeInjective(a: Opcode, b: Opcode)
    ensures Code(a) == Code(b) ==> a == b
  {
  }

  /** Reading back the byte of an opcode gives that opcode. */
  lemma OpcodeOfCode(op: Opcode)
    ensures OpcodeOf(Code(op)) == Some(op)
  {
  }

  /** The acknowledgements the FPGA can send back. */
  datatype Response =
    | ChecksumOk
    | StartByteError
    | ChecksumError
    | CommandError
    | Success

  /** The reply byte of each acknowledgement. */
  function ResponseCode(r: Response): (b: byte)
    ensures 0x01 <= b <= 0x05
  {
    match r
    case ChecksumOk => 0x01
    case StartByteError => 0x02
    case ChecksumError => 0x03
    case CommandError => 0x04
    case Success => 0x05
  }

  /** Distinct acknowledgements have distinct reply bytes. */
  lemma ResponseCodeInjective(a: Response, b: Response)
    ensures ResponseCode(a) == ResponseCode(b) ==> a == b
  {
  }
}
