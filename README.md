# EOM driver FPGA: UART command-frame protocol

A Dafny model of the host-side driver that programs the electro-optical
modulator (EOM) timing generator on an FPGA over a serial link. Each driver
command validates its arguments, builds a 7-byte body
`[0x55, opcode, p0, p1, p2, p3, p4]` (unused slots zero), appends the
checksum (the sum of the seven bytes mod 256) and writes the 8-byte frame to
the port one byte at a time; it then reads one reply byte and classifies it
as one of the five acknowledgements the FPGA sends, or as unknown.

Modules:

- `Wrappers` (`wrappers.dfy`): `Option` and `Result`; `Err` stands for an
  exception raised before anything is sent.
- `Commands` (`commands.dfy`): the registry `eom_uart_commands.py` — the
  start byte, the `Opcode` and `Response` datatypes with their wire bytes.
- `UsbCommunication` (`usb_communication.dfy`): `eom_uart_usb_communication.py`
  — the checksum (a pure `Checksum` and the accumulating loop
  `CalcChecksum`), the frame of each command as a pure function returning
  either a frame or a `Rejection`, the reply classification `Classify`,
  and the send step. The serial port is a `SerialPort` object owned by the
  caller: `written` is every byte written so far, `inbox` the bytes the FPGA
  has sent that are still unread. `UartSendMessage` and the seven command
  methods change the port and are proved against the pure `SendSpec` and
  `CallSpec`, about which the lemmas are stated.

Notes on the source:

- The frame elements are Python integers, so frames are `seq<int>`; only the
  port sees bytes (the newtype `byte`, 0..255). `write_sequence_window` range-checks none of its
  four arguments, so its frame can hold any integers. `struct.pack("B", b)`
  refuses such an element while the frame is being written, after the
  earlier bytes have gone out, and no reply is read. `SendSpec` models this
  as `PackError(index)`.
- `write_sequence_window` evaluates `1024/window_width` for its advisory
  message before building the frame. With `window_width == 0` (reachable
  when `pulse_width < 0`) that division raises, so nothing is sent. The model
  has this as the rejection `ZeroWindowWidth`.
- The checksum of a frame with negative elements is still in 0..255. Python's
  `%` by 256 and Dafny's Euclidean `%` agree for a positive divisor.
- `set_sequence_period` checks 20..200, but its exception message says
  "20-100". The model follows the check. Messages are not modelled.
- `Decode` is not a driver operation. It is a reference reading of the wire
  format, used to show that each frame determines its opcode and parameters.

## Model

| member | source | states |
|---|---|---|
| Commands.Code | Python/eom_uart_communication/eom_uart_commands.py:5-16 | each opcode byte fits in one byte and differs from START_BYTE 0x55 |
| Commands.OpcodeOf | Python/eom_uart_communication/eom_uart_commands.py:7-16 | a byte maps back to the opcode whose code it is, and to none exactly when no opcode has that code |
| Commands.CodeInjective | Python/eom_uart_communication/eom_uart_commands.py:7-16 | the eight opcode bytes are pairwise distinct |
| Commands.OpcodeOfCode | Python/eom_uart_communication/eom_uart_commands.py:7-16 | reading back an opcode's byte gives that opcode |
| Commands.ResponseCode | Python/eom_uart_communication/eom_uart_commands.py:20-24 | each response code is a single byte in 0x01..0x05 |
| Commands.ResponseCodeInjective | Python/eom_uart_communication/eom_uart_commands.py:20-24 | the five response codes are pairwise distinct |
| UsbCommunication.Checksum | Python/eom_uart_communication/eom_uart_usb_communication.py:88-93 | the checksum is the sum of the elements mod 256, always in 0..255 |
| UsbCommunication.CalcChecksum | Python/eom_uart_communication/eom_uart_usb_communication.py:88-93 | the accumulator loop computes exactly that checksum |
| UsbCommunication.ChecksumPermutation | Python/eom_uart_communication/eom_uart_usb_communication.py:88-93 | two lists with the same multiset of elements have the same checksum |
| UsbCommunication.Frame | Python/eom_uart_communication/eom_uart_usb_communication.py:96-97 | a body with its checksum appended is 8 bytes: 0x55, the opcode, the five parameters, and the checksum of bytes 0..6 |
| UsbCommunication.DecodeFrame | Python/eom_uart_communication/eom_uart_usb_communication.py:96-97 | a built frame reads back as its opcode and parameters |
| UsbCommunication.FrameDecode | Python/eom_uart_communication/eom_uart_usb_communication.py:96-97 | every sequence that reads back is exactly the frame of those fields |
| UsbCommunication.StartSequenceFrame | Python/eom_uart_communication/eom_uart_usb_communication.py:95-97 | the start_sequence frame carries START_SEQUENCE and zeros in bytes 2..6 |
| UsbCommunication.StopSequenceFrame | Python/eom_uart_communication/eom_uart_usb_communication.py:100-102 | the stop_sequence frame carries STOP_SEQUENCE and zeros in bytes 2..6 |
| UsbCommunication.SequencePeriodFrame | Python/eom_uart_communication/eom_uart_usb_communication.py:107-111 | accepted exactly when 20 <= val <= 200; then SEQUENCE_PERIOD, val in byte 2, zeros in 3..6; otherwise the period rejection and no frame |
| UsbCommunication.SequenceDelayFrame | Python/eom_uart_communication/eom_uart_usb_communication.py:116-120 | accepted exactly when 0 <= val <= 255; then SEQUENCE_DELAY, val in byte 2, zeros in 3..6 |
| UsbCommunication.LdPulseWidthFrame | Python/eom_uart_communication/eom_uart_usb_communication.py:125-129 | accepted exactly when 1 <= val <= 255; then LD_PULSE_WIDTH, val in byte 2, zeros in 3..6 |
| UsbCommunication.LdPulseDelayFrame | Python/eom_uart_communication/eom_uart_usb_communication.py:134-138 | accepted exactly when 0 <= val <= 255; then LD_DELAY, val in byte 2, zeros in 3..6 |
| UsbCommunication.WindowFrame | Python/eom_uart_communication/eom_uart_usb_communication.py:159-164 | rejected exactly when pulse_width >= window_width or window_width is 0; otherwise WINDOW_DATA with window_number, window_width, pulse_width, channels_data in bytes 2..5 and zero in byte 6 |
| UsbCommunication.MaxWindowCount | Python/eom_uart_communication/eom_uart_usb_communication.py:162 | the advisory window count is the floor of 1024 / window_width |
| UsbCommunication.WindowNumberUnchecked | Python/eom_uart_communication/eom_uart_usb_communication.py:159-165 | a window number above the advisory count is still accepted |
| UsbCommunication.NoClearSequenceFrame | Python/eom_uart_communication/eom_uart_usb_communication.py:95-165 | no command frame carries the CLEAR_SEQUENCE opcode |
| UsbCommunication.SequencePeriodBounds | Python/eom_uart_communication/eom_uart_usb_communication.py:107-109 | 19 and 201 are rejected, 20 and 200 accepted |
| UsbCommunication.WindowFrameExample | Python/eom_uart_communication/eom_uart_usb_communication.py:159-164 | window 1, width 20, pulse 5, channels 0xCC gives 55 52 01 14 05 CC 00 8D; pulse 20 with width 20 is rejected |
| UsbCommunication.Classify | Python/eom_uart_communication/eom_uart_usb_communication.py:72-84 | a known acknowledgement exactly when the reply is one byte in 0x01..0x05, and then the one whose code it is; otherwise unknown carrying the raw reply, the empty timeout reply included |
| UsbCommunication.ClassifyCode | Python/eom_uart_communication/eom_uart_usb_communication.py:73-82 | each acknowledgement's byte is classified as that acknowledgement |
| UsbCommunication.ClassifyExamples | Python/eom_uart_communication/eom_uart_usb_communication.py:72-84 | 0x05 is SUCCESS, 0x09 is unknown carrying 0x09, an empty read is unknown |
| UsbCommunication.FirstNonByte | Python/eom_uart_communication/eom_uart_usb_communication.py:67-68 | the position of the first element struct.pack refuses, or the length when all are bytes |
| UsbCommunication.ReadReply | Python/eom_uart_communication/eom_uart_usb_communication.py:72 | one read yields the first pending byte, or nothing when none is pending |
| UsbCommunication.SendSpec | Python/eom_uart_communication/eom_uart_usb_communication.py:63-84 | elements are written in order, each once, up to the first non-byte; a non-byte ends the call with no read; otherwise exactly one byte is read and classified |
| UsbCommunication.SerialPort.Write | Python/eom_uart_communication/eom_uart_usb_communication.py:69 | one byte is appended to the sink and nothing else changes |
| UsbCommunication.SerialPort.Read | Python/eom_uart_communication/eom_uart_usb_communication.py:72 | at most one pending byte is consumed and returned |
| UsbCommunication.UartSendMessage | Python/eom_uart_communication/eom_uart_usb_communication.py:63-84 | the byte loop and the reply read change the port and return exactly what SendSpec describes |
| UsbCommunication.ByteFrameSentWhole | Python/eom_uart_communication/eom_uart_usb_communication.py:67-72 | a frame whose parameters are bytes goes out whole, followed by one read |
| UsbCommunication.SetterFramesSentWhole | Python/eom_uart_communication/eom_uart_usb_communication.py:107-139 | every frame an accepted single-value setter builds is sent whole and gets a reply classified |
| UsbCommunication.WindowNumberOutOfByteRange | Python/eom_uart_communication/eom_uart_usb_communication.py:159-165 | an accepted window frame whose window number is not a byte writes only 0x55 0x52, fails at position 2 and reads nothing |
| UsbCommunication.SendBody | Python/eom_uart_communication/eom_uart_usb_communication.py:96-98 | appends the checksum to a body and sends the resulting frame |
| UsbCommunication.StartSequence | Python/eom_uart_communication/eom_uart_usb_communication.py:95-98 | sends the start_sequence frame |
| UsbCommunication.StopSequence | Python/eom_uart_communication/eom_uart_usb_communication.py:100-103 | sends the stop_sequence frame |
| UsbCommunication.SetSequencePeriod | Python/eom_uart_communication/eom_uart_usb_communication.py:107-112 | a rejection leaves the port untouched; an accepted value sends the period frame |
| UsbCommunication.SetSequenceDelay | Python/eom_uart_communication/eom_uart_usb_communication.py:116-121 | a rejection leaves the port untouched; an accepted value sends the delay frame |
| UsbCommunication.SetLdPulseWidth | Python/eom_uart_communication/eom_uart_usb_communication.py:125-130 | a rejection leaves the port untouched; an accepted value sends the pulse-width frame |
| UsbCommunication.SetLdPulseDelay | Python/eom_uart_communication/eom_uart_usb_communication.py:134-139 | a rejection leaves the port untouched; an accepted value sends the pulse-delay frame |
| UsbCommunication.WriteSequenceWindow | Python/eom_uart_communication/eom_uart_usb_communication.py:159-165 | a rejection leaves the port untouched; otherwise the window frame is sent, partially if an argument is not a byte |

## Left out

- Opening and configuring the serial port (port name, baud rate, parity, timeout). This is library configuration. The port is a caller-owned `SerialPort` instead.
- The busy-wait on `out_waiting`, the 0.1 s sleep after each byte and `flush()`. These are timing and hardware-buffer behaviour with no effect on the bytes.
- The printed messages. `Classify` and the `Rejection` values return the outcome instead of printing it.
- The floating-point `np.floor(1024/window_width)` in the advisory print. `MaxWindowCount` gives its value for a positive width with integer division. A negative width only affects the printed text.
- The 300 MHz clock-to-time conversion and the timing-diagram comments. They are explanatory only.
- Arguments that are not integers (floats, strings). The model takes every argument as an integer.
- A `clear_sequence` command. The source defines the opcode but has no driver function for it, and `NoClearSequenceFrame` states this.
