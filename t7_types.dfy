/**
 * The shared vocabulary of the T7 translator (src/T7.hpp): port
 * descriptors, cable events, relay messages and the defaults of the driver
 * base, together with the byte conversions of MIDI data.
 */
module T7Types {
  import opened Wrappers
  import Fifo

  // ---- Bytes ----

  type Byte = x: int | 0 <= x < 256

  /** Conversion of a byte to `int8_t`: bytes from 128 up read as negative. */
  function Int8(b: Byte): (r: int)
    ensures -128 <= r < 128
    ensures (r - b) % 256 == 0
  {
    if b < 128 then b else b - 256
  }

  // ---- MIDI messages ----

  /** A three-byte MIDI message: status byte, then two data bytes. */
  datatype MidiMessage = MidiMessage(b0: Byte, b1: Byte, b2: Byte) {

    /** The high nibble of the status byte (0xB for Control Change). */
    function Status(): (r: int)
      ensures 0 <= r < 16
      ensures b0 == 16 * r + Channel()
    {
      b0 / 16
    }

    /** The low nibble of the status byte: the channel, counted from 0. */
    function Channel(): (r: int)
      ensures 0 <= r < 16
    {
      b0 % 16
    }

    /** The first data byte: the controller number of a Control Change. */
    function Note(): (r: int)
      ensures 0 <= r < 256
      ensures MidiMessage(b0, r, b2) == this
    {
      b1
    }

    /** The second data byte read as `int8_t`, as the drivers compare it. */
    function Value(): (r: int)
      ensures -128 <= r < 128
      ensures b2 < 128 ==> r == b2
    {
      Int8(b2)
    }
  }

  /** The Control Change status nibble. */
  const StatusCc: int := 0xB

  // ---- Port descriptors ----

  /** `T7Driver::PortDescriptor`: port type 0 is an output, 1 an input. */
  datatype PortDescriptor = PortDescriptor(moduleId: int, portType: int, portId: int)

  /** A descriptor as default-constructed: every field is the sentinel -1. */
  function DefaultPortDescriptor(): (pd: PortDescriptor)
    ensures pd.moduleId == -1 && pd.portType == -1 && pd.portId == -1
  {
    PortDescriptor(-1, -1, -1)
  }

  // ---- Events ----

  /** The three cable events; in the drivers' numbering Toggle is 0, Add 1 and Remove 2. */
  datatype EventKind = Toggle | Add | Remove

  /**
   * A `T7CableEvent`: which of the three it is, the two ports, the cable
   * colour, the replace policy and whether its logger is set.
   */
  datatype CableEvent = CableEvent(
    kind: EventKind,
    outPd: PortDescriptor,
    inPd: PortDescriptor,
    cableColor: string,
    replaceInputCable: bool,
    hasLogger: bool)

  /** A freshly constructed cable event: no colour, no replacing, no logger. */
  function NewCableEvent(kind: EventKind, outPd: PortDescriptor, inPd: PortDescriptor): (e: CableEvent)
    ensures e.kind == kind && e.outPd == outPd && e.inPd == inPd
    ensures e.cableColor == "" && !e.replaceInputCable && !e.hasLogger
  {
    CableEvent(kind, outPd, inPd, "", false, false)
  }

  /** Capacity of the module's GUI log ring buffer (`debugMessagesGui`). */
  const GuiLogCapacity: nat := 256

  /**
   * `T7Event::log`: the line reaches the logger only when the event has one;
   * the module's logger then keeps it if its 256-line buffer is not full.
   */
  function Log(hasLogger: bool, lines: seq<string>, s: string): (r: seq<string>)
    ensures !hasLogger ==> r == lines
    ensures hasLogger && |lines| < GuiLogCapacity ==> r == lines + [s]
    ensures |lines| >= GuiLogCapacity ==> r == lines
  {
    if hasLogger then Fifo.Offer(lines, s, GuiLogCapacity) else lines
  }

  // ---- Relay messages ----

  datatype MessageType = MIDI

  /** A `T7MidiMessage`: a MIDI message tagged with the driver and device it came from. */
  datatype T7MidiMessage = T7MidiMessage(msgType: MessageType, msg: MidiMessage, driverId: int, deviceId: int)

  /** Construction of a relay message: its type is always MIDI. */
  function MakeMidiMessage(msg: MidiMessage, driverId: int, deviceId: int): (m: T7MidiMessage)
    ensures m.msgType == MIDI
    ensures m.msg == msg && m.driverId == driverId && m.deviceId == deviceId
  {
    T7MidiMessage(MIDI, msg, driverId, deviceId)
  }

  // ---- The driver base ----

  /** `T7Driver::processMessage` of the base: never ready. */
  function BaseProcessMessage(msg: MidiMessage): (ready: bool)
    ensures !ready
  {
    false
  }

  /** `T7Driver::getEvent` of the base: no event. */
  function BaseGetEvent(): (e: Option<CableEvent>)
    ensures e.None?
  {
    None
  }

  /** `T7Driver::getName` of the base: the empty name. */
  function BaseName(): (name: string)
    ensures |name| == 0
  {
    ""
  }
}
