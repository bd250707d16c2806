/** Node identifiers, command codes and the protocol message record that every
    node of the mesh exchanges. */
module NodeTypes {

  /** Node ids identify fixed physical nodes. The model relies only on the three
      ids below being distinct. */
  type NodeId = int
  const NODE_B01: NodeId := 0
  const NODE_T01: NodeId := 1
  const NODE_B02: NodeId := 2

  /** The `int32_t` payload values a message carries. */
  type i32 = x: int | -0x8000_0000 <= x < 0x8000_0000

  /** Operating modes. `node_mode_id_t` is an enum, which avr-gcc stores as its
      16-bit `int`; `new_mode` is written from an inbound int32 payload without a
      range check, so a mode is any 16-bit value and only these three select a
      behaviour. */
  const SILENCE: int := 0
  const INTRUSION: int := 1
  const ALARM: int := 2

  /** Command ids. */
  const SET_MODE: int := 1
  const SET_LIGHT: int := 2
  const UPDATE_TEMPERATURE: int := 3

  /** Payload values of SET_LIGHT. */
  const LIGHT_OFF: int := 0
  const LIGHT_ON: int := 1

  /** A protocol message: source, the destinations `dest_array[0..dest_array_size)`,
      the command and its two payload values. */
  datatype Message = Message(source: NodeId, dests: seq<NodeId>, cmdId: int, value0: i32, value1: i32)

  /** The cast of an int32 payload to `node_mode_id_t`: the low 16 bits, read as a
      two's-complement value. */
  function ModeOf(v: i32): (mode: int)
    ensures -0x8000 <= mode < 0x8000
    ensures (mode - v) % 0x1_0000 == 0
  {
    var low := v % 0x1_0000;
    if low < 0x8000 then low else low - 0x1_0000
  }

  /** The cast keeps every 16-bit value, and nothing else: a payload outside that
      range lands on some other mode, 65537 on INTRUSION and -65536 on SILENCE. */
  lemma ModeOfNarrows(v: i32)
    ensures ModeOf(v) == v <==> -0x8000 <= v < 0x8000
    ensures ModeOf(65537) == INTRUSION && ModeOf(-65536) == SILENCE && ModeOf(0x1_0002) == ALARM
  {
  }

  /** The all-zero message that static storage holds before any producer fills a slot. */
  const ZeroMessage: Message := Message(0, [], 0, 0, 0)
}
