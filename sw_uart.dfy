/** The software UART transmitter on PD2: a byte is framed as a low start bit,
    eight data bits least significant first and a high stop bit, and the timer
    interrupt puts one bit on the pin every SW_UART_TIMER_SKIP_COUNT calls. */
module SwUart {
  import opened Common

  const SW_UART_TIMER_SKIP_COUNT: nat := 3
  const DATA_BITS: nat := 8

  /** The transmitter's variables: the two module statics and the four statics of
      the timer callback. */
  datatype TxState = TxState(
    buffer: byte,
    working: bool,
    startBit: bool,
    stopBit: bool,
    bitCount: nat,
    skip: nat)

  /** The states the callback can be found in: a start bit always begins with a
      clear stop flag, the stop flag is up exactly when all eight data bits are out,
      and an idle transmitter waits at the start of a frame with no skip pending. */
  predicate TxValid(s: TxState) {
    && s.bitCount <= DATA_BITS
    && s.skip < SW_UART_TIMER_SKIP_COUNT
    && (s.startBit ==> !s.stopBit)
    && (!s.startBit ==> (s.stopBit <==> s.bitCount == DATA_BITS))
    && (!s.working ==> s.startBit && s.skip == 0)
  }

  /** Bits of the current frame still to be put on the pin. */
  function BitsLeft(s: TxState): nat
    requires TxValid(s)
  {
    if s.startBit then DATA_BITS + 2
    else if s.stopBit then 1
    else DATA_BITS + 1 - s.bitCount
  }

  /** Callbacks until the transmitter is idle again. */
  function TicksLeft(s: TxState): nat
    requires TxValid(s)
  {
    if !s.working then 0 else BitsLeft(s) * SW_UART_TIMER_SKIP_COUNT - s.skip
  }

  /** Data bit `k` of `b`, the level it is sent as. */
  function DataBit(b: byte, k: nat): bool
    requires k < DATA_BITS
  {
    (b >> k) & 1 != 0
  }

  /** One timer callback: the next state and the pin level written, if any. It keeps
      the state valid, does nothing while idle, and otherwise spends exactly one of
      the ticks left. */
  function Step(s: TxState): (r: (TxState, Option<bool>))
    requires TxValid(s)
    ensures TxValid(r.0)
    ensures !s.working ==> r == (s, None)
    ensures s.working ==> TicksLeft(r.0) == TicksLeft(s) - 1
    ensures r.0.buffer == s.buffer
    ensures r.1.Some? <==> s.working && s.skip == SW_UART_TIMER_SKIP_COUNT - 1
  {
    if !s.working then (s, None)
    else if s.skip < SW_UART_TIMER_SKIP_COUNT - 1 then (s.(skip := s.skip + 1), None)
    else
      var t := s.(skip := 0);
      if t.startBit then
        (t.(startBit := false, stopBit := false, bitCount := 0), Some(false))
      else if t.stopBit then
        (t.(startBit := true, stopBit := false, working := false), Some(true))
      else
        var bit := DataBit(t.buffer, t.bitCount);
        var count := t.bitCount + 1;
        (t.(bitCount := count, stopBit := if count > DATA_BITS - 1 then true else t.stopBit), Some(bit))
  }

  function Emitted(o: Option<bool>): seq<bool> {
    if o.Some? then [o.value] else []
  }

  /** The levels the transmitter still puts on the pin before it is idle. */
  function Flush(s: TxState): (line: seq<bool>)
    requires TxValid(s)
    ensures !s.working ==> line == []
    decreases TicksLeft(s)
  {
    if !s.working then []
    else
      var r := Step(s);
      Emitted(r.1) + Flush(r.0)
  }

  /** The frame of `b` on the line. */
  function DataBits(b: byte): (bits: seq<bool>)
    ensures |bits| == DATA_BITS
    ensures forall k :: 0 <= k < DATA_BITS ==> bits[k] == DataBit(b, k)
  {
    seq(DATA_BITS, k requires 0 <= k < DATA_BITS => DataBit(b, k))
  }

  function Frame(b: byte): seq<bool> {
    [false] + DataBits(b) + [true]
  }

  /** The frames of `bytes`, one after another in array order. */
  function Frames(bytes: seq<byte>): (line: seq<bool>)
    ensures |line| == (DATA_BITS + 2) * |bytes|
  {
    if |bytes| == 0 then [] else Frames(bytes[..|bytes| - 1]) + Frame(bytes[|bytes| - 1])
  }

  lemma FramesSnoc(bytes: seq<byte>, i: nat)
    requires i < |bytes|
    ensures Frames(bytes[..i + 1]) == Frames(bytes[..i]) + Frame(bytes[i])
  {
    assert bytes[..i + 1][..i] == bytes[..i];
  }

  /** One callback's share of what a working transmitter still owes. */
  lemma FlushUnfold(s: TxState)
    requires TxValid(s) && s.working
    ensures Flush(s) == Emitted(Step(s).1) + Flush(Step(s).0)
  {
  }

  lemma AppendAssoc(a: seq<bool>, b: seq<bool>, c: seq<bool>)
    ensures a + b + c == a + (b + c)
  {
  }

  /** A receiver's reading of eight data bits sent least significant first. */
  function DecodeBits(bits: seq<bool>): byte
    requires |bits| == DATA_BITS
  {
    (if bits[0] then 0x01 else 0) | (if bits[1] then 0x02 else 0) |
    (if bits[2] then 0x04 else 0) | (if bits[3] then 0x08 else 0) |
    (if bits[4] then 0x10 else 0) | (if bits[5] then 0x20 else 0) |
    (if bits[6] then 0x40 else 0) | (if bits[7] then 0x80 else 0)
  }

  /** A frame is ten bits, framed low then high, and its data bits give the byte
      back. */
  lemma FrameRoundTrip(b: byte)
    ensures |Frame(b)| == DATA_BITS + 2
    ensures !Frame(b)[0] && Frame(b)[DATA_BITS + 1]
    ensures DecodeBits(Frame(b)[1..DATA_BITS + 1]) == b
  {
    assert Frame(b)[1..DATA_BITS + 1] == DataBits(b);
    var bits := DataBits(b);
    assert bits[0] == ((b >> 0) & 1 != 0) && bits[1] == ((b >> 1) & 1 != 0);
    assert bits[2] == ((b >> 2) & 1 != 0) && bits[3] == ((b >> 3) & 1 != 0);
    assert bits[4] == ((b >> 4) & 1 != 0) && bits[5] == ((b >> 5) & 1 != 0);
    assert bits[6] == ((b >> 6) & 1 != 0) && bits[7] == ((b >> 7) & 1 != 0);
  }

  /** About to send data bit `k` (or, for k == 8, the stop bit), no skip pending. */
  function DataState(b: byte, k: nat): (s: TxState)
    requires k <= DATA_BITS
    ensures TxValid(s)
  {
    TxState(b, true, false, k == DATA_BITS, k, 0)
  }

  /** One pacing period: two silent callbacks, then a bit. */
  lemma FlushPeriod(s: TxState)
    requires TxValid(s) && s.working && s.skip == 0
    ensures Flush(s) == Emitted(Step(s.(skip := SW_UART_TIMER_SKIP_COUNT - 1)).1) +
                        Flush(Step(s.(skip := SW_UART_TIMER_SKIP_COUNT - 1)).0)
  {
    var s1 := s.(skip := 1);
    var s2 := s.(skip := 2);
    assert Step(s) == (s1, None);
    assert Flush(s) == Flush(s1);
    assert Step(s1) == (s2, None);
    assert Flush(s1) == Flush(s2);
  }

  lemma {:induction false} FlushData(b: byte, k: nat)
    requires k <= DATA_BITS
    ensures Flush(DataState(b, k)) == DataBits(b)[k..] + [true]
    decreases DATA_BITS - k
  {
    var s := DataState(b, k);
    FlushPeriod(s);
    var r := Step(s.(skip := SW_UART_TIMER_SKIP_COUNT - 1));
    if k == DATA_BITS {
      assert r == (s.(skip := 0, startBit := true, stopBit := false, working := false), Some(true));
    } else {
      assert r == (DataState(b, k + 1), Some(DataBit(b, k)));
      FlushData(b, k + 1);
      assert DataBits(b)[k..] == [DataBit(b, k)] + DataBits(b)[k + 1..];
    }
  }

  /** A byte just loaded into an idle transmitter: after exactly thirty callbacks
      its frame is on the line and the transmitter is idle. */
  function Loaded(b: byte, count: nat): (s: TxState)
    requires count <= DATA_BITS
    ensures TxValid(s)
  {
    TxState(b, true, true, false, count, 0)
  }

  lemma FlushLoaded(b: byte, count: nat)
    requires count <= DATA_BITS
    ensures Flush(Loaded(b, count)) == Frame(b)
    ensures TicksLeft(Loaded(b, count)) == (DATA_BITS + 2) * SW_UART_TIMER_SKIP_COUNT
  {
    var s := Loaded(b, count);
    FlushPeriod(s);
    assert Step(s.(skip := SW_UART_TIMER_SKIP_COUNT - 1)) == (DataState(b, 0), Some(false));
    FlushData(b, 0);
  }

  class Transmitter {
    var txBuffer: byte
    var isTxWorking: bool
    var isStartBit: bool
    var isStopBit: bool
    var dataBitCount: nat
    var skipCount: nat
    /** PORTD2 and DDRD2. */
    var txPinHigh: bool
    var txPinOutput: bool

    function State(): TxState
      reads this
    {
      TxState(txBuffer, isTxWorking, isStartBit, isStopBit, dataBitCount, skipCount)
    }

    predicate Valid()
      reads this
    {
      TxValid(State())
    }

    /** The callback statics at program start, then `sw_uart_init`: empty buffer,
        idle, the pin driven high as an output. */
    constructor ()
      ensures State() == TxState(0, false, true, false, 0, 0)
      ensures Valid() && txPinHigh && txPinOutput
    {
      isStartBit := true;
      isStopBit := false;
      dataBitCount := 0;
      skipCount := 0;
      txBuffer := 0;
      isTxWorking := false;
      txPinHigh := true;
      txPinOutput := true;
    }

    /** `sw_uart_init` again: it resets the two module statics and the pin only. */
    method Init()
      modifies this
      ensures State() == old(State()).(buffer := 0, working := false)
      ensures txPinHigh && txPinOutput
    {
      txBuffer := 0;
      isTxWorking := false;
      txPinHigh := true;
      txPinOutput := true;
    }

    /** `sw_uart_write_byte` once its wait for an idle transmitter is over. */
    method WriteByte(b: byte)
      requires !isTxWorking
      modifies this
      ensures State() == old(State()).(buffer := b, working := true)
      ensures txPinHigh == old(txPinHigh) && txPinOutput == old(txPinOutput)
    {
      txBuffer := b;
      isTxWorking := true;
    }

    /** `sw_uart_timer_callback`: the pin is written exactly when a bit is due. */
    method TimerCallback() returns (emit: Option<bool>)
      requires Valid()
      modifies this
      ensures Valid()
      ensures (State(), emit) == Step(old(State()))
      ensures txPinHigh == (if emit.Some? then emit.value else old(txPinHigh))
      ensures txPinOutput == old(txPinOutput)
    {
      emit := None;
      if isTxWorking {
        if skipCount < SW_UART_TIMER_SKIP_COUNT - 1 {
          skipCount := skipCount + 1;
          return;
        } else {
          skipCount := 0;
        }
        var isTxPinHigh := false;
        if isStartBit {
          isTxPinHigh := false;
          isStartBit := false;
          isStopBit := false;
          dataBitCount := 0;
        } else if isStopBit {
          isTxPinHigh := true;
          isStartBit := true;
          isStopBit := false;
          isTxWorking := false;
        } else {
          isTxPinHigh := DataBit(txBuffer, dataBitCount);
          dataBitCount := dataBitCount + 1;
          if dataBitCount > DATA_BITS - 1 {
            isStopBit := true;
          }
        }
        txPinHigh := isTxPinHigh;
        emit := Some(isTxPinHigh);
      }
    }

    /** The wait inside `sw_uart_write_byte`: timer callbacks run until the frame in
        flight is out; the levels they write are the ones it still owed. */
    method WaitIdle() returns (line: seq<bool>)
      requires Valid()
      modifies this
      ensures Valid() && !isTxWorking && txBuffer == old(txBuffer)
      ensures line == old(Flush(State()))
    {
      line := [];
      while isTxWorking
        invariant Valid() && txBuffer == old(txBuffer)
        invariant line + Flush(State()) == old(Flush(State()))
        decreases TicksLeft(State())
      {
        ghost var before := State();
        var emit := TimerCallback();
        FlushUnfold(before);
        AppendAssoc(line, Emitted(emit), Flush(State()));
        line := line + Emitted(emit);
      }
    }

    /** `sw_uart_write_byte` including its wait: the frame in flight is finished,
        then `b` is loaded and owes exactly its own frame. */
    method WaitAndWriteByte(b: byte) returns (drained: seq<bool>)
      requires Valid()
      modifies this
      ensures Valid() && isTxWorking && txBuffer == b
      ensures drained == old(Flush(State()))
      ensures Flush(State()) == Frame(b)
    {
      drained := WaitIdle();
      WriteByte(b);
      FlushLoaded(b, dataBitCount);
      assert State() == Loaded(b, dataBitCount);
    }

    /** `sw_uart_write_byte_array`: what it put on the line, followed by what the
        transmitter still owes when it returns, is the frame left in flight at the
        call followed by the frames of `bytes` in array order. */
    method WriteByteArray(bytes: seq<byte>) returns (line: seq<bool>)
      requires Valid()
      modifies this
      ensures Valid()
      ensures line + Flush(State()) == old(Flush(State())) + Frames(bytes)
    {
      line := [];
      ghost var owed := Flush(State());
      for i := 0 to |bytes|
        invariant Valid()
        invariant line + Flush(State()) == owed + Frames(bytes[..i])
      {
        var drained := WaitAndWriteByte(bytes[i]);
        var b := bytes[i];
        line := line + drained;
        assert line + Frame(b) == owed + Frames(bytes[..i]) + Frame(b);
        FramesSnoc(bytes, i);
        AppendAssoc(owed, Frames(bytes[..i]), Frame(b));
      }
      assert bytes[..|bytes|] == bytes;
    }
  }
}
