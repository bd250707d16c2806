/** The board control loop: the module statics of the node (the volatile timer
    counter and INT0 latch, the W5500 flag, the two state records, the TCP message
    and the client), boot, the atomic snapshot, the network stage with its inbound
    router and outbound flush, the light sensor and LED stages, the commit and the
    sleep decision. The board variant is B02. */
module Board {
  import opened Common
  import opened NodeTypes
  import opened CycleClock
  import opened BoardTypes
  import opened TcpClient
  import opened BoardB02

  /** A light sample is due once more than this many timer cycles have passed. */
  const LIGHT_SENSOR_CYCLE_COUNT: nat := 4
  /** An ADC reading above this means dark. */
  const LIGHT_SENSOR_DARK_THRESHOLD: nat := 100

  /** The timer-1 output channel that drives the status LED. */
  datatype TimerGpio = GpioA | GpioB

  // ----- Inbound router -----

  /** The three fields an inbound command may change. */
  datatype Commands = Commands(enable: bool, disable: bool, newMode: int)

  /** What a decoded message does to the pending commands of the node `id`: only a
      message naming `id` among its destinations has an effect; SET_LIGHT raises the
      enable or the disable flag for LIGHT_ON or LIGHT_OFF, SET_MODE stores its first
      value, cast to the 16-bit mode type, as the new mode unchecked, and nothing else
      changes anything. */
  function Dispatch(c: Commands, m: Message, id: NodeId): (d: Commands)
    ensures id !in m.dests ==> d == c
    ensures id in m.dests && m.cmdId == SET_LIGHT && m.value0 == LIGHT_ON ==> d == c.(enable := true)
    ensures id in m.dests && m.cmdId == SET_LIGHT && m.value0 == LIGHT_OFF ==> d == c.(disable := true)
    ensures id in m.dests && m.cmdId == SET_MODE ==> d == c.(newMode := ModeOf(m.value0))
    ensures d.enable != c.enable ==> id in m.dests && m.cmdId == SET_LIGHT && m.value0 == LIGHT_ON
    ensures d.disable != c.disable ==> id in m.dests && m.cmdId == SET_LIGHT && m.value0 == LIGHT_OFF
    ensures d.newMode != c.newMode ==> id in m.dests && m.cmdId == SET_MODE
    ensures (c.enable ==> d.enable) && (c.disable ==> d.disable)
  {
    if id !in m.dests then c
    else if m.cmdId == SET_LIGHT then
      if m.value0 == LIGHT_ON then c.(enable := true)
      else if m.value0 == LIGHT_OFF then c.(disable := true)
      else c
    else if m.cmdId == SET_MODE then c.(newMode := ModeOf(m.value0))
    else c
  }

  /** The router as a whole: an empty receive, or a message the deserialiser
      rejected, leaves the commands as they were. */
  function Route(c: Commands, size: nat, decoded: Option<Message>, id: NodeId): (d: Commands)
    ensures size == 0 || decoded.None? ==> d == c
    ensures size != 0 && decoded.Some? ==> d == Dispatch(c, decoded.value, id)
  {
    if size != 0 && decoded.Some? then Dispatch(c, decoded.value, id) else c
  }

  /** The destination scan of the network stage: a linear search of the destination
      array that stops at the first match. */
  method IsMessageForNode(dests: seq<NodeId>, id: NodeId) returns (found: bool)
    ensures found <==> id in dests
  {
    found := false;
    var i := 0;
    while i < |dests|
      invariant 0 <= i <= |dests|
      invariant id !in dests[..i]
    {
      if id == dests[i] {
        found := true;
        break;
      }
      i := i + 1;
    }
    assert found || dests[..i] == dests;
  }

  // ----- Outbound flush -----

  /** One slot's retry counter after a flush: a slot at the empty marker is not
      attempted, a delivered message empties its slot, a failed send counts one
      more attempt. */
  function FlushSlot(retry: nat, sent: bool): (r: nat)
    ensures MESSAGE_SEND_RETRY_COUNT <= retry ==> r == retry
    ensures retry < MESSAGE_SEND_RETRY_COUNT ==> r == if sent then MESSAGE_SEND_RETRY_COUNT else retry + 1
    ensures retry <= MESSAGE_SEND_RETRY_COUNT ==> r <= MESSAGE_SEND_RETRY_COUNT
    ensures retry < r
            || MESSAGE_SEND_RETRY_COUNT <= retry
  {
    if retry < MESSAGE_SEND_RETRY_COUNT then
      if sent then MESSAGE_SEND_RETRY_COUNT else retry + 1
    else retry
  }

  /** A slot's counter after `k` flushes whose sends all failed. */
  function FailedFlushes(retry: nat, k: nat): nat {
    if k == 0 then retry else FlushSlot(FailedFlushes(retry, k - 1), false)
  }

  /** A message is given up after a bounded number of failed sends: each failing
      flush counts one attempt until the counter reaches the empty marker, where
      the slot stays. In particular a freshly posted message (counter 0) is sent at
      most MESSAGE_SEND_RETRY_COUNT times. */
  lemma {:induction false} RetriesExhaust(retry: nat, k: nat)
    requires retry <= MESSAGE_SEND_RETRY_COUNT
    ensures FailedFlushes(retry, k) == if retry + k < MESSAGE_SEND_RETRY_COUNT then retry + k
                                       else MESSAGE_SEND_RETRY_COUNT
  {
    if k > 0 {
      RetriesExhaust(retry, k - 1);
    }
  }

  /** The last of the first `n` slots that a flush attempts, if any: the one whose
      text the TCP message keeps afterwards. */
  function LastAttempted(retries: seq<nat>, n: nat): (last: Option<nat>)
    requires n <= |retries|
    ensures last.Some? ==> last.value < n && retries[last.value] < MESSAGE_SEND_RETRY_COUNT
    ensures forall slot :: 0 <= slot < n && retries[slot] < MESSAGE_SEND_RETRY_COUNT ==>
      last.Some? && slot <= last.value
  {
    if n == 0 then None
    else if retries[n - 1] < MESSAGE_SEND_RETRY_COUNT then Some(n - 1)
    else LastAttempted(retries, n - 1)
  }

  /** The socket calls of a flush over the first `n` slots: each attempted slot's
      message is serialised and handed to one send attempt, in slot order. */
  function FlushCalls(messages: seq<Message>, retries: seq<nat>, n: nat, isConnected: bool,
                      sendStatus: nat -> int, serialise: Message -> seq<byte>): (calls: seq<SocketCall>)
    requires n <= |messages| && n <= |retries|
  {
    if n == 0 then []
    else
      FlushCalls(messages, retries, n - 1, isConnected, sendStatus, serialise) +
      if retries[n - 1] < MESSAGE_SEND_RETRY_COUNT
      then SendCalls(isConnected, sendStatus(n - 1), serialise(messages[n - 1])) else []
  }

  /** What a flush transmits: a text reaches `send` exactly when it is the serialised
      message of an attempted slot whose socket is past SYN_SENT, and only while the
      client is connected. */
  lemma {:induction false} FlushSends(messages: seq<Message>, retries: seq<nat>, n: nat, isConnected: bool,
                                      sendStatus: nat -> int, serialise: Message -> seq<byte>, d: seq<byte>)
    requires n <= |messages| && n <= |retries|
    ensures Send(d) in FlushCalls(messages, retries, n, isConnected, sendStatus, serialise) <==>
      isConnected && exists slot :: 0 <= slot < n && retries[slot] < MESSAGE_SEND_RETRY_COUNT &&
                                    sendStatus(slot) != SOCK_SYNSENT && d == serialise(messages[slot])
  {
    if n > 0 {
      FlushSends(messages, retries, n - 1, isConnected, sendStatus, serialise, d);
      var last := n - 1;
      if isConnected && retries[last] < MESSAGE_SEND_RETRY_COUNT &&
         sendStatus(last) != SOCK_SYNSENT && d == serialise(messages[last]) {
        assert Send(d) in SendCalls(isConnected, sendStatus(last), serialise(messages[last]));
      }
    }
  }

  /** The slots after the flush: every counter updated by its slot's outcome, the
      messages left in place, and the send flag lowered whatever the outcomes. */
  function Flushed(o: Outbox, isConnected: bool, sendStatus: nat -> int, sendResult: nat -> int): (p: Outbox)
    requires o.Valid()
    ensures p.Valid() && p.messages == o.messages && !p.isMsgToSend
    ensures forall slot :: 0 <= slot < BOARD_MSG_SIZE ==>
      p.retries[slot] == FlushSlot(o.retries[slot], SendSucceeds(isConnected, sendStatus(slot), sendResult(slot)))
  {
    var light := FlushSlot(o.retries[LIGHT_MSG], SendSucceeds(isConnected, sendStatus(LIGHT_MSG), sendResult(LIGHT_MSG)));
    var temperature := FlushSlot(o.retries[TEMPERATURE_MSG],
                                 SendSucceeds(isConnected, sendStatus(TEMPERATURE_MSG), sendResult(TEMPERATURE_MSG)));
    Outbox(o.messages, [light, temperature], false)
  }

  /** The serialiser's output fits the 128-character buffer with its terminator. */
  ghost predicate SerialiserFits(serialise: Message -> seq<byte>) {
    forall m :: |serialise(m)| < TCP_BUFFER_SIZE
  }

  /** The vendor results the network stage's socket calls return, as inputs: the
      socket interrupt register, the `recv` outcome, the deserialiser's verdict on
      the received text, the connect results, per slot the socket status and
      `send` result of its send attempt, and the serialiser. */
  datatype NetworkInputs = NetworkInputs(
    interruptKind: byte,
    received: RecvOutcome,
    decoded: Option<Message>,
    phyLink: int, socketStatus: int, disconnectResult: int, socketResult: int, connectResult: int,
    sendStatus: nat -> int,
    sendResult: nat -> int,
    serialise: Message -> seq<byte>)

  /** Whether a message is waiting when the network stage receives. */
  predicate MessageArrived(wasReceived: bool, isW5500Interrupt: bool, kind: byte) {
    wasReceived || (isW5500Interrupt && kind & SIK_RECEIVED != 0)
  }

  /** Whether the client is connected once the network stage has connected: the
      link must be up, and a connection that the interrupt check left alive is kept,
      otherwise a new one must open and connect. */
  predicate ConnectedAfter(wasConnected: bool, isW5500Interrupt: bool, net: NetworkInputs) {
    var alive := wasConnected && !(isW5500Interrupt && net.interruptKind & SIK_DISCONNECTED != 0);
    net.phyLink == PHY_LINK_ON &&
    (alive || (net.socketResult == W5500_SOCKET_NUMBER && net.connectResult == SOCK_OK))
  }

  // ----- Light sensor and LED -----

  /** The light sensor stage's decision, on the clamped baseline. */
  predicate IsMeasuringCycle(count: u16, baseline: u16, isLightOn: bool) {
    ElapsedSince(count, baseline) > LIGHT_SENSOR_CYCLE_COUNT && !isLightOn
  }

  datatype LightStep = LightStep(baseline: u16, isDark: bool, sampled: bool)

  /** The light sensor stage on values: a sample is taken iff more than
      LIGHT_SENSOR_CYCLE_COUNT cycles passed since the last one and the strip is
      dark (its own light would blind the sensor); a sample sets `is_dark` to "the
      reading is above the threshold" and restarts the baseline; otherwise only the
      wrap clamp touches the baseline. */
  function LightSensorStep(count: u16, baseline: u16, isLightOn: bool, isDark: bool, adc: u16): (r: LightStep)
    ensures r.sampled <==> ElapsedSince(count, baseline) > LIGHT_SENSOR_CYCLE_COUNT && !isLightOn
    ensures r.sampled ==> r.baseline == count && (r.isDark <==> adc > LIGHT_SENSOR_DARK_THRESHOLD)
    ensures !r.sampled ==> r.baseline == Clamp(count, baseline) && r.isDark == isDark
  {
    if IsMeasuringCycle(count, baseline, isLightOn) then
      LightStep(count, adc > LIGHT_SENSOR_DARK_THRESHOLD, true)
    else
      LightStep(Clamp(count, baseline), isDark, false)
  }

  /** Samples are spaced: after a sample at cycle `c`, no sample is taken at any
      cycle up to `c + LIGHT_SENSOR_CYCLE_COUNT`, and the first cycle after that
      takes one if the strip is off. */
  lemma LightSamplesSpaced(count: u16, baseline: u16, isDark: bool, adc: u16, later: u16, adc2: u16)
    requires LightSensorStep(count, baseline, false, isDark, adc).sampled
    requires count <= later
    ensures var r := LightSensorStep(count, baseline, false, isDark, adc);
      (later <= count + LIGHT_SENSOR_CYCLE_COUNT ==> !LightSensorStep(later, r.baseline, false, r.isDark, adc2).sampled) &&
      (later == count + LIGHT_SENSOR_CYCLE_COUNT + 1 ==> LightSensorStep(later, r.baseline, false, r.isDark, adc2).sampled)
  {
  }

  /** The channel the light sensor restarts the timer on after a sample. */
  function SensorGpio(currentMode: int): (g: TimerGpio)
    ensures g == GpioA <==> currentMode == SILENCE
  {
    if currentMode == SILENCE then GpioA else GpioB
  }

  /** The channel the LED stage restarts the timer on for a pending mode change. */
  function LedGpio(newMode: int): (g: TimerGpio)
    ensures g == GpioB <==> newMode == INTRUSION
  {
    if newMode == INTRUSION then GpioB else GpioA
  }

  /** The two stages choose the same channel in SILENCE and in INTRUSION but not in
      ALARM: a light sample in ALARM moves the LED to channel B, which the LED stage
      uses only for INTRUSION. */
  lemma ChannelChoices()
    ensures SensorGpio(SILENCE) == LedGpio(SILENCE) == GpioA
    ensures SensorGpio(INTRUSION) == LedGpio(INTRUSION) == GpioB
    ensures SensorGpio(ALARM) == GpioB && LedGpio(ALARM) == GpioA
  {
  }

  // ----- The board variant's stage on values -----

  /** What `board_b02_process` leaves: the variant's statics, the slots and the
      strip-lit flag. */
  datatype B02Outcome = B02Outcome(state: B02State, slots: Outbox, isLightOn: bool)

  /** The B02 stage on values, reading the cycle count, darkness, the current mode
      and the pending commands: the PIR latches are spent into the strip stage, the
      strip and temperature stages post their messages, the long-range PIR follows
      darkness, and the flag says whether the strip is lit. */
  function B02Step(st: B02State, count: u16, isDark: bool, currentMode: int, c: Commands,
                   slots: Outbox, reading: Option<Reading>): (r: B02Outcome)
    requires slots.Valid()
    ensures r.slots.Valid()
    ensures !r.state.isInt1Interrupt && !r.state.isPcint16Interrupt
    ensures r.state.isDoorPirInterrupt == st.isInt1Interrupt && r.state.isVerandaPirInterrupt == st.isPcint16Interrupt
    ensures r.isLightOn <==> r.state.currentLightColor != NoLight
    ensures c.disable || currentMode != c.newMode ==> !r.isLightOn
    ensures r.state.isLongRangePirEnabled == isDark
    ensures r.state.stripBaseline <= count && r.state.temperatureBaseline <= count
    ensures !slots.isMsgToSend && r.slots.isMsgToSend ==>
      exists slot :: 0 <= slot < BOARD_MSG_SIZE && r.slots.retries[slot] == 0
  {
    var o := StripStep(Strip(st.currentLightColor, st.stripBaseline),
                       StripView(count, isDark, currentMode, c.newMode, c.enable, c.disable,
                                 st.isInt1Interrupt, st.isPcint16Interrupt));
    var due := TemperatureDue(st.temperatureBaseline, count);
    PostedSlotIsFresh(slots, o.notify, due, reading);
    B02Outcome(B02State(false, false, st.isInt1Interrupt, st.isPcint16Interrupt,
                        o.strip.color, isDark, o.strip.baseline,
                        TemperatureBaseline(st.temperatureBaseline, count)),
               AfterTemperature(AfterStrip(slots, o.notify), due, reading),
               o.strip.color != NoLight)
  }

  /** The message size the receive stores: the received size when a message is
      waiting, 0 otherwise; it always leaves room for the terminator. */
  function StoredSize(wasReceived: bool, isW5500Interrupt: bool, net: NetworkInputs): (n: nat)
    requires RecvWithin(net.received, TCP_RECV_REQUEST)
    ensures n < TCP_BUFFER_SIZE
    ensures !MessageArrived(wasReceived, isW5500Interrupt, net.interruptKind) ==> n == 0
  {
    if MessageArrived(wasReceived, isW5500Interrupt, net.interruptKind) then ReceivedSize(net.received) else 0
  }

  /** The message size the network stage leaves: the serialised length of the last
      slot the flush attempted, or the stored receive size when none was attempted. */
  function SizeAfterFlush(size: nat, o: Outbox, serialise: Message -> seq<byte>): (n: nat)
    requires o.Valid()
    ensures size < TCP_BUFFER_SIZE && SerialiserFits(serialise) ==> n < TCP_BUFFER_SIZE
    ensures (forall slot :: 0 <= slot < BOARD_MSG_SIZE ==> o.retries[slot] == MESSAGE_SEND_RETRY_COUNT) ==> n == size
  {
    match LastAttempted(o.retries, BOARD_MSG_SIZE)
    case None => size
    case Some(slot) => |serialise(o.messages[slot])|
  }

  // ----- The sleep decision -----

  /** The CPU may sleep only while nothing is left to send and neither the W5500
      nor the board variant has latched an interrupt. */
  predicate MaySleep(isMsgToSend: bool, isInt0Interrupt: bool, isExtraInterrupt: bool) {
    !isMsgToSend && !isInt0Interrupt && !isExtraInterrupt
  }

  /** The extra state as boot leaves it: static zeroed storage, then the loop that
      marks every slot empty, and both flags cleared. */
  method BootExtraState() returns (extra: ExtraState)
    ensures fresh(extra) && fresh(extra.sendMsgArray) && fresh(extra.sendMsgRetryCount)
    ensures extra.Valid()
    ensures extra.sendMsgArray[..] == [ZeroMessage, ZeroMessage]
    ensures extra.sendMsgRetryCount[..] == [MESSAGE_SEND_RETRY_COUNT, MESSAGE_SEND_RETRY_COUNT]
    ensures !extra.isMsgToSend && !extra.isLightOn
  {
    extra := new ExtraState();
    for i := 0 to extra.sendMsgRetryCount.Length
      invariant forall j :: 0 <= j < i ==> extra.sendMsgRetryCount[j] == MESSAGE_SEND_RETRY_COUNT
      invariant extra.sendMsgArray[..] == [ZeroMessage, ZeroMessage]
    {
      extra.sendMsgRetryCount[i] := MESSAGE_SEND_RETRY_COUNT;
    }
    assert extra.sendMsgRetryCount[..] == [MESSAGE_SEND_RETRY_COUNT, MESSAGE_SEND_RETRY_COUNT];
    extra.isMsgToSend := false;
    extra.isLightOn := false;
  }

  class Node {
    /** Volatile: incremented by the timer-1 overflow interrupt. */
    var timer1OverflowCount: u16
    /** Volatile: set by the INT0 (W5500) interrupt. */
    var isInt0Interrupt: bool
    /** The INT0 latch as snapshotted for the current iteration. */
    var isW5500Interrupt: bool
    /** The light sensor's baseline (its function-local static). */
    var lightBaseline: u16
    /** The channel the running timer drives. */
    var timerGpio: TimerGpio
    const nodeId: NodeId
    const basic: BasicState
    const extra: ExtraState
    const msg: TcpMessage
    const client: Client
    const b02: B02

    ghost predicate Valid()
      reads extra, extra.sendMsgArray, extra.sendMsgRetryCount, msg, b02, b02.portD, b02.portD.configArray
    {
      nodeId == NODE_B02 && extra.Valid() && msg.buffer.Length == TCP_BUFFER_SIZE && b02.Valid()
    }

    /** The send flag is raised only while some slot holds a freshly posted message. */
    ghost predicate SendFlagBacked()
      reads extra, extra.sendMsgRetryCount
    {
      extra.isMsgToSend ==> exists slot :: 0 <= slot < extra.sendMsgRetryCount.Length && extra.sendMsgRetryCount[slot] == 0
    }

    /** The TCP message holds `text`, terminated, as its contents and size. */
    ghost predicate Carries(text: seq<byte>)
      reads msg, msg.buffer
    {
      msg.size == |text| && |text| < msg.buffer.Length && msg.buffer[..msg.size + 1] == text + [0]
    }

    function Pending(): (c: Commands)
      reads basic
    {
      Commands(basic.isEnableLightCommand, basic.isDisableLightCommand, basic.newMode)
    }

    /** `board_init`: counters and latches cleared, not dark, no command pending,
        every outbound slot marked empty, nothing to send, the strip off, an empty
        TCP message, the client and the B02 variant initialised, and the timer
        started on channel A. */
    constructor ()
      ensures Valid()
      ensures timer1OverflowCount == 0 && !isInt0Interrupt && !isW5500Interrupt
      ensures lightBaseline == 0 && timerGpio == GpioA
      ensures basic.globalCycleCount == 0 && !basic.isDark
      ensures basic.currentMode == SILENCE && Pending() == Commands(false, false, SILENCE)
      ensures extra.sendMsgRetryCount[..] == [MESSAGE_SEND_RETRY_COUNT, MESSAGE_SEND_RETRY_COUNT]
      ensures forall slot :: 0 <= slot < BOARD_MSG_SIZE ==> !extra.IsPending(slot)
      ensures !extra.isMsgToSend && !extra.isLightOn
      ensures msg.size == 0 && !client.isConnected && !client.isMessageReceived
      ensures b02.State() == B02State(false, false, false, false, NoLight, false, 0, 0)
      ensures fresh(basic) && fresh(extra) && fresh(extra.sendMsgArray) && fresh(extra.sendMsgRetryCount)
      ensures fresh(msg) && fresh(msg.buffer) && fresh(client) && fresh(b02)
    {
      var bootExtra := BootExtraState();
      timer1OverflowCount := 0;
      isInt0Interrupt := false;
      isW5500Interrupt := false;
      lightBaseline := 0;
      nodeId := NODE_B02;
      basic := new BasicState();
      extra := bootExtra;
      msg := new TcpMessage();
      client := new Client();
      b02 := new B02();
      timerGpio := GpioA;
    }

    /** `board_timer1_overflow_ISR`: one more cycle on the wrapping counter. */
    method TimerOverflowIsr()
      modifies this`timer1OverflowCount
      ensures timer1OverflowCount == Tick(old(timer1OverflowCount))
    {
      timer1OverflowCount := Tick(timer1OverflowCount);
    }

    /** `board_int_0_ISR`: latch the W5500 interrupt. */
    method Int0Isr()
      modifies this`isInt0Interrupt
      ensures isInt0Interrupt
    {
      isInt0Interrupt := true;
    }

    /** The atomic block at the top of each iteration: the cycle count is taken from
        the overflow counter and the INT0 latch is moved into the W5500 flag. */
    method Snapshot()
      modifies basic`globalCycleCount, this`isW5500Interrupt, this`isInt0Interrupt
      ensures basic.globalCycleCount == timer1OverflowCount
      ensures isW5500Interrupt == old(isInt0Interrupt) && !isInt0Interrupt
    {
      basic.globalCycleCount := timer1OverflowCount;
      isW5500Interrupt := isInt0Interrupt;
      isInt0Interrupt := false;
    }

    /** The first part of the network stage: the socket interrupts are checked only
        while the W5500 flag is set, then a pending message is received. */
    method ReceiveStage(net: NetworkInputs)
      requires msg.buffer.Length == TCP_BUFFER_SIZE
      requires RecvWithin(net.received, TCP_RECV_REQUEST)
      modifies client, msg, msg.buffer
      ensures !client.isMessageReceived
      ensures client.isConnected ==
        (old(client.isConnected) && !(isW5500Interrupt && net.interruptKind & SIK_DISCONNECTED != 0))
      ensures msg.size == if MessageArrived(old(client.isMessageReceived), isW5500Interrupt, net.interruptKind)
                          then ReceivedSize(net.received) else 0
    {
      if isW5500Interrupt {
        var _ := client.CheckInterrupts(net.interruptKind);
      }
      var _ := client.ReceiveMessage(msg, net.received);
    }

    /** The inbound router: a non-empty message the deserialiser accepted is
        dispatched if it names this node among its destinations. */
    method RouteMessage(decoded: Option<Message>)
      modifies basic`isEnableLightCommand, basic`isDisableLightCommand, basic`newMode
      ensures Pending() == Route(old(Pending()), msg.size, decoded, nodeId)
    {
      if msg.size != 0 && decoded.Some? {
        var m := decoded.value;
        var isForThisNode := IsMessageForNode(m.dests, nodeId);
        if isForThisNode {
          if m.cmdId == SET_LIGHT {
            if m.value0 == LIGHT_ON {
              basic.isEnableLightCommand := true;
            } else if m.value0 == LIGHT_OFF {
              basic.isDisableLightCommand := true;
            }
          } else if m.cmdId == SET_MODE {
            basic.newMode := ModeOf(m.value0);
          }
        }
      }
    }

    /** One attempted slot of the flush: its message is serialised into the TCP
        message, sent, and its counter updated by the outcome. */
    method SendSlot(i: nat, sendStatus: nat -> int, sendResult: nat -> int, serialise: Message -> seq<byte>)
      returns (calls: seq<SocketCall>)
      requires extra.Valid() && i < BOARD_MSG_SIZE && msg.buffer.Length == TCP_BUFFER_SIZE
      requires SerialiserFits(serialise) && extra.sendMsgRetryCount[i] < MESSAGE_SEND_RETRY_COUNT
      modifies extra.sendMsgRetryCount, msg, msg.buffer
      ensures extra.Valid()
      ensures extra.sendMsgRetryCount[i] ==
        FlushSlot(old(extra.sendMsgRetryCount[i]), SendSucceeds(client.isConnected, sendStatus(i), sendResult(i)))
      ensures forall slot :: 0 <= slot < BOARD_MSG_SIZE && slot != i ==>
        extra.sendMsgRetryCount[slot] == old(extra.sendMsgRetryCount[slot])
      ensures calls == SendCalls(client.isConnected, sendStatus(i), serialise(extra.sendMsgArray[i]))
      ensures Carries(serialise(extra.sendMsgArray[i]))
    {
      var text := serialise(extra.sendMsgArray[i]);
      StoreTerminated(msg.buffer, text);
      msg.size := |text|;
      assert msg.buffer[..msg.size] == text;
      var ok;
      ok, calls := client.SendMessage(msg, sendStatus(i), sendResult(i));
      if !ok {
        extra.sendMsgRetryCount[i] := extra.sendMsgRetryCount[i] + 1;
      } else {
        extra.sendMsgRetryCount[i] := MESSAGE_SEND_RETRY_COUNT;
      }
    }

    /** The flush loop: every slot below the empty marker is serialised into the
        TCP message and sent once, in slot order, and its counter is updated by the
        outcome; `calls` are the socket calls made. The message keeps the last text
        serialised. */
    method FlushOutbox(sendStatus: nat -> int, sendResult: nat -> int, serialise: Message -> seq<byte>)
      returns (calls: seq<SocketCall>)
      requires extra.Valid() && msg.buffer.Length == TCP_BUFFER_SIZE
      requires SerialiserFits(serialise)
      modifies extra.sendMsgRetryCount, msg, msg.buffer
      ensures extra.Valid()
      ensures forall slot :: 0 <= slot < BOARD_MSG_SIZE ==>
        extra.sendMsgRetryCount[slot] ==
          FlushSlot(old(extra.sendMsgRetryCount[slot]),
                    SendSucceeds(client.isConnected, sendStatus(slot), sendResult(slot)))
      ensures calls == FlushCalls(extra.sendMsgArray[..], old(extra.sendMsgRetryCount[..]), BOARD_MSG_SIZE,
                                  client.isConnected, sendStatus, serialise)
      ensures msg.size == match LastAttempted(old(extra.sendMsgRetryCount[..]), BOARD_MSG_SIZE)
                          case None => old(msg.size)
                          case Some(slot) => |serialise(extra.sendMsgArray[slot])|
      ensures forall slot :: LastAttempted(old(extra.sendMsgRetryCount[..]), BOARD_MSG_SIZE) == Some(slot) ==>
        Carries(serialise(extra.sendMsgArray[slot]))
    {
      calls := [];
      ghost var retries, messages := extra.sendMsgRetryCount[..], extra.sendMsgArray[..];
      for i := 0 to extra.sendMsgRetryCount.Length
        invariant extra.Valid()
        invariant forall slot :: 0 <= slot < i ==>
          extra.sendMsgRetryCount[slot] ==
            FlushSlot(retries[slot], SendSucceeds(client.isConnected, sendStatus(slot), sendResult(slot)))
        invariant forall slot :: i <= slot < BOARD_MSG_SIZE ==> extra.sendMsgRetryCount[slot] == retries[slot]
        invariant calls == FlushCalls(messages, retries, i, client.isConnected, sendStatus, serialise)
        invariant msg.size == match LastAttempted(retries, i)
                              case None => old(msg.size)
                              case Some(slot) => |serialise(messages[slot])|
        invariant forall slot :: LastAttempted(retries, i) == Some(slot) ==> Carries(serialise(messages[slot]))
      {
        if extra.sendMsgRetryCount[i] < MESSAGE_SEND_RETRY_COUNT {
          var sent := SendSlot(i, sendStatus, sendResult, serialise);
          assert extra.sendMsgArray[i] == messages[i];
          calls := calls + sent;
        }
      }
    }

    /** `board_process_tcp_client`: interrupts, receive, route, connect, flush; the
        send flag is cleared whatever the outcomes. `flushCalls` are the socket
        calls of the flush. */
    method ProcessTcpClient(net: NetworkInputs) returns (flushCalls: seq<SocketCall>)
      requires Valid()
      requires RecvWithin(net.received, TCP_RECV_REQUEST) && SerialiserFits(net.serialise)
      modifies basic`isEnableLightCommand, basic`isDisableLightCommand, basic`newMode
      modifies client, msg, msg.buffer, extra`isMsgToSend, extra.sendMsgRetryCount
      ensures Valid() && !client.isMessageReceived
      ensures var size := StoredSize(old(client.isMessageReceived), isW5500Interrupt, net);
        Pending() == Route(old(Pending()), size, net.decoded, nodeId) &&
        msg.size == SizeAfterFlush(size, old(extra.Slots()), net.serialise)
      ensures client.isConnected == ConnectedAfter(old(client.isConnected), isW5500Interrupt, net)
      ensures extra.Slots() == Flushed(old(extra.Slots()), client.isConnected, net.sendStatus, net.sendResult)
      ensures flushCalls == FlushCalls(extra.sendMsgArray[..], old(extra.sendMsgRetryCount[..]), BOARD_MSG_SIZE,
                                       client.isConnected, net.sendStatus, net.serialise)
    {
      ReceiveStage(net);
      RouteMessage(net.decoded);
      var _, _ := client.Connect(net.phyLink, net.socketStatus, net.disconnectResult,
                                 net.socketResult, net.connectResult);
      flushCalls := FlushOutbox(net.sendStatus, net.sendResult, net.serialise);
      extra.isMsgToSend := false;
      assert extra.sendMsgRetryCount[..] ==
        Flushed(old(extra.Slots()), client.isConnected, net.sendStatus, net.sendResult).retries;
    }

    /** The board variant's stage: its statics, the slots and the strip-lit flag
        follow `B02Step` on the basic state; run while the send flag is down, it
        raises the flag only with a freshly posted slot. */
    method ProcessBoard(reading: Option<Reading>)
      requires Valid()
      modifies extra, extra.sendMsgArray, extra.sendMsgRetryCount, b02
      ensures Valid() && !b02.IsInterrupt()
      ensures B02Outcome(b02.State(), extra.Slots(), extra.isLightOn) ==
        B02Step(old(b02.State()), basic.globalCycleCount, basic.isDark, basic.currentMode, Pending(),
                old(extra.Slots()), reading)
      ensures !old(extra.isMsgToSend) ==> SendFlagBacked()
    {
      var _ := b02.Process(basic, extra, reading);
    }

    /** `board_process_light_sensor` with the ADC reading as input (read only when
        a sample is taken); a sample restarts the timer on the channel of the
        current mode. */
    method ProcessLightSensor(adc: u16) returns (sampled: bool)
      modifies this`lightBaseline, this`timerGpio, basic`isDark
      ensures LightStep(lightBaseline, basic.isDark, sampled) ==
        LightSensorStep(basic.globalCycleCount, old(lightBaseline), extra.isLightOn, old(basic.isDark), adc)
      ensures timerGpio == if sampled then SensorGpio(basic.currentMode) else old(timerGpio)
    {
      if basic.globalCycleCount < lightBaseline {
        lightBaseline := basic.globalCycleCount;
      }
      sampled := basic.globalCycleCount - lightBaseline > LIGHT_SENSOR_CYCLE_COUNT && !extra.isLightOn;
      if sampled {
        if basic.currentMode == SILENCE {
          timerGpio := GpioA;
        } else {
          timerGpio := GpioB;
        }
        basic.isDark := adc > LIGHT_SENSOR_DARK_THRESHOLD;
        lightBaseline := basic.globalCycleCount;
      }
    }

    /** `board_process_led`: a pending mode change restarts the timer on the
        channel of the new mode. */
    method ProcessLed()
      modifies this`timerGpio
      ensures timerGpio == if basic.currentMode != basic.newMode then LedGpio(basic.newMode) else old(timerGpio)
    {
      if basic.currentMode != basic.newMode {
        if basic.newMode == INTRUSION {
          timerGpio := GpioB;
        } else {
          timerGpio := GpioA;
        }
      }
    }

    /** The end of an iteration: the new mode takes effect and the one-shot
        commands are spent. */
    method Commit()
      modifies basic`currentMode, basic`isEnableLightCommand, basic`isDisableLightCommand
      ensures basic.currentMode == basic.newMode
      ensures !basic.isEnableLightCommand && !basic.isDisableLightCommand
    {
      basic.currentMode := basic.newMode;
      basic.isEnableLightCommand := false;
      basic.isDisableLightCommand := false;
    }

    /** The sleep decision; the variant's latches are consulted only when nothing
        is left to send. */
    method SleepDecision() returns (sleeps: bool)
      ensures sleeps == MaySleep(extra.isMsgToSend, isInt0Interrupt, b02.IsInterrupt())
    {
      sleeps := false;
      if !extra.isMsgToSend {
        var isExtraInterrupt := b02.IsInterrupt();
        var isInterrupt := isInt0Interrupt || isExtraInterrupt;
        sleeps := !isInterrupt;
      }
    }

    /** The first half of an iteration: the snapshot, then the network and the
        board variant's stages. */
    method SnapshotAndExchange(net: NetworkInputs, reading: Option<Reading>) returns (flushCalls: seq<SocketCall>)
      requires Valid()
      requires RecvWithin(net.received, TCP_RECV_REQUEST) && SerialiserFits(net.serialise)
      modifies this`isInt0Interrupt, this`isW5500Interrupt
      modifies basic`globalCycleCount, basic`isEnableLightCommand, basic`isDisableLightCommand, basic`newMode
      modifies extra, extra.sendMsgArray, extra.sendMsgRetryCount, client, msg, msg.buffer, b02
      ensures Valid() && SendFlagBacked() && !b02.IsInterrupt()
      ensures basic.globalCycleCount == old(timer1OverflowCount)
      ensures isW5500Interrupt == old(isInt0Interrupt) && !isInt0Interrupt
      ensures basic.isDark == old(basic.isDark) && basic.currentMode == old(basic.currentMode)
      ensures var size := StoredSize(old(client.isMessageReceived), old(isInt0Interrupt), net);
        var c := Route(old(Pending()), size, net.decoded, nodeId);
        var connected := ConnectedAfter(old(client.isConnected), old(isInt0Interrupt), net);
        Pending() == c && client.isConnected == connected && !client.isMessageReceived &&
        msg.size == SizeAfterFlush(size, old(extra.Slots()), net.serialise) &&
        B02Outcome(b02.State(), extra.Slots(), extra.isLightOn) ==
          B02Step(old(b02.State()), old(timer1OverflowCount), basic.isDark, basic.currentMode, c,
                  Flushed(old(extra.Slots()), connected, net.sendStatus, net.sendResult), reading)
      ensures flushCalls == FlushCalls(old(extra.sendMsgArray[..]), old(extra.sendMsgRetryCount[..]), BOARD_MSG_SIZE,
                                       client.isConnected, net.sendStatus, net.serialise)
    {
      Snapshot();
      flushCalls := ProcessTcpClient(net);
      ProcessBoard(reading);
    }

    /** The second half of an iteration: the light sensor and LED stages, the
        commit and the sleep decision. The LED stage's channel wins over the light
        sensor's whenever a mode change is pending. */
    method FinishIteration(adc: u16) returns (sleeps: bool)
      requires Valid() && SendFlagBacked() && !b02.IsInterrupt() && !isInt0Interrupt
      modifies this`lightBaseline, this`timerGpio
      modifies basic`isDark, basic`currentMode, basic`isEnableLightCommand, basic`isDisableLightCommand
      ensures Valid() && SendFlagBacked()
      ensures var ls := LightSensorStep(basic.globalCycleCount, old(lightBaseline), extra.isLightOn, old(basic.isDark), adc);
        lightBaseline == ls.baseline && basic.isDark == ls.isDark &&
        timerGpio == if old(basic.currentMode) != basic.newMode then LedGpio(basic.newMode)
                     else if ls.sampled then SensorGpio(old(basic.currentMode)) else old(timerGpio)
      ensures basic.currentMode == basic.newMode && !basic.isEnableLightCommand && !basic.isDisableLightCommand
      ensures sleeps <==> !extra.isMsgToSend
    {
      var _ := ProcessLightSensor(adc);
      ProcessLed();
      Commit();
      sleeps := SleepDecision();
    }

    /** One pass of `board_launch`, with no interrupt arriving during it: snapshot,
        network, B02, light sensor, LED, commit, sleep decision. The new state is
        stated in terms of the old one and the inputs: the commands the router
        derived from the received message take effect, the slots are flushed and
        then fed by the B02 stage, the light sensor samples on the strip as B02
        left it. The iteration keeps the node valid (so no retry counter passes the
        empty marker), leaves the send flag raised only for a message the B02 stage
        posted in this pass, and sleeps exactly when no such message is waiting. */
    method Iterate(net: NetworkInputs, reading: Option<Reading>, adc: u16) returns (sleeps: bool, flushCalls: seq<SocketCall>)
      requires Valid()
      requires RecvWithin(net.received, TCP_RECV_REQUEST) && SerialiserFits(net.serialise)
      modifies this`isInt0Interrupt, this`isW5500Interrupt, this`lightBaseline, this`timerGpio
      modifies basic, extra, extra.sendMsgArray, extra.sendMsgRetryCount, client, msg, msg.buffer, b02
      ensures Valid() && SendFlagBacked()
      ensures timer1OverflowCount == old(timer1OverflowCount)
      ensures basic.globalCycleCount == old(timer1OverflowCount)
      ensures isW5500Interrupt == old(isInt0Interrupt) && !isInt0Interrupt
      ensures var size := StoredSize(old(client.isMessageReceived), old(isInt0Interrupt), net);
        var c := Route(old(Pending()), size, net.decoded, nodeId);
        basic.currentMode == c.newMode && basic.newMode == c.newMode &&
        !basic.isEnableLightCommand && !basic.isDisableLightCommand &&
        msg.size == SizeAfterFlush(size, old(extra.Slots()), net.serialise)
      ensures client.isConnected == ConnectedAfter(old(client.isConnected), old(isInt0Interrupt), net)
      ensures !client.isMessageReceived
      ensures var c := Route(old(Pending()), StoredSize(old(client.isMessageReceived), old(isInt0Interrupt), net), net.decoded, nodeId);
        var connected := ConnectedAfter(old(client.isConnected), old(isInt0Interrupt), net);
        var b := B02Step(old(b02.State()), old(timer1OverflowCount), old(basic.isDark), old(basic.currentMode), c,
                         Flushed(old(extra.Slots()), connected, net.sendStatus, net.sendResult), reading);
        var ls := LightSensorStep(old(timer1OverflowCount), old(lightBaseline), b.isLightOn, old(basic.isDark), adc);
        B02Outcome(b02.State(), extra.Slots(), extra.isLightOn) == b &&
        lightBaseline == ls.baseline && basic.isDark == ls.isDark &&
        timerGpio == if old(basic.currentMode) != c.newMode then LedGpio(c.newMode)
                     else if ls.sampled then SensorGpio(old(basic.currentMode)) else old(timerGpio)
      ensures flushCalls == FlushCalls(old(extra.sendMsgArray[..]), old(extra.sendMsgRetryCount[..]), BOARD_MSG_SIZE,
                                       client.isConnected, net.sendStatus, net.serialise)
      ensures sleeps <==> !extra.isMsgToSend
    {
      flushCalls := SnapshotAndExchange(net, reading);
      sleeps := FinishIteration(adc);
    }
  }

  /** After a network stage (send flag down) the B02 stage raises the flag only by
      posting, and a posted slot's counter is 0. */
  lemma PostedSlotIsFresh(o: Outbox, notify: Option<seq<NodeId>>, due: bool, reading: Option<Reading>)
    requires o.Valid()
    ensures var p := AfterTemperature(AfterStrip(o, notify), due, reading);
      !o.isMsgToSend && p.isMsgToSend ==> exists slot :: 0 <= slot < BOARD_MSG_SIZE && p.retries[slot] == 0
  {
    var p := AfterTemperature(AfterStrip(o, notify), due, reading);
    if due && reading.Some? {
      assert p.retries[TEMPERATURE_MSG] == 0;
    } else if notify.Some? {
      assert p.retries[LIGHT_MSG] == 0;
    }
  }
}
