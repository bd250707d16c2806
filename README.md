# avr-node control core in Dafny

This project models the ATmega328P firmware of an avr-node home-automation node.
It covers:

- the board control loop (`src/board.c`);
- the B02 board variant's light-strip, temperature and PIR logic (`src/board_b02.c`);
- the TCP client's connection state over the W5500 socket (`src/tcp_client.c`);
- the drivers that do real computation: the software UART transmitter, the
  hardware UART's divisor and receive buffer, the I2C master transactions, and
  the pin-change interrupt registries of ports B, C and D.

Stateful code is modelled as classes whose fields are the C module statics. Each
method states the new state in terms of the old one. Pure decision logic is
modelled as functions with lemmas about them.

Results the core gets from code outside this model are explicit inputs:

- the vendor socket calls' result codes;
- the received bytes;
- the deserialised message;
- the BMP280 reading;
- the ADC value;
- the TWI status and data registers;
- the level of the port's PIN register.

Modules, one per source unit:

- `Common`: byte and 16-bit types, `Option`, register bits as `seq<bool>`.
- `NodeTypes`: messages, node ids, modes and commands.
- `CycleClock`: the wrapping timer-1 overflow counter and the per-consumer baseline clamp.
- `BoardTypes`: `board_basic_state_t`, `board_extra_state_t` and the outbound slots.
- `Board`: `board.c`.
- `BoardB02`: `board_b02.c`.
- `TcpClient`: `tcp_client.c`.
- `SwUart`: `mcu/sw_uart.c`.
- `Uart`: `mcu/uart.c`.
- `I2c`: `mcu/i2c.c`.
- `PinChange`: the dispatch rule shared by the three pin-change drivers.
- `Pcint`: the registry class, instantiated by port layout for `mcu/pcint_b.c`, `mcu/pcint_c.c` and `mcu/pcint_d.c`.

## Model

| member | source | states |
|---|---|---|
| CycleClock.Tick | src/board.c:451-456 | the overflow counter steps by one and wraps from 65535 to 0 (16-bit `size_t`) |
| CycleClock.Clamp | src/board_b02.c:199-202 | a counter seen below the baseline pulls the baseline down to it; the result never exceeds either and is one of them |
| CycleClock.ElapsedSince | src/board.c:384-391 | the cycles since a baseline never underflow: the true difference when the baseline is not ahead, and 0 after a wrap |
| BoardTypes.Post | src/board_b02.c:254-271 | posting a message writes the slot, re-arms only that slot's retry counter to 0, raises the send flag, and keeps every counter within the empty marker |
| BoardTypes.ExtraState.PostMessage | src/board_b02.c:267-270 | the in-place slot writes equal `Post` on the slot snapshot, and `is_light_on` is untouched |
| BoardTypes.ExtraState.constructor | src/board.types.h:34-41 | static storage: zeroed messages and counters, both flags false |
| BoardTypes.BasicState.constructor | src/board.types.h:13-24 | counter 0, not dark, both modes SILENCE, no one-shot command |
| NodeTypes.ModeOf | src/board.c:342 | the cast of the int32 payload to the 16-bit `node_mode_id_t`: a value in -32768..32767 that agrees with the payload modulo 2^16 |
| NodeTypes.ModeOfNarrows | src/board.c:342 | the cast is the identity exactly on 16-bit values; 65537 lands on INTRUSION, 65538 on ALARM and -65536 on SILENCE |
| Board.Dispatch | src/board.c:327-343 | a message not addressed to the node changes nothing; SET_LIGHT/LIGHT_ON raises only the enable flag, LIGHT_OFF only the disable flag, SET_MODE stores `value_0` cast to the mode type (`ModeOf`) without a range check; every change has exactly that cause; raised flags stay raised |
| Board.Route | src/board.c:303-344 | an empty receive or a failed decode leaves the commands alone; otherwise the decoded message is dispatched |
| Board.IsMessageForNode | src/board.c:315-325 | the destination scan finds the node iff it occurs in the destination list |
| Board.FlushSlot | src/board.c:355-374 | a slot at the empty marker is not touched; a successful send empties the slot, a failed one counts one more retry; the bound is preserved and the counter strictly grows while below it |
| Board.RetriesExhaust | src/board.c:355-374 | after k failed flushes a counter is min(retry + k, MESSAGE_SEND_RETRY_COUNT): every message is abandoned after at most four failed sends |
| Board.LastAttempted | src/board.c:355-374 | the last slot below the empty marker among the first n, if any: every attempted slot lies at or before it |
| Board.FlushSends | src/board.c:355-374 | a text reaches `send` in a flush iff the client is connected and it is the serialised message of an attempted slot whose socket is past SYN_SENT |
| Board.Flushed | src/board.c:355-375 | after the flush every counter is `FlushSlot` of its old value and its send's outcome, the messages are kept, the bound is kept and the send flag is down |
| Board.StoredSize | src/board.c:294-301 | the size the receive leaves is 0 when no message was waiting and always below 128 |
| Board.SizeAfterFlush | src/board.c:355-374 | the TCP message size after the flush is the serialised length of the last attempted slot; it is the received size when every slot is empty, and stays below 128 |
| Board.B02Step | src/board_b02.c:150-189 | the B02 stage on values: both ISR latches consumed into the snapshot flags, `is_light_on` iff the strip is lit, forced off by a disable command or a pending mode change, the long-range PIR powered iff dark, both baselines not ahead of the count, and a raised send flag backed by a slot at retry 0 |
| Board.LightSensorStep | src/board.c:380-430 | a sample is taken iff more than 4 cycles have elapsed since the clamped baseline and the light is off; a sample sets the baseline to the count and darkness to adc > 100; otherwise darkness is kept and only the clamp applies |
| Board.LightSamplesSpaced | src/board.c:389-428 | after a sample at cycle c the next sample cannot come before cycle c+5 and does come at c+5 |
| Board.SensorGpio | src/board.c:401-408 | the light sensor restarts timer 1 on channel A iff the current mode is SILENCE |
| Board.LedGpio | src/board.c:434-446 | a pending mode change restarts timer 1 on channel B iff the new mode is INTRUSION |
| Board.ChannelChoices | src/board.c:401-408 | the two stages pick the same channel in SILENCE and INTRUSION but opposite channels in ALARM |
| Board.MaySleep | src/board.c:174-183 | the CPU may sleep only with nothing to send and neither the INT0 latch nor a B02 latch set |
| Board.BootExtraState | src/board.c:119-124 | boot marks both outbound slots empty (retry counter at its maximum) and clears the send and light flags |
| Board.Node.constructor | src/board.c:102-144 | `board_init`: counters and latches cleared, not dark, no pending command, channel A, every slot empty, client disconnected with nothing received, B02 strip off |
| Board.Node.TimerOverflowIsr | src/board.c:451-456 | the overflow counter advances by `Tick`, nothing else changes |
| Board.Node.Int0Isr | src/board.c:458-463 | the INT0 latch is set |
| Board.Node.Snapshot | src/board.c:154-160 | the cycle count is copied from the overflow counter and the INT0 latch is moved into the W5500 flag, clearing it |
| Board.Node.ReceiveStage | src/board.c:294-301 | socket interrupts are consulted only when the W5500 flag is set; the message size is the received size exactly when a message was pending and 0 otherwise |
| Board.Node.RouteMessage | src/board.c:303-344 | the pending commands after routing equal `Route` of the old commands |
| Board.Node.SendSlot | src/board.c:357-372 | the slot's message is serialised into the TCP message with its terminator, one send attempt is made with that text, and only that slot's counter moves, by `FlushSlot` |
| Board.Node.FlushOutbox | src/board.c:355-374 | a slot is attempted iff its counter is below the empty marker; each attempt sends that slot's serialised message; each counter ends as `FlushSlot` of its old value and that send's outcome; the TCP message holds the last text serialised, terminated, with its size, or keeps its received size when no slot was attempted |
| Board.Node.ProcessTcpClient | src/board.c:289-378 | the whole network stage: the commands become `Route` of the received message, the connection follows `ConnectedAfter`, the slots become `Flushed`, the sent texts are the flush's calls, and the send flag is false afterwards whatever the send outcomes |
| Board.Node.ProcessBoard | src/board.c:163 | the B02 statics, the slots and `is_light_on` become `B02Step` of their old values and the basic state; from a lowered send flag, the flag is raised only together with a freshly posted slot |
| Board.PostedSlotIsFresh | src/board_b02.c:254-271 | from a lowered send flag, the strip and temperature stages raise it only by posting a slot with retry counter 0 |
| Board.Node.ProcessLightSensor | src/board.c:380-430 | the baseline, darkness and sample decision follow `LightSensorStep`, and the timer channel changes only on a sample |
| Board.Node.ProcessLed | src/board.c:432-448 | the timer channel changes only on a pending mode change, to `LedGpio` of the new mode |
| Board.Node.Commit | src/board.c:167-169 | the new mode takes effect and both one-shot commands are cleared |
| Board.Node.SleepDecision | src/board.c:174-191 | the CPU sleeps iff nothing is left to send, no INT0 edge is latched and no B02 edge is latched |
| Board.Node.SnapshotAndExchange | src/board.c:154-163 | snapshot, network stage and B02 stage in order: the overflow counter is only read, the cycle count and W5500 flag from the snapshot, the routed commands, the connection, the message size, and the B02 outcome computed on the flushed slots |
| Board.Node.FinishIteration | src/board.c:164-191 | light sensor, LED, commit and sleep decision: baseline and darkness follow `LightSensorStep`, the timer channel is the LED stage's on a pending mode change and the sensor's on a sample, the new mode is committed and the one-shot commands cleared; with no latch pending, the node sleeps iff nothing is left to send |
| Board.Node.Iterate | src/board.c:146-194 | one pass of `board_launch`: the overflow counter is left to its interrupt and not written, the committed mode is the `new_mode` the router derived from the received message (unchanged unless a SET_MODE named this node), the one-shot commands are cleared, the connection, slots, B02 statics, light sensor and timer channel follow their stages, the send flag is backed by a fresh slot, and the node sleeps iff nothing is left to send |
| BoardB02.Flip | src/board_b02.c:344-353 | GREEN and BLUE swap and every other colour is left as it is |
| BoardB02.ForcedOff | src/board_b02.c:371-375 | the strip is forced off when a mode change is pending or a disable command arrived |
| BoardB02.IntrusionStart | src/board_b02.c:242-252 | INTRUSION starts its light when dark and the door PIR, the veranda PIR or an enable command fired |
| BoardB02.SilenceStart | src/board_b02.c:303-330 | SILENCE starts its light when dark and the door PIR or an enable command fired; the veranda PIR plays no part |
| BoardB02.AlarmStep | src/board_b02.c:205-237 | ALARM changes the strip iff the count has moved past the baseline; then, in the dark, WHITE_AND_RED becomes WHITE and anything else WHITE_AND_RED; in the light, RED turns off and anything else becomes RED; no message |
| BoardB02.IntrusionStep | src/board_b02.c:240-298 | an unlit strip starts WHITE_AND_RED iff dark and a PIR or an enable command; only a PIR start notifies B01 and T01; WHITE_AND_RED becomes WHITE after more than 1 cycle and WHITE turns off after more than 2, restarting the baseline |
| BoardB02.SilenceStep | src/board_b02.c:301-369 | a non-WHITE strip starts WHITE iff dark and the door PIR or an enable command; only a door start notifies T01; after more than 3 cycles an animation turns off, else GREEN/BLUE flip; WHITE becomes GREEN after more than 1 cycle |
| BoardB02.ModeStep | src/board_b02.c:205-369 | the branch for the current mode; an unknown mode leaves the strip and the slots alone; a message only accompanies a baseline reset |
| BoardB02.StripStep | src/board_b02.c:192-378 | the baseline is clamped first; a pending mode change or a disable command forces NO_LIGHT after the mode branch, without cancelling its message; a message is sent only in the dark |
| BoardB02.NotifyTargets | src/board_b02.c:254-271 | a light message never names B02 itself and always asks for LIGHT_ON |
| BoardB02.SilenceIgnoresVeranda | src/board_b02.c:303-330 | in SILENCE the veranda PIR changes neither the strip nor the messages |
| BoardB02.AlarmBlinks | src/board_b02.c:205-237 | in the dark, successive new cycles alternate WHITE_AND_RED and WHITE |
| BoardB02.IntrusionLightTimeline | src/board_b02.c:274-297 | with no new trigger, an INTRUSION light started at cycle b is lit through b+4 and off from b+5 on, when the stage runs every cycle |
| BoardB02.SilenceLightTimeline | src/board_b02.c:331-368 | with no new trigger, a SILENCE light started at b is WHITE through b+1, animates GREEN/BLUE from b+2 to b+5, and is off from b+6 on |
| BoardB02.TemperatureDue | src/board_b02.c:389-392 | a sample is due iff more than 8 cycles have passed since the baseline |
| BoardB02.TemperatureBaseline | src/board_b02.c:385-431 | the baseline is clamped on wrap and advances to the count on every due cycle, whether the read succeeds or not |
| BoardB02.TemperatureMessage | src/board_b02.c:407-423 | TEMPERATURE_MSG goes from B02 to B01 as UPDATE_TEMPERATURE carrying pressure and temperature |
| BoardB02.LightMessage | src/board_b02.c:254-271 | LIGHT_MSG goes from B02 to the given nodes as SET_LIGHT/LIGHT_ON; the unused value keeps its old contents |
| BoardB02.AfterStrip | src/board_b02.c:254-271 | the slots change only when the strip stage notifies, and then by posting LIGHT_MSG |
| BoardB02.AfterTemperature | src/board_b02.c:407-423 | the slots change only on a due cycle with a successful read, and then by posting TEMPERATURE_MSG |
| BoardB02.PirGate | src/board_b02.c:177-184 | the long-range PIR ends powered iff dark; a power call is made iff that differs from its state, switching on only in the dark |
| BoardB02.PirGateIdempotent | src/board_b02.c:177-184 | a second gate in the same light makes no power call |
| BoardB02.LightStripBranches | src/board_b02.c:192-378 | the branch-by-branch code of the strip stage computes exactly `StripStep` |
| BoardB02.B02.constructor | src/board_b02.c:79-97 | latches clear, strip off, long-range PIR off, veranda PIR registered on PCINT16 without pull-up, its mask bit set and port D enabled |
| BoardB02.B02.IsInterrupt | src/board_b02.c:481-486 | an edge is pending iff either PIR latch is set |
| BoardB02.B02.Int1Isr | src/board_b02.c:499-504 | only the door PIR latch is set |
| BoardB02.B02.Pcint16Isr | src/board_b02.c:506-513 | the veranda latch is set on a HIGH level and kept otherwise |
| BoardB02.B02.OnPortDPinChange | src/mcu/pcint_d.c:150-190 | the port D handler fires the registered callbacks whose level changed, and the veranda latch is set iff its callback fired with HIGH |
| BoardB02.B02.ProcessLightStrip | src/board_b02.c:192-378 | colour, baseline and slots follow `StripStep` and `AfterStrip`; `is_light_on` is left to the caller |
| BoardB02.B02.ProcessTemperatureSensor | src/board_b02.c:380-433 | baseline and slots follow `TemperatureBaseline` and `AfterTemperature` |
| BoardB02.B02.LatchPirInterrupts | src/board_b02.c:155-162 | both ISR latches are moved into the snapshot flags and cleared |
| BoardB02.B02.GateLongRangePir | src/board_b02.c:177-184 | the PIR power state and call follow `PirGate` |
| BoardB02.B02.Process | src/board_b02.c:150-189 | latch, strip, temperature and gate in order; `is_light_on` is the strip's colour being lit; no edge stays pending |
| TcpClient.Client.constructor | src/tcp_client.c:58-59 | not connected, nothing received |
| TcpClient.TcpMessage.constructor | src/tcp_client.h:15-20 | `tcp_msg_t`: a 128-character buffer and size 0 |
| TcpClient.SendSucceeds | src/tcp_client.c:174-199 | a send succeeds iff the client is connected, the socket is past SYN_SENT and `send` returns at least SOCK_OK |
| TcpClient.SendCalls | src/tcp_client.c:174-199 | no socket call while disconnected; otherwise the status query first, and `send` of the text iff the socket is past SYN_SENT |
| TcpClient.SentWhenSucceeds | src/tcp_client.c:174-199 | a successful send made the `send` call with the text, and an attempt that made no `send` call failed |
| TcpClient.Client.Init | src/tcp_client.c:58-59 | both flags cleared whatever they were |
| TcpClient.Client.CheckInterrupts | src/tcp_client.c:64-90 | RECEIVED raises the message flag, DISCONNECTED drops the connection and masks socket interrupts; other bits change neither flag |
| TcpClient.ReceivedSize | src/tcp_client.c:100 | corrected size: the byte count or 0 on error, and always below 128 when at most 127 bytes are requested |
| TcpClient.StoreTerminated | src/tcp_client.c:100-101 | the received bytes fill the front of the buffer and the terminator follows them; the rest is untouched |
| TcpClient.Client.ReceiveMessage | src/tcp_client.c:92-104 | no pending message: size 0 and no socket call; pending: at most 127 bytes requested, size and terminated contents stored, the flag cleared, the connection untouched |
| TcpClient.AsWrittenSize | src/tcp_client.c:100 | the size as written: the `recv` result taken modulo 2^16 |
| TcpClient.AsWrittenFullReadOverflows | src/tcp_client.c:100-101 | a full 128-byte read is a legal `recv` outcome and puts the terminator at index 128 |
| TcpClient.AsWrittenErrorOverflows | src/tcp_client.c:100-101 | an error code -7 is a legal outcome and becomes size 65529 |
| TcpClient.TeardownCalls | src/tcp_client.c:125-136 | only a CLOSE_WAIT socket is disconnected first, and closed iff the disconnect fails |
| TcpClient.Client.Connect | src/tcp_client.c:106-170 | link down: fail and disconnected; link up and connected: success with no socket call; otherwise connected iff `socket` gives socket 0 and `connect` gives SOCK_OK, with the call sequence made |
| TcpClient.Client.SendMessage | src/tcp_client.c:172-203 | success is `SendSucceeds` and the calls are `SendCalls` of the message's first `size` bytes; no send while disconnected or in SYN_SENT; the flags never change |
| SwUart.Step | src/mcu/sw_uart.c:58-140 | a callback on an idle transmitter does nothing; while working each callback reduces the remaining ticks by one and writes the pin exactly on every third call |
| SwUart.Flush | src/mcu/sw_uart.c:58-140 | an idle transmitter owes nothing to the line |
| SwUart.DataBits | src/mcu/sw_uart.c:105-118 | the eight data bits are `(b >> k) & 1` for k = 0..7 |
| SwUart.Frames | src/mcu/sw_uart.c:49-56 | the frames of several bytes take ten bits per byte |
| SwUart.FrameRoundTrip | src/mcu/sw_uart.c:83-124 | a frame is ten bits, low start bit, high stop bit, and its data bits decode LSB first back to the byte |
| SwUart.FlushData | src/mcu/sw_uart.c:94-124 | from data bit k on, the rest of the frame is the remaining data bits then the stop bit |
| SwUart.FlushLoaded | src/mcu/sw_uart.c:36-47 | a byte loaded into an idle transmitter is sent as exactly its frame in thirty callbacks |
| SwUart.Transmitter.constructor | src/mcu/sw_uart.c:22-34 | callback statics at their initial values, buffer 0, idle, pin an output driven high |
| SwUart.Transmitter.Init | src/mcu/sw_uart.c:22-34 | only the buffer, the working flag and the pin are reset |
| SwUart.Transmitter.WriteByte | src/mcu/sw_uart.c:40-44 | on an idle transmitter the byte is loaded and transmission starts |
| SwUart.Transmitter.TimerCallback | src/mcu/sw_uart.c:58-140 | the state advances by `Step`, and the pin is written exactly when a bit is emitted |
| SwUart.Transmitter.WaitIdle | src/mcu/sw_uart.c:40 | waiting puts on the line exactly what the transmitter owed and leaves it idle |
| SwUart.Transmitter.WaitAndWriteByte | src/mcu/sw_uart.c:36-47 | the frame in flight is finished, then the new byte's frame is owed |
| SwUart.Transmitter.WriteByteArray | src/mcu/sw_uart.c:49-56 | what was on the line plus what is still owed equals the old debt followed by the frames of the bytes in array order |
| Uart.BaudDivisor | src/mcu/uart.c:26 | the divisor computed in 32-bit unsigned arithmetic and truncated to 16 bits; above F_CPU/8 baud the quotient is 0 and the divisor wraps to 65535 |
| Uart.DivisorRoundsToNearest | src/mcu/uart.c:26 | from 16 baud to F_CPU/16 the divisor is F_CPU/(16 baud) rounded to nearest, minus one |
| Uart.BoardDivisor | src/board.c:37 | at 16 MHz and 9600 baud the divisor is 103 |
| Uart.DivisorLow | src/mcu/uart.c:29-30 | UBRR0L is the divisor's low byte |
| Uart.DivisorHigh | src/mcu/uart.c:29-30 | UBRR0H is the divisor's high byte |
| Uart.DivisorHalvesRecombine | src/mcu/uart.c:29-30 | high byte times 256 plus low byte gives the divisor back |
| Uart.Fill | src/mcu/uart.c:130-137 | one received byte is appended, or a full buffer restarts with it; the size stays in 1..64 |
| Uart.FillAll | src/mcu/uart.c:127-138 | a burst never grows the buffer beyond 64 bytes |
| Uart.BurstKeepsLastBlock | src/mcu/uart.c:127-138 | after a burst of n bytes into an empty buffer it holds the last (n-1) mod 64 + 1 of them |
| Uart.Usart.Received | src/mcu/uart.c:91-138 | the buffered bytes are the first `rx_buffer_size` cells |
| Uart.Usart.constructor | src/mcu/uart.c:18-47 | the peripheral at reset: nothing sent, buffer empty, transmitter and receiver off |
| Uart.Usart.Init | src/mcu/uart.c:18-47 | 8-bit frames, transmitter on, divisor halves written; with the receive switch, receiver and its interrupt on and the buffer emptied, else left alone |
| Uart.Usart.Deinit | src/mcu/uart.c:49-58 | transmitter, receiver and receive interrupt off, everything else kept |
| Uart.Usart.WriteByte | src/mcu/uart.c:60-69 | the byte is appended to what UDR0 has been given |
| Uart.Usart.WriteByteArray | src/mcu/uart.c:71-80 | each byte is written once, in array order |
| Uart.Usart.CleanRxBuffer | src/mcu/uart.c:91-98 | the receive buffer is emptied |
| Uart.Usart.ReadByteArray | src/mcu/uart.c:100-125 | min(buffered, requested) bytes are copied as a prefix, the rest of the destination is untouched, and the buffer is emptied; an empty buffer yields 0 |
| Uart.Usart.RxInterrupt | src/mcu/uart.c:127-138 | the buffer becomes `Fill` of its contents and the byte; nothing past the size is written |
| Uart.CopyPrefix | src/mcu/uart.c:111-119 | the first n bytes are copied and the rest of the destination is kept |
| I2c.BitRateRegister | src/mcu/i2c.c:49-57 | each table entry (72, 24, 12) makes 16 MHz / (16 + 2 TWBR) exactly the nominal frequency |
| I2c.BitRatesOrdered | src/mcu/i2c.c:49-57 | faster nominal frequencies get smaller TWBR values |
| I2c.SlaW | src/mcu/i2c.c:204-224 | the write address byte has R/W bit 0 and the 7-bit address above it (section 3.1.10 of NXP UM10204) |
| I2c.SlaR | src/mcu/i2c.c:226-246 | the read address byte has R/W bit 1 and the 7-bit address above it |
| I2c.WideAddressTruncated | src/mcu/i2c.c:207 | for every address, both address bytes equal those of its low seven bits: the top bit is lost in the shift |
| I2c.TwStatus | src/mcu/i2c.c:187 | `TW_STATUS` drops the prescaler bits: its three low bits are 0 and putting TWSR's low bits back gives TWSR |
| I2c.Accepts | src/mcu/i2c.c:177-312 | each step accepts exactly the status its helper tests (lines 187, 217, 239, 261, 283, 305); START also accepts REP_START |
| I2c.Perform | src/mcu/i2c.c:177-268 | one bus step is recorded, and the caller goes on iff its status is accepted |
| I2c.ReadStep | src/mcu/i2c.c:270-312 | one read stores TWDR into its cell before the status check, whatever the status, and goes on iff the status is accepted |
| I2c.WritePlan | src/mcu/i2c.c:76-115 | a write is START, SLA+W, the register, then the data bytes in index order |
| I2c.ReadPlan | src/mcu/i2c.c:117-175 | a read is START, SLA+W, register, repeated START, SLA+R, then reads ACKed except the last, which is NACKed (section 3.1.6 of NXP UM10204) |
| I2c.FirstFailure | src/mcu/i2c.c:85-110 | the first step whose status is rejected, after only accepted ones |
| I2c.Performed | src/mcu/i2c.c:85-110 | the steps on the bus are the plan up to and including the first failure, or the whole plan |
| I2c.Run | src/mcu/i2c.c:76-175 | success iff every step is accepted; STOP iff the START was accepted; the steps done are a prefix of the plan |
| I2c.StopsAtFirstFailure | src/mcu/i2c.c:85-110 | a failure at step k ends the transaction there, with STOP iff k > 0 |
| I2c.RunsToEnd | src/mcu/i2c.c:114 | with every step accepted the whole plan runs, succeeds and is stopped |
| I2c.PerformSteps | src/mcu/i2c.c:85-110 | the chain of steps with early exit agrees with `Run` |
| I2c.Twi.constructor | src/mcu/i2c.c:30-60 | TWI registers at reset |
| I2c.Twi.Init | src/mcu/i2c.c:30-60 | TWBR from the table, prescaler 1, SDA/SCL inputs pulled up iff asked |
| I2c.Twi.Deinit | src/mcu/i2c.c:62-74 | TWBR 0 and prescaler 64, pins inputs |
| I2c.WriteByteArray | src/mcu/i2c.c:76-115 | outcome, steps on the bus and STOP equal `Run` of the write plan |
| I2c.ReadData | src/mcu/i2c.c:151-166 | the read loop agrees with `Run` and stores TWDR for every read performed |
| I2c.ReadByteArray | src/mcu/i2c.c:117-175 | outcome, steps and STOP equal `Run` of the read plan, and each read performed stored its byte in order |
| PinChange.Stored | src/mcu/pcint_d.c:40 | registration stores the pin, pull-up choice and callback |
| PinChange.NextLevel | src/mcu/pcint_d.c:165-170 | the stored level becomes the sampled one exactly when the callback fires |
| PinChange.NextLevels | src/mcu/pcint_d.c:150-190 | every entry's stored level after one handler run |
| PinChange.Call | src/mcu/pcint_d.c:154-170 | at most one call per entry, made iff registered and changed, with the callback and the new level |
| PinChange.FiredOnlyOnChange | src/mcu/pcint_d.c:150-190 | every call belongs to a registered entry whose level changed and passes the new level |
| PinChange.ChangeIsReported | src/mcu/pcint_d.c:150-190 | every registered entry whose level changed is called |
| PinChange.SecondRunIsQuiet | src/mcu/pcint_d.c:165-167 | a second run on the same levels calls nothing |
| Pcint.Sample | src/mcu/pcint_d.c:158-163 | the entry's pin bit of PINx read as HIGH or LOW; nothing for a pin the port does not handle |
| Pcint.Samples | src/mcu/pcint_d.c:150-190 | one sample per table entry |
| Pcint.ClearLowBits | src/mcu/pcint_d.c:132-133 | the low n mask bits are cleared and the rest kept |
| Pcint.PortsWellFormed | src/mcu/pcint_c.c:38-64 | the three port layouts give distinct bits to distinct table pins |
| Pcint.RemoveAllWidths | src/mcu/pcint_b.c:103-115 | ports B and D clear the whole mask, port C bits 0..6 of PCMSK1 |
| Pcint.Registry.constructor | src/mcu/pcint_d.c:20-21 | zeroed static tables and registers |
| Pcint.Registry.Reset | src/mcu/pcint_d.c:140-148 | every callback cleared, every stored level UNKNOWN, pins and pull-ups kept (port B and C: pcint_b.c and pcint_c.c lines 117-125) |
| Pcint.Registry.Init | src/mcu/pcint_d.c:26-31 | the same as reset |
| Pcint.Registry.Add | src/mcu/pcint_d.c:33-85 | the entry stored at its pin, level UNKNOWN, pin an input with the asked pull-up, mask bit set, port enabled (port B: PCINT0, PB0, PCIE0 at pcint_b.c lines 33-67; port C: PCINT11, PC3, PCIE1 at pcint_c.c lines 33-67) |
| Pcint.Registry.HasActiveCallback | src/mcu/pcint_d.c:107-115 | the scan reports whether any callback remains |
| Pcint.Registry.Remove | src/mcu/pcint_d.c:87-124 | callback and level cleared, mask bit cleared, port enable cleared iff no callback remains (ports B and C with PCIE0 and PCIE1: lines 69-101 of their drivers) |
| Pcint.Registry.RemoveAll | src/mcu/pcint_d.c:126-138 | port disabled, the port's mask bits cleared, table reset (ports B and C: lines 103-115 of their drivers; port C clears only the PCINT8..14 bits of PCMSK1) |
| Pcint.Registry.Visit | src/mcu/pcint_d.c:154-187 | one entry of the handler loop makes `Call` and stores `NextLevel` |
| Pcint.Registry.Dispatch | src/mcu/pcint_d.c:150-190 | the callbacks fired in index order and the new stored levels, as `FiredUpTo` and `NextLevels` describe them (ports B and C: lines 127-151 of their drivers) |

## Left out

- The three pin-change drivers are one class parameterised by the port layout, so ports B, C and D share members. Layouts: register bits of the table pins, and the width `remove_all` clears.
- Register-only hardware drivers, treated as opaque: timers 0, 1 and 2, SPI, ADC, INT0 and INT1, and config.h.
  - The timer-1 restart is modelled only as the channel chosen.
  - The ADC result is an input.
  - `src/mcu/timer_0.c:50` loads the prescaler value into OCR0A instead of a tick count; that file is not part of this model.
- WIZnet vendor calls (`socket`, `connect`, `recv`, `send`, `ctlsocket`, `getsockopt`, `wizphy_getphylink`) are inputs:
  - their result codes are parameters;
  - the calls made are recorded as a trace;
  - `tcp_client_setup_w5500` and `tcp_client_print_state` are not part of this model.
- The WIZnet constants (SOCK_OK, SOCK_SYNSENT, SOCK_CLOSE_WAIT, the SIK bits, PHY_LINK_ON) come from the vendor ioLibrary headers, which are not part of this model.
- Message serialisation and deserialisation are not part of this model and neither is the node id table from node.types.h:
  - the deserialised message is an input;
  - the serialiser is an input function from a message to its text; the network stage requires every text to fit the 128-character buffer with its terminator, a bound the unseen serialiser is trusted to keep;
  - node ids, command ids and modes are constants whose values matter only through their distinctness.
- The BMP280 driver is not part of this model; its read is an input that either fails or yields the integer pressure and temperature.
- The commented-out float conversions in `src/board.c:413-416` are left out.
- `ATOMIC_BLOCK`, `cli`/`sei`, sleep, brown-out disable and the watchdog are treated as follows:
  - an atomic block is one step;
  - an iteration is a pass in which no interrupt arrives mid-pass;
  - sleep is a boolean decision;
  - the wake-up race at the sleep pairing is not modelled.
- Delays, logging, `main.c` and the infinite outer loop are left out; `Board.Node.Iterate` is one pass.
- Spin-waits are treated as follows:
  - the UART's data-register-empty wait is a call of `Uart.Usart.WriteByte`;
  - the TWI TWINT wait is one oracle step;
  - the software UART's wait is `SwUart.Transmitter.WaitIdle`, driving the timer callback.
- I2c.WriteByteArray and I2c.ReadByteArray: the nested `if` chains of the C code are modelled as one loop over a step plan. The status each step reads is an input indexed by the step's position.
- Uart.BaudDivisor: below 16 baud the divisor needs more than 16 bits. The model keeps the 16-bit truncation, but DivisorRoundsToNearest states rounding only from 16 baud up.
- Uart.Usart.Init: the receive buffer and its interrupt are compiled out (`UART_RX_ENABLE` is commented out in `src/mcu/config.h:30`). The model keeps them behind a parameter standing for that switch.
- TcpClient.Client.ReceiveMessage models the corrected receive (request 127 bytes, store 0 on error), not the code as written; the as-written behaviour is stated by `TcpClient.AsWrittenSize` and the two lemmas under Findings.
- NodeTypes.ModeOf takes `node_mode_id_t` to be 16 bits wide, the width of avr-gcc's `int` for an enum built without `-fshort-enums`; node.types.h and the build flags are not part of this model.
- BoardB02.IntrusionLightTimeline and BoardB02.SilenceLightTimeline assume the stage runs at least once per cycle. A stage that misses whole cycles is not covered by them.

## Findings

| source | as written | input that shows it | evidently intended | confidence | as-written member | corrected member |
|---|---|---|---|---|---|---|
| src/tcp_client.c:100-101 | `recv` is allowed the whole 128-byte buffer, then `buffer[size]` is set to 0 | a 128-byte TCP segment: size 128, terminator written at index 128, one past the buffer | request at most 127 bytes so the terminator fits | not executed | TcpClient.AsWrittenFullReadOverflows | TcpClient.Client.ReceiveMessage |
| src/tcp_client.c:100 | the signed `recv` result is cast straight to `size_t` | `recv` returning -7 (a socket error): size 65529 and the terminator written far outside the buffer | treat a negative result as an empty message | not executed | TcpClient.AsWrittenErrorOverflows | TcpClient.ReceivedSize |
