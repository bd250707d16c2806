/** The TCP client over the W5500 socket 0: two module flags, `is_connected` and
    `is_message_received`, kept in step with the chip's socket interrupts, the
    connect/disconnect handshake and the send and receive calls. Every vendor
    socket call is an input (its result) and an entry in the returned call trace. */
module TcpClient {
  import opened Common

  const W5500_SOCKET_NUMBER: int := 0

  /** WIZnet ioLibrary codes. */
  const SOCK_OK: int := 1
  const SOCK_SYNSENT: int := 0x15
  const SOCK_CLOSE_WAIT: int := 0x1C
  const PHY_LINK_ON: int := 1
  const SIK_DISCONNECTED: byte := 0x02
  const SIK_RECEIVED: byte := 0x04

  /** `tcp_msg_t.buffer` holds 128 characters. */
  const TCP_BUFFER_SIZE: nat := 128
  /** The most bytes a receive may request so that the terminator still fits. */
  const TCP_RECV_REQUEST: nat := TCP_BUFFER_SIZE - 1
  /** size_t is 16 bits wide on the AVR. */
  const SIZE_T_MODULUS: int := 0x1_0000

  datatype SocketCall =
    | GetPhyLink
    | GetStatus
    | Disconnect
    | Close
    | OpenSocket
    | ConnectSocket
    | SetInterruptMask(mask: byte)
    | GetInterrupt
    | ClearInterrupt(bits: byte)
    | Recv(length: nat)
    | Send(data: seq<byte>)

  /** What `recv` hands back: the bytes received (their count is its result), or a
      negative error code. */
  datatype RecvOutcome = Received(data: seq<byte>) | RecvError(code: int)

  /** The outcome a `recv` asked for at most `request` bytes can have. */
  predicate RecvWithin(r: RecvOutcome, request: nat) {
    match r
    case Received(data) => |data| <= request
    case RecvError(code) => code < 0
  }

  /** The message size `tcp_client_receive_message` stores, as written: the `recv`
      result converted to the 16-bit size_t. */
  function AsWrittenSize(r: RecvOutcome): (n: int)
    ensures 0 <= n < SIZE_T_MODULUS
    ensures r.Received? && |r.data| < SIZE_T_MODULUS ==> n == |r.data|
    ensures r.RecvError? && -SIZE_T_MODULUS <= r.code < 0 ==> n == SIZE_T_MODULUS + r.code
  {
    match r
    case Received(data) => |data| % SIZE_T_MODULUS
    case RecvError(code) => code % SIZE_T_MODULUS
  }

  /** As written, the receive asks for all 128 bytes of the buffer; a full read puts
      the terminator at index 128, one past the end. */
  lemma AsWrittenFullReadOverflows(data: seq<byte>)
    requires |data| == TCP_BUFFER_SIZE
    ensures RecvWithin(Received(data), TCP_BUFFER_SIZE)
    ensures AsWrittenSize(Received(data)) == TCP_BUFFER_SIZE
  {
  }

  /** As written, an error code becomes a huge size: -7 is stored as 65529, and the
      terminator lands far outside the buffer. */
  lemma AsWrittenErrorOverflows()
    ensures RecvWithin(RecvError(-7), TCP_BUFFER_SIZE)
    ensures AsWrittenSize(RecvError(-7)) == 65529
  {
  }

  /** The size the corrected receive stores: the byte count, or 0 on an error. */
  function ReceivedSize(r: RecvOutcome): (n: nat)
    ensures r.Received? ==> n == |r.data|
    ensures r.RecvError? ==> n == 0
    ensures RecvWithin(r, TCP_RECV_REQUEST) ==> n < TCP_BUFFER_SIZE
  {
    match r
    case Received(data) => |data|
    case RecvError(_) => 0
  }

  /** `tcp_msg_t`: a 128-character buffer and the message size. */
  class TcpMessage {
    const buffer: array<byte>
    var size: u16

    constructor ()
      ensures buffer.Length == TCP_BUFFER_SIZE && fresh(buffer) && size == 0
    {
      buffer := new byte[TCP_BUFFER_SIZE](_ => 0);
      size := 0;
    }
  }

  /** The teardown of a half-closed socket that precedes every new connection. */
  function TeardownCalls(socketStatus: int, disconnectResult: int): (calls: seq<SocketCall>)
    ensures socketStatus != SOCK_CLOSE_WAIT ==> calls == []
    ensures socketStatus == SOCK_CLOSE_WAIT ==> |calls| > 0 && calls[0] == Disconnect
    ensures Close in calls <==> socketStatus == SOCK_CLOSE_WAIT && disconnectResult != SOCK_OK
  {
    if socketStatus == SOCK_CLOSE_WAIT then
      [Disconnect] + (if disconnectResult != SOCK_OK then [Close] else [])
    else []
  }

  /** `recv` filling the front of the buffer, then the terminator after it. */
  method StoreTerminated(buffer: array<byte>, data: seq<byte>)
    requires |data| < buffer.Length
    modifies buffer
    ensures buffer[..] == data + [0] + old(buffer[|data| + 1..])
  {
    for k := 0 to |data|
      invariant buffer[..k] == data[..k]
      invariant forall j :: k <= j < buffer.Length ==> buffer[j] == old(buffer[j])
    {
      buffer[k] := data[k];
    }
    buffer[|data|] := 0;
    assert buffer[..] == buffer[..|data|] + [buffer[|data|]] + buffer[|data| + 1..];
  }

  /** When `tcp_client_send_message` reports success: connected, the socket past
      SYN_SENT, and `send` returning at least SOCK_OK (a zero-byte send fails too). */
  predicate SendSucceeds(isConnected: bool, status: int, sendResult: int) {
    isConnected && status != SOCK_SYNSENT && sendResult >= SOCK_OK
  }

  /** The socket calls of one send attempt: none while disconnected, the status
      query, and `send` of the text only once the socket is past SYN_SENT. */
  function SendCalls(isConnected: bool, status: int, text: seq<byte>): (calls: seq<SocketCall>)
    ensures !isConnected ==> calls == []
    ensures isConnected ==> |calls| > 0 && calls[0] == GetStatus
    ensures forall d :: Send(d) in calls <==> isConnected && status != SOCK_SYNSENT && d == text
  {
    if !isConnected then []
    else if status == SOCK_SYNSENT then [GetStatus]
    else [GetStatus, Send(text)]
  }

  /** A send that succeeds made the `send` call with the text; one that never reaches
      `send` fails. */
  lemma SentWhenSucceeds(isConnected: bool, status: int, sendResult: int, text: seq<byte>)
    ensures SendSucceeds(isConnected, status, sendResult) ==> Send(text) in SendCalls(isConnected, status, text)
    ensures (forall d :: Send(d) !in SendCalls(isConnected, status, text)) ==> !SendSucceeds(isConnected, status, sendResult)
  {
    if isConnected && status != SOCK_SYNSENT {
      assert Send(text) in SendCalls(isConnected, status, text);
    }
  }

  class Client {
    var isConnected: bool
    var isMessageReceived: bool

    /** `tcp_client_init` (the W5500 setup it ends with is not part of this model):
        nothing connected, nothing received. */
    constructor ()
      ensures !isConnected && !isMessageReceived
    {
      isConnected := false;
      isMessageReceived := false;
    }

    method Init()
      modifies this
      ensures !isConnected && !isMessageReceived
    {
      isMessageReceived := false;
      isConnected := false;
    }

    /** `tcp_client_check_interrupts` with the socket interrupt register read as
        `kind`: the RECEIVED bit raises the message flag, the DISCONNECTED bit drops
        the connection and masks the socket interrupts; other bits do nothing. */
    method CheckInterrupts(kind: byte) returns (calls: seq<SocketCall>)
      modifies this
      ensures isMessageReceived == (old(isMessageReceived) || kind & SIK_RECEIVED != 0)
      ensures isConnected == (old(isConnected) && kind & SIK_DISCONNECTED == 0)
      ensures calls == [GetInterrupt, ClearInterrupt(SIK_RECEIVED | SIK_DISCONNECTED)] +
                       (if kind & SIK_DISCONNECTED != 0 then [SetInterruptMask(0)] else [])
    {
      calls := [GetInterrupt, ClearInterrupt(SIK_RECEIVED | SIK_DISCONNECTED)];
      if kind & SIK_RECEIVED != 0 {
        isMessageReceived := true;
      }
      if kind & SIK_DISCONNECTED != 0 {
        isConnected := false;
        calls := calls + [SetInterruptMask(0)];
      }
    }

    /** `tcp_client_receive_message`, corrected: without a pending message the size
        is 0 and nothing is read; with one, at most 127 bytes are requested, the
        received bytes and a terminator are stored, an error yields size 0, and the
        flag is cleared. */
    method ReceiveMessage(msg: TcpMessage, received: RecvOutcome) returns (calls: seq<SocketCall>)
      requires msg.buffer.Length == TCP_BUFFER_SIZE
      requires RecvWithin(received, TCP_RECV_REQUEST)
      modifies this, msg, msg.buffer
      ensures isConnected == old(isConnected) && !isMessageReceived
      ensures !old(isMessageReceived) ==>
        msg.size == 0 && msg.buffer[..] == old(msg.buffer[..]) && calls == []
      ensures old(isMessageReceived) ==>
        msg.size == ReceivedSize(received) && calls == [Recv(TCP_RECV_REQUEST)] &&
        msg.buffer[..] == (if received.Received? then received.data else []) + [0] +
                          old(msg.buffer[..])[msg.size + 1..]
    {
      msg.size := 0;
      calls := [];
      if isMessageReceived {
        calls := [Recv(TCP_RECV_REQUEST)];
        var data := if received.Received? then received.data else [];
        StoreTerminated(msg.buffer, data);
        msg.size := |data|;
        isMessageReceived := false;
      }
    }

    /** `tcp_client_connect` with the vendor results as inputs; each is consulted
        only if the call that produces it is made. */
    method Connect(phyLink: int, socketStatus: int, disconnectResult: int, socketResult: int, connectResult: int)
      returns (ok: bool, calls: seq<SocketCall>)
      modifies this
      ensures isMessageReceived == old(isMessageReceived)
      ensures phyLink != PHY_LINK_ON ==> !ok && !isConnected && calls == [GetPhyLink]
      ensures phyLink == PHY_LINK_ON && old(isConnected) ==> ok && isConnected && calls == [GetPhyLink]
      ensures phyLink == PHY_LINK_ON && !old(isConnected) ==>
        ok == isConnected &&
        (isConnected <==> socketResult == W5500_SOCKET_NUMBER && connectResult == SOCK_OK) &&
        calls == [GetPhyLink, GetStatus] + TeardownCalls(socketStatus, disconnectResult) + [OpenSocket] +
                 (if socketResult != W5500_SOCKET_NUMBER then []
                  else [ConnectSocket] + (if connectResult == SOCK_OK then [SetInterruptMask(SIK_DISCONNECTED | SIK_RECEIVED)] else []))
    {
      calls := [GetPhyLink];
      if phyLink != PHY_LINK_ON {
        isConnected := false;
        return false, calls;
      }
      if !isConnected {
        calls := calls + [GetStatus];
        if socketStatus == SOCK_CLOSE_WAIT {
          calls := calls + [Disconnect];
          if disconnectResult != SOCK_OK {
            calls := calls + [Close];
          }
        }
        calls := calls + [OpenSocket];
        if socketResult != W5500_SOCKET_NUMBER {
          return false, calls;
        }
        calls := calls + [ConnectSocket];
        if connectResult != SOCK_OK {
          return false, calls;
        }
        calls := calls + [SetInterruptMask(SIK_DISCONNECTED | SIK_RECEIVED)];
        isConnected := true;
      }
      return true, calls;
    }

    /** `tcp_client_send_message`: it fails without sending while disconnected or
        while the socket is still in SYN_SENT, and fails when `send` returns less
        than SOCK_OK; the flags never change. `send` is handed the first `size`
        characters of the buffer, so the size must lie within it. */
    method SendMessage(msg: TcpMessage, status: int, sendResult: int) returns (ok: bool, calls: seq<SocketCall>)
      requires msg.size <= msg.buffer.Length
      ensures ok == SendSucceeds(isConnected, status, sendResult)
      ensures calls == SendCalls(isConnected, status, msg.buffer[..msg.size])
    {
      if !isConnected {
        return false, [];
      }
      calls := [GetStatus];
      if status == SOCK_SYNSENT {
        return false, calls;
      }
      calls := calls + [Send(msg.buffer[..msg.size])];
      ok := sendResult >= SOCK_OK;
    }
  }
}
