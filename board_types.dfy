/** The two state records every iteration of the control loop threads through its
    stages: the per-iteration snapshot (`board_basic_state_t`) and the state the
    board variant mutates (`board_extra_state_t`) with its named outbound slots. */
module BoardTypes {
  import opened Common
  import opened NodeTypes

  /** Named outbound slots. */
  const LIGHT_MSG: nat := 0
  const TEMPERATURE_MSG: nat := 1
  const BOARD_MSG_SIZE: nat := 2

  /** A slot whose retry counter equals this value is empty. */
  const MESSAGE_SEND_RETRY_COUNT: nat := 4

  /** The outbound slots as values: one message and one retry counter per slot, and
      the board-wide "something to send" flag. */
  datatype Outbox = Outbox(messages: seq<Message>, retries: seq<nat>, isMsgToSend: bool)
  {
    ghost predicate Valid() {
      |messages| == BOARD_MSG_SIZE && |retries| == BOARD_MSG_SIZE &&
      forall i :: 0 <= i < BOARD_MSG_SIZE ==> retries[i] <= MESSAGE_SEND_RETRY_COUNT
    }
  }

  /** What every producer does to hand a message to the network stage: write the
      slot, re-arm its retry counter, raise the send flag. */
  function Post(o: Outbox, slot: nat, m: Message): (p: Outbox)
    requires o.Valid() && slot < BOARD_MSG_SIZE
    ensures p.Valid()
    ensures p.messages == o.messages[slot := m] && p.retries == o.retries[slot := 0] && p.isMsgToSend
  {
    Outbox(o.messages[slot := m], o.retries[slot := 0], true)
  }

  class BasicState {
    var globalCycleCount: u16
    var isDark: bool
    var currentMode: int
    var newMode: int
    var isEnableLightCommand: bool
    var isDisableLightCommand: bool

    /** Static storage starts zeroed: both modes read SILENCE until a SET_MODE arrives. */
    constructor ()
      ensures globalCycleCount == 0 && !isDark
      ensures currentMode == SILENCE && newMode == SILENCE
      ensures !isEnableLightCommand && !isDisableLightCommand
    {
      globalCycleCount := 0;
      isDark := false;
      currentMode := SILENCE;
      newMode := SILENCE;
      isEnableLightCommand := false;
      isDisableLightCommand := false;
    }
  }

  class ExtraState {
    var isLightOn: bool
    const sendMsgArray: array<Message>
    const sendMsgRetryCount: array<nat>
    var isMsgToSend: bool

    /** Both slot arrays have one entry per named slot, and no retry counter ever
        exceeds the empty marker. */
    ghost predicate Valid()
      reads this`isMsgToSend, sendMsgArray, sendMsgRetryCount
    {
      Slots().Valid()
    }

    function Slots(): (o: Outbox)
      reads this`isMsgToSend, sendMsgArray, sendMsgRetryCount
    {
      Outbox(sendMsgArray[..], sendMsgRetryCount[..], isMsgToSend)
    }

    /** The three writes a producer makes to hand over a message: the slot, its
        retry counter re-armed to 0, and the send flag. */
    method PostMessage(slot: nat, m: Message)
      requires Valid() && slot < BOARD_MSG_SIZE
      modifies this, sendMsgArray, sendMsgRetryCount
      ensures Valid()
      ensures Slots() == Post(old(Slots()), slot, m)
      ensures isLightOn == old(isLightOn)
    {
      sendMsgArray[slot] := m;
      sendMsgRetryCount[slot] := 0;
      isMsgToSend := true;
    }

    /** True when the slot holds a message still to be delivered. */
    predicate IsPending(slot: nat)
      reads this, sendMsgArray, sendMsgRetryCount
      requires Valid() && slot < BOARD_MSG_SIZE
    {
      sendMsgRetryCount[slot] < MESSAGE_SEND_RETRY_COUNT
    }

    /** Static storage: zeroed messages and counters, nothing pending yet. The boot
        code then marks every slot empty (see `Board.Node.constructor`). */
    constructor ()
      ensures sendMsgArray.Length == BOARD_MSG_SIZE && sendMsgRetryCount.Length == BOARD_MSG_SIZE
      ensures fresh(sendMsgArray) && fresh(sendMsgRetryCount)
      ensures sendMsgArray[..] == [ZeroMessage, ZeroMessage]
      ensures sendMsgRetryCount[..] == [0, 0]
      ensures !isLightOn && !isMsgToSend
    {
      isLightOn := false;
      isMsgToSend := false;
      sendMsgArray := new Message[BOARD_MSG_SIZE](_ => ZeroMessage);
      sendMsgRetryCount := new nat[BOARD_MSG_SIZE](_ => 0);
    }
  }
}
