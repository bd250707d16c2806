/** The TWI (I2C) master: the SCL bit-rate setting and the two register-addressed
    transactions. Each bus step waits for TWINT and then checks the status the
    hardware reports; those status values (and the bytes read from TWDR) are
    inputs, indexed by the step that produced them. */
module I2c {
  import opened Common

  const F_CPU: nat := 16_000_000

  /** Status codes of the ATmega TWI unit (`util/twi.h`). */
  const TW_STATUS_MASK: byte := 0xF8
  const TW_START: byte := 0x08
  const TW_REP_START: byte := 0x10
  const TW_MT_SLA_ACK: byte := 0x18
  const TW_MT_DATA_ACK: byte := 0x28
  const TW_MR_SLA_ACK: byte := 0x40
  const TW_MR_DATA_ACK: byte := 0x50
  const TW_MR_DATA_NACK: byte := 0x58
  const TW_WRITE: byte := 0
  const TW_READ: byte := 1

  datatype SclFrequency = Scl100kHz | Scl250kHz | Scl400kHz

  function Hertz(f: SclFrequency): nat {
    match f
    case Scl100kHz => 100_000
    case Scl250kHz => 250_000
    case Scl400kHz => 400_000
  }

  /** The TWBR value `i2c_master_init` writes for each frequency (prescaler 1). */
  function BitRateRegister(f: SclFrequency): (twbr: nat)
    ensures twbr < 256
    ensures F_CPU % (16 + 2 * twbr) == 0
    ensures F_CPU / (16 + 2 * twbr) == Hertz(f)
  {
    match f
    case Scl100kHz => 72
    case Scl250kHz => 24
    case Scl400kHz => 12
  }

  /** SCL = F_CPU / (16 + 2 TWBR prescaler) gives each nominal frequency exactly,
      and a faster bus always has the smaller register value. */
  lemma BitRatesOrdered()
    ensures BitRateRegister(Scl400kHz) < BitRateRegister(Scl250kHz) < BitRateRegister(Scl100kHz)
    ensures Hertz(Scl100kHz) < Hertz(Scl250kHz) < Hertz(Scl400kHz)
  {
  }

  /** The address byte of section 3.1.10 of the I2C-bus specification (NXP
      UM10204): the seven-bit address shifted left, the R/W bit below it. */
  function SlaW(address: byte): (sla: byte)
    ensures sla & 1 == TW_WRITE
    ensures address < 0x80 ==> sla >> 1 == address
  {
    (address << 1) | TW_WRITE
  }

  function SlaR(address: byte): (sla: byte)
    ensures sla & 1 == TW_READ
    ensures address < 0x80 ==> sla >> 1 == address
  {
    (address << 1) | TW_READ
  }

  /** The top bit of the address is lost: the byte register keeps eight bits, so
      any address builds the same byte as its low seven bits. */
  lemma WideAddressTruncated(address: byte)
    ensures SlaW(address) == SlaW(address & 0x7F) && SlaR(address) == SlaR(address & 0x7F)
  {
  }

  /** One bus step, as the C helpers perform it. */
  datatype Step =
    | Start
    | AddressWrite(sla: byte)
    | AddressRead(sla: byte)
    | DataWrite(b: byte)
    | ReadAck
    | ReadNack

  /** `TW_STATUS`: TWSR without the prescaler bits. The two low bits (the
      prescaler) and the reserved bit 2 read as 0, and putting them back gives
      the register again. */
  function TwStatus(twsr: byte): (status: byte)
    ensures status & 0x07 == 0
    ensures status | (twsr & 0x07) == twsr
  {
    twsr & TW_STATUS_MASK
  }

  /** The step succeeded iff the status is the one its helper checks for; a
      START is also good as a repeated START. */
  predicate Accepts(step: Step, twsr: byte) {
    var status := TwStatus(twsr);
    match step
    case Start => status == TW_START || status == TW_REP_START
    case AddressWrite(_) => status == TW_MT_SLA_ACK
    case AddressRead(_) => status == TW_MR_SLA_ACK
    case DataWrite(_) => status == TW_MT_DATA_ACK
    case ReadAck => status == TW_MR_DATA_ACK
    case ReadNack => status == TW_MR_DATA_NACK
  }

  /** The steps of `i2c_master_write_byte_array`. */
  function WritePlan(address: byte, register: byte, data: seq<byte>): (plan: seq<Step>)
    ensures |plan| == 3 + |data|
    ensures plan[0] == Start && plan[1] == AddressWrite(SlaW(address)) && plan[2] == DataWrite(register)
    ensures forall i :: 0 <= i < |data| ==> plan[3 + i] == DataWrite(data[i])
  {
    [Start, AddressWrite(SlaW(address)), DataWrite(register)] + seq(|data|, i requires 0 <= i < |data| => DataWrite(data[i]))
  }

  /** The steps of `i2c_master_read_byte_array`: every byte but the last is
      acknowledged, the last is not (section 3.1.6 of UM10204). */
  function ReadPlan(address: byte, register: byte, count: nat): (plan: seq<Step>)
    ensures |plan| == READ_PREFIX + count
    ensures plan[..READ_PREFIX] == [Start, AddressWrite(SlaW(address)), DataWrite(register), Start, AddressRead(SlaR(address))]
    ensures forall i :: READ_PREFIX <= i < |plan| - 1 ==> plan[i] == ReadAck
    ensures count > 0 ==> plan[READ_PREFIX + count - 1] == ReadNack
  {
    [Start, AddressWrite(SlaW(address)), DataWrite(register), Start, AddressRead(SlaR(address))] +
    seq(count, i requires 0 <= i < count => if i < count - 1 then ReadAck else ReadNack)
  }

  const READ_PREFIX: nat := 5

  /** The first step of `plan` from `k` on whose status is rejected, or |plan|. */
  function FirstFailure(plan: seq<Step>, twsr: nat -> byte, k: nat): (r: nat)
    requires k <= |plan|
    ensures k <= r <= |plan|
    ensures forall j :: k <= j < r ==> Accepts(plan[j], twsr(j))
    ensures r < |plan| ==> !Accepts(plan[r], twsr(r))
    decreases |plan| - k
  {
    if k == |plan| then k
    else if !Accepts(plan[k], twsr(k)) then k
    else FirstFailure(plan, twsr, k + 1)
  }

  /** The steps a transaction performs: everything up to and including the first
      rejected one. */
  function Performed(plan: seq<Step>, twsr: nat -> byte): (done: seq<Step>)
    ensures |done| <= |plan| && done == plan[..|done|]
    ensures (forall j :: 0 <= j < |plan| ==> Accepts(plan[j], twsr(j))) ==> done == plan
    ensures (exists j :: 0 <= j < |plan| && !Accepts(plan[j], twsr(j))) ==>
      0 < |done| && !Accepts(plan[|done| - 1], twsr(|done| - 1)) &&
      forall j :: 0 <= j < |done| - 1 ==> Accepts(plan[j], twsr(j))
  {
    var f := FirstFailure(plan, twsr, 0);
    if f < |plan| then plan[..f + 1] else plan
  }

  /** The outcome of a transaction: whether it succeeded, the steps on the bus,
      and whether a STOP was sent. */
  datatype Transaction = Transaction(ok: bool, steps: seq<Step>, stopped: bool)

  function Run(plan: seq<Step>, twsr: nat -> byte): (t: Transaction)
    requires |plan| > 0 && plan[0] == Start
    ensures t.ok <==> forall j :: 0 <= j < |plan| ==> Accepts(plan[j], twsr(j))
    ensures t.stopped <==> Accepts(Start, twsr(0))
    ensures 0 < |t.steps| <= |plan| && t.steps == plan[..|t.steps|]
  {
    Transaction(FirstFailure(plan, twsr, 0) == |plan|, Performed(plan, twsr), Accepts(Start, twsr(0)))
  }

  /** A failure ends the transaction at the step that failed: nothing after it is
      put on the bus. */
  lemma StopsAtFirstFailure(plan: seq<Step>, twsr: nat -> byte, k: nat)
    requires |plan| > 0 && plan[0] == Start
    requires k < |plan| && !Accepts(plan[k], twsr(k))
    requires forall j :: 0 <= j < k ==> Accepts(plan[j], twsr(j))
    ensures Run(plan, twsr) == Transaction(false, plan[..k + 1], k > 0)
  {
  }

  /** The TWI settings `i2c_master_init` and `i2c_master_deinit` write. */
  class Twi {
    var twbr: nat
    /** TWPS1:TWPS0. */
    var prescalerBits: nat
    var pinsOutput: bool
    var pinsPulledUp: bool

    constructor ()
      ensures twbr == 0 && prescalerBits == 0 && !pinsOutput && !pinsPulledUp
    {
      twbr := 0;
      prescalerBits := 0;
      pinsOutput := false;
      pinsPulledUp := false;
    }

    /** `i2c_master_init`: SDA and SCL end as inputs, pulled up iff asked, with
        prescaler 1 and the table's bit rate. */
    method Init(frequency: SclFrequency, isPullupEnabled: bool)
      modifies this
      ensures twbr == BitRateRegister(frequency) && prescalerBits == 0
      ensures !pinsOutput && pinsPulledUp == isPullupEnabled
    {
      pinsOutput := true;
      pinsPulledUp := isPullupEnabled;
      pinsOutput := false;
      prescalerBits := 0;
      twbr := BitRateRegister(frequency);
    }

    /** `i2c_master_deinit`: the reset values, TWBR 0 and prescaler 64. */
    method Deinit()
      modifies this
      ensures twbr == 0 && prescalerBits == 3 && !pinsOutput && pinsPulledUp == old(pinsPulledUp)
    {
      twbr := 0;
      prescalerBits := 3;
      pinsOutput := false;
    }
  }

  /** Every step accepted: the whole plan is performed and the transaction succeeds. */
  lemma RunsToEnd(plan: seq<Step>, twsr: nat -> byte)
    requires |plan| > 0 && plan[0] == Start
    requires forall j :: 0 <= j < |plan| ==> Accepts(plan[j], twsr(j))
    ensures Run(plan, twsr) == Transaction(true, plan, true)
  {
  }

  /** One bus step: the status decides whether the caller goes on. */
  method Perform(step: Step, k: nat, twsr: nat -> byte, steps: seq<Step>) returns (ok: bool, steps': seq<Step>)
    ensures ok == Accepts(step, twsr(k)) && steps' == steps + [step]
  {
    steps' := steps + [step];
    ok := Accepts(step, twsr(k));
  }

  /** Steps `from` to `to` of `plan`, in order, until one is rejected: the chain
      of `if (ret_val != STD_FAILURE)` tests and the data loop with its `break`. */
  method PerformSteps(plan: seq<Step>, from: nat, to: nat, twsr: nat -> byte, steps0: seq<Step>)
    returns (ok: bool, steps: seq<Step>)
    requires 0 < from <= to <= |plan| && plan[0] == Start && steps0 == plan[..from]
    requires forall j :: 0 <= j < from ==> Accepts(plan[j], twsr(j))
    ensures ok ==> steps == plan[..to] && forall j :: 0 <= j < to ==> Accepts(plan[j], twsr(j))
    ensures !ok ==> |steps| <= to && Transaction(false, steps, true) == Run(plan, twsr)
  {
    steps := steps0;
    ok := true;
    var k := from;
    while k < to
      invariant from <= k <= to
      invariant steps == plan[..k]
      invariant forall j :: 0 <= j < k ==> Accepts(plan[j], twsr(j))
    {
      ok, steps := Perform(plan[k], k, twsr, steps);
      if !ok {
        StopsAtFirstFailure(plan, twsr, k);
        return;
      }
      assert plan[..k + 1] == plan[..k] + [plan[k]];
      k := k + 1;
    }
  }

  /** `i2c_master_write_byte_array`: START, SLA+W, the register, then the data in
      index order, leaving at the first rejected step; STOP iff START succeeded. */
  method WriteByteArray(address: byte, register: byte, data: seq<byte>, twsr: nat -> byte)
    returns (ok: bool, steps: seq<Step>, stopped: bool)
    ensures Transaction(ok, steps, stopped) == Run(WritePlan(address, register, data), twsr)
  {
    var plan := WritePlan(address, register, data);
    assert plan[..1] == [Start];
    stopped := false;
    ok, steps := Perform(Start, 0, twsr, []);
    if !ok {
      StopsAtFirstFailure(plan, twsr, 0);
      return;
    }
    ok, steps := PerformSteps(plan, 1, |plan|, twsr, steps);
    if ok {
      RunsToEnd(plan, twsr);
    }
    stopped := true;
  }

  /** The bytes a read transaction leaves in `dest`: TWDR is copied for every read
      step that was performed, before its status is checked; other cells keep their
      old value. */
  ghost predicate ReadInto(dest: seq<byte>, before: seq<byte>, steps: seq<Step>, received: nat -> byte)
    requires |dest| == |before|
  {
    forall i :: 0 <= i < |dest| ==>
      dest[i] == if READ_PREFIX + i < |steps| then received(READ_PREFIX + i) else before[i]
  }

  /** The read of byte `i` extends what the loop has stored by one cell. */
  lemma ReadIntoStep(cells: seq<byte>, before: seq<byte>, i: nat, steps: seq<Step>, step: Step,
                     received: nat -> byte)
    requires |cells| == |before| && i < |cells| && |steps| == READ_PREFIX + i
    requires ReadInto(cells, before, steps, received)
    ensures ReadInto(cells[i := received(READ_PREFIX + i)], before, steps + [step], received)
  {
  }

  /** One read: TWDR is stored in `dest[i]`, then the status is checked. */
  method ReadStep(step: Step, i: nat, dest: array<byte>, twsr: nat -> byte, received: nat -> byte,
                  steps0: seq<Step>, ghost before: seq<byte>)
    returns (ok: bool, steps: seq<Step>)
    requires i < dest.Length && |steps0| == READ_PREFIX + i && |before| == dest.Length
    requires ReadInto(dest[..], before, steps0, received)
    modifies dest
    ensures ok == Accepts(step, twsr(READ_PREFIX + i)) && steps == steps0 + [step]
    ensures ReadInto(dest[..], before, steps, received)
  {
    ghost var cells := dest[..];
    dest[i] := received(READ_PREFIX + i);
    ok, steps := Perform(step, READ_PREFIX + i, twsr, steps0);
    ReadIntoStep(cells, before, i, steps0, step, received);
  }

  /** The read loop of `i2c_master_read_byte_array`, entered once the five
      addressing steps have been accepted. */
  method ReadData(plan: seq<Step>, count: nat, dest: array<byte>, twsr: nat -> byte, received: nat -> byte,
                  steps0: seq<Step>)
    returns (ok: bool, steps: seq<Step>)
    requires |plan| == READ_PREFIX + count && plan[0] == Start && steps0 == plan[..READ_PREFIX]
    requires forall j :: 0 <= j < READ_PREFIX ==> Accepts(plan[j], twsr(j))
    requires count <= dest.Length
    modifies dest
    ensures Transaction(ok, steps, true) == Run(plan, twsr)
    ensures ReadInto(dest[..], old(dest[..]), steps, received)
  {
    ghost var before := dest[..];
    steps := steps0;
    ok := true;
    var i := 0;
    while i < count
      invariant 0 <= i <= count
      invariant steps == plan[..READ_PREFIX + i]
      invariant forall j :: 0 <= j < READ_PREFIX + i ==> Accepts(plan[j], twsr(j))
      invariant ReadInto(dest[..], before, steps, received)
    {
      ok, steps := ReadStep(plan[READ_PREFIX + i], i, dest, twsr, received, steps, before);
      if !ok {
        StopsAtFirstFailure(plan, twsr, READ_PREFIX + i);
        return;
      }
      assert plan[..READ_PREFIX + i + 1] == plan[..READ_PREFIX + i] + [plan[READ_PREFIX + i]];
      i := i + 1;
    }
    RunsToEnd(plan, twsr);
  }

  /** `i2c_master_read_byte_array`: START, SLA+W, the register, a repeated START,
      SLA+R, then `count` reads into `dest`, leaving at the first rejected step;
      STOP iff the first START succeeded. */
  method ReadByteArray(address: byte, register: byte, dest: array<byte>, count: nat,
                       twsr: nat -> byte, received: nat -> byte)
    returns (ok: bool, steps: seq<Step>, stopped: bool)
    requires count <= dest.Length
    modifies dest
    ensures Transaction(ok, steps, stopped) == Run(ReadPlan(address, register, count), twsr)
    ensures ReadInto(dest[..], old(dest[..]), steps, received)
  {
    var plan := ReadPlan(address, register, count);
    assert plan[..1] == [Start];
    stopped := false;
    ok, steps := Perform(Start, 0, twsr, []);
    if !ok {
      StopsAtFirstFailure(plan, twsr, 0);
      return;
    }
    ok, steps := PerformSteps(plan, 1, READ_PREFIX, twsr, steps);
    if ok {
      ok, steps := ReadData(plan, count, dest, twsr, received, steps);
    }
    stopped := true;
  }
}
