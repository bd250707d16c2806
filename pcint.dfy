/** The pin-change interrupt registries of ports B, C and D. The three drivers are
    the same code over different registers, so one class models them, given the
    port's layout: which register bit each table pin uses, and how many mask bits
    `remove_all` clears. */
module Pcint {
  import opened Common
  import opened PinChange

  /** `pinBits[p]` is the bit of table pin `p` in the port's PCMSKn, PINx, PORTx and
      DDRx registers; `remove_all` clears the mask bits below `clearedMaskBits`. */
  type BitIndex = b: nat | b < 8

  datatype PortLayout = PortLayout(pinBits: seq<BitIndex>, clearedMaskBits: nat)
  {
    predicate WellFormed() {
      |pinBits| > 0 && clearedMaskBits <= 8 &&
      (forall p, q :: 0 <= p < q < |pinBits| ==> pinBits[p] != pinBits[q])
    }
  }

  /** Port B: PCINT_B_0 is PCINT0 (PB0); `remove_all` clears PCINT0..PCINT7. */
  const PCINT_B_0: nat := 0
  const PORT_B := PortLayout([0], 8)

  /** Port C: PCINT_C_11 is PCINT11 (PC3, bit 3 of PCMSK1); `remove_all` clears
      PCINT8..PCINT14, which are bits 0..6 of PCMSK1. */
  const PCINT_C_11: nat := 0
  const PORT_C := PortLayout([3], 7)

  /** Port D: PCINT_D_16 is PCINT16 (PD0), PCINT_D_21 is PCINT21 (PD5); `remove_all`
      clears PCINT16..PCINT23. */
  const PCINT_D_16: nat := 0
  const PCINT_D_21: nat := 1
  const PORT_D := PortLayout([0, 5], 8)

  /** The level the handler reads for an entry: its pin's bit of the PINx register,
      or nothing for a pin the port does not handle. */
  function Sample(layout: PortLayout, pin: nat, pinReg: Register): (l: Option<Level>)
    ensures l.Some? <==> pin < |layout.pinBits|
    ensures l.Some? ==> (l.value == High <==> pinReg[layout.pinBits[pin]])
    ensures l.Some? ==> (l.value == Low <==> !pinReg[layout.pinBits[pin]])
  {
    if pin < |layout.pinBits| then Some(if pinReg[layout.pinBits[pin]] then High else Low)
    else None
  }

  function Samples(layout: PortLayout, entries: seq<Entry>, pinReg: Register): (s: seq<Option<Level>>)
    ensures |s| == |entries|
    ensures forall i :: 0 <= i < |s| ==> s[i] == Sample(layout, entries[i].pin, pinReg)
  {
    seq(|entries|, i requires 0 <= i < |entries| => Sample(layout, entries[i].pin, pinReg))
  }

  /** `remove_all`'s two mask updates: the low `n` bits cleared, the rest kept. */
  function ClearLowBits(r: Register, n: nat): (c: Register)
    requires n <= 8
    ensures forall k :: 0 <= k < n ==> !c[k]
    ensures forall k :: n <= k < 8 ==> c[k] == r[k]
  {
    seq(8, k requires 0 <= k < 8 => if k < n then false else r[k])
  }

  class Registry {
    const layout: PortLayout
    const configArray: array<Entry>
    const previousStateArray: array<Level>
    /** PCMSKn */
    var mask: Register
    /** The port's PCIEn bit of PCICR. */
    var portEnabled: bool
    /** DDRx and PORTx */
    var ddr: Register
    var port: Register

    /** Both tables have one entry per pin and every entry names a pin of the port. */
    ghost predicate Shape()
      reads this, configArray
    {
      layout.WellFormed() &&
      configArray.Length == |layout.pinBits| &&
      previousStateArray.Length == |layout.pinBits| &&
      forall i :: 0 <= i < configArray.Length ==> configArray[i].pin < |layout.pinBits|
    }

    /** The table is consistent: an entry with a callback sits at the index of its
        own pin and has its mask bit set, and while any callback is registered the
        port interrupt is enabled. */
    ghost predicate Valid()
      reads this, configArray
    {
      Shape() &&
      (forall i :: 0 <= i < configArray.Length && configArray[i].callback.Some? ==>
         configArray[i].pin == i && mask[layout.pinBits[i]]) &&
      (AnyCallback(configArray[..]) ==> portEnabled)
    }

    /** Static storage is zero: no callbacks, pin 0 everywhere, every stored level
        LOW, and the registers at their reset value 0. */
    constructor (layout: PortLayout)
      requires layout.WellFormed()
      ensures Valid() && fresh(configArray) && fresh(previousStateArray)
      ensures this.layout == layout
      ensures forall i :: 0 <= i < configArray.Length ==> configArray[i] == Entry(0, false, None)
      ensures forall i :: 0 <= i < previousStateArray.Length ==> previousStateArray[i] == Low
      ensures mask == ZeroRegister && !portEnabled && ddr == ZeroRegister && port == ZeroRegister
    {
      this.layout := layout;
      configArray := new Entry[|layout.pinBits|](_ => Entry(0, false, None));
      previousStateArray := new Level[|layout.pinBits|](_ => Low);
      mask, portEnabled, ddr, port := ZeroRegister, false, ZeroRegister, ZeroRegister;
      new;
      assert !AnyCallback(configArray[..]);
    }

    /** `pcint_x_reset`: every callback cleared, every stored level UNKNOWN. */
    method Reset()
      requires Shape()
      modifies configArray, previousStateArray
      ensures Valid()
      ensures forall i :: 0 <= i < configArray.Length ==> configArray[i] == old(configArray[i]).(callback := None)
      ensures forall i :: 0 <= i < previousStateArray.Length ==> previousStateArray[i] == Unknown
    {
      for i := 0 to configArray.Length
        invariant forall j :: 0 <= j < i ==> configArray[j] == old(configArray[j]).(callback := None)
        invariant forall j :: i <= j < configArray.Length ==> configArray[j] == old(configArray[j])
        invariant forall j :: 0 <= j < i ==> previousStateArray[j] == Unknown
      {
        configArray[i] := configArray[i].(callback := None);
        previousStateArray[i] := Unknown;
      }
      assert !AnyCallback(configArray[..]);
    }

    /** `pcint_x_init`. */
    method Init()
      requires Shape()
      modifies configArray, previousStateArray
      ensures Valid()
      ensures forall i :: 0 <= i < configArray.Length ==> configArray[i] == old(configArray[i]).(callback := None)
      ensures forall i :: 0 <= i < previousStateArray.Length ==> previousStateArray[i] == Unknown
    {
      Reset();
    }

    /** `pcint_x_add`: store the entry at its pin's index with level UNKNOWN, make the
        pin an input with the requested pull-up, unmask it and enable the port. */
    method Add(config: PinConfig)
      requires Valid() && config.pin < configArray.Length
      modifies this, configArray, previousStateArray
      ensures Valid()
      ensures configArray[..] == old(configArray[..])[config.pin := Stored(config)]
      ensures previousStateArray[..] == old(previousStateArray[..])[config.pin := Unknown]
      ensures mask == old(mask)[layout.pinBits[config.pin] := true]
      ensures ddr == old(ddr)[layout.pinBits[config.pin] := false]
      ensures port == old(port)[layout.pinBits[config.pin] := config.isPullupEnabled]
      ensures portEnabled
    {
      configArray[config.pin] := Stored(config);
      previousStateArray[config.pin] := Unknown;
      var bit := layout.pinBits[config.pin];
      ddr := ddr[bit := false];
      if configArray[config.pin].isPullupEnabled {
        port := port[bit := true];
      } else {
        port := port[bit := false];
      }
      mask := mask[bit := true];
      portEnabled := true;
    }

    /** The scan inside `pcint_x_remove`: does any entry still hold a callback? */
    method HasActiveCallback() returns (active: bool)
      requires Shape()
      ensures active == AnyCallback(configArray[..])
    {
      active := false;
      var i := 0;
      while i < configArray.Length
        invariant 0 <= i <= configArray.Length
        invariant !active
        invariant forall j :: 0 <= j < i ==> configArray[j].callback.None?
      {
        if configArray[i].callback.Some? {
          active := true;
          break;
        }
        i := i + 1;
      }
    }

    /** `pcint_x_remove`: mask the pin, clear its callback and stored level, and
        disable the port interrupt exactly when no callback remains. */
    method Remove(pin: nat)
      requires Valid() && pin < configArray.Length
      modifies this, configArray, previousStateArray
      ensures Valid()
      ensures configArray[..] == old(configArray[..])[pin := old(configArray[pin]).(callback := None)]
      ensures previousStateArray[..] == old(previousStateArray[..])[pin := Unknown]
      ensures mask == old(mask)[layout.pinBits[pin] := false]
      ensures portEnabled == (old(portEnabled) && AnyCallback(configArray[..]))
      ensures portEnabled <==> AnyCallback(configArray[..])
      ensures ddr == old(ddr) && port == old(port)
    {
      mask := mask[layout.pinBits[pin] := false];
      configArray[pin] := configArray[pin].(callback := None);
      previousStateArray[pin] := Unknown;
      var active := HasActiveCallback();
      if !active {
        portEnabled := false;
      } else {
        ghost var k :| 0 <= k < configArray.Length && configArray[k].callback.Some?;
        assert old(configArray[k]).callback.Some?;
        assert AnyCallback(old(configArray[..]));
      }
    }

    /** `pcint_x_remove_all`: disable the port, clear the port's mask bits, reset
        the table. */
    method RemoveAll()
      requires Valid()
      modifies this, configArray, previousStateArray
      ensures Valid()
      ensures !portEnabled && mask == ClearLowBits(old(mask), layout.clearedMaskBits)
      ensures forall i :: 0 <= i < configArray.Length ==> configArray[i] == old(configArray[i]).(callback := None)
      ensures forall i :: 0 <= i < previousStateArray.Length ==> previousStateArray[i] == Unknown
      ensures ddr == old(ddr) && port == old(port)
    {
      portEnabled := false;
      mask := ClearLowBits(mask, layout.clearedMaskBits);
      Reset();
    }

    /** One iteration of the handler's loop: the entry at index `i`. */
    method Visit(i: nat, pinReg: Register) returns (call: seq<(CallbackId, Level)>)
      requires Shape() && i < configArray.Length
      modifies previousStateArray
      ensures previousStateArray[..] == old(previousStateArray[..])[i :=
        NextLevel(configArray[i], Sample(layout, configArray[i].pin, pinReg), old(previousStateArray[i]))]
      ensures call == Call(configArray[i], Sample(layout, configArray[i].pin, pinReg), old(previousStateArray[i]))
    {
      call := [];
      var entry := configArray[i];
      if entry.callback.Some? && entry.pin < |layout.pinBits| {
        var currentState := Low;
        if pinReg[layout.pinBits[entry.pin]] {
          currentState := High;
        }
        if previousStateArray[i] != currentState {
          previousStateArray[i] := currentState;
          call := [(entry.callback.value, currentState)];
        }
      }
    }

    /** `ISR(PCINTn_vect)` with the PINx register read as `pinReg`: in index order,
        each registered entry whose pin level differs from its stored level gets the
        new level stored and its callback called with it. */
    method Dispatch(pinReg: Register) returns (fired: seq<(CallbackId, Level)>)
      requires Shape()
      modifies previousStateArray
      ensures previousStateArray[..] ==
        NextLevels(configArray[..], Samples(layout, configArray[..], pinReg), old(previousStateArray[..]))
      ensures fired ==
        FiredUpTo(configArray[..], Samples(layout, configArray[..], pinReg), old(previousStateArray[..]), configArray.Length)
    {
      ghost var entries := configArray[..];
      ghost var sampled := Samples(layout, entries, pinReg);
      ghost var prev := old(previousStateArray[..]);
      ghost var target := NextLevels(entries, sampled, prev);
      fired := [];
      for i := 0 to configArray.Length
        invariant forall j :: 0 <= j < i ==> previousStateArray[j] == target[j]
        invariant forall j :: i <= j < previousStateArray.Length ==> previousStateArray[j] == prev[j]
        invariant fired == FiredUpTo(entries, sampled, prev, i)
      {
        assert previousStateArray[i] == prev[i];
        var call := Visit(i, pinReg);
        assert call == Call(entries[i], sampled[i], prev[i]);
        assert previousStateArray[i] == target[i];
        fired := fired + call;
      }
      assert previousStateArray[..] == target;
    }
  }

  /** The three ports' layouts are well formed, so each driver can be constructed. */
  lemma PortsWellFormed()
    ensures PORT_B.WellFormed() && PORT_C.WellFormed() && PORT_D.WellFormed()
  {
  }

  /** Port C's `remove_all` leaves bit 7 of PCMSK1 alone (there is no PCINT15);
      ports B and D clear the whole mask register. */
  lemma RemoveAllWidths(r: Register)
    ensures ClearLowBits(r, PORT_C.clearedMaskBits)[7] == r[7]
    ensures ClearLowBits(r, PORT_B.clearedMaskBits) == ZeroRegister
    ensures ClearLowBits(r, PORT_D.clearedMaskBits) == ZeroRegister
  {
  }
}
