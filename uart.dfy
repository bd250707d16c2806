/** The USART0 driver: the baud-rate divisor written to UBRR0, the transmitter
    (each byte handed to UDR0 once the data register is empty) and the optional
    64-byte receive buffer filled by the RX interrupt. */
module Uart {
  import opened Common

  const F_CPU: nat := 16_000_000
  const U32_MODULUS: int := 0x1_0000_0000
  const UART_RX_BUFFER_SIZE: nat := 64
  /** The baud rate the board opens the port with. */
  const BOARD_BAUD_RATE: nat := 9600

  type u32 = x: int | 0 <= x < U32_MODULUS
  type u8 = x: int | 0 <= x < 256

  /** `uart_init`'s divisor, in the unsigned 32-bit arithmetic it is written in and
      truncated to 16 bits. The division must not be by zero. Above F_CPU / 8
      baud the quotient is 0 and the subtraction wraps to the largest divisor. */
  function BaudDivisor(baud: u32): (d: u16)
    requires (baud * 16) % U32_MODULUS != 0
    ensures 2 * F_CPU / 16 < baud < U32_MODULUS / 16 ==> d == U16_MODULUS - 1
  {
    var numerator := (F_CPU + (baud * 8) % U32_MODULUS) % U32_MODULUS;
    var denominator := (baud * 16) % U32_MODULUS;
    FastRateQuotient(baud, numerator, denominator);
    ((numerator / denominator - 1) % U32_MODULUS) % U16_MODULUS
  }

  /** Above F_CPU / 8 baud (and below the 32-bit wrap of 16 baud) the rounded
      quotient is 0. */
  lemma FastRateQuotient(baud: u32, numerator: int, denominator: int)
    requires numerator == (F_CPU + (baud * 8) % U32_MODULUS) % U32_MODULUS
    requires denominator == (baud * 16) % U32_MODULUS && denominator != 0
    ensures 2 * F_CPU / 16 < baud < U32_MODULUS / 16 ==>
      numerator / denominator == 0 && ((0 - 1) % U32_MODULUS) % U16_MODULUS == U16_MODULUS - 1
  {
    if 2 * F_CPU / 16 < baud < U32_MODULUS / 16 {
      SmallMod(baud * 8, U32_MODULUS);
      SmallMod(baud * 16, U32_MODULUS);
      SmallMod(F_CPU + baud * 8, U32_MODULUS);
      SmallQuotient(numerator, denominator);
    }
  }

  lemma SmallMod(x: int, m: int)
    requires 0 <= x < m
    ensures x % m == x
  {
  }

  lemma SmallQuotient(n: int, d: int)
    requires 0 <= n < d
    ensures n / d == 0
  {
  }

  /** Rounding division of `n` by `d`, the quotient bounded from both sides. */
  lemma RoundedQuotient(n: nat, d: nat)
    requires 0 < d <= n
    ensures 1 <= (n + d / 2) / d
    ensures d * ((n + d / 2) / d) <= n + d / 2 < d * ((n + d / 2) / d) + d
  {
    var m := n + d / 2;
    var q := m / d;
    var r := m % d;
    assert m == d * q + r && 0 <= r < d;
    assert d * q > 0;
  }

  /** From 16 baud up to F_CPU / 16 the divisor is F_CPU / (16 baud) rounded to
      the nearest integer, minus one: nothing wraps, and the rate it sets is off by
      at most half a divisor step. Below 16 baud the quotient exceeds 16 bits. */
  lemma DivisorRoundsToNearest(baud: u32)
    requires 16 <= baud <= F_CPU / 16
    ensures (baud * 16) % U32_MODULUS != 0
    ensures BaudDivisor(baud) + 1 == (F_CPU + 8 * baud) / (16 * baud)
    ensures 16 * baud * (BaudDivisor(baud) + 1) <= F_CPU + 8 * baud
    ensures F_CPU + 8 * baud < 16 * baud * (BaudDivisor(baud) + 1) + 16 * baud
  {
    var d := 16 * baud;
    var q := (F_CPU + 8 * baud) / d;
    NoWrapBelowClock(baud);
    assert BaudDivisor(baud) == ((q - 1) % U32_MODULUS) % U16_MODULUS;
    assert d / 2 == 8 * baud;
    RoundedQuotient(F_CPU, d);
    QuotientFits(d, q);
    NarrowingKeeps(q - 1);
  }

  /** A value below 2^16 passes through the 32-bit and 16-bit truncations intact. */
  lemma NarrowingKeeps(x: int)
    requires 0 <= x < U16_MODULUS
    ensures (x % U32_MODULUS) % U16_MODULUS == x
  {
  }

  /** Up to F_CPU / 16 baud none of the divisor's 32-bit intermediates wraps. */
  lemma NoWrapBelowClock(baud: u32)
    requires baud <= F_CPU / 16
    ensures (baud * 8) % U32_MODULUS == 8 * baud
    ensures (baud * 16) % U32_MODULUS == 16 * baud
    ensures (F_CPU + 8 * baud) % U32_MODULUS == F_CPU + 8 * baud
  {
  }

  /** A rounded quotient of F_CPU by a divisor of at least 256 fits in 16 bits. */
  lemma QuotientFits(d: nat, q: nat)
    requires 256 <= d && 1 <= q && d * q <= F_CPU + d / 2
    ensures q <= 62500
  {
    MulMonotone(2 * q - 1, 256, d);
    assert (2 * q - 1) * d == 2 * (d * q) - d;
  }

  lemma {:induction false} MulMonotone(k: nat, a: nat, b: nat)
    requires a <= b
    ensures k * a <= k * b
  {
    if k > 0 {
      MulMonotone(k - 1, a, b);
      assert k * a == (k - 1) * a + a;
      assert k * b == (k - 1) * b + b;
    }
  }

  lemma BoardDivisor()
    ensures BaudDivisor(BOARD_BAUD_RATE) == 103
  {
  }

  /** UBRR0L and UBRR0H. */
  function DivisorLow(d: u16): (lo: u8)
    ensures lo == d % 256
  {
    d % 256
  }

  function DivisorHigh(d: u16): (hi: u8)
    ensures hi == d / 256
  {
    d / 256
  }

  /** The two register halves give the divisor back. */
  lemma DivisorHalvesRecombine(d: u16)
    ensures DivisorHigh(d) * 256 + DivisorLow(d) == d
  {
  }

  /** The receive buffer after one more byte arrives: a full buffer is first
      emptied, so at most the bytes since it last filled up are kept. */
  function Fill(contents: seq<byte>, b: byte): (c: seq<byte>)
    requires |contents| <= UART_RX_BUFFER_SIZE
    ensures 1 <= |c| <= UART_RX_BUFFER_SIZE
    ensures c[|c| - 1] == b
    ensures |contents| < UART_RX_BUFFER_SIZE ==> c == contents + [b]
    ensures |contents| == UART_RX_BUFFER_SIZE ==> c == [b]
  {
    if |contents| == UART_RX_BUFFER_SIZE then [b] else contents + [b]
  }

  function FillAll(contents: seq<byte>, bytes: seq<byte>): (c: seq<byte>)
    requires |contents| <= UART_RX_BUFFER_SIZE
    ensures |c| <= UART_RX_BUFFER_SIZE
    decreases |bytes|
  {
    if |bytes| == 0 then contents
    else FillAll(Fill(contents, bytes[0]), bytes[1..])
  }

  /** After a burst of n > 0 bytes into an empty buffer, the buffer holds the last
      ((n - 1) mod 64) + 1 of them: every earlier full block was thrown away. */
  lemma {:induction false} BurstKeepsLastBlock(bytes: seq<byte>)
    requires |bytes| > 0
    ensures |FillAll([], bytes)| == (|bytes| - 1) % UART_RX_BUFFER_SIZE + 1
    ensures FillAll([], bytes) == bytes[|bytes| - |FillAll([], bytes)|..]
  {
    assert Fill([], bytes[0]) == [bytes[0]] == bytes[0..1];
    assert FillAll([], bytes) == FillAll([bytes[0]], bytes[1..]);
    var blocks := BurstFrom([bytes[0]], bytes, 1, 0);
    LastBlockStart(blocks, |bytes|);
  }

  /** When `n` lies in the block after boundary `blocks * 64`, that boundary is the
      one below `n - 1`. */
  lemma LastBlockStart(blocks: nat, n: nat)
    requires blocks * UART_RX_BUFFER_SIZE < n <= blocks * UART_RX_BUFFER_SIZE + UART_RX_BUFFER_SIZE
    ensures n - blocks * UART_RX_BUFFER_SIZE == (n - 1) % UART_RX_BUFFER_SIZE + 1
  {
    assert n - 1 == blocks * UART_RX_BUFFER_SIZE + (n - 1 - blocks * UART_RX_BUFFER_SIZE);
  }

  /** The generalised claim: with `bytes[..done]` (at least one byte) already
      received and `contents` the bytes since the block boundary `blocks * 64`, the rest of the burst
      leaves the bytes since the last block boundary. */
  lemma {:induction false} BurstFrom(contents: seq<byte>, bytes: seq<byte>, done: nat, blocks: nat)
    returns (last: nat)
    requires done <= |bytes|
    requires blocks * UART_RX_BUFFER_SIZE < done <= blocks * UART_RX_BUFFER_SIZE + UART_RX_BUFFER_SIZE
    requires contents == bytes[blocks * UART_RX_BUFFER_SIZE..done]
    ensures last * UART_RX_BUFFER_SIZE < |bytes| <= last * UART_RX_BUFFER_SIZE + UART_RX_BUFFER_SIZE
    ensures FillAll(contents, bytes[done..]) == bytes[last * UART_RX_BUFFER_SIZE..]
    decreases |bytes| - done
  {
    if done == |bytes| {
      assert bytes[done..] == [];
      assert contents == bytes[blocks * UART_RX_BUFFER_SIZE..];
      last := blocks;
    } else {
      var next, nextBlocks := BurstStep(contents, bytes, done, blocks);
      last := BurstFrom(next, bytes, done + 1, nextBlocks);
    }
  }

  /** One byte of the burst: the kept bytes are again those since a block
      boundary, which moves up by one block when the buffer was full. */
  lemma BurstStep(contents: seq<byte>, bytes: seq<byte>, done: nat, blocks: nat)
    returns (next: seq<byte>, nextBlocks: nat)
    requires done < |bytes|
    requires blocks * UART_RX_BUFFER_SIZE < done <= blocks * UART_RX_BUFFER_SIZE + UART_RX_BUFFER_SIZE
    requires contents == bytes[blocks * UART_RX_BUFFER_SIZE..done]
    ensures |next| <= UART_RX_BUFFER_SIZE
    ensures FillAll(contents, bytes[done..]) == FillAll(next, bytes[done + 1..])
    ensures nextBlocks * UART_RX_BUFFER_SIZE < done + 1 <= nextBlocks * UART_RX_BUFFER_SIZE + UART_RX_BUFFER_SIZE
    ensures next == bytes[nextBlocks * UART_RX_BUFFER_SIZE..done + 1]
  {
    next := Fill(contents, bytes[done]);
    assert bytes[done..][1..] == bytes[done + 1..];
    var start := blocks * UART_RX_BUFFER_SIZE;
    if |contents| == UART_RX_BUFFER_SIZE {
      nextBlocks := blocks + 1;
      assert nextBlocks * UART_RX_BUFFER_SIZE == done;
      assert next == [bytes[done]] == bytes[done..done + 1];
    } else {
      nextBlocks := blocks;
      assert next == contents + [bytes[done]];
      assert bytes[start..done + 1] == bytes[start..done] + [bytes[done]];
    }
  }

  /** The USART0 registers the driver touches and the bytes written to UDR0. */
  class Usart {
    var charSize8: bool
    var txEnabled: bool
    var rxEnabled: bool
    var rxInterruptEnabled: bool
    var ubrrLow: u8
    var ubrrHigh: u8
    /** Every byte handed to UDR0, in order. */
    var sent: seq<byte>
    const rxBuffer: array<byte>
    var rxBufferSize: nat

    predicate Valid()
      reads this
    {
      rxBuffer.Length == UART_RX_BUFFER_SIZE && rxBufferSize <= UART_RX_BUFFER_SIZE
    }

    /** The bytes waiting in the receive buffer. */
    function Received(): (r: seq<byte>)
      reads this, rxBuffer
      requires Valid()
      ensures |r| == rxBufferSize
    {
      rxBuffer[..rxBufferSize]
    }

    /** The peripheral at reset. */
    constructor ()
      ensures Valid() && sent == [] && rxBufferSize == 0 && fresh(rxBuffer)
      ensures !txEnabled && !rxEnabled && !rxInterruptEnabled
    {
      charSize8 := false;
      txEnabled := false;
      rxEnabled := false;
      rxInterruptEnabled := false;
      ubrrLow := 0;
      ubrrHigh := 0;
      sent := [];
      rxBuffer := new byte[UART_RX_BUFFER_SIZE](_ => 0);
      rxBufferSize := 0;
    }

    /** `uart_init`; `rxEnable` stands for the UART_RX_ENABLE build switch, which
        the board's configuration leaves off. */
    method Init(baud: u32, rxEnable: bool)
      requires Valid()
      requires (baud * 16) % U32_MODULUS != 0
      modifies this
      ensures Valid() && charSize8 && txEnabled && sent == old(sent)
      ensures ubrrLow == DivisorLow(BaudDivisor(baud)) && ubrrHigh == DivisorHigh(BaudDivisor(baud))
      ensures rxEnable ==> rxEnabled && rxInterruptEnabled && rxBufferSize == 0
      ensures !rxEnable ==> rxEnabled == old(rxEnabled) && rxInterruptEnabled == old(rxInterruptEnabled) &&
                            rxBufferSize == old(rxBufferSize)
    {
      charSize8 := true;
      var divisor := BaudDivisor(baud);
      ubrrLow := DivisorLow(divisor);
      ubrrHigh := DivisorHigh(divisor);
      txEnabled := true;
      if rxEnable {
        CleanRxBuffer();
        rxInterruptEnabled := true;
        rxEnabled := true;
      }
    }

    /** `uart_deinit`. */
    method Deinit()
      modifies this
      ensures !txEnabled && !rxEnabled && !rxInterruptEnabled
      ensures sent == old(sent) && rxBufferSize == old(rxBufferSize) && charSize8 == old(charSize8)
      ensures ubrrLow == old(ubrrLow) && ubrrHigh == old(ubrrHigh)
    {
      rxInterruptEnabled := false;
      rxEnabled := false;
      txEnabled := false;
    }

    /** `uart_write_byte` once the data register is empty. */
    method WriteByte(b: byte)
      modifies this`sent
      ensures sent == old(sent) + [b]
    {
      sent := sent + [b];
    }

    /** `uart_write_byte_array`: each byte once, in array order. */
    method WriteByteArray(bytes: seq<byte>)
      modifies this`sent
      ensures sent == old(sent) + bytes
    {
      for i := 0 to |bytes|
        invariant sent == old(sent) + bytes[..i]
      {
        WriteByte(bytes[i]);
        assert bytes[..i + 1] == bytes[..i] + [bytes[i]];
      }
      assert bytes[..|bytes|] == bytes;
    }

    /** `uart_clean_rx_buffer`. */
    method CleanRxBuffer()
      modifies this`rxBufferSize
      ensures rxBufferSize == 0
    {
      rxBufferSize := 0;
    }

    /** `uart_read_byte_array` into the first `arraySize` cells of `dest`: the
        waiting bytes, as many as fit, are copied and the rest are discarded. */
    method ReadByteArray(dest: array<byte>, arraySize: nat) returns (bytesRead: nat)
      requires Valid() && arraySize <= dest.Length && dest != rxBuffer
      modifies this`rxBufferSize, dest
      ensures Valid() && rxBufferSize == 0
      ensures bytesRead == if old(rxBufferSize) < arraySize then old(rxBufferSize) else arraySize
      ensures dest[..bytesRead] == old(Received())[..bytesRead]
      ensures dest[bytesRead..] == old(dest[bytesRead..])
    {
      bytesRead := 0;
      if rxBufferSize != 0 {
        var copySize := arraySize;
        if rxBufferSize < arraySize {
          copySize := rxBufferSize;
        }
        CopyPrefix(rxBuffer, dest, copySize);
        bytesRead := copySize;
        rxBufferSize := 0;
      }
    }

    /** `USART_RX_vect` with `udr` the byte read from UDR0. */
    method RxInterrupt(udr: byte)
      requires Valid()
      modifies this`rxBufferSize, rxBuffer
      ensures Valid() && 1 <= rxBufferSize <= UART_RX_BUFFER_SIZE
      ensures Received() == Fill(old(Received()), udr)
      ensures rxBuffer[rxBufferSize..] == old(rxBuffer[..])[rxBufferSize..]
    {
      if rxBufferSize == rxBuffer.Length {
        rxBufferSize := 0;
      }
      rxBuffer[rxBufferSize] := udr;
      rxBufferSize := rxBufferSize + 1;
    }
  }

  /** `memcpy` of the first `n` bytes. */
  method CopyPrefix(src: array<byte>, dst: array<byte>, n: nat)
    requires n <= src.Length && n <= dst.Length && src != dst
    modifies dst
    ensures dst[..n] == src[..n]
    ensures dst[n..] == old(dst[n..])
  {
    for k := 0 to n
      invariant dst[..k] == src[..k]
      invariant forall j :: k <= j < dst.Length ==> dst[j] == old(dst[j])
    {
      dst[k] := src[k];
    }
  }
}
