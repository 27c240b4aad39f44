/** The raw reading of the LM75 temperature sensor: the 16-bit word read over
    SMBus arrives low byte first, so both programs mask it to 16 bits and swap
    its two bytes before converting it to degrees. */
module Lm75 {

  /** `raw & 0xFFFF` for the non-negative word the bus returns. */
  function Mask16(raw: nat): (w: nat)
    ensures w < 0x10000
    ensures raw < 0x10000 ==> w == raw
  {
    raw % 0x10000
  }

  /** `((raw << 8) & 0xFF00) + (raw >> 8)` applied to the masked word: the
      shift left is a multiplication by 0x100, and since its low byte is zero
      the mask keeps it modulo 0x10000; the shift right is a division. */
  function ByteSwap(raw: nat): (r: nat)
    ensures r < 0x10000
    ensures r / 0x100 == Mask16(raw) % 0x100
    ensures r % 0x100 == Mask16(raw) / 0x100
  {
    var w := Mask16(raw);
    (w * 0x100) % 0x10000 + w / 0x100
  }

  /** Swapping twice gives back the masked reading. */
  lemma ByteSwapTwice(raw: nat)
    ensures ByteSwap(ByteSwap(raw)) == Mask16(raw)
  {
    var w := Mask16(raw);
    var r := ByteSwap(raw);
    assert r == (w % 0x100) * 0x100 + w / 0x100;
    assert ByteSwap(r) == (r % 0x100) * 0x100 + r / 0x100;
  }
}
