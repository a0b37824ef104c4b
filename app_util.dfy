// DX::AppUtil::CalcConstantBufferByteSize (AppUtil.h): the size of a
// constant buffer, rounded up to the 256-byte hardware allocation unit.
module AppUtil {
  import opened TypeDef

  /** Clearing the low eight bits of a `UINT` (`& ~255`). */
  function ClearLowByte(t: u32): (r: u32)
    ensures r % 256 == 0 && r <= t < r + 256
  {
    t - t % 256
  }

  /** `(byteSize + 255) & ~255`, the sum taken in 32-bit unsigned arithmetic. */
  function CalcConstantBufferByteSize(byteSize: u32): (r: u32)
    ensures r % 256 == 0
  {
    ClearLowByte(AddUInt32(byteSize, 255))
  }

  /** Without wrap-around, the result is the least multiple of 256 that is
      at least the requested size. */
  lemma RoundsUp(b: u32)
    requires b <= 0xFFFF_FF00
    ensures b <= CalcConstantBufferByteSize(b) < b + 256
    ensures forall m: int :: m % 256 == 0 && b <= m ==> CalcConstantBufferByteSize(b) <= m
  {
  }

  /** The worked example of the source's comment. */
  lemma ThreeHundredBytes()
    ensures CalcConstantBufferByteSize(300) == 512
  {
  }

  /** A multiple of 256 is its own size, so rounding twice is rounding once. */
  lemma RoundingIsIdempotent(b: u32)
    ensures CalcConstantBufferByteSize(CalcConstantBufferByteSize(b)) == CalcConstantBufferByteSize(b)
  {
    var r := CalcConstantBufferByteSize(b);
    if r <= 0xFFFF_FF00 {
      RoundsUp(r);
    }
  }

  /** Past 0xFFFFFF00 the sum wraps and the size rounds to zero. */
  lemma WrapsToZero(b: u32)
    requires b > 0xFFFF_FF00
    ensures CalcConstantBufferByteSize(b) == 0
  {
  }
}
