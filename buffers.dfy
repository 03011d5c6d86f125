// The byte buffers that the Web Audio analyser fills (Uint8Array) and the
// maximum that `Math.max(...buffer)` takes of them.
module Buffers {

  /** One unsigned 8-bit sample or bin magnitude. */
  type Byte = x: int | 0 <= x < 256

  /**
   * `Math.max(...buffer)`: the largest byte of a buffer. The analyser's
   * buffers hold `frequencyBinCount` (half the FFT size) entries, so they are
   * never empty.
   */
  function Max(buffer: seq<Byte>): (m: Byte)
    requires |buffer| > 0
    ensures m in buffer
    ensures forall x :: x in buffer ==> x <= m
  {
    if |buffer| == 1 then buffer[0]
    else
      var rest := Max(buffer[1..]);
      assert forall x :: x in buffer ==> x == buffer[0] || x in buffer[1..];
      if buffer[0] > rest then buffer[0] else rest
  }
}
