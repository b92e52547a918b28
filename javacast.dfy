/**
 * Java's narrowing primitive conversion from `int` to `byte`, which the
 * progress handler applies to the value it receives.
 */
module JavaCast {
  import opened Domain

  /** `(byte) v`: keep the low eight bits and read them as a two's-complement
      byte. The result is the one byte value congruent to `v` modulo 256. */
  function ToByte(v: Int32): (b: Int8)
    ensures (b as int - v as int) % 256 == 0
  {
    var low := v as int % 256;
    if low < 128 then low as Int8 else (low - 256) as Int8
  }

  /** The cast changes exactly the values that do not fit in a byte. */
  lemma ToByteIdentity(v: Int32)
    ensures ToByte(v) as int == v as int <==> -128 <= v as int < 128
  {
  }

  /** Sample values: the percentages 0..100 survive, larger ones wrap. */
  lemma ToByteSamples()
    ensures ToByte(0) == 0 && ToByte(100) == 100 && ToByte(101) == 101
    ensures ToByte(-1) == -1 && ToByte(127) == 127
    ensures ToByte(128) == -128 && ToByte(200) == -56 && ToByte(256) == 0 && ToByte(300) == 44
  {
  }
}
