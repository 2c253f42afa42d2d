/** Bytes and the numbers they spell, as Python's to_bytes, from_bytes and bit_length define them. */
module Bytes {

  type byte = b: int | 0 <= b < 256

  function Pow256(n: nat): (r: nat)
    ensures r > 0
  {
    if n == 0 then 1 else 256 * Pow256(n - 1)
  }

  function BitLength(v: nat): nat {
    if v == 0 then 0 else 1 + BitLength(v / 2)
  }

  /** Bytes needed for v: its bit length rounded up to whole bytes. */
  function ByteWidth(v: nat): nat { (BitLength(v) + 7) / 8 }

  lemma BitLengthByte(v: nat)
    requires v >= 256
    ensures BitLength(v) == 8 + BitLength(v / 256)
  {
    assert BitLength(v) == 4 + BitLength(v / 16) by {
      assert v / 2 / 2 / 2 / 2 == v / 16;
      assert BitLength(v) == 1 + BitLength(v / 2) == 2 + BitLength(v / 2 / 2);
      assert BitLength(v / 2 / 2) == 1 + BitLength(v / 2 / 2 / 2) == 2 + BitLength(v / 2 / 2 / 2 / 2);
    }
    var w := v / 16;
    assert BitLength(w) == 4 + BitLength(w / 16) by {
      assert w / 2 / 2 / 2 / 2 == w / 16;
      assert BitLength(w) == 1 + BitLength(w / 2) == 2 + BitLength(w / 2 / 2);
      assert BitLength(w / 2 / 2) == 1 + BitLength(w / 2 / 2 / 2) == 2 + BitLength(w / 2 / 2 / 2 / 2);
    }
    assert v / 16 / 16 == v / 256;
  }

  lemma SmallBitLength(v: nat)
    requires v < 256
    ensures BitLength(v) <= 8 && (v == 0 <==> BitLength(v) == 0)
  {
    if v > 0 {
      assert v / 2 < 128 && v / 2 / 2 < 64 && v / 2 / 2 / 2 < 32 && v / 2 / 2 / 2 / 2 < 16;
      var w := v / 2 / 2 / 2 / 2;
      assert BitLength(v / 2 / 2) <= 2 + BitLength(w);
      assert BitLength(v) <= 2 + BitLength(v / 2 / 2);
      assert w / 2 / 2 < 4 && w / 2 / 2 / 2 / 2 == 0;
      assert BitLength(w / 2 / 2) <= 2 + BitLength(w / 2 / 2 / 2 / 2);
      assert BitLength(w) <= 2 + BitLength(w / 2 / 2);
    }
  }

  /** One more byte for each factor of 256. */
  lemma ByteWidthStep(v: nat)
    requires v > 0
    ensures ByteWidth(v) == 1 + ByteWidth(v / 256)
  {
    if v < 256 {
      SmallBitLength(v);
    } else {
      BitLengthByte(v);
    }
  }

  /** The width is enough, and one byte less is not. */
  lemma {:induction false} ByteWidthIsTight(v: nat)
    ensures v < Pow256(ByteWidth(v))
    ensures v > 0 ==> ByteWidth(v) > 0 && Pow256(ByteWidth(v) - 1) <= v
  {
    if v > 0 {
      ByteWidthStep(v);
      ByteWidthIsTight(v / 256);
    }
  }

  /** value.to_bytes(width, "little") */
  function LittleEndian(v: nat, width: nat): (s: seq<byte>)
    ensures |s| == width
    decreases width
  {
    if width == 0 then [] else [v % 256] + LittleEndian(v / 256, width - 1)
  }

  /** int.from_bytes(s, "little") */
  function FromLittleEndian(s: seq<byte>): nat {
    if s == [] then 0 else s[0] + 256 * FromLittleEndian(s[1..])
  }

  lemma {:induction false} LittleEndianRoundTrip(v: nat, width: nat)
    requires v < Pow256(width)
    ensures FromLittleEndian(LittleEndian(v, width)) == v
    decreases width
  {
    if width != 0 {
      LittleEndianRoundTrip(v / 256, width - 1);
      assert LittleEndian(v, width)[1..] == LittleEndian(v / 256, width - 1);
    }
  }

  lemma {:induction false} FromLittleEndianRoundTrip(s: seq<byte>)
    ensures FromLittleEndian(s) < Pow256(|s|)
    ensures LittleEndian(FromLittleEndian(s), |s|) == s
  {
    if s != [] {
      FromLittleEndianRoundTrip(s[1..]);
      var v := FromLittleEndian(s);
      assert v % 256 == s[0] && v / 256 == FromLittleEndian(s[1..]);
      assert s == [s[0]] + s[1..];
    }
  }
}
