/** SCALE compact integers: one file encodes them, another decodes lengths
    (Polkadot Protocol Specification, section A.2.2.1, Length and Compact Encoding). */
module Compact {
  import opened Wrappers
  import opened Bytes

  datatype CompactError =
    | Negative | TooWide | Truncated | TwoByteTruncated | FourByteTruncated | BigInteger | MetadataTruncated

  datatype Result<+T> = Ok(value: T) | Err(error: CompactError)

  datatype Length = Length(value: nat, next: nat)

  const TWO_6: nat := 64
  const TWO_14: nat := 16384
  const TWO_30: nat := 1073741824


  /** Fails on negative values and on values too wide for the one-byte length prefix. */
  function Encode(value: int): Result<seq<byte>> {
    if value < 0 then Err(Negative)
    else if value < TWO_6 then Ok([value * 4])
    else if value < TWO_14 then Ok(LittleEndian(value * 4 + 1, 2))
    else if value < TWO_30 then Ok(LittleEndian(value * 4 + 2, 4))
    else
      var width := Max(4, ByteWidth(value));
      if (width - 4) * 4 + 3 > 255 then Err(TooWide)
      else Ok([(width - 4) * 4 + 3] + LittleEndian(value, width))
  }

  /** A SCALE compact length at an offset: the value and the offset just past it. */
  function DecodeLen(raw: seq<byte>, offset: nat): Result<Length> {
    if offset >= |raw| then Err(Truncated)
    else if raw[offset] % 4 == 0 then Ok(Length(raw[offset] / 4, offset + 1))
    else if raw[offset] % 4 == 1 then
      if offset + 2 > |raw| then Err(TwoByteTruncated)
      else Ok(Length(FromLittleEndian(raw[offset..offset + 2]) / 4, offset + 2))
    else if raw[offset] % 4 == 2 then
      if offset + 4 > |raw| then Err(FourByteTruncated)
      else Ok(Length(FromLittleEndian(raw[offset..offset + 4]) / 4, offset + 4))
    else Err(BigInteger)
  }

  function DecodeDecimals(raw: seq<byte>): Result<byte> {
    match DecodeLen(raw, 16)
    case Err(e) => Err(e)
    case Ok(Length(nameLen, afterLen)) =>
      match DecodeLen(raw, afterLen + nameLen)
      case Err(e) => Err(e)
      case Ok(Length(symbolLen, afterSymbolLen)) =>
        var offset := afterSymbolLen + symbolLen;
        if offset >= |raw| then Err(MetadataTruncated) else Ok(raw[offset])
  }

  lemma PowFacts()
    ensures Pow256(1) == 256 && Pow256(2) == 65536 && Pow256(3) == 16777216 && Pow256(4) == 4294967296
  {
    assert Pow256(1) == 256 * Pow256(0);
    assert Pow256(2) == 256 * Pow256(1);
    assert Pow256(3) == 256 * Pow256(2);
    assert Pow256(4) == 256 * Pow256(3);
  }

  /** The low two bits of the first byte give the mode, and the mode and prefix give the length. */
  lemma EncodedShape(value: nat)
    requires Encode(value).Ok?
    ensures var e := Encode(value).value;
            && |e| > 0
            && (value < TWO_6 ==> |e| == 1 && e[0] % 4 == 0 && e[0] / 4 == value)
            && (TWO_6 <= value < TWO_14 ==> |e| == 2 && e[0] % 4 == 1 && FromLittleEndian(e) == value * 4 + 1)
            && (TWO_14 <= value < TWO_30 ==> |e| == 4 && e[0] % 4 == 2 && FromLittleEndian(e) == value * 4 + 2)
            && (TWO_30 <= value ==>
                  && e[0] % 4 == 3 && |e| == 5 + e[0] / 4 && FromLittleEndian(e[1..]) == value
                  && Pow256(|e| - 2) <= value)
  {
    hide Pow256, LittleEndian, FromLittleEndian, ByteWidth;
    PowFacts();
    if TWO_6 <= value < TWO_14 {
      LittleEndianRoundTrip(value * 4 + 1, 2);
      LowByte(value * 4 + 1, 2);
    } else if TWO_14 <= value < TWO_30 {
      LittleEndianRoundTrip(value * 4 + 2, 4);
      LowByte(value * 4 + 2, 4);
    } else if TWO_30 <= value {
      WideShape(value);
    }
  }

  lemma WideShape(value: nat)
    requires TWO_30 <= value && Encode(value).Ok?
    ensures var e := Encode(value).value;
            && |e| > 0 && e[0] % 4 == 3 && |e| == 5 + e[0] / 4 && FromLittleEndian(e[1..]) == value
            && Pow256(|e| - 2) <= value
  {
    hide Pow256, LittleEndian, FromLittleEndian, ByteWidth;
    var width := Max(4, ByteWidth(value));
    ByteWidthIsTight(value);
    Pow256Grows(ByteWidth(value), width);
    LittleEndianRoundTrip(value, width);
    assert Encode(value).value[1..] == LittleEndian(value, width);
    PowFacts();
    assert width == 4 ==> Pow256(3) <= value;
  }

  /** Every value from zero up to what 67 bytes can hold is encodable, and no other. */
  lemma EncodeFailsIff(value: int)
    ensures Encode(value) == Err(Negative) <==> value < 0
    ensures Encode(value) == Err(TooWide) <==> value >= Pow256(67)
    ensures Encode(value).Ok? <==> 0 <= value < Pow256(67)
  {
    hide Pow256, LittleEndian, ByteWidth;
    if value >= 0 {
      PowFacts();
      Pow256Grows(4, 67);
      ByteWidthIsTight(value);
      if ByteWidth(value) <= 67 {
        Pow256Grows(ByteWidth(value), 67);
      } else {
        Pow256Grows(67, ByteWidth(value) - 1);
      }
    }
  }

  lemma LowByte(v: nat, width: nat)
    requires width > 0
    ensures LittleEndian(v, width)[0] % 4 == v % 4
  {
    assert LittleEndian(v, width)[0] == v % 256;
  }

  lemma {:induction false} Pow256Grows(m: nat, n: nat)
    requires m <= n
    ensures Pow256(m) <= Pow256(n)
    decreases n
  {
    if m < n {
      Pow256Grows(m, n - 1);
    }
  }

  /** Below 2^30, decoding wherever the encoding stands gives back the value and the offset past it. */
  lemma DecodeUndoesEncode(value: nat, prefix: seq<byte>, suffix: seq<byte>)
    requires value < TWO_30
    ensures Encode(value).Ok?
    ensures DecodeLen(prefix + Encode(value).value + suffix, |prefix|) ==
            Ok(Length(value, |prefix| + |Encode(value).value|))
  {
    EncodedShape(value);
    var e := Encode(value).value;
    var raw := prefix + e + suffix;
    assert raw[|prefix|] == e[0];
    assert raw[|prefix|..|prefix| + |e|] == e;
  }

  /** Wider values are never misread as a length: the decoder rejects every one of their encodings. */
  lemma DecodeRejectsWide(value: nat, prefix: seq<byte>, suffix: seq<byte>)
    requires TWO_30 <= value && Encode(value).Ok?
    ensures DecodeLen(prefix + Encode(value).value + suffix, |prefix|).Err?
  {
    EncodedShape(value);
    assert (prefix + Encode(value).value + suffix)[|prefix|] == Encode(value).value[0];
  }

  /** Injective and prefix-free at once: two encodings that start the same stream are the same. */
  lemma EncodingsNeverOverlap(a: nat, b: nat, x: seq<byte>, y: seq<byte>)
    requires Encode(a).Ok? && Encode(b).Ok? && Encode(a).value + x == Encode(b).value + y
    ensures a == b && x == y
  {
    var p, q := Encode(a).value, Encode(b).value;
    EncodedShape(a);
    EncodedShape(b);
    assert p[0] == (p + x)[0] == (q + y)[0] == q[0];
    assert |p| == |q|;
    assert p == (p + x)[..|p|] == (q + y)[..|q|] == q;
    assert x == (p + x)[|p|..] == (q + y)[|q|..] == y;
  }

  /** How many bytes each mode takes; none for the mode that the decoder does not read. */
  function ModeWidth(first: byte): nat {
    if first % 4 == 0 then 1 else if first % 4 == 1 then 2 else if first % 4 == 2 then 4 else 0
  }

  /** The decoder reads a length exactly when its mode is one of the three and its bytes are there, and then
      the bytes read are four times the value plus the mode, little end first. */
  lemma DecodeIff(raw: seq<byte>, offset: nat)
    ensures DecodeLen(raw, offset).Ok? <==>
            offset < |raw| && ModeWidth(raw[offset]) > 0 && offset + ModeWidth(raw[offset]) <= |raw|
    ensures DecodeLen(raw, offset).Ok? ==>
              var Length(value, next) := DecodeLen(raw, offset).value;
              && next == offset + ModeWidth(raw[offset])
              && FromLittleEndian(raw[offset..next]) == 4 * value + raw[offset] % 4
    ensures DecodeLen(raw, offset) == Err(Truncated) <==> offset >= |raw|
    ensures DecodeLen(raw, offset) == Err(BigInteger) <==> offset < |raw| && raw[offset] % 4 == 3
  {
    if DecodeLen(raw, offset).Ok? {
      var next := DecodeLen(raw, offset).value.next;
      var read := raw[offset..next];
      assert FromLittleEndian(read) == read[0] + 256 * FromLittleEndian(read[1..]);
      if |read| == 1 {
        assert read[1..] == [];
      }
    }
  }

  /** A length in the shortest of the three modes that hold it, read off the bytes alone. */
  predicate Shortest(raw: seq<byte>, offset: nat) {
    && offset < |raw|
    && (|| raw[offset] % 4 == 0
        || (raw[offset] % 4 == 1 && offset + 2 <= |raw| && raw[offset + 1] != 0)
        || (raw[offset] % 4 == 2 && offset + 4 <= |raw| && (raw[offset + 2] != 0 || raw[offset + 3] != 0)))
  }

  /** The decoder also accepts encodings the encoder never makes. On every input, it accepts and has read
      the encoder's own bytes exactly when they are in the shortest mode. */
  lemma CanonicalIff(raw: seq<byte>, offset: nat)
    ensures Shortest(raw, offset) <==>
            var r := DecodeLen(raw, offset);
            && r.Ok? && Encode(r.value.value).Ok? && offset <= r.value.next <= |raw|
            && raw[offset..r.value.next] == Encode(r.value.value).value
  {
    if DecodeLen(raw, offset).Ok? {
      SameLengthIsSame(raw, offset);
      var Length(value, next) := DecodeLen(raw, offset).value;
      EncodedShape(value);
      ReadValue(raw, offset);
    }
  }

  /** How large the value read is, told by the bytes above the shorter modes. */
  lemma ReadValue(raw: seq<byte>, offset: nat)
    requires DecodeLen(raw, offset).Ok?
    ensures var value := DecodeLen(raw, offset).value.value;
            && (raw[offset] % 4 == 0 ==> value < TWO_6)
            && (raw[offset] % 4 == 1 ==> value < TWO_14 && (value < TWO_6 <==> raw[offset + 1] == 0))
            && (raw[offset] % 4 == 2 ==>
                value < TWO_30 && (value < TWO_14 <==> raw[offset + 2] == 0 && raw[offset + 3] == 0))
  {
    var next := DecodeLen(raw, offset).value.next;
    var read := raw[offset..next];
    if raw[offset] % 4 == 1 {
      TwoBytes(read);
    } else if raw[offset] % 4 == 2 {
      FourBytes(read);
    }
  }

  lemma TwoBytes(b: seq<byte>)
    requires |b| == 2
    ensures var x: int, y: int := b[0], b[1]; FromLittleEndian(b) == x + 256 * y
  {
    assert b[1..][0] == b[1] && b[1..][1..] == [];
    assert FromLittleEndian(b[1..]) == b[1] + 256 * FromLittleEndian([]);
  }

  lemma FourBytes(b: seq<byte>)
    requires |b| == 4
    ensures var x: int, y: int, z: int, u: int := b[0], b[1], b[2], b[3];
            FromLittleEndian(b) == x + 256 * y + 65536 * (z + 256 * u)
  {
    assert b[1..][1..] == b[2..] && b[1..][0] == b[1];
    TwoBytes(b[2..]);
    assert FromLittleEndian(b[1..]) == b[1] + 256 * FromLittleEndian(b[2..]);
  }

  /** What was read is the encoder's own form if it is as long. */
  lemma SameLengthIsSame(raw: seq<byte>, offset: nat)
    requires DecodeLen(raw, offset).Ok?
    ensures var Length(value, next) := DecodeLen(raw, offset).value;
            && value < TWO_30 && Encode(value).Ok? && next <= |raw|
            && (raw[offset..next] == Encode(value).value <==> next - offset == |Encode(value).value|)
  {
    PowFacts();
    var Length(value, next) := DecodeLen(raw, offset).value;
    var read := raw[offset..next];
    FromLittleEndianRoundTrip(read);
    assert FromLittleEndian(read) % 4 == read[0] % 4 by {
      assert FromLittleEndian(read) == read[0] + 256 * FromLittleEndian(read[1..]);
    }
    EncodedShape(value);
    if |read| == 1 {
      assert read == [raw[offset]];
    }
  }

  lemma NonCanonicalExample()
    ensures DecodeLen([1, 0], 0) == Ok(Length(0, 2)) && Encode(0) == Ok([0])
  {
    assert [1, 0][0..2] == [1, 0];
    assert FromLittleEndian([1, 0]) == 1 by {
      assert [1, 0][1..] == [0] && [0][1..] == [];
    }
  }

  /** AssetMetadata: whatever the deposit, name, symbol and trailing bytes, the decimals byte is found. */
  lemma DecimalsFound(deposit: seq<byte>, name: seq<byte>, symbol: seq<byte>, decimals: byte, rest: seq<byte>)
    requires |deposit| == 16 && |name| < TWO_30 && |symbol| < TWO_30
    ensures Encode(|name|).Ok? && Encode(|symbol|).Ok?
    ensures DecodeDecimals(deposit + Encode(|name|).value + name + Encode(|symbol|).value + symbol + [decimals]
                           + rest) == Ok(decimals)
  {
    hide DecodeLen, Encode;
    DecodeUndoesEncode(|name|, [], []);
    DecodeUndoesEncode(|symbol|, [], []);
    var n, s := Encode(|name|).value, Encode(|symbol|).value;
    var raw := deposit + n + name + s + symbol + [decimals] + rest;
    var tail := symbol + [decimals] + rest;
    assert raw == deposit + n + (name + s + tail);
    DecodeUndoesEncode(|name|, deposit, name + s + tail);
    assert raw == (deposit + n + name) + s + tail;
    DecodeUndoesEncode(|symbol|, deposit + n + name, tail);
    assert raw[|deposit + n + name + s + symbol|] == decimals;
  }
}
