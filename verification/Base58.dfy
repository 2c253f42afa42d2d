/** Base58 as the chain-spec validator reads it, and the SS58 accounts built on it. */
module Base58 {
  import opened Wrappers
  import opened Bytes

  /** The digit a character stands for. The alphabet is the digits, upper and lower case letters in
      order, leaving out 0, I, O and l. */
  function Digit(c: char): Option<nat> {
    if '1' <= c <= '9' then Some(c as int - '1' as int)
    else if 'A' <= c <= 'H' then Some(9 + c as int - 'A' as int)
    else if 'J' <= c <= 'N' then Some(17 + c as int - 'J' as int)
    else if 'P' <= c <= 'Z' then Some(22 + c as int - 'P' as int)
    else if 'a' <= c <= 'k' then Some(33 + c as int - 'a' as int)
    else if 'm' <= c <= 'z' then Some(44 + c as int - 'm' as int)
    else None
  }

  predicate Spelled(s: string) { forall i :: 0 <= i < |s| ==> Digit(s[i]).Some? }

  function Number(s: string): nat
    requires Spelled(s)
  {
    if s == "" then 0 else 58 * Number(s[..|s| - 1]) + Digit(s[|s| - 1]).value
  }

  /** How many leading characters spell zero. */
  function LeadingOnes(s: string): nat {
    if s != "" && s[0] == '1' then 1 + LeadingOnes(s[1..]) else 0
  }

  /** number.to_bytes(width, "big") */
  function BigEndian(v: nat, width: nat): (r: seq<byte>)
    ensures |r| == width
    decreases width
  {
    if width == 0 then [] else BigEndian(v / 256, width - 1) + [v % 256]
  }

  function Zeros(n: nat): (r: seq<byte>)
    ensures |r| == n
  {
    seq(n, _ => 0)
  }

  /** None when some character is outside the alphabet. */
  ghost function Decoded(s: string): Option<seq<byte>> {
    if Spelled(s) then Some(Zeros(LeadingOnes(s)) + BigEndian(Number(s), ByteWidth(Number(s)))) else None
  }

  method Decode(s: string) returns (r: Option<seq<byte>>)
    ensures r == Decoded(s)
  {
    var number := 0;
    for i := 0 to |s|
      invariant Spelled(s[..i]) && number == Number(s[..i])
    {
      var digit := Digit(s[i]);
      if digit.None? { return None; }
      assert s[..i + 1][..i] == s[..i];
      number := number * 58 + digit.value;
    }
    assert s[..|s|] == s;
    var ones := 0;
    while ones < |s| && s[ones] == '1'
      invariant 0 <= ones <= |s| && LeadingOnes(s) == ones + LeadingOnes(s[ones..])
    {
      assert s[ones..][1..] == s[ones + 1..];
      ones := ones + 1;
    }
    return Some(Zeros(ones) + BigEndian(number, ByteWidth(number)));
  }

  // ---------- The alphabet ----------

  /** Digits run from 0 to 57, and different characters stand for different digits. */
  lemma DigitFacts(c: char, d: char)
    ensures Digit(c).Some? ==> Digit(c).value < 58
    ensures Digit(c).Some? && Digit(c) == Digit(d) ==> c == d
    ensures Digit('1') == Some(0)
  {}

  /** The alphabet is the digits and letters but for 0, I, O and l, in the order of their codes: there are
      58 of them, so this says which digit each one is. */
  lemma AlphabetIs(c: char, d: char)
    ensures Digit(c).Some? <==>
            && ('0' <= c <= '9' || 'A' <= c <= 'Z' || 'a' <= c <= 'z')
            && c != '0' && c != 'I' && c != 'O' && c != 'l'
    ensures Digit(c).Some? && Digit(d).Some? && c < d ==> Digit(c).value < Digit(d).value
    ensures Digit(c).Some? ==> Digit(c).value < 58
  {}

  // ---------- Numbers, big-endian ----------

  function FromBigEndian(s: seq<byte>): nat {
    if s == [] then 0 else 256 * FromBigEndian(s[..|s| - 1]) + s[|s| - 1]
  }

  lemma {:induction false} BigEndianRoundTrip(v: nat, width: nat)
    requires v < Pow256(width)
    ensures FromBigEndian(BigEndian(v, width)) == v
    ensures width > 0 && Pow256(width - 1) <= v ==> BigEndian(v, width)[0] != 0
    decreases width
  {
    if width > 0 {
      BigEndianRoundTrip(v / 256, width - 1);
      assert BigEndian(v, width)[..width - 1] == BigEndian(v / 256, width - 1);
      if width == 1 {
        assert v / 256 == 0;
      }
    }
  }

  /** The minimal spelling of a number starts with a non-zero byte. */
  lemma MinimalBytes(v: nat)
    ensures var b := BigEndian(v, ByteWidth(v));
            FromBigEndian(b) == v && (v == 0 ==> b == []) && (v > 0 ==> |b| > 0 && b[0] != 0)
  {
    ByteWidthIsTight(v);
    BigEndianRoundTrip(v, ByteWidth(v));
  }

  // ---------- Leading ones carry no value, and the rest is determined by the value ----------

  lemma OnesPrefix(s: string)
    ensures LeadingOnes(s) <= |s|
    ensures forall i :: 0 <= i < LeadingOnes(s) ==> s[i] == '1'
    ensures LeadingOnes(s) < |s| ==> s[LeadingOnes(s)] != '1'
  {
    if s != "" && s[0] == '1' {
      OnesPrefix(s[1..]);
    }
  }

  lemma {:induction false} NumberSkipsOnes(s: string, k: nat)
    requires Spelled(s) && k <= |s| && forall i :: 0 <= i < k ==> s[i] == '1'
    ensures Spelled(s[k..]) && Number(s) == Number(s[k..])
    decreases |s|
  {
    if k == |s| {
      NumberOfOnes(s);
    } else {
      var init := s[..|s| - 1];
      NumberSkipsOnes(init, k);
      assert s[k..][..|s| - k - 1] == init[k..];
    }
  }

  lemma {:induction false} NumberOfOnes(s: string)
    requires Spelled(s) && forall i :: 0 <= i < |s| ==> s[i] == '1'
    ensures Number(s) == 0
  {
    if s != "" {
      NumberOfOnes(s[..|s| - 1]);
    }
  }

  lemma {:induction false} NonzeroStart(s: string)
    requires Spelled(s) && s != "" && s[0] != '1'
    ensures Number(s) > 0
  {
    DigitFacts(s[0], '1');
    if |s| > 1 {
      NonzeroStart(s[..|s| - 1]);
    } else {
      assert s[..0] == "";
    }
  }

  lemma LastDigit(s: string)
    requires Spelled(s) && s != ""
    ensures Digit(s[|s| - 1]) == Some(Number(s) % 58) && Number(s[..|s| - 1]) == Number(s) / 58
  {
    DigitFacts(s[|s| - 1], '1');
    QuotientBy58(Number(s), Number(s[..|s| - 1]), Digit(s[|s| - 1]).value);
    hide Digit, Number;
  }

  lemma QuotientBy58(v: nat, n: nat, r: nat)
    requires v == 58 * n + r && r < 58
    ensures v / 58 == n && v % 58 == r
  {}

  /** Without leading ones, a number has one spelling. */
  lemma {:induction false} SpellingIsUnique(a: string, b: string)
    requires Spelled(a) && Spelled(b) && Number(a) == Number(b)
    requires (a == "" || a[0] != '1') && (b == "" || b[0] != '1')
    ensures a == b
    decreases |a|
  {
    hide Digit, Number;
    if a == "" || b == "" {
      NothingIsZero(a);
      NothingIsZero(b);
      if a != "" { NonzeroStart(a); }
      if b != "" { NonzeroStart(b); }
    } else {
      SameEnds(a, b);
      SpellingIsUnique(a[..|a| - 1], b[..|b| - 1]);
      assert a == a[..|a| - 1] + [a[|a| - 1]] && b == b[..|b| - 1] + [b[|b| - 1]];
    }
  }

  lemma NothingIsZero(s: string)
    requires Spelled(s)
    ensures s == "" ==> Number(s) == 0
  {}

  lemma SameEnds(a: string, b: string)
    requires Spelled(a) && Spelled(b) && Number(a) == Number(b) && a != "" && b != ""
    ensures a[|a| - 1] == b[|b| - 1] && Number(a[..|a| - 1]) == Number(b[..|b| - 1])
  {
    LastDigit(a);
    LastDigit(b);
    DigitFacts(a[|a| - 1], b[|b| - 1]);
    hide Digit, Number;
  }

  // ---------- Injective ----------

  lemma LeadingZerosCounted(m: nat, n: nat, x: seq<byte>, y: seq<byte>)
    requires Zeros(m) + x == Zeros(n) + y
    requires (x == [] || x[0] != 0) && (y == [] || y[0] != 0)
    ensures m == n && x == y
  {
    var s, t := Zeros(m) + x, Zeros(n) + y;
    assert m < |s| ==> s[m] != 0;
    assert n < |t| ==> t[n] != 0;
    assert forall i :: 0 <= i < m ==> s[i] == 0;
    assert forall i :: 0 <= i < n ==> t[i] == 0;
    assert x == s[m..] && y == t[n..];
  }

  /** Two different strings never decode to the same bytes, however many ones they start with. */
  lemma DecodeInjective(a: string, b: string)
    requires Decoded(a).Some? && Decoded(a) == Decoded(b)
    ensures a == b
  {
    hide BigEndian, ByteWidth, Number, Zeros;
    MinimalBytes(Number(a));
    MinimalBytes(Number(b));
    LeadingZerosCounted(LeadingOnes(a), LeadingOnes(b), BigEndian(Number(a), ByteWidth(Number(a))),
                        BigEndian(Number(b), ByteWidth(Number(b))));
    var k := LeadingOnes(a);
    OnesPrefix(a);
    OnesPrefix(b);
    NumberSkipsOnes(a, k);
    NumberSkipsOnes(b, k);
    SpellingIsUnique(a[k..], b[k..]);
    assert a[..k] == b[..k];
    assert a == a[..k] + a[k..] && b == b[..k] + b[k..];
  }

  // ---------- Onto: every byte string has a spelling ----------

  function Symbol(d: nat): char
    requires d < 58
  {
    if d < 9 then ('1' as int + d) as char
    else if d < 17 then ('A' as int + d - 9) as char
    else if d < 22 then ('J' as int + d - 17) as char
    else if d < 33 then ('P' as int + d - 22) as char
    else if d < 44 then ('a' as int + d - 33) as char
    else ('m' as int + d - 44) as char
  }

  function Spell(n: nat): string {
    if n == 0 then "" else Spell(n / 58) + [Symbol(n % 58)]
  }

  lemma {:induction false} SpellIsNumber(n: nat)
    ensures Spelled(Spell(n)) && Number(Spell(n)) == n
    ensures n > 0 ==> Spell(n)[0] != '1'
  {
    if n > 0 {
      SpellIsNumber(n / 58);
      var s := Spell(n);
      assert s[..|s| - 1] == Spell(n / 58);
    }
  }

  lemma {:induction false} FromBigEndianRoundTrip(b: seq<byte>)
    ensures FromBigEndian(b) < Pow256(|b|)
    ensures BigEndian(FromBigEndian(b), |b|) == b
    ensures b != [] && b[0] != 0 ==> Pow256(|b| - 1) <= FromBigEndian(b)
  {
    if b != [] {
      var init := b[..|b| - 1];
      FromBigEndianRoundTrip(init);
      var v := FromBigEndian(b);
      assert v / 256 == FromBigEndian(init) && v % 256 == b[|b| - 1];
      assert b == init + [b[|b| - 1]];
    }
  }

  lemma {:induction false} Pow256Strict(m: nat, n: nat)
    requires m < n
    ensures 256 * Pow256(m) <= Pow256(n)
    decreases n
  {
    if m + 1 < n {
      Pow256Strict(m, n - 1);
    }
  }

  lemma WidthIsUnique(v: nat, width: nat)
    requires v < Pow256(width) && (width > 0 ==> Pow256(width - 1) <= v)
    ensures ByteWidth(v) == width
  {
    ByteWidthIsTight(v);
    var w := ByteWidth(v);
    if w < width && w < width - 1 { Pow256Strict(w, width - 1); }
    if width < w && width < w - 1 { Pow256Strict(width, w - 1); }
  }

  lemma LeadingOnesOf(k: nat, s: string)
    requires s == "" || s[0] != '1'
    ensures LeadingOnes(seq(k, _ => '1') + s) == k
  {
    var t := seq(k, _ => '1') + s;
    OnesPrefix(t);
    assert forall i :: 0 <= i < k ==> t[i] == '1';
    assert k < |t| ==> t[k] == s[0];
  }

  /** With injectivity: decoding is a bijection between base58 strings and byte strings. */
  lemma DecodeOnto(bytes: seq<byte>, k: nat) returns (s: string)
    requires k <= |bytes| && (forall i :: 0 <= i < k ==> bytes[i] == 0) && (k < |bytes| ==> bytes[k] != 0)
    ensures Decoded(s) == Some(bytes)
  {
    hide Digit, ByteWidth, BigEndian;
    var rest := bytes[k..];
    var n := FromBigEndian(rest);
    FromBigEndianRoundTrip(rest);
    WidthIsUnique(n, |rest|);
    SpellIsNumber(n);
    var ones := seq(k, _ => '1');
    s := ones + Spell(n);
    if n == 0 { assert Spell(n) == ""; }
    LeadingOnesOf(k, Spell(n));
    DigitFacts('1', '1');
    assert Spelled(s);
    NumberSkipsOnes(s, k);
    assert s[k..] == Spell(n);
    assert bytes == Zeros(k) + rest;
  }

  // ---------- SS58 accounts ----------

  /** A checksummed 32-byte account, whatever its display prefix. The checksum of a payload is a
      parameter: two bytes of a hash that the model leaves abstract. */
  ghost function AccountId(address: string, checksum: seq<byte> -> seq<byte>): Option<seq<byte>> {
    match Decoded(address)
    case None => None
    case Some(decoded) =>
      if decoded == [] then None
      else
        var prefix := if decoded[0] <= 63 then 1 else if decoded[0] <= 127 then 2 else 0;
        if prefix == 0 || |decoded| != prefix + 32 + 2 then None
        else if decoded[|decoded| - 2..] != checksum(decoded[..|decoded| - 2]) then None
        else Some(decoded[prefix..|decoded| - 2])
  }

  /** The display prefix an address carries. */
  ghost function PrefixOf(address: string): seq<byte>
    requires Decoded(address).Some? && |Decoded(address).value| >= 34
  {
    var decoded := Decoded(address).value;
    decoded[..|decoded| - 34]
  }

  /** An account has one address for each display prefix: two accepted spellings of the same account
      under the same prefix are the same string. */
  lemma OneAddressPerPrefix(a: string, b: string, checksum: seq<byte> -> seq<byte>)
    requires AccountId(a, checksum).Some? && AccountId(a, checksum) == AccountId(b, checksum)
    ensures |Decoded(a).value| >= 34 && |Decoded(b).value| >= 34
    ensures PrefixOf(a) == PrefixOf(b) ==> a == b
  {
    hide Decoded;
    var x, y := Decoded(a).value, Decoded(b).value;
    if PrefixOf(a) == PrefixOf(b) {
      assert x[..|x| - 2] == PrefixOf(a) + AccountId(a, checksum).value;
      assert y[..|y| - 2] == PrefixOf(b) + AccountId(b, checksum).value;
      assert x == x[..|x| - 2] + x[|x| - 2..] && y == y[..|y| - 2] + y[|y| - 2..];
      DecodeInjective(a, b);
    }
  }

  /** What an accepted address is: a one- or two-byte display prefix in its range, the 32 bytes of the
      account, and the checksum of both. */
  ghost predicate Carries(bytes: seq<byte>, prefix: seq<byte>, account: seq<byte>, checksum: seq<byte> -> seq<byte>) {
    && bytes == prefix + account + checksum(prefix + account)
    && |account| == 32 && |checksum(prefix + account)| == 2
    && ((|prefix| == 1 && prefix[0] <= 63) || (|prefix| == 2 && 64 <= prefix[0] <= 127))
  }

  lemma AccountIdIff(address: string, account: seq<byte>, checksum: seq<byte> -> seq<byte>)
    ensures AccountId(address, checksum) == Some(account) <==>
            Decoded(address).Some? && exists prefix :: Carries(Decoded(address).value, prefix, account, checksum)
  {
    hide Decoded;
    if Decoded(address).Some? {
      var bytes := Decoded(address).value;
      if AccountId(address, checksum) == Some(account) {
        var prefix := bytes[..|bytes| - 34];
        assert bytes[..|bytes| - 2] == prefix + account;
        assert bytes == prefix + account + bytes[|bytes| - 2..];
        assert Carries(bytes, prefix, account, checksum);
      }
      if prefix :| Carries(bytes, prefix, account, checksum) {
        assert bytes[..|bytes| - 2] == prefix + account;
        assert bytes[|bytes| - 2..] == checksum(prefix + account);
        assert bytes[0] == prefix[0];
        assert bytes[|prefix|..|bytes| - 2] == account;
      }
    }
  }
}
