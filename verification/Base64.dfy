/** The padded base64 of section 4 of RFC 4648, as a container writes it and as Go's standard encoding reads it. */
module Base64 {
  import opened Prelude

  type Byte = n: nat | n < 256
  type Sextet = n: nat | n < 64

  /** The sextets of up to three bytes. */
  function S0(x: Byte): Sextet { x as int / 4 }
  function S1(x: Byte, y: Byte): Sextet { x as int % 4 * 16 + y as int / 16 }
  function S2(y: Byte, z: Byte): Sextet { y as int % 16 * 4 + z as int / 64 }
  function S3(z: Byte): Sextet { z as int % 64 }

  /** The bytes of up to four sextets. */
  function B0(a: Sextet, b: Sextet): Byte { a as int * 4 + b as int / 16 }
  function B1(b: Sextet, c: Sextet): Byte { b as int % 16 * 16 + c as int / 4 }
  function B2(c: Sextet, d: Sextet): Byte { c as int % 4 * 64 + d as int }

  lemma SextetsOfBytes(x: Byte, y: Byte, z: Byte)
    ensures B0(S0(x), S1(x, y)) == x && B1(S1(x, y), S2(y, z)) == y && B2(S2(y, z), S3(z)) == z
  {}

  /** A-Z, a-z, 0-9, + and /. */
  function CharOf(n: Sextet): char {
    if n < 26 then ('A' as int + n) as char
    else if n < 52 then ('a' as int + n - 26) as char
    else if n < 62 then ('0' as int + n - 52) as char
    else if n == 62 then '+'
    else '/'
  }

  function ValueOf(c: char): Option<Sextet> {
    if 'A' <= c <= 'Z' then Some(c as int - 'A' as int)
    else if 'a' <= c <= 'z' then Some(c as int - 'a' as int + 26)
    else if '0' <= c <= '9' then Some(c as int - '0' as int + 52)
    else if c == '+' then Some(62)
    else if c == '/' then Some(63)
    else None
  }

  /** Three bytes are four characters; one or two left over are padded. */
  function Encode(b: seq<Byte>): string {
    if b == [] then ""
    else if |b| == 1 then [CharOf(S0(b[0])), CharOf(S1(b[0], 0)), '=', '=']
    else if |b| == 2 then [CharOf(S0(b[0])), CharOf(S1(b[0], b[1])), CharOf(S2(b[1], 0)), '=']
    else [CharOf(S0(b[0])), CharOf(S1(b[0], b[1])), CharOf(S2(b[1], b[2])), CharOf(S3(b[2]))] + Encode(b[3..])
  }

  /** The characters run through A-Z, a-z, 0-9, +, and / in this order. */
  lemma AlphabetExactly(n: Sextet)
    ensures CharOf(0) == 'A' && CharOf(25) == 'Z' && CharOf(26) == 'a' && CharOf(51) == 'z' && CharOf(52) == '0' && CharOf(61) == '9'
    ensures CharOf(62) == '+' && CharOf(63) == '/'
    ensures n < 61 && n != 25 && n != 51 ==> CharOf(n + 1) as int == CharOf(n) as int + 1
  {}

  lemma DivMod(v: nat, d: nat, q: nat, r: nat)
    requires v == d * q + r && r < d
    ensures v / d == q && v % d == r
  {
    if v / d < q { ProductGrows(d, v / d, q); }
    if q < v / d { ProductGrows(d, q, v / d); }
  }

  lemma {:induction false} ProductGrows(d: nat, a: nat, b: nat)
    requires a < b
    ensures d * a + d <= d * b
  {
    assert d * b == d * (b - 1) + d;
    if a < b - 1 { ProductGrows(d, a, b - 1); }
  }

  /** The sextets of three bytes are the digits to base 64 of the number that the bytes are. */
  lemma SextetsExactly(x: Byte, y: Byte, z: Byte)
    ensures var v := x * 65536 + y * 256 + z;
            S0(x) == v / 262144 && S1(x, y) == v / 4096 % 64 && S2(y, z) == v / 64 % 64 && S3(z) == v % 64
  {
    var v := x * 65536 + y * 256 + z;
    DivMod(v, 262144, x / 4, x % 4 * 65536 + y * 256 + z);
    DivMod(v, 4096, x * 16 + y / 16, y % 16 * 256 + z);
    DivMod(x * 16 + y / 16, 64, x / 4, x % 4 * 16 + y / 16);
    DivMod(v, 64, x * 1024 + y * 4 + z / 64, z % 64);
    DivMod(x * 1024 + y * 4 + z / 64, 64, x * 16 + y / 16, y % 16 * 4 + z / 64);
  }

  function ByteAt(b: seq<Byte>, i: nat): Byte {
    if i < |b| then b[i] else 0
  }

  /** The number that three bytes are. */
  function GroupValue(b: seq<Byte>, k: nat): nat {
    ByteAt(b, 3 * k) * 65536 + ByteAt(b, 3 * k + 1) * 256 + ByteAt(b, 3 * k + 2)
  }

  /** The characters of one group: its digits to base 64, and padding for the bytes that are not there. */
  predicate IsGroup(text: string, v: nat, bytes: nat) {
    && |text| == 4 && v < 16777216
    && text[0] == CharOf(v / 262144) && text[1] == CharOf(v / 4096 % 64)
    && text[2] == (if bytes < 2 then '=' else CharOf(v / 64 % 64))
    && text[3] == (if bytes < 3 then '=' else CharOf(v % 64))
  }

  /** The encoding, group by group: section 4 of RFC 4648. */
  lemma {:induction false} EncodedExactly(b: seq<Byte>, k: nat)
    requires 3 * k < |b|
    ensures |Encode(b)| == 4 * ((|b| + 2) / 3)
    ensures IsGroup(Encode(b)[4 * k..4 * k + 4], GroupValue(b, k), |b| - 3 * k)
  {
    hide IsGroup, Encode;
    FirstGroup(b);
    if |b| > 3 {
      var rest := b[3..];
      EncodedExactly(rest, if k == 0 then 0 else k - 1);
      if k > 0 {
        assert Encode(b)[4 * k..4 * k + 4] == Encode(rest)[4 * (k - 1)..4 * (k - 1) + 4];
        assert GroupValue(rest, k - 1) == GroupValue(b, k);
      }
    }
  }

  lemma FirstGroup(b: seq<Byte>)
    requires b != []
    ensures |Encode(b)| >= 4 && (|b| <= 3 ==> |Encode(b)| == 4)
    ensures |b| > 3 ==> Encode(b) == Encode(b)[..4] + Encode(b[3..])
    ensures IsGroup(Encode(b)[..4], GroupValue(b, 0), |b|)
  {
    hide CharOf, S0, S1, S2, S3;
    SextetsExactly(ByteAt(b, 0), ByteAt(b, 1), ByteAt(b, 2));
    if |b| == 3 { assert Encode(b[3..]) == ""; }
  }

  /** The decoder skips line ends wherever they are. */
  function Stripped(s: string): string {
    if s == "" then ""
    else if s[0] == '\r' || s[0] == '\n' then Stripped(s[1..])
    else [s[0]] + Stripped(s[1..])
  }

  /** Whole groups of four characters; only the last may be padded, and its unused bits are not looked at. */
  function DecodeGroups(s: string): Option<seq<Byte>> {
    if s == "" then Some([])
    else if |s| < 4 then None
    else
      var (v0, v1, v2, v3) := (ValueOf(s[0]), ValueOf(s[1]), ValueOf(s[2]), ValueOf(s[3]));
      if v0.None? || v1.None? then None
      else if |s| == 4 && s[2] == '=' && s[3] == '=' then Some([B0(v0.value, v1.value)])
      else if |s| == 4 && v2.Some? && s[3] == '=' then
        Some([B0(v0.value, v1.value), B1(v1.value, v2.value)])
      else if v2.None? || v3.None? then None
      else
        var rest := DecodeGroups(s[4..]);
        if rest.None? then None
        else Some([B0(v0.value, v1.value), B1(v1.value, v2.value), B2(v2.value, v3.value)] + rest.value)
  }

  function Decode(s: string): Option<seq<Byte>> {
    DecodeGroups(Stripped(s))
  }

  predicate IsText(c: char) {
    ValueOf(c).Some? || c == '='
  }

  lemma CharIsItsValue(n: Sextet)
    ensures ValueOf(CharOf(n)) == Some(n) && CharOf(n) != '='
  {}

  lemma GroupThenRest(group: string, rest: string)
    requires |group| == 4 && group[3] != '=' && DecodeGroups(rest).Some?
    requires ValueOf(group[0]).Some? && ValueOf(group[1]).Some? && ValueOf(group[2]).Some? && ValueOf(group[3]).Some?
    ensures DecodeGroups(group + rest) ==
            Some([B0(ValueOf(group[0]).value, ValueOf(group[1]).value), B1(ValueOf(group[1]).value, ValueOf(group[2]).value),
                  B2(ValueOf(group[2]).value, ValueOf(group[3]).value)] + DecodeGroups(rest).value)
  {
    hide ValueOf, B0, B1, B2;
    assert (group + rest)[4..] == rest;
  }

  lemma {:induction false} GroupsRoundTrip(b: seq<Byte>)
    ensures DecodeGroups(Encode(b)) == Some(b)
  {
    hide CharOf, ValueOf, S0, S1, S2, S3, B0, B1, B2;
    if b == [] {
      assert Encode(b) == "";
      return;
    }
    var y, z := if |b| > 1 then b[1] else 0, if |b| > 2 then b[2] else 0;
    SextetsOfBytes(b[0], y, z);
    CharIsItsValue(S0(b[0]));
    CharIsItsValue(S1(b[0], y));
    CharIsItsValue(S2(y, z));
    CharIsItsValue(S3(z));
    if |b| == 1 {
      assert DecodeGroups(Encode(b)) == Some([b[0]]) && b == [b[0]];
    } else if |b| == 2 {
      assert DecodeGroups(Encode(b)) == Some([b[0], b[1]]) && b == [b[0], b[1]];
    } else {
      GroupsRoundTrip(b[3..]);
      GroupThenRest([CharOf(S0(b[0])), CharOf(S1(b[0], y)), CharOf(S2(y, z)), CharOf(S3(z))], Encode(b[3..]));
      assert b == [b[0], b[1], b[2]] + b[3..];
    }
  }

  lemma {:induction false} EncodedIsText(b: seq<Byte>)
    ensures forall i | 0 <= i < |Encode(b)| :: IsText(Encode(b)[i])
  {
    hide CharOf, ValueOf, S0, S1, S2, S3;
    if b == [] { return; }
    var y, z := if |b| > 1 then b[1] else 0, if |b| > 2 then b[2] else 0;
    CharIsItsValue(S0(b[0]));
    CharIsItsValue(S1(b[0], y));
    CharIsItsValue(S2(y, z));
    CharIsItsValue(S3(z));
    if |b| >= 3 { EncodedIsText(b[3..]); }
  }

  lemma {:induction false} TextIsNotStripped(s: string)
    requires forall i | 0 <= i < |s| :: IsText(s[i])
    ensures Stripped(s) == s
  {
    if s != "" {
      assert IsText(s[0]);
      TextIsNotStripped(s[1..]);
      assert s == [s[0]] + s[1..];
    }
  }

  /** Decoding what was encoded gives back every byte, whatever the padding. */
  lemma {:induction false} RoundTrip(b: seq<Byte>)
    ensures Decode(Encode(b)) == Some(b)
  {
    EncodedIsText(b);
    TextIsNotStripped(Encode(b));
    GroupsRoundTrip(b);
  }
}
