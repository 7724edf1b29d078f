/** UTF-8, as Go strings hold text. */
module Utf8 {
  import opened Wrappers
  import opened Base64Url

  function EncodeChar(c: char): seq<byte> {
    var n := c as int;
    if n < 0x80 then [n as byte]
    else if n < 0x800 then [(0xC0 + n / 0x40) as byte, (0x80 + n % 0x40) as byte]
    else if n < 0x1_0000 then
      [(0xE0 + n / 0x1000) as byte, (0x80 + n / 0x40 % 0x40) as byte, (0x80 + n % 0x40) as byte]
    else
      [(0xF0 + n / 0x4_0000) as byte, (0x80 + n / 0x1000 % 0x40) as byte, (0x80 + n / 0x40 % 0x40) as byte,
       (0x80 + n % 0x40) as byte]
  }

  function EncodeText(s: string): seq<byte> {
    if s == "" then [] else EncodeChar(s[0]) + EncodeText(s[1..])
  }

  predicate IsScalar(n: int) { 0 <= n < 0xD800 || 0xE000 <= n < 0x11_0000 }

  predicate IsTail(b: byte) { 0x80 <= b as int < 0xC0 }

  /** The first character and the number of bytes it takes. */
  function FirstChar(b: seq<byte>): (r: Option<(char, nat)>)
    requires b != []
    ensures r.Some? ==> 1 <= r.value.1 <= |b|
  {
    var x := b[0] as int;
    if x < 0x80 then Some((x as char, 1))
    else if 0xC0 <= x < 0xE0 && |b| >= 2 && IsTail(b[1]) then
      Checked((x - 0xC0) * 0x40 + (b[1] as int - 0x80), 0x80, 2)
    else if 0xE0 <= x < 0xF0 && |b| >= 3 && IsTail(b[1]) && IsTail(b[2]) then
      Checked((x - 0xE0) * 0x1000 + (b[1] as int - 0x80) * 0x40 + (b[2] as int - 0x80), 0x800, 3)
    else if 0xF0 <= x < 0xF8 && |b| >= 4 && IsTail(b[1]) && IsTail(b[2]) && IsTail(b[3]) then
      Checked((x - 0xF0) * 0x4_0000 + (b[1] as int - 0x80) * 0x1000 + (b[2] as int - 0x80) * 0x40
        + (b[3] as int - 0x80),
              0x1_0000, 4)
    else None
  }

  /** Refuses surrogates and overlong forms. */
  function Checked(n: int, least: int, length: nat): (r: Option<(char, nat)>)
    ensures r.Some? ==> r.value.1 == length
  {
    if n >= least && IsScalar(n) then Some((n as char, length)) else None
  }

  function DecodeText(b: seq<byte>): Option<string>
    decreases |b|
  {
    if b == [] then Some("")
    else match FirstChar(b)
      case None => None
      case Some((c, n)) =>
        match DecodeText(b[n..])
        case None => None
        case Some(s) => Some([c] + s)
  }

  lemma TwoByteArithmetic(n: int)
    requires 0x80 <= n < 0x800
    ensures 0 <= n / 0x40 < 0x20 && n / 0x40 * 0x40 + n % 0x40 == n
  {}

  lemma ThreeByteArithmetic(n: int)
    requires 0x800 <= n < 0x1_0000
    ensures 0 <= n / 0x1000 < 0x10 && n / 0x1000 * 0x1000 + n / 0x40 % 0x40 * 0x40 + n % 0x40 == n
  {
    assert n / 0x1000 == n / 0x40 / 0x40;
  }

  lemma FourByteArithmetic(n: int)
    requires 0x1_0000 <= n < 0x11_0000
    ensures 0 <= n / 0x4_0000 < 0x8
    ensures n / 0x4_0000 * 0x4_0000 + n / 0x1000 % 0x40 * 0x1000 + n / 0x40 % 0x40 * 0x40 + n % 0x40 == n
  {
    assert n / 0x1000 == n / 0x40 / 0x40;
    assert n / 0x4_0000 == n / 0x1000 / 0x40;
  }

  lemma FirstCharEncoded(c: char, rest: seq<byte>)
    ensures FirstChar(EncodeChar(c) + rest) == Some((c, |EncodeChar(c)|))
  {
    var n := c as int;
    if 0x80 <= n < 0x800 {
      TwoByteArithmetic(n);
    } else if 0x800 <= n < 0x1_0000 {
      ThreeByteArithmetic(n);
    } else if n >= 0x1_0000 {
      FourByteArithmetic(n);
    }
  }

  /** Decoding undoes encoding. */
  lemma {:induction false} DecodeEncodeText(s: string)
    ensures DecodeText(EncodeText(s)) == Some(s)
  {
    if s != "" {
      var e, rest := EncodeChar(s[0]), EncodeText(s[1..]);
      FirstCharEncoded(s[0], rest);
      assert (e + rest)[|e|..] == rest;
      DecodeEncodeText(s[1..]);
      assert s == [s[0]] + s[1..];
    }
  }
}
