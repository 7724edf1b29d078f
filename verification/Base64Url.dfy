/** Unpadded base64url (section 5 of RFC 4648) and UTF-8. */
module Base64Url {
  import opened Wrappers

  newtype byte = x: int | 0 <= x < 256

  type sextet = x: int | 0 <= x < 64

  function Digit(v: sextet): char {
    if v < 26 then 'A' + v as char
    else if v < 52 then 'a' + (v - 26) as char
    else if v < 62 then '0' + (v - 52) as char
    else if v == 62 then '-'
    else '_'
  }

  function DigitValue(c: char): Option<sextet> {
    if 'A' <= c <= 'Z' then Some((c - 'A') as int)
    else if 'a' <= c <= 'z' then Some((c - 'a') as int + 26)
    else if '0' <= c <= '9' then Some((c - '0') as int + 52)
    else if c == '-' then Some(62)
    else if c == '_' then Some(63)
    else None
  }

  lemma DigitInverse(v: sextet)
    ensures DigitValue(Digit(v)) == Some(v)
  {}

  function Encode(b: seq<byte>): string {
    if b == [] then ""
    else if |b| == 1 then
      var x := b[0] as int;
      [Digit(x / 4), Digit(x % 4 * 16)]
    else if |b| == 2 then
      var x, y := b[0] as int, b[1] as int;
      [Digit(x / 4), Digit(x % 4 * 16 + y / 16), Digit(y % 16 * 4)]
    else
      var x, y, z := b[0] as int, b[1] as int, b[2] as int;
      [Digit(x / 4), Digit(x % 4 * 16 + y / 16), Digit(y % 16 * 4 + z / 64), Digit(z % 64)] + Encode(b[3..])
  }

  function Sextets(s: string): (r: Option<seq<sextet>>)
    ensures r.Some? ==> |r.value| == |s|
  {
    if s == "" then Some([])
    else match (DigitValue(s[0]), Sextets(s[1..]))
      case (Some(v), Some(vs)) => Some([v] + vs)
      case _ => None
  }

  function ByteOf(n: int): byte
    requires 0 <= n < 256
  {
    n as byte
  }

  function Join(v: seq<sextet>): Option<seq<byte>> {
    if v == [] then Some([])
    else if |v| == 1 then None
    else
      var x := v[0] as int * 4 + v[1] as int / 16;
      if |v| == 2 then Some([ByteOf(x)])
      else
        var y := v[1] as int % 16 * 16 + v[2] as int / 4;
        if |v| == 3 then Some([ByteOf(x), ByteOf(y)])
        else
          var z := v[2] as int % 4 * 64 + v[3] as int;
          match Join(v[4..])
          case None => None
          case Some(rest) => Some([ByteOf(x), ByteOf(y), ByteOf(z)] + rest)
  }

  function Decode(s: string): Option<seq<byte>> {
    match Sextets(s)
    case None => None
    case Some(v) => Join(v)
  }

  /** The four sextets of three bytes. */
  function Quantum(x: int, y: int, z: int): seq<sextet>
    requires 0 <= x < 256 && 0 <= y < 256 && 0 <= z < 256
  {
    [x / 4, x % 4 * 16 + y / 16, y % 16 * 4 + z / 64, z % 64]
  }

  /** The sextets that `Encode` prints. */
  function Split(b: seq<byte>): seq<sextet> {
    if b == [] then []
    else if |b| == 1 then Quantum(b[0] as int, 0, 0)[..2]
    else if |b| == 2 then Quantum(b[0] as int, b[1] as int, 0)[..3]
    else Quantum(b[0] as int, b[1] as int, b[2] as int) + Split(b[3..])
  }

  function Digits(v: seq<sextet>): (s: string)
    ensures |s| == |v| && forall i :: 0 <= i < |v| ==> s[i] == Digit(v[i])
  {
    seq(|v|, i requires 0 <= i < |v| => Digit(v[i]))
  }

  lemma {:induction false} EncodeIsDigits(b: seq<byte>)
    ensures Encode(b) == Digits(Split(b))
  {
    if |b| > 2 { EncodeIsDigits(b[3..]); }
  }

  lemma {:induction false} SextetsOfDigits(v: seq<sextet>)
    ensures Sextets(Digits(v)) == Some(v)
  {
    if v != [] {
      SextetsOfDigits(v[1..]);
      assert Digits(v)[1..] == Digits(v[1..]);
      DigitInverse(v[0]);
      assert v == [v[0]] + v[1..];
    }
  }

  lemma SextetArithmetic(x: int, y: int, z: int)
    requires 0 <= x < 256 && 0 <= y < 256 && 0 <= z < 256
    ensures x / 4 * 4 + (x % 4 * 16 + y / 16) / 16 == x
    ensures (x % 4 * 16 + y / 16) % 16 * 16 + (y % 16 * 4 + z / 64) / 4 == y
    ensures (y % 16 * 4 + z / 64) % 4 * 64 + z % 64 == z
  {}

  lemma JoinFour(a: sextet, b: sextet, c: sextet, d: sextet, rest: seq<sextet>)
    ensures Join([a, b, c, d] + rest) == match Join(rest)
                                         case None => None
                                         case Some(r) => Some([ByteOf(a as int * 4 + b as int / 16),
                                                               ByteOf(b as int % 16 * 16 + c as int / 4),
                                                               ByteOf(c as int % 4 * 64 + d as int)] + r)
  {
    assert ([a, b, c, d] + rest)[4..] == rest;
  }

  lemma JoinQuantum(x: byte, y: byte, z: byte, rest: seq<sextet>)
    ensures Join(Quantum(x as int, y as int, z as int) + rest) == match Join(rest)
                                                                  case None => None
                                                                  case Some(r) => Some([x, y, z] + r)
  {
    var v := Quantum(x as int, y as int, z as int);
    SextetArithmetic(x as int, y as int, z as int);
    JoinFour(v[0], v[1], v[2], v[3], rest);
  }

  lemma {:induction false} JoinOfSplit(b: seq<byte>)
    ensures Join(Split(b)) == Some(b)
  {
    if |b| == 1 {
      SextetArithmetic(b[0] as int, 0, 0);
      assert b == [b[0]];
    } else if |b| == 2 {
      SextetArithmetic(b[0] as int, b[1] as int, 0);
      assert b == [b[0], b[1]];
    } else if |b| > 2 {
      JoinQuantum(b[0], b[1], b[2], Split(b[3..]));
      JoinOfSplit(b[3..]);
      assert b == [b[0], b[1], b[2]] + b[3..];
    }
  }

  /** Decoding undoes encoding. */
  lemma DecodeEncode(b: seq<byte>)
    ensures Decode(Encode(b)) == Some(b)
  {
    EncodeIsDigits(b);
    SextetsOfDigits(Split(b));
    JoinOfSplit(b);
  }

  predicate InAlphabet(c: char) {
    'A' <= c <= 'Z' || 'a' <= c <= 'z' || '0' <= c <= '9' || c == '-' || c == '_'
  }

  /** No padding, and neither `+` nor `/`. */
  lemma EncodeAlphabet(b: seq<byte>)
    ensures forall i :: 0 <= i < |Encode(b)| ==> InAlphabet(Encode(b)[i])
  {
    EncodeIsDigits(b);
  }
}
