/** The compact JSON that Go's `encoding/json` prints for strings and objects of
    them, with its default HTML escaping, and a parser that undoes it. */
module Json {
  import opened Wrappers
  import Text

  datatype Value = Str(text: string) | Obj(members: Members)

  datatype Members = End | Member(key: string, value: Value, tail: Members)

  // ----- Printing

  function HexDigit(n: int): char
    requires 0 <= n < 16
  {
    if n < 10 then '0' + n as char else 'a' + (n - 10) as char
  }

  function EscapeChar(c: char): string {
    if c == '"' || c == '\\' then ['\\', c]
    else if c == '\U{08}' then "\\b"
    else if c == '\U{0c}' then "\\f"
    else if c == '\n' then "\\n"
    else if c == '\r' then "\\r"
    else if c == '\t' then "\\t"
    else if c < ' ' || c == '<' || c == '>' || c == '&' || c == '\U{2028}' || c == '\U{2029}' then
      var n := c as int;
      ['\\', 'u', HexDigit(n / 0x1000), HexDigit(n / 0x100 % 16), HexDigit(n / 0x10 % 16), HexDigit(n % 16)]
    else [c]
  }

  function Escape(s: string): string {
    if s == "" then "" else EscapeChar(s[0]) + Escape(s[1..])
  }

  function Print(v: Value): string {
    match v
    case Str(text) => "\"" + (Escape(text) + "\"")
    case Obj(members) => if members.End? then "{}" else "{" + PrintMembers(members)
  }

  /** The members and the closing brace. */
  function PrintMembers(m: Members): string
    requires m.Member?
  {
    "\"" + (Escape(m.key) + ("\":" + (Print(m.value) + if m.tail.End? then "}" else "," + PrintMembers(m.tail))))
  }

  // ----- Parsing

  function HexValue(c: char): Option<int> {
    if '0' <= c <= '9' then Some((c - '0') as int)
    else if 'a' <= c <= 'f' then Some((c - 'a') as int + 10)
    else if 'A' <= c <= 'F' then Some((c - 'A') as int + 10)
    else None
  }

  function HexFour(s: string): Option<char>
    requires |s| == 4
  {
    match (HexValue(s[0]), HexValue(s[1]), HexValue(s[2]), HexValue(s[3]))
    case (Some(a), Some(b), Some(c), Some(d)) =>
      var n := a * 0x1000 + b * 0x100 + c * 0x10 + d;
      if 0 <= n < 0xD800 || 0xE000 <= n < 0x1_0000 then Some(n as char) else None
    case _ => None
  }

  /** One character of a string literal, and how much text it takes. */
  function UnescapeChar(s: string): (r: Option<(char, nat)>)
    ensures r.Some? ==> 1 <= r.value.1 <= |s|
  {
    if s == "" || s[0] < ' ' || s[0] == '"' then None
    else if s[0] != '\\' then Some((s[0], 1))
    else if |s| < 2 then None
    else match s[1]
      case '"' => Some(('"', 2))
      case '\\' => Some(('\\', 2))
      case '/' => Some(('/', 2))
      case 'b' => Some(('\U{08}', 2))
      case 'f' => Some(('\U{0c}', 2))
      case 'n' => Some(('\n', 2))
      case 'r' => Some(('\r', 2))
      case 't' => Some(('\t', 2))
      case 'u' =>
        if |s| < 6 then None
        else (match HexFour(s[2..6]) case Some(c) => Some((c, 6)) case None => None)
      case _ => None
  }

  /** The text up to the closing quote, and what follows it. */
  function ParseText(s: string): (r: Option<(string, string)>)
    ensures r.Some? ==> |r.value.1| < |s|
    decreases |s|
  {
    if s != "" && s[0] == '"' then Some(("", s[1..]))
    else match UnescapeChar(s)
      case None => None
      case Some((c, n)) =>
        match ParseText(s[n..])
        case None => None
        case Some((text, rest)) => Some(([c] + text, rest))
  }

  function ParseValue(s: string): (r: Option<(Value, string)>)
    ensures r.Some? ==> |r.value.1| < |s|
    decreases |s|
  {
    if s == "" then None
    else if s[0] == '"' then
      match ParseText(s[1..])
      case None => None
      case Some((text, rest)) => Some((Str(text), rest))
    else if s[0] != '{' then None
    else if |s| > 1 && s[1] == '}' then Some((Obj(End), s[2..]))
    else
      match ParseMembers(s[1..])
      case None => None
      case Some((members, rest)) => Some((Obj(members), rest))
  }

  function ParseMembers(s: string): (r: Option<(Members, string)>)
    ensures r.Some? ==> |r.value.1| < |s|
    decreases |s|
  {
    if s == "" || s[0] != '"' then None
    else match ParseText(s[1..])
      case None => None
      case Some((key, t)) =>
        if t == "" || t[0] != ':' then None
        else match ParseValue(t[1..])
          case None => None
          case Some((value, u)) =>
            if u == "" then None
            else if u[0] == '}' then Some((Member(key, value, End), u[1..]))
            else if u[0] != ',' then None
            else match ParseMembers(u[1..])
              case None => None
              case Some((tail, rest)) => Some((Member(key, value, tail), rest))
  }

  // ----- Parsing undoes printing

  lemma HexInverse(n: int)
    requires 0 <= n < 16
    ensures HexValue(HexDigit(n)) == Some(n)
  {}

  lemma HexFourInverse(c: char)
    requires c as int < 0xD800
    ensures var n := c as int;
            HexFour([HexDigit(n / 0x1000), HexDigit(n / 0x100 % 16), HexDigit(n / 0x10 % 16), HexDigit(n % 16)])
              == Some(c)
  {
    var n := c as int;
    HexInverse(n / 0x1000);
    HexInverse(n / 0x100 % 16);
    HexInverse(n / 0x10 % 16);
    HexInverse(n % 16);
    HexArithmetic(n);
  }

  lemma HexArithmetic(n: int)
    requires 0 <= n < 0x1_0000
    ensures n / 0x1000 * 0x1000 + n / 0x100 % 16 * 0x100 + n / 0x10 % 16 * 0x10 + n % 16 == n
  {
    assert n / 0x100 == n / 0x10 / 16;
    assert n / 0x1000 == n / 0x100 / 16;
  }

  lemma CharRoundTrip(c: char, rest: string)
    ensures UnescapeChar(EscapeChar(c) + rest) == Some((c, |EscapeChar(c)|))
    ensures EscapeChar(c)[0] != '"'
  {
    var e := EscapeChar(c);
    if |e| == 6 {
      HexFourInverse(c);
      assert (e + rest)[2..6] == e[2..6];
    }
  }

  lemma TextStep(c: char, e: string, tail: string, text: string, rest: string)
    requires e != "" && e[0] != '"' && UnescapeChar(e + tail) == Some((c, |e|))
    requires ParseText(tail) == Some((text, rest))
    ensures ParseText(e + tail) == Some(([c] + text, rest))
  {
    assert (e + tail)[|e|..] == tail;
  }

  lemma ClosingQuote(rest: string)
    ensures ParseText("\"" + rest) == Some(("", rest))
  {
    assert ("\"" + rest)[1..] == rest;
  }

  lemma {:induction false} TextRoundTrip(s: string, rest: string)
    ensures ParseText(Escape(s) + ("\"" + rest)) == Some((s, rest))
  {
    var quoted := "\"" + rest;
    if s == "" {
      ClosingQuote(rest);
      assert Escape(s) + quoted == quoted;
    } else {
      TextRoundTrip(s[1..], rest);
      EscapedText(s[0], EscapeChar(s[0]), Escape(s[1..]), s[1..], rest);
      Text.Associate(EscapeChar(s[0]), Escape(s[1..]), quoted);
      assert s == [s[0]] + s[1..];
    }
  }

  lemma EscapedText(c: char, e: string, tail: string, text: string, rest: string)
    requires e == EscapeChar(c) && ParseText(tail + ("\"" + rest)) == Some((text, rest))
    ensures ParseText(e + (tail + ("\"" + rest))) == Some(([c] + text, rest))
  {
    CharRoundTrip(c, tail + ("\"" + rest));
    TextStep(c, e, tail + ("\"" + rest), text, rest);
  }

  lemma ParseStr(escaped: string, text: string, rest: string)
    requires ParseText(escaped + ("\"" + rest)) == Some((text, rest))
    ensures ParseValue("\"" + (escaped + ("\"" + rest))) == Some((Str(text), rest))
  {
    var s := escaped + ("\"" + rest);
    assert ("\"" + s)[1..] == s;
  }

  lemma ParseObj(printed: string, members: Members, rest: string)
    requires printed != "" && printed[0] == '"' && ParseMembers(printed + rest) == Some((members, rest))
    ensures ParseValue("{" + (printed + rest)) == Some((Obj(members), rest))
  {
    var s := printed + rest;
    assert s[0] == printed[0];
    assert ("{" + s)[1..] == s;
  }

  /** Parsing gives back the printed value and the text after it. */
  lemma {:induction false} RoundTrip(v: Value, rest: string)
    ensures ParseValue(Print(v) + rest) == Some((v, rest))
    decreases v
  {
    match v
    case Str(text) =>
      TextRoundTrip(text, rest);
      ParseStr(Escape(text), text, rest);
      Text.Associate("\"", Escape(text) + "\"", rest);
      Text.Associate(Escape(text), "\"", rest);
    case Obj(members) =>
      if members.End? {
        assert (Print(v) + rest)[2..] == rest;
      } else {
        MembersRoundTrip(members, rest);
        ParseObj(PrintMembers(members), members, rest);
        Text.Associate("{", PrintMembers(members), rest);
      }
  }

  lemma {:induction false} MembersRoundTrip(m: Members, rest: string)
    requires m.Member?
    ensures PrintMembers(m)[0] == '"'
    ensures ParseMembers(PrintMembers(m) + rest) == Some((m, rest))
    decreases m
  {
    var end := if m.tail.End? then "}" + rest else "," + (PrintMembers(m.tail) + rest);
    RoundTrip(m.value, end);
    MemberPrinted(m, rest, end);
    if m.tail.End? {
      LastMember(m.key, Print(m.value), m.value, rest);
    } else {
      MembersRoundTrip(m.tail, rest);
      NextMember(m.key, Print(m.value), m.value, PrintMembers(m.tail) + rest, m.tail, rest);
    }
  }

  lemma MemberPrinted(m: Members, rest: string, end: string)
    requires m.Member? && end == if m.tail.End? then "}" + rest else "," + (PrintMembers(m.tail) + rest)
    ensures PrintMembers(m) + rest == KeyText(m.key, Print(m.value) + end)
  {
    var last := if m.tail.End? then "}" else "," + PrintMembers(m.tail);
    assert last + rest == end;
    Text.Associate("\"", Escape(m.key) + ("\":" + (Print(m.value) + last)), rest);
    Text.Associate(Escape(m.key), "\":" + (Print(m.value) + last), rest);
    Text.Associate("\":", Print(m.value) + last, rest);
    Text.Associate(Print(m.value), last, rest);
  }

  /** A printed key and what follows the colon. */
  function KeyText(key: string, after: string): (s: string)
    ensures s != "" && s[0] == '"'
  {
    "\"" + (Escape(key) + ("\":" + after))
  }

  lemma KeyRoundTrip(key: string, after: string)
    ensures ParseText(KeyText(key, after)[1..]) == Some((key, ":" + after)) && (":" + after)[1..] == after
  {
    assert "\":" + after == "\"" + (":" + after);
    TextRoundTrip(key, ":" + after);
    assert KeyText(key, after)[1..] == Escape(key) + ("\"" + (":" + after));
  }

  lemma LastMember(key: string, printed: string, value: Value, rest: string)
    requires ParseValue(printed + ("}" + rest)) == Some((value, "}" + rest))
    ensures ParseMembers(KeyText(key, printed + ("}" + rest))) == Some((Member(key, value, End), rest))
  {
    KeyRoundTrip(key, printed + ("}" + rest));
    assert ("}" + rest)[1..] == rest;
  }

  lemma NextMember(key: string, printed: string, value: Value, next: string, tail: Members, rest: string)
    requires ParseValue(printed + ("," + next)) == Some((value, "," + next))
    requires ParseMembers(next) == Some((tail, rest))
    ensures ParseMembers(KeyText(key, printed + ("," + next))) == Some((Member(key, value, tail), rest))
  {
    KeyRoundTrip(key, printed + ("," + next));
    assert ("," + next)[1..] == next;
  }

  // ----- Fields

  /** A string field of an object, empty when it is absent; of equal keys the last
      one counts. */
  function Field(m: Members, key: string): string {
    match m
    case End => ""
    case Member(k, v, tail) =>
      if k == key && v.Str? && !HasKey(tail, key) then v.text else Field(tail, key)
  }

  predicate HasKey(m: Members, key: string) {
    m.Member? && (m.key == key || HasKey(m.tail, key))
  }

  function ObjectAt(m: Members, key: string): Members {
    match m
    case End => End
    case Member(k, v, tail) =>
      if k == key && v.Obj? && !HasKey(tail, key) then v.members else ObjectAt(tail, key)
  }

  // ----- What is printed

  /** Characters that the default HTML escaping and JSON itself keep out of a text. */
  predicate IsSafe(c: char) {
    c >= ' ' && c != '"' && c != '<' && c != '>' && c != '&' && c != '\U{2028}' && c != '\U{2029}'
  }

  /** Safe, or a quote after a backslash. */
  predicate IsSafeAt(text: string, i: int)
    requires 0 <= i < |text|
  {
    IsSafe(text[i]) || (i > 0 && text[i] == '"' && text[i - 1] == '\\')
  }

  lemma EscapedCharIsSafe(c: char)
    ensures forall i :: 0 <= i < |EscapeChar(c)| ==> IsSafeAt(EscapeChar(c), i)
  {}

  /** An escaped text has none of them, but for quotes after a backslash. */
  lemma {:induction false} EscapedIsSafe(s: string)
    ensures forall i :: 0 <= i < |Escape(s)| ==> IsSafeAt(Escape(s), i)
  {
    if s != "" {
      EscapedCharIsSafe(s[0]);
      EscapedIsSafe(s[1..]);
      SafeConcat(EscapeChar(s[0]), Escape(s[1..]));
    }
  }

  lemma SafeConcat(a: string, b: string)
    requires forall i :: 0 <= i < |a| ==> IsSafeAt(a, i)
    requires forall i :: 0 <= i < |b| ==> IsSafeAt(b, i)
    ensures forall i :: 0 <= i < |a + b| ==> IsSafeAt(a + b, i)
  {
    forall i | 0 <= i < |a + b|
      ensures IsSafeAt(a + b, i)
    {
      if i < |a| { assert IsSafeAt(a, i); } else { assert IsSafeAt(b, i - |a|); }
    }
  }
}
