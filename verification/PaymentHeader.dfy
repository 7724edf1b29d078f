/** The `Payment` challenge of the WWW-Authenticate header: its auth-param
    scanner, the parser built on it, and the printer they invert. */
module PaymentHeader {
  import opened Wrappers
  import opened Text

  // ----- Challenges

  datatype LightningDetails = LightningDetails(invoice: string, paymentHash: string)

  datatype ChargeRequest = ChargeRequest(amount: string, currency: string, methodDetails: Option<LightningDetails>)

  datatype Challenge = Challenge(
    id: string, realm: string, method_: string, intent: string, rawRequest: string,
    request: Option<ChargeRequest>,
    expires: string, description: string, opaque_: string, digest: string)

  datatype ParseError = TooShort | NotPayment | Missing(name: string) | BadRequest

  type Param = (string, string)

  // ----- The scanner

  /** The length of `(?:[^"\\]|\\.)*` when a closing quote follows it. */
  function QuotedLength(s: string): (n: Option<nat>)
    ensures n.Some? ==> n.value < |s| && s[n.value] == '"'
  {
    if s == "" then None
    else if s[0] == '"' then Some(0)
    else if s[0] == '\\' then
      if |s| < 2 || s[1] == '\n' then None
      else (match QuotedLength(s[2..]) case Some(n) => Some(n + 2) case None => None)
    else (match QuotedLength(s[1..]) case Some(n) => Some(n + 1) case None => None)
  }

  function SkipBlanks(s: string): (r: string)
    ensures |r| <= |s|
  {
    s[Run(s, IsBlank)..]
  }

  /** `\s*=\s*` at the start of a string: what follows it. */
  function AfterEquals(s: string): (r: Option<string>)
    ensures r.Some? ==> |r.value| < |s|
  {
    var t := SkipBlanks(s);
    if t == "" || t[0] != '=' then None else Some(SkipBlanks(t[1..]))
  }

  /** `"((?:[^"\\]|\\.)*)"|(\S+)` at the start of a string that does not begin
      with a blank: the captured value and what follows the match. */
  function ValueAt(s: string): (r: Option<(string, string)>)
    ensures r.Some? ==> |r.value.1| <= |s|
  {
    if s == "" then None
    else if s[0] == '"' && QuotedLength(s[1..]).Some? then
      var n := QuotedLength(s[1..]).value;
      Some((s[1..][..n], s[1..][n + 1..]))
    else
      var n := Run(s, c => !IsBlank(c));
      Some((s[..n], s[n..]))
  }

  /** `(\w+)\s*=\s*(?:"((?:[^"\\]|\\.)*)"|(\S+))` at the start of a string, with
      what follows the match. */
  function MatchAt(s: string): (r: Option<(Param, string)>)
    ensures r.Some? ==> |r.value.1| < |s|
  {
    var k := Run(s, IsWord);
    if k == 0 then None
    else match AfterEquals(s[k..])
      case None => None
      case Some(t) =>
        match ValueAt(t)
        case None => None
        case Some((value, rest)) => Some(((s[..k], value), rest))
  }

  /** All matches, leftmost first and not overlapping. */
  function FindAll(s: string): seq<Param>
    decreases |s|
  {
    if s == "" then []
    else match MatchAt(s)
      case Some((p, rest)) => [p] + FindAll(rest)
      case None => FindAll(s[1..])
  }

  /** The parameter map that a sequence of matches denotes: keys in lower case,
      the last of equal keys winning. */
  function ParamMap(ps: seq<Param>): map<string, string> {
    if ps == [] then map[]
    else ParamMap(ps[..|ps| - 1])[ToLower(ps[|ps| - 1].0) := ps[|ps| - 1].1]
  }

  method ParseParams(paramStr: string) returns (params: map<string, string>)
    ensures params == ParamMap(FindAll(paramStr))
  {
    params := map[];
    var matches := FindAll(paramStr);
    for i := 0 to |matches|
      invariant params == ParamMap(matches[..i])
    {
      assert matches[..i + 1][..i] == matches[..i];
      params := params[ToLower(matches[i].0) := matches[i].1];
    }
    assert matches[..|matches|] == matches;
  }

  // ----- The parser

  function Lookup(params: map<string, string>, key: string): string {
    if key in params then params[key] else ""
  }

  /** What `ParseChallenge` makes of the parameters; `decode` stands for the
      base64url and JSON decoding of the request parameter. */
  function FromParams(params: map<string, string>, decode: string -> Option<ChargeRequest>)
    : Result<Challenge, ParseError>
  {
    if Lookup(params, "id") == "" then Err(Missing("id"))
    else if Lookup(params, "realm") == "" then Err(Missing("realm"))
    else if Lookup(params, "method") == "" then Err(Missing("method"))
    else if Lookup(params, "intent") == "" then Err(Missing("intent"))
    else if Lookup(params, "request") == "" then Err(Missing("request"))
    else match decode(Lookup(params, "request"))
      case None => Err(BadRequest)
      case Some(req) =>
        Ok(Challenge(Lookup(params, "id"), Lookup(params, "realm"), Lookup(params, "method"),
                     Lookup(params, "intent"), Lookup(params, "request"), Some(req),
                     Lookup(params, "expires"), Lookup(params, "description"),
                     Lookup(params, "opaque"), Lookup(params, "digest")))
  }

  method ReadParams(params: map<string, string>, decode: string -> Option<ChargeRequest>)
    returns (r: Result<Challenge, ParseError>)
    ensures r == FromParams(params, decode)
  {
    if Lookup(params, "id") == "" {
      return Err(Missing("id"));
    }
    if Lookup(params, "realm") == "" {
      return Err(Missing("realm"));
    }
    if Lookup(params, "method") == "" {
      return Err(Missing("method"));
    }
    if Lookup(params, "intent") == "" {
      return Err(Missing("intent"));
    }
    if Lookup(params, "request") == "" {
      return Err(Missing("request"));
    }
    var req := decode(params["request"]);
    if req.None? {
      return Err(BadRequest);
    }
    return Ok(Challenge(params["id"], params["realm"], params["method"], params["intent"], params["request"], req,
                        Lookup(params, "expires"), Lookup(params, "description"),
                        Lookup(params, "opaque"), Lookup(params, "digest")));
  }

  function Parsed(header: string, decode: string -> Option<ChargeRequest>): Result<Challenge, ParseError> {
    var trimmed := TrimSpace(header);
    if |trimmed| < 8 then Err(TooShort)
    else if ToLower(trimmed[..7]) != "payment" then Err(NotPayment)
    else FromParams(ParamMap(FindAll(trimmed[7..])), decode)
  }

  method ParseChallenge(header: string, decode: string -> Option<ChargeRequest>)
    returns (r: Result<Challenge, ParseError>)
    ensures r == Parsed(header, decode)
  {
    var trimmed := TrimSpace(header);
    if |trimmed| < 8 {
      return Err(TooShort);
    }
    if ToLower(trimmed[..7]) != "payment" {
      return Err(NotPayment);
    }
    var params := ParseParams(trimmed[7..]);
    r := ReadParams(params, decode);
  }

  /** Whether a header value carries a Payment challenge. */
  predicate HasPaymentScheme(header: string) { "payment " <= ToLower(TrimSpace(header)) }

  /** The header value that is parsed, if any. */
  function FirstPayment(headers: seq<string>): Option<string> {
    if headers == [] then None
    else if HasPaymentScheme(headers[0]) then Some(headers[0])
    else FirstPayment(headers[1..])
  }

  /** The loop over the WWW-Authenticate values: the first Payment one. */
  method FindPaymentHeader(headers: seq<string>) returns (i: nat)
    ensures FirstPayment(headers) == if i < |headers| then Some(headers[i]) else None
    ensures i <= |headers|
    ensures forall j :: 0 <= j < i ==> !HasPaymentScheme(headers[j])
    ensures i < |headers| ==> HasPaymentScheme(headers[i])
  {
    i := 0;
    while i < |headers|
      invariant i <= |headers| && FirstPayment(headers[i..]) == FirstPayment(headers)
      invariant forall j :: 0 <= j < i ==> !HasPaymentScheme(headers[j])
    {
      if HasPaymentScheme(headers[i]) {
        return;
      }
      assert headers[i..][1..] == headers[i + 1..];
      i := i + 1;
    }
  }

  // ----- The printer

  predicate IsKey(k: string) { k != "" && forall i :: 0 <= i < |k| ==> IsWord(k[i]) }

  predicate IsPlain(v: string) { forall i :: 0 <= i < |v| ==> v[i] != '"' && v[i] != '\\' }

  predicate Printable(ps: seq<Param>) {
    forall i :: 0 <= i < |ps| ==> IsKey(ps[i].0) && IsPlain(ps[i].1)
  }

  function PrintParam(p: Param): string { p.0 + "=\"" + p.1 + "\"" }

  /** `k1="v1", k2="v2", ...` (sections 11.2 and 5.6.4 of RFC 9110). */
  function PrintParams(ps: seq<Param>): string {
    if ps == [] then ""
    else if |ps| == 1 then PrintParam(ps[0])
    else PrintParam(ps[0]) + ", " + PrintParams(ps[1..])
  }

  function PrintHeader(ps: seq<Param>): string { "Payment " + PrintParams(ps) }

  // ----- Scanning undoes printing

  lemma {:induction false} QuotedPlain(v: string, rest: string)
    requires IsPlain(v)
    ensures QuotedLength(v + "\"" + rest) == Some(|v|)
  {
    var s := v + "\"" + rest;
    if v != "" {
      QuotedPlain(v[1..], rest);
      assert s[1..] == v[1..] + "\"" + rest;
      assert s[0] == v[0];
    }
  }

  lemma EqualsPrinted(q: string)
    ensures AfterEquals("=\"" + q) == Some("\"" + q)
  {
    var s := "=\"" + q;
    assert s[1..] == "\"" + q;
    assert SkipBlanks(s) == s;
    assert SkipBlanks("\"" + q) == "\"" + q;
  }

  lemma ValuePrinted(v: string, rest: string)
    requires IsPlain(v)
    ensures ValueAt("\"" + (v + "\"" + rest)) == Some((v, rest))
  {
    var q := v + "\"" + rest;
    assert ("\"" + q)[1..] == q;
    QuotedPlain(v, rest);
    assert q[..|v|] == v && q[|v| + 1..] == rest;
  }

  lemma MatchPrinted(p: Param, rest: string)
    requires IsKey(p.0) && IsPlain(p.1)
    ensures MatchAt(PrintParam(p) + rest) == Some((p, rest))
  {
    var q := p.1 + "\"" + rest;
    var s := p.0 + ("=\"" + q);
    assert s == PrintParam(p) + rest;
    RunStopsAt(s, IsWord, |p.0|);
    assert s[..|p.0|] == p.0 && s[|p.0|..] == "=\"" + q;
    EqualsPrinted(q);
    ValuePrinted(p.1, rest);
  }

  lemma SkipNonWord(c: char, s: string)
    requires !IsWord(c)
    ensures FindAll([c] + s) == FindAll(s)
  {
    assert Run([c] + s, IsWord) == 0;
    assert ([c] + s)[1..] == s;
  }

  lemma ScanMatch(s: string, p: Param, rest: string)
    requires s != "" && MatchAt(s) == Some((p, rest))
    ensures FindAll(s) == [p] + FindAll(rest)
  {}

  lemma ScanLast(p: Param)
    requires IsKey(p.0) && IsPlain(p.1)
    ensures FindAll(PrintParam(p)) == [p]
  {
    MatchPrinted(p, "");
    assert PrintParam(p) + "" == PrintParam(p);
    ScanMatch(PrintParam(p), p, "");
    assert FindAll("") == [];
  }

  lemma SkipComma(tail: string)
    ensures FindAll(", " + tail) == FindAll(tail)
  {
    SkipNonWord(' ', tail);
    SkipNonWord(',', " " + tail);
    assert ", " + tail == "," + (" " + tail);
  }

  lemma ScanNext(p: Param, tail: string)
    requires IsKey(p.0) && IsPlain(p.1)
    ensures FindAll(PrintParam(p) + ", " + tail) == [p] + FindAll(tail)
  {
    var printed := PrintParam(p);
    MatchPrinted(p, ", " + tail);
    ScanMatch(printed + (", " + tail), p, ", " + tail);
    SkipComma(tail);
    Associate(printed, ", ", tail);
  }

  /** Scanning the printed parameters gives the list back, whatever commas,
      spaces or `x=y` look-alikes the values contain. */
  lemma {:induction false} ScanPrinted(ps: seq<Param>)
    requires Printable(ps)
    ensures FindAll(PrintParams(ps)) == ps
  {
    if ps == [] {
    } else if |ps| == 1 {
      ScanLast(ps[0]);
    } else {
      ScanNext(ps[0], PrintParams(ps[1..]));
      ScanPrinted(ps[1..]);
    }
  }

  /** With keys distinct up to letter case, the map holds exactly the parameters. */
  lemma {:induction false} ParamMapExact(ps: seq<Param>)
    requires forall i, j :: 0 <= i < j < |ps| ==> ToLower(ps[i].0) != ToLower(ps[j].0)
    ensures forall i :: 0 <= i < |ps| ==> ToLower(ps[i].0) in ParamMap(ps) && ParamMap(ps)[ToLower(ps[i].0)] == ps[i].1
    ensures forall k :: k in ParamMap(ps) ==> exists i :: 0 <= i < |ps| && k == ToLower(ps[i].0)
  {
    if ps != [] {
      var front := ps[..|ps| - 1];
      ParamMapExact(front);
      forall k | k in ParamMap(ps)
        ensures exists i :: 0 <= i < |ps| && k == ToLower(ps[i].0)
      {
        if k in ParamMap(front) {
          var i :| 0 <= i < |front| && k == ToLower(front[i].0);
          assert k == ToLower(ps[i].0);
        } else {
          assert k == ToLower(ps[|ps| - 1].0);
        }
      }
    }
  }

  lemma {:induction false} PrintedEndsInQuote(ps: seq<Param>)
    requires ps != []
    ensures PrintParams(ps) != "" && PrintParams(ps)[|PrintParams(ps)| - 1] == '"'
  {
    if |ps| > 1 {
      PrintedEndsInQuote(ps[1..]);
    }
  }

  // ----- The scheme

  /** The header value is of the scheme exactly when its first word is the scheme's
      name, in any letter case, and something follows it. */
  lemma SchemeExact(word: string, rest: string)
    requires word != "" && (forall i :: 0 <= i < |word| ==> !IsSpace(word[i]))
    requires rest != "" && !IsSpace(rest[|rest| - 1])
    ensures HasPaymentScheme(word + (" " + rest)) <==> ToLower(word) == "payment"
  {
    var h := word + (" " + rest);
    assert h[|word|] == ' ' && h[..|word|] == word && h[|h| - 1] == rest[|rest| - 1];
    TrimKeeps(h);
    assert ToLower(h)[..|word|] == ToLower(word) && ToLower(h)[|word|] == ' ';
    if |word| > 7 {
      assert ToLower(h)[7] == LowerChar(word[7]) != ' ';
    } else if |word| < 7 {
      assert "payment "[|word|] != ' ';
    } else {
      assert ToLower(h)[..8] == ToLower(word) + " ";
    }
  }

  /** A printed header under any spelling of the scheme's name, with spaces around it. */
  function PrintHeaderAs(left: string, word: string, ps: seq<Param>, right: string): string {
    left + ((word + (" " + PrintParams(ps))) + right)
  }

  predicate IsSpelling(left: string, word: string, right: string) {
    && ToLower(word) == "payment"
    && (forall i :: 0 <= i < |left| ==> IsSpace(left[i]))
    && (forall i :: 0 <= i < |right| ==> IsSpace(right[i]))
  }

  lemma WordIsSpaceless(word: string)
    requires ToLower(word) == "payment"
    ensures word != "" && forall i :: 0 <= i < |word| ==> !IsSpace(word[i])
  {
    forall i | 0 <= i < |word| ensures !IsSpace(word[i]) {
      assert LowerChar(word[i]) == "payment"[i];
    }
  }

  lemma TrimmedHeader(left: string, word: string, ps: seq<Param>, right: string)
    requires IsSpelling(left, word, right) && ps != []
    ensures TrimSpace(PrintHeaderAs(left, word, ps, right)) == word + (" " + PrintParams(ps))
  {
    var h := word + (" " + PrintParams(ps));
    PrintedEndsInQuote(ps);
    WordIsSpaceless(word);
    assert h[0] == word[0] && h[|h| - 1] == '"';
    TrimmedExact(h);
    TrimSpaceExact(left, h, right);
  }

  /** The auth-param round trip: parsing a printed header, however the scheme's name is
      spelled and whatever spaces surround it, sees exactly the map of the printed
      parameters. */
  lemma HeaderRoundTrip(left: string, word: string, ps: seq<Param>, right: string,
                        decode: string -> Option<ChargeRequest>)
    requires IsSpelling(left, word, right) && ps != [] && Printable(ps)
    ensures Parsed(PrintHeaderAs(left, word, ps, right), decode) == FromParams(ParamMap(ps), decode)
    ensures HasPaymentScheme(PrintHeaderAs(left, word, ps, right))
  {
    var text := PrintParams(ps);
    var h := word + (" " + text);
    TrimmedHeader(left, word, ps, right);
    WordIsSpaceless(word);
    PrintedEndsInQuote(ps);
    SchemeExact(word, text);
    assert TrimSpace(h) == h by { TrimmedExact(h); assert h[0] == word[0] && h[|h| - 1] == '"'; }
    assert h[..7] == word && h[7..] == " " + text;
    SkipNonWord(' ', text);
    ScanPrinted(ps);
  }

  /** The usual spelling. */
  lemma UsualHeader(ps: seq<Param>)
    ensures IsSpelling("", "Payment", "") && PrintHeader(ps) == PrintHeaderAs("", "Payment", ps, "")
  {
    assert ToLower("Payment") == "payment";
    assert "Payment" + (" " + PrintParams(ps)) == PrintHeader(ps);
  }

  // ----- Other spellings of a parameter

  predicate AllBlank(s: string) { forall i :: 0 <= i < |s| ==> IsBlank(s[i]) }

  lemma EqualsFound(before: string, after: string, q: string)
    requires AllBlank(before) && AllBlank(after) && q != "" && !IsBlank(q[0])
    ensures AfterEquals(before + ("=" + (after + q))) == Some(q)
  {
    var t := "=" + (after + q);
    RunStopsAt(before + t, IsBlank, |before|);
    assert (before + t)[|before|..] == t && t[1..] == after + q;
    RunStopsAt(after + q, IsBlank, |after|);
    assert (after + q)[|after|..] == q;
  }

  lemma KeyFound(key: string, t: string)
    requires IsKey(key) && t != "" && !IsWord(t[0])
    ensures Run(key + t, IsWord) == |key| && (key + t)[..|key|] == key && (key + t)[|key|..] == t
  {
    RunStopsAt(key + t, IsWord, |key|);
  }

  /** A parameter with blanks around its equals sign. */
  lemma SpacedParam(key: string, before: string, after: string, q: string, v: string, rest: string)
    requires IsKey(key) && AllBlank(before) && AllBlank(after) && q != "" && !IsBlank(q[0])
    requires ValueAt(q) == Some((v, rest))
    ensures FindAll(key + (before + ("=" + (after + q)))) == [(key, v)] + FindAll(rest)
  {
    var t := before + ("=" + (after + q));
    assert t[0] == if before == "" then '=' else before[0];
    KeyFound(key, t);
    EqualsFound(before, after, q);
    ScanMatch(key + t, (key, v), rest);
  }

  /** A value with its quotes and backslashes escaped (section 5.6.4 of RFC 9110). */
  function Escaped(v: string): string {
    if v == "" then ""
    else (if v[0] == '"' || v[0] == '\\' then ['\\', v[0]] else [v[0]]) + Escaped(v[1..])
  }

  lemma {:induction false} EscapedLength(v: string, rest: string)
    ensures QuotedLength(Escaped(v) + ("\"" + rest)) == Some(|Escaped(v)|)
  {
    var q := "\"" + rest;
    if v == "" {
      assert "" + q == q;
    } else {
      EscapedLength(v[1..], rest);
      EscapedStep(v, q);
    }
  }

  lemma EscapedStep(v: string, q: string)
    requires v != "" && QuotedLength(Escaped(v[1..]) + q) == Some(|Escaped(v[1..])|)
    ensures QuotedLength(Escaped(v) + q) == Some(|Escaped(v)|)
  {
    var tail := Escaped(v[1..]);
    if v[0] == '"' || v[0] == '\\' {
      Associate(['\\', v[0]], tail, q);
      QuotedPair(v[0], tail + q);
    } else {
      Associate([v[0]], tail, q);
      QuotedChar(v[0], tail + q);
    }
  }

  lemma QuotedPair(c: char, tail: string)
    requires c != '\n' && QuotedLength(tail).Some?
    ensures QuotedLength(['\\', c] + tail) == Some(QuotedLength(tail).value + 2)
  {
    assert (['\\', c] + tail)[2..] == tail;
  }

  lemma QuotedChar(c: char, tail: string)
    requires c != '"' && c != '\\' && QuotedLength(tail).Some?
    ensures QuotedLength([c] + tail) == Some(QuotedLength(tail).value + 1)
  {
    assert ([c] + tail)[1..] == tail;
  }

  /** A quoted parameter with any value, escaped as it must be, is captured with its
      escapes: they are not undone. */
  lemma QuotedParam(key: string, before: string, after: string, v: string, rest: string)
    requires IsKey(key) && AllBlank(before) && AllBlank(after)
    ensures FindAll(key + (before + ("=" + (after + ("\"" + (Escaped(v) + ("\"" + rest)))))))
         == [(key, Escaped(v))] + FindAll(rest)
  {
    var q := Escaped(v) + ("\"" + rest);
    EscapedLength(v, rest);
    assert ("\"" + q)[1..] == q && q[..|Escaped(v)|] == Escaped(v) && q[|Escaped(v)| + 1..] == rest;
    SpacedParam(key, before, after, "\"" + q, Escaped(v), rest);
  }

  /** So the value itself is captured exactly when it has nothing to escape. */
  lemma {:induction false} EscapedExact(v: string)
    ensures |Escaped(v)| >= |v| && (Escaped(v) == v <==> IsPlain(v))
  {
    if v != "" {
      EscapedExact(v[1..]);
      if Escaped(v) == v {
        assert |Escaped(v)| == |v| && Escaped(v)[1..] == v[1..];
        assert Escaped(v[1..]) == v[1..];
      } else if IsPlain(v) {
        assert IsPlain(v[1..]);
      }
    }
  }

  /** A parameter without quotes takes all that is not blank. */
  lemma TokenParam(key: string, before: string, after: string, v: string, rest: string)
    requires IsKey(key) && AllBlank(before) && AllBlank(after)
    requires v != "" && v[0] != '"' && (forall i :: 0 <= i < |v| ==> !IsBlank(v[i])) && (rest == "" || IsBlank(rest[0]))
    ensures FindAll(key + (before + ("=" + (after + (v + rest))))) == [(key, v)] + FindAll(rest)
  {
    var q := v + rest;
    RunStopsAt(q, c => !IsBlank(c), |v|);
    assert q[..|v|] == v && q[|v|..] == rest;
    SpacedParam(key, before, after, q, v, rest);
  }

  /** So a comma that ends it becomes part of it. */
  lemma TokenTakesComma(key: string, v: string, rest: string)
    requires IsKey(key) && v != "" && v[0] != '"' && (forall i :: 0 <= i < |v| ==> !IsBlank(v[i]))
    ensures FindAll(key + ("=" + ((v + ",") + (" " + rest)))) == [(key, v + ",")] + FindAll(rest)
  {
    var tail := " " + rest;
    TokenParam(key, "", "", v + ",", tail);
    WithoutBlanks(key, (v + ",") + tail);
    SkipNonWord(' ', rest);
  }

  lemma WithoutBlanks(key: string, q: string)
    ensures key + ("" + ("=" + ("" + q))) == key + ("=" + q)
  {
    assert "" + q == q;
    assert "" + ("=" + q) == "=" + q;
  }

  /** The pattern matches nothing else: a key, an equals sign with blanks around it, and
      a quoted text or a run of characters that are not blank. */
  lemma MatchSound(s: string) returns (before: string, after: string, q: string)
    requires MatchAt(s).Some?
    ensures var ((key, v), rest) := MatchAt(s).value;
      && IsKey(key) && AllBlank(before) && AllBlank(after)
      && s == key + (before + ("=" + (after + q))) && ValueAt(q) == Some((v, rest))
  {
    before, after := EqualsSound(s[Run(s, IsWord)..]);
    q := AfterEquals(s[Run(s, IsWord)..]).value;
    KeySplit(s);
  }

  lemma KeySplit(s: string)
    ensures var k := Run(s, IsWord); s == s[..k] + s[k..] && (k > 0 ==> IsKey(s[..k]))
  {}

  lemma FirstAndRest(s: string)
    requires s != "" && s[0] == '='
    ensures s == "=" + s[1..]
  {}

  lemma BlanksSplit(t: string)
    ensures AllBlank(t[..Run(t, IsBlank)]) && t == t[..Run(t, IsBlank)] + SkipBlanks(t)
  {}

  lemma EqualsSound(t: string) returns (before: string, after: string)
    requires AfterEquals(t).Some?
    ensures AllBlank(before) && AllBlank(after) && t == before + ("=" + (after + AfterEquals(t).value))
  {
    var left := SkipBlanks(t);
    before, after := t[..Run(t, IsBlank)], left[1..][..Run(left[1..], IsBlank)];
    BlanksSplit(t);
    BlanksSplit(left[1..]);
    FirstAndRest(left);
  }

  lemma ValueSound(q: string)
    requires ValueAt(q).Some?
    ensures var (v, rest) := ValueAt(q).value;
      || q == "\"" + (v + ("\"" + rest))
      || (q == v + rest && (forall i :: 0 <= i < |v| ==> !IsBlank(v[i])) && (rest == "" || IsBlank(rest[0])))
  {
    if q[0] == '"' && QuotedLength(q[1..]).Some? {
      var n, t := QuotedLength(q[1..]).value, q[1..];
      assert t == t[..n] + ([t[n]] + t[n + 1..]);
    }
  }

  // ----- Repeated and missing parameters

  /** Of several parameters with one key, up to letter case, the last one counts. */
  lemma {:induction false} LastParamWins(ps: seq<Param>, i: nat)
    requires i < |ps| && forall j :: i < j < |ps| ==> ToLower(ps[j].0) != ToLower(ps[i].0)
    ensures Lookup(ParamMap(ps), ToLower(ps[i].0)) == ps[i].1
  {
    if i < |ps| - 1 { LastParamWins(ps[..|ps| - 1], i); }
  }

  const REQUIRED: seq<string> := ["id", "realm", "method", "intent", "request"]

  /** The error names the first required parameter that is missing or empty. */
  lemma MissingExact(params: map<string, string>, decode: string -> Option<ChargeRequest>, i: nat)
    requires i < |REQUIRED|
    ensures FromParams(params, decode) == Err(Missing(REQUIRED[i]))
            <==> && Lookup(params, REQUIRED[i]) == ""
                 && forall j :: 0 <= j < i ==> Lookup(params, REQUIRED[j]) != ""
  {
    assert |REQUIRED[0]| == 2 && |REQUIRED[1]| == 5 && |REQUIRED[2]| == 6 && |REQUIRED[3]| == 6 && |REQUIRED[4]| == 7;
    assert REQUIRED[2][0] != REQUIRED[3][0];
    if FromParams(params, decode) == Err(Missing(REQUIRED[i])) {
      forall j | 0 <= j < i ensures Lookup(params, REQUIRED[j]) != "" {}
    } else if forall j :: 0 <= j < i ==> Lookup(params, REQUIRED[j]) != "" {
      assert i > 0 ==> Lookup(params, REQUIRED[0]) != "";
      assert i > 1 ==> Lookup(params, REQUIRED[1]) != "";
      assert i > 2 ==> Lookup(params, REQUIRED[2]) != "";
      assert i > 3 ==> Lookup(params, REQUIRED[3]) != "";
    }
  }

  // ----- Whole challenges

  const NAMES: seq<string> :=
    ["id", "realm", "method", "intent", "request", "expires", "description", "opaque", "digest"]

  function Values(c: Challenge): seq<string> {
    [c.id, c.realm, c.method_, c.intent, c.rawRequest, c.expires, c.description, c.opaque_, c.digest]
  }

  /** The parameters with a value; absent ones are left out. */
  function Present(names: seq<string>, values: seq<string>): (ps: seq<Param>)
    requires |names| == |values|
  {
    if names == [] then []
    else
      var n := |names| - 1;
      Present(names[..n], values[..n]) + if values[n] == "" then [] else [(names[n], values[n])]
  }

  function ChallengeParams(c: Challenge): seq<Param> { Present(NAMES, Values(c)) }

  /** The required parameters are there. */
  predicate Complete(c: Challenge) {
    c.id != "" && c.realm != "" && c.method_ != "" && c.intent != "" && c.rawRequest != ""
  }

  /** A quoted string can hold every parameter as it is. */
  predicate Plain(c: Challenge) { forall i :: 0 <= i < |Values(c)| ==> IsPlain(Values(c)[i]) }

  predicate WellFormed(c: Challenge) { Complete(c) && Plain(c) }

  predicate IsNames(names: seq<string>) {
    && (forall i :: 0 <= i < |names| ==> IsKey(names[i]) && ToLower(names[i]) == names[i])
    && (forall i, j :: 0 <= i < j < |names| ==> names[i] != names[j])
  }

  lemma {:induction false} LookupPresent(names: seq<string>, values: seq<string>, k: string)
    requires |names| == |values| && IsNames(names)
    ensures k !in names ==> k !in ParamMap(Present(names, values))
    ensures forall i :: 0 <= i < |names| && k == names[i] ==> Lookup(ParamMap(Present(names, values)), k) == values[i]
  {
    if names != [] {
      var n := |names| - 1;
      LookupPresent(names[..n], values[..n], k);
      if values[n] != "" {
        assert Present(names, values)[..|Present(names, values)| - 1] == Present(names[..n], values[..n]);
      } else {
        assert Present(names, values) == Present(names[..n], values[..n]);
        assert k == names[n] ==> k !in names[..n];
      }
    }
  }

  lemma {:induction false} PresentPrintable(names: seq<string>, values: seq<string>)
    requires |names| == |values| && IsNames(names)
    requires forall i :: 0 <= i < |values| ==> IsPlain(values[i])
    ensures Printable(Present(names, values))
    ensures (exists i :: 0 <= i < |values| && values[i] != "") ==> Present(names, values) != []
  {
    if names != [] {
      var n := |names| - 1;
      PresentPrintable(names[..n], values[..n]);
    }
  }

  lemma LowerKey(k: string)
    requires k != "" && forall i :: 0 <= i < |k| ==> 'a' <= k[i] <= 'z'
    ensures IsKey(k) && ToLower(k) == k
  {}

  lemma NamesDiffer()
    ensures IsNames(NAMES)
  {
    LowerKey("id"); LowerKey("realm"); LowerKey("method"); LowerKey("intent"); LowerKey("request");
    LowerKey("expires"); LowerKey("description"); LowerKey("opaque"); LowerKey("digest");
    assert "method"[0] != "intent"[0] && "method"[0] != "opaque"[0] && "method"[0] != "digest"[0];
    assert "intent"[0] != "opaque"[0] && "intent"[0] != "digest"[0] && "opaque"[0] != "digest"[0];
    assert "request"[0] != "expires"[0];
  }

  lemma LookupName(c: Challenge, i: nat)
    requires i < |NAMES|
    ensures Lookup(ParamMap(ChallengeParams(c)), NAMES[i]) == Values(c)[i]
  {
    NamesDiffer();
    LookupPresent(NAMES, Values(c), NAMES[i]);
  }

  /** Parsing a printed challenge gives that challenge, omitted optional fields
      reading as empty. */
  lemma ChallengeRoundTrip(c: Challenge, left: string, word: string, right: string,
                           decode: string -> Option<ChargeRequest>)
    requires WellFormed(c) && c.request.Some? && decode(c.rawRequest) == c.request && IsSpelling(left, word, right)
    ensures Carries(PrintHeaderAs(left, word, ChallengeParams(c), right), decode, c)
  {
    NamesDiffer();
    assert Values(c)[0] != "";
    PresentPrintable(NAMES, Values(c));
    HeaderRoundTrip(left, word, ChallengeParams(c), right, decode);
    forall i | 0 <= i < |NAMES|
      ensures Lookup(ParamMap(ChallengeParams(c)), NAMES[i]) == Values(c)[i]
    {
      LookupName(c, i);
    }
    ReadBack(c, ParamMap(ChallengeParams(c)), decode);
  }

  lemma ReadBack(c: Challenge, m: map<string, string>, decode: string -> Option<ChargeRequest>)
    requires WellFormed(c) && c.request.Some? && decode(c.rawRequest) == c.request
    requires forall i :: 0 <= i < |NAMES| ==> Lookup(m, NAMES[i]) == Values(c)[i]
    ensures FromParams(m, decode) == Ok(c)
  {
    assert Lookup(m, NAMES[0]) == c.id && Lookup(m, NAMES[1]) == c.realm && Lookup(m, NAMES[2]) == c.method_;
    assert Lookup(m, NAMES[3]) == c.intent && Lookup(m, NAMES[4]) == c.rawRequest && Lookup(m, NAMES[5]) == c.expires;
    assert Lookup(m, NAMES[6]) == c.description && Lookup(m, NAMES[7]) == c.opaque_ && Lookup(m, NAMES[8]) == c.digest;
  }

  // ----- Exactly the challenges that arrive

  /** What is parsed begins with the scheme's name and is complete, and its request
      decoded. */
  lemma ParsedIsComplete(header: string, decode: string -> Option<ChargeRequest>, c: Challenge)
    requires Parsed(header, decode) == Ok(c)
    ensures |TrimSpace(header)| >= 8 && ToLower(TrimSpace(header)[..7]) == "payment"
    ensures Complete(c) && c.request.Some? && decode(c.rawRequest) == c.request
  {
    ReadIsComplete(ParamMap(FindAll(TrimSpace(header)[7..])), decode, c);
  }

  lemma ReadIsComplete(params: map<string, string>, decode: string -> Option<ChargeRequest>, c: Challenge)
    requires FromParams(params, decode) == Ok(c)
    ensures Complete(c) && c.request.Some? && decode(c.rawRequest) == c.request
  {}

  /** A header that the Payment scheme recognises and parses to the challenge. */
  predicate Carries(header: string, decode: string -> Option<ChargeRequest>, c: Challenge) {
    HasPaymentScheme(header) && Parsed(header, decode) == Ok(c)
  }

  /** Some header carries a plain challenge exactly when it is complete and its
      request decodes. */
  lemma ChallengeExact(c: Challenge, decode: string -> Option<ChargeRequest>)
    requires Plain(c)
    ensures (exists header :: Carries(header, decode, c))
            <==> Complete(c) && c.request.Some? && decode(c.rawRequest) == c.request
  {
    if Complete(c) && c.request.Some? && decode(c.rawRequest) == c.request {
      PrintedCarries(c, decode);
    } else if header :| Carries(header, decode, c) {
      ParsedIsComplete(header, decode, c);
    }
  }

  lemma PrintedCarries(c: Challenge, decode: string -> Option<ChargeRequest>)
    requires WellFormed(c) && c.request.Some? && decode(c.rawRequest) == c.request
    ensures Carries(PrintHeader(ChallengeParams(c)), decode, c)
  {
    UsualHeader(ChallengeParams(c));
    ChallengeRoundTrip(c, "", "Payment", "", decode);
  }
}
