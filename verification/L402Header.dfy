/** The L402 challenge of the WWW-Authenticate header: its pattern, the parser
    built on it, and exactly the offers that it can yield. */
module L402Header {
  import opened Wrappers
  import opened Text

  /** `macaroon` is the base64 text of the header. */
  datatype Offer = Offer(macaroon: string, paymentHash: string, invoice: string)

  /** The macaroon and the invoice as the pattern captures them. */
  type Captured = (string, string)

  // ----- The pattern

  /** A word up to letter case at the start of a string: what follows it. */
  function AfterWord(s: string, word: string): Option<string> {
    if |word| <= |s| && ToLower(s[..|word|]) == word then Some(s[|word|..]) else None
  }

  /** `"([^"]+)"` at the start of a string: the captured text and what follows. */
  function QuotedAt(s: string): (r: Option<(string, string)>)
    ensures r.Some? ==> IsQuotable(r.value.0)
  {
    if s == "" || s[0] != '"' then None
    else
      var n := Run(s[1..], c => c != '"');
      if n == 0 || n == |s| - 1 then None else Some((s[1..][..n], s[1..][n + 1..]))
  }

  predicate IsQuotable(v: string) { v != "" && forall i :: 0 <= i < |v| ==> v[i] != '"' }

  function SkipBlanks(s: string): string { s[Run(s, IsBlank)..] }

  /** `(?:LSAT|L402)\s+` at the start of a string: what follows it. */
  function AfterScheme(s: string): Option<string> {
    match if AfterWord(s, "lsat").Some? then AfterWord(s, "lsat") else AfterWord(s, "l402")
    case None => None
    case Some(t) => if t == "" || !IsBlank(t[0]) then None else Some(SkipBlanks(t))
  }

  /** `macaroon="([^"]+)"`, and likewise for the invoice. */
  function NamedAt(s: string, name: string): (r: Option<(string, string)>)
    ensures r.Some? ==> IsQuotable(r.value.0)
  {
    match AfterWord(s, name + "=")
    case None => None
    case Some(t) => QuotedAt(t)
  }

  /** `macaroon="([^"]+)",\s*invoice="([^"]+)"` at the start. */
  function PartsAt(s: string): (r: Option<Captured>)
    ensures r.Some? ==> IsQuotable(r.value.0) && IsQuotable(r.value.1)
  {
    match NamedAt(s, "macaroon")
    case None => None
    case Some((macaroon, rest)) =>
      match AfterComma(rest)
      case None => None
      case Some(t) =>
        match NamedAt(t, "invoice")
        case None => None
        case Some((invoice, _)) => Some((macaroon, invoice))
  }

  /** `,\s*` at the start of a string: what follows it. */
  function AfterComma(s: string): Option<string> {
    if s == "" || s[0] != ',' then None else Some(SkipBlanks(s[1..]))
  }

  /** `(?i)(LSAT|L402)\s+macaroon="([^"]+)",\s*invoice="([^"]+)"` at the start. */
  function MatchAt(s: string): (r: Option<Captured>)
    ensures r.Some? ==> IsQuotable(r.value.0) && IsQuotable(r.value.1)
  {
    match AfterScheme(s)
    case None => None
    case Some(t) => PartsAt(t)
  }

  /** The leftmost match of a pattern. */
  function FindBy(s: string, pattern: string -> Option<Captured>): (r: Option<Captured>)
    ensures r.Some? ==> exists t :: pattern(t) == r
  {
    if pattern(s).Some? then pattern(s)
    else if s == "" then None
    else FindBy(s[1..], pattern)
  }

  function Find(s: string): (r: Option<Captured>)
    ensures r.Some? ==> IsQuotable(r.value.0) && IsQuotable(r.value.1)
  {
    FindBy(s, MatchAt)
  }

  // ----- The parser

  /** `ParseChallenge`; `identify` stands for decoding a macaroon and reading the
      payment hash in its identifier. */
  function Parsed(header: string, identify: string -> Option<string>): Option<Offer> {
    match Find(header)
    case None => None
    case Some((macaroon, invoice)) =>
      match identify(macaroon)
      case None => None
      case Some(hash) => Some(Offer(macaroon, hash, invoice))
  }

  /** `IsL402Challenge` on a header value. */
  predicate IsChallenge(header: string) { "l402 " <= ToLower(header) || "lsat " <= ToLower(header) }

  // ----- The printer

  /** The spellings that the pattern admits: the scheme's two names, letter case, blanks,
      and what follows the invoice. */
  datatype Style = Style(
    scheme: string, gap: string, macaroonLabel: string, comma: string, invoiceLabel: string, rest: string)

  predicate IsStyle(style: Style) {
    && ToLower(style.scheme) in ["l402", "lsat"]
    && style.gap != "" && style.gap[0] == ' ' && AllBlank(style.gap) && AllBlank(style.comma)
    && ToLower(style.macaroonLabel) == "macaroon=" && ToLower(style.invoiceLabel) == "invoice="
  }

  predicate AllBlank(s: string) { forall i :: 0 <= i < |s| ==> IsBlank(s[i]) }

  const USUAL := Style("L402", " ", "macaroon=", " ", "invoice=", "")

  function Print(offer: Offer): string { PrintAs(offer, USUAL) }

  function PrintAs(offer: Offer, style: Style): string {
    style.scheme + (style.gap + PrintParts(offer, style))
  }

  function PrintParts(offer: Offer, style: Style): string {
    PrintNamed(style.macaroonLabel, offer.macaroon,
               "," + (style.comma + PrintNamed(style.invoiceLabel, offer.invoice, style.rest)))
  }

  function PrintNamed(tag: string, value: string, rest: string): string {
    tag + ("\"" + (value + ("\"" + rest)))
  }

  // ----- Exactly the offers that arrive

  lemma WordFound(word: string, printed: string, rest: string)
    requires ToLower(printed) == word
    ensures AfterWord(printed + rest, word) == Some(rest)
  {
    assert (printed + rest)[..|word|] == printed;
  }

  lemma QuotedFound(v: string, rest: string)
    requires IsQuotable(v)
    ensures QuotedAt("\"" + (v + ("\"" + rest))) == Some((v, rest))
  {
    var q := v + ("\"" + rest);
    assert ("\"" + q)[1..] == q;
    RunStopsAt(q, c => c != '"', |v|);
    assert q[..|v|] == v && q[|v| + 1..] == rest;
  }

  lemma NamedFound(name: string, tag: string, v: string, rest: string)
    requires IsQuotable(v) && ToLower(tag) == name + "="
    ensures NamedAt(PrintNamed(tag, v, rest), name) == Some((v, rest))
  {
    WordFound(name + "=", tag, "\"" + (v + ("\"" + rest)));
    QuotedFound(v, rest);
  }

  lemma BlanksSkipped(blanks: string, rest: string)
    requires AllBlank(blanks) && rest != "" && !IsBlank(rest[0])
    ensures SkipBlanks(blanks + rest) == rest
  {
    RunStopsAt(blanks + rest, IsBlank, |blanks|);
    assert (blanks + rest)[|blanks|..] == rest;
  }

  lemma SchemeFound(scheme: string, gap: string, rest: string)
    requires ToLower(scheme) in ["l402", "lsat"] && gap != "" && AllBlank(gap)
    requires rest != "" && !IsBlank(rest[0])
    ensures AfterScheme(scheme + (gap + rest)) == Some(rest)
  {
    var s, t := scheme + (gap + rest), gap + rest;
    WordFound(ToLower(scheme), scheme, t);
    BlanksSkipped(gap, rest);
    if ToLower(scheme) == "l402" {
      assert ToLower(s[..4])[1] == '4';
    }
  }

  lemma CommaFound(blanks: string, rest: string)
    requires AllBlank(blanks) && rest != "" && !IsBlank(rest[0])
    ensures AfterComma("," + (blanks + rest)) == Some(rest)
  {
    assert ("," + (blanks + rest))[1..] == blanks + rest;
    BlanksSkipped(blanks, rest);
  }

  lemma LabelStarts(tag: string, name: string, rest: string)
    requires ToLower(tag) == name && name != "" && 'a' <= name[0] <= 'z'
    ensures tag + rest != "" && !IsBlank((tag + rest)[0])
  {
    assert LowerChar(tag[0]) == name[0];
  }

  lemma InvoiceFound(offer: Offer, style: Style)
    requires IsQuotable(offer.invoice) && AllBlank(style.comma) && ToLower(style.invoiceLabel) == "invoice" + "="
    ensures var last := PrintNamed(style.invoiceLabel, offer.invoice, style.rest);
            AfterComma("," + (style.comma + last)) == Some(last)
              && NamedAt(last, "invoice") == Some((offer.invoice, style.rest))
  {
    var last := PrintNamed(style.invoiceLabel, offer.invoice, style.rest);
    LabelStarts(style.invoiceLabel, "invoice" + "=", "\"" + (offer.invoice + ("\"" + style.rest)));
    CommaFound(style.comma, last);
    NamedFound("invoice", style.invoiceLabel, offer.invoice, style.rest);
  }

  lemma PartsFound(offer: Offer, style: Style)
    requires IsQuotable(offer.macaroon) && IsQuotable(offer.invoice) && IsStyle(style)
    ensures PartsAt(PrintParts(offer, style)) == Some((offer.macaroon, offer.invoice))
  {
    var last := PrintNamed(style.invoiceLabel, offer.invoice, style.rest);
    assert "macaroon" + "=" == "macaroon=" && "invoice" + "=" == "invoice=";
    NamedFound("macaroon", style.macaroonLabel, offer.macaroon, "," + (style.comma + last));
    InvoiceFound(offer, style);
  }

  lemma MatchPrinted(offer: Offer, style: Style)
    requires IsQuotable(offer.macaroon) && IsQuotable(offer.invoice) && IsStyle(style)
    ensures MatchAt(PrintAs(offer, style)) == Some((offer.macaroon, offer.invoice))
  {
    var text := PrintParts(offer, style);
    LabelStarts(style.macaroonLabel, "macaroon=", text[|style.macaroonLabel|..]);
    assert style.macaroonLabel + text[|style.macaroonLabel|..] == text;
    SchemeFound(style.scheme, style.gap, text);
    PartsFound(offer, style);
  }

  /** A value is an L402 challenge exactly when its first word is one of the scheme's two
      names, in any letter case. */
  lemma IsChallengeExact(word: string, rest: string)
    requires ' ' !in word
    ensures IsChallenge(word + (" " + rest)) <==> ToLower(word) == "l402" || ToLower(word) == "lsat"
    ensures !IsChallenge(word)
  {
    var h := word + (" " + rest);
    assert h[|word|] == ' ' && h[..|word|] == word;
    assert ToLower(h)[..|word|] == ToLower(word);
    if |word| == 4 {
      assert ToLower(h)[..5] == ToLower(word) + " ";
    } else if |word| < 4 {
      assert ToLower(h)[|word|] == ' ';
    } else {
      assert word[4] != ' ' && ToLower(h)[4] == LowerChar(word[4]) != ' ';
    }
    if |word| > 4 { assert ToLower(word)[4] == LowerChar(word[4]) != ' '; }
  }

  lemma PrintedIsChallenge(offer: Offer, style: Style)
    requires IsStyle(style)
    ensures IsChallenge(PrintAs(offer, style))
  {
    var word, rest := style.scheme, style.gap[1..] + PrintParts(offer, style);
    assert forall i :: 0 <= i < |word| ==> LowerChar(word[i]) == ToLower(word)[i] != ' ';
    IsChallengeExact(word, rest);
    assert style.gap == " " + style.gap[1..];
    assert PrintAs(offer, style) == word + (" " + rest);
  }

  /** The offer round trip, under both names of the scheme and in every spelling that
      the pattern admits: a printed offer is recognised and parses to that offer. */
  lemma OfferRoundTrip(offer: Offer, style: Style, identify: string -> Option<string>)
    requires IsQuotable(offer.macaroon) && IsQuotable(offer.invoice) && IsStyle(style)
    requires identify(offer.macaroon) == Some(offer.paymentHash)
    ensures Parsed(PrintAs(offer, style), identify) == Some(offer) && IsChallenge(PrintAs(offer, style))
  {
    MatchPrinted(offer, style);
    PrintedIsChallenge(offer, style);
  }

  /** What a captured word, quoted text or run of blanks was. */
  lemma WordSound(s: string, word: string)
    requires AfterWord(s, word).Some?
    ensures ToLower(s[..|word|]) == word && s == s[..|word|] + AfterWord(s, word).value
  {}

  lemma QuotedSound(s: string)
    requires QuotedAt(s).Some?
    ensures var (v, rest) := QuotedAt(s).value; s == "\"" + (v + ("\"" + rest))
  {
    var n := Run(s[1..], c => c != '"');
    var t := s[1..];
    assert t == t[..n] + ([t[n]] + t[n + 1..]);
  }

  lemma NamedSound(s: string, name: string) returns (written: string)
    requires NamedAt(s, name).Some?
    ensures var (v, rest) := NamedAt(s, name).value;
            ToLower(written) == name + "=" && s == PrintNamed(written, v, rest)
  {
    var n := |name + "="|;
    WordSound(s, name + "=");
    written := s[..n];
    QuotedSound(s[n..]);
  }

  lemma BlanksSound(s: string) returns (blanks: string)
    ensures AllBlank(blanks) && s == blanks + SkipBlanks(s)
    ensures s != "" && IsBlank(s[0]) ==> blanks != ""
  {
    blanks := s[..Run(s, IsBlank)];
  }

  lemma CommaSound(s: string) returns (blanks: string)
    requires AfterComma(s).Some?
    ensures AllBlank(blanks) && s == "," + (blanks + AfterComma(s).value)
  {
    blanks := BlanksSound(s[1..]);
    assert s == "," + s[1..];
  }

  lemma SchemeSound(s: string) returns (scheme: string, gap: string)
    requires AfterScheme(s).Some?
    ensures ToLower(scheme) in ["l402", "lsat"] && gap != "" && AllBlank(gap)
            && s == scheme + (gap + AfterScheme(s).value)
  {
    var word := if AfterWord(s, "lsat").Some? then "lsat" else "l402";
    WordSound(s, word);
    scheme := s[..4];
    gap := BlanksSound(s[4..]);
  }

  lemma PartsSound(s: string) returns (style: Style)
    requires PartsAt(s).Some?
    ensures var (macaroon, invoice) := PartsAt(s).value;
      && AllBlank(style.comma)
      && ToLower(style.macaroonLabel) == "macaroon" + "=" && ToLower(style.invoiceLabel) == "invoice" + "="
      && s == PrintParts(Offer(macaroon, "", invoice), style)
  {
    var macaroonLabel := NamedSound(s, "macaroon");
    var after := NamedAt(s, "macaroon").value.1;
    var comma := CommaSound(after);
    var t := AfterComma(after).value;
    var invoiceLabel := NamedSound(t, "invoice");
    style := Style("", "", macaroonLabel, comma, invoiceLabel, NamedAt(t, "invoice").value.1);
  }

  /** The pattern matches nothing but printed offers. */
  lemma MatchSound(s: string) returns (style: Style)
    requires MatchAt(s).Some?
    ensures var (macaroon, invoice) := MatchAt(s).value;
      && ToLower(style.scheme) in ["l402", "lsat"] && style.gap != "" && AllBlank(style.gap) && AllBlank(style.comma)
      && ToLower(style.macaroonLabel) == "macaroon" + "=" && ToLower(style.invoiceLabel) == "invoice" + "="
      && s == PrintAs(Offer(macaroon, "", invoice), style)
  {
    var scheme, gap := SchemeSound(s);
    style := PartsSound(AfterScheme(s).value);
    style := style.(scheme := scheme, gap := gap);
  }

  /** The text from a position on, and that no match begins before it. */
  function From(s: string, k: nat): string
    requires k <= |s|
  {
    if k == 0 then s else From(s[1..], k - 1)
  }

  predicate NoMatchBefore(s: string, k: nat, pattern: string -> Option<Captured>)
    requires k <= |s|
  {
    k == 0 || (pattern(s).None? && NoMatchBefore(s[1..], k - 1, pattern))
  }

  /** The leftmost match counts, wherever it begins. */
  lemma FindsLeftmost(s: string, k: nat)
    requires k <= |s| && NoMatchBefore(s, k, MatchAt) && MatchAt(From(s, k)).Some?
    ensures Find(s) == MatchAt(From(s, k))
  {
    FindByLeftmost(s, k, MatchAt);
  }

  lemma {:induction false} FindByLeftmost(s: string, k: nat, pattern: string -> Option<Captured>)
    requires k <= |s| && NoMatchBefore(s, k, pattern) && pattern(From(s, k)).Some?
    ensures FindBy(s, pattern) == pattern(From(s, k))
  {
    if k > 0 { FindByLeftmost(s[1..], k - 1, pattern); }
  }

  /** A header that the L402 scheme recognises and parses to the offer. */
  predicate Carries(header: string, identify: string -> Option<string>, offer: Offer) {
    IsChallenge(header) && Parsed(header, identify) == Some(offer)
  }

  /** Some header carries the offer exactly when macaroon and invoice are not empty
      and without quotes, and the macaroon decodes to that payment hash. */
  lemma OfferExact(offer: Offer, identify: string -> Option<string>)
    ensures (exists header :: Carries(header, identify, offer))
            <==> && IsQuotable(offer.macaroon) && IsQuotable(offer.invoice)
                 && identify(offer.macaroon) == Some(offer.paymentHash)
  {
    if IsQuotable(offer.macaroon) && IsQuotable(offer.invoice) && identify(offer.macaroon) == Some(offer.paymentHash) {
      UsualIsStyle();
      OfferRoundTrip(offer, USUAL, identify);
      assert Carries(Print(offer), identify, offer);
    }
  }

  lemma UsualIsStyle()
    ensures IsStyle(USUAL)
  {
    assert ToLower("L402") == "l402" && ToLower("macaroon=") == "macaroon=" && ToLower("invoice=") == "invoice=";
  }
}
