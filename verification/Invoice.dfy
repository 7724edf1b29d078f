/** The amount in a BOLT #11 invoice's human-readable part, and the spending
    cap that both payment handlers apply to it. */
module Invoice {
  import opened Wrappers
  import opened Text

  datatype Network = Mainnet | Testnet | Regtest {
    function Tag(): string {
      match this
      case Mainnet => "bc"
      case Testnet => "tb"
      case Regtest => "bcrt"
    }
  }

  /** `Whole` is no letter at all: the amount is in bitcoin. */
  datatype Multiplier = Whole | Milli | Micro | Nano | Pico {
    function Letter(): string {
      match this
      case Whole => ""
      case Milli => "m"
      case Micro => "u"
      case Nano => "n"
      case Pico => "p"
    }

    /** How many pico-bitcoin one unit is worth. */
    function PicoBtc(): nat {
      match this
      case Whole => 1_000_000_000_000
      case Milli => 1_000_000_000
      case Micro => 1_000_000
      case Nano => 1_000
      case Pico => 1
    }
  }

  /** One satoshi is 10^-8 bitcoin, that is 10^4 pico-bitcoin. */
  const PICO_PER_SAT := 10_000

  /** The exact amount an invoice with these digits asks for. */
  function ExactPico(ds: string, m: Multiplier): nat
    requires AllDigits(ds)
  {
    Value(ds) * m.PicoBtc()
  }

  /** The printed invoice: `ln`, network, amount, optional multiplier, separator,
      data. */
  function Print(net: Network, ds: string, m: Multiplier, data: string): string {
    "ln" + (net.Tag() + AmountText(ds, m, data))
  }

  function AmountText(ds: string, m: Multiplier, data: string): string { ds + (m.Letter() + ("1" + data)) }

  /** The separator is the last `1` of the invoice. Only where no multiplier stands
      before it does that matter here. */
  predicate Separated(m: Multiplier, data: string) { m.Whole? ==> '1' !in data }

  /** `(\d+)([munp])1` at the start of a string. */
  function AmountAt(s: string): (r: Option<(string, char)>)
    ensures r.Some? ==> AllDigits(r.value.0)
  {
    var k := Run(s, IsDigit);
    if k > 0 && k + 1 < |s| && s[k] in "munp" && s[k + 1] == '1' then Some((s[..k], s[k])) else None
  }

  function Tagged(s: string, tag: string): (r: Option<(string, char)>)
    ensures r.Some? ==> AllDigits(r.value.0)
  {
    if tag <= s then AmountAt(s[|tag|..]) else None
  }

  /** `(?:bcrt|bc|tb)(\d+)([munp])1`, alternatives tried in order. */
  function HrpAfterLn(t: string): (r: Option<(string, char)>)
    ensures r.Some? ==> AllDigits(r.value.0)
  {
    if Tagged(t, "bcrt").Some? then Tagged(t, "bcrt")
    else if Tagged(t, "bc").Some? then Tagged(t, "bc")
    else Tagged(t, "tb")
  }

  /** `^ln(?:bcrt|bc|tb)(\d+)([munp])1`. */
  function Hrp(s: string): (r: Option<(string, char)>)
    ensures r.Some? ==> AllDigits(r.value.0)
  {
    if !("ln" <= s) then None
    else HrpAfterLn(s[2..])
  }

  function ParseInvoiceAmountSat(invoice: string): int {
    match Hrp(ToLower(invoice))
    case None => 0
    case Some((ds, letter)) => InSat(Value(ds), letter)
  }

  function InSat(amount: nat, letter: char): int {
    if amount > MAX_INT64 then 0
    else if letter == 'm' then Wrap64(amount * 100_000)
    else if letter == 'u' then Wrap64(amount * 100)
    else if letter == 'n' then amount / 10
    else if letter == 'p' then amount / 10_000
    else 0
  }

  /** The handlers' cost check: only a positive amount above the cap is refused. */
  predicate ExceedsCap(amountSat: int, maxCostSat: int) {
    amountSat > 0 && amountSat > maxCostSat
  }

  lemma PrintedAmountAt(ds: string, m: Multiplier, data: string)
    requires ds != "" && AllDigits(ds) && !m.Whole?
    ensures AmountAt(AmountText(ds, m, data)) == Some((ds, m.Letter()[0]))
  {
    var s := AmountText(ds, m, data);
    assert s[|ds|] == m.Letter()[0] && s[|ds| + 1] == '1';
    RunStopsAt(s, IsDigit, |ds|);
    assert s[..|ds|] == ds;
  }

  /** Without a multiplier the pattern does not match: the separator reads as one
      more digit, and no other `1` follows. */
  lemma WholeAmountAt(ds: string, data: string)
    requires ds != "" && AllDigits(ds) && Separated(Whole, data)
    ensures AmountAt(AmountText(ds, Whole, data)) == None
  {
    var s := AmountText(ds, Whole, data);
    var k := Run(s, IsDigit);
    assert s[|ds|] == '1';
    assert k > |ds|;
    assert forall i :: |ds| < i < |s| ==> s[i] == data[i - |ds| - 1];
  }

  lemma TagFound(tag: string, tail: string)
    ensures Tagged(tag + tail, tag) == AmountAt(tail)
  {
    assert (tag + tail)[..|tag|] == tag;
    assert (tag + tail)[|tag|..] == tail;
  }

  lemma OtherTag(s: string, tag: string, i: nat)
    requires i < |s| && i < |tag| && s[i] != tag[i]
    ensures Tagged(s, tag) == None
  {}

  lemma HrpOfLn(t: string)
    ensures Hrp("ln" + t) == HrpAfterLn(t)
  {
    assert ("ln" + t)[2..] == t;
  }

  lemma TaggedHrp(net: Network, ds: string, tail: string)
    requires ds != "" && AllDigits(ds) && ds <= tail
    ensures HrpAfterLn(net.Tag() + tail) == AmountAt(tail)
  {
    var t := net.Tag() + tail;
    TagFound(net.Tag(), tail);
    match net
    case Mainnet =>
      assert t[2] == ds[0];
      OtherTag(t, "bcrt", 2);
      OtherTag(t, "tb", 0);
    case Testnet =>
      OtherTag(t, "bcrt", 0);
      OtherTag(t, "bc", 0);
    case Regtest =>
      if AmountAt(tail).None? {
        assert t[2] == 'r';
        assert AmountAt(t[2..]) == None;
        OtherTag(t, "tb", 0);
      }
  }

  /** The digits and the multiplier of a printed invoice are found again, if it has
      a multiplier; otherwise nothing is found. */
  lemma PrintedHrp(net: Network, ds: string, m: Multiplier, data: string)
    requires ds != "" && AllDigits(ds) && Separated(m, data)
    ensures Hrp(Print(net, ds, m, data)) == if m.Whole? then None else Some((ds, m.Letter()[0]))
  {
    var tail := AmountText(ds, m, data);
    if m.Whole? { WholeAmountAt(ds, data); } else { PrintedAmountAt(ds, m, data); }
    TaggedHrp(net, ds, tail);
    HrpOfLn(net.Tag() + tail);
  }

  function ParsedAmount(n: nat, m: Multiplier): int {
    if n > MAX_INT64 then 0
    else match m
      case Whole => 0
      case Milli => Wrap64(n * 100_000)
      case Micro => Wrap64(n * 100)
      case Nano => n / 10
      case Pico => n / 10_000
  }

  lemma LetterValue(n: nat, m: Multiplier)
    requires !m.Whole?
    ensures InSat(n, m.Letter()[0]) == ParsedAmount(n, m)
  {}

  lemma PrintedAmount(net: Network, ds: string, m: Multiplier, data: string, invoice: string)
    requires ds != "" && AllDigits(ds) && Separated(m, data)
    requires ToLower(invoice) == Print(net, ds, m, data)
    ensures ParseInvoiceAmountSat(invoice) == ParsedAmount(Value(ds), m)
  {
    PrintedHrp(net, ds, m, data);
    if !m.Whole? { LetterValue(Value(ds), m); }
  }

  /** An amount with a multiplier, or nought, whose digits and satoshi value both fit
      a signed 64-bit integer. */
  predicate Fits(ds: string, m: Multiplier) {
    && ds != "" && AllDigits(ds) && Value(ds) <= MAX_INT64 && ExactPico(ds, m) / PICO_PER_SAT <= MAX_INT64
    && (m.Whole? ==> Value(ds) == 0)
  }

  /** Parsing gives the floor of the exact satoshi value precisely when there is a
      multiplier, or nothing to multiply, and both the printed number and that value
      fit a signed 64-bit integer. */
  lemma ParseIsFloor(net: Network, ds: string, m: Multiplier, data: string, invoice: string)
    requires ds != "" && AllDigits(ds) && Separated(m, data)
    requires ToLower(invoice) == Print(net, ds, m, data)
    ensures ParseInvoiceAmountSat(invoice) == ExactPico(ds, m) / PICO_PER_SAT
            <==> Fits(ds, m)
  {
    PrintedAmount(net, ds, m, data, invoice);
    var n := Value(ds);
    assert ExactPico(ds, m) / PICO_PER_SAT ==
           match m
           case Whole => n * 100_000_000
           case Milli => n * 100_000
           case Micro => n * 100
           case Nano => n / 10
           case Pico => n / 10_000;
  }

  /** An amount over the cap that the parser takes for one that passes: it does not
      fit, and what is read instead is not positive or not above the cap. */
  predicate Misread(ds: string, m: Multiplier, maxCostSat: int)
    requires AllDigits(ds)
  {
    !Fits(ds, m) && !ExceedsCap(ParsedAmount(Value(ds), m), maxCostSat)
  }

  /** The cap admits exactly the amounts below one satoshi more than the cap, and
      those it misreads. */
  lemma CapIsExact(net: Network, ds: string, m: Multiplier, data: string, invoice: string, maxCostSat: int)
    requires ds != "" && AllDigits(ds) && Separated(m, data) && maxCostSat >= 0
    requires ToLower(invoice) == Print(net, ds, m, data)
    ensures !ExceedsCap(ParseInvoiceAmountSat(invoice), maxCostSat)
            <==> (Fits(ds, m) && ExactPico(ds, m) < (maxCostSat + 1) * PICO_PER_SAT) || Misread(ds, m, maxCostSat)
  {
    ParseIsFloor(net, ds, m, data, invoice);
    PrintedAmount(net, ds, m, data, invoice);
  }

  /** So an amount in whole bitcoin passes under every cap. */
  lemma WholeBitcoinReadsAsZero(net: Network, ds: string, data: string, invoice: string)
    requires ds != "" && AllDigits(ds) && '1' !in data
    requires ToLower(invoice) == Print(net, ds, Whole, data)
    ensures ParseInvoiceAmountSat(invoice) == 0
  {
    PrintedAmount(net, ds, Whole, data, invoice);
  }

  predicate IsTag(tag: string) { forall i :: 0 <= i < |tag| ==> 'a' <= tag[i] <= 'z' }

  /** Only the three tags are recognised: with any other one, signet's `tbs`
      included, no amount is found, so the invoice reads as having none. */
  lemma OtherNetworksReadAsZero(tag: string, ds: string, m: Multiplier, data: string, invoice: string)
    requires IsTag(tag) && tag != "bc" && tag != "tb" && tag != "bcrt"
    requires ds != "" && AllDigits(ds)
    requires ToLower(invoice) == "ln" + (tag + AmountText(ds, m, data))
    ensures ParseInvoiceAmountSat(invoice) == 0
  {
    var tail := AmountText(ds, m, data);
    NotTagged(tag, "bcrt", tail);
    NotTagged(tag, "bc", tail);
    NotTagged(tag, "tb", tail);
    HrpOfLn(tag + tail);
  }

  lemma NotTagged(tag: string, known: string, tail: string)
    requires IsTag(tag) && IsTag(known) && tag != known
    requires tail != "" && IsDigit(tail[0])
    ensures Tagged(tag + tail, known) == None
  {
    var s := tag + tail;
    if |known| > |tag| {
      assert s[|tag|] == tail[0] != known[|tag|];
    } else if |known| == |tag| {
      assert s[..|known|] == tag;
    } else {
      assert s[|known|..][0] == tag[|known|];
    }
  }

  /** The satoshi value alone fitting int64 is not enough: this invoice asks for
      10^15 satoshi, but its number of pico-bitcoin does not fit, so it reads as
      having no amount. */
  lemma LongPicoAmountReadsAsZero()
    ensures var ds := "1" + Zeros(19);
            && ExactPico(ds, Pico) / PICO_PER_SAT == 1_000_000_000_000_000
            && ParseInvoiceAmountSat(Print(Mainnet, ds, Pico, "x")) == 0
  {
    var ds := "1" + Zeros(19);
    ValueOfPowerOfTen(19);
    assert Pow10(7) == 10_000_000;
    assert Pow10(13) == 10_000_000_000_000;
    assert Pow10(19) == 10_000_000_000_000_000_000;
    var invoice := Print(Mainnet, ds, Pico, "x");
    assert ToLower(invoice) == invoice;
    PrintedAmount(Mainnet, ds, Pico, "x", invoice);
  }

  function Zeros(k: nat): string { seq(k, _ => '0') }

  function Pow10(k: nat): nat { if k == 0 then 1 else 10 * Pow10(k - 1) }

  lemma {:induction false} ValueOfPowerOfTen(k: nat)
    ensures Value("1" + Zeros(k)) == Pow10(k)
  {
    var ds := "1" + Zeros(k);
    if k == 0 {
      assert ds == "1" && ds[..0] == "";
    } else {
      ValueOfPowerOfTen(k - 1);
      assert ds[..|ds| - 1] == "1" + Zeros(k - 1);
    }
  }
}
