/** The payment protocol over the headers of responses: what its schemes detect and
    parse is what the two header parsers make of the WWW-Authenticate values. */
module ProtocolOnHeaders {
  import opened Wrappers
  import opened Protocol
  import opened ProtocolSafety
  import opened ProtocolScenarios
  import opened ProtocolEvents
  import Budget
  import ChargeRequests
  import Invoice
  import L402Header
  import PaymentHeader
  import Text

  type MacaroonReader = string -> Option<string>

  type RequestReader = string -> Option<PaymentHeader.ChargeRequest>

  /** The L402 scheme looks at the first value. */
  function OfferIn(authenticate: seq<string>, identify: MacaroonReader): Reading<L402Offer> {
    if authenticate == [] || !L402Header.IsChallenge(authenticate[0]) then NoChallenge
    else
      match L402Header.Parsed(authenticate[0], identify)
      case None => BadChallenge
      case Some(offer) => GoodChallenge(offer)
  }

  /** The Payment scheme looks at the first value that is one of its own. */
  function ChargeIn(authenticate: seq<string>, decode: RequestReader): Reading<PaymentHeader.Challenge> {
    match PaymentHeader.FirstPayment(authenticate)
    case None => NoChallenge
    case Some(header) =>
      match PaymentHeader.Parsed(header, decode)
      case Err(_) => BadChallenge
      case Ok(charge) => GoodChallenge(charge)
  }

  ghost predicate OnHeaders(cfg: Config, identify: MacaroonReader, decode: RequestReader) {
    forall authenticate ::
      && cfg.l402(authenticate) == OfferIn(authenticate, identify)
      && cfg.payment(authenticate) == ChargeIn(authenticate, decode)
  }

  // ----- What can be received

  /** Where one scheme alone recognises the values, it is the one detected. */
  lemma {:induction false} OnlyOneDetected(cfg: Config, schemes: seq<Scheme>, r: Response, c: Challenge)
    requires r.is402 && c.Scheme() in schemes && Recognised(cfg, c.Scheme(), r.authenticate) == Some(c)
    requires forall scheme :: scheme != c.Scheme() ==> Recognised(cfg, scheme, r.authenticate).None?
    ensures Detect(cfg, schemes, r) == Some(c)
  {
    if schemes[0] != c.Scheme() {
      OnlyOneDetected(cfg, schemes[1..], r, c);
    }
  }

  lemma OfferIsNoPayment(offer: L402Offer)
    ensures !PaymentHeader.HasPaymentScheme(L402Header.Print(offer))
  {
    var h := L402Header.Print(offer);
    assert h[0] == 'L' && h[|h| - 1] == '"';
    Text.TrimKeeps(h);
    assert Text.ToLower(h)[0] == 'l';
  }

  lemma ChargeIsNoOffer(ps: seq<PaymentHeader.Param>)
    ensures !L402Header.IsChallenge(PaymentHeader.PrintHeader(ps))
  {
    var h := PaymentHeader.PrintHeader(ps);
    assert h[0] == 'P' && Text.ToLower(h)[0] == 'p';
  }

  /** The L402 offers that a response can carry. */
  predicate IsOffer(offer: L402Offer, identify: MacaroonReader) {
    && L402Header.IsQuotable(offer.macaroon) && L402Header.IsQuotable(offer.invoice)
    && identify(offer.macaroon) == Some(offer.paymentHash)
  }

  lemma OfferPrinted(identify: MacaroonReader, decode: RequestReader, offer: L402Offer)
    requires IsOffer(offer, identify)
    ensures var authenticate := [L402Header.Print(offer)];
            OfferIn(authenticate, identify) == GoodChallenge(offer) && ChargeIn(authenticate, decode) == NoChallenge
  {
    var authenticate := [L402Header.Print(offer)];
    L402Header.UsualIsStyle();
    L402Header.OfferRoundTrip(offer, L402Header.USUAL, identify);
    OfferIsNoPayment(offer);
    assert PaymentHeader.FirstPayment(authenticate[1..]) == None;
  }

  /** The L402 scheme reads an offer in every spelling, whatever values follow it. */
  lemma StyledOfferIn(identify: MacaroonReader, offer: L402Offer, style: L402Header.Style, more: seq<string>)
    requires IsOffer(offer, identify) && L402Header.IsStyle(style)
    ensures OfferIn([L402Header.PrintAs(offer, style)] + more, identify) == GoodChallenge(offer)
  {
    L402Header.OfferRoundTrip(offer, style, identify);
  }

  /** It looks at no value but the first. */
  lemma OnlyFirstValue(identify: MacaroonReader, header: string, more: seq<string>)
    ensures OfferIn([header] + more, identify) == OfferIn([header], identify) && OfferIn([], identify) == NoChallenge
    ensures OfferIn([header], identify) == NoChallenge <==> !L402Header.IsChallenge(header)
  {}

  lemma OfferCarried(identify: MacaroonReader, authenticate: seq<string>, offer: L402Offer)
    requires OfferIn(authenticate, identify) == GoodChallenge(offer)
    ensures IsOffer(offer, identify)
  {
    assert L402Header.Carries(authenticate[0], identify, offer);
    L402Header.OfferExact(offer, identify);
  }

  lemma OfferReceivable(cfg: Config, identify: MacaroonReader, decode: RequestReader, offer: L402Offer)
    requires OnHeaders(cfg, identify, decode)
    ensures Receivable(cfg, OfL402(offer)) <==> L402 in cfg.schemes && IsOffer(offer, identify)
  {
    if L402 in cfg.schemes && IsOffer(offer, identify) {
      OfferIsReceivable(cfg, identify, decode, offer);
    } else if r :| Detect(cfg, cfg.schemes, r) == Some(OfL402(offer)) {
      assert cfg.l402(r.authenticate) == OfferIn(r.authenticate, identify);
      OfferCarried(identify, r.authenticate, offer);
    }
  }

  lemma OfferIsReceivable(cfg: Config, identify: MacaroonReader, decode: RequestReader, offer: L402Offer)
    requires OnHeaders(cfg, identify, decode) && L402 in cfg.schemes && IsOffer(offer, identify)
    ensures Receivable(cfg, OfL402(offer))
  {
    OfferPrinted(identify, decode, offer);
    var r := Response(true, [L402Header.Print(offer)]);
    assert cfg.l402(r.authenticate) == OfferIn(r.authenticate, identify);
    assert cfg.payment(r.authenticate) == ChargeIn(r.authenticate, decode);
    OnlyOneDetected(cfg, cfg.schemes, r, OfL402(offer));
  }

  /** The Payment challenges that a response can carry, if their values are plain. */
  predicate IsCharge(charge: PaymentHeader.Challenge, decode: RequestReader) {
    PaymentHeader.Complete(charge) && charge.request.Some? && decode(charge.rawRequest) == charge.request
  }

  lemma ChargePrinted(identify: MacaroonReader, decode: RequestReader, charge: PaymentHeader.Challenge)
    requires PaymentHeader.Plain(charge) && IsCharge(charge, decode)
    ensures var authenticate := [PaymentHeader.PrintHeader(PaymentHeader.ChallengeParams(charge))];
            ChargeIn(authenticate, decode) == GoodChallenge(charge) && OfferIn(authenticate, identify) == NoChallenge
  {
    PaymentHeader.PrintedCarries(charge, decode);
    ChargeIsNoOffer(PaymentHeader.ChallengeParams(charge));
  }

  lemma ChargeCarried(decode: RequestReader, authenticate: seq<string>, charge: PaymentHeader.Challenge)
    requires ChargeIn(authenticate, decode) == GoodChallenge(charge)
    ensures IsCharge(charge, decode)
  {
    PaymentHeader.ParsedIsComplete(PaymentHeader.FirstPayment(authenticate).value, decode, charge);
  }

  lemma ChargeReceivable(cfg: Config, identify: MacaroonReader, decode: RequestReader, charge: PaymentHeader.Challenge)
    requires OnHeaders(cfg, identify, decode)
    ensures Receivable(cfg, OfPayment(charge)) ==> Payment in cfg.schemes && IsCharge(charge, decode)
    ensures PaymentHeader.Plain(charge) && Payment in cfg.schemes && IsCharge(charge, decode) ==>
              Receivable(cfg, OfPayment(charge))
  {
    if PaymentHeader.Plain(charge) && Payment in cfg.schemes && IsCharge(charge, decode) {
      ChargeIsReceivable(cfg, identify, decode, charge);
    } else if r :| Detect(cfg, cfg.schemes, r) == Some(OfPayment(charge)) {
      assert cfg.payment(r.authenticate) == ChargeIn(r.authenticate, decode);
      ChargeCarried(decode, r.authenticate, charge);
    }
  }

  lemma ChargeIsReceivable(cfg: Config, identify: MacaroonReader, decode: RequestReader,
                           charge: PaymentHeader.Challenge)
    requires OnHeaders(cfg, identify, decode) && Payment in cfg.schemes
    requires PaymentHeader.Plain(charge) && IsCharge(charge, decode)
    ensures Receivable(cfg, OfPayment(charge))
  {
    ChargePrinted(identify, decode, charge);
    var r := Response(true, [PaymentHeader.PrintHeader(PaymentHeader.ChallengeParams(charge))]);
    assert cfg.l402(r.authenticate) == OfferIn(r.authenticate, identify);
    assert cfg.payment(r.authenticate) == ChargeIn(r.authenticate, decode);
    OnlyOneDetected(cfg, cfg.schemes, r, OfPayment(charge));
  }

  // ----- What is paid

  /** The L402 offers that are paid in some run. */
  lemma OffersPaid(cfg: Config, identify: MacaroonReader, decode: RequestReader, d: string, offer: L402Offer)
    requires OnHeaders(cfg, identify, decode)
    ensures MayPay(cfg, d, OfL402(offer))
            <==> && L402 in cfg.schemes && cfg.dir(d).Some? && IsOffer(offer, identify)
                 && !Invoice.ExceedsCap(Invoice.ParseInvoiceAmountSat(offer.invoice), cfg.maxCostSat)
  {
    MayPayExact(cfg, d, OfL402(offer));
    OfferReceivable(cfg, identify, decode, offer);
  }

  /** The Payment challenges with plain values that are paid in some run. */
  lemma ChargesPaid(cfg: Config, identify: MacaroonReader, decode: RequestReader, d: string,
                    charge: PaymentHeader.Challenge)
    requires OnHeaders(cfg, identify, decode) && PaymentHeader.Plain(charge)
    ensures MayPay(cfg, d, OfPayment(charge))
            <==> && Payment in cfg.schemes && IsCharge(charge, decode)
                 && Budget.Dated(charge.expires, cfg.timestamp)
                 && Budget.PaymentVerdict(charge, Budget.NoExpiry, cfg.maxCostSat).Payable?
  {
    MayPayExact(cfg, d, OfPayment(charge));
    ChargeReceivable(cfg, identify, decode, charge);
  }

  /** An invoice for any number of whole bitcoin is paid under every cap. */
  lemma WholeBitcoinIsPaid(cfg: Config, identify: MacaroonReader, decode: RequestReader, d: string, offer: L402Offer,
                           net: Invoice.Network, ds: string, data: string)
    requires OnHeaders(cfg, identify, decode) && L402 in cfg.schemes && cfg.dir(d).Some? && IsOffer(offer, identify)
    requires ds != "" && Text.AllDigits(ds) && '1' !in data
    requires Text.ToLower(offer.invoice) == Invoice.Print(net, ds, Invoice.Whole, data)
    ensures MayPay(cfg, d, OfL402(offer))
  {
    Invoice.WholeBitcoinReadsAsZero(net, ds, data, offer.invoice);
    OffersPaid(cfg, identify, decode, d, offer);
  }

  /** For one, 20 bitcoin. */
  lemma TwentyBitcoinIsPaid(cfg: Config, identify: MacaroonReader, decode: RequestReader, d: string, macaroon: string)
    requires OnHeaders(cfg, identify, decode) && L402 in cfg.schemes && cfg.dir(d).Some?
    requires L402Header.IsQuotable(macaroon) && identify(macaroon).Some?
    ensures MayPay(cfg, d, OfL402(L402Header.Offer(macaroon, identify(macaroon).value, "lnbc201x")))
    ensures Invoice.ExactPico("20", Invoice.Whole) == 2_000_000_000 * Invoice.PICO_PER_SAT
  {
    assert Text.Value("20") == 20 by { assert "20"[..1] == "2" && "2"[..0] == ""; }
    assert Text.ToLower("lnbc201x") == "lnbc201x" == Invoice.Print(Invoice.Mainnet, "20", Invoice.Whole, "x");
    var offer := L402Header.Offer(macaroon, identify(macaroon).value, "lnbc201x");
    WholeBitcoinIsPaid(cfg, identify, decode, d, offer, Invoice.Mainnet, "20", "x");
  }

  /** The challenge of a server for this amount and invoice. */
  function ChargeFor(amount: string, invoice: string): PaymentHeader.Challenge {
    var details := PaymentHeader.LightningDetails(invoice, "");
    PaymentHeader.Challenge(
      "i", "r", Budget.METHOD_LIGHTNING, Budget.INTENT_CHARGE,
      ChargeRequests.PrintRequest(amount, Budget.CURRENCY_SAT, details),
      Some(PaymentHeader.ChargeRequest(amount, Budget.CURRENCY_SAT, Some(details))), "", "", "", "")
  }

  lemma ChargeForIsCharge(decode: RequestReader, amount: string, invoice: string)
    requires ChargeRequests.ReadsPrinted(decode)
    ensures PaymentHeader.Plain(ChargeFor(amount, invoice)) && IsCharge(ChargeFor(amount, invoice), decode)
  {
    ChargeRequests.PrintedIsPlain(amount, Budget.CURRENCY_SAT, PaymentHeader.LightningDetails(invoice, ""));
  }

  lemma OneIsOne()
    ensures Text.AllDigits("1") && Text.Value("1") == 1 && Text.ParseInt64("1") == Some(1)
  {
    assert "1"[..0] == "";
  }

  lemma UnderdeclaredPasses(invoice: string, maxCostSat: int)
    requires invoice != "" && maxCostSat >= 1
    ensures Budget.PaymentVerdict(ChargeFor("1", invoice), Budget.NoExpiry, maxCostSat).Payable?
  {
    OneIsOne();
  }

  /** Declared as one satoshi, every invoice is paid, whatever it asks for. */
  lemma UnderdeclaredIsPaid(cfg: Config, identify: MacaroonReader, decode: RequestReader, d: string, invoice: string)
    requires OnHeaders(cfg, identify, decode) && ChargeRequests.ReadsPrinted(decode)
    requires Payment in cfg.schemes && cfg.maxCostSat >= 1 && invoice != ""
    ensures MayPay(cfg, d, OfPayment(ChargeFor("1", invoice)))
  {
    UnderdeclaredPasses(invoice, cfg.maxCostSat);
    ChargeForIsCharge(decode, "1", invoice);
    ChargesPaid(cfg, identify, decode, d, ChargeFor("1", invoice));
  }

  // ----- Whose credential, whose event

  /** The token of some offer can be kept, so only directories matter. */
  lemma AlwaysOwnOnHeaders(cfg: Config, identify: MacaroonReader, decode: RequestReader, domains: iset<string>,
                           macaroon: string)
    requires OnHeaders(cfg, identify, decode) && L402Header.IsQuotable(macaroon) && identify(macaroon).Some?
    ensures AlwaysOwn(cfg, domains) <==> L402 !in cfg.schemes || Separate(cfg, domains)
  {
    AlwaysOwnExact(cfg, domains);
    var offer := L402Header.Offer(macaroon, identify(macaroon).value, "x");
    if L402 in cfg.schemes {
      OfferReceivable(cfg, identify, decode, offer);
      ReceivableIsLegible(cfg, OfL402(offer));
    }
  }

  lemma ReceivableIsLegible(cfg: Config, c: Challenge)
    requires Receivable(cfg, c)
    ensures Legible(cfg, c)
  {
    var r :| Detect(cfg, cfg.schemes, r) == Some(c);
    assert Recognised(cfg, c.Scheme(), r.authenticate) == Some(c);
  }

  /** Events of payments to the domain can be recorded. */
  predicate CanRecord(cfg: Config, d: string) {
    cfg.logging && (Chargeable(cfg, d, L402) || Chargeable(cfg, d, Payment))
  }

  lemma NoAmountReads()
    ensures Invoice.ParseInvoiceAmountSat("x") == 0
  {
    assert !("ln" <= Text.ToLower("x"));
  }

  lemma OfferSells(cfg: Config, identify: MacaroonReader, decode: RequestReader, d: string, macaroon: string,
                   invoice: string)
    requires OnHeaders(cfg, identify, decode) && Chargeable(cfg, d, L402)
    requires L402Header.IsQuotable(macaroon) && identify(macaroon).Some?
    requires L402Header.IsQuotable(invoice) && Invoice.ParseInvoiceAmountSat(invoice) == 0
    ensures Buyable(cfg, d, L402) && Billable(cfg, d, L402)
  {
    var offer := L402Header.Offer(macaroon, identify(macaroon).value, invoice);
    OfferReceivable(cfg, identify, decode, offer);
    assert PayableAt(cfg, d, OfL402(offer)) && HashMatches(cfg, OfL402(offer), "");
  }

  lemma ChargeSells(cfg: Config, identify: MacaroonReader, decode: RequestReader, d: string, invoice: string)
    requires OnHeaders(cfg, identify, decode) && ChargeRequests.ReadsPrinted(decode) && Chargeable(cfg, d, Payment)
    requires invoice != "" && Invoice.ParseInvoiceAmountSat(invoice) == 0
    ensures Buyable(cfg, d, Payment) && Billable(cfg, d, Payment)
  {
    var charge := ChargeFor("", invoice);
    ChargeForIsCharge(decode, "", invoice);
    ChargeReceivable(cfg, identify, decode, charge);
    assert PayableAt(cfg, d, OfPayment(charge)) && HashMatches(cfg, OfPayment(charge), "");
  }

  /** Some challenge of each configured scheme can be bought. */
  lemma SchemesSell(cfg: Config, identify: MacaroonReader, decode: RequestReader, macaroon: string, d: string,
                    scheme: Scheme)
    requires OnHeaders(cfg, identify, decode) && ChargeRequests.ReadsPrinted(decode)
    requires L402Header.IsQuotable(macaroon) && identify(macaroon).Some? && Chargeable(cfg, d, scheme)
    ensures Buyable(cfg, d, scheme) && Billable(cfg, d, scheme)
  {
    NoAmountReads();
    if scheme == L402 {
      OfferSells(cfg, identify, decode, d, macaroon, "x");
    } else {
      ChargeSells(cfg, identify, decode, d, "x");
    }
  }

  /** Recorded events are enriched by their own requests, in every run among some
      domains, exactly when at most one of them can have its events recorded. */
  lemma EventIdentityOnHeaders(cfg: Config, identify: MacaroonReader, decode: RequestReader, domains: iset<string>,
                               macaroon: string)
    requires OnHeaders(cfg, identify, decode) && ChargeRequests.ReadsPrinted(decode)
    requires L402Header.IsQuotable(macaroon) && identify(macaroon).Some?
    ensures AlwaysEnrichesOwn(cfg, domains)
            <==> forall d, e :: d in domains && e in domains && CanRecord(cfg, d) && CanRecord(cfg, e) ==> d == e
  {
    EventIdentityExact(cfg, domains);
    if d, e :| d in domains && e in domains && CanRecord(cfg, d) && CanRecord(cfg, e) && d != e {
      var scheme := if Payment in cfg.schemes then Payment else L402;
      SchemesSell(cfg, identify, decode, macaroon, d, scheme);
      SchemesSell(cfg, identify, decode, macaroon, e, scheme);
      assert Pair(cfg, domains, d, e, scheme);
    } else if MixesEvents(cfg, domains) {
      var d, e, scheme :| Pair(cfg, domains, d, e, scheme);
      assert CanRecord(cfg, d) && CanRecord(cfg, e);
    }
  }
}
