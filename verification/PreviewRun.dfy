/** The dry-run preview of a whole response against what the transport does with
    that response. */
module PreviewRun {
  import opened Wrappers
  import opened Protocol
  import Budget
  import Invoice
  import Text

  /** `orderSchemes`. */
  function OrderSchemes(preferPayment: bool): seq<Scheme> {
    if preferPayment then [Payment, L402] else [L402, Payment]
  }

  /** A challenge of the scheme is there, whether or not its parser can read it. */
  predicate Offers(cfg: Config, r: Response, scheme: Scheme) {
    r.is402 && Recognised(cfg, scheme, r.authenticate).Some?
  }

  /** The preview looks for an L402 challenge first, whatever is preferred. */
  function ProbeOf(cfg: Config, r: Response): Budget.Probe {
    if Offers(cfg, r, L402) then
      match cfg.l402(r.authenticate)
      case GoodChallenge(offer) => Budget.L402Probe(Some(offer.invoice))
      case _ => Budget.L402Probe(None)
    else if Offers(cfg, r, Payment) then
      match cfg.payment(r.authenticate)
      case GoodChallenge(charge) => Budget.PaymentProbe(Some(charge))
      case _ => Budget.PaymentProbe(None)
    else Budget.Free
  }

  predicate ProbesScheme(p: Budget.Probe, c: Option<Challenge>) {
    match c
    case None => p.Free?
    case Some(challenge) => if challenge.Scheme() == L402 then p.L402Probe? else p.PaymentProbe?
  }

  lemma DetectFirst(cfg: Config, preferPayment: bool, r: Response)
    ensures var first, second := OrderSchemes(preferPayment)[0], OrderSchemes(preferPayment)[1];
            Detect(cfg, OrderSchemes(preferPayment), r)
            == if Offers(cfg, r, first) then Recognised(cfg, first, r.authenticate)
               else if Offers(cfg, r, second) then Recognised(cfg, second, r.authenticate)
               else None
  {
    var schemes := OrderSchemes(preferPayment);
    assert Detect(cfg, schemes[1..][1..], r) == None;
  }

  /** Preview and transport pick the same scheme unless Payment is preferred and
      the response carries challenges of both. */
  lemma PreviewScheme(cfg: Config, preferPayment: bool, r: Response)
    ensures ProbesScheme(ProbeOf(cfg, r), Detect(cfg, OrderSchemes(preferPayment), r))
            <==> !(preferPayment && Offers(cfg, r, L402) && Offers(cfg, r, Payment))
  {
    DetectFirst(cfg, preferPayment, r);
  }

  /** Everything but the cost speaks for paying the challenge. */
  predicate OnlyCostIsOpen(cfg: Config, c: Challenge, now: int) {
    match c
    case OfL402(_) => true
    case OfPayment(charge) =>
      && Budget.PassesChecks(charge, Budget.ExpiryAt(charge.expires, cfg.timestamp, now))
      && var a := charge.request.value.amount;
         a == "" || (Text.ParseInt64(a).Some? && Text.ParseInt64(a).value >= 0)
    case Illegible(_) => false
  }

  /** For a cap that is not negative and the scheme the transport picks too, the
      preview says "within budget" exactly when the handler goes on to pay. */
  lemma PreviewDecidesPayment(cfg: Config, preferPayment: bool, r: Response, c: Challenge, now: int)
    requires cfg.schemes == OrderSchemes(preferPayment) && cfg.maxCostSat >= 0
    requires Detect(cfg, cfg.schemes, r) == Some(c) && OnlyCostIsOpen(cfg, c, now)
    requires !(preferPayment && Offers(cfg, r, L402) && Offers(cfg, r, Payment))
    ensures Budget.WithinBudget(ProbeOf(cfg, r), cfg.maxCostSat) <==> Accepts(cfg, c, now)
  {
    DetectFirst(cfg, preferPayment, r);
    match c
    case OfL402(offer) => Budget.L402PreviewAgrees(offer.invoice, cfg.maxCostSat);
    case OfPayment(charge) =>
      Budget.PreviewIsTheHandlersDecision(charge, Budget.ExpiryAt(charge.expires, cfg.timestamp, now), cfg.maxCostSat);
  }

  // ----- The preview as code

  datatype Preview = Preview(
    requiresL402: bool, requiresPayment: bool, scheme: string, invoiceAmountSat: int, withinBudget: bool)

  /** The preview announces a payment whenever the transport would find a challenge,
      and where it names the scheme that the transport picks, and only the cost is
      open, "within budget" is the handler's decision. */
  method DryRun(cfg: Config, preferPayment: bool, r: Response) returns (result: Preview)
    requires cfg.schemes == OrderSchemes(preferPayment)
    ensures result.requiresPayment <==> Detect(cfg, cfg.schemes, r).Some?
    ensures result.requiresL402 <==> Offers(cfg, r, L402)
    ensures result.scheme == if Offers(cfg, r, L402) then "L402" else if Offers(cfg, r, Payment) then "Payment" else ""
    ensures result.withinBudget ==> result.requiresPayment && result.invoiceAmountSat <= cfg.maxCostSat
    ensures forall c, now ::
              && cfg.maxCostSat >= 0 && Detect(cfg, cfg.schemes, r) == Some(c) && OnlyCostIsOpen(cfg, c, now)
              && !(preferPayment && Offers(cfg, r, L402) && Offers(cfg, r, Payment))
              ==> (result.withinBudget <==> Accepts(cfg, c, now))
  {
    result := Preview(false, false, "", 0, false);
    if Offers(cfg, r, L402) {
      result := result.(requiresL402 := true, requiresPayment := true, scheme := "L402");
      var challenge := cfg.l402(r.authenticate);
      if challenge.GoodChallenge? {
        var amount := Invoice.ParseInvoiceAmountSat(challenge.value.invoice);
        result := result.(invoiceAmountSat := amount, withinBudget := amount <= cfg.maxCostSat);
      }
    } else if Offers(cfg, r, Payment) {
      result := result.(requiresPayment := true, scheme := "Payment");
      var challenge := cfg.payment(r.authenticate);
      var amount := Budget.PreviewAmount(if challenge.GoodChallenge? then Some(challenge.value) else None);
      result := result.(invoiceAmountSat := amount, withinBudget := amount <= cfg.maxCostSat);
    }
    DetectFirst(cfg, preferPayment, r);
    assert result.withinBudget <==> Budget.WithinBudget(ProbeOf(cfg, r), cfg.maxCostSat);
    forall c, now | && cfg.maxCostSat >= 0 && Detect(cfg, cfg.schemes, r) == Some(c) && OnlyCostIsOpen(cfg, c, now)
                    && !(preferPayment && Offers(cfg, r, L402) && Offers(cfg, r, Payment))
      ensures result.withinBudget <==> Accepts(cfg, c, now)
    {
      PreviewDecidesPayment(cfg, preferPayment, r, c, now);
    }
  }
}
