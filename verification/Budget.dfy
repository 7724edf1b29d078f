/** Which challenges a handler pays, and the dry-run preview of that decision. */
module Budget {
  import opened Wrappers
  import opened Text
  import Invoice
  import PaymentHeader

  /** The expiry timestamp compared with the clock. */
  datatype Expiry = NoExpiry | Malformed | Passed | Ahead

  /** What the handler finds of an `expires` parameter at a moment. */
  function ExpiryAt(expires: string, timestamp: string -> Option<int>, now: int): Expiry {
    if expires == "" then NoExpiry
    else match timestamp(expires)
      case None => Malformed
      case Some(at) => if now > at then Passed else Ahead
  }

  /** There is none, or it can be read. */
  predicate Dated(expires: string, timestamp: string -> Option<int>) {
    expires == "" || timestamp(expires).Some?
  }

  datatype Verdict =
    | Payable(amountSat: int)
    | TooExpensive(amountSat: int)
    | Unacceptable

  const METHOD_LIGHTNING := "lightning"
  const INTENT_CHARGE := "charge"
  const CURRENCY_SAT := "sat"

  /** The L402 handler's cost check. */
  function L402Verdict(invoice: string, maxCostSat: int): Verdict {
    var amount := Invoice.ParseInvoiceAmountSat(invoice);
    if Invoice.ExceedsCap(amount, maxCostSat) then TooExpensive(amount) else Payable(amount)
  }

  /** The checks before the amount is looked at. */
  predicate PassesChecks(c: PaymentHeader.Challenge, expiry: Expiry) {
    && c.method_ == METHOD_LIGHTNING
    && c.intent == INTENT_CHARGE
    && c.request.Some?
    && (c.request.value.currency == "" || c.request.value.currency == CURRENCY_SAT)
    && c.request.value.methodDetails.Some?
    && c.request.value.methodDetails.value.invoice != ""
    && (expiry == NoExpiry || expiry == Ahead)
  }

  /** The amount the Payment handler compares with the cap: the declared one, or
      the invoice's when none or zero is declared. */
  function ChargeAmount(c: PaymentHeader.Challenge): Option<int>
    requires c.request.Some? && c.request.value.methodDetails.Some?
  {
    var declared := if c.request.value.amount == "" then Some(0) else ParseInt64(c.request.value.amount);
    match declared
    case None => None
    case Some(n) =>
      Some(if n == 0 then Invoice.ParseInvoiceAmountSat(c.request.value.methodDetails.value.invoice) else n)
  }

  function PaymentVerdict(c: PaymentHeader.Challenge, expiry: Expiry, maxCostSat: int): Verdict {
    if !PassesChecks(c, expiry) then Unacceptable
    else match ChargeAmount(c)
      case None => Unacceptable
      case Some(n) => if Invoice.ExceedsCap(n, maxCostSat) then TooExpensive(n) else Payable(n)
  }

  /** The Payment handler pays exactly a Lightning charge in satoshis, or in no named
      currency, with an invoice, not expired, whose amount is a number that is not both
      positive and above the cap: the declared one, or the invoice's if none or zero is
      declared. */
  lemma PayableExact(c: PaymentHeader.Challenge, expiry: Expiry, maxCostSat: int)
    ensures PaymentVerdict(c, expiry, maxCostSat).Payable?
            <==> && c.method_ == "lightning" && c.intent == "charge" && c.request.Some?
                 && (c.request.value.currency == "" || c.request.value.currency == "sat")
                 && c.request.value.methodDetails.Some? && c.request.value.methodDetails.value.invoice != ""
                 && expiry != Malformed && expiry != Passed
                 && var declared := c.request.value.amount;
                    var amount := if DeclaresNothing(declared)
                                  then Some(Invoice.ParseInvoiceAmountSat(c.request.value.methodDetails.value.invoice))
                                  else ParseInt64(declared);
                    amount.Some? && (amount.value <= 0 || amount.value <= maxCostSat)
  {}

  /** The Payment handler's chain of early returns, in the order of the code. */
  method ValidateCharge(c: PaymentHeader.Challenge, expiry: Expiry, maxCostSat: int) returns (v: Verdict)
    ensures v == PaymentVerdict(c, expiry, maxCostSat)
  {
    if c.method_ != METHOD_LIGHTNING {
      return Unacceptable;
    }
    if c.intent != INTENT_CHARGE {
      return Unacceptable;
    }
    if c.request.Some? && c.request.value.currency != "" && c.request.value.currency != CURRENCY_SAT {
      return Unacceptable;
    }
    if c.request.None? || c.request.value.methodDetails.None? {
      return Unacceptable;
    }
    var details := c.request.value.methodDetails.value;
    if details.invoice == "" {
      return Unacceptable;
    }
    if expiry == Malformed {
      return Unacceptable;
    }
    if expiry == Passed {
      return Unacceptable;
    }
    var invoiceAmountSat := 0;
    if c.request.value.amount != "" {
      var parsed := ParseInt64(c.request.value.amount);
      if parsed.None? {
        return Unacceptable;
      }
      invoiceAmountSat := parsed.value;
    }
    if invoiceAmountSat == 0 {
      invoiceAmountSat := Invoice.ParseInvoiceAmountSat(details.invoice);
    }
    if invoiceAmountSat > 0 && invoiceAmountSat > maxCostSat {
      return TooExpensive(invoiceAmountSat);
    }
    return Payable(invoiceAmountSat);
  }

  /** The amount held against the cap is the invoice's own for exactly the
      challenges that declare none, declare zero or declare that same amount. */
  lemma ComparedAmount(c: PaymentHeader.Challenge)
    requires c.request.Some? && c.request.value.methodDetails.Some?
    ensures var invoiceSat := Invoice.ParseInvoiceAmountSat(c.request.value.methodDetails.value.invoice);
            var declared := c.request.value.amount;
            ChargeAmount(c) == Some(invoiceSat)
            <==> declared == "" || ParseInt64(declared) == Some(0) || ParseInt64(declared) == Some(invoiceSat)
  {}

  /** A declared amount that stands in for the invoice's and passes the cap. */
  predicate Underdeclares(declared: string, maxCostSat: int) {
    && declared != "" && ParseInt64(declared).Some? && ParseInt64(declared).value != 0
    && !Invoice.ExceedsCap(ParseInt64(declared).value, maxCostSat)
  }

  /** Where the other checks pass, an invoice over the cap is paid exactly when the
      declared amount stands in for it and passes. */
  lemma OverspendExact(c: PaymentHeader.Challenge, expiry: Expiry, maxCostSat: int)
    requires PassesChecks(c, expiry)
    ensures var invoiceSat := Invoice.ParseInvoiceAmountSat(c.request.value.methodDetails.value.invoice);
            PaymentVerdict(c, expiry, maxCostSat).Payable? && Invoice.ExceedsCap(invoiceSat, maxCostSat)
            <==> Invoice.ExceedsCap(invoiceSat, maxCostSat) && Underdeclares(c.request.value.amount, maxCostSat)
  {}

  /** None or zero is declared, so that the invoice's amount counts. */
  predicate DeclaresNothing(declared: string) { declared == "" || ParseInt64(declared) == Some(0) }

  /** The ways in which an amount over the cap passes: a smaller one is declared, or
      none and the invoice's is misread. */
  predicate SlipsThrough(declared: string, ds: string, m: Invoice.Multiplier, maxCostSat: int)
    requires AllDigits(ds)
  {
    Underdeclares(declared, maxCostSat) || (DeclaresNothing(declared) && Invoice.Misread(ds, m, maxCostSat))
  }

  /** Where the other checks pass, a challenge whose invoice asks for more than the
      cap is paid exactly when it slips through. */
  lemma OverCapExact(c: PaymentHeader.Challenge, expiry: Expiry, maxCostSat: int,
                     net: Invoice.Network, ds: string, m: Invoice.Multiplier, data: string)
    requires PassesChecks(c, expiry) && maxCostSat >= 0
    requires ds != "" && AllDigits(ds) && Invoice.Separated(m, data)
    requires ToLower(c.request.value.methodDetails.value.invoice) == Invoice.Print(net, ds, m, data)
    requires Invoice.ExactPico(ds, m) >= (maxCostSat + 1) * Invoice.PICO_PER_SAT
    ensures PaymentVerdict(c, expiry, maxCostSat).Payable? <==> SlipsThrough(c.request.value.amount, ds, m, maxCostSat)
  {
    Invoice.CapIsExact(net, ds, m, data, c.request.value.methodDetails.value.invoice, maxCostSat);
  }

  // ----- The preview

  /** What the preview's HEAD request found: the invoice of an L402 challenge (or
      None when it did not parse), and the first Payment challenge likewise. */
  datatype Probe =
    | Free
    | L402Probe(invoice: Option<string>)
    | PaymentProbe(challenge: Option<PaymentHeader.Challenge>)

  function PreviewAmount(challenge: Option<PaymentHeader.Challenge>): int {
    if challenge.None? || challenge.value.request.None? then 0
    else
      var request := challenge.value.request.value;
      var declared := ParseInt64(request.amount);
      if request.amount != "" && declared.Some? && declared.value > 0 then declared.value
      else if request.methodDetails.Some? then Invoice.ParseInvoiceAmountSat(request.methodDetails.value.invoice)
      else 0
  }

  /** What the preview reports as within budget. */
  predicate WithinBudget(probe: Probe, maxCostSat: int) {
    match probe
    case Free => false
    case L402Probe(invoice) => invoice.Some? && Invoice.ParseInvoiceAmountSat(invoice.value) <= maxCostSat
    case PaymentProbe(challenge) => PreviewAmount(challenge) <= maxCostSat
  }

  // ----- Preview against handler

  /** For an L402 challenge that parses, the preview says "within budget" exactly
      when the handler does not refuse on cost, unless the cap is below an amount
      that is itself not positive. */
  lemma L402PreviewAgrees(invoice: string, maxCostSat: int)
    ensures (Invoice.ParseInvoiceAmountSat(invoice) <= maxCostSat <==> !L402Verdict(invoice, maxCostSat).TooExpensive?)
            <==> !(maxCostSat < Invoice.ParseInvoiceAmountSat(invoice) <= 0)
  {}

  /** The same for a Payment challenge that passes the other checks: preview and
      handler part exactly when the declared amount is not a 64-bit number or is
      negative while the invoice's own amount exceeds the cap, or when the cap
      lies below an amount that is not positive. */
  lemma PaymentPreviewAgrees(c: PaymentHeader.Challenge, expiry: Expiry, maxCostSat: int)
    requires PassesChecks(c, expiry)
    ensures (PreviewAmount(Some(c)) <= maxCostSat <==> !PaymentVerdict(c, expiry, maxCostSat).TooExpensive?)
            <==> !DeclaredMisread(c, maxCostSat) && !(maxCostSat < PreviewAmount(Some(c)) <= 0)
  {
    var declared := ParseInt64(c.request.value.amount);
    if c.request.value.amount != "" && declared.Some? && declared.value > 0 {
      assert PreviewAmount(Some(c)) == declared.value;
    }
  }

  /** The declared amount is unreadable or negative, yet the invoice's amount is
      positive and above the cap. */
  predicate DeclaredMisread(c: PaymentHeader.Challenge, maxCostSat: int)
    requires c.request.Some? && c.request.value.methodDetails.Some?
  {
    var declared := ParseInt64(c.request.value.amount);
    && c.request.value.amount != ""
    && (declared.None? || declared.value < 0)
    && Invoice.ExceedsCap(Invoice.ParseInvoiceAmountSat(c.request.value.methodDetails.value.invoice), maxCostSat)
  }

  /** With a cap that is not negative and a declared amount that is empty or a
      non-negative 64-bit number, the preview is the handler's decision. */
  lemma PreviewIsTheHandlersDecision(c: PaymentHeader.Challenge, expiry: Expiry, maxCostSat: int)
    requires PassesChecks(c, expiry) && maxCostSat >= 0
    requires var a := c.request.value.amount; a == "" || (ParseInt64(a).Some? && ParseInt64(a).value >= 0)
    ensures PreviewAmount(Some(c)) <= maxCostSat <==> PaymentVerdict(c, expiry, maxCostSat).Payable?
  {
    PaymentPreviewAgrees(c, expiry, maxCostSat);
  }
}
