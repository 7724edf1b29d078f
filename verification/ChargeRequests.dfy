/** The request parameter of a Payment challenge: JSON, UTF-8 and unpadded
    base64url, as a server prints it. */
module ChargeRequests {
  import opened Wrappers
  import opened Json
  import opened PaymentHeader
  import Base64Url
  import Credential
  import Utf8

  const DETAIL_NAMES: seq<string> := ["invoice", "paymentHash"]

  /** The details, with an empty hash left out. */
  function DetailFields(details: LightningDetails): Members {
    Credential.Fields(DETAIL_NAMES, [details.invoice, details.paymentHash], 1, 0)
  }

  function RequestFields(amount: string, currency: string, details: LightningDetails): Members {
    Member("amount", Str(amount), Member("currency", Str(currency),
    Member("methodDetails", Obj(DetailFields(details)), End)))
  }

  function PrintRequest(amount: string, currency: string, details: LightningDetails): string {
    Base64Url.Encode(Utf8.EncodeText(Print(Obj(RequestFields(amount, currency, details)))))
  }

  /** A decoder of request parameters reads what servers print. */
  ghost predicate ReadsPrinted(decode: string -> Option<ChargeRequest>) {
    forall amount, currency, details ::
      decode(PrintRequest(amount, currency, details)) == Some(ChargeRequest(amount, currency, Some(details)))
  }

  /** `DecodeRequest`, for compact JSON. */
  function DecodeRequest(text: string): Option<ChargeRequest> {
    match Base64Url.Decode(text)
    case None => None
    case Some(bytes) =>
      match Utf8.DecodeText(bytes)
      case None => None
      case Some(json) => ReadRequest(json)
  }

  function ReadRequest(json: string): Option<ChargeRequest> {
    match ParseValue(json)
    case Some((Obj(m), rest)) =>
      if rest != "" then None
      else
        var details := if HasKey(m, "methodDetails") then Some(ReadDetails(ObjectAt(m, "methodDetails"))) else None;
        Some(ChargeRequest(Field(m, "amount"), Field(m, "currency"), details))
    case _ => None
  }

  function ReadDetails(m: Members): LightningDetails {
    LightningDetails(Field(m, "invoice"), Field(m, "paymentHash"))
  }

  lemma DetailsReadBack(details: LightningDetails)
    ensures ReadDetails(DetailFields(details)) == details
  {
    assert DETAIL_NAMES[0] != DETAIL_NAMES[1] by { assert |DETAIL_NAMES[0]| != |DETAIL_NAMES[1]|; }
    Credential.FieldReads(DETAIL_NAMES, [details.invoice, details.paymentHash], 1, 0, DETAIL_NAMES[0]);
    Credential.FieldReads(DETAIL_NAMES, [details.invoice, details.paymentHash], 1, 0, DETAIL_NAMES[1]);
  }

  lemma NamesDiffer()
    ensures "amount" != "currency" && "amount" != "methodDetails" && "currency" != "methodDetails"
  {
    assert |"amount"| == 6 && |"currency"| == 8 && |"methodDetails"| == 13;
  }

  lemma LastField(details: LightningDetails)
    ensures var last := Member("methodDetails", Obj(DetailFields(details)), End);
      && !HasKey(last, "amount") && !HasKey(last, "currency") && HasKey(last, "methodDetails")
      && ObjectAt(last, "methodDetails") == DetailFields(details)
  {
    NamesDiffer();
    assert !HasKey(End, "amount") && !HasKey(End, "currency") && !HasKey(End, "methodDetails");
  }

  lemma LastFields(currency: string, details: LightningDetails)
    ensures var middle := Member("currency", Str(currency), Member("methodDetails", Obj(DetailFields(details)), End));
      && !HasKey(middle, "amount") && Field(middle, "currency") == currency
      && HasKey(middle, "methodDetails") && ObjectAt(middle, "methodDetails") == DetailFields(details)
  {
    NamesDiffer();
    LastField(details);
  }

  lemma FieldsReadBack(amount: string, currency: string, details: LightningDetails)
    ensures var m := RequestFields(amount, currency, details);
            && Field(m, "amount") == amount && Field(m, "currency") == currency
            && HasKey(m, "methodDetails") && ObjectAt(m, "methodDetails") == DetailFields(details)
  {
    NamesDiffer();
    LastFields(currency, details);
  }

  /** The request round trip. */
  lemma RequestRoundTrip()
    ensures ReadsPrinted(DecodeRequest)
  {
    forall amount, currency, details
      ensures DecodeRequest(PrintRequest(amount, currency, details))
              == Some(ChargeRequest(amount, currency, Some(details)))
    {
      var v := Obj(RequestFields(amount, currency, details));
      Base64Url.DecodeEncode(Utf8.EncodeText(Print(v)));
      Utf8.DecodeEncodeText(Print(v));
      RoundTrip(v, "");
      assert Print(v) + "" == Print(v);
      FieldsReadBack(amount, currency, details);
      DetailsReadBack(details);
    }
  }

  /** What is printed can stand in a quoted parameter. */
  lemma PrintedIsPlain(amount: string, currency: string, details: LightningDetails)
    ensures var text := PrintRequest(amount, currency, details); text != "" && IsPlain(text)
  {
    var json := Print(Obj(RequestFields(amount, currency, details)));
    var bytes := Utf8.EncodeText(json);
    Base64Url.EncodeAlphabet(bytes);
    Base64Url.DecodeEncode(bytes);
    Utf8.DecodeEncodeText(json);
    assert json != "";
  }
}
