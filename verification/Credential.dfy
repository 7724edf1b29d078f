/** The `Authorization: Payment` credential: the echoed challenge and the preimage
    as JSON, UTF-8 and unpadded base64url. */
module Credential {
  import opened Wrappers
  import opened Json
  import Base64Url
  import PaymentHeader
  import Utf8

  /** What a server reads out of the credential. */
  datatype Echo = Echo(
    id: string, realm: string, method_: string, intent: string, request: string,
    expires: string, description: string, opaque_: string, digest: string)

  datatype Proof = Proof(challenge: Echo, preimage: string)

  const SCHEME := "Payment "

  // ----- Building

  /** String fields in order; those from position `optional` on are left out when
      empty, as the `omitempty` option asks. */
  function Fields(names: seq<string>, values: seq<string>, optional: nat, i: nat): Members
    requires |names| == |values| && i <= |names|
    decreases |names| - i
  {
    if i == |names| then End
    else if i >= optional && values[i] == "" then Fields(names, values, optional, i + 1)
    else Member(names[i], Str(values[i]), Fields(names, values, optional, i + 1))
  }

  /** The challenge echo: `id`, `realm`, `method`, `intent` and `request` always,
      `expires`, `description`, `opaque` and `digest` when present. */
  function EchoFields(c: PaymentHeader.Challenge): Members {
    Fields(PaymentHeader.NAMES, PaymentHeader.Values(c), 5, 0)
  }

  function CredentialFields(c: PaymentHeader.Challenge, preimage: string): Members {
    Member("challenge", Obj(EchoFields(c)),
    Member("payload", Obj(Member("preimage", Str(preimage), End)), End))
  }

  function BuildChargeCredential(c: PaymentHeader.Challenge, preimage: string): (header: string)
    ensures SCHEME <= header && "Payment " <= header
    ensures forall i :: |SCHEME| <= i < |header| ==> Base64Url.InAlphabet(header[i])
  {
    var bytes := Utf8.EncodeText(Print(Obj(CredentialFields(c, preimage))));
    Base64Url.EncodeAlphabet(bytes);
    SCHEME + Base64Url.Encode(bytes)
  }

  // ----- Reading

  function ReadEcho(m: Members): Echo {
    Echo(Field(m, "id"), Field(m, "realm"), Field(m, "method"), Field(m, "intent"), Field(m, "request"),
         Field(m, "expires"), Field(m, "description"), Field(m, "opaque"), Field(m, "digest"))
  }

  function ReadJson(text: string): Option<Proof> {
    match ParseValue(text)
    case Some((Obj(m), rest)) =>
      if rest != "" then None
      else Some(Proof(ReadEcho(ObjectAt(m, "challenge")), Field(ObjectAt(m, "payload"), "preimage")))
    case _ => None
  }

  function ReadCredential(header: string): Option<Proof> {
    if !(SCHEME <= header) then None
    else match Base64Url.Decode(header[|SCHEME|..])
      case None => None
      case Some(bytes) => match Utf8.DecodeText(bytes) case None => None case Some(text) => ReadJson(text)
  }

  // ----- Reading undoes building

  function EchoOf(c: PaymentHeader.Challenge): Echo {
    Echo(c.id, c.realm, c.method_, c.intent, c.rawRequest, c.expires, c.description, c.opaque_, c.digest)
  }

  lemma {:induction false} FieldReads(names: seq<string>, values: seq<string>, optional: nat, i: nat, key: string)
    requires |names| == |values| && i <= |names|
    requires forall j, k :: 0 <= j < k < |names| ==> names[j] != names[k]
    ensures (forall k :: i <= k < |names| ==> names[k] != key) ==>
              !HasKey(Fields(names, values, optional, i), key) && Field(Fields(names, values, optional, i), key) == ""
    ensures forall k :: i <= k < |names| && names[k] == key ==>
            Field(Fields(names, values, optional, i), key) == values[k]
    decreases |names| - i
  {
    if i < |names| { FieldReads(names, values, optional, i + 1, key); }
  }

  /** Every field of the echo reads back, omitted ones as empty. */
  lemma EchoReadsBack(c: PaymentHeader.Challenge)
    ensures ReadEcho(EchoFields(c)) == EchoOf(c)
  {
    PaymentHeader.NamesDiffer();
    var names, values := PaymentHeader.NAMES, PaymentHeader.Values(c);
    forall i | 0 <= i < |names|
      ensures Field(EchoFields(c), names[i]) == values[i]
    {
      FieldReads(names, values, 5, 0, names[i]);
    }
    ReadByName(c, EchoFields(c));
  }

  /** The optional parameters are echoed exactly when they are there. */
  lemma EchoOmits(c: PaymentHeader.Challenge, i: nat)
    requires i < |PaymentHeader.NAMES|
    ensures HasKey(EchoFields(c), PaymentHeader.NAMES[i]) <==> i < 5 || PaymentHeader.Values(c)[i] != ""
  {
    PaymentHeader.NamesDiffer();
    FieldThere(PaymentHeader.NAMES, PaymentHeader.Values(c), 5, 0, i);
  }

  lemma {:induction false} FieldThere(names: seq<string>, values: seq<string>, optional: nat, i: nat, k: nat)
    requires |names| == |values| && i <= |names| && k < |names|
    requires forall j, l :: 0 <= j < l < |names| ==> names[j] != names[l]
    ensures HasKey(Fields(names, values, optional, i), names[k]) <==> i <= k && (k < optional || values[k] != "")
    decreases |names| - i
  {
    if i < |names| { FieldThere(names, values, optional, i + 1, k); }
  }

  lemma ReadByName(c: PaymentHeader.Challenge, m: Members)
    requires forall i :: 0 <= i < |PaymentHeader.NAMES| ==>
             Field(m, PaymentHeader.NAMES[i]) == PaymentHeader.Values(c)[i]
    ensures ReadEcho(m) == EchoOf(c)
  {
    var names := PaymentHeader.NAMES;
    assert Field(m, names[0]) == c.id && Field(m, names[1]) == c.realm && Field(m, names[2]) == c.method_;
    assert Field(m, names[3]) == c.intent && Field(m, names[4]) == c.rawRequest && Field(m, names[5]) == c.expires;
    assert Field(m, names[6]) == c.description && Field(m, names[7]) == c.opaque_ && Field(m, names[8]) == c.digest;
  }

  lemma PartsReadBack(echo: Members, preimage: string)
    ensures var m := Member("challenge", Obj(echo),
                            Member("payload", Obj(Member("preimage", Str(preimage), End)), End));
            ObjectAt(m, "challenge") == echo && Field(ObjectAt(m, "payload"), "preimage") == preimage
  {
    var payload := Member("payload", Obj(Member("preimage", Str(preimage), End)), End);
    assert "challenge"[0] != "payload"[0];
    assert !HasKey(payload, "challenge");
    assert ObjectAt(payload, "payload") == Member("preimage", Str(preimage), End);
  }

  lemma JsonReadsBack(c: PaymentHeader.Challenge, preimage: string)
    ensures ReadJson(Print(Obj(CredentialFields(c, preimage)))) == Some(Proof(EchoOf(c), preimage))
  {
    var v := Obj(CredentialFields(c, preimage));
    RoundTrip(v, "");
    assert Print(v) + "" == Print(v);
    PartsReadBack(EchoFields(c), preimage);
    EchoReadsBack(c);
  }

  /** The credential round trip, for every challenge and preimage. */
  lemma CredentialRoundTrip(c: PaymentHeader.Challenge, preimage: string)
    ensures ReadCredential(BuildChargeCredential(c, preimage)) == Some(Proof(EchoOf(c), preimage))
  {
    var text := Print(Obj(CredentialFields(c, preimage)));
    var bytes := Utf8.EncodeText(text);
    assert (SCHEME + Base64Url.Encode(bytes))[|SCHEME|..] == Base64Url.Encode(bytes);
    Base64Url.DecodeEncode(bytes);
    Utf8.DecodeEncodeText(text);
    JsonReadsBack(c, preimage);
  }

  /** So a credential binds its challenge and preimage: two that are equal agree
      in every echoed field and in the preimage. */
  lemma CredentialBinds(c: PaymentHeader.Challenge, p: string, c': PaymentHeader.Challenge, p': string)
    requires BuildChargeCredential(c, p) == BuildChargeCredential(c', p')
    ensures EchoOf(c) == EchoOf(c') && p == p'
  {
    CredentialRoundTrip(c, p);
    CredentialRoundTrip(c', p');
  }
}
