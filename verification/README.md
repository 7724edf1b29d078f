# lnget: a verified model

lnget is an HTTP client that pays Lightning invoices when a server answers 402
and repeats the request with a proof of payment. This project models its payment
protocol and the algorithms around it, and proves what they promise.

| file | models |
|---|---|
| `Protocol.dfy` | the payment protocol as a step relation: any number of concurrent requests over one token store, lock table and event log |
| `ProtocolSafety.dfy` | the inductive invariant of all runs: locks, the payment window, provenance, single use, the spending cap |
| `ProtocolLedger.dfy` | accounts over whole runs: payments against tokens, invalidations, missed reads, failed stores and crashes; the work of one request |
| `ProtocolCourse.dfy` | the own steps of each request: what must have happened for it to be where it is, and what is sent and paid |
| `ProtocolProgress.dfy` | no deadlock, and an end to every set of requests |
| `ProtocolScenarios.dfy` | runs put together step by step: a payment made twice, a credential sent to another domain, what may be paid at all |
| `ProtocolInvalidation.dfy` | which token an invalidation removes |
| `ProtocolEvents.dfy` | which event row a request enriches |
| `ProtocolOnDisk.dfy` | the protocol's reads, writes and listings over the file store |
| `ProtocolOnHeaders.dfy` | the protocol's challenges as the parsers read them from WWW-Authenticate headers |
| `Transport.dfy` | `RoundTrip` and both handlers as code, proved to perform exactly the protocol's steps, in the course that the answers call for |
| `Budget.dfy`, `Invoice.dfy`, `PreviewRun.dfy` | invoice amounts, the cost checks, and the dry-run preview |
| `L402Header.dfy`, `PaymentHeader.dfy` | the two challenge parsers, the printers they invert, and what exactly they can yield |
| `ChargeRequests.dfy` | the base64url JSON in a `Payment` challenge's request parameter |
| `Credential.dfy`, `Json.dfy`, `Utf8.dfy`, `Base64Url.dfy` | the `Payment` credential and its decoder |
| `Domains.dfy`, `FileStore.dfy` | domain names as directories, and the per-domain token store |
| `BodyReplay.dfy`, `Download.dfy` | request bodies across retries, resumable downloads |
| `Events.dfy`, `Chart.dfy` | the event table's aggregates, the spending chart |
| `ConfigMerge.dfy`, `Units.dfy` | the in-place configuration merge, the byte formatter's unit loop |
| `Text.dfy`, `Wrappers.dfy` | string helpers of the Go library, result types |

## How the protocol is modelled

Every store operation, base round trip, `PayInvoice` call and event insertion is
one atomic step of one request. What the server, the Lightning node, the disk and
the scheduler do is part of the action, so a run is a start state and a sequence of
actions, and a lemma about all runs is about all interleavings and all answers. A
`Crash` may come between any two steps: it ends all requests and empties memory and
leaves the disk. The history of payments, received challenges and sent credentials
is kept for stating properties; no step reads it.

A response has a status and its WWW-Authenticate values. What the two schemes
detect and parse in these, and how a timestamp reads, are functions of the
configuration, so the run theorems are about any parsers; `ProtocolOnHeaders` is
about the parsers of the code. Which challenges can be received is exact there, and
every run that shows a failure works for any challenge that can be received and
paid.

The store has one entry for each directory, and the locks are by domain, so two
domains whose names sanitize to one directory share a token and not a lock. The
run theorems are about any domains where that does not matter. Where it does, they
are about sets of domains of which no two share a directory (`Separate`), with the
converse beside them. Hosts with or without a port are such a set
(`ProtocolOnDisk.NiceAreSeparate`).

Any store operation may fail. A failed read is "no credential" to the code,
whatever the token is. A failed write leaves the entry as it was. For a removal
what counts is whether the token is gone, because the code ignores its error.

`InvalidateCredential` runs outside the lock and knows only the domain, so it may
delete a token that another request has just bought. The invariants hold all the
same, and the accounts count such deletions.

`Transport.PaymentTransport` has the control flow of the code. Before each of its
steps the other requests may take any steps, and each step must be the protocol's
step at that point, so the call's whole course is a legal part of a run. Its own
steps and its result are given as functions of the answers it gets and of what it
finds in the store (`Transport.CallSteps`, `Transport.CallResult`).

Assumed: a successful payment returns a preimage that is not zero, credentials
serialize, SHA-256 is some function, and the bytes of a text are valid UTF-8. Where
a lemma needs a challenge to exist, it assumes of the libraries that some macaroon
decodes and that JSON reads what it prints (`ChargeRequests.ReadsPrinted`, which
`ChargeRequests.RequestRoundTrip` proves of one decoder).

## What the code does not do

These are statements that one might expect and that are false of the code. Each is
proved with the condition under which it does hold, or with the family of inputs
that breaks it.

- A BOLT #11 amount without a multiplier letter, that is in whole bitcoin, reads as
  "no amount", and so does one of more digits than a signed 64-bit integer holds,
  even for pico-bitcoin amounts whose satoshi value is small (`Invoice.ParseIsFloor`,
  `Invoice.WholeBitcoinReadsAsZero`, `Invoice.LongPicoAmountReadsAsZero`). An invoice
  without a readable amount is not held against the cap: one for 20 bitcoin is paid
  (`ProtocolOnHeaders.TwentyBitcoinIsPaid`). An L402 offer above the cap is paid
  exactly when its amount is misread (`ProtocolScenarios.OverCapOfferExact`).
- Invoices of networks other than `bc`, `tb` and `bcrt` read as "no amount"
  (`Invoice.OtherNetworksReadAsZero`).
- The `Payment` handler holds the declared amount against the cap. It is the
  invoice's own amount for exactly the challenges of `Budget.ComparedAmount`. An
  invoice above the cap is paid exactly when the challenge passes the other checks,
  its `expires` can be read, and a smaller amount is declared (a number, not zero,
  that passes the cap itself), or none is and the invoice's is misread
  (`ProtocolScenarios.OverCapChargeExact`, `ProtocolOnHeaders.UnderdeclaredIsPaid`).
- A domain that has been paid for may be paid for again, with no invalidation, no
  failed write and no crash, when the double-check fails to read the token
  (`ProtocolScenarios.MissedReadPaysTwice`). The handler is then about to clear a
  paid token exactly when its own double-check missed it and nobody invalidated it
  since (`ProtocolLedger.ClearingExact`).
- An invalidation may remove a token that the server never refused, though nothing
  fails (`ProtocolInvalidation.LateInvalidation`). The token that it removes is the
  one its request sent exactly when no paid token was stored in the directory since
  that request read it (`ProtocolInvalidation.InvalidationExact`).
- A host name with an underscore and no port shares its directory with another
  domain, and without the metadata file reads back as that one
  (`Domains.UnderscoreHostIsLost`; the exact condition is `Domains.FallbackExact`).
  Requests to `http://host_8080/` may so send a credential bought from
  `http://host:8080/`, and requests to a host name with a letter that the sanitizer
  drops one bought from the name without it (`ProtocolOnDisk.UnderscoreHostLeaks`,
  `ProtocolOnDisk.DroppedLetterLeaks`). Credentials are sent only where they were
  bought exactly when no two domains share a directory
  (`ProtocolScenarios.AlwaysOwnExact`, `ProtocolOnHeaders.AlwaysOwnOnHeaders`).
- A URL with an IPv6 literal and a port shares its domain with another literal that
  spells the port out (`Domains.AddressesCollide`). Otherwise URLs with one domain
  name one host (`Domains.DomainIdentity`).
- A parameter of a `Payment` challenge that is not quoted takes the comma behind it
  (`PaymentHeader.TokenTakesComma`), and escapes in a quoted one are not undone: the
  value is read exactly when it has nothing to escape (`PaymentHeader.QuotedParam`,
  `PaymentHeader.EscapedExact`).
- The preview looks for an L402 challenge first. Where `Payment` is preferred and a
  response carries both, it previews the other scheme (`PreviewRun.PreviewScheme`).
  Preview and handler differ on cost for exactly the challenges of
  `Budget.PaymentPreviewAgrees`.
- A request whose event was recorded may enrich another request's event
  (`ProtocolEvents.MixedUpEvents`). It never does exactly when at most one of the
  domains can have events recorded (`ProtocolEvents.EventIdentityExact`,
  `ProtocolOnHeaders.EventIdentityOnHeaders`). One whose
  own event was not recorded may enrich an older row
  (`ProtocolEvents.UnrecordedEnrichesOlder`).
- The request for a fresh challenge is sent without renewing the body: it carries
  what earlier attempts left, so the complete body only if there is none or they
  read nothing (`BodyReplay.Attempts`). The comment at client/transport.go:340-343
  says that cloning a request calls `GetBody`; the library's `Clone` shares the
  reader, and the model follows the library. The retry with the credential is
  complete in every case.

## Model

| member | source | states |
|---|---|---|
| Protocol.Detect | client/transport.go:314-328 | a challenge is found only in a 402, for a configured scheme and as that scheme recognises it; none is found only when no configured scheme recognises one |
| Protocol.Cached | client/transport.go:297-307 | a cached credential exists exactly when the read succeeds and finds a paid token under a configured L402 scheme, and is that token's |
| ProtocolSafety.Exclusive | client/transport.go:226-228 | two requests past the lock of one domain are one request |
| ProtocolSafety.LockIsForEver | client/transport.go:385-397 | no step changes the lock object of a domain |
| ProtocolSafety.SameLock | client/transport.go:385-397 | in a process, any two requests for one domain use one lock object, however far apart in the run |
| ProtocolSafety.InvReachable | client/transport.go:121-290 | in every reachable state, among any domains: locks are exclusive, paid tokens and sent credentials are backed by payments, and each payment was for a challenge that can be received and accepted |
| ProtocolSafety.ExclusiveWindow | client/transport.go:226-263 | in every run among domains without shared directories: at most one request per domain is past the lock; from the double-check to its final store the entry is paid only before its own first write and only if its double-check failed to read it; no other step makes it paid |
| ProtocolSafety.Provenance | l402/handler.go:166-270 | in every run to any domains, with crashes anywhere: each stored paid token and each Authorization value sent comes from a recorded payment for a challenge received from a domain with the same directory; every payment was for a challenge that a response can carry and the handler accepts; a Payment credential goes only to the domain it was bought from, once at most, and its preimage hashes to what the challenge declares |
| ProtocolSafety.AcceptableExact | mpp/handler.go:105-197 | what the checks demand of a challenge is met exactly when the handler accepts it at some moment |
| ProtocolSafety.AcceptedInTime | mpp/handler.go:137-150 | a Payment challenge is accepted at a moment exactly when it would be without `expires`, and it has none or one that can be read and is not past |
| ProtocolSafety.SpendingCap | l402/handler.go:157-164 | in every run, an L402 invoice that was paid asks for less than one satoshi over the cap, or its amount was misread: no multiplier, or too large for int64, and what was read instead passes |
| ProtocolSafety.SpendingCapForCharges | mpp/handler.go:161-197 | the same for Payment challenges, unless a smaller amount is declared, or none and the invoice's was misread |
| ProtocolLedger.TokenBalance | l402/handler.go:177-266 | in every run and for each domain, even with shared directories: paid tokens stored plus one if paid at the start equal those invalidated, cleared by the handler or replaced, plus one if paid now |
| ProtocolLedger.PaymentsAccountedFor | l402/handler.go:201-266 | each successful L402 payment is stored, fails to be stored, is lost in a crash or is still on its way |
| ProtocolLedger.PayOnce | client/transport.go:143-290 | successful L402 payments to a domain, plus one if paid at the start, are exactly the invalidations, clearings, failed stores and crash losses, plus one if a token is stored or on its way; clearings are no more than double-checks that failed to read a paid token |
| ProtocolLedger.ClearedAtMostMissed | client/transport.go:233-263 | in every run among domains without shared directories the handler clears no more paid tokens than double-checks missed, and replaces none |
| ProtocolLedger.ClearingExact | l402/handler.go:177-188 | a request about to clear a stale entry finds a paid token there exactly when its double-check failed to read one and nobody invalidated it since |
| ProtocolScenarios.MissedReadPaysTwice | l402/scheme.go:73-78 | from every start without a paid token for a domain, and with any L402 challenge that can be paid there, a run has two payments to it, without invalidations, failed writes or crashes |
| ProtocolScenarios.AlwaysOwnExact | l402/store.go:70-102 | credentials are sent only to the domain they were bought from, in every run among some domains started with payments to these only, exactly when no two share a directory, L402 is not configured or no L402 challenge can be parsed |
| ProtocolScenarios.SharedDirectoryLeaks | client/transport.go:143-145 | two domains with one directory have a run from an empty start in which the second is sent what was bought from the first, with any L402 challenge that can be paid |
| ProtocolScenarios.MayPayExact | client/transport.go:261-263 | some run pays a challenge exactly when a response can carry it, the domain has a directory if the scheme is L402, its `expires` can be read and the other checks pass |
| ProtocolScenarios.OverCapOfferExact | l402/handler.go:157-164 | an L402 offer with an invoice above the cap is paid in some run exactly when a response can carry it, the domain has a directory, and its amount is misread |
| ProtocolScenarios.OverCapChargeExact | mpp/handler.go:161-197 | a Payment challenge with an invoice above the cap is paid in some run exactly when a response can carry it, its `expires` can be read, it passes the other checks, and a smaller amount is declared, or none and the invoice's is misread |
| ProtocolInvalidation.InvalidationExact | client/transport.go:143-188 | the paid token that a request's invalidation is about to remove is the one it sent exactly when no paid token was stored in that directory since it read its own |
| ProtocolInvalidation.LateInvalidation | client/transport.go:160-188 | with any L402 challenge that can be paid, a run without crash or failed write has an invalidation remove a token that its request did not send |
| ProtocolOnHeaders.OfferReceivable | l402/header.go:87-135 | a response can carry an L402 offer exactly when L402 is configured, macaroon and invoice are not empty and without quotes, and the macaroon decodes to that hash |
| ProtocolOnHeaders.ChargeReceivable | mpp/header.go:169-288 | a response can carry a Payment challenge only when the required parameters are there and the request decodes, and it can if the values are plain |
| ProtocolOnHeaders.StyledOfferIn | l402/header.go:232-247 | the L402 scheme reads an offer in every spelling, under both names, whatever header values follow |
| ProtocolOnHeaders.OnlyFirstValue | l402/header.go:237-247 | it looks at no header value but the first |
| ProtocolOnHeaders.OffersPaid | l402/handler.go:138-188 | some run pays an L402 offer exactly when a header can carry it, the domain has a directory and the amount that is read passes the cap |
| ProtocolOnHeaders.ChargesPaid | mpp/handler.go:83-197 | some run pays a plain Payment challenge exactly when a header can carry it, its `expires` can be read, and the checks pass |
| ProtocolOnHeaders.WholeBitcoinIsPaid | l402/header.go:173-190 | an L402 offer for any number of whole bitcoin is paid in some run under every cap |
| ProtocolOnHeaders.TwentyBitcoinIsPaid | l402/handler.go:157-164 | for one, an offer for 20 bitcoin |
| ProtocolOnHeaders.UnderdeclaredIsPaid | mpp/handler.go:161-197 | every invoice that a server declares as one satoshi is paid in some run under every positive cap |
| ProtocolOnHeaders.AlwaysOwnOnHeaders | l402/store.go:70-102 | with the code's parsers credentials are sent only to the domain they were bought from exactly when L402 is not configured or no two domains share a directory |
| ProtocolOnHeaders.EventIdentityOnHeaders | l402/handler.go:236-247 | with the code's parsers recorded events are enriched by their own requests exactly when at most one domain can have events recorded |
| ProtocolLedger.BoundedWork | client/transport.go:121-290 | a request makes at most four base round trips and one PayInvoice call, whatever the others do |
| ProtocolCourse.InvalidatesOnly402 | client/transport.go:154-174 | in every run a request that is about to invalidate, so every step that discards a paid token, has a 402 as the reply to its own last base round trip |
| ProtocolCourse.PaysInTime | mpp/handler.go:135-197 | in every run what a request pays for is the challenge in its own last reply, accepted at what the clock showed, which is not past an `expires` it has |
| ProtocolCourse.StoresFirst | l402/handler.go:177-266 | in every run a fresh challenge is asked for right after a look for a credential, an L402 invoice paid right after its pending token is stored, and a bought token used right after it is stored |
| ProtocolCourse.SentAndPaidExact | client/transport.go:143-290 | every base round trip with a credential sends that credential, every successful call of the payer is a payment of that challenge, and nothing else is sent, paid or received |
| ProtocolCourse.CourseOfAll | client/transport.go:121-290 | in every run every request is where the outcomes of its own steps have brought it |
| ProtocolProgress.RunsEnd | client/transport.go:121-290 | without new requests a run takes at most 19 steps for each request |
| ProtocolProgress.CanStep | client/transport.go:226-229 | an unfinished request, or the holder of the lock it waits for, can step whatever the environment answers |
| ProtocolProgress.MaximalRunsFinish | client/transport.go:226-290 | from every reachable state a run of steps that cannot go on has finished every request |
| ProtocolEvents.EnrichesItsOwnEvent | l402/handler.go:236-247 | in every run among domains of which no two mix, a request whose event was recorded enriches that event, which no other request inserted |
| ProtocolEvents.MixedUpEvents | l402/scheme.go:57-64 | from an empty start, requests to two domains, one that can be paid and one that can be billed under the same scheme, have a run in which one enriches the other's event, whatever the challenges |
| ProtocolEvents.EventIdentityExact | l402/handler.go:236-247 | recorded events are enriched by their own requests, in every run among some domains, exactly when events are not recorded or no two of them can be paid and billed under the same scheme |
| ProtocolEvents.UnrecordedEnriches | client/transport.go:357-379 | a request whose own event was not recorded enriches nothing or a row that another request inserted |
| ProtocolEvents.UnrecordedEnrichesOlder | l402/handler.go:241-246 | wherever events are recorded, with any challenge that can be paid a run has such a request enrich the row of the one before it |
| ProtocolOnDisk.StoreOnDisk | l402/filestore.go:62-164 | after any run among domains that read back, with crashes and operations failing in any way, a listing of the file store has for each of them exactly the protocol's token |
| ProtocolOnDisk.RunOnDisk | l402/filestore.go:62-164 | in every run to any domains, with operations failing in any way, the directories hold exactly the protocol's tokens |
| ProtocolOnDisk.ReadsOnDisk | l402/filestore.go:62-69 | after any run to any domains, what a look for a cached credential sees is what `GetToken` finds in the directories |
| ProtocolOnDisk.NiceAreSeparate | l402/store.go:70-102 | domains that read back from their directories have directories of their own |
| ProtocolOnDisk.NiceMeansOwn | l402/store.go:56-102 | among them credentials are sent only to the domain they were bought from |
| ProtocolOnDisk.UnderscoreHostLeaks | l402/store.go:70-125 | requests to `host:port` and `host_port`, by their URLs, have a run that sends to the latter what was bought from the former |
| ProtocolOnDisk.DroppedLetterLeaks | l402/store.go:70-102 | so do requests to a host name with a letter that the sanitizer drops and to the name without it |
| Transport.PaymentTransport.RoundTrip | client/transport.go:121-290 | the call is a legal course of one request, and its own steps and its result are those that the answers call for; a cached credential that the server does not answer with a 402 ends the call with that reply and nothing else done; a reply that asks for payment is the result only of a call that had a credential to show; a response is the reply to its own last base round trip |
| Transport.PaymentTransport.StateIsSafe | client/transport.go:121-290 | after any calls, interleaved in any way, the invariant of the protocol holds |
| Transport.PaymentTransport.GetCachedCredential | client/transport.go:297-307 | the loop over the schemes, passing over those whose lookup fails, finds the cached credential of the protocol |
| Transport.PaymentTransport.DetectChallenge | client/transport.go:314-328 | the loop over the schemes detects the challenge of the protocol |
| Transport.PaymentTransport.PayUnderLock | client/transport.go:226-290 | everything under the lock, whose steps and result are those that the answers call for, and which is released on every way out; only a lock that another holds makes the call wait |
| Transport.PaymentTransport.HandleL402 | l402/handler.go:138-270 | refused, not stored, not paid or not kept in exactly the cases of the code, with exactly its steps; otherwise a stored proof for this offer with the preimage that was paid for |
| Transport.PaymentTransport.HandlePayment | mpp/handler.go:83-292 | refused, not paid or mismatched in exactly the cases of the code, with exactly its steps; otherwise a proof for this challenge with the preimage that was paid for |
| Budget.ValidateCharge | mpp/handler.go:105-197 | the chain of early returns decides as the verdict function does |
| Budget.ComparedAmount | mpp/handler.go:161-182 | the amount held against the cap is the invoice's for exactly the challenges that declare none, zero or that amount |
| Budget.PayableExact | mpp/handler.go:105-197 | the handler pays exactly a Lightning charge in satoshis or no named currency, with an invoice, not expired, whose amount is readable and not both positive and above the cap |
| Budget.OverspendExact | mpp/handler.go:161-197 | a challenge that passes the other checks is payable with an invoice above the cap exactly when the invoice exceeds the cap and a smaller amount is declared |
| Budget.OverCapExact | mpp/handler.go:161-197 | a challenge that passes the other checks and whose invoice asks for more than the cap is payable exactly when a smaller amount is declared, or none and the invoice's is misread |
| Budget.L402PreviewAgrees | service/service.go:198-210 | preview and handler agree on cost unless the cap is below an amount that is not positive |
| Budget.PaymentPreviewAgrees | service/service.go:252-274 | preview and handler agree on cost unless the declared amount is unreadable or negative while the invoice exceeds the cap, or the cap is below an amount that is not positive |
| Budget.PreviewIsTheHandlersDecision | service/service.go:252-274 | with a cap that is not negative and a declared amount that is empty or a non-negative int64, "within budget" is the handler's decision |
| PreviewRun.PreviewScheme | service/service.go:198-219 | the preview names the scheme the transport picks unless Payment is preferred and both are offered |
| PreviewRun.PreviewDecidesPayment | service/service.go:198-219 | for a whole response, "within budget" holds exactly when the transport's handler accepts the challenge at that moment |
| PreviewRun.DryRun | service/service.go:194-219 | the preview announces a payment exactly when the transport finds a challenge and names the scheme it previews; where both pick one scheme and only cost is open, "within budget" is the handler's decision |
| Invoice.PrintedHrp | l402/header.go:173-181 | the amount pattern finds the printed digits and multiplier for all three networks, and nothing where there is no multiplier |
| Text.ParsePrinted | mpp/handler.go:160-170 | parsing a printed integer gives it back exactly when it fits 64 bits, with or without a plus sign |
| Text.ParsesOnlyNumbers | mpp/handler.go:160-170 | nothing but digits with an optional sign parses |
| Text.ClassesExact | mpp/header.go:140-142 | the character classes of the patterns, spelled out |
| Text.LowerExact | l402/header.go:193-195 | each capital letter has its own small one and nothing else changes |
| Text.TrimSpaceExact | l402/store.go:108-115 | spaces around a text are trimmed away, and nothing else |
| Invoice.ParseIsFloor | l402/header.go:192-229 | parsing a printed invoice gives the floor of the exact satoshi value exactly when there is a multiplier or the amount is nought, and digits and value fit int64 |
| Invoice.CapIsExact | l402/handler.go:157-164 | the cap admits exactly the amounts below cap plus one satoshi, and the misread ones |
| Invoice.WholeBitcoinReadsAsZero | l402/header.go:178-180 | an amount in whole bitcoin reads as no amount |
| Invoice.LongPicoAmountReadsAsZero | l402/header.go:200-203 | an invoice for 10^15 satoshi that reads as having no amount |
| Invoice.OtherNetworksReadAsZero | l402/header.go:178-180 | invoices with any other network tag read as having no amount |
| L402Header.OfferRoundTrip | l402/header.go:87-135 | a printed L402 challenge is recognised and parses to that challenge, under both names of the scheme and in every letter case and spacing that the pattern admits |
| L402Header.IsChallengeExact | l402/header.go:232-247 | a header value is an L402 challenge exactly when its first word is L402 or LSAT in any letter case |
| L402Header.MatchSound | l402/header.go:60-62 | the pattern matches nothing but printed offers |
| L402Header.FindsLeftmost | l402/header.go:88-92 | of several matches the leftmost counts, wherever it begins |
| L402Header.OfferExact | l402/header.go:87-135 | some header parses to an offer exactly when macaroon and invoice are not empty and without quotes, and the macaroon decodes to that hash |
| PaymentHeader.ParseParams | mpp/header.go:186-200 | the loop builds the map of the matches, keys in lower case, last one winning |
| PaymentHeader.ParseChallenge | mpp/header.go:169-253 | the parser as a function of the header |
| PaymentHeader.FindPaymentHeader | mpp/header.go:274-288 | the first header value that carries the Payment scheme, if any |
| PaymentHeader.ScanPrinted | mpp/header.go:140-142 | scanning a printed parameter list gives the list back, whatever its quoted values contain |
| PaymentHeader.ParamMapExact | mpp/header.go:186-200 | with keys distinct up to case the map holds exactly the parameters |
| PaymentHeader.HeaderRoundTrip | mpp/header.go:169-253 | a printed header is recognised and parsed from exactly its parameter map, in any letter case of the scheme's name and with spaces around it |
| PaymentHeader.SchemeExact | mpp/header.go:156-163 | a header value is of the scheme exactly when its first word is the scheme's name in any letter case and something follows |
| PaymentHeader.ParsedIsComplete | mpp/header.go:169-236 | what is parsed begins with the scheme's name, has the required parameters, and its request decoded |
| PaymentHeader.MissingExact | mpp/header.go:202-232 | the error names the first required parameter that is missing or empty |
| PaymentHeader.LastParamWins | mpp/header.go:186-200 | of parameters with one key up to letter case the last counts |
| PaymentHeader.QuotedParam | mpp/header.go:140-142 | a quoted parameter with any escaped value, and blanks around its equals sign, is captured with its escapes |
| PaymentHeader.EscapedExact | mpp/header.go:140-142 | so the value is captured itself exactly when it has no quote or backslash |
| PaymentHeader.TokenParam | mpp/header.go:140-142 | a parameter without quotes takes all that is not blank |
| PaymentHeader.TokenTakesComma | mpp/header.go:140-142 | so it takes the comma behind it |
| PaymentHeader.MatchSound | mpp/header.go:140-142 | the pattern matches nothing but a key, an equals sign with blanks around it, and a value |
| PaymentHeader.ChallengeRoundTrip | mpp/header.go:169-253 | a printed challenge is recognised and parses to that challenge, omitted fields reading as empty |
| PaymentHeader.ChallengeExact | mpp/header.go:169-253 | some header parses to a plain challenge exactly when its required parameters are there and its request decodes |
| ChargeRequests.RequestRoundTrip | mpp/header.go:255-269 | decoding a printed request gives that request |
| Credential.BuildChargeCredential | mpp/credential.go:71-100 | the value starts with the scheme, and what follows has no padding, `+` or `/` |
| Credential.EchoReadsBack | mpp/credential.go:23-55 | every echoed field reads back, omitted ones as empty |
| Credential.EchoOmits | mpp/credential.go:23-55 | an optional parameter is echoed exactly when it is there |
| Credential.CredentialRoundTrip | mpp/credential.go:71-100 | decoding the header value gives the echoed fields and the preimage, for every challenge and preimage |
| Credential.CredentialBinds | mpp/credential.go:71-100 | equal credentials agree in every echoed field and the preimage |
| Json.RoundTrip | mpp/credential.go:92-96 | parsing gives back the printed JSON value and the text after it |
| Json.EscapedIsSafe | mpp/credential.go:92-96 | no printed text holds a control character, an angle bracket, an ampersand, a line separator or a bare quote |
| Utf8.DecodeEncodeText | mpp/credential.go:92-96 | UTF-8 decoding undoes encoding |
| Base64Url.DecodeEncode | mpp/credential.go:98 | base64url decoding undoes encoding, for all byte sequences |
| Base64Url.EncodeAlphabet | mpp/credential.go:98 | only letters, digits, `-` and `_` are printed |
| Domains.SanitizeDomain | l402/store.go:70-102 | the loop computes the cleaned name and refuses empty, `.` and `..` |
| Domains.SanitizeIdempotent | l402/store.go:70-102 | sanitizing twice is sanitizing once |
| Domains.DirectoryIsSafe | l402/store.go:70-102 | a directory's name has only letters, digits, dots, hyphens and underscores, and is not empty, `.` or `..` |
| Domains.SafeIsKept | l402/store.go:70-102 | a name of such characters is its own directory, and the three refused ones have none |
| Domains.FallbackExact | l402/store.go:108-125 | the last-underscore fallback undoes the sanitizer for exactly the recoverable domains |
| Domains.SanitizeInjective | l402/store.go:70-102 | distinct recoverable domains have distinct directories |
| Domains.MetadataExact | l402/store.go:129-144 | written metadata reads back as the domain, whatever the directory's name would read back as, if spaces do not surround it |
| Domains.ReadsBack | l402/store.go:108-144 | a recoverable domain reads back with metadata absent, empty or written |
| Domains.ReadsBackHere | l402/store.go:108-125 | whatever metadata was written for any domain, a directory reads back as a domain of that directory |
| Domains.HostPortRecoverable | l402/store.go:108-125 | every host, with or without a decimal port, is recoverable |
| Domains.UrlDomainIsHostPort | l402/store.go:56-66 | the domain of a URL with such a host and port is of that form |
| Domains.DomainIdentity | l402/store.go:56-66 | for all hosts and decimal ports, two URLs share a domain exactly when hosts agree and ports agree or are both standard, or when one host spells out the host and port of the other |
| Domains.AddressesCollide | l402/store.go:56-66 | `[::1]:8080` and `[::1:8080]` share a domain |
| Domains.UnderscoreHostIsLost | l402/store.go:108-125 | an underscore host without port shares a directory with, and reads back as, the domain with a colon there |
| Domains.UrlsShareDirectory | l402/store.go:56-102 | the URLs of `host_port` and `host:port` have different domains and one directory |
| Domains.DroppedCharacter | l402/store.go:70-102 | a character that the sanitizer drops makes no difference to the directory |
| FileStore.Store.GetToken | l402/filestore.go:62-69 | the token of the domain's directory, which is created when absent; no token, a bad domain and a failure to open or to read are told apart |
| FileStore.Store.StoreToken | l402/filestore.go:75-89 | the token is stored, or the entry left as it was if the directory or the token fails; the metadata write may fail |
| FileStore.Store.RemoveToken | l402/filestore.go:134-164 | the domain's directory is removed, and no other; a failing removal may have removed the token or part of the directory |
| FileStore.Store.AllTokens | l402/filestore.go:92-129 | each entry comes from a directory and each directory with a token has an entry; any other read error ends the listing with it |
| FileStore.Store.ListDomains | l402/filestore.go:193-217 | one name for each directory with a token that can be read, the one it reads back as |
| FileStore.StoreIsMap | l402/filestore.go:62-164 | after any operations on recoverable domains, whichever of them failed and however metadata writes ended, every listing is the plain map |
| FileStore.LookupIsMap | l402/filestore.go:62-69 | every lookup is a lookup in the plain map |
| FileStore.StoreIsMapForHosts | l402/filestore.go:92-129 | in particular for host and host:port domains |
| FileStore.ListingExact | l402/filestore.go:92-129 | after any operations on any domains, a listing has a domain with a token exactly when the domain's own directory holds that token and reads back as it |
| FileStore.WrittenIsListed | l402/filestore.go:71-89 | a domain whose own store with its metadata was the last in its directory is listed with its token, and no other domain of the directory is, underscores or not |
| FileStore.WrittenIsNamed | l402/filestore.go:193-217 | and it is named, where its directory can be read |
| BodyReplay.BufferRequestBody | client/transport.go:403-422 | the body is replaced by an equal fresh one with a replay function, unless there is none or a function is supplied |
| BodyReplay.RetryWithCredential | client/transport.go:334-355 | the copy reads a fresh complete body when a replay function exists, else the shared one |
| BodyReplay.Attempts | client/transport.go:121-290 | the paid retry carries the complete original body whatever earlier attempts read; the fresh-challenge request does exactly when there is none or they read nothing |
| Download.OutputFile.DoDownload | client/client.go:196-254 | the server is asked for the rest exactly when resuming a file that is there and not empty; status check, append or truncate, and copying up to an interruption; without resumption a success with an honest server leaves exactly the content |
| Download.RangeExact | client/client.go:197-203 | the bytes from the file's length are asked for exactly when resuming a file that is there and not empty |
| Download.FreshDownload | client/client.go:225-254 | without resumption a successful attempt with an honest server leaves exactly the content, from any file |
| Download.AttemptKeepsPrefix | client/client.go:196-254 | an attempt keeps the file a prefix of the content, a successful one completes it |
| Download.ResumeInvariant | client/client.go:196-254 | so do any attempts in sequence, each interrupted at any byte |
| Download.ResumeNeedsPrefix | client/client.go:227-233 | a successful resumption yields the content exactly when the old file was a prefix of it |
| Events.Store.RecordEvent | events/store.go:47-79 | the row is appended under a new id, an empty scheme as "l402" |
| Events.Store.EnrichEvent | events/sqlc/events.sql.go:13-21 | the five metadata columns of the row with this id are set, and no aggregate changes |
| Events.Store.GetSpendingByDomain | events/sqlc/events.sql.go:44-55 | one row for each domain with a success, holding the sums of its satoshis, its fees and its payments, largest first |
| Events.Conservation | events/sqlc/events.sql.go:44-102 | the per-domain rows add up to the overall satoshis, fees and payments, and their number is the domains accessed |
| Events.EnrichKeepsSpending | events/sqlc/events.sql.go:13-21 | enrichment changes no per-domain row |
| Events.FailuresDoNotCount | events/sqlc/events.sql.go:44-102 | a row that is no success changes only the failure count |
| Events.SuccessesCount | events/sqlc/events.sql.go:44-102 | a success adds its satoshis, its fee, one payment and its domain, and no failure |
| Events.StatsOfHistory | events/store.go:137-190 | after any inserts and enrichments the aggregates are those of the inserted rows |
| Chart.BucketEvents | dashboard/components/SpendingChart.tsx:20-69 | a bucket for every slot from the earliest to the latest success, holding what that slot adds up to |
| Chart.SuccessesExact | dashboard/components/SpendingChart.tsx:20-30 | exactly the successful events are charted, each as often as it occurs |
| Chart.BucketHolds | dashboard/components/SpendingChart.tsx:36-59 | a bucket holds what the events add up to from its time to five minutes, an hour or a day later, by the span |
| Chart.ChartConserves | dashboard/components/SpendingChart.tsx:47-59 | the buckets add up to the events |
| Chart.ChartSize | dashboard/components/SpendingChart.tsx:36-67 | at least 2 buckets, at most 13 below an hour, at most 49 below two days |
| Chart.EvenlySpaced | dashboard/components/SpendingChart.tsx:57-59 | bucket times increase by the bucket size |
| ConfigMerge.DeepMerge | cli/config.go:245-267 | in place and in any key order, the target becomes the merge; the overlay is unchanged, and its tables may be shared |
| ConfigMerge.MergeByPath | cli/config.go:245-267 | what the merge holds at every key path, told from the two sides |
| ConfigMerge.OverlayWins | cli/config.go:264-265 | the overlay's value wherever it has a non-object |
| ConfigMerge.MergeTwice | cli/config.go:245-267 | as values, merging an overlay twice is merging it once |
| ConfigMerge.DeepMergeAgain | cli/config.go:245-267 | in place, a target that already holds the overlay, and may share its tables, is left as it is |
| ConfigMerge.MergeTwiceInPlace | cli/config.go:245-267 | so calling the merge twice leaves the target as once, and the overlay unchanged |
| Units.SelectUnit | client/progress.go:153-168 | for every int64 from 1024 the loop leaves a whole part from 1 to 1023, the suffix is that of the divisor's power and the divisor does not overflow |
| Units.UnitIsUnique | client/progress.go:160-165 | no other unit does: the bytes lie between one power of 1024 and the next for one exponent only |

## Left out

- The token value: macaroon decoding and `NewTokenFromChallenge` are one function
  from the header's text to the payment hash, and the prefix mirrored between
  challenge and Authorization header is left out. A credential is the challenge, the
  preimage and the position of its payment.
- SHA-256, which is a function parameter; hex encoding of the preimage.
- Aperture's store inside a directory, which is one optional token here; a metadata
  write torn after its first byte; `RemovePending` and `HasPendingPayment`.
- The event rows inside the protocol: a step inserts or enriches by id, and
  `Events.dfy` says what that does to the table.
- `lastPayment`, the preview's `HasCachedToken`, the classification of errors and their texts.
- PaymentHeader.HeaderRoundTrip: quoted values are free of `"` and `\`, because the
  parser does not undo escapes; for other values, unquoted ones and blanks around the
  equals sign, single parameters are stated (`QuotedParam`, `TokenParam`).
- ProtocolOnHeaders.ChargeReceivable: for values that hold `"` or `\` it says what a
  received challenge must have, not that each such challenge can be printed.
- Letter case outside ASCII, and text that is not valid UTF-8, which the JSON encoder
  would replace.
- Credential.CredentialRoundTrip: the decoder accepts the compact JSON that the
  encoder prints, without white space.
- Transport.PaymentTransport.RoundTrip: a call whose lock is never released by the
  others ends at the wait, because methods must terminate here; that this cannot go
  on for ever is `ProtocolProgress.MaximalRunsFinish`.
- BodyReplay.Attempts: a body supplied with a replay function is assumed to be what
  that function yields, and a missing body to have none.
- A write of the token that fails leaves the entry as it was: the inner store's
  rename of a temporary file is not modelled, nor a token file torn by a power loss.
- Overflow of the database's 64-bit sums, `ListEvents`, `MAX(created_at)`, and the
  order of rows with equal totals or times.
- The `%.1f` digits that follow the unit selection, and byte counts below 1024.
- HTTP, TLS, redirects, gRPC and the Lightning backends; the CLI, MCP and REST
  surfaces, configuration defaults and validators, and all drawing.
