/** The payment protocol as a step relation: any number of concurrent
    `RoundTrip` calls over one token store, one lock table and one event log.

    Every store access, base round trip, invoice payment and event insertion is
    one step. What the server, the Lightning node, the disk and the scheduler do
    is chosen by the action, so a run is a start state and a sequence of actions,
    and a statement about all runs is a statement about all interleavings. */
module Protocol {
  import opened Wrappers
  import Budget
  import L402Header
  import PaymentHeader

  // ----- Data

  datatype Scheme = L402 | Payment

  type L402Offer = L402Header.Offer

  /** What a scheme recognised in a response, as its parser reads it. */
  datatype Challenge =
    | OfL402(offer: L402Offer)
    | OfPayment(charge: PaymentHeader.Challenge)
    | Illegible(unread: Scheme)               // the parser refuses it
  {
    function Scheme(): Scheme {
      match this
      case OfL402(_) => L402
      case OfPayment(_) => Payment
      case Illegible(unread) => unread
    }
  }

  /** A response of the base transport: whether it is a 402, and its
      WWW-Authenticate values. */
  datatype Response = Response(is402: bool, authenticate: seq<string>)

  /** What a scheme makes of the WWW-Authenticate values. */
  datatype Reading<T> = NoChallenge | BadChallenge | GoodChallenge(value: T)

  /** A proof of payment. `payment` is the position of the payment in the history;
      the Authorization value itself is a function of the other two fields. */
  datatype Credential = Credential(challenge: Challenge, preimage: string, payment: nat)

  datatype Token = Pending(offer: L402Offer) | Paid(proof: Credential)

  /** What happened so far: kept for stating properties, never read by a step. */
  datatype PaymentRecord = PaymentRecord(domain: string, challenge: Challenge, preimage: string)
  datatype Receipt = Receipt(domain: string, challenge: Challenge)
  datatype Sent = Sent(domain: string, proof: Credential)

  // ----- One request

  /** Where a `RoundTrip` call stands, with the local variables it still needs. */
  datatype Pc =
    | Start                                   // first getCachedCredential
    | SendCached(proof: Credential)           // base round trip with the cached credential
    | Invalidate(challenged: bool)            // InvalidateCredential, outside the lock
    | SendPlain                               // unauthenticated base round trip
    | TakeLock                                // getDomainLock
    | WaitLock                                // lock.Lock()
    | Recheck                                 // second getCachedCredential
    | SendFound(proof: Credential)            // retry with what the double-check found
    | SendFresh                               // re-issue for a fresh challenge
    | Validate(challenge: Challenge)          // parse and cost checks
    | RemoveStale(challenge: Challenge)       // L402: RemoveToken
    | StorePending(challenge: Challenge)      // L402: StorePending
    | Pay(challenge: Challenge)               // PayInvoice
    | RecordFailure(scheme: Scheme)           // RecordPaymentFailure
    | NoteFailure(scheme: Scheme)             // lastEventID.Store after a failure
    | Record(proof: Credential)               // RecordPaymentSuccess
    | NoteEvent(proof: Credential)            // lastEventID.Store after a success
    | StorePaid(proof: Credential)            // L402: StoreToken
    | ReadEvent(proof: Credential)            // LastEventID()
    | SendPaid(proof: Credential, event: int) // retry with the paid credential
    | Enrich(event: int)                      // enrichEvent
    | Unlock                                  // deferred lock.Unlock()
    | Done

  /** `inserted` is the local `eventID` of this call's own event, 0 before that.
      `missed` says that the double-check failed to read a paid token that was
      there; it is kept for stating properties and never read by a step. */
  datatype Thread = Thread(domain: string, pc: Pc, lock: nat, inserted: int, missed: bool)

  // ----- The whole system

  /** `dir` takes a domain to the directory that holds its token, None when the
      sanitizer refuses the domain; `l402` and `payment` are the schemes' detectors
      and parsers, and `timestamp` reads an `expires` parameter. */
  datatype Config = Config(
    schemes: seq<Scheme>, maxCostSat: int, logging: bool, sha256: string -> string,
    dir: string -> Option<string>,
    l402: seq<string> -> Reading<L402Offer>,
    payment: seq<string> -> Reading<PaymentHeader.Challenge>,
    timestamp: string -> Option<int>)

  /** What the process keeps in memory and loses when it dies. */
  datatype Memory = Memory(
    locks: map<string, nat>,     // domainLocks: the lock object of each domain, not directory
    nextLock: nat,               // the next lock object to be allocated
    holder: map<nat, nat>,       // which thread holds a locked lock object
    lastEvent: map<Scheme, int>) // lastEventID of each handler

  type Store = map<string, Token>

  datatype Disk = Disk(
    store: Store,                // the token in each directory
    nextEvent: int)              // the event table's next row id

  datatype History = History(
    payments: seq<PaymentRecord>,
    received: set<Receipt>,
    sent: seq<Sent>,
    prior: nat)                  // payments made before this run

  datatype World = World(mem: Memory, disk: Disk, hist: History)

  datatype State = State(threads: seq<Thread>, world: World)

  datatype Outcome =
    | Quiet
    | Lost                                    // the base transport returned an error
    | Reply(response: Response)
    | Read(ok: bool)                          // GetToken; a failure is not "no token"
    | Wrote(ok: bool)                         // a store or a removal took effect
    | Checked(now: int)                       // the clock when `expires` is looked at
    | PayResult(preimage: Option<string>)
    | Recorded(ok: bool)

  datatype Action =
    | Spawn(domain: string)
    | Crash
    | Step(thread: nat, outcome: Outcome)

  // ----- Lookups

  /** `DetectChallenge` of a scheme, with what its parser will find. */
  function Recognised(cfg: Config, scheme: Scheme, authenticate: seq<string>): (c: Option<Challenge>)
    ensures c.Some? ==> c.value.Scheme() == scheme
  {
    match scheme
    case L402 =>
      (match cfg.l402(authenticate)
       case NoChallenge => None
       case BadChallenge => Some(Illegible(L402))
       case GoodChallenge(offer) => Some(OfL402(offer)))
    case Payment =>
      (match cfg.payment(authenticate)
       case NoChallenge => None
       case BadChallenge => Some(Illegible(Payment))
       case GoodChallenge(charge) => Some(OfPayment(charge)))
  }

  /** `detectChallenge`: the first scheme, in order of preference, that recognises
      the response. */
  function Detect(cfg: Config, schemes: seq<Scheme>, r: Response): (c: Option<Challenge>)
    ensures c.Some? ==> r.is402 && c.value.Scheme() in schemes
                        && Recognised(cfg, c.value.Scheme(), r.authenticate) == c
    ensures r.is402 && c.None? ==> forall scheme :: scheme in schemes ==> Recognised(cfg, scheme, r.authenticate).None?
  {
    if !r.is402 || schemes == [] then None
    else if Recognised(cfg, schemes[0], r.authenticate).Some? then Recognised(cfg, schemes[0], r.authenticate)
    else Detect(cfg, schemes[1..], r)
  }

  predicate IsPaid(store: Store, dir: Option<string>) {
    dir.Some? && dir.value in store && store[dir.value].Paid?
  }

  /** `getCachedCredential`: only the L402 scheme ever has one, and only for a
      paid token that it can read; an error counts as having none. */
  function Cached(schemes: seq<Scheme>, store: Store, dir: Option<string>, readable: bool): (c: Option<Credential>)
    ensures c.Some? <==> L402 in schemes && readable && IsPaid(store, dir)
    ensures c.Some? ==> c.value == store[dir.value].proof
  {
    if schemes == [] then None
    else if schemes[0] == L402 && readable && IsPaid(store, dir) then Some(store[dir.value].proof)
    else Cached(schemes[1..], store, dir, readable)
  }

  function LastEvent(m: Memory, scheme: Scheme): int {
    if scheme in m.lastEvent then m.lastEvent[scheme] else 0
  }

  /** Whether a handler goes on to pay, the clock showing `now`. */
  predicate Accepts(cfg: Config, c: Challenge, now: int) {
    match c
    case OfL402(offer) => Budget.L402Verdict(offer.invoice, cfg.maxCostSat).Payable?
    case OfPayment(charge) =>
      Budget.PaymentVerdict(charge, Budget.ExpiryAt(charge.expires, cfg.timestamp, now), cfg.maxCostSat).Payable?
    case Illegible(_) => false
  }

  /** The Payment handler's check of the preimage against a declared hash. */
  predicate HashMatches(cfg: Config, c: Challenge, preimage: string) {
    c.OfPayment? && c.charge.request.Some? && c.charge.request.value.methodDetails.Some?
    && c.charge.request.value.methodDetails.value.paymentHash != ""
    ==> cfg.sha256(preimage) == c.charge.request.value.methodDetails.value.paymentHash
  }

  // ----- Steps

  /** Which outcomes an operation can have. A domain without a directory cannot be
      read or stored. */
  predicate Fits(cfg: Config, th: Thread, o: Outcome) {
    && ((o.Read? || o.Wrote?) && o.ok ==> cfg.dir(th.domain).Some?)
    && FitsPc(cfg, th.pc, o)
  }

  predicate FitsPc(cfg: Config, pc: Pc, o: Outcome) {
    match pc
    case Start => o.Read?
    case Recheck => o.Read?
    case SendCached(_) => o.Lost? || o.Reply?
    case SendPlain => o.Lost? || o.Reply?
    case SendFound(_) => o.Lost? || o.Reply?
    case SendFresh => o.Lost? || o.Reply?
    case SendPaid(_, _) => o.Lost? || o.Reply?
    case Invalidate(_) => o.Wrote?
    case RemoveStale(_) => o.Wrote?
    case StorePending(_) => o.Wrote?
    case StorePaid(_) => o.Wrote?
    case Validate(_) => o.Checked?
    case Pay(_) => o.PayResult?
    case Record(_) => o.Recorded? && (o.ok ==> cfg.logging)
    case RecordFailure(_) => o.Recorded? && (o.ok ==> cfg.logging)
    case Done => false
    case _ => o.Quiet?
  }

  predicate Enabled(cfg: Config, s: State, a: Action) {
    match a
    case Spawn(_) => true
    case Crash => true
    case Step(t, o) =>
      && t < |s.threads|
      && Fits(cfg, s.threads[t], o)
      && Ready(s.threads[t], s.world)
  }

  /** A step waits only for its lock. */
  predicate Ready(th: Thread, w: World) {
    th.pc.WaitLock? ==> th.lock !in w.mem.holder
  }

  function AfterValidate(c: Challenge, accepted: bool): Pc {
    if !accepted then Unlock else if c.OfL402? then RemoveStale(c) else Pay(c)
  }

  function AfterRecord(proof: Credential): Pc {
    if proof.challenge.OfL402? then StorePaid(proof) else ReadEvent(proof)
  }

  function Kill(threads: seq<Thread>): (r: seq<Thread>)
    ensures |r| == |threads|
    ensures forall t :: 0 <= t < |r| ==> r[t] == threads[t].(pc := Done)
  {
    seq(|threads|, t requires 0 <= t < |threads| => threads[t].(pc := Done))
  }

  function Apply(cfg: Config, s: State, a: Action): State
    requires Enabled(cfg, s, a)
  {
    match a
    case Spawn(d) => s.(threads := s.threads + [Thread(d, Start, 0, 0, false)])
    case Crash =>
      // The process dies; only what is on disk survives.
      var mem := Memory(map[], s.world.mem.nextLock, map[], map[]);
      State(Kill(s.threads), s.world.(mem := mem))
    case Step(t, o) =>
      var (th, w) := Advance(cfg, t, s.threads[t], s.world, o);
      State(s.threads[t := th], w)
  }

  /** One step of thread `t`: its next local state and the next shared state. */
  function Advance(cfg: Config, t: nat, th: Thread, w: World, o: Outcome): (Thread, World)
    requires Fits(cfg, th, o)
  {
    var d, dir := th.domain, cfg.dir(th.domain);
    var Disk(store, nextEvent) := w.disk;
    match th.pc
    case Start =>
      var c := Cached(cfg.schemes, store, dir, o.ok);
      (th.(pc := if c.Some? then SendCached(c.value) else SendPlain), w)
    case SendCached(proof) =>
      (th.(pc := if o.Lost? || !o.response.is402 then Done
                 else Invalidate(Detect(cfg, cfg.schemes, o.response).Some?)),
       Send(w, d, proof))
    case Invalidate(challenged) =>
      (th.(pc := if challenged then TakeLock else SendPlain),
       if o.ok then SetStore(w, Without(store, dir)) else w)
    case SendPlain =>
      (th.(pc := if o.Lost? || Detect(cfg, cfg.schemes, o.response).None? then Done else TakeLock), w)
    case TakeLock =>
      if d in w.mem.locks then (th.(pc := WaitLock, lock := w.mem.locks[d]), w)
      else
        var l := w.mem.nextLock;
        (th.(pc := WaitLock, lock := l),
         w.(mem := w.mem.(locks := w.mem.locks[d := l], nextLock := l + 1)))
    case WaitLock =>
      (th.(pc := Recheck), w.(mem := w.mem.(holder := w.mem.holder[th.lock := t])))
    case Recheck =>
      var c := Cached(cfg.schemes, store, dir, o.ok);
      (th.(pc := if c.Some? then SendFound(c.value) else SendFresh,
           missed := !o.ok && L402 in cfg.schemes && IsPaid(store, dir)), w)
    case SendFound(proof) =>
      (th.(pc := Unlock), Send(w, d, proof))
    case SendFresh =>
      var c := if o.Lost? then None else Detect(cfg, cfg.schemes, o.response);
      if c.None? then (th.(pc := Unlock), w)
      else (th.(pc := Validate(c.value)),
            w.(hist := w.hist.(received := w.hist.received + {Receipt(d, c.value)})))
    case Validate(c) =>
      (th.(pc := AfterValidate(c, Accepts(cfg, c, o.now))), w)
    case RemoveStale(c) =>
      (th.(pc := StorePending(c)), if o.ok then SetStore(w, Without(store, dir)) else w)
    case StorePending(c) =>
      if o.ok && c.OfL402? then (th.(pc := Pay(c)), SetStore(w, With(store, dir, Pending(c.offer))))
      else (th.(pc := Unlock), w)
    case Pay(c) =>
      if o.preimage.None? then (th.(pc := RecordFailure(c.Scheme())), w)
      else
        var p := o.preimage.value;
        (th.(pc := if HashMatches(cfg, c, p) then Record(Credential(c, p, |w.hist.payments|)) else Unlock),
         w.(hist := w.hist.(payments := w.hist.payments + [PaymentRecord(d, c, p)])))
    case RecordFailure(scheme) =>
      if o.ok then (th.(pc := NoteFailure(scheme), inserted := nextEvent), InsertEvent(w))
      else (th.(pc := Unlock), w)
    case NoteFailure(scheme) =>
      (th.(pc := Unlock), SetLastEvent(w, scheme, th.inserted))
    case Record(proof) =>
      if o.ok then (th.(pc := NoteEvent(proof), inserted := nextEvent), InsertEvent(w))
      else (th.(pc := AfterRecord(proof)), w)
    case NoteEvent(proof) =>
      (th.(pc := AfterRecord(proof)), SetLastEvent(w, proof.challenge.Scheme(), th.inserted))
    case StorePaid(proof) =>
      if o.ok then (th.(pc := ReadEvent(proof)), SetStore(w, With(store, dir, Paid(proof))))
      else (th.(pc := Unlock), w)
    case ReadEvent(proof) =>
      (th.(pc := SendPaid(proof, LastEvent(w.mem, proof.challenge.Scheme()))), w)
    case SendPaid(proof, event) =>
      (th.(pc := if o.Lost? then Unlock else Enrich(event)), Send(w, d, proof))
    case Enrich(event) => (th.(pc := Unlock), w)
    case Unlock =>
      (th.(pc := Done), w.(mem := w.mem.(holder := w.mem.holder - {th.lock})))
  }

  function Send(w: World, d: string, proof: Credential): World {
    w.(hist := w.hist.(sent := w.hist.sent + [Sent(d, proof)]))
  }

  function SetStore(w: World, store: Store): World { w.(disk := w.disk.(store := store)) }

  function Without(store: Store, dir: Option<string>): Store {
    if dir.Some? then store - {dir.value} else store
  }

  function With(store: Store, dir: Option<string>, token: Token): Store {
    if dir.Some? then store[dir.value := token] else store
  }

  function InsertEvent(w: World): World { w.(disk := w.disk.(nextEvent := w.disk.nextEvent + 1)) }

  function SetLastEvent(w: World, scheme: Scheme, id: int): World {
    w.(mem := w.mem.(lastEvent := w.mem.lastEvent[scheme := id]))
  }

  // ----- Runs

  ghost predicate Legal(cfg: Config, s: State, acts: seq<Action>)
    decreases |acts|
  {
    acts == [] || (Enabled(cfg, s, acts[0]) && Legal(cfg, Apply(cfg, s, acts[0]), acts[1..]))
  }

  ghost function Run(cfg: Config, s: State, acts: seq<Action>): State
    requires Legal(cfg, s, acts)
    decreases |acts|
  {
    if acts == [] then s else Run(cfg, Apply(cfg, s, acts[0]), acts[1..])
  }

  lemma {:induction false} RunAppend(cfg: Config, s: State, acts: seq<Action>, a: Action)
    requires Legal(cfg, s, acts) && Enabled(cfg, Run(cfg, s, acts), a)
    ensures Legal(cfg, s, acts + [a]) && Run(cfg, s, acts + [a]) == Apply(cfg, Run(cfg, s, acts), a)
    decreases |acts|
  {
    if acts == [] {
      assert acts + [a] == [a];
      assert [a][1..] == [];
    } else {
      RunAppend(cfg, Apply(cfg, s, acts[0]), acts[1..], a);
      assert (acts + [a])[1..] == acts[1..] + [a];
    }
  }

  /** A freshly started process. The store may hold tokens of earlier processes,
      each paid one with the payment that bought it. */
  ghost predicate Init(cfg: Config, s: State) {
    && s.threads == []
    && s.world.mem.locks == map[] && s.world.mem.holder == map[] && s.world.mem.lastEvent == map[]
    && s.world.disk.nextEvent >= 1
    && s.world.hist.sent == [] && s.world.hist.prior == |s.world.hist.payments|
    && StoreProven(cfg, s.world) && PaymentsReceived(s.world.hist)
  }

  /** Two domains whose tokens are the same file. */
  predicate SharesDir(cfg: Config, d: string, e: string) {
    d == e || (cfg.dir(d).Some? && cfg.dir(d) == cfg.dir(e))
  }

  /** A credential that a recorded payment bought. */
  ghost predicate Backed(h: History, proof: Credential) {
    && proof.payment < |h.payments|
    && h.payments[proof.payment].challenge == proof.challenge
    && h.payments[proof.payment].preimage == proof.preimage
  }

  /** A credential in the hands of a request to `domain`: bought from that domain,
      or, through the token store, from one that shares its directory. */
  ghost predicate Proven(cfg: Config, h: History, domain: string, proof: Credential) {
    && Backed(h, proof)
    && SharesDir(cfg, h.payments[proof.payment].domain, domain)
    && (proof.challenge.OfPayment? ==> h.payments[proof.payment].domain == domain)
    && Legible(cfg, proof.challenge)
  }

  /** Some headers are read as this challenge. */
  ghost predicate Legible(cfg: Config, c: Challenge) {
    exists authenticate :: Recognised(cfg, c.Scheme(), authenticate) == Some(c)
  }

  ghost predicate StoreProven(cfg: Config, w: World) {
    forall name :: IsPaid(w.disk.store, Some(name)) ==>
      var proof := w.disk.store[name].proof;
      && proof.challenge.OfL402? && Legible(cfg, proof.challenge) && Backed(w.hist, proof)
      && cfg.dir(w.hist.payments[proof.payment].domain) == Some(name)
  }

  /** Every payment answered a challenge received from the domain it is booked to. */
  ghost predicate PaymentsReceived(h: History) {
    forall i :: 0 <= i < |h.payments| ==> Receipt(h.payments[i].domain, h.payments[i].challenge) in h.received
  }
}
