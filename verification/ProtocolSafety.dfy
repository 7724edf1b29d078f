/** What every reachable state of the payment protocol satisfies. */
module ProtocolSafety {
  import opened Wrappers
  import opened Protocol
  import Budget
  import Invoice
  import PaymentHeader
  import Text

  // ----- Locks

  /** Past `lock.Lock()` and before `lock.Unlock()` returns. */
  predicate Holding(pc: Pc) {
    match pc
    case Start => false
    case SendCached(_) => false
    case Invalidate(_) => false
    case SendPlain => false
    case TakeLock => false
    case WaitLock => false
    case Done => false
    case _ => true
  }

  predicate KnowsLock(pc: Pc) { pc.WaitLock? || Holding(pc) }

  ghost predicate TableInv(m: Memory) {
    && (forall d :: d in m.locks ==> m.locks[d] < m.nextLock)
    && (forall d, e :: d in m.locks && e in m.locks && m.locks[d] == m.locks[e] ==> d == e)
  }

  /** A thread that knows its lock knows the table's entry for its domain, and one
      past the lock is its holder. */
  ghost predicate ThreadLockInv(t: nat, th: Thread, m: Memory) {
    && (KnowsLock(th.pc) ==> th.domain in m.locks && m.locks[th.domain] == th.lock)
    && (Holding(th.pc) ==> th.lock in m.holder && m.holder[th.lock] == t)
  }

  ghost predicate LockInv(s: State) {
    && TableInv(s.world.mem)
    && (forall t :: 0 <= t < |s.threads| ==> ThreadLockInv(t, s.threads[t], s.world.mem))
    && (forall l :: l in s.world.mem.holder ==>
          var t := s.world.mem.holder[l];
          t < |s.threads| && Holding(s.threads[t].pc) && s.threads[t].lock == l)
  }

  /** At most one request per domain is past its lock. */
  lemma Exclusive(s: State, t: nat, u: nat)
    requires LockInv(s) && t < |s.threads| && u < |s.threads|
    requires Holding(s.threads[t].pc) && Holding(s.threads[u].pc)
    requires s.threads[t].domain == s.threads[u].domain
    ensures t == u
  {
    assert ThreadLockInv(t, s.threads[t], s.world.mem) && ThreadLockInv(u, s.threads[u], s.world.mem);
  }

  /** How one step of a thread may change the lock state. */
  ghost predicate LockChange(t: nat, th: Thread, m: Memory, th': Thread, m': Memory) {
    && th'.domain == th.domain
    && if th.pc.TakeLock? then
         && th'.pc == WaitLock && m'.holder == m.holder
         && th.domain in m'.locks && m'.locks[th.domain] == th'.lock
         && (if th.domain in m.locks then m'.locks == m.locks && m'.nextLock == m.nextLock
             else m'.locks == m.locks[th.domain := m.nextLock] && m'.nextLock == m.nextLock + 1)
       else
         && m'.locks == m.locks && m'.nextLock == m.nextLock && th'.lock == th.lock
         && (if th.pc.WaitLock? then th'.pc == Recheck && m'.holder == m.holder[th.lock := t]
             else if th.pc.Unlock? then th'.pc == Done && m'.holder == m.holder - {th.lock}
             else m'.holder == m.holder && KnowsLock(th'.pc) == Holding(th'.pc) == Holding(th.pc))
  }

  lemma LockEffect(cfg: Config, t: nat, th: Thread, w: World, o: Outcome)
    requires Fits(cfg, th, o)
    ensures var (th', w') := Advance(cfg, t, th, w, o); LockChange(t, th, w.mem, th', w'.mem)
  {
    if !Holding(th.pc) {
      LockUnlocked(cfg, t, th, w, o);
    } else if th.pc.Validate? {
      LockValidating(cfg, t, th, w, o);
    } else {
      LockLocked(cfg, t, th, w, o);
    }
  }

  lemma LockUnlocked(cfg: Config, t: nat, th: Thread, w: World, o: Outcome)
    requires Fits(cfg, th, o) && !Holding(th.pc)
    ensures var (th', w') := Advance(cfg, t, th, w, o); LockChange(t, th, w.mem, th', w'.mem)
  {}

  lemma LockValidating(cfg: Config, t: nat, th: Thread, w: World, o: Outcome)
    requires Fits(cfg, th, o) && th.pc.Validate?
    ensures var (th', w') := Advance(cfg, t, th, w, o); LockChange(t, th, w.mem, th', w'.mem)
  {}

  lemma LockLocked(cfg: Config, t: nat, th: Thread, w: World, o: Outcome)
    requires Fits(cfg, th, o) && Holding(th.pc) && !th.pc.Validate?
    ensures var (th', w') := Advance(cfg, t, th, w, o); LockChange(t, th, w.mem, th', w'.mem)
  {}

  lemma LockInvStep(cfg: Config, s: State, a: Action)
    requires LockInv(s) && Enabled(cfg, s, a)
    ensures LockInv(Apply(cfg, s, a))
  {
    if a.Step? {
      var t, th := a.thread, s.threads[a.thread];
      LockEffect(cfg, t, th, s.world, a.outcome);
      var (th', w') := Advance(cfg, t, th, s.world, a.outcome);
      ThreadLockStep(s, t, th', w'.mem);
      HolderStep(s, t, th', w'.mem);
    }
  }

  lemma ThreadLockStep(s: State, t: nat, th': Thread, m': Memory)
    requires LockInv(s) && t < |s.threads| && LockChange(t, s.threads[t], s.world.mem, th', m')
    requires Ready(s.threads[t], s.world)
    ensures TableInv(m')
    ensures var ts := s.threads[t := th']; forall u :: 0 <= u < |ts| ==> ThreadLockInv(u, ts[u], m')
  {
    var th, m, ts := s.threads[t], s.world.mem, s.threads[t := th'];
    assert ThreadLockInv(t, th, m);
    forall u | 0 <= u < |ts|
      ensures ThreadLockInv(u, ts[u], m')
    {
      assert ThreadLockInv(u, s.threads[u], m);
    }
  }

  lemma HolderStep(s: State, t: nat, th': Thread, m': Memory)
    requires LockInv(s) && t < |s.threads| && LockChange(t, s.threads[t], s.world.mem, th', m')
    ensures forall l :: l in m'.holder ==>
              var u := m'.holder[l];
              u < |s.threads| && Holding(s.threads[t := th'][u].pc) && s.threads[t := th'][u].lock == l
  {
    assert ThreadLockInv(t, s.threads[t], s.world.mem);
  }

  /** Within a process, a domain's lock object never changes. */
  lemma LockIsForEver(cfg: Config, s: State, a: Action, domain: string)
    requires Enabled(cfg, s, a) && !a.Crash? && domain in s.world.mem.locks
    ensures domain in Apply(cfg, s, a).world.mem.locks
    ensures Apply(cfg, s, a).world.mem.locks[domain] == s.world.mem.locks[domain]
  {
    if a.Step? {
      LockEffect(cfg, a.thread, s.threads[a.thread], s.world, a.outcome);
    }
  }

  /** So within a process any two requests for one domain use one lock object,
      however far apart they are. */
  lemma {:induction false} SameLock(cfg: Config, s: State, acts: seq<Action>, t: nat, u: nat)
    requires Inv(cfg, s) && Legal(cfg, s, acts) && Crash !in acts
    requires t < |s.threads| && KnowsLock(s.threads[t].pc)
    requires var s' := Run(cfg, s, acts);
      u < |s'.threads| && KnowsLock(s'.threads[u].pc) && s'.threads[u].domain == s.threads[t].domain
    ensures Run(cfg, s, acts).threads[u].lock == s.threads[t].lock
  {
    InvRun(cfg, s, acts);
    assert ThreadLockInv(t, s.threads[t], s.world.mem);
    assert ThreadLockInv(u, Run(cfg, s, acts).threads[u], Run(cfg, s, acts).world.mem);
    LockKept(cfg, s, acts, s.threads[t].domain);
  }

  lemma {:induction false} LockKept(cfg: Config, s: State, acts: seq<Action>, domain: string)
    requires Legal(cfg, s, acts) && Crash !in acts && domain in s.world.mem.locks
    ensures var m := Run(cfg, s, acts).world.mem; domain in m.locks && m.locks[domain] == s.world.mem.locks[domain]
    decreases |acts|
  {
    if acts != [] {
      LockIsForEver(cfg, s, acts[0], domain);
      LockKept(cfg, Apply(cfg, s, acts[0]), acts[1..], domain);
    }
  }

  // ----- The payment window

  /** Between the double-check and the final store, on the way to an L402 payment:
      before and after this request has written the entry itself. */
  predicate BeforeOwnWrite(cfg: Config, pc: Pc) {
    match pc
    case SendFresh => L402 in cfg.schemes
    case Validate(c) => c.OfL402?
    case RemoveStale(c) => c.OfL402?
    case StorePending(c) => c.OfL402?
    case _ => false
  }

  predicate AfterOwnWrite(pc: Pc) {
    match pc
    case Pay(c) => c.OfL402?
    case RecordFailure(scheme) => scheme == L402
    case NoteFailure(scheme) => scheme == L402
    case Record(proof) => proof.challenge.OfL402?
    case NoteEvent(proof) => proof.challenge.OfL402?
    case StorePaid(proof) => proof.challenge.OfL402?
    case _ => false
  }

  predicate InWindow(cfg: Config, pc: Pc) { BeforeOwnWrite(cfg, pc) || AfterOwnWrite(pc) }

  predicate PaidFor(cfg: Config, s: State, domain: string) { IsPaid(s.world.disk.store, cfg.dir(domain)) }

  /** Only L402 challenges lead to the steps on the store, and only legible ones to
      the payer. */
  predicate KindOk(pc: Pc) {
    match pc
    case RemoveStale(c) => c.OfL402?
    case StorePending(c) => c.OfL402?
    case Pay(c) => !c.Illegible?
    case StorePaid(proof) => proof.challenge.OfL402?
    case _ => true
  }

  /** A request in the window finds its entry not paid, unless its double-check
      missed a paid token that it has not overwritten yet. */
  predicate WindowOk(cfg: Config, th: Thread, store: Store) {
    && KindOk(th.pc)
    && (InWindow(cfg, th.pc) && IsPaid(store, cfg.dir(th.domain)) ==> BeforeOwnWrite(cfg, th.pc) && th.missed)
  }

  ghost predicate WindowInv(cfg: Config, s: State) {
    forall t :: 0 <= t < |s.threads| ==> WindowOk(cfg, s.threads[t], s.world.disk.store)
  }

  /** No two of the domains share a directory. */
  ghost predicate Separate(cfg: Config, domains: iset<string>) {
    forall d, e :: d in domains && e in domains && SharesDir(cfg, d, e) ==> d == e
  }

  ghost predicate Within(s: State, domains: iset<string>) {
    forall t :: 0 <= t < |s.threads| ==> s.threads[t].domain in domains
  }

  /** Only requests to these domains begin. */
  ghost predicate Confined(acts: seq<Action>, domains: iset<string>) {
    forall i :: 0 <= i < |acts| && acts[i].Spawn? ==> acts[i].domain in domains
  }

  /** How one step of a thread may change what is paid. */
  lemma WindowEffect(cfg: Config, t: nat, th: Thread, w: World, o: Outcome)
    requires Fits(cfg, th, o) && WindowOk(cfg, th, w.disk.store)
    ensures var (th', w') := Advance(cfg, t, th, w, o);
      && th'.domain == th.domain && WindowOk(cfg, th', w'.disk.store)
      && (!th.pc.StorePaid? ==> w'.disk.store == w.disk.store || !IsPaid(w'.disk.store, cfg.dir(th.domain)))
      && (th.pc.StorePaid? ==> !InWindow(cfg, th'.pc))
  {
    if !Holding(th.pc) {
      WindowUnlocked(cfg, t, th, w, o);
    } else if th.pc.Validate? {
      WindowValidating(cfg, t, th, w, o);
    } else if o.Wrote? {
      WindowWriting(cfg, t, th, w, o);
    } else {
      WindowLocked(cfg, t, th, w, o);
    }
  }

  lemma WindowUnlocked(cfg: Config, t: nat, th: Thread, w: World, o: Outcome)
    requires Fits(cfg, th, o) && WindowOk(cfg, th, w.disk.store)
    requires !Holding(th.pc)
    ensures var (th', w') := Advance(cfg, t, th, w, o);
      && th'.domain == th.domain && WindowOk(cfg, th', w'.disk.store)
      && (!th.pc.StorePaid? ==> w'.disk.store == w.disk.store || !IsPaid(w'.disk.store, cfg.dir(th.domain)))
      && (th.pc.StorePaid? ==> !InWindow(cfg, th'.pc))
  {}

  lemma WindowValidating(cfg: Config, t: nat, th: Thread, w: World, o: Outcome)
    requires Fits(cfg, th, o) && WindowOk(cfg, th, w.disk.store)
    requires th.pc.Validate?
    ensures var (th', w') := Advance(cfg, t, th, w, o);
      && th'.domain == th.domain && WindowOk(cfg, th', w'.disk.store)
      && (!th.pc.StorePaid? ==> w'.disk.store == w.disk.store || !IsPaid(w'.disk.store, cfg.dir(th.domain)))
      && (th.pc.StorePaid? ==> !InWindow(cfg, th'.pc))
  {}

  lemma WindowWriting(cfg: Config, t: nat, th: Thread, w: World, o: Outcome)
    requires Fits(cfg, th, o) && WindowOk(cfg, th, w.disk.store)
    requires Holding(th.pc) && o.Wrote?
    ensures var (th', w') := Advance(cfg, t, th, w, o);
      && th'.domain == th.domain && WindowOk(cfg, th', w'.disk.store)
      && (!th.pc.StorePaid? ==> w'.disk.store == w.disk.store || !IsPaid(w'.disk.store, cfg.dir(th.domain)))
      && (th.pc.StorePaid? ==> !InWindow(cfg, th'.pc))
  {}

  lemma WindowLocked(cfg: Config, t: nat, th: Thread, w: World, o: Outcome)
    requires Fits(cfg, th, o) && WindowOk(cfg, th, w.disk.store)
    requires Holding(th.pc) && !th.pc.Validate? && !o.Wrote?
    ensures var (th', w') := Advance(cfg, t, th, w, o);
      && th'.domain == th.domain && WindowOk(cfg, th', w'.disk.store)
      && (!th.pc.StorePaid? ==> w'.disk.store == w.disk.store || !IsPaid(w'.disk.store, cfg.dir(th.domain)))
      && (th.pc.StorePaid? ==> !InWindow(cfg, th'.pc))
  {}

  /** Only the entry in the thread's own directory changes. */
  lemma OtherEntries(cfg: Config, t: nat, th: Thread, w: World, o: Outcome, dir: Option<string>)
    requires Fits(cfg, th, o) && (dir != cfg.dir(th.domain) || dir.None?)
    ensures IsPaid(Advance(cfg, t, th, w, o).1.disk.store, dir) == IsPaid(w.disk.store, dir)
  {}

  lemma WindowOfOther(cfg: Config, s: State, t: nat, o: Outcome, u: nat, domains: iset<string>)
    requires LockInv(s) && WindowInv(cfg, s) && Enabled(cfg, s, Step(t, o))
    requires Separate(cfg, domains) && Within(s, domains) && u < |s.threads| && u != t
    ensures WindowOk(cfg, s.threads[u], Apply(cfg, s, Step(t, o)).world.disk.store)
  {
    var th, other := s.threads[t], s.threads[u];
    assert WindowOk(cfg, th, s.world.disk.store) && WindowOk(cfg, other, s.world.disk.store);
    if SharesDir(cfg, th.domain, other.domain) {
      WindowEffect(cfg, t, th, s.world, o);
      if InWindow(cfg, other.pc) && th.pc.StorePaid? { Exclusive(s, t, u); }
    } else {
      OtherEntries(cfg, t, th, s.world, o, cfg.dir(other.domain));
    }
  }

  lemma WindowInvStep(cfg: Config, s: State, a: Action, domains: iset<string>)
    requires LockInv(s) && WindowInv(cfg, s) && Enabled(cfg, s, a)
    requires Separate(cfg, domains) && Within(s, domains)
    ensures WindowInv(cfg, Apply(cfg, s, a))
  {
    if a.Step? {
      var t, s' := a.thread, Apply(cfg, s, a);
      assert WindowOk(cfg, s.threads[t], s.world.disk.store);
      WindowEffect(cfg, t, s.threads[t], s.world, a.outcome);
      forall u | 0 <= u < |s'.threads|
        ensures WindowOk(cfg, s'.threads[u], s'.world.disk.store)
      {
        if u != t { WindowOfOther(cfg, s, t, a.outcome, u, domains); }
      }
    }
  }

  // ----- Provenance

  /** Some response of a server is detected as this challenge. */
  ghost predicate Receivable(cfg: Config, c: Challenge) {
    exists r :: Detect(cfg, cfg.schemes, r) == Some(c)
  }

  /** The handler accepts the challenge at some moment. */
  predicate Acceptable(cfg: Config, c: Challenge) {
    match c
    case OfL402(offer) => Budget.L402Verdict(offer.invoice, cfg.maxCostSat).Payable?
    case OfPayment(charge) =>
      && Budget.Dated(charge.expires, cfg.timestamp)
      && Budget.PaymentVerdict(charge, Budget.NoExpiry, cfg.maxCostSat).Payable?
    case Illegible(_) => false
  }

  lemma AcceptableExact(cfg: Config, c: Challenge)
    ensures Acceptable(cfg, c) <==> exists now :: Accepts(cfg, c, now)
  {
    if Acceptable(cfg, c) {
      var now := AcceptedAt(cfg, c);
      assert Accepts(cfg, c, now);
    }
  }

  /** Acceptance and the clock: a Payment challenge is accepted exactly when it would
      be without an `expires`, and either has none or one that names a moment which is
      not past. */
  lemma AcceptedInTime(cfg: Config, charge: PaymentHeader.Challenge, now: int)
    ensures Accepts(cfg, OfPayment(charge), now)
            <==> && Accepts(cfg, OfPayment(charge.(expires := "")), now)
                 && (charge.expires == "" || (cfg.timestamp(charge.expires).Some?
                                              && now <= cfg.timestamp(charge.expires).value))
  {}

  /** The moment that `expires` names, if any, is early enough. */
  lemma AcceptedAt(cfg: Config, c: Challenge) returns (now: int)
    requires Acceptable(cfg, c)
    ensures Accepts(cfg, c, now)
  {
    now := if c.OfPayment? && c.charge.expires != "" then cfg.timestamp(c.charge.expires).value else 0;
  }

  /** Payments to the domain are possible under the scheme. */
  predicate Chargeable(cfg: Config, domain: string, scheme: Scheme) {
    scheme in cfg.schemes && (scheme == L402 ==> cfg.dir(domain).Some?)
  }

  /** The domain can bring a request to the call of the payer with this challenge. */
  ghost predicate PayableAt(cfg: Config, domain: string, c: Challenge) {
    Receivable(cfg, c) && Acceptable(cfg, c) && Chargeable(cfg, domain, c.Scheme())
  }

  ghost predicate Billable(cfg: Config, domain: string, scheme: Scheme) {
    exists c: Challenge :: c.Scheme() == scheme && PayableAt(cfg, domain, c)
  }

  /** A credential that the request itself bought. */
  ghost predicate Own(cfg: Config, th: Thread, h: History, proof: Credential) {
    && Backed(h, proof) && h.payments[proof.payment].domain == th.domain
    && PayableAt(cfg, th.domain, proof.challenge) && HashMatches(cfg, proof.challenge, proof.preimage)
  }

  /** A credential that the request found in the store. */
  ghost predicate Stored(cfg: Config, th: Thread, h: History, proof: Credential) {
    Proven(cfg, h, th.domain, proof) && proof.challenge.OfL402? && L402 in cfg.schemes
  }

  ghost predicate Offered(cfg: Config, th: Thread, h: History, c: Challenge) {
    Receipt(th.domain, c) in h.received && Receivable(cfg, c) && Legible(cfg, c)
  }

  /** What the local variables of a call stand for. */
  ghost predicate LocalInv(cfg: Config, th: Thread, h: History) {
    match th.pc
    case SendCached(proof) => Stored(cfg, th, h, proof)
    case SendFound(proof) => Stored(cfg, th, h, proof)
    case Validate(c) => Offered(cfg, th, h, c)
    case RemoveStale(c) => Offered(cfg, th, h, c) && Acceptable(cfg, c) && c.OfL402?
    case StorePending(c) => Offered(cfg, th, h, c) && Acceptable(cfg, c) && c.OfL402?
    case Pay(c) => Offered(cfg, th, h, c) && PayableAt(cfg, th.domain, c)
    case RecordFailure(scheme) => Billable(cfg, th.domain, scheme)
    case NoteFailure(scheme) => Billable(cfg, th.domain, scheme)
    case Record(proof) => Own(cfg, th, h, proof)
    case NoteEvent(proof) => Own(cfg, th, h, proof)
    case StorePaid(proof) => Own(cfg, th, h, proof) && proof.challenge.OfL402?
    case ReadEvent(proof) => Own(cfg, th, h, proof)
    case SendPaid(proof, _) => Own(cfg, th, h, proof)
    case _ => true
  }

  /** The preimage of a Payment credential hashes to what its challenge declares. */
  predicate KeepsHash(cfg: Config, proof: Credential) {
    proof.challenge.OfPayment? && proof.challenge.charge.request.Some?
    && proof.challenge.charge.request.value.methodDetails.Some? ==>
      var declared := proof.challenge.charge.request.value.methodDetails.value.paymentHash;
      declared == "" || cfg.sha256(proof.preimage) == declared
  }

  ghost predicate HistoryInv(cfg: Config, h: History) {
    && PaymentsReceived(h)
    && (forall i :: 0 <= i < |h.sent| ==>
          && Proven(cfg, h, h.sent[i].domain, h.sent[i].proof)
          && h.sent[i].proof.challenge.Scheme() in cfg.schemes && !h.sent[i].proof.challenge.Illegible?
          && KeepsHash(cfg, h.sent[i].proof))
    && h.prior <= |h.payments|
    && (forall i :: h.prior <= i < |h.payments| ==> PayableAt(cfg, h.payments[i].domain, h.payments[i].challenge))
  }

  ghost predicate ProofInv(cfg: Config, s: State) {
    && HistoryInv(cfg, s.world.hist)
    && StoreProven(cfg, s.world)
    && (forall t :: 0 <= t < |s.threads| ==> LocalInv(cfg, s.threads[t], s.world.hist))
  }

  ghost predicate Grows(h: History, h': History) {
    h.payments <= h'.payments && h.received <= h'.received
  }

  lemma HistoryGrows(cfg: Config, t: nat, th: Thread, w: World, o: Outcome)
    requires Fits(cfg, th, o)
    ensures Grows(w.hist, Advance(cfg, t, th, w, o).1.hist)
    ensures Advance(cfg, t, th, w, o).1.hist.prior == w.hist.prior
  {}

  lemma LocalInvGrows(cfg: Config, th: Thread, h: History, h': History)
    requires LocalInv(cfg, th, h) && Grows(h, h')
    ensures LocalInv(cfg, th, h')
  {}

  lemma LocalInvStep(cfg: Config, t: nat, th: Thread, w: World, o: Outcome)
    requires Fits(cfg, th, o) && LocalInv(cfg, th, w.hist) && StoreProven(cfg, w)
    ensures LocalInv(cfg, Advance(cfg, t, th, w, o).0, Advance(cfg, t, th, w, o).1.hist)
  {
    if !Holding(th.pc) {
      LocalUnlocked(cfg, t, th, w, o);
    } else if th.pc.Validate? {
      LocalValidating(cfg, t, th, w, o);
    } else if th.pc.SendFresh? || th.pc.Pay? {
      LocalBuying(cfg, t, th, w, o);
    } else {
      LocalLocked(cfg, t, th, w, o);
    }
  }

  lemma LocalUnlocked(cfg: Config, t: nat, th: Thread, w: World, o: Outcome)
    requires Fits(cfg, th, o) && LocalInv(cfg, th, w.hist) && StoreProven(cfg, w)
    requires !Holding(th.pc)
    ensures LocalInv(cfg, Advance(cfg, t, th, w, o).0, Advance(cfg, t, th, w, o).1.hist)
  {}

  lemma LocalValidating(cfg: Config, t: nat, th: Thread, w: World, o: Outcome)
    requires Fits(cfg, th, o) && LocalInv(cfg, th, w.hist) && StoreProven(cfg, w)
    requires th.pc.Validate?
    ensures LocalInv(cfg, Advance(cfg, t, th, w, o).0, Advance(cfg, t, th, w, o).1.hist)
  {}

  lemma LocalBuying(cfg: Config, t: nat, th: Thread, w: World, o: Outcome)
    requires Fits(cfg, th, o) && LocalInv(cfg, th, w.hist) && StoreProven(cfg, w)
    requires th.pc.SendFresh? || th.pc.Pay?
    ensures LocalInv(cfg, Advance(cfg, t, th, w, o).0, Advance(cfg, t, th, w, o).1.hist)
  {}

  lemma LocalLocked(cfg: Config, t: nat, th: Thread, w: World, o: Outcome)
    requires Fits(cfg, th, o) && LocalInv(cfg, th, w.hist) && StoreProven(cfg, w)
    requires Holding(th.pc) && !th.pc.Validate? && !th.pc.SendFresh? && !th.pc.Pay?
    ensures LocalInv(cfg, Advance(cfg, t, th, w, o).0, Advance(cfg, t, th, w, o).1.hist)
  {}

  lemma HistoryInvStep(cfg: Config, t: nat, th: Thread, w: World, o: Outcome)
    requires Fits(cfg, th, o) && LocalInv(cfg, th, w.hist) && HistoryInv(cfg, w.hist)
    ensures HistoryInv(cfg, Advance(cfg, t, th, w, o).1.hist)
  {}

  lemma StoreProvenStep(cfg: Config, t: nat, th: Thread, w: World, o: Outcome)
    requires Fits(cfg, th, o) && LocalInv(cfg, th, w.hist) && StoreProven(cfg, w)
    ensures StoreProven(cfg, Advance(cfg, t, th, w, o).1)
  {
    HistoryGrows(cfg, t, th, w, o);
  }

  lemma ProofInvStep(cfg: Config, s: State, a: Action)
    requires ProofInv(cfg, s) && Enabled(cfg, s, a)
    ensures ProofInv(cfg, Apply(cfg, s, a))
  {
    if a.Step? {
      var t, th, w, o, s' := a.thread, s.threads[a.thread], s.world, a.outcome, Apply(cfg, s, a);
      HistoryInvStep(cfg, t, th, w, o);
      StoreProvenStep(cfg, t, th, w, o);
      HistoryGrows(cfg, t, th, w, o);
      forall u | 0 <= u < |s'.threads|
        ensures LocalInv(cfg, s'.threads[u], s'.world.hist)
      {
        if u == t { LocalInvStep(cfg, t, th, w, o); } else { LocalInvGrows(cfg, s.threads[u], w.hist, s'.world.hist); }
      }
    }
  }

  // ----- Single use of Payment credentials

  /** The payment whose single-use credential a call still has to send. */
  function Carried(pc: Pc): Option<nat> {
    match pc
    case Record(proof) => OneTime(proof)
    case NoteEvent(proof) => OneTime(proof)
    case ReadEvent(proof) => OneTime(proof)
    case SendPaid(proof, _) => OneTime(proof)
    case _ => None
  }

  function OneTime(proof: Credential): Option<nat> {
    if proof.challenge.OfPayment? then Some(proof.payment) else None
  }

  ghost predicate Unsent(h: History, payment: nat) {
    payment < |h.payments|
    && forall i :: 0 <= i < |h.sent| ==> OneTime(h.sent[i].proof) != Some(payment)
  }

  ghost predicate SentOnce(h: History) {
    && (forall i :: 0 <= i < |h.sent| ==> h.sent[i].proof.payment < |h.payments|)
    && (forall i, j :: 0 <= i < j < |h.sent| && OneTime(h.sent[i].proof).Some? ==>
          OneTime(h.sent[i].proof) != OneTime(h.sent[j].proof))
  }

  ghost predicate OnceInv(s: State) {
    && SentOnce(s.world.hist)
    && (forall t :: 0 <= t < |s.threads| && Carried(s.threads[t].pc).Some? ==>
          Unsent(s.world.hist, Carried(s.threads[t].pc).value))
    && (forall t, u :: 0 <= t < u < |s.threads| && Carried(s.threads[t].pc).Some? ==>
          Carried(s.threads[t].pc) != Carried(s.threads[u].pc))
  }

  lemma CarriedEffect(cfg: Config, t: nat, th: Thread, w: World, o: Outcome)
    requires Fits(cfg, th, o) && LocalInv(cfg, th, w.hist)
    ensures var (th', w') := Advance(cfg, t, th, w, o);
      && w.hist.payments <= w'.hist.payments
      && (Carried(th'.pc).Some? ==>
            && w'.hist.sent == w.hist.sent
            && (Carried(th'.pc) == Carried(th.pc) ||
                (Carried(th'.pc).value == |w.hist.payments| && |w'.hist.payments| == |w.hist.payments| + 1)))
  {}

  /** What a step sends is what it carries. */
  lemma SentEffect(cfg: Config, t: nat, th: Thread, w: World, o: Outcome)
    requires Fits(cfg, th, o) && LocalInv(cfg, th, w.hist)
    ensures var sent, sent' := w.hist.sent, Advance(cfg, t, th, w, o).1.hist.sent;
      || sent' == sent
      || exists x: Sent :: sent' == sent + [x] && OneTime(x.proof) == Carried(th.pc)
                           && x.proof.payment < |w.hist.payments|
  {
    var sent, sent' := w.hist.sent, Advance(cfg, t, th, w, o).1.hist.sent;
    if sent' != sent {
      var x := sent'[|sent|];
      assert sent' == sent + [x];
    }
  }

  lemma SentOnceStep(cfg: Config, s: State, t: nat, o: Outcome)
    requires ProofInv(cfg, s) && OnceInv(s) && Enabled(cfg, s, Step(t, o))
    ensures SentOnce(Apply(cfg, s, Step(t, o)).world.hist)
  {
    CarriedEffect(cfg, t, s.threads[t], s.world, o);
    SentEffect(cfg, t, s.threads[t], s.world, o);
  }

  lemma CarriedStep(cfg: Config, s: State, t: nat, o: Outcome)
    requires ProofInv(cfg, s) && OnceInv(s) && Enabled(cfg, s, Step(t, o))
    ensures OnceInv(Apply(cfg, s, Step(t, o)))
  {
    CarriedEffect(cfg, t, s.threads[t], s.world, o);
    SentEffect(cfg, t, s.threads[t], s.world, o);
    SentOnceStep(cfg, s, t, o);
    var s' := Apply(cfg, s, Step(t, o));
    forall u | 0 <= u < |s'.threads| && Carried(s'.threads[u].pc).Some?
      ensures Unsent(s'.world.hist, Carried(s'.threads[u].pc).value)
    {
      assert u != t ==> s'.threads[u] == s.threads[u];
    }
  }

  lemma OnceInvStep(cfg: Config, s: State, a: Action)
    requires ProofInv(cfg, s) && OnceInv(s) && Enabled(cfg, s, a)
    ensures OnceInv(Apply(cfg, s, a))
  {
    if a.Step? {
      CarriedStep(cfg, s, a.thread, a.outcome);
    }
  }

  // ----- All runs

  ghost predicate Inv(cfg: Config, s: State) {
    LockInv(s) && ProofInv(cfg, s) && OnceInv(s) && s.world.disk.nextEvent >= 1
  }

  lemma InvInit(cfg: Config, s: State)
    requires Init(cfg, s)
    ensures Inv(cfg, s)
  {}

  lemma InvStep(cfg: Config, s: State, a: Action)
    requires Inv(cfg, s) && Enabled(cfg, s, a)
    ensures Inv(cfg, Apply(cfg, s, a))
  {
    LockInvStep(cfg, s, a);
    ProofInvStep(cfg, s, a);
    OnceInvStep(cfg, s, a);
  }

  lemma {:induction false} InvRun(cfg: Config, s: State, acts: seq<Action>)
    requires Inv(cfg, s) && Legal(cfg, s, acts)
    ensures Inv(cfg, Run(cfg, s, acts))
    decreases |acts|
  {
    if acts != [] {
      InvStep(cfg, s, acts[0]);
      InvRun(cfg, Apply(cfg, s, acts[0]), acts[1..]);
    }
  }

  lemma InvReachable(cfg: Config, s0: State, acts: seq<Action>)
    requires Init(cfg, s0) && Legal(cfg, s0, acts)
    ensures Inv(cfg, Run(cfg, s0, acts))
  {
    InvInit(cfg, s0);
    InvRun(cfg, s0, acts);
  }

  /** The invariant of runs whose domains do not share directories. */
  ghost predicate Lanes(cfg: Config, domains: iset<string>, s: State) {
    LockInv(s) && WindowInv(cfg, s) && Within(s, domains)
  }

  lemma LanesStep(cfg: Config, domains: iset<string>, s: State, a: Action)
    requires Separate(cfg, domains) && Lanes(cfg, domains, s) && Enabled(cfg, s, a)
    requires a.Spawn? ==> a.domain in domains
    ensures Lanes(cfg, domains, Apply(cfg, s, a))
  {
    LockInvStep(cfg, s, a);
    WindowInvStep(cfg, s, a, domains);
    WithinStep(cfg, domains, s, a);
  }

  lemma WithinStep(cfg: Config, domains: iset<string>, s: State, a: Action)
    requires Within(s, domains) && Enabled(cfg, s, a) && (a.Spawn? ==> a.domain in domains)
    ensures Within(Apply(cfg, s, a), domains)
  {
    if a.Step? {
      LockEffect(cfg, a.thread, s.threads[a.thread], s.world, a.outcome);
    }
  }

  lemma {:induction false} LanesRun(cfg: Config, domains: iset<string>, s: State, acts: seq<Action>)
    requires Separate(cfg, domains) && Lanes(cfg, domains, s) && Legal(cfg, s, acts) && Confined(acts, domains)
    ensures Lanes(cfg, domains, Run(cfg, s, acts))
    decreases |acts|
  {
    if acts != [] {
      LanesStep(cfg, domains, s, acts[0]);
      LanesRun(cfg, domains, Apply(cfg, s, acts[0]), acts[1..]);
    }
  }

  /** Exclusive payment window. In every run, two requests past the lock of one
      domain are the same request. Among domains with directories of their own,
      while a request is on its way to an L402 payment its entry is not paid unless
      its own double-check failed to read the paid token; and only its own final
      store makes the entry paid. */
  lemma ExclusiveWindow(cfg: Config, domains: iset<string>, s0: State, acts: seq<Action>, t: nat, a: Action)
    requires Init(cfg, s0) && Legal(cfg, s0, acts) && Separate(cfg, domains) && Confined(acts, domains)
    requires var s := Run(cfg, s0, acts); t < |s.threads| && Enabled(cfg, s, a)
    ensures var s := Run(cfg, s0, acts); var s' := Apply(cfg, s, a); var th := s.threads[t];
      && (forall u | 0 <= u < |s.threads| && Holding(th.pc) && Holding(s.threads[u].pc)
                     && s.threads[u].domain == th.domain :: u == t)
      && (InWindow(cfg, th.pc) && PaidFor(cfg, s, th.domain) ==> BeforeOwnWrite(cfg, th.pc) && th.missed)
      && (InWindow(cfg, th.pc) && !PaidFor(cfg, s, th.domain) && PaidFor(cfg, s', th.domain) ==>
            a == Step(t, Wrote(true)) && th.pc.StorePaid?)
  {
    LanesRun(cfg, domains, s0, acts);
    var s := Run(cfg, s0, acts);
    var th := s.threads[t];
    assert WindowOk(cfg, th, s.world.disk.store);
    forall u | 0 <= u < |s.threads| && Holding(th.pc) && Holding(s.threads[u].pc) && s.threads[u].domain == th.domain
      ensures u == t
    {
      Exclusive(s, t, u);
    }
    if a.Step? && InWindow(cfg, th.pc) && !PaidFor(cfg, s, th.domain) && PaidFor(cfg, Apply(cfg, s, a), th.domain) {
      OnlyOwnStore(cfg, domains, s, t, a.thread, a.outcome);
    }
  }

  lemma OnlyOwnStore(cfg: Config, domains: iset<string>, s: State, t: nat, u: nat, o: Outcome)
    requires Lanes(cfg, domains, s) && Separate(cfg, domains)
    requires t < |s.threads| && Enabled(cfg, s, Step(u, o)) && InWindow(cfg, s.threads[t].pc)
    requires !PaidFor(cfg, s, s.threads[t].domain) && PaidFor(cfg, Apply(cfg, s, Step(u, o)), s.threads[t].domain)
    ensures u == t && o == Wrote(true) && s.threads[t].pc.StorePaid?
  {
    var th, other := s.threads[t], s.threads[u];
    assert WindowOk(cfg, other, s.world.disk.store);
    if SharesDir(cfg, th.domain, other.domain) {
      WindowEffect(cfg, u, other, s.world, o);
      Exclusive(s, t, u);
    } else {
      OtherEntries(cfg, u, other, s.world, o, cfg.dir(th.domain));
    }
  }

  // ----- Provenance over runs

  /** A recorded payment for a challenge received from the domain it is booked to;
      the token of `domain` is the same file as that domain's. */
  ghost predicate Bought(cfg: Config, h: History, domain: string, proof: Credential) {
    && Proven(cfg, h, domain, proof)
    && Receipt(h.payments[proof.payment].domain, proof.challenge) in h.received
  }

  /** Provenance. In every run, to any domains and with crashes at any point, a paid
      token in a directory and every Authorization value sent come from a successful
      payment of a challenge received from a domain with that directory; every
      payment of the run passed the checks; and a Payment credential goes to the
      domain it was bought from, with one request at most, and its preimage hashes to
      what the challenge declares. */
  lemma Provenance(cfg: Config, s0: State, acts: seq<Action>)
    requires Init(cfg, s0) && Legal(cfg, s0, acts)
    ensures var w := Run(cfg, s0, acts).world;
      && (forall d :: IsPaid(w.disk.store, cfg.dir(d)) ==> Bought(cfg, w.hist, d, w.disk.store[cfg.dir(d).value].proof))
      && (forall i :: 0 <= i < |w.hist.sent| ==> Bought(cfg, w.hist, w.hist.sent[i].domain, w.hist.sent[i].proof))
      && (forall i :: |s0.world.hist.payments| <= i < |w.hist.payments| ==>
            PayableAt(cfg, w.hist.payments[i].domain, w.hist.payments[i].challenge))
      && (forall i, j | 0 <= i < j < |w.hist.sent| && w.hist.sent[i].proof.challenge.OfPayment?
                        && w.hist.sent[j].proof.challenge.OfPayment? ::
            w.hist.sent[i].proof.payment != w.hist.sent[j].proof.payment)
      && (forall i :: 0 <= i < |w.hist.sent| && w.hist.sent[i].proof.challenge.OfPayment? ==>
            KeepsHash(cfg, w.hist.sent[i].proof))
  {
    InvReachable(cfg, s0, acts);
    PriorIsFixed(cfg, s0, acts);
    var w := Run(cfg, s0, acts).world;
    var h := w.hist;
    forall d | IsPaid(w.disk.store, cfg.dir(d))
      ensures Bought(cfg, h, d, w.disk.store[cfg.dir(d).value].proof)
    {
      assert IsPaid(w.disk.store, Some(cfg.dir(d).value));
    }
    forall i, j | 0 <= i < j < |h.sent| && h.sent[i].proof.challenge.OfPayment? && h.sent[j].proof.challenge.OfPayment?
      ensures h.sent[i].proof.payment != h.sent[j].proof.payment
    {
      assert OneTime(h.sent[i].proof) != OneTime(h.sent[j].proof);
    }
  }

  lemma {:induction false} PriorIsFixed(cfg: Config, s: State, acts: seq<Action>)
    requires Legal(cfg, s, acts)
    ensures Run(cfg, s, acts).world.hist.prior == s.world.hist.prior
    decreases |acts|
  {
    if acts != [] {
      if acts[0].Step? {
        HistoryGrows(cfg, acts[0].thread, s.threads[acts[0].thread], s.world, acts[0].outcome);
      }
      PriorIsFixed(cfg, Apply(cfg, s, acts[0]), acts[1..]);
    }
  }

  /** The spending cap end to end: every L402 payment of a run is for less than one
      satoshi over the cap, or its amount was misread. */
  lemma SpendingCap(cfg: Config, s0: State, acts: seq<Action>, i: nat,
                    net: Invoice.Network, ds: string, m: Invoice.Multiplier, data: string)
    requires Init(cfg, s0) && Legal(cfg, s0, acts) && cfg.maxCostSat >= 0
    requires ds != "" && Text.AllDigits(ds) && Invoice.Separated(m, data)
    requires |s0.world.hist.payments| <= i < |Run(cfg, s0, acts).world.hist.payments|
    requires var c := Run(cfg, s0, acts).world.hist.payments[i].challenge;
             c.OfL402? && Text.ToLower(c.offer.invoice) == Invoice.Print(net, ds, m, data)
    ensures || Invoice.ExactPico(ds, m) < (cfg.maxCostSat + 1) * Invoice.PICO_PER_SAT
            || Invoice.Misread(ds, m, cfg.maxCostSat)
  {
    Provenance(cfg, s0, acts);
    var p := Run(cfg, s0, acts).world.hist.payments[i];
    assert PayableAt(cfg, p.domain, p.challenge);
    Invoice.CapIsExact(net, ds, m, data, p.challenge.offer.invoice, cfg.maxCostSat);
  }

  /** And every payment of a Payment challenge, unless its amount slips through. */
  lemma SpendingCapForCharges(cfg: Config, s0: State, acts: seq<Action>, i: nat,
                              net: Invoice.Network, ds: string, m: Invoice.Multiplier, data: string)
    requires Init(cfg, s0) && Legal(cfg, s0, acts) && cfg.maxCostSat >= 0
    requires ds != "" && Text.AllDigits(ds) && Invoice.Separated(m, data)
    requires |s0.world.hist.payments| <= i < |Run(cfg, s0, acts).world.hist.payments|
    requires var c := Run(cfg, s0, acts).world.hist.payments[i].challenge;
             && c.OfPayment? && c.charge.request.Some? && c.charge.request.value.methodDetails.Some?
             && Text.ToLower(c.charge.request.value.methodDetails.value.invoice) == Invoice.Print(net, ds, m, data)
    ensures || Invoice.ExactPico(ds, m) < (cfg.maxCostSat + 1) * Invoice.PICO_PER_SAT
            || Budget.SlipsThrough(Run(cfg, s0, acts).world.hist.payments[i].challenge.charge.request.value.amount,
                                   ds, m, cfg.maxCostSat)
  {
    Provenance(cfg, s0, acts);
    var p := Run(cfg, s0, acts).world.hist.payments[i];
    assert PayableAt(cfg, p.domain, p.challenge);
    if Invoice.ExactPico(ds, m) >= (cfg.maxCostSat + 1) * Invoice.PICO_PER_SAT {
      Budget.OverCapExact(p.challenge.charge, Budget.NoExpiry, cfg.maxCostSat, net, ds, m, data);
    }
  }
}
