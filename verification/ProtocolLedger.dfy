/** Accounts kept over a whole run: what was paid for is stored, lost or still on
    its way, and what was stored is invalidated or still there. */
module ProtocolLedger {
  import opened Protocol
  import opened ProtocolSafety

  /** What a run can be asked to count. */
  datatype Metric =
    // steps of requests to the domain
    | Purchases(domain: string)     // successful L402 payments
    | StoredPaid(domain: string)    // paid L402 tokens stored
    | FailedStore(domain: string)   // payments whose final store failed
    | LostInCrash(domain: string)   // crashes between payment and final store
    | Missed(domain: string)        // double-checks that failed to read a paid token
    // steps on the directory of the domain
    | Stores(domain: string)        // paid tokens stored
    | Discarded(domain: string)     // invalidations that removed a paid token
    | Cleared(domain: string)       // paid tokens removed or overwritten as stale by the handler
    | Replaced(domain: string)      // paid tokens replaced by a final store
    // steps of one request
    | BaseTrips(thread: nat)        // base round trips
    | PayCalls(thread: nat)         // PayInvoice calls

  /** Between an L402 payment and the store of its token. */
  predicate CarriesToken(pc: Pc) {
    match pc
    case Record(proof) => proof.challenge.OfL402?
    case NoteEvent(proof) => proof.challenge.OfL402?
    case StorePaid(proof) => true
    case _ => false
  }

  ghost predicate InFlight(s: State, domain: string) {
    exists t :: 0 <= t < |s.threads| && s.threads[t].domain == domain && CarriesToken(s.threads[t].pc)
  }

  predicate IsTrip(pc: Pc) {
    pc.SendCached? || pc.SendPlain? || pc.SendFound? || pc.SendFresh? || pc.SendPaid?
  }

  /** A step of a request to the domain. */
  predicate ByRequest(s: State, a: Action, domain: string) {
    a.Step? && a.thread < |s.threads| && s.threads[a.thread].domain == domain
  }

  /** A step of a request whose token is in the domain's directory. */
  predicate OnEntry(cfg: Config, s: State, a: Action, domain: string) {
    && a.Step? && a.thread < |s.threads|
    && cfg.dir(domain).Some? && cfg.dir(s.threads[a.thread].domain) == cfg.dir(domain)
  }

  /** Whether one action counts towards a metric. */
  ghost predicate Hits(cfg: Config, m: Metric, s: State, a: Action) {
    match m
    case Purchases(d) =>
      ByRequest(s, a, d) && s.threads[a.thread].pc.Pay? && s.threads[a.thread].pc.challenge.OfL402?
      && a.outcome.PayResult? && a.outcome.preimage.Some?
    case StoredPaid(d) => ByRequest(s, a, d) && s.threads[a.thread].pc.StorePaid? && a.outcome == Wrote(true)
    case FailedStore(d) => ByRequest(s, a, d) && s.threads[a.thread].pc.StorePaid? && a.outcome == Wrote(false)
    case LostInCrash(d) => a.Crash? && InFlight(s, d)
    case Missed(d) =>
      ByRequest(s, a, d) && s.threads[a.thread].pc.Recheck? && a.outcome == Read(false)
      && L402 in cfg.schemes && PaidFor(cfg, s, d)
    case Stores(d) => OnEntry(cfg, s, a, d) && s.threads[a.thread].pc.StorePaid? && a.outcome == Wrote(true)
    case Discarded(d) =>
      OnEntry(cfg, s, a, d) && s.threads[a.thread].pc.Invalidate? && a.outcome == Wrote(true) && PaidFor(cfg, s, d)
    case Cleared(d) => OnEntry(cfg, s, a, d) && Overwrites(s.threads[a.thread].pc, a.outcome) && PaidFor(cfg, s, d)
    case Replaced(d) =>
      OnEntry(cfg, s, a, d) && s.threads[a.thread].pc.StorePaid? && a.outcome == Wrote(true) && PaidFor(cfg, s, d)
    case BaseTrips(t) => a.Step? && a.thread == t && t < |s.threads| && IsTrip(s.threads[t].pc)
    case PayCalls(t) => a.Step? && a.thread == t && t < |s.threads| && s.threads[t].pc.Pay?
  }

  /** The handler's removal of a stale entry, and its store of the pending token. */
  predicate Overwrites(pc: Pc, o: Outcome) {
    o == Wrote(true) && (pc.RemoveStale? || (pc.StorePending? && pc.challenge.OfL402?))
  }

  ghost function Tally(cfg: Config, m: Metric, s: State, acts: seq<Action>): nat
    requires Legal(cfg, s, acts)
    decreases |acts|
  {
    if acts == [] then 0
    else (if Hits(cfg, m, s, acts[0]) then 1 else 0) + Tally(cfg, m, Apply(cfg, s, acts[0]), acts[1..])
  }

  function One(b: bool): nat { if b then 1 else 0 }

  // ----- Token balance

  /** One step of the store account. */
  lemma BalanceStep(cfg: Config, s: State, a: Action, d: string)
    requires Enabled(cfg, s, a)
    ensures One(Hits(cfg, Stores(d), s, a)) + One(PaidFor(cfg, s, d))
         == One(Hits(cfg, Discarded(d), s, a)) + One(Hits(cfg, Cleared(d), s, a)) + One(Hits(cfg, Replaced(d), s, a))
            + One(PaidFor(cfg, Apply(cfg, s, a), d))
  {
    if a.Step? && !OnEntry(cfg, s, a, d) {
      OtherEntries(cfg, a.thread, s.threads[a.thread], s.world, a.outcome, cfg.dir(d));
    }
  }

  /** Token balance law: in every run, for the directory of each domain, paid tokens
      stored, plus one if one was there at the start, are the paid tokens that an
      invalidation removed, that the handler cleared as stale or that another final
      store replaced, plus one if one is there now. */
  lemma {:induction false} TokenBalance(cfg: Config, s: State, acts: seq<Action>, d: string)
    requires Legal(cfg, s, acts)
    ensures Tally(cfg, Stores(d), s, acts) + One(PaidFor(cfg, s, d))
         == Tally(cfg, Discarded(d), s, acts) + Tally(cfg, Cleared(d), s, acts) + Tally(cfg, Replaced(d), s, acts)
            + One(PaidFor(cfg, Run(cfg, s, acts), d))
    decreases |acts|
  {
    if acts != [] {
      BalanceStep(cfg, s, acts[0], d);
      TokenBalance(cfg, Apply(cfg, s, acts[0]), acts[1..], d);
    }
  }

  // ----- Tokens lost to failed reads

  /** A request that missed the paid token and is about to overwrite it. */
  ghost predicate Owing(cfg: Config, s: State, d: string) {
    && PaidFor(cfg, s, d)
    && exists t :: 0 <= t < |s.threads| && s.threads[t].domain == d && s.threads[t].missed
        && BeforeOwnWrite(cfg, s.threads[t].pc)
  }

  /** Among domains with directories of their own, the handler clears a paid token
      only for a request whose double-check missed that token, and a final store
      replaces none. */
  lemma ClearedWasMissed(cfg: Config, domains: iset<string>, s: State, a: Action, d: string)
    requires Separate(cfg, domains) && Lanes(cfg, domains, s) && Enabled(cfg, s, a) && d in domains
    ensures Hits(cfg, Cleared(d), s, a) ==> ByRequest(s, a, d) && s.threads[a.thread].missed
    ensures !Hits(cfg, Replaced(d), s, a)
    ensures Hits(cfg, Stores(d), s, a) <==> Hits(cfg, StoredPaid(d), s, a)
  {
    if a.Step? {
      var th := s.threads[a.thread];
      assert WindowOk(cfg, th, s.world.disk.store);
      assert OnEntry(cfg, s, a, d) ==> SharesDir(cfg, th.domain, d);
    }
  }

  lemma OwingStep(cfg: Config, domains: iset<string>, s: State, a: Action, d: string)
    requires Separate(cfg, domains) && Lanes(cfg, domains, s) && Enabled(cfg, s, a) && d in domains
    requires a.Spawn? ==> a.domain in domains
    ensures One(Hits(cfg, Cleared(d), s, a)) + One(Owing(cfg, Apply(cfg, s, a), d))
         <= One(Hits(cfg, Missed(d), s, a)) + One(Owing(cfg, s, d))
  {
    var s' := Apply(cfg, s, a);
    ClearedWasMissed(cfg, domains, s, a, d);
    BalanceStep(cfg, s, a, d);
    if Hits(cfg, Cleared(d), s, a) {
      assert WindowOk(cfg, s.threads[a.thread], s.world.disk.store);
      assert !PaidFor(cfg, s', d);
    } else if Owing(cfg, s', d) && !Owing(cfg, s, d) {
      var t :| 0 <= t < |s'.threads| && s'.threads[t].domain == d && s'.threads[t].missed
        && BeforeOwnWrite(cfg, s'.threads[t].pc);
      NewlyOwing(cfg, domains, s, a, d, t);
    }
  }

  lemma NewlyOwing(cfg: Config, domains: iset<string>, s: State, a: Action, d: string, t: nat)
    requires Separate(cfg, domains) && Lanes(cfg, domains, s) && Enabled(cfg, s, a) && d in domains
    requires var s' := Apply(cfg, s, a);
      && t < |s'.threads| && s'.threads[t].domain == d && s'.threads[t].missed && BeforeOwnWrite(cfg, s'.threads[t].pc)
      && PaidFor(cfg, s', d)
    requires !Owing(cfg, s, d)
    ensures Hits(cfg, Missed(d), s, a)
  {
    var s' := Apply(cfg, s, a);
    if a.Step? && a.thread == t {
      MissedEffect(cfg, t, s.threads[t], s.world, a.outcome);
    } else if a.Step? {
      assert s'.threads[t] == s.threads[t];
      if !PaidFor(cfg, s, d) { OnlyOwnStore(cfg, domains, s, t, a.thread, a.outcome); }
    }
  }

  /** A thread comes before its own write, marked as having missed the token, from
      its double-check or from there already. */
  lemma MissedEffect(cfg: Config, t: nat, th: Thread, w: World, o: Outcome)
    requires Fits(cfg, th, o)
    ensures var (th', w') := Advance(cfg, t, th, w, o);
      th'.missed && BeforeOwnWrite(cfg, th'.pc) && IsPaid(w'.disk.store, cfg.dir(th.domain)) ==>
        && IsPaid(w.disk.store, cfg.dir(th.domain))
        && (|| (th.missed && BeforeOwnWrite(cfg, th.pc))
            || (th.pc.Recheck? && o == Read(false) && L402 in cfg.schemes))
  {}

  /** In every run, each paid token that the handler clears was missed by a
      double-check of its own: no more are cleared than were missed. */
  lemma {:induction false} ClearedAtMostMissed(cfg: Config, domains: iset<string>, s: State, acts: seq<Action>,
                                               d: string)
    requires Separate(cfg, domains) && Lanes(cfg, domains, s) && Legal(cfg, s, acts) && Confined(acts, domains)
    requires d in domains
    ensures Tally(cfg, Cleared(d), s, acts) + One(Owing(cfg, Run(cfg, s, acts), d))
         <= Tally(cfg, Missed(d), s, acts) + One(Owing(cfg, s, d))
    ensures Tally(cfg, Replaced(d), s, acts) == 0
            && Tally(cfg, Stores(d), s, acts) == Tally(cfg, StoredPaid(d), s, acts)
    decreases |acts|
  {
    if acts != [] {
      OwingStep(cfg, domains, s, acts[0], d);
      ClearedWasMissed(cfg, domains, s, acts[0], d);
      LanesStep(cfg, domains, s, acts[0]);
      ClearedAtMostMissed(cfg, domains, Apply(cfg, s, acts[0]), acts[1..], d);
    }
  }

  /** Past the double-check, and on the way to a stale entry's removal or not. */
  predicate OnTheWay(cfg: Config, pc: Pc) { BeforeOwnWrite(cfg, pc) && !pc.StorePending? }

  lemma OnTheWayEffect(cfg: Config, t: nat, th: Thread, w: World, o: Outcome)
    requires Fits(cfg, th, o) && Holding(th.pc) && !th.pc.Recheck?
    ensures var (th', w') := Advance(cfg, t, th, w, o);
      && !th'.pc.Recheck? && (OnTheWay(cfg, th'.pc) ==> OnTheWay(cfg, th.pc) && w'.disk.store == w.disk.store)
      && (OnTheWay(cfg, th'.pc) ==> Holding(th'.pc))
      && (!Holding(th'.pc) ==> th'.pc.Done?)
  {}

  lemma DoneStays(cfg: Config, s: State, acts: seq<Action>, t: nat)
    requires Legal(cfg, s, acts) && t < |s.threads| && s.threads[t].pc.Done?
    ensures t < |Run(cfg, s, acts).threads| && Run(cfg, s, acts).threads[t].pc.Done?
    decreases |acts|
  {
    if acts != [] {
      DoneStays(cfg, Apply(cfg, s, acts[0]), acts[1..], t);
    }
  }

  /** Nobody else clears or fills the entry of a request that is on the way. */
  lemma OthersKeepOff(cfg: Config, domains: iset<string>, s: State, u: nat, o: Outcome, t: nat)
    requires Separate(cfg, domains) && Lanes(cfg, domains, s) && Enabled(cfg, s, Step(u, o)) && u != t
    requires t < |s.threads| && OnTheWay(cfg, s.threads[t].pc)
    ensures !Hits(cfg, Cleared(s.threads[t].domain), s, Step(u, o))
            && !Hits(cfg, StoredPaid(s.threads[t].domain), s, Step(u, o))
  {
    var d := s.threads[t].domain;
    ClearedWasMissed(cfg, domains, s, Step(u, o), d);
    if Hits(cfg, Cleared(d), s, Step(u, o)) || Hits(cfg, StoredPaid(d), s, Step(u, o)) {
      Exclusive(s, t, u);
    }
  }

  /** While `t` is on the way, only invalidations end an entry's being paid, and
      nothing makes it paid. */
  lemma WayStep(cfg: Config, domains: iset<string>, s: State, a: Action, t: nat)
    requires Separate(cfg, domains) && Lanes(cfg, domains, s) && Enabled(cfg, s, a)
    requires t < |s.threads| && OnTheWay(cfg, s.threads[t].pc)
    requires OnTheWay(cfg, Apply(cfg, s, a).threads[t].pc)
    ensures var s', d := Apply(cfg, s, a), s.threads[t].domain;
            s'.threads[t].domain == d
            && (PaidFor(cfg, s', d) <==> PaidFor(cfg, s, d) && !Hits(cfg, Discarded(d), s, a))
  {
    var s', d := Apply(cfg, s, a), s.threads[t].domain;
    BalanceStep(cfg, s, a, d);
    ClearedWasMissed(cfg, domains, s, a, d);
    if a.Step? {
      if a.thread == t {
        OnTheWayEffect(cfg, t, s.threads[t], s.world, a.outcome);
      } else {
        OthersKeepOff(cfg, domains, s, a.thread, a.outcome, t);
      }
    }
  }

  /** A request that is on the way at the end of a run is past its double-check in
      every state before. */
  lemma WayBack(cfg: Config, s: State, a: Action, rest: seq<Action>, t: nat)
    requires Enabled(cfg, s, a) && Legal(cfg, Apply(cfg, s, a), rest)
    requires t < |s.threads| && Holding(s.threads[t].pc) && !s.threads[t].pc.Recheck?
    requires var s2 := Run(cfg, Apply(cfg, s, a), rest); t < |s2.threads| && OnTheWay(cfg, s2.threads[t].pc)
    ensures var th' := Apply(cfg, s, a).threads[t];
            Holding(th'.pc) && !th'.pc.Recheck? && th'.domain == s.threads[t].domain
            && (OnTheWay(cfg, th'.pc) ==> OnTheWay(cfg, s.threads[t].pc))
  {
    var s' := Apply(cfg, s, a);
    if a.Step? && a.thread == t { OnTheWayEffect(cfg, t, s.threads[t], s.world, a.outcome); }
    if !Holding(s'.threads[t].pc) { DoneStays(cfg, s', rest, t); }
  }

  lemma WayOne(cfg: Config, domains: iset<string>, s: State, a: Action, rest: seq<Action>, t: nat)
    requires Separate(cfg, domains) && Lanes(cfg, domains, s) && Enabled(cfg, s, a)
             && (a.Spawn? ==> a.domain in domains)
    requires Legal(cfg, Apply(cfg, s, a), rest)
    requires t < |s.threads| && Holding(s.threads[t].pc) && !s.threads[t].pc.Recheck?
    requires var s2 := Run(cfg, Apply(cfg, s, a), rest); t < |s2.threads| && OnTheWay(cfg, s2.threads[t].pc)
    ensures var s', d := Apply(cfg, s, a), s.threads[t].domain; var th' := s'.threads[t];
      && Lanes(cfg, domains, s') && Holding(th'.pc) && !th'.pc.Recheck? && th'.domain == d
      && (OnTheWay(cfg, th'.pc) ==>
            && OnTheWay(cfg, s.threads[t].pc)
            && (PaidFor(cfg, s', d) <==> PaidFor(cfg, s, d) && !Hits(cfg, Discarded(d), s, a)))
  {
    WayBack(cfg, s, a, rest, t);
    LanesStep(cfg, domains, s, a);
    if OnTheWay(cfg, Apply(cfg, s, a).threads[t].pc) { WayStep(cfg, domains, s, a, t); }
  }

  lemma {:induction false} WayRun(cfg: Config, domains: iset<string>, s: State, acts: seq<Action>, t: nat, last: State)
    requires Separate(cfg, domains) && Lanes(cfg, domains, s) && Legal(cfg, s, acts) && Confined(acts, domains)
    requires t < |s.threads| && Holding(s.threads[t].pc) && !s.threads[t].pc.Recheck?
    requires last == Run(cfg, s, acts) && t < |last.threads| && OnTheWay(cfg, last.threads[t].pc)
    ensures OnTheWay(cfg, s.threads[t].pc)
    ensures PaidFor(cfg, last, s.threads[t].domain)
            <==> PaidFor(cfg, s, s.threads[t].domain) && Tally(cfg, Discarded(s.threads[t].domain), s, acts) == 0
    decreases |acts|
  {
    if acts != [] {
      var a, d, s' := acts[0], s.threads[t].domain, Apply(cfg, s, acts[0]);
      WayOne(cfg, domains, s, a, acts[1..], t);
      WayRun(cfg, domains, s', acts[1..], t, last);
      assert Tally(cfg, Discarded(d), s, acts)
             == One(Hits(cfg, Discarded(d), s, a)) + Tally(cfg, Discarded(d), s', acts[1..]);
    }
  }

  /** When clearing discards a paid token, exactly. A request that does its
      double-check in a reachable state `s`, and some time after is about to remove a
      stale entry, finds a paid token there if and only if the double-check failed to
      read one and nobody invalidated it since. */
  lemma ClearingExact(cfg: Config, domains: iset<string>, s: State, t: nat, readable: bool, acts: seq<Action>)
    requires Separate(cfg, domains) && Lanes(cfg, domains, s) && Confined(acts, domains)
    requires t < |s.threads| && s.threads[t].pc.Recheck? && Enabled(cfg, s, Step(t, Read(readable)))
    requires Legal(cfg, Apply(cfg, s, Step(t, Read(readable))), acts)
    requires var s2 := Run(cfg, Apply(cfg, s, Step(t, Read(readable))), acts);
      t < |s2.threads| && s2.threads[t].pc.RemoveStale? && s2.threads[t].pc.challenge.OfL402?
    ensures var s1 := Apply(cfg, s, Step(t, Read(readable))); var d := s.threads[t].domain;
            PaidFor(cfg, Run(cfg, s1, acts), d)
            <==> !readable && PaidFor(cfg, s, d) && Tally(cfg, Discarded(d), s1, acts) == 0
  {
    var a := Step(t, Read(readable));
    LanesStep(cfg, domains, s, a);
    WayRun(cfg, domains, Apply(cfg, s, a), acts, t, Run(cfg, Apply(cfg, s, a), acts));
    RecheckEffect(cfg, t, s.threads[t], s.world, readable);
  }

  lemma RecheckEffect(cfg: Config, t: nat, th: Thread, w: World, readable: bool)
    requires Fits(cfg, th, Read(readable)) && th.pc.Recheck?
    ensures var (th', w') := Advance(cfg, t, th, w, Read(readable));
      w' == w && th'.domain == th.domain
      && (OnTheWay(cfg, th'.pc) <==> L402 in cfg.schemes && !(readable && IsPaid(w.disk.store, cfg.dir(th.domain))))
  {}

  // ----- Payments

  lemma OneCarrier(s: State, t: nat, u: nat)
    requires LockInv(s) && t < |s.threads| && u < |s.threads| && s.threads[t].domain == s.threads[u].domain
    requires CarriesToken(s.threads[t].pc) && Holding(s.threads[u].pc)
    ensures t == u
  {
    Exclusive(s, t, u);
  }

  lemma CarrierEffect(cfg: Config, t: nat, th: Thread, w: World, o: Outcome)
    requires Fits(cfg, th, o)
    ensures var (th', _) := Advance(cfg, t, th, w, o);
      && th'.domain == th.domain
      && (CarriesToken(th'.pc) <==> (CarriesToken(th.pc) && !th.pc.StorePaid?)
                                    || (th.pc.Pay? && th.pc.challenge.OfL402? && o.preimage.Some?))
      && (CarriesToken(th'.pc) ==> Holding(th.pc))
  {}

  lemma OwnFlight(cfg: Config, s: State, t: nat, o: Outcome)
    requires Inv(cfg, s) && Enabled(cfg, s, Step(t, o)) && Holding(s.threads[t].pc)
    ensures var s' := Apply(cfg, s, Step(t, o)); var d := s.threads[t].domain;
      && (InFlight(s, d) <==> CarriesToken(s.threads[t].pc))
      && (InFlight(s', d) <==> CarriesToken(s'.threads[t].pc))
  {
    var s', d := Apply(cfg, s, Step(t, o)), s.threads[t].domain;
    CarrierEffect(cfg, t, s.threads[t], s.world, o);
    forall u | 0 <= u < |s.threads| && u != t && s.threads[u].domain == d
      ensures !CarriesToken(s.threads[u].pc)
    {
      if CarriesToken(s.threads[u].pc) { OneCarrier(s, u, t); }
    }
  }

  lemma OtherFlight(cfg: Config, s: State, t: nat, o: Outcome, d: string)
    requires Enabled(cfg, s, Step(t, o)) && (s.threads[t].domain != d || !Holding(s.threads[t].pc))
    ensures InFlight(Apply(cfg, s, Step(t, o)), d) <==> InFlight(s, d)
  {
    var s' := Apply(cfg, s, Step(t, o));
    CarrierEffect(cfg, t, s.threads[t], s.world, o);
    assert forall u :: 0 <= u < |s.threads| && u != t ==> s'.threads[u] == s.threads[u];
  }

  /** The flight account of one step: payments put a token on its way, stores,
      failed stores and crashes end that. */
  ghost predicate FlightBalances(cfg: Config, s: State, a: Action, s': State, d: string) {
    One(Hits(cfg, Purchases(d), s, a)) + One(InFlight(s, d))
    == One(Hits(cfg, StoredPaid(d), s, a)) + One(Hits(cfg, FailedStore(d), s, a)) + One(Hits(cfg, LostInCrash(d), s, a))
       + One(InFlight(s', d))
  }

  lemma OwnFlightStep(cfg: Config, s: State, t: nat, o: Outcome)
    requires Inv(cfg, s) && Enabled(cfg, s, Step(t, o)) && Holding(s.threads[t].pc)
    ensures FlightBalances(cfg, s, Step(t, o), Apply(cfg, s, Step(t, o)), s.threads[t].domain)
  {
    OwnFlight(cfg, s, t, o);
    OwnHits(cfg, s, t, o);
    CarrierEffect(cfg, t, s.threads[t], s.world, o);
  }

  /** What a request's own step counts towards. */
  lemma OwnHits(cfg: Config, s: State, t: nat, o: Outcome)
    requires Enabled(cfg, s, Step(t, o))
    ensures var d, pc, a := s.threads[t].domain, s.threads[t].pc, Step(t, o);
      && (Hits(cfg, Purchases(d), s, a) <==> pc.Pay? && pc.challenge.OfL402? && o.preimage.Some?)
      && (Hits(cfg, StoredPaid(d), s, a) <==> pc.StorePaid? && o.ok)
      && (Hits(cfg, FailedStore(d), s, a) <==> pc.StorePaid? && !o.ok)
      && !Hits(cfg, LostInCrash(d), s, a)
  {}

  lemma OtherFlightStep(cfg: Config, s: State, t: nat, o: Outcome, d: string)
    requires Enabled(cfg, s, Step(t, o)) && (s.threads[t].domain != d || !Holding(s.threads[t].pc))
    ensures FlightBalances(cfg, s, Step(t, o), Apply(cfg, s, Step(t, o)), d)
  {
    OtherFlight(cfg, s, t, o, d);
    assert s.threads[t].pc.Pay? || s.threads[t].pc.StorePaid? ==> Holding(s.threads[t].pc);
  }

  lemma SpawnFlightStep(cfg: Config, s: State, domain: string, d: string)
    ensures FlightBalances(cfg, s, Spawn(domain), Apply(cfg, s, Spawn(domain)), d)
  {
    assert forall t :: 0 <= t < |s.threads| ==> Apply(cfg, s, Spawn(domain)).threads[t] == s.threads[t];
  }

  lemma CrashFlightStep(cfg: Config, s: State, d: string)
    ensures FlightBalances(cfg, s, Crash, Apply(cfg, s, Crash), d)
  {}

  lemma FlightStep(cfg: Config, s: State, a: Action, d: string)
    requires Inv(cfg, s) && Enabled(cfg, s, a)
    ensures FlightBalances(cfg, s, a, Apply(cfg, s, a), d)
  {
    match a
    case Spawn(domain) => SpawnFlightStep(cfg, s, domain, d);
    case Crash => CrashFlightStep(cfg, s, d);
    case Step(t, o) =>
      if s.threads[t].domain == d && Holding(s.threads[t].pc) {
        OwnFlightStep(cfg, s, t, o);
      } else {
        OtherFlightStep(cfg, s, t, o, d);
      }
  }

  /** Every successful L402 payment is stored, or its store fails, or the process
      dies first, or it is still on its way. */
  lemma {:induction false} PaymentsAccountedFor(cfg: Config, s: State, acts: seq<Action>, d: string)
    requires Inv(cfg, s) && Legal(cfg, s, acts)
    ensures Tally(cfg, Purchases(d), s, acts) + One(InFlight(s, d))
         == Tally(cfg, StoredPaid(d), s, acts) + Tally(cfg, FailedStore(d), s, acts)
            + Tally(cfg, LostInCrash(d), s, acts) + One(InFlight(Run(cfg, s, acts), d))
    decreases |acts|
  {
    if acts != [] {
      FlightStep(cfg, s, acts[0], d);
      InvStep(cfg, s, acts[0]);
      PaymentsAccountedFor(cfg, Apply(cfg, s, acts[0]), acts[1..], d);
    }
  }

  lemma InFlightNotPaid(cfg: Config, s: State, d: string)
    requires WindowInv(cfg, s) && InFlight(s, d)
    ensures !PaidFor(cfg, s, d)
  {
    var t :| 0 <= t < |s.threads| && s.threads[t].domain == d && CarriesToken(s.threads[t].pc);
    assert WindowOk(cfg, s.threads[t], s.world.disk.store);
  }

  /** Pay once: in every run among domains with directories of their own, of a
      process and its restarts, the successful L402 payments to a domain, plus one if
      it had a paid token at the start, are exactly the invalidations of paid tokens,
      the paid tokens cleared as stale, the failed final stores and the crashes that
      lost a payment, plus one if a paid token is stored or on its way. And no more
      tokens are cleared than double-checks failed to read one. */
  lemma PayOnce(cfg: Config, domains: iset<string>, s0: State, acts: seq<Action>, d: string)
    requires Init(cfg, s0) && Legal(cfg, s0, acts) && Separate(cfg, domains) && Confined(acts, domains) && d in domains
    ensures Tally(cfg, Purchases(d), s0, acts) + One(PaidFor(cfg, s0, d))
         == Tally(cfg, Discarded(d), s0, acts) + Tally(cfg, Cleared(d), s0, acts) + Tally(cfg, FailedStore(d), s0, acts)
            + Tally(cfg, LostInCrash(d), s0, acts)
            + One(PaidFor(cfg, Run(cfg, s0, acts), d) || InFlight(Run(cfg, s0, acts), d))
    ensures Tally(cfg, Cleared(d), s0, acts) <= Tally(cfg, Missed(d), s0, acts)
  {
    InvInit(cfg, s0);
    TokenBalance(cfg, s0, acts, d);
    PaymentsAccountedFor(cfg, s0, acts, d);
    ClearedAtMostMissed(cfg, domains, s0, acts, d);
    LanesRun(cfg, domains, s0, acts);
    assert !InFlight(s0, d) && !Owing(cfg, s0, d);
    if InFlight(Run(cfg, s0, acts), d) {
      InFlightNotPaid(cfg, Run(cfg, s0, acts), d);
    }
  }

  // ----- Work of one request

  /** How many base round trips, and how many payments, lie ahead of a request. */
  function TripsLeft(pc: Pc): nat {
    match pc
    case Start => 4
    case SendCached(_) => 4
    case Invalidate(challenged) => 3
    case SendPlain => 3
    case TakeLock => 2
    case WaitLock => 2
    case Recheck => 2
    case SendFound(_) => 1
    case SendFresh => 2
    case Unlock => 0
    case Enrich(_) => 0
    case RecordFailure(_) => 0
    case NoteFailure(_) => 0
    case Done => 0
    case _ => 1
  }

  function PaysLeft(pc: Pc): nat {
    match pc
    case RecordFailure(_) => 0
    case NoteFailure(_) => 0
    case Record(_) => 0
    case NoteEvent(_) => 0
    case StorePaid(_) => 0
    case ReadEvent(_) => 0
    case SendPaid(_, _) => 0
    case Enrich(_) => 0
    case SendFound(_) => 0
    case Unlock => 0
    case Done => 0
    case _ => 1
  }

  lemma WorkEffect(cfg: Config, t: nat, th: Thread, w: World, o: Outcome)
    requires Fits(cfg, th, o)
    ensures WorkDrops(th.pc, Advance(cfg, t, th, w, o).0.pc)
  {
    if !Holding(th.pc) {
      UnlockedWork(cfg, t, th, w, o);
    } else if th.pc.Validate? {
      ValidateWork(th.pc.challenge, Accepts(cfg, th.pc.challenge, o.now));
    } else {
      LockedWork(cfg, t, th, w, o);
    }
  }

  predicate WorkDrops(pc: Pc, pc': Pc) {
    One(IsTrip(pc)) + TripsLeft(pc') <= TripsLeft(pc) && One(pc.Pay?) + PaysLeft(pc') <= PaysLeft(pc)
  }

  lemma ValidateWork(c: Challenge, accepted: bool)
    ensures WorkDrops(Validate(c), AfterValidate(c, accepted))
  {}

  lemma UnlockedWork(cfg: Config, t: nat, th: Thread, w: World, o: Outcome)
    requires Fits(cfg, th, o) && !Holding(th.pc)
    ensures WorkDrops(th.pc, Advance(cfg, t, th, w, o).0.pc)
  {}

  lemma LockedWork(cfg: Config, t: nat, th: Thread, w: World, o: Outcome)
    requires Fits(cfg, th, o) && Holding(th.pc) && !th.pc.Validate?
    ensures WorkDrops(th.pc, Advance(cfg, t, th, w, o).0.pc)
  {}

  lemma {:induction false} WorkLeft(cfg: Config, s: State, acts: seq<Action>, t: nat)
    requires Legal(cfg, s, acts)
    ensures t < |s.threads| ==>
              && Tally(cfg, BaseTrips(t), s, acts) <= TripsLeft(s.threads[t].pc)
              && Tally(cfg, PayCalls(t), s, acts) <= PaysLeft(s.threads[t].pc)
    ensures t >= |s.threads| ==> Tally(cfg, BaseTrips(t), s, acts) <= 4 && Tally(cfg, PayCalls(t), s, acts) <= 1
    decreases |acts|
  {
    if acts != [] {
      var a := acts[0];
      if a.Step? {
        WorkEffect(cfg, a.thread, s.threads[a.thread], s.world, a.outcome);
      }
      WorkLeft(cfg, Apply(cfg, s, a), acts[1..], t);
    }
  }

  /** Every request makes at most four base round trips and pays at most one
      invoice, whatever the other requests do. */
  lemma BoundedWork(cfg: Config, s0: State, acts: seq<Action>, t: nat)
    requires Init(cfg, s0) && Legal(cfg, s0, acts)
    ensures Tally(cfg, BaseTrips(t), s0, acts) <= 4
    ensures Tally(cfg, PayCalls(t), s0, acts) <= 1
  {
    WorkLeft(cfg, s0, acts, t);
  }
}
