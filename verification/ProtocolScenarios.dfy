/** Particular runs of the protocol, put together step by step. They show that what
    the safety lemmas exclude only under a condition does happen without it. */
module ProtocolScenarios {
  import opened Wrappers
  import opened Protocol
  import opened ProtocolSafety
  import opened ProtocolLedger
  import Budget
  import Invoice
  import PaymentHeader
  import Text

  // ----- Reaching a state

  /** Nothing goes wrong but, perhaps, a read: no crash, no invalidation, and every
      write takes effect. */
  predicate Smooth(s: State, a: Action) {
    && !a.Crash?
    && (a.Step? ==> a.outcome != Wrote(false) && (a.thread < |s.threads| ==> !s.threads[a.thread].pc.Invalidate?))
  }

  ghost predicate SmoothRun(cfg: Config, s: State, acts: seq<Action>)
    requires Legal(cfg, s, acts)
    decreases |acts|
  {
    acts == [] || (Smooth(s, acts[0]) && SmoothRun(cfg, Apply(cfg, s, acts[0]), acts[1..]))
  }

  /** A smooth run among these domains leads from one state to another. */
  ghost predicate Leads(cfg: Config, domains: iset<string>, s: State, acts: seq<Action>, last: State) {
    Legal(cfg, s, acts) && SmoothRun(cfg, s, acts) && Confined(acts, domains) && Run(cfg, s, acts) == last
  }

  ghost predicate Reaches(cfg: Config, domains: iset<string>, s: State, last: State) {
    exists acts :: Leads(cfg, domains, s, acts, last)
  }

  lemma ReachesSelf(cfg: Config, domains: iset<string>, s: State)
    ensures Reaches(cfg, domains, s, s)
  {
    assert Leads(cfg, domains, s, [], s);
  }

  lemma {:induction false} SmoothAppend(cfg: Config, s: State, acts: seq<Action>, a: Action)
    requires Legal(cfg, s, acts) && SmoothRun(cfg, s, acts) && Enabled(cfg, Run(cfg, s, acts), a)
    requires Smooth(Run(cfg, s, acts), a)
    ensures Legal(cfg, s, acts + [a]) && SmoothRun(cfg, s, acts + [a])
    decreases |acts|
  {
    RunAppend(cfg, s, acts, a);
    if acts == [] {
      assert acts + [a] == [a];
      assert [a][1..] == [];
    } else {
      SmoothAppend(cfg, Apply(cfg, s, acts[0]), acts[1..], a);
      assert (acts + [a])[1..] == acts[1..] + [a];
    }
  }

  lemma ReachesNext(cfg: Config, domains: iset<string>, s0: State, s: State, a: Action)
    requires Reaches(cfg, domains, s0, s) && Enabled(cfg, s, a) && Smooth(s, a) && (a.Spawn? ==> a.domain in domains)
    ensures Reaches(cfg, domains, s0, Apply(cfg, s, a))
  {
    var acts :| Leads(cfg, domains, s0, acts, s);
    RunAppend(cfg, s0, acts, a);
    SmoothAppend(cfg, s0, acts, a);
    assert Leads(cfg, domains, s0, acts + [a], Apply(cfg, s, a));
  }

  /** One step of request `t`. */
  lemma Move(cfg: Config, domains: iset<string>, s0: State, s: State, t: nat, o: Outcome, th: Thread, w: World)
    requires Reaches(cfg, domains, s0, s) && Enabled(cfg, s, Step(t, o)) && Smooth(s, Step(t, o))
    requires Advance(cfg, t, s.threads[t], s.world, o) == (th, w)
    ensures Reaches(cfg, domains, s0, State(s.threads[t := th], w))
  {
    ReachesNext(cfg, domains, s0, s, Step(t, o));
  }

  /** On a smooth run no token is invalidated, no final store fails, nothing is lost. */
  lemma {:induction false} SmoothLosses(cfg: Config, s: State, acts: seq<Action>, d: string)
    requires Legal(cfg, s, acts) && SmoothRun(cfg, s, acts)
    ensures Tally(cfg, Discarded(d), s, acts) == 0 && Tally(cfg, FailedStore(d), s, acts) == 0
    ensures Tally(cfg, LostInCrash(d), s, acts) == 0
    decreases |acts|
  {
    if acts != [] {
      SmoothLosses(cfg, Apply(cfg, s, acts[0]), acts[1..], d);
    }
  }

  // ----- The course of a request

  function LockOf(m: Memory, d: string): nat { if d in m.locks then m.locks[d] else m.nextLock }

  function Locked(m: Memory, d: string, t: nat): Memory {
    m.(locks := m.locks[d := LockOf(m, d)], nextLock := if d in m.locks then m.nextLock else m.nextLock + 1,
       holder := m.holder[LockOf(m, d) := t])
  }

  function Unlocked(m: Memory, l: nat): Memory { m.(holder := m.holder - {l}) }

  /** What a request that finds nothing to send has missed. */
  predicate Misses(cfg: Config, s: State, d: string, readable: bool) {
    !readable && L402 in cfg.schemes && PaidFor(cfg, s, d)
  }

  predicate FindsNothing(cfg: Config, s: State, d: string, readable: bool) {
    (readable ==> cfg.dir(d).Some?) && Cached(cfg.schemes, s.world.disk.store, cfg.dir(d), readable).None?
  }

  /** A request begins, finds nothing to send and is answered with a challenge. */
  lemma Ask(cfg: Config, domains: iset<string>, s0: State, s: State, d: string, readable: bool, c: Challenge)
    requires Reaches(cfg, domains, s0, s) && d in domains && FindsNothing(cfg, s, d, readable) && Receivable(cfg, c)
    ensures Reaches(cfg, domains, s0, State(s.threads + [Thread(d, TakeLock, 0, 0, false)], s.world))
  {
    var t, th, w := |s.threads|, Thread(d, Start, 0, 0, false), s.world;
    var r :| Detect(cfg, cfg.schemes, r) == Some(c);
    ReachesNext(cfg, domains, s0, s, Spawn(d));
    var s1 := State(s.threads + [th], w);
    Move(cfg, domains, s0, s1, t, Read(readable), th.(pc := SendPlain), w);
    var s2 := State(s.threads + [th.(pc := SendPlain)], w);
    assert s1.threads[t := th.(pc := SendPlain)] == s2.threads;
    Move(cfg, domains, s0, s2, t, Reply(r), th.(pc := TakeLock), w);
    assert s2.threads[t := th.(pc := TakeLock)] == s.threads + [th.(pc := TakeLock)];
  }

  /** It takes its lock, and its double-check finds nothing. */
  lemma TakeTurn(cfg: Config, domains: iset<string>, s0: State, s: State, t: nat, readable: bool)
    requires t < |s.threads| && s.threads[t].pc.TakeLock? && s.threads[t].inserted == 0
    requires Reaches(cfg, domains, s0, s) && FindsNothing(cfg, s, s.threads[t].domain, readable)
    requires LockOf(s.world.mem, s.threads[t].domain) !in s.world.mem.holder
    ensures var d := s.threads[t].domain; var l := LockOf(s.world.mem, d);
            Reaches(cfg, domains, s0, State(s.threads[t := Thread(d, SendFresh, l, 0, Misses(cfg, s, d, readable))],
                                            s.world.(mem := Locked(s.world.mem, d, t))))
  {
    var d, m, th := s.threads[t].domain, s.world.mem, s.threads[t];
    var l := LockOf(m, d);
    var m1 := m.(locks := m.locks[d := l], nextLock := if d in m.locks then m.nextLock else m.nextLock + 1);
    assert d in m.locks ==> m.locks[d := l] == m.locks;
    var th1 := th.(pc := WaitLock, lock := l);
    Move(cfg, domains, s0, s, t, Quiet, th1, s.world.(mem := m1));
    var s1 := State(s.threads[t := th1], s.world.(mem := m1));
    var w2 := s.world.(mem := Locked(m, d, t));
    Move(cfg, domains, s0, s1, t, Quiet, th1.(pc := Recheck), w2);
    var s2 := State(s.threads[t := th1.(pc := Recheck)], w2);
    assert s1.threads[t := th1.(pc := Recheck)] == s2.threads;
    var th3 := Thread(d, SendFresh, l, 0, Misses(cfg, s, d, readable));
    Move(cfg, domains, s0, s2, t, Read(readable), th3, w2);
    assert s2.threads[t := th3] == s.threads[t := th3];
  }

  function Kept(cfg: Config, w: World, d: string, token: Token): World {
    SetStore(w, With(w.disk.store, cfg.dir(d), token))
  }

  function Receiving(w: World, d: string, c: Challenge): World {
    w.(hist := w.hist.(received := w.hist.received + {Receipt(d, c)}))
  }

  /** It receives a fresh challenge, and gets as far as paying for it. */
  lemma ToPay(cfg: Config, domains: iset<string>, s0: State, s: State, t: nat, c: Challenge)
    requires t < |s.threads| && s.threads[t].pc.SendFresh? && Reaches(cfg, domains, s0, s)
    requires PayableAt(cfg, s.threads[t].domain, c)
    ensures var th := s.threads[t]; var w := Receiving(s.world, th.domain, c);
            Reaches(cfg, domains, s0, State(s.threads[t := th.(pc := Pay(c))],
                                            if c.OfL402? then Kept(cfg, w, th.domain, Pending(c.offer)) else w))
  {
    var th, w := s.threads[t], Receiving(s.world, s.threads[t].domain, c);
    var r :| Detect(cfg, cfg.schemes, r) == Some(c);
    Move(cfg, domains, s0, s, t, Reply(r), th.(pc := Validate(c)), w);
    var s1 := State(s.threads[t := th.(pc := Validate(c))], w);
    Review(cfg, domains, s0, s1, t);
    if c.OfL402? {
      var s2 := State(s.threads[t := th.(pc := RemoveStale(c))], w);
      assert s1.threads[t := th.(pc := RemoveStale(c))] == s2.threads;
      Prepare(cfg, domains, s0, s2, t);
      assert s2.threads[t := th.(pc := Pay(c))] == s.threads[t := th.(pc := Pay(c))];
    } else {
      assert s1.threads[t := th.(pc := Pay(c))] == s.threads[t := th.(pc := Pay(c))];
    }
  }

  lemma Review(cfg: Config, domains: iset<string>, s0: State, s: State, t: nat)
    requires t < |s.threads| && s.threads[t].pc.Validate? && Reaches(cfg, domains, s0, s)
    requires Acceptable(cfg, s.threads[t].pc.challenge)
    ensures var th := s.threads[t]; var c := th.pc.challenge;
            Reaches(cfg, domains, s0,
                    State(s.threads[t := th.(pc := if c.OfL402? then RemoveStale(c) else Pay(c))], s.world))
  {
    var th, c := s.threads[t], s.threads[t].pc.challenge;
    var now := AcceptedAt(cfg, c);
    Move(cfg, domains, s0, s, t, Checked(now), th.(pc := AfterValidate(c, true)), s.world);
  }

  lemma Prepare(cfg: Config, domains: iset<string>, s0: State, s: State, t: nat)
    requires t < |s.threads| && s.threads[t].pc.RemoveStale? && s.threads[t].pc.challenge.OfL402?
    requires Reaches(cfg, domains, s0, s) && cfg.dir(s.threads[t].domain).Some?
    ensures var th := s.threads[t]; var c := th.pc.challenge;
            Reaches(cfg, domains, s0, State(s.threads[t := th.(pc := Pay(c))],
                                            Kept(cfg, s.world, th.domain, Pending(c.offer))))
  {
    var th, c, dir := s.threads[t], s.threads[t].pc.challenge, cfg.dir(s.threads[t].domain);
    var store := s.world.disk.store;
    var w1 := SetStore(s.world, Without(store, dir));
    Move(cfg, domains, s0, s, t, Wrote(true), th.(pc := StorePending(c)), w1);
    var s1 := State(s.threads[t := th.(pc := StorePending(c))], w1);
    assert With(Without(store, dir), dir, Pending(c.offer)) == With(store, dir, Pending(c.offer));
    Move(cfg, domains, s0, s1, t, Wrote(true), th.(pc := Pay(c)),
         SetStore(s.world, With(store, dir, Pending(c.offer))));
    assert s1.threads[t := th.(pc := Pay(c))] == s.threads[t := th.(pc := Pay(c))];
  }

  function Paying(w: World, d: string, c: Challenge, preimage: string): World {
    w.(hist := w.hist.(payments := w.hist.payments + [PaymentRecord(d, c, preimage)]))
  }

  /** The payment succeeds. */
  lemma PayUp(cfg: Config, domains: iset<string>, s0: State, s: State, t: nat, preimage: string)
    requires t < |s.threads| && s.threads[t].pc.Pay? && Reaches(cfg, domains, s0, s)
    requires HashMatches(cfg, s.threads[t].pc.challenge, preimage)
    ensures var th := s.threads[t]; var proof := Credential(th.pc.challenge, preimage, |s.world.hist.payments|);
            Reaches(cfg, domains, s0, State(s.threads[t := th.(pc := Record(proof))],
                                            Paying(s.world, th.domain, th.pc.challenge, preimage)))
  {
    var th, c := s.threads[t], s.threads[t].pc.challenge;
    Move(cfg, domains, s0, s, t, PayResult(Some(preimage)),
         th.(pc := Record(Credential(c, preimage, |s.world.hist.payments|))), Paying(s.world, th.domain, c, preimage));
  }

  /** From the first look to the call of the payer, in one. */
  lemma Approach(cfg: Config, domains: iset<string>, s0: State, s: State, d: string, readable: bool, c: Challenge)
    returns (last: State)
    requires Reaches(cfg, domains, s0, s) && d in domains && FindsNothing(cfg, s, d, readable)
    requires LockOf(s.world.mem, d) !in s.world.mem.holder
    requires PayableAt(cfg, d, c)
    ensures Reaches(cfg, domains, s0, last)
    ensures var w := s.world;
      && last.threads == s.threads + [Thread(d, Pay(c), LockOf(w.mem, d), 0, Misses(cfg, s, d, readable))]
      && last.world.mem == Locked(w.mem, d, |s.threads|)
      && last.world.disk ==
           (if c.OfL402? then w.disk.(store := With(w.disk.store, cfg.dir(d), Pending(c.offer))) else w.disk)
      && last.world.hist.payments == w.hist.payments && last.world.hist.sent == w.hist.sent
  {
    var t, l, missed := |s.threads|, LockOf(s.world.mem, d), Misses(cfg, s, d, readable);
    Ask(cfg, domains, s0, s, d, readable, c);
    var s1 := State(s.threads + [Thread(d, TakeLock, 0, 0, false)], s.world);
    TakeTurn(cfg, domains, s0, s1, t, readable);
    var th2 := Thread(d, SendFresh, l, 0, missed);
    var s2 := State(s.threads + [th2], s.world.(mem := Locked(s.world.mem, d, t)));
    assert s1.threads[t := th2] == s2.threads;
    ToPay(cfg, domains, s0, s2, t, c);
    var w3 := Receiving(s2.world, d, c);
    last := State(s.threads + [th2.(pc := Pay(c))],
                  if c.OfL402? then SetStore(w3, With(w3.disk.store, cfg.dir(d), Pending(c.offer))) else w3);
    assert s2.threads[t := th2.(pc := Pay(c))] == last.threads;
  }

  /** And through the payment. */
  lemma Buy(cfg: Config, domains: iset<string>, s0: State, s: State, d: string, readable: bool, c: Challenge,
            preimage: string)
    returns (last: State)
    requires Reaches(cfg, domains, s0, s) && d in domains && FindsNothing(cfg, s, d, readable)
    requires LockOf(s.world.mem, d) !in s.world.mem.holder
    requires PayableAt(cfg, d, c) && HashMatches(cfg, c, preimage)
    ensures Reaches(cfg, domains, s0, last)
    ensures var proof := Credential(c, preimage, |s.world.hist.payments|); var w := s.world;
      && last.threads == s.threads + [Thread(d, Record(proof), LockOf(w.mem, d), 0, Misses(cfg, s, d, readable))]
      && last.world.mem == Locked(w.mem, d, |s.threads|)
      && last.world.disk ==
           (if c.OfL402? then w.disk.(store := With(w.disk.store, cfg.dir(d), Pending(c.offer))) else w.disk)
      && last.world.hist.payments == w.hist.payments + [PaymentRecord(d, c, preimage)]
      && last.world.hist.sent == w.hist.sent
  {
    var t, proof := |s.threads|, Credential(c, preimage, |s.world.hist.payments|);
    var s1 := Approach(cfg, domains, s0, s, d, readable, c);
    PayUp(cfg, domains, s0, s1, t, preimage);
    var th := s1.threads[t].(pc := Record(proof));
    last := State(s.threads + [th], Paying(s1.world, d, c, preimage));
    assert s1.threads[t := th] == last.threads;
  }

  /** The token is stored, the request retried, and the lock released. */
  lemma Finish(cfg: Config, domains: iset<string>, s0: State, s: State, t: nat) returns (last: State)
    requires t < |s.threads| && s.threads[t].pc.Record? && s.threads[t].pc.proof.challenge.OfL402?
    requires Reaches(cfg, domains, s0, s) && cfg.dir(s.threads[t].domain).Some?
    ensures Reaches(cfg, domains, s0, last)
    ensures var th := s.threads[t];
      && last.threads == s.threads[t := th.(pc := Done)]
      && last.world.mem == Unlocked(s.world.mem, th.lock)
      && last.world.disk == s.world.disk.(store := With(s.world.disk.store, cfg.dir(th.domain), Paid(th.pc.proof)))
      && last.world.hist.payments == s.world.hist.payments
      && last.world.hist.sent == s.world.hist.sent + [Sent(th.domain, th.pc.proof)]
  {
    var th, proof := s.threads[t], s.threads[t].pc.proof;
    Move(cfg, domains, s0, s, t, Recorded(false), th.(pc := StorePaid(proof)), s.world);
    var s1 := State(s.threads[t := th.(pc := StorePaid(proof))], s.world);
    var w := SetStore(s.world, With(s.world.disk.store, cfg.dir(th.domain), Paid(proof)));
    Move(cfg, domains, s0, s1, t, Wrote(true), th.(pc := ReadEvent(proof)), w);
    var s2 := State(s.threads[t := th.(pc := ReadEvent(proof))], w);
    assert s1.threads[t := th.(pc := ReadEvent(proof))] == s2.threads;
    last := Retry(cfg, domains, s0, s2, t);
    assert s2.threads[t := th.(pc := Done)] == s.threads[t := th.(pc := Done)];
  }

  lemma Retry(cfg: Config, domains: iset<string>, s0: State, s: State, t: nat) returns (last: State)
    requires t < |s.threads| && s.threads[t].pc.ReadEvent? && Reaches(cfg, domains, s0, s)
    ensures Reaches(cfg, domains, s0, last)
    ensures var th := s.threads[t];
            last == State(s.threads[t := th.(pc := Done)],
                          Send(s.world, th.domain, th.pc.proof).(mem := Unlocked(s.world.mem, th.lock)))
  {
    var th, proof := s.threads[t], s.threads[t].pc.proof;
    var event := LastEvent(s.world.mem, proof.challenge.Scheme());
    Move(cfg, domains, s0, s, t, Quiet, th.(pc := SendPaid(proof, event)), s.world);
    var s1 := State(s.threads[t := th.(pc := SendPaid(proof, event))], s.world);
    var w := Send(s.world, th.domain, proof);
    Move(cfg, domains, s0, s1, t, Lost, th.(pc := Unlock), w);
    var s2 := State(s.threads[t := th.(pc := Unlock)], w);
    assert s1.threads[t := th.(pc := Unlock)] == s2.threads;
    last := State(s.threads[t := th.(pc := Done)], w.(mem := Unlocked(s.world.mem, th.lock)));
    Move(cfg, domains, s0, s2, t, Quiet, th.(pc := Done), last.world);
    assert s2.threads[t := th.(pc := Done)] == last.threads;
  }

  // ----- A paid token that a read misses

  /** The L402 payments to a domain in a history. */
  ghost function BoughtCount(payments: seq<PaymentRecord>, d: string): nat {
    if payments == [] then 0
    else
      var last := payments[|payments| - 1];
      BoughtCount(payments[..|payments| - 1], d) + One(last.domain == d && last.challenge.OfL402?)
  }

  lemma PurchaseCounted(cfg: Config, s: State, a: Action, d: string)
    requires Enabled(cfg, s, a)
    ensures BoughtCount(Apply(cfg, s, a).world.hist.payments, d)
         == BoughtCount(s.world.hist.payments, d) + One(Hits(cfg, Purchases(d), s, a))
  {
    var before, after := s.world.hist.payments, Apply(cfg, s, a).world.hist.payments;
    if after != before {
      assert after[..|after| - 1] == before;
    }
  }

  lemma {:induction false} PurchasesCounted(cfg: Config, s: State, acts: seq<Action>, d: string)
    requires Legal(cfg, s, acts)
    ensures BoughtCount(Run(cfg, s, acts).world.hist.payments, d)
         == BoughtCount(s.world.hist.payments, d) + Tally(cfg, Purchases(d), s, acts)
    decreases |acts|
  {
    if acts != [] {
      PurchaseCounted(cfg, s, acts[0], d);
      PurchasesCounted(cfg, Apply(cfg, s, acts[0]), acts[1..], d);
    }
  }

  /** One failed read is enough to pay twice. From every start without a paid token
      for the domain, with every L402 challenge that can be paid there, two requests
      can pay although nothing is invalidated, every write takes effect and the
      process never dies: the second one's double-check fails, and the handler clears
      the token that the first one bought. */
  lemma MissedReadPaysTwice(cfg: Config, s0: State, d: string, c: Challenge, preimage: string)
    requires Init(cfg, s0) && !PaidFor(cfg, s0, d) && c.OfL402? && PayableAt(cfg, d, c)
    ensures exists acts ::
      && Legal(cfg, s0, acts) && SmoothRun(cfg, s0, acts) && Confined(acts, iset{d})
      && Tally(cfg, Purchases(d), s0, acts) == 2 && Tally(cfg, Cleared(d), s0, acts) == 1
      && Tally(cfg, Missed(d), s0, acts) >= 1
  {
    var last := BoughtTwice(cfg, s0, d, c, preimage);
    var acts :| Leads(cfg, iset{d}, s0, acts, last);
    TwoPayments(s0.world.hist.payments, last.world.hist.payments, PaymentRecord(d, c, preimage));
    PurchasesCounted(cfg, s0, acts, d);
    SmoothLosses(cfg, s0, acts, d);
    PayOnce(cfg, iset{d}, s0, acts, d);
  }

  /** A request buys a token and ends; the next one misses it and buys another. */
  lemma BoughtTwice(cfg: Config, s0: State, d: string, c: Challenge, preimage: string) returns (last: State)
    requires Init(cfg, s0) && !PaidFor(cfg, s0, d) && c.OfL402? && PayableAt(cfg, d, c)
    ensures Reaches(cfg, iset{d}, s0, last) && InFlight(last, d)
    ensures var p := PaymentRecord(d, c, preimage); last.world.hist.payments == s0.world.hist.payments + [p] + [p]
  {
    var domains := iset{d};
    ReachesSelf(cfg, domains, s0);
    var s1 := Buy(cfg, domains, s0, s0, d, true, c, preimage);
    var s2 := Finish(cfg, domains, s0, s1, 0);
    last := Buy(cfg, domains, s0, s2, d, false, c, preimage);
    assert CarriesToken(last.threads[1].pc);
  }

  lemma TwoPayments(before: seq<PaymentRecord>, after: seq<PaymentRecord>, p: PaymentRecord)
    requires after == before + [p] + [p] && p.challenge.OfL402?
    ensures BoughtCount(after, p.domain) == BoughtCount(before, p.domain) + 2
  {
    var middle := before + [p];
    assert after[..|after| - 1] == middle && middle[..|middle| - 1] == before;
  }

  // ----- A token that another domain's request finds

  /** Every credential sent was bought from the domain it is sent to. */
  ghost predicate OwnSent(h: History) {
    forall i :: 0 <= i < |h.sent| ==>
      h.sent[i].proof.payment < |h.payments| && h.payments[h.sent[i].proof.payment].domain == h.sent[i].domain
  }

  ghost predicate PaidAmong(h: History, domains: iset<string>) {
    forall i :: 0 <= i < |h.payments| ==> h.payments[i].domain in domains
  }

  /** It is so in every run among the domains. */
  ghost predicate AlwaysOwn(cfg: Config, domains: iset<string>) {
    forall s0, acts ::
      Init(cfg, s0) && PaidAmong(s0.world.hist, domains) && Legal(cfg, s0, acts) && Confined(acts, domains) ==>
      OwnSent(Run(cfg, s0, acts).world.hist)
  }

  ghost predicate AmongInv(s: State, domains: iset<string>) {
    && Within(s, domains) && PaidAmong(s.world.hist, domains)
    && forall i :: 0 <= i < |s.world.hist.sent| ==> s.world.hist.sent[i].domain in domains
  }

  lemma AmongStep(cfg: Config, s: State, a: Action, domains: iset<string>)
    requires AmongInv(s, domains) && Enabled(cfg, s, a) && (a.Spawn? ==> a.domain in domains)
    ensures AmongInv(Apply(cfg, s, a), domains)
  {
    WithinStep(cfg, domains, s, a);
    if a.Step? {
      BookedToOwn(cfg, a.thread, s.threads[a.thread], s.world, a.outcome);
    }
  }

  /** A step books payments and sent credentials to its own domain. */
  lemma BookedToOwn(cfg: Config, t: nat, th: Thread, w: World, o: Outcome)
    requires Fits(cfg, th, o)
    ensures var h, h' := w.hist, Advance(cfg, t, th, w, o).1.hist;
      && h.payments <= h'.payments && h.sent <= h'.sent
      && (forall i :: |h.payments| <= i < |h'.payments| ==> h'.payments[i].domain == th.domain)
      && (forall i :: |h.sent| <= i < |h'.sent| ==> h'.sent[i].domain == th.domain)
  {}

  lemma {:induction false} AmongRun(cfg: Config, s: State, acts: seq<Action>, domains: iset<string>)
    requires AmongInv(s, domains) && Legal(cfg, s, acts) && Confined(acts, domains)
    ensures AmongInv(Run(cfg, s, acts), domains)
    decreases |acts|
  {
    if acts != [] {
      AmongStep(cfg, s, acts[0], domains);
      AmongRun(cfg, Apply(cfg, s, acts[0]), acts[1..], domains);
    }
  }

  /** A token can be kept by one domain's request and found by another's. */
  ghost predicate SharesTokens(cfg: Config, domains: iset<string>) {
    L402 in cfg.schemes && !Separate(cfg, domains) && exists offer :: Legible(cfg, OfL402(offer))
  }

  lemma UnmixedMeansOwn(cfg: Config, domains: iset<string>, s0: State, acts: seq<Action>)
    requires !SharesTokens(cfg, domains)
    requires Init(cfg, s0) && PaidAmong(s0.world.hist, domains) && Legal(cfg, s0, acts) && Confined(acts, domains)
    ensures OwnSent(Run(cfg, s0, acts).world.hist)
  {
    InvReachable(cfg, s0, acts);
    AmongRun(cfg, s0, acts, domains);
    var h := Run(cfg, s0, acts).world.hist;
    forall i | 0 <= i < |h.sent|
      ensures h.payments[h.sent[i].proof.payment].domain == h.sent[i].domain
    {
      var proof := h.sent[i].proof;
      assert Proven(cfg, h, h.sent[i].domain, proof);
      if proof.challenge.OfL402? { assert Legible(cfg, OfL402(proof.challenge.offer)); }
    }
  }

  /** A process that starts with nothing. */
  function Empty(): State {
    State([], World(Memory(map[], 0, map[], map[]), Disk(map[], 1), History([], {}, [], 0)))
  }

  /** Two domains with one directory: from an empty start, a request to the second
      sends what was bought from the first, with any L402 challenge that can be paid
      there. */
  lemma SharedDirectoryLeaks(cfg: Config, domains: iset<string>, d: string, e: string, c: Challenge, preimage: string)
    requires c.OfL402? && PayableAt(cfg, d, c) && d != e && SharesDir(cfg, d, e) && d in domains && e in domains
    ensures exists acts ::
            Legal(cfg, Empty(), acts) && Confined(acts, domains) && !OwnSent(Run(cfg, Empty(), acts).world.hist)
  {
    var s0 := Empty();
    ReachesSelf(cfg, domains, s0);
    var s1 := Buy(cfg, domains, s0, s0, d, true, c, preimage);
    var s2 := Finish(cfg, domains, s0, s1, 0);
    FindAndSend(cfg, domains, s0, s2, e);
  }

  /** A request to the domain finds a token that was bought from another one, and
      sends it. */
  lemma FindAndSend(cfg: Config, domains: iset<string>, s0: State, s: State, e: string)
    requires Reaches(cfg, domains, s0, s) && e in domains && L402 in cfg.schemes && PaidFor(cfg, s, e)
    requires var proof := s.world.disk.store[cfg.dir(e).value].proof;
             proof.payment < |s.world.hist.payments| && s.world.hist.payments[proof.payment].domain != e
    ensures exists acts :: Legal(cfg, s0, acts) && Confined(acts, domains) && !OwnSent(Run(cfg, s0, acts).world.hist)
  {
    var proof, t, th := s.world.disk.store[cfg.dir(e).value].proof, |s.threads|, Thread(e, Start, 0, 0, false);
    ReachesNext(cfg, domains, s0, s, Spawn(e));
    var s1 := State(s.threads + [th], s.world);
    Move(cfg, domains, s0, s1, t, Read(true), th.(pc := SendCached(proof)), s1.world);
    var s2 := State(s1.threads[t := th.(pc := SendCached(proof))], s1.world);
    var w := Send(s2.world, e, proof);
    Move(cfg, domains, s0, s2, t, Lost, th.(pc := Done), w);
    var last := State(s2.threads[t := th.(pc := Done)], w);
    var acts :| Leads(cfg, domains, s0, acts, last);
    assert w.hist.sent[|w.hist.sent| - 1] == Sent(e, proof);
  }

  /** A start with a paid token that an earlier process bought from the domain. */
  function LeftBehind(cfg: Config, d: string, c: Challenge): State
    requires cfg.dir(d).Some?
  {
    var store := map[cfg.dir(d).value := Paid(Credential(c, "", 0))];
    var hist := History([PaymentRecord(d, c, "")], {Receipt(d, c)}, [], 1);
    State([], World(Memory(map[], 0, map[], map[]), Disk(store, 1), hist))
  }

  /** Credentials are sent only where they were bought, in every run among some
      domains, exactly when no two of them share a directory, L402 is not configured
      or no L402 challenge can be parsed. */
  lemma AlwaysOwnExact(cfg: Config, domains: iset<string>)
    ensures AlwaysOwn(cfg, domains) <==> !SharesTokens(cfg, domains)
  {
    if SharesTokens(cfg, domains) {
      var d, e :| d in domains && e in domains && SharesDir(cfg, d, e) && d != e;
      var offer :| Legible(cfg, OfL402(offer));
      var s0 := LeftBehind(cfg, d, OfL402(offer));
      assert Init(cfg, s0) && PaidAmong(s0.world.hist, domains);
      ReachesSelf(cfg, domains, s0);
      FindAndSend(cfg, domains, s0, s0, e);
    } else {
      forall s0, acts | && Init(cfg, s0) && PaidAmong(s0.world.hist, domains)
                        && Legal(cfg, s0, acts) && Confined(acts, domains)
        ensures OwnSent(Run(cfg, s0, acts).world.hist)
      {
        UnmixedMeansOwn(cfg, domains, s0, acts);
      }
    }
  }

  // ----- What is paid

  /** Some run of a process pays this challenge of the domain. */
  ghost predicate MayPay(cfg: Config, d: string, c: Challenge) {
    exists s0, acts, i: nat :: PaysIn(cfg, d, c, s0, acts, i)
  }

  ghost predicate PaysIn(cfg: Config, d: string, c: Challenge, s0: State, acts: seq<Action>, i: nat) {
    && Init(cfg, s0) && Legal(cfg, s0, acts)
    && |s0.world.hist.payments| <= i < |Run(cfg, s0, acts).world.hist.payments|
    && Run(cfg, s0, acts).world.hist.payments[i].domain == d && Run(cfg, s0, acts).world.hist.payments[i].challenge == c
  }

  lemma PaidIsPayable(cfg: Config, d: string, c: Challenge)
    requires MayPay(cfg, d, c)
    ensures PayableAt(cfg, d, c)
  {
    var s0: State, acts: seq<Action>, i: nat :| PaysIn(cfg, d, c, s0, acts, i);
    InvReachable(cfg, s0, acts);
    PriorIsFixed(cfg, s0, acts);
    var payments := Run(cfg, s0, acts).world.hist.payments;
    assert PayableAt(cfg, payments[i].domain, payments[i].challenge);
  }

  lemma PayableIsPaid(cfg: Config, d: string, c: Challenge)
    requires PayableAt(cfg, d, c)
    ensures MayPay(cfg, d, c)
  {
    var s0, domains := Empty(), iset{d};
    ReachesSelf(cfg, domains, s0);
    var s1 := Approach(cfg, domains, s0, s0, d, cfg.dir(d).Some?, c);
    var o := PayResult(Some(""));
    ReachesNext(cfg, domains, s0, s1, Step(0, o));
    var s2 := Apply(cfg, s1, Step(0, o));
    assert s2.world.hist.payments == [PaymentRecord(d, c, "")];
    var acts :| Leads(cfg, domains, s0, acts, s2);
    assert PaysIn(cfg, d, c, s0, acts, 0);
  }

  /** A challenge may be paid exactly when a response can carry it, its scheme has a
      directory for the domain if it stores tokens, and the handler accepts it at
      some moment. */
  lemma MayPayExact(cfg: Config, d: string, c: Challenge)
    ensures MayPay(cfg, d, c) <==> PayableAt(cfg, d, c)
  {
    if MayPay(cfg, d, c) {
      PaidIsPayable(cfg, d, c);
    } else if PayableAt(cfg, d, c) {
      PayableIsPaid(cfg, d, c);
    }
  }

  /** An L402 challenge whose printed invoice asks for more than the cap may be paid
      exactly when a response can carry it and its amount is misread. */
  lemma OverCapOfferExact(cfg: Config, d: string, offer: L402Offer,
                          net: Invoice.Network, ds: string, m: Invoice.Multiplier, data: string)
    requires cfg.maxCostSat >= 0 && ds != "" && Text.AllDigits(ds) && Invoice.Separated(m, data)
    requires Text.ToLower(offer.invoice) == Invoice.Print(net, ds, m, data)
    requires Invoice.ExactPico(ds, m) >= (cfg.maxCostSat + 1) * Invoice.PICO_PER_SAT
    ensures MayPay(cfg, d, OfL402(offer))
            <==> && Receivable(cfg, OfL402(offer)) && Chargeable(cfg, d, L402)
                 && Invoice.Misread(ds, m, cfg.maxCostSat)
  {
    MayPayExact(cfg, d, OfL402(offer));
    Invoice.CapIsExact(net, ds, m, data, offer.invoice, cfg.maxCostSat);
  }

  /** A Payment challenge whose printed invoice asks for more than the cap may be paid
      exactly when a response can carry it, it passes the other checks at some moment,
      and its amount slips through. */
  lemma OverCapChargeExact(cfg: Config, d: string, charge: PaymentHeader.Challenge, invoice: string,
                           net: Invoice.Network, ds: string, m: Invoice.Multiplier, data: string)
    requires cfg.maxCostSat >= 0 && ds != "" && Text.AllDigits(ds) && Invoice.Separated(m, data)
    requires Text.ToLower(invoice) == Invoice.Print(net, ds, m, data)
    requires Invoice.ExactPico(ds, m) >= (cfg.maxCostSat + 1) * Invoice.PICO_PER_SAT
    requires charge.request.Some? && charge.request.value.methodDetails.Some?
             && charge.request.value.methodDetails.value.invoice == invoice
    ensures MayPay(cfg, d, OfPayment(charge))
            <==> && Receivable(cfg, OfPayment(charge))
                 && Budget.PassesChecks(charge, Budget.NoExpiry) && Budget.Dated(charge.expires, cfg.timestamp)
                 && Budget.SlipsThrough(charge.request.value.amount, ds, m, cfg.maxCostSat)
  {
    MayPayExact(cfg, d, OfPayment(charge));
    if Budget.PassesChecks(charge, Budget.NoExpiry) {
      Budget.OverCapExact(charge, Budget.NoExpiry, cfg.maxCostSat, net, ds, m, data);
    }
  }
}
