/** Which token an invalidation removes. */
module ProtocolInvalidation {
  import opened Wrappers
  import opened Protocol
  import opened ProtocolSafety
  import opened ProtocolLedger
  import opened ProtocolScenarios

  // ----- A payment's token is stored once at most

  /** The payment whose token a call still has to store. */
  function ToStore(pc: Pc): Option<nat> {
    match pc
    case Record(proof) => if proof.challenge.OfL402? then Some(proof.payment) else None
    case NoteEvent(proof) => if proof.challenge.OfL402? then Some(proof.payment) else None
    case StorePaid(proof) => Some(proof.payment)
    case _ => None
  }

  /** No call still has to store the token of this payment. */
  ghost predicate Settled(s: State, payment: nat) {
    && payment < |s.world.hist.payments|
    && forall t :: 0 <= t < |s.threads| ==> ToStore(s.threads[t].pc) != Some(payment)
  }

  ghost predicate SettledInv(s: State) {
    && (forall name :: IsPaid(s.world.disk.store, Some(name)) ==> Settled(s, s.world.disk.store[name].proof.payment))
    && (forall t :: 0 <= t < |s.threads| && ToStore(s.threads[t].pc).Some? ==>
          ToStore(s.threads[t].pc).value < |s.world.hist.payments|)
    && (forall t, u :: 0 <= t < u < |s.threads| && ToStore(s.threads[t].pc).Some? ==>
          ToStore(s.threads[t].pc) != ToStore(s.threads[u].pc))
  }

  /** A step keeps the payment it has to store a token for, or makes a new one. */
  lemma ToStoreEffect(cfg: Config, t: nat, th: Thread, w: World, o: Outcome)
    requires Fits(cfg, th, o)
    ensures var (th', w') := Advance(cfg, t, th, w, o);
      && w.hist.payments <= w'.hist.payments
      && (ToStore(th'.pc).Some? && ToStore(th'.pc) != ToStore(th.pc) ==>
            ToStore(th'.pc).value == |w.hist.payments| && |w'.hist.payments| == |w.hist.payments| + 1)
      && (th.pc.StorePaid? ==> ToStore(th'.pc).None?)
  {}

  /** What a step may put into the store: the token that the call has to store, in
      the call's own directory. */
  lemma StoreEffect(cfg: Config, t: nat, th: Thread, w: World, o: Outcome, name: string)
    requires Fits(cfg, th, o)
    ensures var store, store' := w.disk.store, Advance(cfg, t, th, w, o).1.disk.store;
      IsPaid(store', Some(name)) ==>
        || (IsPaid(store, Some(name)) && store'[name] == store[name]
            && !(cfg.dir(th.domain) == Some(name) && th.pc.StorePaid? && o == Wrote(true)))
        || (cfg.dir(th.domain) == Some(name) && th.pc.StorePaid? && o == Wrote(true)
            && store'[name].proof == th.pc.proof)
  {}

  lemma SettledStep(cfg: Config, s: State, a: Action, payment: nat)
    requires Enabled(cfg, s, a) && Settled(s, payment)
    ensures Settled(Apply(cfg, s, a), payment)
  {
    if a.Step? { ToStoreEffect(cfg, a.thread, s.threads[a.thread], s.world, a.outcome); }
  }

  lemma SettledInvStep(cfg: Config, s: State, a: Action)
    requires Enabled(cfg, s, a) && SettledInv(s)
    ensures SettledInv(Apply(cfg, s, a))
  {
    var s' := Apply(cfg, s, a);
    if a.Step? { ToStoreEffect(cfg, a.thread, s.threads[a.thread], s.world, a.outcome); }
    forall name | IsPaid(s'.world.disk.store, Some(name))
      ensures Settled(s', s'.world.disk.store[name].proof.payment)
    {
      if a.Step? { StoreEffect(cfg, a.thread, s.threads[a.thread], s.world, a.outcome, name); }
      if IsPaid(s.world.disk.store, Some(name)) && s'.world.disk.store[name] == s.world.disk.store[name] {
        SettledStep(cfg, s, a, s.world.disk.store[name].proof.payment);
      } else {
        JustStored(cfg, s, a.thread, a.outcome);
      }
    }
  }

  lemma JustStored(cfg: Config, s: State, t: nat, o: Outcome)
    requires Enabled(cfg, s, Step(t, o)) && SettledInv(s) && s.threads[t].pc.StorePaid?
    ensures Settled(Apply(cfg, s, Step(t, o)), s.threads[t].pc.proof.payment)
  {
    ToStoreEffect(cfg, t, s.threads[t], s.world, o);
  }

  lemma {:induction false} SettledRun(cfg: Config, s: State, acts: seq<Action>)
    requires SettledInv(s) && Legal(cfg, s, acts)
    ensures SettledInv(Run(cfg, s, acts))
    decreases |acts|
  {
    if acts != [] {
      SettledInvStep(cfg, s, acts[0]);
      SettledRun(cfg, Apply(cfg, s, acts[0]), acts[1..]);
    }
  }

  // ----- The token that was read

  /** The directory of the domain holds no paid token but this one. */
  ghost predicate OnlyThis(cfg: Config, s: State, d: string, proof: Credential) {
    PaidFor(cfg, s, d) ==> s.world.disk.store[cfg.dir(d).value].proof == proof
  }

  ghost predicate NotThis(cfg: Config, s: State, d: string, proof: Credential) {
    PaidFor(cfg, s, d) ==> s.world.disk.store[cfg.dir(d).value].proof.payment != proof.payment
  }

  lemma EntryStep(cfg: Config, s: State, a: Action, d: string, proof: Credential)
    requires Enabled(cfg, s, a) && SettledInv(s) && Settled(s, proof.payment)
    ensures Settled(Apply(cfg, s, a), proof.payment)
    ensures Hits(cfg, Stores(d), s, a) ==> NotThis(cfg, Apply(cfg, s, a), d, proof)
    ensures !Hits(cfg, Stores(d), s, a) && OnlyThis(cfg, s, d, proof) ==> OnlyThis(cfg, Apply(cfg, s, a), d, proof)
    ensures !Hits(cfg, Stores(d), s, a) && NotThis(cfg, s, d, proof) ==> NotThis(cfg, Apply(cfg, s, a), d, proof)
  {
    SettledStep(cfg, s, a, proof.payment);
    if a.Step? && PaidFor(cfg, Apply(cfg, s, a), d) {
      StoreEffect(cfg, a.thread, s.threads[a.thread], s.world, a.outcome, cfg.dir(d).value);
    }
  }

  lemma {:induction false} EntryRun(cfg: Config, s: State, acts: seq<Action>, d: string, proof: Credential)
    requires Legal(cfg, s, acts) && SettledInv(s) && Settled(s, proof.payment)
    ensures OnlyThis(cfg, s, d, proof) && Tally(cfg, Stores(d), s, acts) == 0 ==>
            OnlyThis(cfg, Run(cfg, s, acts), d, proof)
    ensures NotThis(cfg, s, d, proof) || Tally(cfg, Stores(d), s, acts) != 0 ==>
            NotThis(cfg, Run(cfg, s, acts), d, proof)
    decreases |acts|
  {
    if acts != [] {
      EntryStep(cfg, s, acts[0], d, proof);
      SettledInvStep(cfg, s, acts[0]);
      EntryRun(cfg, Apply(cfg, s, acts[0]), acts[1..], d, proof);
    }
  }

  /** Whose token an invalidation removes, exactly. A request reads a paid token in a
      reachable state, to send it, and some time after is about to invalidate, while
      there is a paid token. That one is the one it read if and only if no paid token
      has been stored in the directory since. */
  lemma InvalidationExact(cfg: Config, s0: State, before: seq<Action>, t: nat, acts: seq<Action>)
    requires Init(cfg, s0) && Legal(cfg, s0, before)
    requires var s := Run(cfg, s0, before);
      && t < |s.threads| && s.threads[t].pc.Start? && Enabled(cfg, s, Step(t, Read(true)))
      && var s1 := Apply(cfg, s, Step(t, Read(true)));
         && s1.threads[t].pc.SendCached? && Legal(cfg, s1, acts)
         && var s2 := Run(cfg, s1, acts);
            t < |s2.threads| && s2.threads[t].pc.Invalidate? && PaidFor(cfg, s2, s.threads[t].domain)
    ensures var s := Run(cfg, s0, before); var d := s.threads[t].domain;
            var s1 := Apply(cfg, s, Step(t, Read(true))); var s2 := Run(cfg, s1, acts);
            && s2.threads[t].domain == d
            && (s2.world.disk.store[cfg.dir(d).value].proof == s1.threads[t].pc.proof
                <==> Tally(cfg, Stores(d), s1, acts) == 0)
  {
    InvReachable(cfg, s0, before);
    SettledRun(cfg, s0, before);
    var s, a := Run(cfg, s0, before), Step(t, Read(true));
    var d, s1 := s.threads[t].domain, Apply(cfg, s, a);
    assert IsPaid(s.world.disk.store, Some(cfg.dir(d).value));
    SettledInvStep(cfg, s, a);
    EntryRun(cfg, s1, acts, d, s1.threads[t].pc.proof);
    DomainKept(cfg, s1, acts, t);
  }

  lemma {:induction false} DomainKept(cfg: Config, s: State, acts: seq<Action>, t: nat)
    requires Legal(cfg, s, acts) && t < |s.threads|
    ensures var s' := Run(cfg, s, acts); t < |s'.threads| && s'.threads[t].domain == s.threads[t].domain
    decreases |acts|
  {
    if acts != [] {
      if acts[0].Step? {
        LockEffect(cfg, acts[0].thread, s.threads[acts[0].thread], s.world, acts[0].outcome);
      }
      DomainKept(cfg, Apply(cfg, s, acts[0]), acts[1..], t);
    }
  }

  // ----- A token that was never sent is removed

  lemma {:induction false} RunConcat(cfg: Config, s: State, acts: seq<Action>, more: seq<Action>)
    requires Legal(cfg, s, acts) && Legal(cfg, Run(cfg, s, acts), more)
    ensures Legal(cfg, s, acts + more) && Run(cfg, s, acts + more) == Run(cfg, Run(cfg, s, acts), more)
    decreases |acts|
  {
    if acts == [] {
      assert acts + more == more;
    } else {
      RunConcat(cfg, Apply(cfg, s, acts[0]), acts[1..], more);
      assert (acts + more)[1..] == acts[1..] + more;
    }
  }

  /** A request finds the token, sends it, and is answered with a challenge. */
  lemma SendAndFail(cfg: Config, domains: iset<string>, s0: State, s: State, d: string, c: Challenge)
    returns (last: State)
    requires Reaches(cfg, domains, s0, s) && d in domains && Receivable(cfg, c) && c.OfL402? && PaidFor(cfg, s, d)
    ensures Reaches(cfg, domains, s0, last)
    ensures last.threads == s.threads + [Thread(d, Invalidate(true), 0, 0, false)]
    ensures last.world == Send(s.world, d, s.world.disk.store[cfg.dir(d).value].proof)
  {
    var t, th, proof := |s.threads|, Thread(d, Start, 0, 0, false), s.world.disk.store[cfg.dir(d).value].proof;
    var r :| Detect(cfg, cfg.schemes, r) == Some(c);
    ReachesNext(cfg, domains, s0, s, Spawn(d));
    var s1 := State(s.threads + [th], s.world);
    Move(cfg, domains, s0, s1, t, Read(true), th.(pc := SendCached(proof)), s.world);
    var s2 := State(s.threads + [th.(pc := SendCached(proof))], s.world);
    assert s1.threads[t := th.(pc := SendCached(proof))] == s2.threads;
    last := State(s.threads + [th.(pc := Invalidate(true))], Send(s.world, d, proof));
    Move(cfg, domains, s0, s2, t, Reply(r), th.(pc := Invalidate(true)), last.world);
    assert s2.threads[t := th.(pc := Invalidate(true))] == last.threads;
  }

  /** No crash, and every write takes effect. */
  ghost predicate Unbroken(acts: seq<Action>) {
    forall i :: 0 <= i < |acts| ==> !acts[i].Crash? && (acts[i].Step? ==> acts[i].outcome != Wrote(false))
  }

  lemma {:induction false} SmoothIsUnbroken(cfg: Config, s: State, acts: seq<Action>)
    requires Legal(cfg, s, acts) && SmoothRun(cfg, s, acts)
    ensures Unbroken(acts)
    decreases |acts|
  {
    if acts != [] {
      SmoothIsUnbroken(cfg, Apply(cfg, s, acts[0]), acts[1..]);
      assert forall i :: 0 < i < |acts| ==> acts[i] == acts[1..][i - 1];
    }
  }

  /** After `before`, request `t` reads the token that it sends; after `acts` it is
      about to remove another. */
  ghost predicate RemovesAnother(cfg: Config, d: string, t: nat, before: seq<Action>, acts: seq<Action>) {
    && Legal(cfg, Empty(), before) && Unbroken(before) && Confined(before, iset{d})
    && var s := Run(cfg, Empty(), before);
       && t < |s.threads| && s.threads[t] == Thread(d, Start, 0, 0, false) && Enabled(cfg, s, Step(t, Read(true)))
       && var s1 := Apply(cfg, s, Step(t, Read(true)));
          && s1.threads[t].pc.SendCached? && Legal(cfg, s1, acts) && Unbroken(acts) && Confined(acts, iset{d})
          && var s2 := Run(cfg, s1, acts);
             && t < |s2.threads| && s2.threads[t].pc.Invalidate? && PaidFor(cfg, s2, d)
             && s2.world.disk.store[cfg.dir(d).value].proof != s1.threads[t].pc.proof
  }

  /** Two requests send a token that the server no longer takes. One of them buys a
      new one before the other's invalidation, which then removes the new token. So
      it can be for every L402 challenge that can be paid, though nothing fails. */
  lemma LateInvalidation(cfg: Config, d: string, c: Challenge, preimage: string)
    requires c.OfL402? && PayableAt(cfg, d, c)
    ensures exists before, acts :: RemovesAnother(cfg, d, 1, before, acts)
  {
    var s := SecondReads(cfg, d, c, preimage);
    var before :| Leads(cfg, iset{d}, Empty(), before, s);
    SmoothIsUnbroken(cfg, Empty(), before);
    var s1 := Apply(cfg, s, Step(1, Read(true)));
    var acts := ThirdBuys(cfg, d, c, preimage, s1);
    assert RemovesAnother(cfg, d, 1, before, acts);
  }

  /** A first request has bought a token, a second one is about to read it. */
  lemma SecondReads(cfg: Config, d: string, c: Challenge, preimage: string) returns (s: State)
    requires c.OfL402? && PayableAt(cfg, d, c)
    ensures Reaches(cfg, iset{d}, Empty(), s) && |s.threads| == 2 && s.threads[1] == Thread(d, Start, 0, 0, false)
    ensures PaidFor(cfg, s, d) && s.world.disk.store[cfg.dir(d).value].proof == Credential(c, preimage, 0)
    ensures |s.world.hist.payments| == 1 && LockOf(s.world.mem, d) !in s.world.mem.holder
  {
    var domains, s0 := iset{d}, Empty();
    ReachesSelf(cfg, domains, s0);
    var s1 := Buy(cfg, domains, s0, s0, d, true, c, preimage);
    var s2 := Finish(cfg, domains, s0, s1, 0);
    ReachesNext(cfg, domains, s0, s2, Spawn(d));
    s := State(s2.threads + [Thread(d, Start, 0, 0, false)], s2.world);
  }

  /** The second request's token is refused, and so is that of a third, which removes
      it and buys another. */
  lemma ThirdBuys(cfg: Config, d: string, c: Challenge, preimage: string, s: State) returns (acts: seq<Action>)
    requires c.OfL402? && PayableAt(cfg, d, c) && |s.threads| == 2
    requires s.threads[1] == Thread(d, SendCached(Credential(c, preimage, 0)), 0, 0, false)
    requires PaidFor(cfg, s, d) && s.world.disk.store[cfg.dir(d).value].proof == Credential(c, preimage, 0)
    requires |s.world.hist.payments| == 1 && LockOf(s.world.mem, d) !in s.world.mem.holder
    ensures Legal(cfg, s, acts) && Unbroken(acts) && Confined(acts, iset{d})
    ensures var last := Run(cfg, s, acts);
      && |last.threads| == 3 && last.threads[1].pc.Invalidate? && PaidFor(cfg, last, d)
      && last.world.disk.store[cfg.dir(d).value].proof == Credential(c, preimage, 1)
  {
    var domains := iset{d};
    var s1 := BothRefused(cfg, d, c, preimage, s);
    var early :| Leads(cfg, domains, s, early, s1);
    var removal := Step(2, Wrote(true));
    var s2 := Apply(cfg, s1, removal);
    var last := BuysAgain(cfg, d, c, preimage, s2);
    var late :| Leads(cfg, domains, s2, late, last);
    SmoothIsUnbroken(cfg, s, early);
    SmoothIsUnbroken(cfg, s2, late);
    RunAppend(cfg, s, early, removal);
    RunConcat(cfg, s, early + [removal], late);
    acts := early + [removal] + late;
  }

  lemma BothRefused(cfg: Config, d: string, c: Challenge, preimage: string, s: State) returns (last: State)
    requires c.OfL402? && PayableAt(cfg, d, c) && |s.threads| == 2
    requires s.threads[1] == Thread(d, SendCached(Credential(c, preimage, 0)), 0, 0, false)
    requires PaidFor(cfg, s, d)
    ensures Reaches(cfg, iset{d}, s, last) && |last.threads| == 3
    ensures last.threads[1] == last.threads[2] == Thread(d, Invalidate(true), 0, 0, false)
    ensures last.world.mem == s.world.mem && last.world.disk == s.world.disk
    ensures last.world.hist.payments == s.world.hist.payments
  {
    var domains, th, proof := iset{d}, s.threads[1], Credential(c, preimage, 0);
    ReachesSelf(cfg, domains, s);
    var r :| Detect(cfg, cfg.schemes, r) == Some(c);
    Move(cfg, domains, s, s, 1, Reply(r), th.(pc := Invalidate(true)), Send(s.world, d, proof));
    var s1 := State(s.threads[1 := th.(pc := Invalidate(true))], Send(s.world, d, proof));
    last := SendAndFail(cfg, domains, s, s1, d, c);
  }

  /** The third request, its token gone, pays and keeps what it bought. */
  lemma BuysAgain(cfg: Config, d: string, c: Challenge, preimage: string, s: State) returns (last: State)
    requires c.OfL402? && PayableAt(cfg, d, c) && |s.threads| == 3
    requires s.threads[1].pc.Invalidate? && s.threads[2] == Thread(d, TakeLock, 0, 0, false)
    requires !PaidFor(cfg, s, d) && |s.world.hist.payments| == 1 && LockOf(s.world.mem, d) !in s.world.mem.holder
    ensures Reaches(cfg, iset{d}, s, last) && |last.threads| == 3 && last.threads[1] == s.threads[1]
    ensures PaidFor(cfg, last, d) && last.world.disk.store[cfg.dir(d).value].proof == Credential(c, preimage, 1)
  {
    var domains, l, m := iset{d}, LockOf(s.world.mem, d), Locked(s.world.mem, d, 2);
    ReachesSelf(cfg, domains, s);
    TakeTurn(cfg, domains, s, s, 2, true);
    var th := Thread(d, SendFresh, l, 0, false);
    var s1 := State(s.threads[2 := th], s.world.(mem := m));
    ToPay(cfg, domains, s, s1, 2, c);
    var w := Receiving(s1.world, d, c);
    var s2 := State(s1.threads[2 := th.(pc := Pay(c))], SetStore(w, With(w.disk.store, cfg.dir(d), Pending(c.offer))));
    PayUp(cfg, domains, s, s2, 2, preimage);
    var proof := Credential(c, preimage, 1);
    var s3 := State(s2.threads[2 := th.(pc := Record(proof))], Paying(s2.world, d, c, preimage));
    last := Finish(cfg, domains, s, s3, 2);
  }
}
