/** The course of one request: the outcomes of its own steps, in order, and what
    they must have been for the request to be where it is. */
module ProtocolCourse {
  import opened Wrappers
  import opened Protocol
  import opened ProtocolSafety
  import opened ProtocolLedger

  // ----- Own steps

  /** The outcomes of the steps of request `t`. */
  ghost function OwnSteps(acts: seq<Action>, t: nat): seq<Outcome> {
    if acts == [] then []
    else
      var a := acts[|acts| - 1];
      OwnSteps(acts[..|acts| - 1], t) + if a.Step? && a.thread == t then [a.outcome] else []
  }

  lemma OwnAppend(acts: seq<Action>, a: Action, t: nat)
    ensures OwnSteps(acts + [a], t) == OwnSteps(acts, t) + if a.Step? && a.thread == t then [a.outcome] else []
  {
    assert (acts + [a])[..|acts|] == acts;
  }

  predicate IsReply(o: Outcome) { o.Lost? || o.Reply? }

  /** How the last base round trip ended. */
  ghost function LastTrip(own: seq<Outcome>): Option<Outcome> {
    if own == [] then None
    else if IsReply(own[|own| - 1]) then Some(own[|own| - 1])
    else LastTrip(own[..|own| - 1])
  }

  /** What the clock showed when a challenge was last checked. */
  ghost function LastCheck(own: seq<Outcome>): Option<int> {
    if own == [] then None
    else if own[|own| - 1].Checked? then Some(own[|own| - 1].now)
    else LastCheck(own[..|own| - 1])
  }

  lemma {:induction false} RunSplit(cfg: Config, s: State, acts: seq<Action>)
    requires Legal(cfg, s, acts) && acts != []
    ensures var front, a := acts[..|acts| - 1], acts[|acts| - 1];
            && Legal(cfg, s, front) && Enabled(cfg, Run(cfg, s, front), a)
            && Run(cfg, s, acts) == Apply(cfg, Run(cfg, s, front), a)
    decreases |acts|
  {
    if |acts| > 1 {
      RunSplit(cfg, Apply(cfg, s, acts[0]), acts[1..]);
      assert acts[1..][..|acts| - 2] == acts[..|acts| - 1][1..];
    }
  }

  /** A request that has not begun has made no step. */
  lemma {:induction false} OwnOfNew(cfg: Config, s: State, acts: seq<Action>, t: nat)
    requires Legal(cfg, s, acts) && |Run(cfg, s, acts).threads| <= t
    ensures OwnSteps(acts, t) == []
  {
    if acts != [] {
      RunSplit(cfg, s, acts);
      OwnOfNew(cfg, s, acts[..|acts| - 1], t);
    }
  }

  // ----- Where a request is, and how it got there

  /** The last base round trip brought this challenge. */
  ghost predicate Brought(cfg: Config, own: seq<Outcome>, c: Challenge) {
    LastTrip(own).Some? && LastTrip(own).value.Reply?
      && Detect(cfg, cfg.schemes, LastTrip(own).value.response) == Some(c)
  }

  ghost predicate Challenged(cfg: Config, own: seq<Outcome>) { exists c :: Brought(cfg, own, c) }

  /** The last base round trip ended in a 402. */
  ghost predicate Got402(own: seq<Outcome>) {
    LastTrip(own).Some? && LastTrip(own).value.Reply? && LastTrip(own).value.response.is402
  }

  /** The challenge was checked, and passed at what the clock showed. */
  ghost predicate Passed(cfg: Config, own: seq<Outcome>, c: Challenge) {
    LastCheck(own).Some? && Accepts(cfg, c, LastCheck(own).value)
  }

  /** The step before was a look for a cached credential. */
  ghost predicate Looked(own: seq<Outcome>) { own != [] && own[|own| - 1].Read? }

  /** The step before was a write that took effect. */
  ghost predicate Kept(own: seq<Outcome>) { own != [] && own[|own| - 1] == Wrote(true) }

  /** What must have happened for a request to be here. */
  ghost predicate Fitting(cfg: Config, pc: Pc, own: seq<Outcome>) {
    match pc
    case Start => own == []
    case SendCached(_) => own == [Read(true)]
    case Invalidate(challenged) => Got402(own) && (challenged <==> Challenged(cfg, own))
    case SendPlain => |own| == 1 || (Got402(own) && !Challenged(cfg, own))
    case TakeLock => Challenged(cfg, own)
    case WaitLock => Challenged(cfg, own)
    case Recheck => Challenged(cfg, own)
    case SendFound(_) => Challenged(cfg, own) && own[|own| - 1] == Read(true)
    case SendFresh => Challenged(cfg, own) && Looked(own)
    case Validate(c) => Brought(cfg, own, c)
    case RemoveStale(c) => Brought(cfg, own, c) && Passed(cfg, own, c)
    case StorePending(c) => Brought(cfg, own, c) && Passed(cfg, own, c)
    case Pay(c) => Brought(cfg, own, c) && Passed(cfg, own, c) && (c.OfL402? ==> Kept(own))
    case Record(proof) => Brought(cfg, own, proof.challenge) && Passed(cfg, own, proof.challenge)
    case NoteEvent(proof) => Brought(cfg, own, proof.challenge) && Passed(cfg, own, proof.challenge)
    case StorePaid(proof) => Brought(cfg, own, proof.challenge) && Passed(cfg, own, proof.challenge)
    case ReadEvent(proof) =>
      && Brought(cfg, own, proof.challenge) && Passed(cfg, own, proof.challenge)
      && (proof.challenge.OfL402? ==> Kept(own))
    case SendPaid(proof, _) => Brought(cfg, own, proof.challenge) && Passed(cfg, own, proof.challenge)
    case _ => true
  }

  lemma LastOf(own: seq<Outcome>, o: Outcome)
    ensures LastTrip(own + [o]) == if IsReply(o) then Some(o) else LastTrip(own)
    ensures LastCheck(own + [o]) == if o.Checked? then Some(o.now) else LastCheck(own)
  {
    assert (own + [o])[..|own|] == own;
  }

  lemma FittingStep(cfg: Config, t: nat, th: Thread, w: World, o: Outcome, own: seq<Outcome>)
    requires Fits(cfg, th, o) && Fitting(cfg, th.pc, own)
    ensures Fitting(cfg, Advance(cfg, t, th, w, o).0.pc, own + [o])
  {
    LastOf(own, o);
    if !Holding(th.pc) {
      FittingUnlocked(cfg, t, th, w, o, own);
    } else if th.pc.Validate? {
      FittingValidating(cfg, t, th, w, o, own);
    } else {
      FittingLocked(cfg, t, th, w, o, own);
    }
  }

  lemma ChallengedIs(cfg: Config, own: seq<Outcome>)
    ensures Challenged(cfg, own)
            <==> && LastTrip(own).Some? && LastTrip(own).value.Reply?
                 && Detect(cfg, cfg.schemes, LastTrip(own).value.response).Some?
  {
    if LastTrip(own).Some? && LastTrip(own).value.Reply?
      && Detect(cfg, cfg.schemes, LastTrip(own).value.response).Some? {
      assert Brought(cfg, own, Detect(cfg, cfg.schemes, LastTrip(own).value.response).value);
    }
  }

  lemma FittingUnlocked(cfg: Config, t: nat, th: Thread, w: World, o: Outcome, own: seq<Outcome>)
    requires Fits(cfg, th, o) && Fitting(cfg, th.pc, own) && !Holding(th.pc)
    requires LastTrip(own + [o]) == if IsReply(o) then Some(o) else LastTrip(own)
    ensures Fitting(cfg, Advance(cfg, t, th, w, o).0.pc, own + [o])
  {
    ChallengedIs(cfg, own);
    ChallengedIs(cfg, own + [o]);
  }

  lemma FittingValidating(cfg: Config, t: nat, th: Thread, w: World, o: Outcome, own: seq<Outcome>)
    requires Fits(cfg, th, o) && Fitting(cfg, th.pc, own) && th.pc.Validate?
    requires LastTrip(own + [o]) == if IsReply(o) then Some(o) else LastTrip(own)
    requires LastCheck(own + [o]) == if o.Checked? then Some(o.now) else LastCheck(own)
    ensures Fitting(cfg, Advance(cfg, t, th, w, o).0.pc, own + [o])
  {
    assert Brought(cfg, own + [o], th.pc.challenge);
  }

  lemma FittingLocked(cfg: Config, t: nat, th: Thread, w: World, o: Outcome, own: seq<Outcome>)
    requires Fits(cfg, th, o) && Fitting(cfg, th.pc, own) && Holding(th.pc) && !th.pc.Validate?
    requires LastTrip(own + [o]) == if IsReply(o) then Some(o) else LastTrip(own)
    requires LastCheck(own + [o]) == if o.Checked? then Some(o.now) else LastCheck(own)
    ensures Fitting(cfg, Advance(cfg, t, th, w, o).0.pc, own + [o])
  {
    if th.pc.Recheck? || th.pc.SendFresh? {
      FittingLooking(cfg, t, th, w, o, own);
    } else if o.Wrote? {
      FittingWriting(cfg, t, th, w, o, own);
    } else if th.pc.Pay? {
      FittingPaying(cfg, t, th, w, o, own);
    }
  }

  lemma FittingPaying(cfg: Config, t: nat, th: Thread, w: World, o: Outcome, own: seq<Outcome>)
    requires Fits(cfg, th, o) && Fitting(cfg, th.pc, own) && th.pc.Pay?
    requires LastTrip(own + [o]) == LastTrip(own) && LastCheck(own + [o]) == LastCheck(own)
    ensures Fitting(cfg, Advance(cfg, t, th, w, o).0.pc, own + [o])
  {}

  lemma FittingWriting(cfg: Config, t: nat, th: Thread, w: World, o: Outcome, own: seq<Outcome>)
    requires Fits(cfg, th, o) && Fitting(cfg, th.pc, own) && Holding(th.pc) && o.Wrote?
    requires LastTrip(own + [o]) == LastTrip(own) && LastCheck(own + [o]) == LastCheck(own)
    ensures Fitting(cfg, Advance(cfg, t, th, w, o).0.pc, own + [o])
  {}

  lemma FittingLooking(cfg: Config, t: nat, th: Thread, w: World, o: Outcome, own: seq<Outcome>)
    requires Fits(cfg, th, o) && Fitting(cfg, th.pc, own) && (th.pc.Recheck? || th.pc.SendFresh?)
    requires LastTrip(own + [o]) == if IsReply(o) then Some(o) else LastTrip(own)
    ensures Fitting(cfg, Advance(cfg, t, th, w, o).0.pc, own + [o])
  {
    ChallengedIs(cfg, own);
    ChallengedIs(cfg, own + [o]);
  }

  ghost predicate CourseInv(cfg: Config, s: State, acts: seq<Action>) {
    forall t :: 0 <= t < |s.threads| ==> Fitting(cfg, s.threads[t].pc, OwnSteps(acts, t))
  }

  /** In every run, every request is where its own steps have brought it. */
  lemma {:induction false} CourseOfAll(cfg: Config, s0: State, acts: seq<Action>)
    requires Init(cfg, s0) && Legal(cfg, s0, acts)
    ensures CourseInv(cfg, Run(cfg, s0, acts), acts)
  {
    if acts != [] {
      var front, a := acts[..|acts| - 1], acts[|acts| - 1];
      RunSplit(cfg, s0, acts);
      CourseOfAll(cfg, s0, front);
      assert front + [a] == acts;
      forall t | 0 <= t < |Run(cfg, s0, acts).threads|
        ensures Fitting(cfg, Run(cfg, s0, acts).threads[t].pc, OwnSteps(acts, t))
      {
        CourseOfOne(cfg, s0, front, a, t);
      }
    }
  }

  lemma CourseOfOne(cfg: Config, s0: State, front: seq<Action>, a: Action, t: nat)
    requires Legal(cfg, s0, front) && Enabled(cfg, Run(cfg, s0, front), a)
    requires CourseInv(cfg, Run(cfg, s0, front), front)
    requires t < |Apply(cfg, Run(cfg, s0, front), a).threads|
    ensures Fitting(cfg, Apply(cfg, Run(cfg, s0, front), a).threads[t].pc, OwnSteps(front + [a], t))
  {
    var s := Run(cfg, s0, front);
    OwnAppend(front, a, t);
    if a.Step? && a.thread == t {
      FittingStep(cfg, t, s.threads[t], s.world, a.outcome, OwnSteps(front, t));
    } else if a.Spawn? && t == |s.threads| {
      OwnOfNew(cfg, s0, front, t);
    } else {
      assert OwnSteps(front + [a], t) == OwnSteps(front, t);
    }
  }

  // ----- What follows

  /** A cached credential is invalidated only after a 402: in every run, a request
      that is about to remove the token, so every step that discards a paid one, has
      a 402 as the reply to its own last base round trip. */
  lemma InvalidatesOnly402(cfg: Config, s0: State, acts: seq<Action>, a: Action, d: string)
    requires Init(cfg, s0) && Legal(cfg, s0, acts) && Enabled(cfg, Run(cfg, s0, acts), a)
    ensures var s := Run(cfg, s0, acts);
      && (forall t :: 0 <= t < |s.threads| && s.threads[t].pc.Invalidate? ==> Got402(OwnSteps(acts, t)))
      && (Hits(cfg, Discarded(d), s, a) ==> Got402(OwnSteps(acts, a.thread)))
  {
    CourseOfAll(cfg, s0, acts);
    var s := Run(cfg, s0, acts);
    forall t | 0 <= t < |s.threads| && s.threads[t].pc.Invalidate?
      ensures Got402(OwnSteps(acts, t))
    {
      assert Fitting(cfg, s.threads[t].pc, OwnSteps(acts, t));
    }
  }

  /** A fresh challenge is asked for only right after a second look for a credential,
      an L402 invoice is paid only when the pending token has just been stored, and a
      bought token is used only when it has just been stored in its place. */
  lemma StoresFirst(cfg: Config, s0: State, acts: seq<Action>, t: nat)
    requires Init(cfg, s0) && Legal(cfg, s0, acts) && t < |Run(cfg, s0, acts).threads|
    ensures var pc, own := Run(cfg, s0, acts).threads[t].pc, OwnSteps(acts, t);
      && (pc.SendFresh? ==> Looked(own))
      && (pc.Pay? && pc.challenge.OfL402? ==> Kept(own))
      && (pc.ReadEvent? && pc.proof.challenge.OfL402? ==> Kept(own))
  {
    CourseOfAll(cfg, s0, acts);
    assert Fitting(cfg, Run(cfg, s0, acts).threads[t].pc, OwnSteps(acts, t));
  }

  /** What a request pays for is the challenge in the reply to its own last base round
      trip, and the handler accepted it at what the clock showed. So a Payment
      challenge that names a time is paid only if it was checked no later than that. */
  lemma PaysInTime(cfg: Config, s0: State, acts: seq<Action>, t: nat)
    requires Init(cfg, s0) && Legal(cfg, s0, acts)
    requires var s := Run(cfg, s0, acts); t < |s.threads| && s.threads[t].pc.Pay?
    ensures var c := Run(cfg, s0, acts).threads[t].pc.challenge;
      && Brought(cfg, OwnSteps(acts, t), c) && Passed(cfg, OwnSteps(acts, t), c)
      && (c.OfPayment? && c.charge.expires != "" ==>
            && cfg.timestamp(c.charge.expires).Some?
            && LastCheck(OwnSteps(acts, t)).Some?
            && LastCheck(OwnSteps(acts, t)).value <= cfg.timestamp(c.charge.expires).value)
  {
    CourseOfAll(cfg, s0, acts);
    var c := Run(cfg, s0, acts).threads[t].pc.challenge;
    assert Fitting(cfg, Pay(c), OwnSteps(acts, t));
    if c.OfPayment? {
      AcceptedInTime(cfg, c.charge, LastCheck(OwnSteps(acts, t)).value);
    }
  }

  // ----- What is sent and paid

  /** The credential that a base round trip carries. */
  function CredentialAt(pc: Pc): Option<Credential> {
    match pc
    case SendCached(proof) => Some(proof)
    case SendFound(proof) => Some(proof)
    case SendPaid(proof, _) => Some(proof)
    case _ => None
  }

  /** What an action adds to the credentials sent. */
  function SentBy(s: State, a: Action): seq<Sent> {
    if a.Step? && a.thread < |s.threads| && CredentialAt(s.threads[a.thread].pc).Some?
    then [Sent(s.threads[a.thread].domain, CredentialAt(s.threads[a.thread].pc).value)]
    else []
  }

  /** What it adds to the payments. */
  function PaidBy(s: State, a: Action): seq<PaymentRecord> {
    if a.Step? && a.thread < |s.threads| && s.threads[a.thread].pc.Pay? && a.outcome.PayResult?
      && a.outcome.preimage.Some?
    then [PaymentRecord(s.threads[a.thread].domain, s.threads[a.thread].pc.challenge, a.outcome.preimage.value)]
    else []
  }

  /** And to the challenges received under a lock. */
  function ReceivedBy(cfg: Config, s: State, a: Action): set<Receipt> {
    if a.Step? && a.thread < |s.threads| && s.threads[a.thread].pc.SendFresh? && a.outcome.Reply?
       && Detect(cfg, cfg.schemes, a.outcome.response).Some?
    then {Receipt(s.threads[a.thread].domain, Detect(cfg, cfg.schemes, a.outcome.response).value)}
    else {}
  }

  /** Every base round trip with a credential sends that credential, every successful
      call of the payer is a payment, every challenge in a reply under a lock is
      received, and nothing else is. */
  lemma SentAndPaidExact(cfg: Config, s: State, a: Action)
    requires Enabled(cfg, s, a)
    ensures var h, h' := s.world.hist, Apply(cfg, s, a).world.hist;
            && h'.sent == h.sent + SentBy(s, a) && h'.payments == h.payments + PaidBy(s, a)
            && h'.received == h.received + ReceivedBy(cfg, s, a)
  {
    if a.Step? {
      HistoryEffect(cfg, a.thread, s.threads[a.thread], s.world, a.outcome);
    }
  }

  lemma HistoryEffect(cfg: Config, t: nat, th: Thread, w: World, o: Outcome)
    requires Fits(cfg, th, o)
    ensures var h, h' := w.hist, Advance(cfg, t, th, w, o).1.hist;
      && h'.sent == h.sent + (match CredentialAt(th.pc) case None => [] case Some(proof) => [Sent(th.domain, proof)])
      && h'.payments == h.payments + (if th.pc.Pay? && o.preimage.Some?
                                      then [PaymentRecord(th.domain, th.pc.challenge, o.preimage.value)] else [])
      && h'.received == h.received + (if th.pc.SendFresh? && o.Reply? && Detect(cfg, cfg.schemes, o.response).Some?
                                      then {Receipt(th.domain, Detect(cfg, cfg.schemes, o.response).value)} else {})
  {}
}
