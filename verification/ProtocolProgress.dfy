/** The payment protocol never blocks for good, and every set of requests ends. */
module ProtocolProgress {
  import opened Wrappers
  import opened Protocol
  import opened ProtocolSafety

  /** An upper bound on the steps ahead of a request. */
  function Rank(pc: Pc): nat {
    match pc
    case Start => 19
    case SendCached(_) => 18
    case Invalidate(_) => 17
    case SendPlain => 16
    case TakeLock => 15
    case WaitLock => 14
    case Recheck => 13
    case SendFresh => 12
    case Validate(_) => 11
    case RemoveStale(_) => 10
    case StorePending(_) => 9
    case Pay(_) => 8
    case Record(_) => 7
    case NoteEvent(_) => 6
    case StorePaid(_) => 5
    case ReadEvent(_) => 4
    case SendPaid(_, _) => 3
    case RecordFailure(_) => 3
    case NoteFailure(_) => 2
    case SendFound(_) => 2
    case Enrich(_) => 2
    case Unlock => 1
    case Done => 0
  }

  ghost function TotalRank(threads: seq<Thread>): nat {
    if threads == [] then 0 else TotalRank(threads[..|threads| - 1]) + Rank(threads[|threads| - 1].pc)
  }

  lemma {:induction false} RankUpdate(threads: seq<Thread>, t: nat, th: Thread)
    requires t < |threads|
    ensures TotalRank(threads[t := th]) + Rank(threads[t].pc) == TotalRank(threads) + Rank(th.pc)
  {
    var n := |threads| - 1;
    if t == n {
      assert threads[t := th][..n] == threads[..n];
    } else {
      assert threads[t := th][..n] == threads[..n][t := th];
      RankUpdate(threads[..n], t, th);
    }
  }

  lemma {:induction false} RankBound(threads: seq<Thread>)
    ensures TotalRank(threads) <= 19 * |threads|
  {
    if threads != [] { RankBound(threads[..|threads| - 1]); }
  }

  lemma RankDrops(cfg: Config, t: nat, th: Thread, w: World, o: Outcome)
    requires Fits(cfg, th, o)
    ensures Rank(Advance(cfg, t, th, w, o).0.pc) < Rank(th.pc)
  {
    if !Holding(th.pc) {
      RankDropsUnlocked(cfg, t, th, w, o);
    } else if th.pc.Validate? {
      RankDropsValidating(cfg, t, th, w, o);
    } else if Rank(th.pc) > 8 {
      RankDropsBeforePayment(cfg, t, th, w, o);
    } else {
      RankDropsFromPayment(cfg, t, th, w, o);
    }
  }

  lemma RankDropsUnlocked(cfg: Config, t: nat, th: Thread, w: World, o: Outcome)
    requires Fits(cfg, th, o) && !Holding(th.pc)
    ensures Rank(Advance(cfg, t, th, w, o).0.pc) < Rank(th.pc)
  {}

  lemma RankDropsValidating(cfg: Config, t: nat, th: Thread, w: World, o: Outcome)
    requires Fits(cfg, th, o) && th.pc.Validate?
    ensures Rank(Advance(cfg, t, th, w, o).0.pc) < Rank(th.pc)
  {
    ValidateRank(th.pc.challenge, Accepts(cfg, th.pc.challenge, o.now));
  }

  lemma ValidateRank(c: Challenge, accepted: bool)
    ensures Rank(AfterValidate(c, accepted)) < Rank(Validate(c))
  {}

  lemma RankDropsBeforePayment(cfg: Config, t: nat, th: Thread, w: World, o: Outcome)
    requires Fits(cfg, th, o) && Holding(th.pc) && Rank(th.pc) > 8 && !th.pc.Validate?
    ensures Rank(Advance(cfg, t, th, w, o).0.pc) < Rank(th.pc)
  {}

  lemma RankDropsFromPayment(cfg: Config, t: nat, th: Thread, w: World, o: Outcome)
    requires Fits(cfg, th, o) && Holding(th.pc) && Rank(th.pc) <= 8
    ensures Rank(Advance(cfg, t, th, w, o).0.pc) < Rank(th.pc)
  {}

  ghost predicate StepsOnly(acts: seq<Action>) { forall i :: 0 <= i < |acts| ==> acts[i].Step? }

  /** Termination: without new requests, a run has at most as many steps as the
      ranks of its requests add up to, so at most 19 for each of them. */
  lemma {:induction false} RunsEnd(cfg: Config, s: State, acts: seq<Action>)
    requires Legal(cfg, s, acts) && StepsOnly(acts)
    ensures |acts| + TotalRank(Run(cfg, s, acts).threads) <= TotalRank(s.threads) <= 19 * |s.threads|
    decreases |acts|
  {
    RankBound(s.threads);
    if acts != [] {
      var t, th := acts[0].thread, s.threads[acts[0].thread];
      RankDrops(cfg, t, th, s.world, acts[0].outcome);
      RankUpdate(s.threads, t, Advance(cfg, t, th, s.world, acts[0].outcome).0);
      RunsEnd(cfg, Apply(cfg, s, acts[0]), acts[1..]);
    }
  }

  ghost predicate AllDone(s: State) {
    forall t :: 0 <= t < |s.threads| ==> s.threads[t].pc.Done?
  }

  /** Some outcome that an operation can have. */
  function SomeOutcome(pc: Pc): Outcome {
    match pc
    case Start => Read(false)
    case Recheck => Read(false)
    case SendCached(_) => Lost
    case SendPlain => Lost
    case SendFound(_) => Lost
    case SendFresh => Lost
    case SendPaid(_, _) => Lost
    case Invalidate(_) => Wrote(false)
    case RemoveStale(_) => Wrote(false)
    case StorePending(_) => Wrote(false)
    case StorePaid(_) => Wrote(false)
    case Validate(_) => Checked(0)
    case Pay(_) => PayResult(None)
    case Record(_) => Recorded(false)
    case RecordFailure(_) => Recorded(false)
    case _ => Quiet
  }

  /** The request that can move when `t` cannot: the holder of the lock it waits for. */
  ghost function Unblocked(s: State, t: nat): nat
    requires LockInv(s) && t < |s.threads|
  {
    if Ready(s.threads[t], s.world) then t else s.world.mem.holder[s.threads[t].lock]
  }

  /** No deadlock: while a request is unfinished, it or the holder of its lock can
      take a step, whatever the environment answers. */
  lemma CanStep(cfg: Config, s: State, t: nat)
    requires LockInv(s) && t < |s.threads| && !s.threads[t].pc.Done?
    ensures var u := Unblocked(s, t); u < |s.threads| && !s.threads[u].pc.Done?
    ensures forall o :: Fits(cfg, s.threads[Unblocked(s, t)], o) ==> Enabled(cfg, s, Step(Unblocked(s, t), o))
    ensures Enabled(cfg, s, Step(Unblocked(s, t), SomeOutcome(s.threads[Unblocked(s, t)].pc)))
  {
  }

  /** Total correctness of scheduling: from every reachable state, a run of steps
      that cannot be extended has finished every request. */
  lemma MaximalRunsFinish(cfg: Config, s0: State, before: seq<Action>, acts: seq<Action>)
    requires Init(cfg, s0) && Legal(cfg, s0, before)
    requires var s := Run(cfg, s0, before); Legal(cfg, s, acts) && StepsOnly(acts)
    requires var s := Run(cfg, Run(cfg, s0, before), acts); forall t, o :: !Enabled(cfg, s, Step(t, o))
    ensures AllDone(Run(cfg, Run(cfg, s0, before), acts))
    ensures |acts| <= 19 * |Run(cfg, s0, before).threads|
  {
    InvReachable(cfg, s0, before);
    InvRun(cfg, Run(cfg, s0, before), acts);
    RunsEnd(cfg, Run(cfg, s0, before), acts);
    var s := Run(cfg, Run(cfg, s0, before), acts);
    forall t | 0 <= t < |s.threads|
      ensures s.threads[t].pc.Done?
    {
      if !s.threads[t].pc.Done? {
        CanStep(cfg, s, t);
      }
    }
  }
}
