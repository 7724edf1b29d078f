/** `RoundTrip` and the handlers it calls, with the control flow of the code. Each
    external call is one atomic step of the protocol, and before each of them the
    other requests may take any steps of theirs. What is proved is that the code
    performs exactly the protocol's steps, so every statement about the protocol's
    runs is a statement about this code, and that its own steps and its result are
    the course that the answers it gets call for. */
module Transport {
  import opened Wrappers
  import opened Protocol
  import opened ProtocolSafety
  import opened ProtocolCourse
  import Budget
  import Invoice
  import PaymentHeader

  /** What the outside answers to the calls of one request, and which other
      actions come before its steps. */
  datatype Environment = Environment(
    cachedReply: Option<Response>,   // base round trips; None is a transport error
    plainReply: Option<Response>,
    foundReply: Option<Response>,
    freshReply: Option<Response>,
    retryReply: Option<Response>,
    cachedRead: bool,                // store operations: whether they take effect
    recheckRead: bool,
    invalidated: bool,
    staleRemoved: bool,
    pendingStored: bool,
    paidStored: bool,
    now: int,                        // the clock when `expires` is looked at
    paid: Option<string>,            // PayInvoice
    recorded: bool,                  // RecordPaymentSuccess, RecordPaymentFailure
    others: nat -> seq<Action>)      // interference before each step

  datatype Failure =
    | Network | Refused | NotStored | PaymentFailed | HashMismatch
    | StillWaiting                   // other requests held the lock throughout

  datatype CredentialError = NoCredential | Unreadable

  /** What a request finds in the shared state: its first look for a cached
      credential, whether its lock is free when it comes, its second look. */
  datatype Finds = Finds(first: Option<Credential>, free: bool, second: Option<Credential>)

  // ----- The course that the answers call for

  function ReplyOutcome(reply: Option<Response>): Outcome {
    match reply case None => Lost case Some(response) => Reply(response)
  }

  function ReplyResult(reply: Option<Response>): Result<Response, Failure> {
    match reply case None => Err(Network) case Some(response) => Ok(response)
  }

  /** The challenge that a reply brings. */
  function ChallengeIn(cfg: Config, reply: Option<Response>): Option<Challenge> {
    if reply.None? then None else Detect(cfg, cfg.schemes, reply.value)
  }

  /** A first look, and what follows if it finds something. */
  function FirstSteps(cfg: Config, domain: string, env: Environment, first: Option<Credential>): seq<Outcome> {
    [Read(env.cachedRead && cfg.dir(domain).Some?)] + if first.None? then [] else RefusedSteps(cfg, domain, env)
  }

  /** A cached credential that the server refuses is removed; any other answer to it
      ends the call. */
  function RefusedSteps(cfg: Config, domain: string, env: Environment): seq<Outcome> {
    [ReplyOutcome(env.cachedReply)] +
    if env.cachedReply.None? || !env.cachedReply.value.is402 then []
    else [Wrote(env.invalidated && cfg.dir(domain).Some?)]
  }

  predicate FirstEnds(env: Environment, first: Option<Credential>) {
    first.Some? && (env.cachedReply.None? || !env.cachedReply.value.is402)
  }

  /** The first request has brought a challenge. */
  predicate FirstBrings(cfg: Config, env: Environment, first: Option<Credential>) {
    first.Some? && ChallengeIn(cfg, env.cachedReply).Some?
  }

  /** Without one it is asked for. */
  function PlainSteps(cfg: Config, env: Environment, first: Option<Credential>): seq<Outcome> {
    if FirstBrings(cfg, env, first) then [] else [ReplyOutcome(env.plainReply)]
  }

  predicate PlainEnds(cfg: Config, env: Environment, first: Option<Credential>) {
    !FirstBrings(cfg, env, first) && ChallengeIn(cfg, env.plainReply).None?
  }

  function RecordSteps(cfg: Config, env: Environment): seq<Outcome> {
    if cfg.logging && env.recorded then [Recorded(true)] + [Quiet] else [Recorded(false)]
  }

  /** The call of the payer, and the record of its event, which a mismatched hash
      leaves out. */
  function PayerSteps(cfg: Config, c: Challenge, env: Environment): seq<Outcome> {
    [PayResult(env.paid)] +
    if env.paid.Some? && !HashMatches(cfg, c, env.paid.value) then [] else RecordSteps(cfg, env)
  }

  /** What the handler does with a challenge. */
  function HandlerSteps(cfg: Config, domain: string, c: Challenge, env: Environment): seq<Outcome> {
    var there := cfg.dir(domain).Some?;
    if !Accepts(cfg, c, env.now) then [Checked(env.now)]
    else if !c.OfL402? then [Checked(env.now)] + PayerSteps(cfg, c, env)
    else
      ([Checked(env.now)] + [Wrote(env.staleRemoved && there), Wrote(env.pendingStored && there)]) +
      if !(env.pendingStored && there) then [] else KeptSteps(cfg, domain, c, env)
  }

  /** An L402 payment, and the store of what it bought. */
  function KeptSteps(cfg: Config, domain: string, c: Challenge, env: Environment): seq<Outcome> {
    PayerSteps(cfg, c, env) + if env.paid.Some? then [Wrote(env.paidStored && cfg.dir(domain).Some?)] else []
  }

  /** Why the L402 handler fails, told from the answers it gets. */
  function L402Failure(cfg: Config, domain: string, offer: L402Offer, env: Environment): Option<Failure> {
    if !Accepts(cfg, OfL402(offer), env.now) then Some(Refused)
    else if !env.pendingStored || cfg.dir(domain).None? then Some(NotStored)
    else if env.paid.None? then Some(PaymentFailed)
    else if !env.paidStored then Some(NotStored)
    else None
  }

  /** Why the Payment handler fails. */
  function PaymentFailure(cfg: Config, charge: PaymentHeader.Challenge, env: Environment): Option<Failure> {
    if !Accepts(cfg, OfPayment(charge), env.now) then Some(Refused)
    else if env.paid.None? then Some(PaymentFailed)
    else if !HashMatches(cfg, OfPayment(charge), env.paid.value) then Some(HashMismatch)
    else None
  }

  function HandlerFailure(cfg: Config, domain: string, c: Challenge, env: Environment): (why: Option<Failure>)
    ensures why != Some(Network) && why != Some(StillWaiting)
  {
    match c
    case OfL402(offer) => L402Failure(cfg, domain, offer, env)
    case OfPayment(charge) => PaymentFailure(cfg, charge, env)
    case Illegible(_) => Some(Refused)
  }

  /** The retry with what was bought, and the enrichment of its event. */
  function RetrySteps(env: Environment): seq<Outcome> {
    [Quiet, ReplyOutcome(env.retryReply)] + if env.retryReply.Some? then [Quiet] else []
  }

  /** A challenge is handled, and what it bought is sent. */
  function PaySteps(cfg: Config, domain: string, c: Challenge, env: Environment): seq<Outcome> {
    HandlerSteps(cfg, domain, c, env) + if HandlerFailure(cfg, domain, c, env).None? then RetrySteps(env) else []
  }

  function PayResultOf(cfg: Config, domain: string, c: Challenge, env: Environment): Result<Response, Failure> {
    match HandlerFailure(cfg, domain, c, env)
    case Some(why) => Err(why)
    case None => ReplyResult(env.retryReply)
  }

  /** A fresh challenge is asked for, and paid. */
  function FreshSteps(cfg: Config, domain: string, env: Environment): seq<Outcome> {
    [ReplyOutcome(env.freshReply)] +
    match ChallengeIn(cfg, env.freshReply)
    case None => []
    case Some(c) => PaySteps(cfg, domain, c, env)
  }

  function FreshResult(cfg: Config, domain: string, env: Environment): Result<Response, Failure> {
    match ChallengeIn(cfg, env.freshReply)
    case None => ReplyResult(env.freshReply)
    case Some(c) => PayResultOf(cfg, domain, c, env)
  }

  /** From the second look to the end of what is done under the lock. */
  function HeldSteps(cfg: Config, domain: string, env: Environment, second: Option<Credential>): seq<Outcome> {
    [Read(env.recheckRead && cfg.dir(domain).Some?)] +
    if second.Some? then [ReplyOutcome(env.foundReply)] else FreshSteps(cfg, domain, env)
  }

  function HeldResult(cfg: Config, domain: string, env: Environment, second: Option<Credential>)
    : Result<Response, Failure>
  {
    if second.Some? then ReplyResult(env.foundReply) else FreshResult(cfg, domain, env)
  }

  /** Getting the lock, what is done under it, and its release. */
  function LockedSteps(cfg: Config, domain: string, env: Environment, finds: Finds): seq<Outcome> {
    if !finds.free then [Quiet] else [Quiet, Quiet] + (HeldSteps(cfg, domain, env, finds.second) + [Quiet])
  }

  function LockedResult(cfg: Config, domain: string, env: Environment, finds: Finds): Result<Response, Failure> {
    if !finds.free then Err(StillWaiting) else HeldResult(cfg, domain, env, finds.second)
  }

  /** After a first look that did not end the call. */
  function RestSteps(cfg: Config, domain: string, env: Environment, finds: Finds): seq<Outcome> {
    PlainSteps(cfg, env, finds.first) +
    if PlainEnds(cfg, env, finds.first) then [] else LockedSteps(cfg, domain, env, finds)
  }

  function RestResult(cfg: Config, domain: string, env: Environment, finds: Finds): Result<Response, Failure> {
    if PlainEnds(cfg, env, finds.first) then ReplyResult(env.plainReply) else LockedResult(cfg, domain, env, finds)
  }

  /** All the steps of a call. */
  function CallSteps(cfg: Config, domain: string, env: Environment, finds: Finds): seq<Outcome> {
    FirstSteps(cfg, domain, env, finds.first) +
    if FirstEnds(env, finds.first) then [] else RestSteps(cfg, domain, env, finds)
  }

  function CallResult(cfg: Config, domain: string, env: Environment, finds: Finds): Result<Response, Failure> {
    if FirstEnds(env, finds.first) then ReplyResult(env.cachedReply) else RestResult(cfg, domain, env, finds)
  }

  /** A handler's result: the proof for its challenge, or the reason why not. */
  predicate Handled(c: Challenge, env: Environment, failure: Option<Failure>, r: Result<Credential, Failure>) {
    match failure
    case Some(why) => r == Err(why)
    case None => r.Ok? && r.value.challenge == c && env.paid == Some(r.value.preimage)
  }

  /** At some moment of the run the request looked for a credential, at this point, and
      this is what was there. */
  ghost predicate LookedUp(cfg: Config, start: State, trace: seq<Action>, t: nat, domain: string, pc: Pc,
                           readable: bool, found: Option<Credential>)
  {
    exists k :: LookedAt(cfg, start, trace, t, domain, pc, readable, found, k)
  }

  ghost predicate LookedAt(cfg: Config, start: State, trace: seq<Action>, t: nat, domain: string, pc: Pc,
                           readable: bool, found: Option<Credential>, k: int)
  {
    && 0 <= k < |trace| && trace[k] == Step(t, Read(readable)) && Legal(cfg, start, trace[..k])
    && var s := Run(cfg, start, trace[..k]);
       && t < |s.threads| && s.threads[t].pc == pc && s.threads[t].domain == domain
       && found == Cached(cfg.schemes, s.world.disk.store, cfg.dir(domain), readable)
  }

  lemma LookedLater(cfg: Config, start: State, trace: seq<Action>, t: nat, domain: string, pc: Pc, readable: bool,
                    found: Option<Credential>, later: seq<Action>)
    requires LookedUp(cfg, start, trace, t, domain, pc, readable, found) && trace <= later
    ensures LookedUp(cfg, start, later, t, domain, pc, readable, found)
  {
    var k :| LookedAt(cfg, start, trace, t, domain, pc, readable, found, k);
    assert later[..k] == trace[..k];
    assert LookedAt(cfg, start, later, t, domain, pc, readable, found, k);
  }

  /** From one trace to a later one, the own steps of `t` were these. */
  ghost predicate Did(before: seq<Action>, after: seq<Action>, t: nat, steps: seq<Outcome>) {
    before <= after && OwnSteps(after, t) == OwnSteps(before, t) + steps
  }

  lemma Both(before: seq<Action>, between: seq<Action>, after: seq<Action>, t: nat, a: seq<Outcome>, b: seq<Outcome>)
    requires Did(before, between, t, a) && Did(between, after, t, b)
    ensures Did(before, after, t, a + b)
  {
    assert (OwnSteps(before, t) + a) + b == OwnSteps(before, t) + (a + b);
  }

  class PaymentTransport {
    const cfg: Config
    ghost const start: State
    var threads: seq<Thread>
    var world: World
    ghost var trace: seq<Action>

    ghost function Now(): State
      reads this
    {
      State(threads, world)
    }

    /** The present state is where a run of the protocol from `start` leads. */
    ghost predicate Valid()
      reads this
    {
      Init(cfg, start) && Legal(cfg, start, trace) && Run(cfg, start, trace) == Now()
    }

    constructor (cfg: Config, start: State)
      requires Init(cfg, start)
      ensures Valid() && this.cfg == cfg && this.start == start && trace == []
    {
      this.cfg, this.start := cfg, start;
      threads, world, trace := start.threads, start.world, [];
    }

    /** Whatever calls were made, the protocol's invariant holds now. */
    lemma StateIsSafe()
      requires Valid()
      ensures Inv(cfg, Now())
    {
      InvReachable(cfg, start, trace);
    }

    // ----- Atomic steps

    ghost predicate At(t: nat, pc: Pc, domain: string)
      reads this
    {
      Valid() && t < |threads| && threads[t].pc == pc && threads[t].domain == domain
    }

    /** Somebody holds the lock that `t` waits for. */
    ghost predicate Blocked(t: nat)
      reads this
    {
      t < |threads| && threads[t].lock in world.mem.holder
    }

    /** One atomic step of request `t`, to the local state and the shared state
        that its code computed. */
    method Commit(t: nat, o: Outcome, th: Thread, w: World)
      requires Valid() && Enabled(cfg, Now(), Step(t, o))
      requires Advance(cfg, t, threads[t], world, o) == (th, w)
      modifies this
      ensures Valid() && threads == old(threads)[t := th] && world == w && trace == old(trace) + [Step(t, o)]
      ensures Did(old(trace), trace, t, [o])
    {
      RunAppend(cfg, start, trace, Step(t, o));
      OwnAppend(trace, Step(t, o), t);
      threads, world, trace := threads[t := th], w, trace + [Step(t, o)];
    }

    /** The other requests run. */
    method Others(t: nat, acts: seq<Action>)
      requires Valid() && t < |threads|
      modifies this
      ensures Valid() && t < |threads| && threads[t] == old(threads[t])
      ensures Did(old(trace), trace, t, [])
    {
      for i := 0 to |acts|
        invariant Valid() && t < |threads| && threads[t] == old(threads[t])
        invariant Did(old(trace), trace, t, [])
      {
        var a := acts[i];
        if !a.Crash? && !(a.Step? && a.thread == t) && Enabled(cfg, State(threads, world), a) {
          RunAppend(cfg, start, trace, a);
          OwnAppend(trace, a, t);
          var next := Apply(cfg, State(threads, world), a);
          threads, world, trace := next.threads, next.world, trace + [a];
        }
      }
    }

    /** A new request. */
    method Begin(domain: string) returns (t: nat)
      requires Valid()
      modifies this
      ensures At(t, Start, domain) && old(trace) <= trace && t == old(|threads|) && OwnSteps(trace, t) == []
    {
      t := |threads|;
      OwnOfNew(cfg, start, trace, t);
      OwnAppend(trace, Spawn(domain), t);
      RunAppend(cfg, start, trace, Spawn(domain));
      threads, trace := threads + [Thread(domain, Start, 0, 0, false)], trace + [Spawn(domain)];
    }

    // ----- Lookups

    /** `getCachedCredential`: the first scheme that has a credential. A scheme that
        answers with an error is passed over. */
    method GetCachedCredential(domain: string, readable: bool) returns (cred: Option<Credential>)
      ensures cred == Cached(cfg.schemes, world.disk.store, cfg.dir(domain), readable)
    {
      var i := 0;
      while i < |cfg.schemes|
        invariant i <= |cfg.schemes|
        invariant Cached(cfg.schemes[i..], world.disk.store, cfg.dir(domain), readable)
               == Cached(cfg.schemes, world.disk.store, cfg.dir(domain), readable)
      {
        assert cfg.schemes[i..][1..] == cfg.schemes[i + 1..];
        var answer := GetCredential(cfg.schemes[i], domain, readable);
        if answer.Ok? {
          return Some(answer.value);
        }
        i := i + 1;
      }
      return None;
    }

    /** `GetCredential` of a scheme: the Payment scheme never has one, the L402 scheme
        has that of a paid token. */
    method GetCredential(scheme: Scheme, domain: string, readable: bool)
      returns (r: Result<Credential, CredentialError>)
      ensures r.Ok? <==> scheme == L402 && readable && IsPaid(world.disk.store, cfg.dir(domain))
      ensures r.Ok? ==> r.value == world.disk.store[cfg.dir(domain).value].proof
    {
      if scheme == Payment {
        return Err(NoCredential);
      }
      var dir := cfg.dir(domain);
      if dir.None? || !readable {
        return Err(Unreadable);
      }
      if dir.value !in world.disk.store {
        return Err(NoCredential);
      }
      match world.disk.store[dir.value]
      case Pending(_) => return Err(NoCredential);
      case Paid(proof) => return Ok(proof);
    }

    /** `detectChallenge`: the first scheme that recognises the response. */
    method DetectChallenge(r: Response) returns (c: Option<Challenge>)
      ensures c == Detect(cfg, cfg.schemes, r)
    {
      if !r.is402 {
        return None;
      }
      var i := 0;
      while i < |cfg.schemes|
        invariant i <= |cfg.schemes|
        invariant Detect(cfg, cfg.schemes[i..], r) == Detect(cfg, cfg.schemes, r)
      {
        assert cfg.schemes[i..][1..] == cfg.schemes[i + 1..];
        c := Recognised(cfg, cfg.schemes[i], r.authenticate);
        if c.Some? {
          return;
        }
        i := i + 1;
      }
      return None;
    }

    /** The step of a look for a cached credential, to the local state `th`. */
    method CommitLook(t: nat, domain: string, readable: bool, found: Option<Credential>, th: Thread)
      requires Valid() && Enabled(cfg, Now(), Step(t, Read(readable))) && threads[t].domain == domain
      requires Advance(cfg, t, threads[t], world, Read(readable)) == (th, world)
      requires found == Cached(cfg.schemes, world.disk.store, cfg.dir(domain), readable)
      modifies this
      ensures Valid() && threads == old(threads)[t := th] && world == old(world)
      ensures Did(old(trace), trace, t, [Read(readable)])
      ensures LookedUp(cfg, start, trace, t, domain, old(threads[t].pc), readable, found)
    {
      ghost var k, pc := |trace|, threads[t].pc;
      Commit(t, Read(readable), th, world);
      assert trace[..k] == old(trace);
      assert LookedAt(cfg, start, trace, t, domain, pc, readable, found, k);
    }

    // ----- The request

    /** `RoundTrip`. The call begins, runs and ends as one request of the protocol,
        interleaved with any others: it ends at `Done`, or waits for ever for a lock
        that the others never release. Its own steps and its result are those that the
        answers call for. In particular, where the first look finds a credential and
        the server does not answer it with a 402, that answer is the result, and the
        call does nothing else; and a reply that asks for payment is the result only if
        the call had a credential to show, found under the lock or just paid for. */
    method RoundTrip(domain: string, env: Environment)
      returns (r: Result<Response, Failure>, t: nat, ghost finds: Finds)
      requires Valid()
      modifies this
      ensures r == Err(StillWaiting) ==> Blocked(t)
      ensures At(t, if r == Err(StillWaiting) then WaitLock else Done, domain)
      ensures t == old(|threads|) && old(trace) <= trace
      ensures OwnSteps(trace, t) == CallSteps(cfg, domain, env, finds) && r == CallResult(cfg, domain, env, finds)
      ensures LookedUp(cfg, start, trace, t, domain, Start, env.cachedRead && cfg.dir(domain).Some?, finds.first)
      ensures finds.second.Some? ==>
                LookedUp(cfg, start, trace, t, domain, Recheck, env.recheckRead && cfg.dir(domain).Some?, finds.second)
      ensures finds.first.Some? && env.cachedReply.Some? && !env.cachedReply.value.is402 ==>
                r == Ok(env.cachedReply.value) && OwnSteps(trace, t) == [Read(true), Reply(env.cachedReply.value)]
      ensures r.Ok? && ChallengeIn(cfg, Some(r.value)).Some? ==> finds.free && (finds.second.Some? || env.paid.Some?)
      ensures Explains(cfg, OwnSteps(trace, t), r)
    {
      t := Begin(domain);
      ghost var begun := trace;
      var done, challenged;
      ghost var first;
      done, challenged, first := TryCached(t, domain, env);
      finds := Finds(first, true, None);
      if done.Some? {
        r := done.value;
      } else {
        ghost var looked := trace;
        r, finds := PayForIt(t, domain, challenged, first, env);
        Both(begun, looked, trace, t, FirstSteps(cfg, domain, env, first), RestSteps(cfg, domain, env, finds));
        LookedLater(cfg, start, looked, t, domain, Start, env.cachedRead && cfg.dir(domain).Some?, first, trace);
      }
      CallExplained(cfg, domain, env, finds);
      ShowsCredential(cfg, domain, env, finds);
    }

    /** After a first look that did not end the call. */
    method PayForIt(t: nat, domain: string, challenged: bool, ghost first: Option<Credential>, env: Environment)
      returns (r: Result<Response, Failure>, ghost finds: Finds)
      requires At(t, if challenged then TakeLock else SendPlain, domain)
      requires challenged == FirstBrings(cfg, env, first)
      modifies this
      ensures r == Err(StillWaiting) ==> Blocked(t)
      ensures At(t, if r == Err(StillWaiting) then WaitLock else Done, domain)
      ensures finds.first == first && Did(old(trace), trace, t, RestSteps(cfg, domain, env, finds))
      ensures r == RestResult(cfg, domain, env, finds)
      ensures finds.second.Some? ==>
                LookedUp(cfg, start, trace, t, domain, Recheck, env.recheckRead && cfg.dir(domain).Some?, finds.second)
    {
      finds := Finds(first, true, None);
      if !challenged {
        var done := FetchChallenge(t, domain, env);
        if done.Some? {
          r := done.value;
          return;
        }
      }
      ghost var before, free, second := trace, true, None;
      r, free, second := PayUnderLock(t, domain, env);
      finds := Finds(first, free, second);
      Both(old(trace), before, trace, t, PlainSteps(cfg, env, first), LockedSteps(cfg, domain, env, finds));
    }

    /** The first look for a cached credential: the call is over, or a challenge is
        at hand, or one must be asked for. */
    method TryCached(t: nat, domain: string, env: Environment)
      returns (done: Option<Result<Response, Failure>>, challenged: bool, ghost first: Option<Credential>)
      requires At(t, Start, domain)
      modifies this
      ensures At(t, if done.Some? then Done else if challenged then TakeLock else SendPlain, domain)
      ensures Did(old(trace), trace, t, FirstSteps(cfg, domain, env, first))
      ensures done == if FirstEnds(env, first) then Some(ReplyResult(env.cachedReply)) else None
      ensures challenged == FirstBrings(cfg, env, first)
      ensures LookedUp(cfg, start, trace, t, domain, Start, env.cachedRead && cfg.dir(domain).Some?, first)
    {
      var cred := LookFirst(t, domain, env);
      first := cred;
      if cred.None? {
        return None, false, None;
      }
      ghost var looked := trace;
      done, challenged := UseCached(t, domain, cred.value, env);
      LookedLater(cfg, start, looked, t, domain, Start, env.cachedRead && cfg.dir(domain).Some?, first, trace);
      Both(old(trace), looked, trace, t, [Read(env.cachedRead && cfg.dir(domain).Some?)],
           RefusedSteps(cfg, domain, env));
    }

    /** `getCachedCredential`. */
    method LookFirst(t: nat, domain: string, env: Environment) returns (cred: Option<Credential>)
      requires At(t, Start, domain)
      modifies this
      ensures At(t, if cred.Some? then SendCached(cred.value) else SendPlain, domain)
      ensures Did(old(trace), trace, t, [Read(env.cachedRead && cfg.dir(domain).Some?)])
      ensures LookedUp(cfg, start, trace, t, domain, Start, env.cachedRead && cfg.dir(domain).Some?, cred)
    {
      Others(t, env.others(0));
      var readable := env.cachedRead && cfg.dir(domain).Some?;
      cred := GetCachedCredential(domain, readable);
      CommitLook(t, domain, readable, cred,
                 threads[t].(pc := if cred.Some? then SendCached(cred.value) else SendPlain));
    }

    /** A base round trip with the cached credential, and its invalidation after a
        402. */
    method UseCached(t: nat, domain: string, cred: Credential, env: Environment)
      returns (done: Option<Result<Response, Failure>>, challenged: bool)
      requires At(t, SendCached(cred), domain)
      modifies this
      ensures At(t, if done.Some? then Done else if challenged then TakeLock else SendPlain, domain)
      ensures Did(old(trace), trace, t, RefusedSteps(cfg, domain, env))
      ensures done == if FirstEnds(env, Some(cred)) then Some(ReplyResult(env.cachedReply)) else None
      ensures challenged == FirstBrings(cfg, env, Some(cred))
    {
      done, challenged := SendWithCached(t, domain, cred, env);
      if done.None? {
        ghost var refused := trace;
        InvalidateCredential(t, domain, challenged, env);
        Both(old(trace), refused, trace, t, [ReplyOutcome(env.cachedReply)],
             [Wrote(env.invalidated && cfg.dir(domain).Some?)]);
      }
    }

    method SendWithCached(t: nat, domain: string, cred: Credential, env: Environment)
      returns (done: Option<Result<Response, Failure>>, challenged: bool)
      requires At(t, SendCached(cred), domain)
      modifies this
      ensures At(t, if done.Some? then Done else Invalidate(challenged), domain)
      ensures Did(old(trace), trace, t, [ReplyOutcome(env.cachedReply)])
      ensures done == if FirstEnds(env, Some(cred)) then Some(ReplyResult(env.cachedReply)) else None
      ensures challenged == FirstBrings(cfg, env, Some(cred))
    {
      Others(t, env.others(1));
      var w := Send(world, domain, cred);
      if env.cachedReply.None? {
        Commit(t, Lost, threads[t].(pc := Done), w);
        return Some(Err(Network)), false;
      }
      var resp := env.cachedReply.value;
      if !resp.is402 {
        Commit(t, Reply(resp), threads[t].(pc := Done), w);
        return Some(Ok(resp)), false;
      }
      var challenge := DetectChallenge(resp);
      Commit(t, Reply(resp), threads[t].(pc := Invalidate(challenge.Some?)), w);
      return None, challenge.Some?;
    }

    /** The unauthenticated base round trip. */
    method FetchChallenge(t: nat, domain: string, env: Environment) returns (done: Option<Result<Response, Failure>>)
      requires At(t, SendPlain, domain)
      modifies this
      ensures At(t, if done.Some? then Done else TakeLock, domain)
      ensures Did(old(trace), trace, t, [ReplyOutcome(env.plainReply)])
      ensures done == if ChallengeIn(cfg, env.plainReply).None? then Some(ReplyResult(env.plainReply)) else None
    {
      Others(t, env.others(3));
      if env.plainReply.None? {
        Commit(t, Lost, threads[t].(pc := Done), world);
        return Some(Err(Network));
      }
      var resp := env.plainReply.value;
      var challenge := DetectChallenge(resp);
      if challenge.None? {
        Commit(t, Reply(resp), threads[t].(pc := Done), world);
        return Some(Ok(resp));
      }
      Commit(t, Reply(resp), threads[t].(pc := TakeLock), world);
      return None;
    }

    /** `InvalidateCredential`, outside the lock. */
    method InvalidateCredential(t: nat, domain: string, challenged: bool, env: Environment)
      requires At(t, Invalidate(challenged), domain)
      modifies this
      ensures At(t, if challenged then TakeLock else SendPlain, domain)
      ensures Did(old(trace), trace, t, [Wrote(env.invalidated && cfg.dir(domain).Some?)])
    {
      Others(t, env.others(2));
      var ok := env.invalidated && cfg.dir(domain).Some?;
      var w := if ok then SetStore(world, Without(world.disk.store, cfg.dir(domain))) else world;
      Commit(t, Wrote(ok), threads[t].(pc := if challenged then TakeLock else SendPlain), w);
    }

    /** `getDomainLock`. */
    method GetDomainLock(t: nat, domain: string) returns (lock: nat)
      requires At(t, TakeLock, domain)
      modifies this
      ensures At(t, WaitLock, domain) && threads[t].lock == lock && Did(old(trace), trace, t, [Quiet])
      ensures domain in world.mem.locks && world.mem.locks[domain] == lock
      ensures if domain in old(world.mem.locks) then world == old(world) else lock == old(world.mem.nextLock)
    {
      if domain in world.mem.locks {
        lock := world.mem.locks[domain];
        Commit(t, Quiet, threads[t].(pc := WaitLock, lock := lock), world);
      } else {
        lock := world.mem.nextLock;
        var mem := world.mem.(locks := world.mem.locks[domain := lock], nextLock := lock + 1);
        Commit(t, Quiet, threads[t].(pc := WaitLock, lock := lock), world.(mem := mem));
      }
    }

    /** From `getDomainLock` to the deferred `lock.Unlock()`. */
    method PayUnderLock(t: nat, domain: string, env: Environment)
      returns (r: Result<Response, Failure>, ghost free: bool, ghost second: Option<Credential>)
      requires At(t, TakeLock, domain)
      modifies this
      ensures r == Err(StillWaiting) ==> Blocked(t)
      ensures At(t, if r == Err(StillWaiting) then WaitLock else Done, domain)
      ensures Did(old(trace), trace, t, LockedSteps(cfg, domain, env, Finds(None, free, second)))
      ensures r == LockedResult(cfg, domain, env, Finds(None, free, second))
      ensures second.Some? ==>
                LookedUp(cfg, start, trace, t, domain, Recheck, env.recheckRead && cfg.dir(domain).Some?, second)
    {
      second := None;
      var locked := Acquire(t, domain, env);
      free := locked;
      if !locked {
        r := Err(StillWaiting);
        return;
      }
      ghost var acquired := trace;
      r, second := HoldLock(t, domain, env);
      Both(old(trace), acquired, trace, t, [Quiet, Quiet], HeldSteps(cfg, domain, env, second) + [Quiet]);
    }

    /** Everything under the lock, and its release. */
    method HoldLock(t: nat, domain: string, env: Environment)
      returns (r: Result<Response, Failure>, ghost second: Option<Credential>)
      requires At(t, Recheck, domain)
      modifies this
      ensures At(t, Done, domain) && r == HeldResult(cfg, domain, env, second) && r != Err(StillWaiting)
      ensures Did(old(trace), trace, t, HeldSteps(cfg, domain, env, second) + [Quiet])
      ensures LookedUp(cfg, start, trace, t, domain, Recheck, env.recheckRead && cfg.dir(domain).Some?, second)
    {
      r, second := DoubleCheck(t, domain, env);
      ghost var looked := trace;
      Release(t, domain, env);
      Both(old(trace), looked, trace, t, HeldSteps(cfg, domain, env, second), [Quiet]);
      LookedLater(cfg, start, looked, t, domain, Recheck, env.recheckRead && cfg.dir(domain).Some?, second, trace);
    }

    /** The deferred `lock.Unlock()`. */
    method Release(t: nat, domain: string, env: Environment)
      requires At(t, Unlock, domain)
      modifies this
      ensures At(t, Done, domain) && Did(old(trace), trace, t, [Quiet])
    {
      Others(t, env.others(18));
      var mem := world.mem.(holder := world.mem.holder - {threads[t].lock});
      Commit(t, Quiet, threads[t].(pc := Done), world.(mem := mem));
    }

    /** `getDomainLock` and `lock.Lock()`. */
    method Acquire(t: nat, domain: string, env: Environment) returns (locked: bool)
      requires At(t, TakeLock, domain)
      modifies this
      ensures !locked ==> Blocked(t)
      ensures At(t, if locked then Recheck else WaitLock, domain)
      ensures Did(old(trace), trace, t, if locked then [Quiet, Quiet] else [Quiet])
    {
      var lock := FindLock(t, domain, env);
      ghost var found := trace;
      locked := TryLock(t, domain, lock, env);
      Both(old(trace), found, trace, t, [Quiet], if locked then [Quiet] else []);
    }

    method FindLock(t: nat, domain: string, env: Environment) returns (lock: nat)
      requires At(t, TakeLock, domain)
      modifies this
      ensures At(t, WaitLock, domain) && threads[t].lock == lock && Did(old(trace), trace, t, [Quiet])
    {
      Others(t, env.others(4));
      lock := GetDomainLock(t, domain);
    }

    method TryLock(t: nat, domain: string, lock: nat, env: Environment) returns (locked: bool)
      requires At(t, WaitLock, domain) && threads[t].lock == lock
      modifies this
      ensures !locked ==> Blocked(t)
      ensures At(t, if locked then Recheck else WaitLock, domain)
      ensures Did(old(trace), trace, t, if locked then [Quiet] else [])
    {
      Others(t, env.others(5));
      locked := lock !in world.mem.holder;
      if locked {
        Commit(t, Quiet, threads[t].(pc := Recheck),
               world.(mem := world.mem.(holder := world.mem.holder[lock := t])));
      }
    }

    /** The second look for a cached credential, and what follows from it. */
    method DoubleCheck(t: nat, domain: string, env: Environment)
      returns (r: Result<Response, Failure>, ghost second: Option<Credential>)
      requires At(t, Recheck, domain)
      modifies this
      ensures At(t, Unlock, domain) && Did(old(trace), trace, t, HeldSteps(cfg, domain, env, second))
      ensures r == HeldResult(cfg, domain, env, second)
      ensures LookedUp(cfg, start, trace, t, domain, Recheck, env.recheckRead && cfg.dir(domain).Some?, second)
    {
      var cred := CheckAgain(t, domain, env);
      second := cred;
      ghost var looked := trace;
      if cred.Some? {
        r := RetryWithFound(t, domain, cred.value, env);
        Both(old(trace), looked, trace, t, [Read(env.recheckRead && cfg.dir(domain).Some?)],
             [ReplyOutcome(env.foundReply)]);
      } else {
        r := PayFresh(t, domain, env);
        Both(old(trace), looked, trace, t, [Read(env.recheckRead && cfg.dir(domain).Some?)],
             FreshSteps(cfg, domain, env));
      }
      LookedLater(cfg, start, looked, t, domain, Recheck, env.recheckRead && cfg.dir(domain).Some?, second, trace);
    }

    /** `getCachedCredential` again, under the lock. */
    method CheckAgain(t: nat, domain: string, env: Environment) returns (cred: Option<Credential>)
      requires At(t, Recheck, domain)
      modifies this
      ensures At(t, if cred.Some? then SendFound(cred.value) else SendFresh, domain)
      ensures Did(old(trace), trace, t, [Read(env.recheckRead && cfg.dir(domain).Some?)])
      ensures LookedUp(cfg, start, trace, t, domain, Recheck, env.recheckRead && cfg.dir(domain).Some?, cred)
    {
      Others(t, env.others(6));
      var readable := env.recheckRead && cfg.dir(domain).Some?;
      cred := GetCachedCredential(domain, readable);
      var missed := !readable && L402 in cfg.schemes && IsPaid(world.disk.store, cfg.dir(domain));
      CommitLook(t, domain, readable, cred,
                 threads[t].(pc := if cred.Some? then SendFound(cred.value) else SendFresh, missed := missed));
    }

    /** `retryWithCredential` with what the double-check found. */
    method RetryWithFound(t: nat, domain: string, cred: Credential, env: Environment)
      returns (r: Result<Response, Failure>)
      requires At(t, SendFound(cred), domain)
      modifies this
      ensures At(t, Unlock, domain) && Did(old(trace), trace, t, [ReplyOutcome(env.foundReply)])
      ensures r == ReplyResult(env.foundReply)
    {
      Others(t, env.others(7));
      var resp := env.foundReply;
      Commit(t, ReplyOutcome(resp), threads[t].(pc := Unlock), Send(world, domain, cred));
      r := if resp.None? then Err(Network) else Ok(resp.value);
    }

    /** A fresh challenge, its payment, and the retry with the paid credential. */
    method PayFresh(t: nat, domain: string, env: Environment) returns (r: Result<Response, Failure>)
      requires At(t, SendFresh, domain)
      modifies this
      ensures At(t, Unlock, domain) && Did(old(trace), trace, t, FreshSteps(cfg, domain, env))
      ensures r == FreshResult(cfg, domain, env)
    {
      var challenge;
      r, challenge := FetchFresh(t, domain, env);
      if challenge.Some? {
        ghost var fetched := trace;
        r := PayAndRetry(t, domain, challenge.value, env);
        Both(old(trace), fetched, trace, t, [ReplyOutcome(env.freshReply)],
             PaySteps(cfg, domain, challenge.value, env));
      }
    }

    /** The challenge is handled, and the request retried with what it bought. */
    method PayAndRetry(t: nat, domain: string, c: Challenge, env: Environment) returns (r: Result<Response, Failure>)
      requires At(t, Validate(c), domain)
      modifies this
      ensures At(t, Unlock, domain) && Did(old(trace), trace, t, PaySteps(cfg, domain, c, env))
      ensures r == PayResultOf(cfg, domain, c, env)
    {
      var paid := HandleChallenge(t, domain, c, env);
      if paid.Err? {
        return Err(paid.error);
      }
      ghost var handled := trace;
      r := RetryPaid(t, domain, paid.value, env);
      Both(old(trace), handled, trace, t, HandlerSteps(cfg, domain, c, env), RetrySteps(env));
    }

    /** The re-issued request. Without a fresh challenge its result is final. */
    method FetchFresh(t: nat, domain: string, env: Environment)
      returns (r: Result<Response, Failure>, challenge: Option<Challenge>)
      requires At(t, SendFresh, domain)
      modifies this
      ensures At(t, if challenge.Some? then Validate(challenge.value) else Unlock, domain)
      ensures Did(old(trace), trace, t, [ReplyOutcome(env.freshReply)])
      ensures challenge == ChallengeIn(cfg, env.freshReply) && r == ReplyResult(env.freshReply)
    {
      Others(t, env.others(8));
      if env.freshReply.None? {
        Commit(t, Lost, threads[t].(pc := Unlock), world);
        return Err(Network), None;
      }
      var resp := env.freshReply.value;
      challenge := DetectChallenge(resp);
      if challenge.None? {
        Commit(t, Reply(resp), threads[t].(pc := Unlock), world);
        return Ok(resp), None;
      }
      var hist := world.hist.(received := world.hist.received + {Receipt(domain, challenge.value)});
      Commit(t, Reply(resp), threads[t].(pc := Validate(challenge.value)), world.(hist := hist));
      return Ok(resp), challenge;
    }

    /** The scheme of the fresh challenge handles it. */
    method HandleChallenge(t: nat, domain: string, c: Challenge, env: Environment)
      returns (r: Result<Credential, Failure>)
      requires At(t, Validate(c), domain)
      modifies this
      ensures At(t, if r.Ok? then ReadEvent(r.value) else Unlock, domain)
      ensures Did(old(trace), trace, t, HandlerSteps(cfg, domain, c, env))
      ensures Handled(c, env, HandlerFailure(cfg, domain, c, env), r)
    {
      match c
      case OfL402(offer) => r := HandleL402(t, domain, offer, env);
      case OfPayment(charge) => r := HandlePayment(t, domain, charge, env);
      case Illegible(_) => r := RefuseIllegible(t, domain, c, env);
    }

    /** Either parser's error. */
    method RefuseIllegible(t: nat, domain: string, c: Challenge, env: Environment)
      returns (r: Result<Credential, Failure>)
      requires At(t, Validate(c), domain) && c.Illegible?
      modifies this
      ensures At(t, Unlock, domain) && r == Err(Refused) && Did(old(trace), trace, t, [Checked(env.now)])
    {
      Others(t, env.others(9));
      Commit(t, Checked(env.now), threads[t].(pc := Unlock), world);
      return Err(Refused);
    }

    /** Reading the event ID, `retryWithCredential` and `enrichEvent`. */
    method RetryPaid(t: nat, domain: string, cred: Credential, env: Environment) returns (r: Result<Response, Failure>)
      requires At(t, ReadEvent(cred), domain)
      modifies this
      ensures At(t, Unlock, domain) && Did(old(trace), trace, t, RetrySteps(env)) && r == ReplyResult(env.retryReply)
    {
      var event := ReadEventID(t, domain, cred, env);
      ghost var read := trace;
      r := SendRetry(t, domain, cred, event, env);
      Both(old(trace), read, trace, t, [Quiet], [ReplyOutcome(env.retryReply)]);
      if r.Ok? {
        ghost var sent := trace;
        EnrichEvent(t, domain, event, env);
        Both(old(trace), sent, trace, t, [Quiet] + [ReplyOutcome(env.retryReply)], [Quiet]);
      }
    }

    /** `retryWithCredential` with the paid credential. */
    method SendRetry(t: nat, domain: string, cred: Credential, event: int, env: Environment)
      returns (r: Result<Response, Failure>)
      requires At(t, SendPaid(cred, event), domain)
      modifies this
      ensures At(t, if r.Ok? then Enrich(event) else Unlock, domain)
      ensures Did(old(trace), trace, t, [ReplyOutcome(env.retryReply)]) && r == ReplyResult(env.retryReply)
    {
      Others(t, env.others(16));
      var resp := env.retryReply;
      Commit(t, ReplyOutcome(resp), threads[t].(pc := if resp.Some? then Enrich(event) else Unlock),
             Send(world, domain, cred));
      r := if resp.None? then Err(Network) else Ok(resp.value);
    }

    /** `LastEventID`. */
    method ReadEventID(t: nat, domain: string, cred: Credential, env: Environment) returns (event: int)
      requires At(t, ReadEvent(cred), domain)
      modifies this
      ensures At(t, SendPaid(cred, event), domain) && Did(old(trace), trace, t, [Quiet])
    {
      Others(t, env.others(15));
      event := LastEvent(world.mem, cred.challenge.Scheme());
      Commit(t, Quiet, threads[t].(pc := SendPaid(cred, event)), world);
    }

    /** `enrichEvent`, whose effect on the event table is modelled apart. */
    method EnrichEvent(t: nat, domain: string, event: int, env: Environment)
      requires At(t, Enrich(event), domain)
      modifies this
      ensures At(t, Unlock, domain) && Did(old(trace), trace, t, [Quiet])
    {
      Others(t, env.others(17));
      Commit(t, Quiet, threads[t].(pc := Unlock), world);
    }

    // ----- The handlers

    /** `l402.Handler.HandleChallenge`. */
    method HandleL402(t: nat, domain: string, offer: L402Offer, env: Environment)
      returns (r: Result<Credential, Failure>)
      requires At(t, Validate(OfL402(offer)), domain)
      modifies this
      ensures At(t, if r.Ok? then ReadEvent(r.value) else Unlock, domain)
      ensures Did(old(trace), trace, t, HandlerSteps(cfg, domain, OfL402(offer), env))
      ensures Handled(OfL402(offer), env, L402Failure(cfg, domain, offer, env), r)
    {
      var accepted := ReviewL402(t, domain, offer, env);
      if !accepted {
        return Err(Refused);
      }
      ghost var reviewed, there := trace, cfg.dir(domain).Some?;
      var stored := PreparePending(t, domain, offer, env);
      ghost var wrote := [Wrote(env.staleRemoved && there), Wrote(env.pendingStored && there)];
      Both(old(trace), reviewed, trace, t, [Checked(env.now)], wrote);
      if !stored {
        return Err(NotStored);
      }
      ghost var prepared := trace;
      r := PayAndKeep(t, domain, offer, env);
      Both(old(trace), prepared, trace, t, [Checked(env.now)] + wrote, KeptSteps(cfg, domain, OfL402(offer), env));
    }

    /** `PayInvoice`, then `StoreToken` of the paid token. */
    method PayAndKeep(t: nat, domain: string, offer: L402Offer, env: Environment)
      returns (r: Result<Credential, Failure>)
      requires At(t, Pay(OfL402(offer)), domain) && cfg.dir(domain).Some?
      modifies this
      ensures At(t, if r.Ok? then ReadEvent(r.value) else Unlock, domain)
      ensures Did(old(trace), trace, t, KeptSteps(cfg, domain, OfL402(offer), env))
      ensures Handled(OfL402(offer), env, if env.paid.None? then Some(PaymentFailed)
                                          else if env.paidStored then None else Some(NotStored), r)
    {
      r := PayInvoice(t, domain, OfL402(offer), env);
      if r.Err? {
        return;
      }
      ghost var paid := trace;
      var kept := KeepToken(t, domain, r.value, env);
      Both(old(trace), paid, trace, t, PayerSteps(cfg, OfL402(offer), env), [Wrote(kept)]);
      if !kept {
        return Err(NotStored);
      }
    }

    /** The cost check. */
    method ReviewL402(t: nat, domain: string, offer: L402Offer, env: Environment) returns (ok: bool)
      requires At(t, Validate(OfL402(offer)), domain)
      modifies this
      ensures At(t, if ok then RemoveStale(OfL402(offer)) else Unlock, domain)
      ensures Did(old(trace), trace, t, [Checked(env.now)]) && ok == Accepts(cfg, OfL402(offer), env.now)
    {
      Others(t, env.others(9));
      var amount := Invoice.ParseInvoiceAmountSat(offer.invoice);
      ok := !(amount > 0 && amount > cfg.maxCostSat);
      Commit(t, Checked(env.now), threads[t].(pc := if ok then RemoveStale(OfL402(offer)) else Unlock), world);
    }

    /** `StoreToken` of the paid token. */
    method KeepToken(t: nat, domain: string, proof: Credential, env: Environment) returns (ok: bool)
      requires At(t, StorePaid(proof), domain)
      modifies this
      ensures At(t, if ok then ReadEvent(proof) else Unlock, domain)
      ensures ok == (env.paidStored && cfg.dir(domain).Some?) && Did(old(trace), trace, t, [Wrote(ok)])
    {
      Others(t, env.others(14));
      ok := env.paidStored && cfg.dir(domain).Some?;
      if ok {
        var w := SetStore(world, With(world.disk.store, cfg.dir(domain), Paid(proof)));
        Commit(t, Wrote(true), threads[t].(pc := ReadEvent(proof)), w);
      } else {
        Commit(t, Wrote(false), threads[t].(pc := Unlock), world);
      }
    }

    /** `RemoveToken` of a stale token, then `StorePending`. */
    method PreparePending(t: nat, domain: string, offer: L402Offer, env: Environment) returns (ok: bool)
      requires At(t, RemoveStale(OfL402(offer)), domain)
      modifies this
      ensures At(t, if ok then Pay(OfL402(offer)) else Unlock, domain)
      ensures ok == (env.pendingStored && cfg.dir(domain).Some?)
      ensures Did(old(trace), trace, t, [Wrote(env.staleRemoved && cfg.dir(domain).Some?), Wrote(ok)])
    {
      ClearStale(t, domain, offer, env);
      ghost var cleared := trace;
      ok := KeepPending(t, domain, offer, env);
      Both(old(trace), cleared, trace, t, [Wrote(env.staleRemoved && cfg.dir(domain).Some?)], [Wrote(ok)]);
    }

    /** `StorePending`. */
    method KeepPending(t: nat, domain: string, offer: L402Offer, env: Environment) returns (ok: bool)
      requires At(t, StorePending(OfL402(offer)), domain)
      modifies this
      ensures At(t, if ok then Pay(OfL402(offer)) else Unlock, domain)
      ensures ok == (env.pendingStored && cfg.dir(domain).Some?) && Did(old(trace), trace, t, [Wrote(ok)])
    {
      Others(t, env.others(11));
      ok := env.pendingStored && cfg.dir(domain).Some?;
      if ok {
        var w := SetStore(world, With(world.disk.store, cfg.dir(domain), Pending(offer)));
        Commit(t, Wrote(true), threads[t].(pc := Pay(OfL402(offer))), w);
      } else {
        Commit(t, Wrote(false), threads[t].(pc := Unlock), world);
      }
    }

    /** `RemoveToken`, whose error is ignored. */
    method ClearStale(t: nat, domain: string, offer: L402Offer, env: Environment)
      requires At(t, RemoveStale(OfL402(offer)), domain)
      modifies this
      ensures At(t, StorePending(OfL402(offer)), domain)
      ensures Did(old(trace), trace, t, [Wrote(env.staleRemoved && cfg.dir(domain).Some?)])
    {
      Others(t, env.others(10));
      var gone := env.staleRemoved && cfg.dir(domain).Some?;
      var w := if gone then SetStore(world, Without(world.disk.store, cfg.dir(domain))) else world;
      Commit(t, Wrote(gone), threads[t].(pc := StorePending(OfL402(offer))), w);
    }

    /** `mpp.Handler.HandleChallenge`. */
    method HandlePayment(t: nat, domain: string, charge: PaymentHeader.Challenge, env: Environment)
      returns (r: Result<Credential, Failure>)
      requires At(t, Validate(OfPayment(charge)), domain)
      modifies this
      ensures At(t, if r.Ok? then ReadEvent(r.value) else Unlock, domain)
      ensures Did(old(trace), trace, t, HandlerSteps(cfg, domain, OfPayment(charge), env))
      ensures Handled(OfPayment(charge), env, PaymentFailure(cfg, charge, env), r)
    {
      var accepted := ReviewCharge(t, domain, charge, env);
      if !accepted {
        return Err(Refused);
      }
      ghost var reviewed := trace;
      r := PayInvoice(t, domain, OfPayment(charge), env);
      Both(old(trace), reviewed, trace, t, [Checked(env.now)], PayerSteps(cfg, OfPayment(charge), env));
    }

    /** The chain of checks before paying. */
    method ReviewCharge(t: nat, domain: string, charge: PaymentHeader.Challenge, env: Environment) returns (ok: bool)
      requires At(t, Validate(OfPayment(charge)), domain)
      modifies this
      ensures At(t, if ok then Pay(OfPayment(charge)) else Unlock, domain)
      ensures Did(old(trace), trace, t, [Checked(env.now)]) && ok == Accepts(cfg, OfPayment(charge), env.now)
    {
      Others(t, env.others(9));
      var expiry := Budget.ExpiryAt(charge.expires, cfg.timestamp, env.now);
      var verdict := Budget.ValidateCharge(charge, expiry, cfg.maxCostSat);
      ok := verdict.Payable?;
      Commit(t, Checked(env.now), threads[t].(pc := if ok then Pay(OfPayment(charge)) else Unlock), world);
    }

    /** Where a call stands after the payer's answer. */
    ghost function AfterPayer(c: Challenge, r: Result<Credential, Failure>): Pc {
      match r
      case Ok(proof) => Record(proof)
      case Err(why) => if why == PaymentFailed then RecordFailure(c.Scheme()) else Unlock
    }

    ghost function PayerFailure(c: Challenge, env: Environment): Option<Failure> {
      if env.paid.None? then Some(PaymentFailed)
      else if HashMatches(cfg, c, env.paid.value) then None
      else Some(HashMismatch)
    }

    /** `PayInvoice`, and the hash check of the Payment handler. */
    method CallPayer(t: nat, domain: string, c: Challenge, env: Environment) returns (r: Result<Credential, Failure>)
      requires At(t, Pay(c), domain)
      modifies this
      ensures At(t, AfterPayer(c, r), domain) && Did(old(trace), trace, t, [PayResult(env.paid)])
      ensures Handled(c, env, PayerFailure(c, env), r)
    {
      Others(t, env.others(12));
      if env.paid.None? {
        Commit(t, PayResult(None), threads[t].(pc := RecordFailure(c.Scheme())), world);
        return Err(PaymentFailed);
      }
      var preimage := env.paid.value;
      var proof := Credential(c, preimage, |world.hist.payments|);
      var matches := HashMatches(cfg, c, preimage);
      var hist := world.hist.(payments := world.hist.payments + [PaymentRecord(domain, c, preimage)]);
      Commit(t, PayResult(env.paid), threads[t].(pc := if matches then Record(proof) else Unlock),
             world.(hist := hist));
      return if matches then Ok(proof) else Err(HashMismatch);
    }

    /** The payment and the record of its event. */
    method PayInvoice(t: nat, domain: string, c: Challenge, env: Environment) returns (r: Result<Credential, Failure>)
      requires At(t, Pay(c), domain)
      modifies this
      ensures At(t, if r.Err? then Unlock else AfterRecord(r.value), domain)
      ensures Did(old(trace), trace, t, PayerSteps(cfg, c, env))
      ensures Handled(c, env, PayerFailure(c, env), r)
    {
      r := CallPayer(t, domain, c, env);
      ghost var called := trace;
      if r.Ok? {
        RecordPaymentSuccess(t, domain, r.value, env);
        Both(old(trace), called, trace, t, [PayResult(env.paid)], RecordSteps(cfg, env));
      } else if r.error == PaymentFailed {
        RecordPaymentFailure(t, domain, c.Scheme(), env);
        Both(old(trace), called, trace, t, [PayResult(env.paid)], RecordSteps(cfg, env));
      }
    }

    method RecordPaymentSuccess(t: nat, domain: string, proof: Credential, env: Environment)
      requires At(t, Record(proof), domain)
      modifies this
      ensures At(t, AfterRecord(proof), domain) && Did(old(trace), trace, t, RecordSteps(cfg, env))
    {
      var inserted := InsertSuccess(t, domain, proof, env);
      if inserted {
        ghost var recorded := trace;
        NoteSuccess(t, domain, proof, env);
        Both(old(trace), recorded, trace, t, [Recorded(true)], [Quiet]);
      }
    }

    /** The payment's row in the event table. */
    method InsertSuccess(t: nat, domain: string, proof: Credential, env: Environment) returns (ok: bool)
      requires At(t, Record(proof), domain)
      modifies this
      ensures At(t, if ok then NoteEvent(proof) else AfterRecord(proof), domain)
      ensures ok == (cfg.logging && env.recorded) && Did(old(trace), trace, t, [Recorded(ok)])
    {
      Others(t, env.others(13));
      ok := cfg.logging && env.recorded;
      if ok {
        var eventID := world.disk.nextEvent;
        Commit(t, Recorded(true), threads[t].(pc := NoteEvent(proof), inserted := eventID), InsertEvent(world));
      } else {
        Commit(t, Recorded(false), threads[t].(pc := AfterRecord(proof)), world);
      }
    }

    /** `lastEventID.Store`. */
    method NoteSuccess(t: nat, domain: string, proof: Credential, env: Environment)
      requires At(t, NoteEvent(proof), domain)
      modifies this
      ensures At(t, AfterRecord(proof), domain) && Did(old(trace), trace, t, [Quiet])
    {
      Others(t, env.others(19));
      Commit(t, Quiet, threads[t].(pc := AfterRecord(proof)),
             SetLastEvent(world, proof.challenge.Scheme(), threads[t].inserted));
    }

    method RecordPaymentFailure(t: nat, domain: string, scheme: Scheme, env: Environment)
      requires At(t, RecordFailure(scheme), domain)
      modifies this
      ensures At(t, Unlock, domain) && Did(old(trace), trace, t, RecordSteps(cfg, env))
    {
      var inserted := InsertFailure(t, domain, scheme, env);
      if inserted {
        ghost var recorded := trace;
        NoteFailedPayment(t, domain, scheme, env);
        Both(old(trace), recorded, trace, t, [Recorded(true)], [Quiet]);
      }
    }

    /** The failure's row in the event table. */
    method InsertFailure(t: nat, domain: string, scheme: Scheme, env: Environment) returns (ok: bool)
      requires At(t, RecordFailure(scheme), domain)
      modifies this
      ensures At(t, if ok then NoteFailure(scheme) else Unlock, domain)
      ensures ok == (cfg.logging && env.recorded) && Did(old(trace), trace, t, [Recorded(ok)])
    {
      Others(t, env.others(13));
      ok := cfg.logging && env.recorded;
      if ok {
        var eventID := world.disk.nextEvent;
        Commit(t, Recorded(true), threads[t].(pc := NoteFailure(scheme), inserted := eventID), InsertEvent(world));
      } else {
        Commit(t, Recorded(false), threads[t].(pc := Unlock), world);
      }
    }

    /** `lastEventID.Store` after a failure. */
    method NoteFailedPayment(t: nat, domain: string, scheme: Scheme, env: Environment)
      requires At(t, NoteFailure(scheme), domain)
      modifies this
      ensures At(t, Unlock, domain) && Did(old(trace), trace, t, [Quiet])
    {
      Others(t, env.others(19));
      Commit(t, Quiet, threads[t].(pc := Unlock), SetLastEvent(world, scheme, threads[t].inserted));
    }
  }

  // ----- What every course satisfies

  /** A result fits the call's last base round trip: a response is the reply to it, a
      network error its loss, and every other failure comes after a challenge. */
  ghost predicate Explains(cfg: Config, own: seq<Outcome>, r: Result<Response, Failure>) {
    match r
    case Ok(response) => LastTrip(own) == Some(Reply(response))
    case Err(error) => if error == Network then LastTrip(own) == Some(Lost) else Challenged(cfg, own)
  }

  lemma {:induction false} LastTripConcat(a: seq<Outcome>, b: seq<Outcome>)
    ensures LastTrip(a + b) == if LastTrip(b).Some? then LastTrip(b) else LastTrip(a)
  {
    if b == [] {
      assert a + b == a;
    } else {
      assert (a + b)[..|a + b| - 1] == a + b[..|b| - 1];
      LastTripConcat(a, b[..|b| - 1]);
    }
  }

  lemma {:induction false} NoTrips(steps: seq<Outcome>)
    requires forall i :: 0 <= i < |steps| ==> !IsReply(steps[i])
    ensures LastTrip(steps).None?
  {
    if steps != [] { NoTrips(steps[..|steps| - 1]); }
  }

  lemma LastTripThen(a: seq<Outcome>, o: Outcome, b: seq<Outcome>)
    requires IsReply(o) && LastTrip(b).None?
    ensures LastTrip([o] + b) == Some(o) && LastTrip(a + ([o] + b)) == Some(o)
  {
    LastTripConcat([o], b);
    LastTripConcat(a, [o] + b);
  }

  lemma HandlerTrips(cfg: Config, domain: string, c: Challenge, env: Environment)
    ensures LastTrip(HandlerSteps(cfg, domain, c, env)).None?
  {
    NoTrips(RecordSteps(cfg, env));
    NoTrips(PayerSteps(cfg, c, env));
    NoTrips(KeptSteps(cfg, domain, c, env));
    NoTrips(HandlerSteps(cfg, domain, c, env));
  }

  lemma PayTrips(cfg: Config, domain: string, c: Challenge, env: Environment)
    ensures LastTrip(PaySteps(cfg, domain, c, env))
         == if HandlerFailure(cfg, domain, c, env).None? then Some(ReplyOutcome(env.retryReply)) else None
  {
    HandlerTrips(cfg, domain, c, env);
    NoTrips([]);
    var after: seq<Outcome> := if env.retryReply.Some? then [Quiet] else [];
    NoTrips(after);
    LastTripThen([Quiet], ReplyOutcome(env.retryReply), after);
    assert RetrySteps(env) == [Quiet] + ([ReplyOutcome(env.retryReply)] + after);
    LastTripConcat(HandlerSteps(cfg, domain, c, env), RetrySteps(env));
    LastTripConcat(HandlerSteps(cfg, domain, c, env), []);
  }

  lemma FreshTrips(cfg: Config, domain: string, env: Environment)
    ensures var c := ChallengeIn(cfg, env.freshReply);
            LastTrip(FreshSteps(cfg, domain, env))
            == Some(ReplyOutcome(if c.Some? && HandlerFailure(cfg, domain, c.value, env).None? then env.retryReply
                                 else env.freshReply))
  {
    var c := ChallengeIn(cfg, env.freshReply);
    NoTrips([]);
    if c.Some? { PayTrips(cfg, domain, c.value, env); }
    LastTripConcat([ReplyOutcome(env.freshReply)], if c.Some? then PaySteps(cfg, domain, c.value, env) else []);
  }

  /** The last trip under the lock. */
  lemma LockedTrips(cfg: Config, domain: string, env: Environment, finds: Finds)
    ensures LastTrip(LockedSteps(cfg, domain, env, finds))
         == if !finds.free then None
            else if finds.second.Some? then Some(ReplyOutcome(env.foundReply))
            else LastTrip(FreshSteps(cfg, domain, env))
  {
    var look, held := [Read(env.recheckRead && cfg.dir(domain).Some?)], HeldSteps(cfg, domain, env, finds.second);
    NoTrips([Quiet]);
    NoTrips([Quiet, Quiet]);
    NoTrips(look);
    FreshTrips(cfg, domain, env);
    LastTripConcat(look, if finds.second.Some? then [ReplyOutcome(env.foundReply)] else FreshSteps(cfg, domain, env));
    LastTripConcat(held, [Quiet]);
    LastTripConcat([Quiet, Quiet], held + [Quiet]);
  }

  lemma FirstTrips(cfg: Config, domain: string, env: Environment, first: Option<Credential>)
    ensures LastTrip(FirstSteps(cfg, domain, env, first))
         == if first.None? then None else Some(ReplyOutcome(env.cachedReply))
  {
    var look, after := [Read(env.cachedRead && cfg.dir(domain).Some?)], RefusedSteps(cfg, domain, env)[1..];
    NoTrips(look);
    NoTrips([]);
    NoTrips(after);
    LastTripConcat(look, []);
    LastTripThen(look, ReplyOutcome(env.cachedReply), after);
  }

  lemma RestTrips(cfg: Config, domain: string, env: Environment, finds: Finds)
    ensures LastTrip(RestSteps(cfg, domain, env, finds))
         == if !PlainEnds(cfg, env, finds.first) && LastTrip(LockedSteps(cfg, domain, env, finds)).Some?
            then LastTrip(LockedSteps(cfg, domain, env, finds))
            else if FirstBrings(cfg, env, finds.first) then None
            else Some(ReplyOutcome(env.plainReply))
  {
    var plain := PlainSteps(cfg, env, finds.first);
    NoTrips([]);
    LastTripConcat(plain, []);
    LastTripConcat(plain, LockedSteps(cfg, domain, env, finds));
    if !FirstBrings(cfg, env, finds.first) { LastTripThen([], ReplyOutcome(env.plainReply), []); }
    assert [] + plain == plain && plain + [] == plain;
  }

  lemma CallTrips(cfg: Config, domain: string, env: Environment, finds: Finds)
    ensures var rest := LastTrip(RestSteps(cfg, domain, env, finds));
            LastTrip(CallSteps(cfg, domain, env, finds))
            == if !FirstEnds(env, finds.first) && rest.Some? then rest
               else if finds.first.Some? then Some(ReplyOutcome(env.cachedReply))
               else None
  {
    FirstTrips(cfg, domain, env, finds.first);
    NoTrips([]);
    LastTripConcat(FirstSteps(cfg, domain, env, finds.first), []);
    LastTripConcat(FirstSteps(cfg, domain, env, finds.first), RestSteps(cfg, domain, env, finds));
  }

  lemma CallExplained(cfg: Config, domain: string, env: Environment, finds: Finds)
    ensures Explains(cfg, CallSteps(cfg, domain, env, finds), CallResult(cfg, domain, env, finds))
  {
    var own := CallSteps(cfg, domain, env, finds);
    CallTrips(cfg, domain, env, finds);
    RestTrips(cfg, domain, env, finds);
    LockedTrips(cfg, domain, env, finds);
    FreshTrips(cfg, domain, env);
    BroughtBy(cfg, own, env.cachedReply);
    BroughtBy(cfg, own, env.plainReply);
    BroughtBy(cfg, own, env.freshReply);
  }

  /** A reply that asks for payment is the result only of a call that had a credential
      to show. */
  lemma ShowsCredential(cfg: Config, domain: string, env: Environment, finds: Finds)
    ensures var r := CallResult(cfg, domain, env, finds);
            r.Ok? && ChallengeIn(cfg, Some(r.value)).Some? ==> finds.free && (finds.second.Some? || env.paid.Some?)
  {
    if !FirstEnds(env, finds.first) && !PlainEnds(cfg, env, finds.first) && finds.free && finds.second.None? {
      PaidToShow(cfg, domain, env);
    }
  }

  lemma PaidToShow(cfg: Config, domain: string, env: Environment)
    ensures var r := FreshResult(cfg, domain, env); r.Ok? && ChallengeIn(cfg, Some(r.value)).Some? ==> env.paid.Some?
  {
    if ChallengeIn(cfg, env.freshReply).Some? {
      var c := ChallengeIn(cfg, env.freshReply).value;
      assert HandlerFailure(cfg, domain, c, env).None? ==> env.paid.Some?;
    }
  }

  lemma BroughtBy(cfg: Config, own: seq<Outcome>, reply: Option<Response>)
    ensures LastTrip(own) == Some(ReplyOutcome(reply)) && ChallengeIn(cfg, reply).Some? ==> Challenged(cfg, own)
  {
    if LastTrip(own) == Some(ReplyOutcome(reply)) && ChallengeIn(cfg, reply).Some? {
      assert Brought(cfg, own, ChallengeIn(cfg, reply).value);
    }
  }
}
