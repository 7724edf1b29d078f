/** Which event row a request enriches. */
module ProtocolEvents {
  import opened Wrappers
  import opened Protocol
  import opened ProtocolSafety
  import opened ProtocolScenarios

  /** The ids of inserted rows as a call knows them. */
  predicate InsertLocal(th: Thread) {
    match th.pc
    case NoteFailure(_) => th.inserted != 0
    case NoteEvent(_) => th.inserted != 0
    case StorePaid(_) => true
    case ReadEvent(_) => true
    case SendPaid(_, _) => true
    case Enrich(_) => true
    case Unlock => true
    case Done => true
    case _ => th.inserted == 0
  }

  /** A call that inserted a row still finds it noted as its handler's last. */
  predicate NoteLocal(th: Thread, m: Memory) {
    th.inserted != 0 ==>
      match th.pc
      case StorePaid(proof) => LastEvent(m, proof.challenge.Scheme()) == th.inserted
      case ReadEvent(proof) => LastEvent(m, proof.challenge.Scheme()) == th.inserted
      case SendPaid(_, event) => event == th.inserted
      case Enrich(event) => event == th.inserted
      case _ => true
  }

  /** Event rows are inserted by one request each. */
  ghost predicate InsertedOnce(threads: seq<Thread>, nextEvent: int) {
    && (forall t :: 0 <= t < |threads| ==> 0 <= threads[t].inserted < nextEvent)
    && (forall t, u :: 0 <= t < u < |threads| && threads[t].inserted != 0 ==>
          threads[t].inserted != threads[u].inserted)
  }

  lemma InsertedStep(threads: seq<Thread>, t: nat, th': Thread, next: int, next': int)
    requires InsertedOnce(threads, next) && next >= 1 && t < |threads|
    requires || (th'.inserted == threads[t].inserted && next' == next)
             || (th'.inserted == next && next' == next + 1)
    ensures InsertedOnce(threads[t := th'], next')
  {}

  // ----- Rows in every run

  ghost predicate IsInserted(threads: seq<Thread>, event: int) {
    exists t :: 0 <= t < |threads| && threads[t].inserted == event
  }

  /** An id that was noted, read or is to be enriched is 0 or some request's row. */
  ghost predicate RowsInv(cfg: Config, s: State) {
    && InsertedOnce(s.threads, s.world.disk.nextEvent)
    && (forall t :: 0 <= t < |s.threads| ==>
          InsertLocal(s.threads[t]) && (s.threads[t].inserted != 0 ==> cfg.logging))
    && (forall scheme :: LastEvent(s.world.mem, scheme) != 0 ==> IsInserted(s.threads, LastEvent(s.world.mem, scheme)))
    && (forall t :: 0 <= t < |s.threads| && EventOf(s.threads[t].pc) != 0 ==>
          IsInserted(s.threads, EventOf(s.threads[t].pc)))
  }

  function EventOf(pc: Pc): int {
    match pc
    case SendPaid(_, event) => event
    case Enrich(event) => event
    case _ => 0
  }

  /** What one step does to ids. */
  lemma RowEffect(cfg: Config, t: nat, th: Thread, w: World, o: Outcome)
    requires Fits(cfg, th, o) && LocalInv(cfg, th, w.hist) && InsertLocal(th) && w.disk.nextEvent >= 1
    ensures var (th', w') := Advance(cfg, t, th, w, o);
      && InsertLocal(th') && th'.domain == th.domain
      && (|| (th'.inserted == th.inserted && w'.disk.nextEvent == w.disk.nextEvent)
          || (th.inserted == 0 && th'.inserted == w.disk.nextEvent && w'.disk.nextEvent == w.disk.nextEvent + 1
              && cfg.logging))
  {
    if Inserts(th.pc) {
      RowEffectInserting(cfg, t, th, w, o);
    } else if Holding(th.pc) {
      RowEffectLocked(cfg, t, th, w, o);
    } else {
      RowEffectUnlocked(cfg, t, th, w, o);
    }
  }

  predicate Inserts(pc: Pc) { pc.Record? || pc.RecordFailure? }

  lemma RowEffectInserting(cfg: Config, t: nat, th: Thread, w: World, o: Outcome)
    requires Fits(cfg, th, o) && LocalInv(cfg, th, w.hist) && InsertLocal(th) && w.disk.nextEvent >= 1 && Inserts(th.pc)
    ensures var (th', w') := Advance(cfg, t, th, w, o);
      && InsertLocal(th') && th'.domain == th.domain
      && (|| (th'.inserted == th.inserted && w'.disk.nextEvent == w.disk.nextEvent)
          || (th.inserted == 0 && th'.inserted == w.disk.nextEvent && w'.disk.nextEvent == w.disk.nextEvent + 1
              && cfg.logging))
  {}

  lemma RowEffectLocked(cfg: Config, t: nat, th: Thread, w: World, o: Outcome)
    requires Fits(cfg, th, o) && InsertLocal(th) && Holding(th.pc) && !Inserts(th.pc)
    ensures var (th', w') := Advance(cfg, t, th, w, o);
      InsertLocal(th') && th'.domain == th.domain && th'.inserted == th.inserted
        && w'.disk.nextEvent == w.disk.nextEvent
  {}

  lemma RowEffectUnlocked(cfg: Config, t: nat, th: Thread, w: World, o: Outcome)
    requires Fits(cfg, th, o) && InsertLocal(th) && !Holding(th.pc)
    ensures var (th', w') := Advance(cfg, t, th, w, o);
      InsertLocal(th') && th'.domain == th.domain && th'.inserted == th.inserted
        && w'.disk.nextEvent == w.disk.nextEvent
  {}

  /** The scheme whose handler's last id a step sets. */
  function Notes(pc: Pc): Option<Scheme> {
    match pc
    case NoteFailure(scheme) => Some(scheme)
    case NoteEvent(proof) => Some(proof.challenge.Scheme())
    case _ => None
  }

  /** Ids are noted from the own row and read from what is noted. */
  lemma NoteEffect(cfg: Config, t: nat, th: Thread, w: World, o: Outcome, scheme: Scheme)
    requires Fits(cfg, th, o) && InsertLocal(th)
    ensures var (th', w') := Advance(cfg, t, th, w, o);
      && (LastEvent(w'.mem, scheme) == LastEvent(w.mem, scheme) ||
          (Notes(th.pc) == Some(scheme) && th.inserted != 0 && th'.inserted == th.inserted
           && LastEvent(w'.mem, scheme) == th.inserted))
      && (EventOf(th'.pc) == EventOf(th.pc) || EventOf(th'.pc) == 0 ||
          exists from :: EventOf(th'.pc) == LastEvent(w.mem, from))
  {
    var (th', w') := Advance(cfg, t, th, w, o);
    if th.pc.ReadEvent? { assert EventOf(th'.pc) == LastEvent(w.mem, th.pc.proof.challenge.Scheme()); }
  }

  lemma IsInsertedStep(threads: seq<Thread>, t: nat, th': Thread, event: int)
    requires t < |threads| && IsInserted(threads, event) && event != 0
    requires threads[t].inserted != 0 ==> th'.inserted == threads[t].inserted
    ensures IsInserted(threads[t := th'], event)
  {
    var u :| 0 <= u < |threads| && threads[u].inserted == event;
    assert threads[t := th'][u].inserted == event;
  }

  lemma RowsStep(cfg: Config, s: State, t: nat, o: Outcome)
    requires Inv(cfg, s) && RowsInv(cfg, s) && Enabled(cfg, s, Step(t, o))
    ensures RowsInv(cfg, Apply(cfg, s, Step(t, o)))
  {
    var s', th := Apply(cfg, s, Step(t, o)), s.threads[t];
    assert LocalInv(cfg, th, s.world.hist);
    RowEffect(cfg, t, th, s.world, o);
    InsertedStep(s.threads, t, s'.threads[t], s.world.disk.nextEvent, s'.world.disk.nextEvent);
    forall scheme | LastEvent(s'.world.mem, scheme) != 0
      ensures IsInserted(s'.threads, LastEvent(s'.world.mem, scheme))
    {
      NotedIsInserted(cfg, s, t, o, scheme);
    }
    forall u | 0 <= u < |s'.threads| && EventOf(s'.threads[u].pc) != 0
      ensures IsInserted(s'.threads, EventOf(s'.threads[u].pc))
    {
      ReadIsInserted(cfg, s, t, o, u);
    }
  }

  lemma NotedIsInserted(cfg: Config, s: State, t: nat, o: Outcome, scheme: Scheme)
    requires Inv(cfg, s) && RowsInv(cfg, s) && Enabled(cfg, s, Step(t, o))
    requires LastEvent(Apply(cfg, s, Step(t, o)).world.mem, scheme) != 0
    ensures var s' := Apply(cfg, s, Step(t, o)); IsInserted(s'.threads, LastEvent(s'.world.mem, scheme))
  {
    var s', th := Apply(cfg, s, Step(t, o)), s.threads[t];
    assert LocalInv(cfg, th, s.world.hist);
    RowEffect(cfg, t, th, s.world, o);
    NoteEffect(cfg, t, th, s.world, o, scheme);
    if LastEvent(s'.world.mem, scheme) == LastEvent(s.world.mem, scheme) {
      IsInsertedStep(s.threads, t, s'.threads[t], LastEvent(s.world.mem, scheme));
    } else {
      assert s'.threads[t].inserted == LastEvent(s'.world.mem, scheme);
    }
  }

  lemma ReadIsInserted(cfg: Config, s: State, t: nat, o: Outcome, u: nat)
    requires Inv(cfg, s) && RowsInv(cfg, s) && Enabled(cfg, s, Step(t, o)) && u < |s.threads|
    requires EventOf(Apply(cfg, s, Step(t, o)).threads[u].pc) != 0
    ensures var s' := Apply(cfg, s, Step(t, o)); IsInserted(s'.threads, EventOf(s'.threads[u].pc))
  {
    var s', th := Apply(cfg, s, Step(t, o)), s.threads[t];
    assert LocalInv(cfg, th, s.world.hist);
    RowEffect(cfg, t, th, s.world, o);
    NoteEffect(cfg, t, th, s.world, o, L402);
    var event := EventOf(s'.threads[u].pc);
    if u != t { assert event == EventOf(s.threads[u].pc); }
    IsInsertedStep(s.threads, t, s'.threads[t], event);
  }

  lemma {:induction false} RowsRun(cfg: Config, s: State, acts: seq<Action>)
    requires Inv(cfg, s) && RowsInv(cfg, s) && Legal(cfg, s, acts)
    ensures RowsInv(cfg, Run(cfg, s, acts))
    decreases |acts|
  {
    if acts != [] {
      InvStep(cfg, s, acts[0]);
      RowsAction(cfg, s, acts[0]);
      RowsRun(cfg, Apply(cfg, s, acts[0]), acts[1..]);
    }
  }

  lemma RowsAction(cfg: Config, s: State, a: Action)
    requires Inv(cfg, s) && RowsInv(cfg, s) && Enabled(cfg, s, a)
    ensures RowsInv(cfg, Apply(cfg, s, a))
  {
    match a
    case Spawn(d) => RowsSpawn(cfg, s, d);
    case Crash => RowsCrash(cfg, s);
    case Step(t, o) => RowsStep(cfg, s, t, o);
  }

  lemma RowsSpawn(cfg: Config, s: State, d: string)
    requires RowsInv(cfg, s) && s.world.disk.nextEvent >= 1
    ensures RowsInv(cfg, s.(threads := s.threads + [Thread(d, Start, 0, 0, false)]))
  {
    var threads := s.threads + [Thread(d, Start, 0, 0, false)];
    forall event | IsInserted(s.threads, event) ensures IsInserted(threads, event) {
      var t :| 0 <= t < |s.threads| && s.threads[t].inserted == event;
      assert threads[t].inserted == event;
    }
  }

  lemma RowsCrash(cfg: Config, s: State)
    requires RowsInv(cfg, s)
    ensures RowsInv(cfg, Apply(cfg, s, Crash))
  {}

  /** In every run, to any domains, a request whose own event was not recorded
      enriches nothing, or a row that another request inserted. */
  lemma UnrecordedEnriches(cfg: Config, s0: State, acts: seq<Action>, t: nat)
    requires Init(cfg, s0) && Legal(cfg, s0, acts)
    requires var s := Run(cfg, s0, acts); t < |s.threads| && s.threads[t].pc.Enrich? && s.threads[t].inserted == 0
    ensures var s := Run(cfg, s0, acts); var event := s.threads[t].pc.event;
      event == 0 || exists u :: 0 <= u < |s.threads| && u != t && s.threads[u].inserted == event
  {
    InvInit(cfg, s0);
    RowsRun(cfg, s0, acts);
    var s := Run(cfg, s0, acts);
    if s.threads[t].pc.event != 0 {
      assert IsInserted(s.threads, EventOf(s.threads[t].pc));
    }
  }

  // ----- Own rows

  /** Requests to the domain can pay under the scheme and get a credential. */
  ghost predicate Buyable(cfg: Config, d: string, scheme: Scheme) {
    exists c: Challenge, preimage: string ::
      c.Scheme() == scheme && PayableAt(cfg, d, c) && HashMatches(cfg, c, preimage)
  }

  /** Events are recorded, and of two of the domains one can be paid and the other at
      least billed under the same scheme. */
  ghost predicate MixesEvents(cfg: Config, domains: iset<string>) {
    cfg.logging && exists d, e, scheme :: Pair(cfg, domains, d, e, scheme)
  }

  ghost predicate Pair(cfg: Config, domains: iset<string>, d: string, e: string, scheme: Scheme) {
    d in domains && e in domains && d != e && Buyable(cfg, d, scheme) && Billable(cfg, e, scheme)
  }

  ghost predicate NotesInv(s: State) {
    forall t :: 0 <= t < |s.threads| ==> NoteLocal(s.threads[t], s.world.mem)
  }

  lemma OwnNote(cfg: Config, t: nat, th: Thread, w: World, o: Outcome)
    requires Fits(cfg, th, o) && InsertLocal(th) && NoteLocal(th, w.mem)
    ensures NoteLocal(Advance(cfg, t, th, w, o).0, Advance(cfg, t, th, w, o).1.mem)
  {}

  lemma OtherNote(cfg: Config, domains: iset<string>, s: State, t: nat, o: Outcome, u: nat)
    requires Inv(cfg, s) && RowsInv(cfg, s) && NotesInv(s) && Enabled(cfg, s, Step(t, o))
    requires Within(s, domains) && !MixesEvents(cfg, domains) && u < |s.threads| && u != t
    ensures NoteLocal(s.threads[u], Apply(cfg, s, Step(t, o)).world.mem)
  {
    var th, other := s.threads[t], s.threads[u];
    assert NoteLocal(other, s.world.mem);
    if other.pc.StorePaid? || other.pc.ReadEvent? {
      assert LocalInv(cfg, th, s.world.hist) && LocalInv(cfg, other, s.world.hist);
      var proof := other.pc.proof;
      NoteEffect(cfg, t, th, s.world, o, proof.challenge.Scheme());
      if other.inserted != 0 && Notes(th.pc) == Some(proof.challenge.Scheme()) {
        SameDomain(cfg, domains, th, other, s.world.hist, proof);
        Exclusive(s, t, u);
      }
    }
  }

  /** A request that notes an event and one that relies on the last one are to one
      domain. */
  lemma SameDomain(cfg: Config, domains: iset<string>, th: Thread, other: Thread, h: History, proof: Credential)
    requires cfg.logging && !MixesEvents(cfg, domains) && th.domain in domains && other.domain in domains
    requires LocalInv(cfg, th, h) && LocalInv(cfg, other, h)
    requires other.pc == StorePaid(proof) || other.pc == ReadEvent(proof)
    requires Notes(th.pc) == Some(proof.challenge.Scheme())
    ensures th.domain == other.domain
  {
    assert Buyable(cfg, other.domain, proof.challenge.Scheme());
    assert Billable(cfg, th.domain, proof.challenge.Scheme());
    assert !Pair(cfg, domains, other.domain, th.domain, proof.challenge.Scheme());
  }

  lemma NotesStep(cfg: Config, domains: iset<string>, s: State, a: Action)
    requires Inv(cfg, s) && RowsInv(cfg, s) && NotesInv(s) && Enabled(cfg, s, a)
    requires Within(s, domains) && !MixesEvents(cfg, domains)
    ensures NotesInv(Apply(cfg, s, a))
  {
    if a.Step? {
      var s' := Apply(cfg, s, a);
      forall u | 0 <= u < |s'.threads|
        ensures NoteLocal(s'.threads[u], s'.world.mem)
      {
        if u == a.thread {
          OwnNote(cfg, u, s.threads[u], s.world, a.outcome);
        } else {
          OtherNote(cfg, domains, s, a.thread, a.outcome, u);
        }
      }
    }
  }

  lemma {:induction false} NotesRun(cfg: Config, domains: iset<string>, s: State, acts: seq<Action>)
    requires Inv(cfg, s) && RowsInv(cfg, s) && NotesInv(s) && Legal(cfg, s, acts) && Confined(acts, domains)
    requires Within(s, domains) && !MixesEvents(cfg, domains)
    ensures NotesInv(Run(cfg, s, acts))
    decreases |acts|
  {
    if acts != [] {
      InvStep(cfg, s, acts[0]);
      RowsAction(cfg, s, acts[0]);
      NotesStep(cfg, domains, s, acts[0]);
      WithinStep(cfg, domains, s, acts[0]);
      NotesRun(cfg, domains, Apply(cfg, s, acts[0]), acts[1..]);
    }
  }

  /** Every request whose own event was recorded enriches that event. */
  ghost predicate EnrichesOwn(s: State) {
    forall t :: 0 <= t < |s.threads| && s.threads[t].pc.Enrich? && s.threads[t].inserted != 0 ==>
      s.threads[t].pc.event == s.threads[t].inserted
  }

  /** Event identity. In every run among such domains, with either scheme or both, a
      request whose own event was recorded enriches that event, and no other request
      inserted it. */
  lemma EnrichesItsOwnEvent(cfg: Config, domains: iset<string>, s0: State, acts: seq<Action>)
    requires Init(cfg, s0) && Legal(cfg, s0, acts) && Confined(acts, domains) && !MixesEvents(cfg, domains)
    ensures var s := Run(cfg, s0, acts);
      && EnrichesOwn(s)
      && (forall t, u :: 0 <= t < u < |s.threads| && s.threads[t].inserted != 0 ==>
            s.threads[t].inserted != s.threads[u].inserted)
  {
    InvInit(cfg, s0);
    RowsRun(cfg, s0, acts);
    NotesRun(cfg, domains, s0, acts);
    var s := Run(cfg, s0, acts);
    forall t | 0 <= t < |s.threads| && s.threads[t].pc.Enrich? && s.threads[t].inserted != 0
      ensures s.threads[t].pc.event == s.threads[t].inserted
    {
      assert NoteLocal(s.threads[t], s.world.mem);
    }
  }

  // ----- Mixed-up rows

  /** The event of a payment is recorded, not yet noted. */
  lemma RecordIt(cfg: Config, domains: iset<string>, s0: State, s: State, t: nat)
    requires t < |s.threads| && s.threads[t].pc.Record? && cfg.logging && Reaches(cfg, domains, s0, s)
    ensures var th := s.threads[t];
            Reaches(cfg, domains, s0,
                    State(s.threads[t := th.(pc := NoteEvent(th.pc.proof), inserted := s.world.disk.nextEvent)],
                                            InsertEvent(s.world)))
  {
    var th := s.threads[t];
    Move(cfg, domains, s0, s, t, Recorded(true), th.(pc := NoteEvent(th.pc.proof), inserted := s.world.disk.nextEvent),
         InsertEvent(s.world));
  }

  /** Its id is noted. */
  lemma NoteIt(cfg: Config, domains: iset<string>, s0: State, s: State, t: nat)
    requires t < |s.threads| && s.threads[t].pc.NoteEvent? && Reaches(cfg, domains, s0, s)
    ensures var th := s.threads[t]; var proof := th.pc.proof;
            Reaches(cfg, domains, s0, State(s.threads[t := th.(pc := AfterRecord(proof))],
                                            SetLastEvent(s.world, proof.challenge.Scheme(), th.inserted)))
  {
    var th, proof := s.threads[t], s.threads[t].pc.proof;
    Move(cfg, domains, s0, s, t, Quiet, th.(pc := AfterRecord(proof)),
         SetLastEvent(s.world, proof.challenge.Scheme(), th.inserted));
  }

  /** The token is stored, if there is one. */
  lemma KeepIt(cfg: Config, domains: iset<string>, s0: State, s: State, t: nat, proof: Credential) returns (w: World)
    requires t < |s.threads| && s.threads[t].pc == AfterRecord(proof) && Reaches(cfg, domains, s0, s)
    requires proof.challenge.OfL402? ==> cfg.dir(s.threads[t].domain).Some?
    ensures Reaches(cfg, domains, s0, State(s.threads[t := s.threads[t].(pc := ReadEvent(proof))], w))
    ensures w.mem == s.world.mem && w.disk.nextEvent == s.world.disk.nextEvent && w.hist == s.world.hist
    ensures proof.challenge.OfPayment? ==> w == s.world
  {
    var th := s.threads[t];
    if proof.challenge.OfL402? {
      w := SetStore(s.world, With(s.world.disk.store, cfg.dir(th.domain), Paid(proof)));
      Move(cfg, domains, s0, s, t, Wrote(true), th.(pc := ReadEvent(proof)), w);
    } else {
      w := s.world;
      assert s.threads[t := th.(pc := ReadEvent(proof))] == s.threads;
    }
  }

  /** The last id is read and the answer to the retry is about to enrich it. */
  lemma ToEnrich(cfg: Config, domains: iset<string>, s0: State, s: State, t: nat) returns (last: State)
    requires t < |s.threads| && s.threads[t].pc.ReadEvent? && Reaches(cfg, domains, s0, s)
    ensures Reaches(cfg, domains, s0, last)
    ensures var th := s.threads[t];
            last.threads == s.threads[t := th.(pc := Enrich(LastEvent(s.world.mem, th.pc.proof.challenge.Scheme())))]
  {
    var th, proof := s.threads[t], s.threads[t].pc.proof;
    var event := LastEvent(s.world.mem, proof.challenge.Scheme());
    Move(cfg, domains, s0, s, t, Quiet, th.(pc := SendPaid(proof, event)), s.world);
    var s1 := State(s.threads[t := th.(pc := SendPaid(proof, event))], s.world);
    var w := Send(s.world, th.domain, proof);
    Move(cfg, domains, s0, s1, t, Reply(Response(false, [])), th.(pc := Enrich(event)), w);
    last := State(s.threads[t := th.(pc := Enrich(event))], w);
    assert s1.threads[t := th.(pc := Enrich(event))] == last.threads;
  }

  /** A payment fails, and the event of that is recorded and noted. */
  lemma FailToPay(cfg: Config, domains: iset<string>, s0: State, s: State, t: nat)
    requires t < |s.threads| && s.threads[t].pc.Pay? && cfg.logging && Reaches(cfg, domains, s0, s)
    ensures var th := s.threads[t]; var scheme := th.pc.challenge.Scheme(); var id := s.world.disk.nextEvent;
            Reaches(cfg, domains, s0, State(s.threads[t := th.(pc := Unlock, inserted := id)],
                                            SetLastEvent(InsertEvent(s.world), scheme, id)))
  {
    var th, scheme, id := s.threads[t], s.threads[t].pc.challenge.Scheme(), s.world.disk.nextEvent;
    Move(cfg, domains, s0, s, t, PayResult(None), th.(pc := RecordFailure(scheme)), s.world);
    var s1 := State(s.threads[t := th.(pc := RecordFailure(scheme))], s.world);
    var noting := th.(pc := NoteFailure(scheme), inserted := id);
    Move(cfg, domains, s0, s1, t, Recorded(true), noting, InsertEvent(s.world));
    var s2 := State(s.threads[t := noting], InsertEvent(s.world));
    assert s1.threads[t := noting] == s2.threads;
    Move(cfg, domains, s0, s2, t, Quiet, th.(pc := Unlock, inserted := id), SetLastEvent(s2.world, scheme, id));
    assert s2.threads[t := th.(pc := Unlock, inserted := id)] == s.threads[t := th.(pc := Unlock, inserted := id)];
  }

  /** A request to one domain pays and notes its event; then one to another domain
      fails to pay and notes that. */
  lemma NotedTwice(cfg: Config, domains: iset<string>, d: string, e: string, c: Challenge, preimage: string,
                   c': Challenge)
    returns (s: State)
    requires cfg.logging && d in domains && e in domains && d != e && c.Scheme() == c'.Scheme()
    requires PayableAt(cfg, d, c) && HashMatches(cfg, c, preimage) && PayableAt(cfg, e, c')
    ensures Reaches(cfg, domains, Empty(), s) && LastEvent(s.world.mem, c.Scheme()) == 2
    ensures |s.threads| == 2 && s.threads[0] == Thread(d, AfterRecord(Credential(c, preimage, 0)), 0, 1, false)
  {
    var s0, proof := Empty(), Credential(c, preimage, 0);
    ReachesSelf(cfg, domains, s0);
    var s1 := Buy(cfg, domains, s0, s0, d, cfg.dir(d).Some?, c, preimage);
    RecordIt(cfg, domains, s0, s1, 0);
    var th := Thread(d, NoteEvent(proof), 0, 1, false);
    var s2 := State(s1.threads[0 := th], InsertEvent(s1.world));
    NoteIt(cfg, domains, s0, s2, 0);
    var s3 := State(s2.threads[0 := th.(pc := AfterRecord(proof))], SetLastEvent(s2.world, c.Scheme(), 1));
    var s4 := Approach(cfg, domains, s0, s3, e, cfg.dir(e).Some?, c');
    FailToPay(cfg, domains, s0, s4, 1);
    s := State(s4.threads[1 := s4.threads[1].(pc := Unlock, inserted := 2)],
               SetLastEvent(InsertEvent(s4.world), c.Scheme(), 2));
  }

  /** With two such domains a request can enrich the other one's event, in a run from
      an empty start, whatever challenges they are sent. */
  lemma MixedUpEvents(cfg: Config, domains: iset<string>, d: string, e: string, c: Challenge, preimage: string,
                      c': Challenge)
    requires cfg.logging && d in domains && e in domains && d != e && c.Scheme() == c'.Scheme()
    requires PayableAt(cfg, d, c) && HashMatches(cfg, c, preimage) && PayableAt(cfg, e, c')
    ensures exists acts :: Legal(cfg, Empty(), acts) && Confined(acts, domains) && !EnrichesOwn(Run(cfg, Empty(), acts))
  {
    var s0, proof := Empty(), Credential(c, preimage, 0);
    var s := NotedTwice(cfg, domains, d, e, c, preimage, c');
    var th := s.threads[0];
    var w := KeepIt(cfg, domains, s0, s, 0, proof);
    var s1 := State(s.threads[0 := th.(pc := ReadEvent(proof))], w);
    var s2 := ToEnrich(cfg, domains, s0, s1, 0);
    assert s2.threads[0].pc == Enrich(2) && s2.threads[0].inserted == 1;
    var acts :| Leads(cfg, domains, s0, acts, s2);
  }

  /** Recorded events are enriched by their own requests, in every run among some
      domains. */
  ghost predicate AlwaysEnrichesOwn(cfg: Config, domains: iset<string>) {
    forall s0, acts :: Init(cfg, s0) && Legal(cfg, s0, acts) && Confined(acts, domains) ==>
      EnrichesOwn(Run(cfg, s0, acts))
  }

  /** That is so exactly when no two of them mix: events are recorded, one can be
      paid and the other one billed, under the same scheme. */
  lemma EventIdentityExact(cfg: Config, domains: iset<string>)
    ensures AlwaysEnrichesOwn(cfg, domains) <==> !MixesEvents(cfg, domains)
  {
    if MixesEvents(cfg, domains) {
      var d, e, scheme :| Pair(cfg, domains, d, e, scheme);
      var c: Challenge, preimage: string :| c.Scheme() == scheme && PayableAt(cfg, d, c)
        && HashMatches(cfg, c, preimage);
      var c': Challenge :| c'.Scheme() == scheme && PayableAt(cfg, e, c');
      MixedUpEvents(cfg, domains, d, e, c, preimage, c');
      assert Init(cfg, Empty());
    } else {
      forall s0, acts | Init(cfg, s0) && Legal(cfg, s0, acts) && Confined(acts, domains)
        ensures EnrichesOwn(Run(cfg, s0, acts))
      {
        EnrichesItsOwnEvent(cfg, domains, s0, acts);
      }
    }
  }

  /** And when a request's own recording fails it may enrich an older row: so it is
      wherever events are recorded and a domain can be paid. */
  lemma UnrecordedEnrichesOlder(cfg: Config, d: string, c: Challenge, preimage: string)
    requires cfg.logging && PayableAt(cfg, d, c) && HashMatches(cfg, c, preimage)
    ensures exists acts ::
      && Legal(cfg, Empty(), acts) && Confined(acts, iset{d})
      && var s := Run(cfg, Empty(), acts);
         |s.threads| == 2 && s.threads[1].inserted == 0 && s.threads[0].inserted == 1 && s.threads[1].pc == Enrich(1)
  {
    var s0, domains := Empty(), iset{d};
    ReachesSelf(cfg, domains, s0);
    var s1 := Buy(cfg, domains, s0, s0, d, cfg.dir(d).Some?, c, preimage);
    var s2 := FirstDone(cfg, domains, s0, s1);
    var s3 := Buy(cfg, domains, s0, s2, d, false, c, preimage);
    var th, proof := s3.threads[1], s3.threads[1].pc.proof;
    Move(cfg, domains, s0, s3, 1, Recorded(false), th.(pc := AfterRecord(proof)), s3.world);
    var s4 := State(s3.threads[1 := th.(pc := AfterRecord(proof))], s3.world);
    var w := KeepIt(cfg, domains, s0, s4, 1, proof);
    var s5 := State(s4.threads[1 := th.(pc := ReadEvent(proof))], w);
    var s6 := ToEnrich(cfg, domains, s0, s5, 1);
    var acts :| Leads(cfg, domains, s0, acts, s6);
  }

  /** A request that has just paid records its event and ends. */
  lemma FirstDone(cfg: Config, domains: iset<string>, s0: State, s: State) returns (last: State)
    requires |s.threads| == 1 && s.threads[0].pc.Record? && cfg.logging && Reaches(cfg, domains, s0, s)
    requires s.threads[0].pc.proof.challenge.OfL402? ==> cfg.dir(s.threads[0].domain).Some?
    requires s.world.disk.nextEvent == 1
    ensures Reaches(cfg, domains, s0, last) && |last.threads| == 1
    ensures last.threads[0] == s.threads[0].(pc := Done, inserted := 1)
    ensures LastEvent(last.world.mem, s.threads[0].pc.proof.challenge.Scheme()) == 1
    ensures last.world.mem.locks == s.world.mem.locks
            && last.world.mem.holder == s.world.mem.holder - {s.threads[0].lock}
  {
    var th, proof := s.threads[0], s.threads[0].pc.proof;
    RecordIt(cfg, domains, s0, s, 0);
    var th1 := th.(pc := NoteEvent(proof), inserted := 1);
    var s1 := State(s.threads[0 := th1], InsertEvent(s.world));
    NoteIt(cfg, domains, s0, s1, 0);
    var s2 := State(s1.threads[0 := th1.(pc := AfterRecord(proof))],
                    SetLastEvent(s1.world, proof.challenge.Scheme(), 1));
    var w := KeepIt(cfg, domains, s0, s2, 0, proof);
    last := Retry(cfg, domains, s0, State(s2.threads[0 := th1.(pc := ReadEvent(proof))], w), 0);
  }
}
