/** The payment protocol over the file store: its token map is what the directories
    hold, its reads are reads of them, and domains have directories of their own or
    share them as the sanitizer has it. */
module ProtocolOnDisk {
  import opened Wrappers
  import opened Protocol
  import opened ProtocolSafety
  import opened ProtocolScenarios
  import Domains
  import FileStore
  import Text

  /** The directories are the sanitizer's. */
  ghost predicate OnDisk(cfg: Config) { forall d :: cfg.dir(d) == Domains.DirOf(d) }

  /** What a step does not say about its file-store operation: how a failing one
      failed, and how the metadata fared. */
  datatype Detail = Detail(
    dirOpened: bool, meta: FileStore.MetaWrite, emptied: bool, metaToo: bool)

  function ReadOf(ok: bool, detail: Detail): FileStore.ReadFault {
    if ok then FileStore.NoFault else if detail.dirOpened then FileStore.NotRead else FileStore.NotOpened
  }

  function RemovalOf(ok: bool, detail: Detail): FileStore.Removal {
    if !ok then FileStore.Untouched
    else if detail.emptied then FileStore.TokenGone(detail.metaToo)
    else FileStore.Removed
  }

  function WriteOf(ok: bool, detail: Detail): FileStore.TokenWrite {
    if ok then FileStore.TokenWritten(detail.meta)
    else if detail.dirOpened then FileStore.NoTokenWritten
    else FileStore.NoDir
  }

  /** The file-store operation that a step performs, if any. */
  function OpOf(cfg: Config, th: Thread, o: Outcome, detail: Detail): Option<FileStore.Op> {
    match th.pc
    case Start => LookOf(cfg, th.domain, o, detail)
    case Recheck => LookOf(cfg, th.domain, o, detail)
    case Invalidate(_) => if o.Wrote? then Some(FileStore.Drop(th.domain, RemovalOf(o.ok, detail))) else None
    case RemoveStale(_) => if o.Wrote? then Some(FileStore.Drop(th.domain, RemovalOf(o.ok, detail))) else None
    case StorePending(c) =>
      if o.Wrote? && c.OfL402? then Some(FileStore.Put(th.domain, Pending(c.offer), WriteOf(o.ok, detail))) else None
    case StorePaid(proof) =>
      if o.Wrote? then Some(FileStore.Put(th.domain, Paid(proof), WriteOf(o.ok, detail))) else None
    case _ => None
  }

  function LookOf(cfg: Config, d: string, o: Outcome, detail: Detail): Option<FileStore.Op> {
    if o.Read? && L402 in cfg.schemes then Some(FileStore.Look(d, ReadOf(o.ok, detail))) else None
  }

  function ActionOp(cfg: Config, s: State, a: Action, detail: Detail): Option<FileStore.Op> {
    if a.Step? && a.thread < |s.threads| then OpOf(cfg, s.threads[a.thread], a.outcome, detail) else None
  }

  function AsSeq(op: Option<FileStore.Op>): seq<FileStore.Op> { if op.Some? then [op.value] else [] }

  /** The file-store operations `ops` and those of a run, with `details(k)` for the
      k-th action. */
  ghost function Operations(cfg: Config, s: State, acts: seq<Action>, details: nat -> Detail, k: nat,
                            ops: seq<FileStore.Op>): seq<FileStore.Op>
    requires Legal(cfg, s, acts)
    decreases |acts|
  {
    if acts == [] then ops
    else Operations(cfg, Apply(cfg, s, acts[0]), acts[1..], details, k + 1,
                    ops + AsSeq(ActionOp(cfg, s, acts[0], details(k))))
  }

  // ----- The token map is on disk

  ghost function TokensIn(dirs: FileStore.Dirs): Store {
    map name | name in dirs && dirs[name].token.Some? :: dirs[name].token.value
  }

  /** What an operation does to the tokens in the directories. */
  function OnTokens(store: Store, op: FileStore.Op): Store {
    match op
    case Put(d, token, write) => if write.TokenWritten? then With(store, Domains.DirOf(d), token) else store
    case Drop(d, removal) => if removal.Untouched? then store else Without(store, Domains.DirOf(d))
    case Look(_, _) => store
  }

  lemma OpTokens(dirs: FileStore.Dirs, op: FileStore.Op)
    ensures TokensIn(FileStore.OnDirs(dirs, op)) == OnTokens(TokensIn(dirs), op)
  {
    var dir := Domains.DirOf(op.domain);
    if dir.Some? {
      DirTokens(dirs, op, dir.value);
    }
  }

  lemma DirTokens(dirs: FileStore.Dirs, op: FileStore.Op, name: string)
    requires Domains.DirOf(op.domain) == Some(name)
    ensures TokensIn(FileStore.OnDirs(dirs, op)) == OnTokens(TokensIn(dirs), op)
  {
    assert TokensIn(FileStore.Opened(dirs, name)) == TokensIn(dirs);
    assert TokensIn(dirs - {name}) == TokensIn(dirs) - {name};
    if op.Drop? && op.removal.TokenGone? {
      assert TokensIn(FileStore.Emptied(dirs, name, op.removal.metaToo)) == TokensIn(dirs) - {name};
    }
    if op.Put? && op.write.TokenWritten? {
      var open := FileStore.Opened(dirs, name);
      assert TokensIn(FileStore.Written(open, name, op.domain, op.token, op.write.meta))
             == TokensIn(open)[name := op.token];
    }
  }

  /** A step changes the token map as its file-store operation does. */
  lemma StepIsOp(cfg: Config, t: nat, th: Thread, w: World, o: Outcome, detail: Detail)
    requires OnDisk(cfg) && Fits(cfg, th, o)
    ensures var (th', w') := Advance(cfg, t, th, w, o); var op := OpOf(cfg, th, o, detail);
            && w'.disk.store == (if op.Some? then OnTokens(w.disk.store, op.value) else w.disk.store)
            && (op.Some? ==> op.value.domain == th.domain)
  {
    assert cfg.dir(th.domain) == Domains.DirOf(th.domain);
    if o.Wrote? { WriteIsOp(cfg, t, th, w, o, detail); }
  }

  lemma WriteIsOp(cfg: Config, t: nat, th: Thread, w: World, o: Outcome, detail: Detail)
    requires cfg.dir(th.domain) == Domains.DirOf(th.domain) && Fits(cfg, th, o) && o.Wrote?
    ensures var (th', w') := Advance(cfg, t, th, w, o); var op := OpOf(cfg, th, o, detail);
            && w'.disk.store == (if op.Some? then OnTokens(w.disk.store, op.value) else w.disk.store)
            && (op.Some? ==> op.value.domain == th.domain)
  {}

  /** The operations have left exactly the tokens of the state. */
  ghost predicate Tracks(ops: seq<FileStore.Op>, s: State) {
    TokensIn(FileStore.RunDirs(ops)) == s.world.disk.store
  }

  lemma ActionIsOp(cfg: Config, s: State, a: Action, detail: Detail, ops: seq<FileStore.Op>)
    requires OnDisk(cfg) && Enabled(cfg, s, a) && Tracks(ops, s)
    ensures Tracks(ops + AsSeq(ActionOp(cfg, s, a, detail)), Apply(cfg, s, a))
  {
    var op := ActionOp(cfg, s, a, detail);
    if a.Step? {
      StepIsOp(cfg, a.thread, s.threads[a.thread], s.world, a.outcome, detail);
    }
    if op.Some? {
      assert (ops + [op.value])[..|ops|] == ops;
      OpTokens(FileStore.RunDirs(ops), op.value);
    } else {
      assert ops + [] == ops;
    }
  }

  /** In every run, to any domains, with crashes anywhere and operations failing in
      any way, the directories hold the protocol's tokens. */
  lemma {:induction false} RunOnDisk(cfg: Config, s: State, acts: seq<Action>, details: nat -> Detail, k: nat,
                                     ops: seq<FileStore.Op>)
    requires OnDisk(cfg) && Legal(cfg, s, acts) && Tracks(ops, s)
    ensures Tracks(Operations(cfg, s, acts, details, k, ops), Run(cfg, s, acts))
    decreases |acts|
  {
    if acts != [] {
      ActionIsOp(cfg, s, acts[0], details(k), ops);
      RunOnDisk(cfg, Apply(cfg, s, acts[0]), acts[1..], details, k + 1,
                ops + AsSeq(ActionOp(cfg, s, acts[0], details(k))));
    }
  }

  /** The credential in what `GetToken` returns: none for errors and pending tokens. */
  function Usable(found: Result<Token, FileStore.StoreError>): Option<Credential> {
    if found.Ok? && found.value.Paid? then Some(found.value.proof) else None
  }

  /** Reads on disk: at each look for a cached credential in a run, what the request
      sees is what `GetToken` finds in the directories at that moment. */
  lemma ReadsOnDisk(cfg: Config, s0: State, acts: seq<Action>, details: nat -> Detail, earlier: seq<FileStore.Op>,
                    d: string, ok: bool, detail: Detail)
    requires OnDisk(cfg) && Legal(cfg, s0, acts) && Tracks(earlier, s0) && L402 in cfg.schemes
    requires ok ==> cfg.dir(d).Some?
    ensures var dirs := FileStore.RunDirs(Operations(cfg, s0, acts, details, 0, earlier));
            Cached(cfg.schemes, Run(cfg, s0, acts).world.disk.store, cfg.dir(d), ok)
            == Usable(FileStore.Found(dirs, d, ReadOf(ok, detail)))
  {
    RunOnDisk(cfg, s0, acts, details, 0, earlier);
    var dirs := FileStore.RunDirs(Operations(cfg, s0, acts, details, 0, earlier));
    SeenIsFound(cfg, dirs, d, ok, detail);
  }

  lemma SeenIsFound(cfg: Config, dirs: FileStore.Dirs, d: string, ok: bool, detail: Detail)
    requires OnDisk(cfg) && L402 in cfg.schemes && (ok ==> cfg.dir(d).Some?)
    ensures Cached(cfg.schemes, TokensIn(dirs), cfg.dir(d), ok) == Usable(FileStore.Found(dirs, d, ReadOf(ok, detail)))
  {
    assert cfg.dir(d) == Domains.DirOf(d);
  }

  // ----- Listings

  ghost predicate NiceOps(ops: seq<FileStore.Op>) {
    forall i :: 0 <= i < |ops| ==> FileStore.Nice(ops[i].domain)
  }

  /** The domains that read back from their directories. */
  ghost function NiceDomains(): iset<string> { iset d | FileStore.Nice(d) }

  lemma {:induction false} NiceRun(cfg: Config, s: State, acts: seq<Action>, details: nat -> Detail, k: nat,
                                   ops: seq<FileStore.Op>)
    requires Legal(cfg, s, acts) && Within(s, NiceDomains()) && Confined(acts, NiceDomains()) && NiceOps(ops)
    ensures NiceOps(Operations(cfg, s, acts, details, k, ops))
    decreases |acts|
  {
    if acts != [] {
      var op := ActionOp(cfg, s, acts[0], details(k));
      WithinStep(cfg, NiceDomains(), s, acts[0]);
      assert NiceOps(ops + AsSeq(op)) by {
        if op.Some? { assert op.value.domain == s.threads[acts[0].thread].domain; }
      }
      NiceRun(cfg, Apply(cfg, s, acts[0]), acts[1..], details, k + 1, ops + AsSeq(op));
    }
  }

  /** Listings on disk: after any run of requests to such domains, every listing of
      the file store has for each of them exactly the protocol's token. */
  lemma StoreOnDisk(cfg: Config, s: State, acts: seq<Action>, details: nat -> Detail,
                    earlier: seq<FileStore.Op>, tokens: map<string, Token>)
    requires OnDisk(cfg) && Legal(cfg, s, acts) && Tracks(earlier, s) && NiceOps(earlier)
    requires Within(s, NiceDomains()) && Confined(acts, NiceDomains())
    requires FileStore.IsListing(FileStore.RunDirs(Operations(cfg, s, acts, details, 0, earlier)), tokens)
    ensures var store := Run(cfg, s, acts).world.disk.store;
      && (forall d :: d in tokens ==> FileStore.Nice(d))
      && (forall d :: FileStore.Nice(d) ==>
            && (d in tokens <==> cfg.dir(d).value in store)
            && (d in tokens ==> tokens[d] == store[cfg.dir(d).value]))
  {
    var ops := Operations(cfg, s, acts, details, 0, earlier);
    RunOnDisk(cfg, s, acts, details, 0, earlier);
    NiceRun(cfg, s, acts, details, 0, earlier);
    FileStore.StoreIsMap(ops, tokens);
    KeysNice(ops);
    forall d | FileStore.Nice(d)
      ensures d in tokens <==> cfg.dir(d).value in Run(cfg, s, acts).world.disk.store
      ensures d in tokens ==> tokens[d] == Run(cfg, s, acts).world.disk.store[cfg.dir(d).value]
    {
      FileStore.LookupIsMap(ops, d);
      assert cfg.dir(d) == Domains.DirOf(d);
    }
  }

  lemma {:induction false} KeysNice(ops: seq<FileStore.Op>)
    requires NiceOps(ops)
    ensures forall d :: d in FileStore.RunMap(ops) ==> FileStore.Nice(d)
  {
    if ops != [] { KeysNice(ops[..|ops| - 1]); }
  }

  // ----- Whose directory

  /** Domains that read back from their directories have directories of their own. */
  lemma NiceAreSeparate(cfg: Config)
    requires OnDisk(cfg)
    ensures Separate(cfg, NiceDomains())
  {
    forall d, e | FileStore.Nice(d) && FileStore.Nice(e) && SharesDir(cfg, d, e)
      ensures d == e
    {
      assert cfg.dir(d) == Domains.DirOf(d) && cfg.dir(e) == Domains.DirOf(e);
      if d != e { Domains.SanitizeInjective(d, e); }
    }
  }

  /** So among hosts with or without a port, for one, credentials are sent only to
      the domain they were bought from. */
  lemma NiceMeansOwn(cfg: Config)
    requires OnDisk(cfg)
    ensures AlwaysOwn(cfg, NiceDomains())
  {
    NiceAreSeparate(cfg);
    AlwaysOwnExact(cfg, NiceDomains());
  }

  /** Some run from an empty start, with requests to two domains, sends to one of them
      what was bought from the other. */
  ghost predicate Leaks(cfg: Config, d: string, e: string) {
    exists acts :: Legal(cfg, Empty(), acts) && Confined(acts, iset{d, e})
      && !OwnSent(Run(cfg, Empty(), acts).world.hist)
  }

  /** `http://host_8080/` and `http://host:8080/`, for one: their domains share a
      directory, and any L402 challenge that can be paid leads to a leak. */
  lemma UnderscoreHostLeaks(cfg: Config, host: string, port: string, c: Challenge)
    requires OnDisk(cfg) && c.OfL402? && Receivable(cfg, c) && Acceptable(cfg, c)
    requires host != "" && Domains.IsKept(host) && ':' !in host
    requires Text.AllDigits(port) && !Domains.IsStandardPort(port)
    ensures Leaks(cfg, Domains.DomainFromURL(host, port), Domains.DomainFromURL(host + "_" + port, ""))
  {
    var d, e := Domains.DomainFromURL(host, port), Domains.DomainFromURL(host + "_" + port, "");
    Domains.UrlsShareDirectory(host, port);
    assert cfg.dir(d) == Domains.DirOf(d) && cfg.dir(e) == Domains.DirOf(e);
    SharedDirectoryLeaks(cfg, iset{d, e}, d, e, c, "");
  }

  /** And so does a host name with a letter that the sanitizer drops, with the host
      name without it. */
  lemma DroppedLetterLeaks(cfg: Config, a: string, letter: char, b: string, c: Challenge)
    requires OnDisk(cfg) && c.OfL402? && Receivable(cfg, c) && Acceptable(cfg, c)
    requires !Domains.IsAllowed(letter) && letter != ':' && Domains.DirOf(a + b).Some?
    ensures Leaks(cfg, Domains.DomainFromURL(a + [letter] + b, ""), Domains.DomainFromURL(a + b, ""))
  {
    var d, e := a + [letter] + b, a + b;
    Domains.DroppedCharacter(a, letter, b);
    assert cfg.dir(d) == Domains.DirOf(d) && cfg.dir(e) == Domains.DirOf(e);
    SharedDirectoryLeaks(cfg, iset{d, e}, d, e, c, "");
  }
}
