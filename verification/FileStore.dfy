/** The per-domain file store: a directory per sanitized domain, holding at most
    one token and a best-effort `.domain` file. It refines a plain map. */
module FileStore {
  import opened Wrappers
  import opened Domains
  import Protocol
  import Text

  type Token = Protocol.Token

  datatype Dir = Dir(token: Option<Token>, meta: Option<string>)

  type Dirs = map<string, Dir>

  datatype StoreError = BadDomain | NoToken | Failed

  /** How the best-effort write of `.domain` ended: done, not begun, or begun and
      left empty. */
  datatype MetaWrite = MetaDone | MetaSkipped | MetaEmptied

  /** How a read went wrong, if it did: the directory could not be made or opened, or
      the token in it could not be read. */
  datatype ReadFault = NoFault | NotOpened | NotRead

  /** How a store ended: without the directory, without the token, or with the token
      written and then the metadata or not. */
  datatype TokenWrite = NoDir | NoTokenWritten | TokenWritten(meta: MetaWrite)

  /** How a removal ended: completely, without effect, or with an error after the
      token was deleted, and perhaps the metadata. */
  datatype Removal = Removed | Untouched | TokenGone(metaToo: bool)

  // ----- What the operations do to the directories

  /** Opening a domain's inner store creates its directory. */
  function Opened(dirs: Dirs, name: string): Dirs {
    if name in dirs then dirs else dirs[name := Dir(None, None)]
  }

  function AfterGet(dirs: Dirs, domain: string, fault: ReadFault): Dirs {
    match DirOf(domain)
    case None => dirs
    case Some(name) => if fault.NotOpened? then dirs else Opened(dirs, name)
  }

  function Found(dirs: Dirs, domain: string, fault: ReadFault): Result<Token, StoreError> {
    match DirOf(domain)
    case None => Err(BadDomain)
    case Some(name) =>
      if !fault.NoFault? then Err(Failed)
      else if name in dirs && dirs[name].token.Some? then Ok(dirs[name].token.value)
      else Err(NoToken)
  }

  function AfterStore(dirs: Dirs, domain: string, token: Token, write: TokenWrite): Dirs {
    match DirOf(domain)
    case None => dirs
    case Some(name) =>
      match write
      case NoDir => dirs
      case NoTokenWritten => Opened(dirs, name)
      case TokenWritten(meta) => Written(Opened(dirs, name), name, domain, token, meta)
  }

  function Written(dirs: Dirs, name: string, domain: string, token: Token, meta: MetaWrite): Dirs
    requires name in dirs
  {
    dirs[name := Dir(Some(token), MetaAfter(dirs[name].meta, domain, meta))]
  }

  function MetaAfter(before: Option<string>, domain: string, meta: MetaWrite): Option<string> {
    match meta
    case MetaDone => Some(Metadata(domain))
    case MetaSkipped => before
    case MetaEmptied => Some("")
  }

  function AfterRemove(dirs: Dirs, domain: string, removal: Removal): Dirs {
    match DirOf(domain)
    case None => dirs
    case Some(name) =>
      match removal
      case Removed => dirs - {name}
      case Untouched => dirs
      case TokenGone(metaToo) => Emptied(dirs, name, metaToo)
  }

  function Emptied(dirs: Dirs, name: string, metaToo: bool): Dirs {
    if name in dirs then dirs[name := Dir(None, if metaToo then None else dirs[name].meta)] else dirs
  }

  /** Directory names are sanitized names. */
  ghost predicate NamesSane(dirs: Dirs) {
    forall name {:trigger Sanitized(name)} :: name in dirs ==> Sanitized(name) == Ok(name)
  }

  lemma SaneOpen(dirs: Dirs, domain: string, name: string)
    requires NamesSane(dirs) && Sanitized(domain) == Ok(name)
    ensures NamesSane(Opened(dirs, name)) && DirOf(domain) == Some(name)
  {
    SanitizeIdempotent(domain);
  }

  // ----- The store

  class Store {
    var dirs: Dirs

    ghost predicate Valid()
      reads this
    {
      NamesSane(dirs)
    }

    constructor ()
      ensures Valid() && dirs == map[]
    {
      dirs := map[];
    }

    /** `getDomainStore`; `opens` says whether the directory can be made and opened. */
    method OpenDir(domain: string, opens: bool) returns (r: Result<string, StoreError>)
      requires Valid()
      modifies this
      ensures Valid() && dirs == AfterGet(old(dirs), domain, if opens then NoFault else NotOpened)
      ensures match DirOf(domain)
              case Some(name) => if opens then r == Ok(name) && name in dirs else r == Err(Failed)
              case None => r == Err(BadDomain)
    {
      var name := SanitizeDomain(domain);
      if name.Err? {
        return Err(BadDomain);
      }
      if !opens {
        return Err(Failed);
      }
      SaneOpen(dirs, domain, name.value);
      if name.value !in dirs {
        dirs := dirs[name.value := Dir(None, None)];
      }
      return Ok(name.value);
    }

    method GetToken(domain: string, fault: ReadFault) returns (r: Result<Token, StoreError>)
      requires Valid()
      modifies this
      ensures Valid() && dirs == AfterGet(old(dirs), domain, fault)
      ensures r == Found(old(dirs), domain, fault)
    {
      var name := OpenDir(domain, !fault.NotOpened?);
      if name.Err? {
        return Err(name.error);
      }
      if fault.NotRead? {
        return Err(Failed);
      }
      if dirs[name.value].token.None? {
        return Err(NoToken);
      }
      return Ok(dirs[name.value].token.value);
    }

    /** The inner store's write, then the best-effort one of `.domain`. */
    method WriteFiles(name: string, domain: string, token: Token, meta: MetaWrite)
      requires Valid() && name in dirs
      modifies this
      ensures Valid() && dirs == Written(old(dirs), name, domain, token, meta)
    {
      dirs := dirs[name := dirs[name].(token := Some(token))];
      dirs := dirs[name := dirs[name].(meta := MetaAfter(dirs[name].meta, domain, meta))];
    }

    method StoreToken(domain: string, token: Token, write: TokenWrite) returns (r: Result<(), StoreError>)
      requires Valid()
      modifies this
      ensures Valid() && dirs == AfterStore(old(dirs), domain, token, write)
      ensures r.Ok? <==> DirOf(domain).Some? && write.TokenWritten?
    {
      var name := OpenDir(domain, !write.NoDir?);
      if name.Err? {
        return Err(name.error);
      }
      if !write.TokenWritten? {
        return Err(Failed);
      }
      WriteFiles(name.value, domain, token, write.meta);
      return Ok(());
    }

    method RemoveToken(domain: string, removal: Removal) returns (r: Result<(), StoreError>)
      requires Valid()
      modifies this
      ensures Valid() && dirs == AfterRemove(old(dirs), domain, removal)
      ensures r.Ok? <==> DirOf(domain).Some? && removal.Removed?
    {
      var name := SanitizeDomain(domain);
      if name.Err? {
        return Err(BadDomain);
      }
      if removal.TokenGone? {
        dirs := Emptied(dirs, name.value, removal.metaToo);
      } else if removal.Removed? {
        dirs := dirs - {name.value};
        return Ok(());
      }
      return Err(Failed);
    }

    /** What both listings do with a directory entry. */
    method ReadEntry(name: string, fault: ReadFault) returns (r: Result<(string, Token), StoreError>)
      requires Valid() && name in dirs
      modifies this
      ensures Valid() && dirs == old(dirs) && r == Entry(dirs, name, fault)
    {
      SanitizeIdempotent(name);
      var token := GetToken(name, fault);
      if token.Err? {
        return Err(token.error);
      }
      return Ok((Original(dirs[name].meta, name), token.value));
    }

    /** Reads every directory, in any order; a directory without a token is passed
        over, any other failure ends the listing. */
    method AllTokens(faults: string -> ReadFault) returns (r: Result<map<string, Token>, StoreError>)
      requires Valid()
      modifies this
      ensures dirs == old(dirs)
      ensures r.Ok? <==> forall name :: name in dirs ==> faults(name).NoFault?
      ensures r.Ok? ==> IsListing(dirs, r.value)
    {
      var tokens := map[];
      var entries := dirs.Keys;
      ghost var all := dirs;
      while entries != {}
        invariant Valid() && dirs == all && entries <= all.Keys
        invariant Listed(all, all.Keys - entries, tokens)
        invariant forall name :: name in all.Keys - entries ==> faults(name).NoFault?
        decreases |entries|
      {
        var entry :| entry in entries;
        var found := ReadEntry(entry, faults(entry));
        if found.Err? && !found.error.NoToken? {
          return Err(found.error);
        }
        ListedNext(all, all.Keys - entries, entry, tokens);
        entries := entries - {entry};
        assert all.Keys - entries == all.Keys - (entries + {entry}) + {entry};
        if found.Ok? {
          tokens := tokens[found.value.0 := found.value.1];
        }
      }
      assert all.Keys - entries == all.Keys;
      return Ok(tokens);
    }

    /** Passes over every directory whose token it cannot read. */
    method ListDomains(faults: string -> ReadFault) returns (domains: seq<string>)
      requires Valid()
      modifies this
      ensures dirs == old(dirs) && Named(dirs, dirs.Keys, faults, domains)
    {
      domains := [];
      var entries := dirs.Keys;
      ghost var all, read: set<string> := dirs, {};
      NamedNone(all, faults);
      while entries != {}
        invariant Valid() && dirs == all && entries <= all.Keys
        invariant read == all.Keys - entries && Named(all, read, faults, domains)
        decreases |entries|
      {
        var entry :| entry in entries;
        var found := ReadEntry(entry, faults(entry));
        NamedNext(all, read, faults, entry, domains);
        assert read + {entry} == all.Keys - (entries - {entry});
        entries, read := entries - {entry}, read + {entry};
        if found.Ok? {
          domains := domains + [found.value.0];
        }
      }
    }
  }

  /** What a directory entry contributes to a listing. */
  function Entry(dirs: Dirs, name: string, fault: ReadFault): Result<(string, Token), StoreError>
    requires name in dirs
  {
    if !fault.NoFault? then Err(Failed)
    else match dirs[name].token
      case None => Err(NoToken)
      case Some(token) => Ok((Original(dirs[name].meta, name), token))
  }

  /** The listing of some of the directories. */
  ghost predicate Listed(dirs: Dirs, read: set<string>, tokens: map<string, Token>) {
    && (forall d :: d in tokens ==> exists name :: Holds(dirs, name, d, tokens[d]))
    && (forall name :: name in dirs && name in read && dirs[name].token.Some? ==>
          Original(dirs[name].meta, name) in tokens)
  }

  lemma ListedNext(dirs: Dirs, read: set<string>, name: string, tokens: map<string, Token>)
    requires Listed(dirs, read, tokens) && name in dirs
    ensures match Entry(dirs, name, NoFault)
            case Err(_) => Listed(dirs, read + {name}, tokens)
            case Ok((d, token)) => Listed(dirs, read + {name}, tokens[d := token])
  {
    if Entry(dirs, name, NoFault).Ok? {
      var (d, token) := Entry(dirs, name, NoFault).value;
      assert Holds(dirs, name, d, token);
    }
  }

  /** The directories whose token can be read. */
  ghost function Readable(dirs: Dirs, faults: string -> ReadFault): set<string> {
    set name | name in dirs && dirs[name].token.Some? && faults(name).NoFault?
  }

  /** One entry for each of some directories with a readable token: the domain it
      reads back as. */
  ghost predicate Named(dirs: Dirs, read: set<string>, faults: string -> ReadFault, domains: seq<string>) {
    && (forall d :: d in domains <==>
          exists name :: name in read * Readable(dirs, faults) && Original(dirs[name].meta, name) == d)
    && |domains| == |read * Readable(dirs, faults)|
  }

  lemma NamedNone(dirs: Dirs, faults: string -> ReadFault)
    ensures Named(dirs, {}, faults, [])
  {
    assert {} * Readable(dirs, faults) == {};
  }

  lemma NamedNext(dirs: Dirs, read: set<string>, faults: string -> ReadFault, name: string, domains: seq<string>)
    requires name in dirs && name !in read && Named(dirs, read, faults, domains)
    ensures Named(dirs, read + {name}, faults,
                  match Entry(dirs, name, faults(name)) case Err(_) => domains case Ok((d, _)) => domains + [d])
  {
    var before, after := read * Readable(dirs, faults), (read + {name}) * Readable(dirs, faults);
    match Entry(dirs, name, faults(name))
    case Err(_) =>
      assert after == before;
    case Ok((e, _)) =>
      assert after == before + {name};
      forall d | d in domains + [e]
        ensures exists n :: n in after && Original(dirs[n].meta, n) == d
      {
        if d in domains {
          var n :| n in before && Original(dirs[n].meta, n) == d;
          assert n in after;
        } else {
          assert name in after;
        }
      }
  }

  /** Directory `name` holds `token` and reads back as `domain`. */
  ghost predicate Holds(dirs: Dirs, name: string, domain: string, token: Token) {
    name in dirs && dirs[name].token == Some(token) && Original(dirs[name].meta, name) == domain
  }

  // ----- Refinement of a map

  /** What `AllTokens` may return for these directories. */
  ghost predicate IsListing(dirs: Dirs, tokens: map<string, Token>) {
    && (forall d :: d in tokens ==> exists name :: Holds(dirs, name, d, tokens[d]))
    && (forall name :: name in dirs && dirs[name].token.Some? ==> Original(dirs[name].meta, name) in tokens)
  }

  datatype Op =
    | Put(domain: string, token: Token, write: TokenWrite)
    | Drop(domain: string, removal: Removal)
    | Look(domain: string, fault: ReadFault)

  function OnDirs(dirs: Dirs, op: Op): Dirs {
    match op
    case Put(d, token, write) => AfterStore(dirs, d, token, write)
    case Drop(d, removal) => AfterRemove(dirs, d, removal)
    case Look(d, fault) => AfterGet(dirs, d, fault)
  }

  /** The plain map: metadata, directories and faults do not exist. */
  function OnMap(m: map<string, Token>, op: Op): map<string, Token> {
    match op
    case Put(d, token, write) => if write.TokenWritten? then m[d := token] else m
    case Drop(d, removal) => if removal.Untouched? then m else m - {d}
    case Look(_, _) => m
  }

  function RunDirs(ops: seq<Op>): Dirs {
    if ops == [] then map[] else OnDirs(RunDirs(ops[..|ops| - 1]), ops[|ops| - 1])
  }

  function RunMap(ops: seq<Op>): map<string, Token> {
    if ops == [] then map[] else OnMap(RunMap(ops[..|ops| - 1]), ops[|ops| - 1])
  }

  predicate Nice(d: string) { Recoverable(d) && DirOf(d).Some? }

  /** Directories and map hold the same tokens under corresponding names, and
      whatever metadata there is agrees with the names. `clean` takes domains to
      directory names, `back` undoes it, `orig` reads metadata as well. */
  ghost predicate Refines(dirs: Dirs, m: map<string, Token>, clean: string -> string, back: string -> string,
                          orig: (Option<string>, string) -> string)
  {
    && (forall d :: d in m ==> back(clean(d)) == d && clean(d) in dirs && dirs[clean(d)].token == Some(m[d]))
    && (forall name :: name in dirs ==>
          && clean(back(name)) == name
          && orig(dirs[name].meta, name) == back(name)
          && (dirs[name].token.Some? ==> back(name) in m))
  }

  lemma PutRefines(dirs: Dirs, m: map<string, Token>, clean: string -> string, back: string -> string,
                   orig: (Option<string>, string) -> string, d: string, token: Token, meta: Option<string>)
    requires Refines(dirs, m, clean, back, orig)
    requires back(clean(d)) == d && orig(meta, clean(d)) == d
    ensures Refines(dirs[clean(d) := Dir(Some(token), meta)], m[d := token], clean, back, orig)
  {}

  lemma DropRefines(dirs: Dirs, m: map<string, Token>, clean: string -> string, back: string -> string,
                    orig: (Option<string>, string) -> string, d: string)
    requires Refines(dirs, m, clean, back, orig) && back(clean(d)) == d
    ensures Refines(dirs - {clean(d)}, m - {d}, clean, back, orig)
  {}

  lemma OpenRefines(dirs: Dirs, m: map<string, Token>, clean: string -> string, back: string -> string,
                    orig: (Option<string>, string) -> string, d: string)
    requires Refines(dirs, m, clean, back, orig) && back(clean(d)) == d && orig(None, clean(d)) == d
    ensures Refines(Opened(dirs, clean(d)), m, clean, back, orig)
  {}

  lemma EmptyRefines(dirs: Dirs, m: map<string, Token>, clean: string -> string, back: string -> string,
                     orig: (Option<string>, string) -> string, d: string, metaToo: bool)
    requires Refines(dirs, m, clean, back, orig) && back(clean(d)) == d && orig(None, clean(d)) == d
    ensures Refines(Emptied(dirs, clean(d), metaToo), m - {d}, clean, back, orig)
  {}

  lemma NiceName(d: string)
    requires Nice(d)
    ensures DirOf(d) == Some(Clean(d)) && Fallback(Clean(d)) == d
    ensures Original(None, Clean(d)) == d && Original(Some(""), Clean(d)) == d
    ensures Original(Some(Metadata(d)), Clean(d)) == d
  {
    FallbackExact(d);
    ReadsBack(d, None);
    ReadsBack(d, Some(""));
    ReadsBack(d, Some(Metadata(d)));
  }

  /** What an operation does to the directories, in terms of the clean name. */
  ghost predicate Effect(dirs: Dirs, op: Op, name: string, after: Dirs, written: string) {
    var open := Opened(dirs, name);
    match op
    case Put(_, token, write) =>
      if write.NoDir? then after == dirs
      else if write.NoTokenWritten? then after == open
      else exists meta ::
        meta in [Some(written), Some(""), open[name].meta] && after == open[name := Dir(Some(token), meta)]
    case Drop(_, removal) =>
      after == (match removal
                case Removed => dirs - {name}
                case Untouched => dirs
                case TokenGone(metaToo) => Emptied(dirs, name, metaToo))
    case Look(_, fault) => after == if fault.NotOpened? then dirs else open
  }

  lemma OpEffect(dirs: Dirs, op: Op)
    requires Nice(op.domain)
    ensures Effect(dirs, op, Clean(op.domain), OnDirs(dirs, op), Metadata(op.domain))
  {
    if op.Put? && op.write.TokenWritten? {
      var name := Clean(op.domain);
      var meta := MetaAfter(Opened(dirs, name)[name].meta, op.domain, op.write.meta);
      assert meta in [Some(Metadata(op.domain)), Some(""), Opened(dirs, name)[name].meta];
    }
  }

  lemma EffectRefines(dirs: Dirs, m: map<string, Token>, clean: string -> string, back: string -> string,
                      orig: (Option<string>, string) -> string, op: Op, after: Dirs, written: string)
    requires Refines(dirs, m, clean, back, orig)
    requires var d := op.domain; back(clean(d)) == d && orig(None, clean(d)) == d
                                 && orig(Some(""), clean(d)) == d && orig(Some(written), clean(d)) == d
    requires Effect(dirs, op, clean(op.domain), after, written)
    ensures Refines(after, OnMap(m, op), clean, back, orig)
  {
    var d := op.domain;
    var open := Opened(dirs, clean(d));
    OpenRefines(dirs, m, clean, back, orig, d);
    match op
    case Put(_, token, write) =>
      if write.TokenWritten? {
        var meta :| meta in [Some(written), Some(""), open[clean(d)].meta]
          && after == open[clean(d) := Dir(Some(token), meta)];
        PutRefines(open, m, clean, back, orig, d, token, meta);
      }
    case Drop(_, removal) =>
      DropRefines(dirs, m, clean, back, orig, d);
      if removal.TokenGone? { EmptyRefines(dirs, m, clean, back, orig, d, removal.metaToo); }
    case Look(_, _) =>
  }

  lemma RefinesStep(dirs: Dirs, m: map<string, Token>, op: Op)
    requires Refines(dirs, m, Clean, Fallback, Original) && Nice(op.domain)
    ensures Refines(OnDirs(dirs, op), OnMap(m, op), Clean, Fallback, Original)
  {
    NiceName(op.domain);
    OpEffect(dirs, op);
    EffectRefines(dirs, m, Clean, Fallback, Original, op, OnDirs(dirs, op), Metadata(op.domain));
  }

  lemma {:induction false} RefinesRun(ops: seq<Op>)
    requires forall i :: 0 <= i < |ops| ==> Nice(ops[i].domain)
    ensures Refines(RunDirs(ops), RunMap(ops), Clean, Fallback, Original)
  {
    if ops != [] {
      var front := ops[..|ops| - 1];
      RefinesRun(front);
      RefinesStep(RunDirs(front), RunMap(front), ops[|ops| - 1]);
    }
  }

  lemma ListingOfRefined(dirs: Dirs, m: map<string, Token>, clean: string -> string, back: string -> string,
                         tokens: map<string, Token>)
    requires Refines(dirs, m, clean, back, Original) && IsListing(dirs, tokens)
    ensures tokens == m
  {
    forall e | e in tokens
      ensures e in m && m[e] == tokens[e]
    {
      var name :| Holds(dirs, name, e, tokens[e]);
    }
    forall e | e in m
      ensures e in tokens
    {
      assert clean(e) in dirs && dirs[clean(e)].token.Some?;
    }
  }

  /** The file store is a map: after any sequence of operations on nice domains,
      whichever of them failed and however the metadata writes ended, every listing is
      the plain map. */
  lemma StoreIsMap(ops: seq<Op>, tokens: map<string, Token>)
    requires forall i :: 0 <= i < |ops| ==> Nice(ops[i].domain)
    requires IsListing(RunDirs(ops), tokens)
    ensures tokens == RunMap(ops)
  {
    RefinesRun(ops);
    ListingOfRefined(RunDirs(ops), RunMap(ops), Clean, Fallback, tokens);
  }

  // ----- Any domains

  /** Every directory reads back as a domain of its own. */
  ghost predicate ReadsOwn(dirs: Dirs) {
    forall name {:trigger name in dirs} :: name in dirs ==> OwnDir(dirs[name], name)
  }

  ghost predicate OwnDir(dir: Dir, name: string) {
    exists d :: Clean(d) == name && (dir.meta == None || dir.meta == Some("") || dir.meta == Some(Metadata(d)))
  }

  /** A directory after an operation is as it was, or is that of the operation's domain
      with metadata that were there, none, an empty file, or those of the domain. */
  ghost predicate SameOrTouched(dirs: Dirs, op: Op, name: string, dir: Dir) {
    || (name in dirs && dir == dirs[name])
    || (Clean(op.domain) == name
        && (dir.meta == None || dir.meta == Some("") || dir.meta == Some(Metadata(op.domain))
            || (name in dirs && dir.meta == dirs[name].meta)))
  }

  lemma StoredDirectory(dirs: Dirs, op: Op, name: string)
    requires op.Put? && name in AfterStore(dirs, op.domain, op.token, op.write)
    ensures SameOrTouched(dirs, op, name, AfterStore(dirs, op.domain, op.token, op.write)[name])
  {}

  lemma RemovedDirectory(dirs: Dirs, op: Op, name: string)
    requires op.Drop? && name in AfterRemove(dirs, op.domain, op.removal)
    ensures SameOrTouched(dirs, op, name, AfterRemove(dirs, op.domain, op.removal)[name])
  {}

  lemma OneDirectory(dirs: Dirs, op: Op, name: string)
    requires name in OnDirs(dirs, op)
    ensures SameOrTouched(dirs, op, name, OnDirs(dirs, op)[name])
  {
    match op
    case Put(_, _, _) => StoredDirectory(dirs, op, name);
    case Drop(_, _) => RemovedDirectory(dirs, op, name);
    case Look(_, _) =>
  }

  lemma ReadsOwnStep(dirs: Dirs, op: Op)
    requires ReadsOwn(dirs)
    ensures ReadsOwn(OnDirs(dirs, op))
  {
    var after := OnDirs(dirs, op);
    forall name {:trigger name in after} | name in after
      ensures OwnDir(after[name], name)
    {
      OneDirectory(dirs, op, name);
      if name in dirs { KeptMeta(dirs[name], name); }
      if Clean(op.domain) == name { NewMeta(after[name].token, after[name].meta, op.domain); }
    }
  }

  lemma NewMeta(token: Option<Token>, meta: Option<string>, d: string)
    ensures meta == None || meta == Some("") || meta == Some(Metadata(d)) ==> OwnDir(Dir(token, meta), Clean(d))
  {}

  /** The token in a directory is no matter, and losing the metadata does no harm. */
  lemma KeptMeta(dir: Dir, name: string)
    requires OwnDir(dir, name)
    ensures forall token :: OwnDir(Dir(token, dir.meta), name) && OwnDir(Dir(token, None), name)
  {
    var d :| Clean(d) == name && (dir.meta == None || dir.meta == Some("") || dir.meta == Some(Metadata(d)));
  }

  lemma {:induction false} ReadsOwnRun(ops: seq<Op>)
    ensures ReadsOwn(RunDirs(ops))
  {
    if ops != [] {
      ReadsOwnRun(ops[..|ops| - 1]);
      ReadsOwnStep(RunDirs(ops[..|ops| - 1]), ops[|ops| - 1]);
    }
  }

  lemma OwnName(dirs: Dirs, name: string)
    requires ReadsOwn(dirs) && name in dirs
    ensures Clean(Original(dirs[name].meta, name)) == name
  {
    var d :| Clean(d) == name && (dirs[name].meta == None || dirs[name].meta == Some("")
                                  || dirs[name].meta == Some(Metadata(d)));
    ReadsBackHere(d, dirs[name].meta);
  }

  lemma ListedHere(dirs: Dirs, tokens: map<string, Token>, d: string)
    requires ReadsOwn(dirs) && IsListing(dirs, tokens) && d in tokens
    ensures Holds(dirs, Clean(d), d, tokens[d])
  {
    var name :| Holds(dirs, name, d, tokens[d]);
    OwnName(dirs, name);
  }

  /** After any operations on any domains, a listing has exactly the domains that their
      own directory reads back as, each with that directory's token. */
  lemma ListingExact(ops: seq<Op>, tokens: map<string, Token>, d: string, token: Token)
    requires IsListing(RunDirs(ops), tokens)
    ensures d in tokens && tokens[d] == token <==> Holds(RunDirs(ops), Clean(d), d, token)
  {
    ReadsOwnRun(ops);
    if d in tokens { ListedHere(RunDirs(ops), tokens, d); }
  }

  /** The last thing that changed the domain's directory was a store of this token for
      the domain itself, metadata included. */
  ghost predicate LastWritten(ops: seq<Op>, d: string, token: Token) {
    ops != [] &&
    var op, front := ops[|ops| - 1], ops[..|ops| - 1];
    if DirOf(op.domain) != DirOf(d) then LastWritten(front, d, token)
    else match op
      case Put(e, stored, TokenWritten(meta)) => e == d && stored == token && meta.MetaDone?
      case Put(_, _, _) => LastWritten(front, d, token)
      case Drop(_, removal) => removal.Untouched? && LastWritten(front, d, token)
      case Look(_, _) => LastWritten(front, d, token)
  }

  /** Such an operation leaves the directory as it is. */
  predicate Spares(op: Op, name: string) {
    || DirOf(op.domain) != Some(name)
    || (op.Put? && !op.write.TokenWritten?) || (op.Drop? && op.removal.Untouched?) || op.Look?
  }

  lemma SparedDirectory(dirs: Dirs, op: Op, name: string)
    requires Spares(op, name) && name in dirs
    ensures name in OnDirs(dirs, op) && OnDirs(dirs, op)[name] == dirs[name]
  {}

  lemma WrittenDirectory(dirs: Dirs, d: string, token: Token)
    requires DirOf(d).Some?
    ensures var after := OnDirs(dirs, Put(d, token, TokenWritten(MetaDone)));
            Clean(d) in after && after[Clean(d)] == Dir(Some(token), Some(Metadata(d)))
  {}

  lemma {:induction false} WrittenIsThere(ops: seq<Op>, d: string, token: Token)
    requires DirOf(d).Some? && LastWritten(ops, d, token)
    ensures Clean(d) in RunDirs(ops) && RunDirs(ops)[Clean(d)] == Dir(Some(token), Some(Metadata(d)))
  {
    var op, front := ops[|ops| - 1], ops[..|ops| - 1];
    if Spares(op, Clean(d)) {
      WrittenIsThere(front, d, token);
      SparedDirectory(RunDirs(front), op, Clean(d));
    } else {
      WrittenDirectory(RunDirs(front), d, token);
    }
  }

  /** Lossless recovery: after any operations on any domains, a domain whose own store
      with its metadata was the last in its directory is listed, with its token, and
      no other domain of that directory is. This takes no more of its name than that
      spaces do not surround it; underscores do no harm. */
  lemma WrittenIsListed(ops: seq<Op>, d: string, token: Token, tokens: map<string, Token>)
    requires DirOf(d).Some? && Text.TrimSpace(d) == d && LastWritten(ops, d, token)
    requires IsListing(RunDirs(ops), tokens)
    ensures d in tokens && tokens[d] == token
    ensures forall e :: e in tokens && DirOf(e) == DirOf(d) ==> e == d
  {
    WrittenIsThere(ops, d, token);
    MetadataExact(d, Clean(d));
    assert Holds(RunDirs(ops), Clean(d), d, token);
    ListingExact(ops, tokens, d, token);
    forall e | e in tokens && DirOf(e) == DirOf(d)
      ensures e == d
    {
      ListingExact(ops, tokens, e, tokens[e]);
    }
  }

  /** And it is named, where its directory can be read. */
  lemma WrittenIsNamed(ops: seq<Op>, d: string, token: Token, faults: string -> ReadFault, domains: seq<string>)
    requires DirOf(d).Some? && Text.TrimSpace(d) == d && LastWritten(ops, d, token) && faults(Clean(d)).NoFault?
    requires Named(RunDirs(ops), RunDirs(ops).Keys, faults, domains)
    ensures d in domains
  {
    WrittenIsThere(ops, d, token);
    MetadataExact(d, Clean(d));
    assert Clean(d) in RunDirs(ops).Keys * Readable(RunDirs(ops), faults);
  }

  /** And every lookup is a lookup in the plain map. */
  lemma LookupIsMap(ops: seq<Op>, d: string)
    requires forall i :: 0 <= i < |ops| ==> Nice(ops[i].domain)
    requires Nice(d)
    ensures Found(RunDirs(ops), d, NoFault) == if d in RunMap(ops) then Ok(RunMap(ops)[d]) else Err(NoToken)
  {
    RefinesRun(ops);
    NiceName(d);
  }

  /** In particular for `host` and `host:port` domains. */
  lemma StoreIsMapForHosts(ops: seq<Op>, tokens: map<string, Token>)
    requires forall i :: 0 <= i < |ops| ==> IsHostPort(ops[i].domain) && DirOf(ops[i].domain).Some?
    requires IsListing(RunDirs(ops), tokens)
    ensures tokens == RunMap(ops)
  {
    forall i | 0 <= i < |ops|
      ensures Nice(ops[i].domain)
    {
      HostPortRecoverable(ops[i].domain);
    }
    StoreIsMap(ops, tokens);
  }
}
