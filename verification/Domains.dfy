/** Domain names as directory names: the sanitizer, and how a domain is read back
    from the directory that bears its sanitized name. */
module Domains {
  import opened Wrappers
  import opened Text

  datatype DomainError = InvalidDomain

  predicate IsAllowed(c: char) { IsAlnum(c) || c == '.' || c == '-' || c == '_' }

  function CleanChar(c: char): string {
    if c == ':' then "_" else if IsAllowed(c) then [c] else ""
  }

  /** What the sanitizing loop has appended after reading `domain`. */
  function Clean(domain: string): (r: string)
    ensures forall i :: 0 <= i < |r| ==> IsAllowed(r[i])
    ensures |r| <= |domain|
  {
    if domain == "" then ""
    else Clean(domain[..|domain| - 1]) + CleanChar(domain[|domain| - 1])
  }

  function Sanitized(domain: string): Result<string, DomainError> {
    var s := Clean(domain);
    if s == "" || s == "." || s == ".." then Err(InvalidDomain) else Ok(s)
  }

  /** The directory of a domain, if it has one. */
  function DirOf(domain: string): Option<string> {
    match Sanitized(domain) case Ok(name) => Some(name) case Err(_) => None
  }

  method SanitizeDomain(domain: string) returns (r: Result<string, DomainError>)
    ensures r == Sanitized(domain)
  {
    var result := "";
    for i := 0 to |domain|
      invariant result == Clean(domain[..i])
    {
      assert domain[..i + 1][..i] == domain[..i];
      var c := domain[i];
      if c == ':' {
        result := result + "_";
        continue;
      }
      if IsAllowed(c) {
        result := result + [c];
      }
    }
    assert domain[..|domain|] == domain;
    if result == "" || result == "." || result == ".." {
      return Err(InvalidDomain);
    }
    return Ok(result);
  }

  /** `u.Hostname()` and `u.Port()` joined, standard ports left out. */
  function DomainFromURL(host: string, port: string): string {
    if port != "" && port != "80" && port != "443" then host + ":" + port else host
  }

  // ----- Reading a domain back

  /** `strings.LastIndex` of one character, |s| standing for "absent". */
  function LastIndex(s: string, c: char): (k: nat)
    ensures k <= |s|
    ensures k < |s| ==> s[k] == c && forall i :: k < i < |s| ==> s[i] != c
    ensures k == |s| ==> forall i :: 0 <= i < |s| ==> s[i] != c
  {
    if s == "" then 0
    else if s[|s| - 1] == c then |s| - 1
    else
      var k := LastIndex(s[..|s| - 1], c);
      if k == |s| - 1 then |s| else k
  }

  /** Without metadata: the last underscore becomes a colon. */
  function Fallback(s: string): (r: string)
    ensures |r| == |s|
  {
    var k := LastIndex(s, '_');
    if k < |s| then s[k := ':'] else s
  }

  /** `GetOriginalDomain`, `meta` being the contents of the `.domain` file. */
  function Original(meta: Option<string>, name: string): string {
    if meta.Some? && TrimSpace(meta.value) != "" then TrimSpace(meta.value) else Fallback(name)
  }

  /** What `storeDomainMetadata` writes. */
  function Metadata(domain: string): string { domain + "\n" }

  // ----- Which domains survive

  predicate IsKept(d: string) { forall i :: 0 <= i < |d| ==> IsAllowed(d[i]) || d[i] == ':' }

  predicate IsSeparator(c: char) { c == ':' || c == '_' }

  /** Every character survives, and of the characters that become underscores
      the last, and only the last, is a colon. */
  predicate Recoverable(d: string) {
    && IsKept(d)
    && (forall i, j :: 0 <= i < j < |d| && d[i] == ':' ==> !IsSeparator(d[j]))
    && (forall i :: 0 <= i < |d| && d[i] == '_' ==> exists j :: i < j < |d| && d[j] == ':')
  }

  lemma {:induction false} CleanKept(d: string)
    requires IsKept(d)
    ensures |Clean(d)| == |d|
    ensures forall i :: 0 <= i < |d| ==> Clean(d)[i] == if d[i] == ':' then '_' else d[i]
  {
    if d != "" { CleanKept(d[..|d| - 1]); }
  }

  lemma {:induction false} CleanShrinks(d: string)
    requires !IsKept(d)
    ensures |Clean(d)| < |d|
  {
    var n := |d| - 1;
    if !IsKept(d[..n]) {
      CleanShrinks(d[..n]);
    } else {
      assert !(IsAllowed(d[n]) || d[n] == ':');
    }
  }

  /** Sanitizing twice is sanitizing once. */
  lemma SanitizeIdempotent(d: string)
    requires Sanitized(d).Ok?
    ensures Sanitized(Sanitized(d).value) == Sanitized(d)
  {
    var s := Clean(d);
    CleanKept(s);
    assert Clean(s) == s;
  }

  lemma RecoverableReads(d: string, s: string, r: string, k: nat)
    requires IsKept(d) && |s| == |d| == |r| && k <= |s| && Recoverable(d)
    requires forall i :: 0 <= i < |d| ==> s[i] == if d[i] == ':' then '_' else d[i]
    requires k == |s| ==> r == s && '_' !in s
    requires k < |s| ==> s[k] == '_' && r[k] == ':' && forall i :: 0 <= i < |s| && i != k ==> r[i] == s[i]
    requires forall i :: k < i < |s| ==> s[i] != '_'
    ensures r == d
  {
    if k < |s| {
      assert d[k] == ':';
    } else {
      assert forall i :: 0 <= i < |d| ==> d[i] == s[i];
    }
  }

  lemma ReadsRecoverable(d: string, s: string, r: string, k: nat)
    requires IsKept(d) && |s| == |d| == |r| && k <= |s| && r == d
    requires forall i :: 0 <= i < |d| ==> s[i] == if d[i] == ':' then '_' else d[i]
    requires k == |s| ==> r == s && '_' !in s
    requires k < |s| ==> s[k] == '_' && r[k] == ':' && forall i :: 0 <= i < |s| && i != k ==> r[i] == s[i]
    requires forall i :: k < i < |s| ==> s[i] != '_'
    ensures Recoverable(d)
  {
    forall i | 0 <= i < |d| && d[i] == '_'
      ensures exists j :: i < j < |d| && d[j] == ':'
    {
      assert s[i] == '_';
      assert i < k < |d| && d[k] == ':';
    }
  }

  /** The fallback undoes the sanitizer for exactly the recoverable domains. */
  lemma FallbackExact(d: string)
    ensures Fallback(Clean(d)) == d <==> Recoverable(d)
  {
    if !IsKept(d) {
      CleanShrinks(d);
    } else {
      CleanKept(d);
      var s := Clean(d);
      if Recoverable(d) {
        RecoverableReads(d, s, Fallback(s), LastIndex(s, '_'));
      } else if Fallback(s) == d {
        ReadsRecoverable(d, s, Fallback(s), LastIndex(s, '_'));
      }
    }
  }

  /** A directory's name is safe: letters, digits, dots, hyphens and underscores, so no
      path separator, and not a name of the directory itself or of its parent. */
  lemma DirectoryIsSafe(d: string)
    requires DirOf(d).Some?
    ensures var name := DirOf(d).value;
      && name != "" && name != "." && name != ".."
      && forall i :: 0 <= i < |name| ==>
           || '0' <= name[i] <= '9' || 'a' <= name[i] <= 'z' || 'A' <= name[i] <= 'Z'
           || name[i] == '.' || name[i] == '-' || name[i] == '_'
  {}

  /** A name of such characters is its own directory, a refused one has none. */
  lemma SafeIsKept(d: string)
    requires forall i :: 0 <= i < |d| ==>
               || '0' <= d[i] <= '9' || 'a' <= d[i] <= 'z' || 'A' <= d[i] <= 'Z'
               || d[i] == '.' || d[i] == '-' || d[i] == '_'
    ensures DirOf(d) == if d == "" || d == "." || d == ".." then None else Some(d)
  {
    CleanIs(d, d);
  }

  /** Distinct recoverable domains have distinct directories. */
  lemma SanitizeInjective(d: string, e: string)
    requires Recoverable(d) && Recoverable(e) && Sanitized(d).Ok? && Sanitized(d) == Sanitized(e)
    ensures d == e
  {
    FallbackExact(d);
    FallbackExact(e);
  }

  /** Metadata that was written gives any domain back that spaces do not surround,
      whether or not the directory's name would. */
  lemma MetadataExact(d: string, name: string)
    requires d != "" && TrimSpace(d) == d
    ensures Original(Some(Metadata(d)), name) == d
  {
    TrimSpaceExact("", d, "\n");
    assert "" + (d + "\n") == Metadata(d);
  }

  lemma KeptIsTrimmed(d: string)
    requires IsKept(d) && d != ""
    ensures TrimSpace(d) == d
  {
    assert !IsSpace(d[0]) && !IsSpace(d[|d| - 1]);
    TrimmedExact(d);
  }

  /** Whatever became of the metadata, a recoverable domain reads back. */
  lemma ReadsBack(d: string, meta: Option<string>)
    requires Recoverable(d) && d != ""
    requires meta == None || meta == Some("") || meta == Some(Metadata(d))
    ensures Original(meta, Clean(d)) == d
  {
    FallbackExact(d);
    if meta == Some(Metadata(d)) {
      KeptIsTrimmed(d);
      MetadataExact(d, Clean(d));
    }
  }

  lemma {:induction false} CleanTrimLeft(d: string)
    ensures Clean(TrimLeft(d)) == Clean(d)
  {
    if d != "" && IsSpace(d[0]) {
      CleanTrimLeft(d[1..]);
      CleanAfterSpace(d[0], d[1..]);
      assert [d[0]] + d[1..] == d;
    }
  }

  lemma CleanAfterSpace(c: char, rest: string)
    requires IsSpace(c)
    ensures Clean([c] + rest) == Clean(rest)
  {
    CleanConcat([c], rest);
    CleanLast("", c);
    assert "" + [c] == [c];
    assert Clean([c]) == "";
    assert "" + Clean(rest) == Clean(rest);
  }

  lemma {:induction false} CleanTrimRight(d: string)
    ensures Clean(TrimRight(d)) == Clean(d)
  {
    if d != "" && IsSpace(d[|d| - 1]) { CleanTrimRight(d[..|d| - 1]); }
  }

  lemma CleanTrim(d: string)
    ensures Clean(TrimSpace(d)) == Clean(d)
  {
    CleanTrimLeft(d);
    CleanTrimRight(TrimLeft(d));
  }

  /** The fallback finds a domain of the same directory. */
  lemma FallbackStays(name: string)
    requires forall i :: 0 <= i < |name| ==> IsAllowed(name[i])
    ensures Clean(Fallback(name)) == name
  {
    CleanIs(Fallback(name), name);
  }

  lemma MetadataStays(d: string)
    ensures Clean(TrimSpace(Metadata(d))) == Clean(d)
  {
    CleanTrim(Metadata(d));
    CleanLast(d, '\n');
    assert Clean(d) + "" == Clean(d);
  }

  /** What a directory reads back as is a domain of that directory, if its metadata is
      missing, empty or was written for one. */
  lemma ReadsBackHere(d: string, meta: Option<string>)
    requires meta == None || meta == Some("") || meta == Some(Metadata(d))
    ensures Clean(Original(meta, Clean(d))) == Clean(d)
  {
    FallbackStays(Clean(d));
    if meta.Some? { ReadsTrimmed(meta.value, Clean(d)); }
    if meta == Some(Metadata(d)) { MetadataStays(d); }
  }

  lemma ReadsTrimmed(text: string, name: string)
    ensures Original(Some(text), name) == if TrimSpace(text) != "" then TrimSpace(text) else Fallback(name)
    ensures TrimSpace("") == ""
  {}

  /** `host` or `host:port` with host characters among letters, digits, `.` and
      `-`, and a port of decimal digits. */
  predicate IsHostPort(d: string) {
    exists k :: 0 <= k <= |d| && HostEndsAt(d, k)
  }

  predicate HostEndsAt(d: string, k: nat)
    requires k <= |d|
  {
    && (forall i :: 0 <= i < k ==> IsAlnum(d[i]) || d[i] == '.' || d[i] == '-')
    && (k < |d| ==> d[k] == ':' && forall i :: k < i < |d| ==> IsDigit(d[i]))
  }

  /** Every such domain is recoverable. */
  lemma HostPortRecoverable(d: string)
    requires IsHostPort(d)
    ensures Recoverable(d)
  {}

  /** The domain of a URL whose host and port have those characters is one. */
  lemma UrlDomainIsHostPort(host: string, port: string)
    requires forall i :: 0 <= i < |host| ==> IsAlnum(host[i]) || host[i] == '.' || host[i] == '-'
    requires AllDigits(port)
    ensures IsHostPort(DomainFromURL(host, port))
  {
    var d := DomainFromURL(host, port);
    if d != host {
      assert d[|host|] == ':' && forall i :: |host| < i < |d| ==> d[i] == port[i - |host| - 1];
    }
    assert HostEndsAt(d, |host|);
  }

  predicate IsStandardPort(port: string) { port == "" || port == "80" || port == "443" }

  /** The host of one URL spells out the host and the port of the other: this takes a
      colon in a host, as IPv6 addresses have. */
  predicate SpellsOut(host: string, port: string, host': string, port': string) {
    IsStandardPort(port) && !IsStandardPort(port') && host == host' + ":" + port'
  }

  lemma HostAndPort(host: string, port: string, host': string, port': string)
    requires AllDigits(port) && AllDigits(port') && host + ":" + port == host' + ":" + port'
    ensures host == host' && port == port'
  {
    var d, d' := host + ":" + port, host' + ":" + port';
    assert d[|host|] == ':' && d'[|host'|] == ':';
    assert forall i :: |host| < i < |d| ==> d[i] == port[i - |host| - 1];
    assert forall i :: |host'| < i < |d'| ==> d'[i] == port'[i - |host'| - 1];
    assert |host| == |host'|;
    assert d[..|host|] == host && d'[..|host'|] == host';
    assert d[|host| + 1..] == port && d'[|host'| + 1..] == port';
  }

  /** Two URLs share a domain, hence a token, exactly when they have the same host
      and either the same port or both a standard one or none, or when the host of
      one spells out the host and port of the other. Ports are decimal, as URLs have
      them; hosts are any. */
  lemma DomainIdentity(host: string, port: string, host': string, port': string)
    requires AllDigits(port) && AllDigits(port')
    ensures DomainFromURL(host, port) == DomainFromURL(host', port')
            <==> || (host == host' && (port == port' || (IsStandardPort(port) && IsStandardPort(port'))))
                 || SpellsOut(host, port, host', port') || SpellsOut(host', port', host, port)
  {
    if !IsStandardPort(port) && !IsStandardPort(port') && DomainFromURL(host, port) == DomainFromURL(host', port') {
      HostAndPort(host, port, host', port');
    }
  }

  /** `[::1]:8080` and `[::1:8080]` are such a pair. */
  lemma AddressesCollide()
    ensures SpellsOut("::1:8080", "", "::1", "8080")
    ensures DomainFromURL("::1", "8080") == DomainFromURL("::1:8080", "")
  {
    assert "::1" + ":" + "8080" == "::1:8080";
  }

  lemma CleanIs(d: string, s: string)
    requires IsKept(d) && |s| == |d|
    requires forall i :: 0 <= i < |d| ==> s[i] == if d[i] == ':' then '_' else d[i]
    ensures Clean(d) == s
  {
    CleanKept(d);
  }

  /** A host name with an underscore and no port is not: with position `k` of its
      last underscore, it shares a directory with the domain that has a colon there,
      and without metadata it reads back as that domain. */
  lemma UnderscoreHostIsLost(d: string, k: nat)
    requires IsKept(d) && ':' !in d && k < |d| && d[k] == '_' && forall j :: k < j < |d| ==> d[j] != '_'
    ensures Clean(d) == d && Clean(d[k := ':']) == d
    ensures Original(None, d) == d[k := ':']
  {
    CleanIs(d, d);
    ColonRecoverable(d, d[k := ':'], k);
    CleanIs(d[k := ':'], d);
    FallbackExact(d[k := ':']);
  }

  lemma ColonRecoverable(d: string, e: string, k: nat)
    requires IsKept(d) && ':' !in d && k < |d| && d[k] == '_' && forall j :: k < j < |d| ==> d[j] != '_'
    requires e == d[k := ':']
    ensures Recoverable(e)
  {
    assert e[k] == ':';
  }

  /** Two URLs to different hosts share a directory: one with the underscore in the
      host's name, the other with a port. */
  lemma UrlsShareDirectory(host: string, port: string)
    requires host != "" && IsKept(host) && ':' !in host && AllDigits(port) && !IsStandardPort(port)
    ensures var d, e := DomainFromURL(host + "_" + port, ""), DomainFromURL(host, port);
            d != e && DirOf(d) == DirOf(e) == Some(d)
  {
    var d, e := host + "_" + port, host + ":" + port;
    assert d[|host|] == '_' && e[|host|] == ':';
    CleanJoined(host, '_', port);
    CleanJoined(host, ':', port);
  }

  lemma CleanJoined(host: string, c: char, port: string)
    requires IsKept(host) && ':' !in host && AllDigits(port) && (c == '_' || c == ':')
    ensures Clean(host + [c] + port) == host + "_" + port
  {
    CleanConcat(host + [c], port);
    CleanLast(host, c);
    CleanIs(host, host);
    CleanIs(port, port);
  }

  lemma CleanLast(front: string, c: char)
    ensures Clean(front + [c]) == Clean(front) + CleanChar(c)
  {
    assert (front + [c])[..|front|] == front;
  }

  lemma {:induction false} CleanConcat(a: string, b: string)
    ensures Clean(a + b) == Clean(a) + Clean(b)
  {
    if b == "" {
      assert a + b == a;
    } else {
      var front, c := b[..|b| - 1], b[|b| - 1];
      CleanConcat(a, front);
      CleanLast(a + front, c);
      Associate(a, front, [c]);
      Associate(Clean(a), Clean(front), CleanChar(c));
      assert front + [c] == b;
    }
  }

  /** A character that the sanitizer drops makes no difference to the directory. */
  lemma DroppedCharacter(a: string, c: char, b: string)
    requires !IsAllowed(c) && c != ':'
    ensures a + [c] + b != a + b && DirOf(a + [c] + b) == DirOf(a + b)
  {
    assert |a + [c] + b| == |a + b| + 1;
    CleanConcat(a + [c], b);
    CleanLast(a, c);
    CleanConcat(a, b);
    assert Clean(a) + "" == Clean(a);
  }
}
