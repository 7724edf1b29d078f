/** Resumable downloads: the range request, and appending or truncating. */
module Download {
  import opened Wrappers

  type Bytes = seq<int>

  /** The final response to a request, with the body the server means to send. */
  datatype Reply =
    | Unreachable
    | Full(body: Bytes)      // 200
    | Partial(body: Bytes)   // 206
    | Other(status: int)

  /** What interrupts an attempt on this side: the file cannot be opened, or
      copying stops after `cut` bytes. */
  datatype Luck = Luck(opens: bool, cut: Option<nat>)

  datatype DownloadError = NoReply | BadStatus(status: int) | CannotOpen | Interrupted

  /** A server of `content` that follows sections 14.2 and 15.3.7 of RFC 9110: the
      requested rest, or everything, or another status. */
  ghost predicate Honest(content: Bytes, range: Option<nat>, reply: Reply) {
    match reply
    case Full(body) => body == content
    case Partial(body) => range.Some? && range.value < |content| && body == content[range.value..]
    case _ => true
  }

  function RangeOf(file: Option<Bytes>, resume: bool): Option<nat> {
    if resume && file.Some? && |file.value| > 0 then Some(|file.value|) else None
  }

  predicate Completes(luck: Luck, body: Bytes) {
    luck.opens && (luck.cut.None? || luck.cut.value >= |body|)
  }

  /** The file after an attempt. */
  function FileAfter(file: Option<Bytes>, reply: Reply, luck: Luck): Option<Bytes> {
    if !(reply.Full? || reply.Partial?) || !luck.opens then file
    else
      var base := if reply.Partial? && file.Some? then file.value else [];
      Some(base + if Completes(luck, reply.body) then reply.body else reply.body[..luck.cut.value])
  }

  predicate Succeeds(reply: Reply, luck: Luck) {
    (reply.Full? || reply.Partial?) && Completes(luck, reply.body)
  }

  class OutputFile {
    /** The file's contents, None when it does not exist. */
    var file: Option<Bytes>

    constructor (initial: Option<Bytes>)
      ensures file == initial
    {
      file := initial;
    }

    method DoDownload(resume: bool, server: Option<nat> -> Reply, luck: Luck) returns (r: Result<nat, DownloadError>)
      modifies this
      ensures var reply := server(RangeOf(old(file), resume));
              && file == FileAfter(old(file), reply, luck)
              && (r.Ok? <==> Succeeds(reply, luck))
              && (r.Ok? ==> r.value == |reply.body|)
      ensures resume && old(file).Some? && |old(file).value| > 0 ==>
                file == FileAfter(old(file), server(Some(|old(file).value|)), luck)
      ensures !(resume && old(file).Some? && |old(file).value| > 0) ==> file == FileAfter(old(file), server(None), luck)
      ensures forall content :: !resume && Honest(content, None, server(None)) && r.Ok? ==> file == Some(content)
    {
      var range := None;
      if resume {
        if file.Some? && |file.value| > 0 {
          range := Some(|file.value|);
        }
      }
      var resp := server(range);
      if resp.Unreachable? {
        return Err(NoReply);
      }
      if resp.Other? {
        return Err(BadStatus(resp.status));
      }
      if !luck.opens {
        return Err(CannotOpen);
      }
      if resp.Partial? {
        if file.None? {
          file := Some([]);
        }
      } else {
        file := Some([]);
      }
      ghost var base := file.value;
      var written := 0;
      assert base + resp.body[..0] == base;
      while written < |resp.body|
        invariant written <= |resp.body|
        invariant file == Some(base + resp.body[..written])
        invariant luck.cut.Some? ==> written <= luck.cut.value
      {
        if luck.cut == Some(written) {
          return Err(Interrupted);
        }
        assert base + resp.body[..written + 1] == base + resp.body[..written] + [resp.body[written]];
        file := Some(file.value + [resp.body[written]]);
        written := written + 1;
      }
      assert resp.body[..written] == resp.body;
      assert [] + resp.body == resp.body;
      return Ok(written);
    }
  }

  /** The server is asked for the bytes from the file's length exactly when the
      download resumes a file that exists and is not empty. */
  lemma RangeExact(file: Option<Bytes>, resume: bool, n: nat)
    ensures RangeOf(file, resume) == Some(n) <==>
            resume && n > 0 && exists bytes: Bytes :: file == Some(bytes) && |bytes| == n
  {
    if RangeOf(file, resume) == Some(n) { assert file == Some(file.value) && |file.value| == n; }
  }

  /** Without resumption the old file is no matter: whatever it holds, a successful
      attempt with an honest server leaves exactly the content. */
  lemma FreshDownload(content: Bytes, file: Option<Bytes>, reply: Reply, luck: Luck)
    requires Honest(content, RangeOf(file, false), reply) && Succeeds(reply, luck)
    ensures FileAfter(file, reply, luck) == Some(content)
  {
    assert [] + content == content;
  }

  // ----- Over many attempts

  ghost predicate IsPrefixOf(file: Option<Bytes>, content: Bytes) {
    file.Some? ==> file.value <= content
  }

  datatype Attempt = Attempt(resume: bool, reply: Reply, luck: Luck)

  /** Every reply is one that the server may give to the range actually sent. */
  ghost predicate HonestRun(content: Bytes, file: Option<Bytes>, attempts: seq<Attempt>)
    decreases |attempts|
  {
    attempts == []
    || (&& Honest(content, RangeOf(file, attempts[0].resume), attempts[0].reply)
        && HonestRun(content, FileAfter(file, attempts[0].reply, attempts[0].luck), attempts[1..]))
  }

  function RunFile(file: Option<Bytes>, attempts: seq<Attempt>): Option<Bytes>
    decreases |attempts|
  {
    if attempts == [] then file
    else RunFile(FileAfter(file, attempts[0].reply, attempts[0].luck), attempts[1..])
  }

  /** One attempt keeps the file a prefix of the content, and a successful one
      completes it. */
  lemma AttemptKeepsPrefix(content: Bytes, file: Option<Bytes>, a: Attempt)
    requires IsPrefixOf(file, content) && Honest(content, RangeOf(file, a.resume), a.reply)
    ensures IsPrefixOf(FileAfter(file, a.reply, a.luck), content)
    ensures Succeeds(a.reply, a.luck) ==> FileAfter(file, a.reply, a.luck) == Some(content)
  {
    if (a.reply.Full? || a.reply.Partial?) && a.luck.opens {
      var body := a.reply.body;
      var got := if Completes(a.luck, body) then body else body[..a.luck.cut.value];
      if a.reply.Partial? {
        var n := |file.value|;
        assert file.value == content[..n];
        assert content == content[..n] + content[n..];
        assert file.value + got == content[..n + |got|];
      } else {
        assert [] + got == got;
      }
    }
  }

  /** Resume invariant: over any sequence of attempts, resumed or not, each
      interrupted at any byte, the file stays a prefix of the content, and after a
      successful attempt it is the content. */
  lemma {:induction false} ResumeInvariant(content: Bytes, file: Option<Bytes>, attempts: seq<Attempt>)
    requires IsPrefixOf(file, content) && HonestRun(content, file, attempts)
    ensures IsPrefixOf(RunFile(file, attempts), content)
    ensures attempts != [] && Succeeds(attempts[|attempts| - 1].reply, attempts[|attempts| - 1].luck) ==>
              RunFile(file, attempts) == Some(content)
    decreases |attempts|
  {
    if attempts != [] {
      AttemptKeepsPrefix(content, file, attempts[0]);
      ResumeInvariant(content, FileAfter(file, attempts[0].reply, attempts[0].luck), attempts[1..]);
      if |attempts| > 1 {
        assert attempts[1..][|attempts| - 2] == attempts[|attempts| - 1];
      }
    }
  }

  /** Starting from a prefix matters for resumption alone: a successful resumption
      yields the content exactly when the file it appended to was a prefix of it. */
  lemma ResumeNeedsPrefix(content: Bytes, file: Bytes, luck: Luck)
    requires 0 < |file| < |content| && Completes(luck, content[|file|..])
    ensures FileAfter(Some(file), Partial(content[|file|..]), luck) == Some(content) <==> file <= content
  {
    var n := |file|;
    assert FileAfter(Some(file), Partial(content[n..]), luck) == Some(file + content[n..]);
    assert (file + content[n..])[..n] == file;
    assert content == content[..n] + content[n..];
    if file + content[n..] == content { assert content[..n] == file; }
    if file <= content { assert content[..n] == file; }
  }
}
