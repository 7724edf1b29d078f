/** Request bodies across retries: readers are shared by request copies and used
    up by sending, and a buffered body can be read afresh. */
module BodyReplay {
  import opened Wrappers

  type Bytes = seq<int>

  class Reader {
    const data: Bytes
    var pos: nat

    constructor (data: Bytes)
      ensures this.data == data && pos == 0
    {
      this.data := data;
      pos := 0;
    }

    ghost predicate Valid()
      reads this
    {
      pos <= |data|
    }

    function Remaining(): Bytes
      requires Valid()
      reads this
    {
      data[pos..]
    }

    /** Reads up to `n` bytes. */
    method Read(n: nat) returns (bytes: Bytes)
      requires Valid()
      modifies this
      ensures Valid()
      ensures bytes == old(Remaining())[..if n <= |old(Remaining())| then n else |old(Remaining())|]
      ensures Remaining() == old(Remaining())[|bytes|..]
    {
      var m := if n <= |data| - pos then n else |data| - pos;
      bytes := data[pos..pos + m];
      pos := pos + m;
    }
  }

  /** `getBody` is the function that yields a fresh reader, given by what it reads. */
  class Request {
    var body: Reader?
    var getBody: Option<Bytes>

    constructor (body: Reader?, getBody: Option<Bytes>)
      ensures this.body == body && this.getBody == getBody
    {
      this.body := body;
      this.getBody := getBody;
    }

    ghost predicate Valid()
      reads this, body
    {
      body != null ==> body.Valid()
    }

    /** What sending this request now could carry. */
    function Payload(): Bytes
      requires Valid()
      reads this, body
    {
      if body == null then [] else body.Remaining()
    }
  }

  /** `http.Request.Clone`: the copy shares the body reader. */
  method Clone(req: Request) returns (copy: Request)
    ensures fresh(copy) && copy.body == req.body && copy.getBody == req.getBody
  {
    copy := new Request(req.body, req.getBody);
  }

  /** A base round trip consumes as much of the body as it pleases. */
  method BaseRoundTrip(req: Request, consumed: nat) returns (sent: Bytes)
    requires req.Valid()
    modifies req.body
    ensures req.Valid() && req.body == old(req.body) && req.getBody == old(req.getBody)
    ensures |sent| == if consumed <= |old(req.Payload())| then consumed else |old(req.Payload())|
    ensures sent == old(req.Payload())[..|sent|]
    ensures req.Payload() == old(req.Payload())[|sent|..]
  {
    if req.body == null {
      sent := [];
    } else {
      sent := req.body.Read(consumed);
    }
  }

  method BufferRequestBody(req: Request, readable: bool) returns (ok: bool)
    requires req.Valid()
    modifies req, req.body
    ensures req.Valid()
    ensures old(req.body) == null || old(req.getBody).Some? ==>
              ok && req.body == old(req.body) && req.getBody == old(req.getBody)
              && (req.body != null ==> req.body.pos == old(if req.body == null then 0 else req.body.pos))
    ensures old(req.body) != null && old(req.getBody).None? ==>
              (ok <==> readable)
              && (ok ==> req.body != null && fresh(req.body) && req.Payload() == old(req.Payload())
                         && req.getBody == Some(old(req.Payload())))
  {
    if req.body == null || req.getBody.Some? {
      return true;
    }
    if !readable {
      return false;
    }
    var bodyBytes := req.body.Read(|req.body.data|);
    req.body := new Reader(bodyBytes);
    req.getBody := Some(bodyBytes);
    return true;
  }

  /** The copy that is sent with the credential. */
  method RetryWithCredential(req: Request) returns (copy: Request)
    requires req.Valid()
    ensures fresh(copy) && copy.Valid()
    ensures req.getBody.Some? ==> copy.body != null && fresh(copy.body) && copy.Payload() == req.getBody.value
    ensures req.getBody.None? ==> copy.body == req.body
  {
    copy := Clone(req);
    if req.getBody.Some? {
      copy.body := new Reader(req.getBody.value);
    }
  }

  /** No attempt reads anything. */
  ghost predicate Untouched(consumed: seq<(bool, nat)>) {
    forall i :: 0 <= i < |consumed| ==> consumed[i].1 == 0
  }

  /** The requests of one RoundTrip call: any number of earlier attempts, each on
      a clone or on the request itself, then the fresh-challenge request and the
      paid retry. `consumed` says how much each earlier attempt read.

      The paid retry carries the complete original body whatever was consumed
      before. The fresh-challenge request carries what the earlier attempts left,
      so the complete body exactly when there is none or they read nothing. */
  method Attempts(req: Request, consumed: seq<(bool, nat)>, readable: bool)
    returns (ok: bool, again: Bytes, paid: Bytes)
    requires req.Valid()
    requires req.body != null && req.getBody.Some? ==> req.getBody == Some(req.Payload())
    requires req.body == null ==> req.getBody.None?
    modifies req, req.body
    ensures ok ==> paid == old(req.Payload())
    ensures ok ==> |again| <= |old(req.Payload())| && again == old(req.Payload())[|old(req.Payload())| - |again|..]
    ensures ok ==> (again == old(req.Payload()) <==> old(req.Payload()) == [] || Untouched(consumed))
    ensures !ok ==> !readable
  {
    ghost var original := req.Payload();
    again, paid := [], [];
    ok := BufferRequestBody(req, readable);
    if !ok {
      return;
    }
    again := EarlierAttempts(req, consumed);
    var drained := BaseRoundTrip(req, |again|);
    var retry := RetryWithCredential(req);
    paid := retry.Payload();
  }

  lemma UntouchedSnoc(consumed: seq<(bool, nat)>, i: nat)
    requires i < |consumed|
    ensures Untouched(consumed[..i + 1]) <==> Untouched(consumed[..i]) && consumed[i].1 == 0
  {
    if Untouched(consumed[..i + 1]) {
      assert consumed[..i + 1][i].1 == 0;
      forall j | 0 <= j < i ensures consumed[..i][j].1 == 0 { assert consumed[..i + 1][j].1 == 0; }
    }
  }

  /** What one more attempt does to the account of bytes used. */
  lemma AttemptUse(original: Bytes, used: nat, n: nat, consumed: seq<(bool, nat)>, i: nat)
    requires i < |consumed| && used <= |original|
    requires n == if consumed[i].1 <= |original[used..]| then consumed[i].1 else |original[used..]|
    requires used == 0 <==> original == [] || Untouched(consumed[..i])
    ensures used + n <= |original| && original[used..][n..] == original[used + n..]
    ensures used + n == 0 <==> original == [] || Untouched(consumed[..i + 1])
  {
    UntouchedSnoc(consumed, i);
  }

  method OneAttempt(req: Request, onClone: bool, consumed: nat) returns (sent: Bytes)
    requires req.Valid()
    modifies req.body
    ensures req.Valid() && req.body == old(req.body) && req.getBody == old(req.getBody)
    ensures |sent| == if consumed <= |old(req.Payload())| then consumed else |old(req.Payload())|
    ensures req.Payload() == old(req.Payload())[|sent|..]
  {
    if onClone {
      var copy := Clone(req);
      sent := BaseRoundTrip(copy, consumed);
    } else {
      sent := BaseRoundTrip(req, consumed);
    }
  }

  method EarlierAttempts(req: Request, consumed: seq<(bool, nat)>) returns (left: Bytes)
    requires req.Valid()
    modifies req.body
    ensures req.Valid() && req.body == old(req.body) && req.getBody == old(req.getBody)
    ensures left == req.Payload() && |left| <= |old(req.Payload())|
    ensures left == old(req.Payload())[|old(req.Payload())| - |left|..]
    ensures left == old(req.Payload()) <==> old(req.Payload()) == [] || Untouched(consumed)
  {
    ghost var original := req.Payload();
    ghost var used: nat := 0;
    for i := 0 to |consumed|
      invariant req.Valid() && req.body == old(req.body) && req.getBody == old(req.getBody)
      invariant used <= |original| && req.Payload() == original[used..]
      invariant used == 0 <==> original == [] || Untouched(consumed[..i])
    {
      var sent := OneAttempt(req, consumed[i].0, consumed[i].1);
      AttemptUse(original, used, |sent|, consumed, i);
      used := used + |sent|;
    }
    assert consumed[..|consumed|] == consumed;
    left := req.Payload();
  }
}
