/** The payment event table and its aggregates. */
module Events {
  import opened Wrappers

  datatype Row = Row(
    id: int, domain: string, url: string, method_: string, paymentHash: string,
    amountSat: int, feeSat: int, status: string, errorMessage: string, durationMs: int,
    contentType: string, responseSize: int, statusCode: int, scheme: string, createdAt: int)

  const SUCCESS := "success"
  const FAILED := "failed"

  datatype Metadata = Metadata(url: string, method_: string, contentType: string, responseSize: int, statusCode: int)

  // ----- The queries

  /** UPDATE ... WHERE id = ? */
  function Enriched(rows: seq<Row>, id: int, m: Metadata): (r: seq<Row>)
    ensures |r| == |rows|
    ensures forall i :: 0 <= i < |rows| ==>
              r[i] == if rows[i].id == id
                      then rows[i].(url := m.url, method_ := m.method_, contentType := m.contentType,
                                    responseSize := m.responseSize, statusCode := m.statusCode)
                      else rows[i]
  {
    seq(|rows|, i requires 0 <= i < |rows| =>
      if rows[i].id == id
      then rows[i].(url := m.url, method_ := m.method_, contentType := m.contentType,
                    responseSize := m.responseSize, statusCode := m.statusCode)
      else rows[i])
  }

  /** What the aggregates add up. */
  datatype Measure = Satoshis | Fees | Payments

  /** What a row adds, for one domain or for all. */
  function Share(row: Row, domain: Option<string>, m: Measure): int {
    if row.status != SUCCESS || (domain.Some? && domain.value != row.domain) then 0
    else match m
      case Satoshis => row.amountSat
      case Fees => row.feeSat
      case Payments => 1
  }

  /** SUM or COUNT over the successful rows, of one domain or of all. */
  function Total(rows: seq<Row>, domain: Option<string>, m: Measure): int {
    if rows == [] then 0
    else Total(rows[..|rows| - 1], domain, m) + Share(rows[|rows| - 1], domain, m)
  }

  function FailedCount(rows: seq<Row>): nat {
    if rows == [] then 0
    else FailedCount(rows[..|rows| - 1]) + if rows[|rows| - 1].status == FAILED then 1 else 0
  }

  /** The distinct domains of successful rows. */
  function PaidDomains(rows: seq<Row>): set<string> {
    set i | 0 <= i < |rows| && rows[i].status == SUCCESS :: rows[i].domain
  }

  datatype Stats = Stats(totalSpentSat: int, totalFeesSat: int, totalPayments: int, failedPayments: nat,
                         domainsAccessed: nat) {
    function Get(m: Measure): int {
      match m
      case Satoshis => totalSpentSat
      case Fees => totalFeesSat
      case Payments => totalPayments
    }
  }

  function StatsOf(rows: seq<Row>): Stats {
    Stats(Total(rows, None, Satoshis), Total(rows, None, Fees), Total(rows, None, Payments),
          FailedCount(rows), |PaidDomains(rows)|)
  }

  datatype DomainSpending = DomainSpending(domain: string, totalSat: int, totalFees: int, paymentCount: int) {
    function Get(m: Measure): int {
      match m
      case Satoshis => totalSat
      case Fees => totalFees
      case Payments => paymentCount
    }
  }

  /** A domain's row holds the sums over its successful payments. */
  ghost predicate Sums(rows: seq<Row>, x: DomainSpending) {
    && x.totalSat == SumOf(rows, row => if Counts(row, x.domain) then row.amountSat else 0)
    && x.totalFees == SumOf(rows, row => if Counts(row, x.domain) then row.feeSat else 0)
    && x.paymentCount == SumOf(rows, row => if Counts(row, x.domain) then 1 else 0)
  }

  predicate Counts(row: Row, domain: string) { row.status == SUCCESS && row.domain == domain }

  ghost function SumOf(rows: seq<Row>, f: Row -> int): int {
    if rows == [] then 0 else SumOf(rows[..|rows| - 1], f) + f(rows[|rows| - 1])
  }

  lemma {:induction false} TotalIsSum(rows: seq<Row>, domain: Option<string>, m: Measure, f: Row -> int)
    requires forall row :: f(row) == Share(row, domain, m)
    ensures Total(rows, domain, m) == SumOf(rows, f)
  {
    if rows != [] { TotalIsSum(rows[..|rows| - 1], domain, m, f); }
  }

  lemma SumsOf(rows: seq<Row>, x: DomainSpending)
    requires forall m: Measure :: x.Get(m) == Total(rows, Some(x.domain), m)
    ensures Sums(rows, x)
  {
    assert x.Get(Satoshis) == Total(rows, Some(x.domain), Satoshis);
    assert x.Get(Fees) == Total(rows, Some(x.domain), Fees);
    assert x.Get(Payments) == Total(rows, Some(x.domain), Payments);
    TotalIsSum(rows, Some(x.domain), Satoshis, row => if Counts(row, x.domain) then row.amountSat else 0);
    TotalIsSum(rows, Some(x.domain), Fees, row => if Counts(row, x.domain) then row.feeSat else 0);
    TotalIsSum(rows, Some(x.domain), Payments, row => if Counts(row, x.domain) then 1 else 0);
  }

  /** GROUP BY domain over the successful rows, largest total first. */
  ghost predicate IsSpending(rows: seq<Row>, result: seq<DomainSpending>) {
    && (forall i, j :: 0 <= i < j < |result| ==> result[i].domain != result[j].domain)
    && (forall d :: d in PaidDomains(rows) <==> exists i :: 0 <= i < |result| && result[i].domain == d)
    && (forall i, m: Measure :: 0 <= i < |result| ==> result[i].Get(m) == Total(rows, Some(result[i].domain), m))
    && (forall i, j :: 0 <= i < j < |result| ==> result[i].totalSat >= result[j].totalSat)
    && (forall i :: 0 <= i < |result| ==> Sums(rows, result[i]))
  }

  /** The domains with a successful row, by first appearance. */
  function DomainList(rows: seq<Row>): (ds: seq<string>)
    ensures forall i, j :: 0 <= i < j < |ds| ==> ds[i] != ds[j]
    ensures forall d :: d in ds <==> d in PaidDomains(rows)
  {
    if rows == [] then []
    else
      var front, last := rows[..|rows| - 1], rows[|rows| - 1];
      PaidDomainsSnoc(front, last);
      assert front + [last] == rows;
      var ds := DomainList(front);
      if last.status == SUCCESS && last.domain !in ds then ds + [last.domain] else ds
  }

  lemma PaidDomainsSnoc(rows: seq<Row>, row: Row)
    ensures PaidDomains(rows + [row]) == PaidDomains(rows) + if row.status == SUCCESS then {row.domain} else {}
  {
    var after := rows + [row];
    assert after[|rows|] == row;
    forall d | d in PaidDomains(rows)
      ensures d in PaidDomains(after)
    {
      var i :| 0 <= i < |rows| && rows[i].status == SUCCESS && rows[i].domain == d;
      assert after[i] == rows[i];
    }
  }

  /** Insertion into rows ordered by total, largest first. */
  function Place(result: seq<DomainSpending>, x: DomainSpending): (r: seq<DomainSpending>)
    requires forall i, j :: 0 <= i < j < |result| ==> result[i].totalSat >= result[j].totalSat
    ensures forall i, j :: 0 <= i < j < |r| ==> r[i].totalSat >= r[j].totalSat
    ensures |r| == |result| + 1
    ensures exists k :: 0 <= k <= |result| && r == result[..k] + [x] + result[k..]
  {
    var k := Position(result, x);
    result[..k] + [x] + result[k..]
  }

  function Position(result: seq<DomainSpending>, x: DomainSpending): (k: nat)
    requires forall i, j :: 0 <= i < j < |result| ==> result[i].totalSat >= result[j].totalSat
    ensures k <= |result|
    ensures forall i :: 0 <= i < k ==> result[i].totalSat >= x.totalSat
    ensures forall i :: k <= i < |result| ==> x.totalSat >= result[i].totalSat
  {
    if result == [] || result[|result| - 1].totalSat >= x.totalSat then |result|
    else Position(result[..|result| - 1], x)
  }

  function GroupBy(rows: seq<Row>, ds: seq<string>): (r: seq<DomainSpending>)
    ensures forall i, j :: 0 <= i < j < |r| ==> r[i].totalSat >= r[j].totalSat
  {
    if ds == [] then []
    else
      var d := ds[|ds| - 1];
      Place(GroupBy(rows, ds[..|ds| - 1]),
            DomainSpending(d, Total(rows, Some(d), Satoshis), Total(rows, Some(d), Fees),
                           Total(rows, Some(d), Payments)))
  }

  /** One row for each of the domains, with that domain's totals. */
  ghost predicate IsGroup(rows: seq<Row>, r: seq<DomainSpending>, ds: seq<string>) {
    && (forall i, j :: 0 <= i < j < |r| ==> r[i].domain != r[j].domain)
    && (forall d :: d in ds <==> exists i :: 0 <= i < |r| && r[i].domain == d)
    && (forall i, m: Measure :: 0 <= i < |r| ==> r[i].Get(m) == Total(rows, Some(r[i].domain), m))
  }

  lemma {:induction false} GroupByExact(rows: seq<Row>, ds: seq<string>)
    requires forall i, j :: 0 <= i < j < |ds| ==> ds[i] != ds[j]
    ensures IsGroup(rows, GroupBy(rows, ds), ds)
  {
    if ds != [] {
      var front, d := ds[..|ds| - 1], ds[|ds| - 1];
      GroupByExact(rows, front);
      var x := DomainSpending(d, Total(rows, Some(d), Satoshis), Total(rows, Some(d), Fees),
                              Total(rows, Some(d), Payments));
      PlaceExact(rows, GroupBy(rows, front), x, front);
      assert front + [d] == ds;
    }
  }

  lemma PlaceExact(rows: seq<Row>, result: seq<DomainSpending>, x: DomainSpending, front: seq<string>)
    requires forall i, j :: 0 <= i < j < |result| ==> result[i].totalSat >= result[j].totalSat
    requires IsGroup(rows, result, front) && x.domain !in front
    requires forall m: Measure :: x.Get(m) == Total(rows, Some(x.domain), m)
    ensures IsGroup(rows, Place(result, x), front + [x.domain])
  {
    var r := Place(result, x);
    var k :| 0 <= k <= |result| && r == result[..k] + [x] + result[k..];
    InsertedGroup(rows, result, x, front, r, k);
  }

  lemma InsertedGroup(rows: seq<Row>, result: seq<DomainSpending>, x: DomainSpending, front: seq<string>,
                      r: seq<DomainSpending>, k: nat)
    requires IsGroup(rows, result, front) && x.domain !in front
    requires forall m: Measure :: x.Get(m) == Total(rows, Some(x.domain), m)
    requires k <= |result| && |r| == |result| + 1
    requires r[k] == x
    requires forall i :: 0 <= i < k ==> r[i] == result[i]
    requires forall i {:trigger r[i]} :: k < i < |r| ==> r[i] == result[i - 1]
    ensures IsGroup(rows, r, front + [x.domain])
  {
    forall d | d in front + [x.domain]
      ensures exists i :: 0 <= i < |r| && r[i].domain == d
    {
      if d == x.domain {
        assert r[k].domain == d;
      } else {
        var i :| 0 <= i < |result| && result[i].domain == d;
        assert r[if i < k then i else i + 1].domain == d;
      }
    }
  }

  // ----- The store

  class Store {
    var rows: seq<Row>
    var nextId: int

    ghost predicate Valid()
      reads this
    {
      && nextId >= 1
      && (forall i :: 0 <= i < |rows| ==> 1 <= rows[i].id < nextId)
      && (forall i, j :: 0 <= i < j < |rows| ==> rows[i].id < rows[j].id)
    }

    constructor ()
      ensures Valid() && rows == []
    {
      rows, nextId := [], 1;
    }

    /** Inserts a row under a new id; an empty scheme is stored as "l402". */
    method RecordEvent(e: Row) returns (id: int)
      requires Valid()
      modifies this
      ensures Valid()
      ensures id >= 1 && forall i :: 0 <= i < |old(rows)| ==> old(rows)[i].id != id
      ensures rows == old(rows) + [e.(id := id, scheme := if e.scheme == "" then "l402" else e.scheme)]
    {
      var scheme := e.scheme;
      if scheme == "" {
        scheme := "l402";
      }
      id := nextId;
      rows := rows + [e.(id := id, scheme := scheme)];
      nextId := nextId + 1;
    }

    method EnrichEvent(id: int, m: Metadata)
      requires Valid()
      modifies this
      ensures Valid() && rows == Enriched(old(rows), id, m)
      ensures StatsOf(rows) == StatsOf(old(rows))
    {
      rows := Enriched(rows, id, m);
      EnrichKeepsStats(old(rows), id, m);
    }

    method GetSpendingByDomain() returns (result: seq<DomainSpending>)
      ensures IsSpending(rows, result)
    {
      result := GroupBy(rows, DomainList(rows));
      GroupByExact(rows, DomainList(rows));
      forall i | 0 <= i < |result| ensures Sums(rows, result[i]) { SumsOf(rows, result[i]); }
    }
  }

  // ----- Aggregates

  ghost function SumOver(result: seq<DomainSpending>, m: Measure): int {
    if result == [] then 0 else SumOver(result[..|result| - 1], m) + result[|result| - 1].Get(m)
  }

  /** The first `n` domains' totals, as a function of the domain. */
  ghost function SumBy(f: string -> int, ds: seq<string>, n: nat): int
    requires n <= |ds|
  {
    if n == 0 then 0 else SumBy(f, ds, n - 1) + f(ds[n - 1])
  }

  function TotalBy(rows: seq<Row>, m: Measure): string -> int { d => Total(rows, Some(d), m) }

  function Names(result: seq<DomainSpending>): (ds: seq<string>)
    ensures |ds| == |result| && forall i :: 0 <= i < |ds| ==> ds[i] == result[i].domain
  {
    seq(|result|, i requires 0 <= i < |result| => result[i].domain)
  }

  lemma {:induction false} SumByName(f: string -> int, result: seq<DomainSpending>, m: Measure, n: nat)
    requires n <= |result|
    requires forall i :: 0 <= i < |result| ==> result[i].Get(m) == f(result[i].domain)
    ensures SumOver(result[..n], m) == SumBy(f, Names(result), n)
  {
    if n > 0 {
      SumByName(f, result, m, n - 1);
      assert result[..n][..n - 1] == result[..n - 1];
    }
  }

  lemma {:induction false} SumByZero(f: string -> int, ds: seq<string>, n: nat)
    requires n <= |ds| && forall d :: f(d) == 0
    ensures SumBy(f, ds, n) == 0
  {
    if n > 0 { SumByZero(f, ds, n - 1); }
  }

  /** What the domain at position `k` gains is gained once. */
  lemma {:induction false} SumBySnoc(f: string -> int, g: string -> int, share: int, ds: seq<string>, k: nat, n: nat)
    requires n <= |ds|
    requires forall i :: 0 <= i < |ds| && i != k ==> g(ds[i]) == f(ds[i])
    requires k < |ds| ==> g(ds[k]) == f(ds[k]) + share
    ensures SumBy(g, ds, n) == SumBy(f, ds, n) + if k < n then share else 0
  {
    if n > 0 { SumBySnoc(f, g, share, ds, k, n - 1); }
  }

  lemma {:induction false} DomainsAddUp(rows: seq<Row>, m: Measure, ds: seq<string>)
    requires forall i, j :: 0 <= i < j < |ds| ==> ds[i] != ds[j]
    requires forall i :: 0 <= i < |rows| && rows[i].status == SUCCESS ==> rows[i].domain in ds
    ensures SumBy(TotalBy(rows, m), ds, |ds|) == Total(rows, None, m)
  {
    if rows == [] {
      SumByZero(TotalBy(rows, m), ds, |ds|);
    } else {
      var front, last := rows[..|rows| - 1], rows[|rows| - 1];
      DomainsAddUp(front, m, ds);
      var k: nat :| k <= |ds| && (if k < |ds| then ds[k] == last.domain else last.domain !in ds);
      SumBySnoc(TotalBy(front, m), TotalBy(rows, m), Share(last, None, m), ds, k, |ds|);
    }
  }

  lemma {:induction false} DistinctCount(ds: seq<string>)
    requires forall i, j :: 0 <= i < j < |ds| ==> ds[i] != ds[j]
    ensures |set d | d in ds| == |ds|
  {
    if ds != [] {
      var front, last := ds[..|ds| - 1], ds[|ds| - 1];
      DistinctCount(front);
      assert (set d | d in ds) == (set d | d in front) + {last};
    }
  }

  /** Aggregate conservation: the per-domain rows add up to the overall satoshis,
      fees and payments, and there is one for each domain accessed. */
  lemma Conservation(rows: seq<Row>, result: seq<DomainSpending>, m: Measure)
    requires IsSpending(rows, result)
    ensures SumOver(result, m) == StatsOf(rows).Get(m)
    ensures |result| == StatsOf(rows).domainsAccessed
  {
    var ds := Names(result);
    SumByName(TotalBy(rows, m), result, m, |result|);
    assert result[..|result|] == result;
    forall i | 0 <= i < |rows| && rows[i].status == SUCCESS
      ensures rows[i].domain in ds
    {
      assert rows[i].domain in PaidDomains(rows);
      var j :| 0 <= j < |result| && result[j].domain == rows[i].domain;
      assert ds[j] == rows[i].domain;
    }
    DomainsAddUp(rows, m, ds);
    DistinctCount(ds);
    assert (set d | d in ds) == PaidDomains(rows);
  }

  // ----- What the aggregates depend on

  predicate SameCore(a: Row, b: Row) {
    a.domain == b.domain && a.status == b.status && a.amountSat == b.amountSat && a.feeSat == b.feeSat
  }

  lemma {:induction false} CoreTotal(a: seq<Row>, b: seq<Row>, domain: Option<string>, m: Measure)
    requires |a| == |b| && forall i :: 0 <= i < |a| ==> SameCore(a[i], b[i])
    ensures Total(a, domain, m) == Total(b, domain, m)
  {
    if a != [] {
      CoreTotal(a[..|a| - 1], b[..|b| - 1], domain, m);
      assert SameCore(a[|a| - 1], b[|b| - 1]);
    }
  }

  lemma {:induction false} CoreFailed(a: seq<Row>, b: seq<Row>)
    requires |a| == |b| && forall i :: 0 <= i < |a| ==> SameCore(a[i], b[i])
    ensures FailedCount(a) == FailedCount(b)
  {
    if a != [] {
      CoreFailed(a[..|a| - 1], b[..|b| - 1]);
      assert SameCore(a[|a| - 1], b[|b| - 1]);
    }
  }

  lemma CoreStats(a: seq<Row>, b: seq<Row>)
    requires |a| == |b| && forall i :: 0 <= i < |a| ==> SameCore(a[i], b[i])
    ensures StatsOf(a) == StatsOf(b)
  {
    CoreTotal(a, b, None, Satoshis);
    CoreTotal(a, b, None, Fees);
    CoreTotal(a, b, None, Payments);
    CoreFailed(a, b);
    PaidDomainsCore(a, b);
  }

  lemma PaidDomainsCore(a: seq<Row>, b: seq<Row>)
    requires |a| == |b| && forall i :: 0 <= i < |a| ==> SameCore(a[i], b[i])
    ensures PaidDomains(a) == PaidDomains(b)
  {
    forall d | d in PaidDomains(a) ensures d in PaidDomains(b) {
      var i :| 0 <= i < |a| && a[i].status == SUCCESS && a[i].domain == d;
      assert SameCore(a[i], b[i]);
      assert b[i].domain == d;
    }
    forall d | d in PaidDomains(b) ensures d in PaidDomains(a) {
      var i :| 0 <= i < |b| && b[i].status == SUCCESS && b[i].domain == d;
      assert SameCore(a[i], b[i]);
      assert a[i].domain == d;
    }
  }

  /** Enrichment changes no aggregate. */
  lemma EnrichKeepsStats(rows: seq<Row>, id: int, m: Metadata)
    ensures StatsOf(Enriched(rows, id, m)) == StatsOf(rows)
  {
    var after := Enriched(rows, id, m);
    assert forall i :: 0 <= i < |rows| ==> SameCore(after[i], rows[i]);
    CoreStats(after, rows);
  }

  /** Nor any per-domain row. */
  lemma EnrichKeepsSpending(rows: seq<Row>, id: int, m: Metadata, result: seq<DomainSpending>)
    requires IsSpending(rows, result)
    ensures IsSpending(Enriched(rows, id, m), result)
  {
    var after := Enriched(rows, id, m);
    assert forall i :: 0 <= i < |rows| ==> SameCore(after[i], rows[i]);
    PaidDomainsCore(after, rows);
    forall i, x: Measure | 0 <= i < |result|
      ensures result[i].Get(x) == Total(after, Some(result[i].domain), x)
    {
      CoreTotal(after, rows, Some(result[i].domain), x);
    }
    forall i | 0 <= i < |result| ensures Sums(after, result[i]) { SumsOf(after, result[i]); }
  }

  /** A row that is not a success adds nothing to sums, counts and domains. */
  lemma FailuresDoNotCount(rows: seq<Row>, row: Row, result: seq<DomainSpending>)
    requires row.status != SUCCESS
    ensures StatsOf(rows + [row]) ==
            StatsOf(rows).(failedPayments := FailedCount(rows) + if row.status == FAILED then 1 else 0)
    ensures IsSpending(rows, result) ==> IsSpending(rows + [row], result)
  {
    var after := rows + [row];
    assert after[..|rows|] == rows;
    forall d | d in PaidDomains(rows) ensures d in PaidDomains(after) {
      var i :| 0 <= i < |rows| && rows[i].status == SUCCESS && rows[i].domain == d;
      assert after[i] == rows[i];
    }
    assert PaidDomains(after) == PaidDomains(rows);
    assert forall d: Option<string>, m: Measure :: Total(after, d, m) == Total(rows, d, m) + Share(row, d, m);
    if IsSpending(rows, result) {
      forall i | 0 <= i < |result| ensures Sums(after, result[i]) { SumsOf(after, result[i]); }
    }
  }

  /** A successful row adds its satoshis, its fee and one payment to the overall sums,
      its domain to the domains, and nothing to the failures. */
  lemma SuccessesCount(rows: seq<Row>, row: Row)
    requires row.status == SUCCESS
    ensures var before, after := StatsOf(rows), StatsOf(rows + [row]);
      && after.totalSpentSat == before.totalSpentSat + row.amountSat
      && after.totalFeesSat == before.totalFeesSat + row.feeSat
      && after.totalPayments == before.totalPayments + 1
      && after.failedPayments == before.failedPayments
      && after.domainsAccessed == before.domainsAccessed + if row.domain in PaidDomains(rows) then 0 else 1
  {
    TotalSnoc(rows, row, Satoshis);
    TotalSnoc(rows, row, Fees);
    TotalSnoc(rows, row, Payments);
    PaidDomainsSnoc(rows, row);
    if row.domain in PaidDomains(rows) { assert PaidDomains(rows) + {row.domain} == PaidDomains(rows); }
  }

  lemma TotalSnoc(rows: seq<Row>, row: Row, m: Measure)
    ensures Total(rows + [row], None, m) == Total(rows, None, m) + Share(row, None, m)
    ensures FailedCount(rows + [row]) == FailedCount(rows) + if row.status == FAILED then 1 else 0
  {
    assert (rows + [row])[..|rows|] == rows;
  }

  // ----- Over any history

  datatype Op = Insert(row: Row) | Enrich(id: int, m: Metadata)

  function RunOps(ops: seq<Op>): seq<Row> {
    if ops == [] then []
    else match ops[|ops| - 1]
      case Insert(row) => RunOps(ops[..|ops| - 1]) + [row]
      case Enrich(id, m) => Enriched(RunOps(ops[..|ops| - 1]), id, m)
  }

  /** The rows inserted, as they were inserted. */
  function Inserted(ops: seq<Op>): seq<Row> {
    if ops == [] then []
    else match ops[|ops| - 1]
      case Insert(row) => Inserted(ops[..|ops| - 1]) + [row]
      case Enrich(_, _) => Inserted(ops[..|ops| - 1])
  }

  lemma {:induction false} HistoryCore(ops: seq<Op>)
    ensures |RunOps(ops)| == |Inserted(ops)|
    ensures forall i :: 0 <= i < |RunOps(ops)| ==> SameCore(RunOps(ops)[i], Inserted(ops)[i])
  {
    if ops != [] { HistoryCore(ops[..|ops| - 1]); }
  }

  /** After any sequence of inserts and enrichments the aggregates are those of the
      inserted rows alone. */
  lemma StatsOfHistory(ops: seq<Op>)
    ensures StatsOf(RunOps(ops)) == StatsOf(Inserted(ops))
  {
    HistoryCore(ops);
    CoreStats(RunOps(ops), Inserted(ops));
  }
}
