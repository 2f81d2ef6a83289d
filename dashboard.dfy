/**
 * The dashboard page: the three chart series reduced from the loan-record
 * list (status tallies, a month-by-month series, per-purpose sums), the
 * search-and-status filter, the disbursal guard, the fetch of the record
 * list with its mount guard, and how the page wires the charts section.
 */
module Dashboard {
  import opened JsSemantics
  import opened LoanRecords
  import ChartsSection

  const API := "http://localhost:8732/api"
  const NOT_LOGGED_IN := "User not logged in or invalid session"
  const LOAD_FAILED := "Failed to load applications"
  const ALL := "ALL"
  const NAN_MONTH := "NaN-NaN"

  // ---------------------------------------------------------------------
  // Status tallies
  // ---------------------------------------------------------------------

  /** The number of records with the given status. */
  function CountStatus(apps: seq<LoanRecord>, s: string): (r: nat)
    ensures r <= |apps|
  {
    KeyedSumBounds(apps, Status, One, s);
    SumOfOnes(apps);
    KeyedSum(apps, Status, One, s)
  }

  lemma {:induction false} SumOfOnes(apps: seq<LoanRecord>)
    ensures Sum(apps, One) == |apps|
  {
    if apps != [] {
      SumOfOnes(apps[..|apps| - 1]);
    }
  }

  /** `.filter(item => item.value > 0)`. */
  function Positive(es: seq<StatusEntry>): (r: seq<StatusEntry>)
    ensures forall e :: e in r <==> e in es && e.value > 0
    ensures ChartsSection.Total(r) == ChartsSection.Total(es)
  {
    if es == [] then []
    else if es[0].value > 0 then [es[0]] + Positive(es[1..])
    else Positive(es[1..])
  }

  /** The four tallied statuses with their labels, in chart order. */
  function Tallies(apps: seq<LoanRecord>): seq<StatusEntry>
  {
    [StatusEntry(PENDING_LABEL, CountStatus(apps, PENDING)),
     StatusEntry(APPROVED_LABEL, CountStatus(apps, APPROVED)),
     StatusEntry(REJECTED_LABEL, CountStatus(apps, REJECTED)),
     StatusEntry(DISBURSED_LABEL, CountStatus(apps, DISBURSED))]
  }

  /** What `getStatusData` returns: only non-empty slices, adding up to the
      records with one of the four charted statuses. */
  function StatusDataOf(apps: seq<LoanRecord>): (sd: seq<StatusEntry>)
    ensures forall e :: e in sd ==> e.value > 0
    ensures ChartsSection.Total(sd) ==
      CountStatus(apps, PENDING) + CountStatus(apps, APPROVED) + CountStatus(apps, REJECTED) + CountStatus(apps, DISBURSED)
  {
    var t := Tallies(apps);
    assert ChartsSection.Total(t[3..]) == CountStatus(apps, DISBURSED);
    assert ChartsSection.Total(t[2..]) == CountStatus(apps, REJECTED) + CountStatus(apps, DISBURSED);
    assert ChartsSection.Total(t[1..]) == CountStatus(apps, APPROVED) + CountStatus(apps, REJECTED) + CountStatus(apps, DISBURSED);
    Positive(t)
  }

  /** `getStatusData`: tally every status into a dictionary seeded with the
      four chart statuses at 0, then emit the four in fixed order, dropping
      the ones at 0. */
  method StatusData(apps: seq<LoanRecord>) returns (data: seq<StatusEntry>)
    ensures data == StatusDataOf(apps)
  {
    var acc: map<string, nat> := map[PENDING := 0, APPROVED := 0, REJECTED := 0, DISBURSED := 0];
    for i := 0 to |apps|
      invariant PENDING in acc && APPROVED in acc && REJECTED in acc && DISBURSED in acc
      invariant forall k :: k in acc ==> acc[k] == KeyedSum(apps[..i], Status, One, k)
      invariant forall k :: k !in acc ==> KeyedSum(apps[..i], Status, One, k) == 0
    {
      var s := apps[i].status;
      forall k
        ensures KeyedSum(apps[..i + 1], Status, One, k) ==
          KeyedSum(apps[..i], Status, One, k) + (if k == s then 1 else 0)
      {
        KeyedSumStep(apps, i, Status, One, k);
      }
      acc := acc[s := (if s in acc then acc[s] else 0) + 1];
    }
    assert apps[..|apps|] == apps;
    data := Positive([StatusEntry(PENDING_LABEL, acc[PENDING]),
                      StatusEntry(APPROVED_LABEL, acc[APPROVED]),
                      StatusEntry(REJECTED_LABEL, acc[REJECTED]),
                      StatusEntry(DISBURSED_LABEL, acc[DISBURSED])]);
  }

  /** The position of a label in the chart's fixed order. */
  function LabelRank(name: string): nat
  {
    if name == PENDING_LABEL then 0
    else if name == APPROVED_LABEL then 1
    else if name == REJECTED_LABEL then 2
    else 3
  }

  lemma {:induction false} PositiveKeepsOrder(es: seq<StatusEntry>)
    requires forall i, j :: 0 <= i < j < |es| ==> LabelRank(es[i].name) < LabelRank(es[j].name)
    ensures forall i, j :: 0 <= i < j < |Positive(es)| ==> LabelRank(Positive(es)[i].name) < LabelRank(Positive(es)[j].name)
  {
    if es != [] {
      PositiveKeepsOrder(es[1..]);
      HeadRanksFirst(es);
    }
  }

  lemma HeadRanksFirst(es: seq<StatusEntry>)
    requires es != []
    requires forall i, j :: 0 <= i < j < |es| ==> LabelRank(es[i].name) < LabelRank(es[j].name)
    ensures forall x :: x in Positive(es[1..]) ==> LabelRank(es[0].name) < LabelRank(x.name)
  {
    forall x | x in Positive(es[1..]) ensures LabelRank(es[0].name) < LabelRank(x.name) {
      var k :| 0 <= k < |es[1..]| && es[1..][k] == x;
      assert es[k + 1] == x;
    }
  }

  /** The status series lists Pending, Approved, Rejected, Disbursed in that
      order, each exactly when its count is positive and carrying that count. */
  lemma StatusDataShape(apps: seq<LoanRecord>)
    ensures forall i, j :: 0 <= i < j < |StatusDataOf(apps)| ==>
      LabelRank(StatusDataOf(apps)[i].name) < LabelRank(StatusDataOf(apps)[j].name)
    ensures StatusEntry(PENDING_LABEL, CountStatus(apps, PENDING)) in StatusDataOf(apps) <==> CountStatus(apps, PENDING) > 0
    ensures StatusEntry(APPROVED_LABEL, CountStatus(apps, APPROVED)) in StatusDataOf(apps) <==> CountStatus(apps, APPROVED) > 0
    ensures StatusEntry(REJECTED_LABEL, CountStatus(apps, REJECTED)) in StatusDataOf(apps) <==> CountStatus(apps, REJECTED) > 0
    ensures StatusEntry(DISBURSED_LABEL, CountStatus(apps, DISBURSED)) in StatusDataOf(apps) <==> CountStatus(apps, DISBURSED) > 0
  {
    PositiveKeepsOrder(Tallies(apps));
  }

  /** True for the four statuses the chart tallies. */
  predicate Tallied(a: LoanRecord)
  {
    a.status in {PENDING, APPROVED, REJECTED, DISBURSED}
  }

  function UntalliedFlag(a: LoanRecord): int { if Tallied(a) then 0 else 1 }

  /** Every record is counted once: in one of the four tallies or among the rest. */
  lemma {:induction false} TallyPartition(apps: seq<LoanRecord>)
    ensures CountStatus(apps, PENDING) + CountStatus(apps, APPROVED) + CountStatus(apps, REJECTED)
            + CountStatus(apps, DISBURSED) + Sum(apps, UntalliedFlag) == |apps|
  {
    if apps != [] {
      TallyPartition(apps[..|apps| - 1]);
    }
  }

  /** The chart total is the number of records with one of the four tallied
      statuses; records with any other status, CLOSED included, are left out. */
  lemma StatusTotal(apps: seq<LoanRecord>)
    ensures ChartsSection.Total(StatusDataOf(apps)) ==
      CountStatus(apps, PENDING) + CountStatus(apps, APPROVED) + CountStatus(apps, REJECTED) + CountStatus(apps, DISBURSED)
    ensures ChartsSection.Total(StatusDataOf(apps)) == |apps| - Sum(apps, UntalliedFlag)
  {
    TotalOfFour(Tallies(apps));
    TallyPartition(apps);
  }

  lemma TotalOfFour(t: seq<StatusEntry>)
    requires |t| == 4
    ensures ChartsSection.Total(t) == t[0].value + t[1].value + t[2].value + t[3].value
  {
    assert ChartsSection.Total(t[3..]) == t[3].value + ChartsSection.Total(t[4..]);
    assert ChartsSection.Total(t[2..]) == t[2].value + ChartsSection.Total(t[3..]);
    assert ChartsSection.Total(t[1..]) == t[1].value + ChartsSection.Total(t[2..]);
  }

  /** Adding a CLOSED (or any other untallied) record leaves the status series unchanged. */
  lemma UntalliedRecordIgnored(apps: seq<LoanRecord>, a: LoanRecord)
    requires !Tallied(a)
    ensures StatusDataOf(apps + [a]) == StatusDataOf(apps)
  {
    assert (apps + [a])[..|apps|] == apps;
  }

  /** What the charts section reads back from the status series: the per-status
      counts, the approved total as APPROVED plus DISBURSED records, and a rate
      within [0, 100]. */
  lemma ChartFiguresFromRecords(apps: seq<LoanRecord>)
    ensures ChartsSection.Pending(StatusDataOf(apps)) == CountStatus(apps, PENDING)
    ensures ChartsSection.Rejected(StatusDataOf(apps)) == CountStatus(apps, REJECTED)
    ensures ChartsSection.TotalApproved(StatusDataOf(apps)) == CountStatus(apps, APPROVED) + CountStatus(apps, DISBURSED)
    ensures ChartsSection.ApprovalRate(ChartsSection.TotalApproved(StatusDataOf(apps)), ChartsSection.Total(StatusDataOf(apps))) <= 100
  {
    var sd := StatusDataOf(apps);
    StatusDataShape(apps);
    ValueOfTally(apps, PENDING_LABEL, PENDING);
    ValueOfTally(apps, APPROVED_LABEL, APPROVED);
    ValueOfTally(apps, REJECTED_LABEL, REJECTED);
    ValueOfTally(apps, DISBURSED_LABEL, DISBURSED);
    ChartsSection.ChartRateBounds(sd);
  }

  /** Reading a label back from the series gives its count, or 0 when the
      entry was dropped for being 0. */
  lemma ValueOfTally(apps: seq<LoanRecord>, name: string, status: string)
    requires || (name == PENDING_LABEL && status == PENDING)
             || (name == APPROVED_LABEL && status == APPROVED)
             || (name == REJECTED_LABEL && status == REJECTED)
             || (name == DISBURSED_LABEL && status == DISBURSED)
    ensures ChartsSection.ValueOf(StatusDataOf(apps), name) == CountStatus(apps, status)
  {
    var sd := StatusDataOf(apps);
    StatusDataShape(apps);
    var e := StatusEntry(name, CountStatus(apps, status));
    if CountStatus(apps, status) > 0 {
      ValueAtEntry(sd, e);
    } else {
      forall i | 0 <= i < |sd| ensures sd[i].name != name {
        assert sd[i] in Tallies(apps);
      }
    }
  }

  /** In a series whose labels strictly follow the chart order, an entry's
      label reads back its own value. */
  lemma ValueAtEntry(sd: seq<StatusEntry>, e: StatusEntry)
    requires e in sd
    requires forall i, j :: 0 <= i < j < |sd| ==> LabelRank(sd[i].name) < LabelRank(sd[j].name)
    ensures ChartsSection.ValueOf(sd, e.name) == e.value
  {
    var i :| 0 <= i < |sd| && sd[i] == e;
    forall j | 0 <= j < i ensures sd[j].name != e.name {
      assert LabelRank(sd[j].name) < LabelRank(sd[i].name);
    }
  }

  /** Two approvals, one pending: the rate shows 67. */
  lemma SampleApprovalRate(a: LoanRecord, b: LoanRecord, c: LoanRecord)
    requires a.status == APPROVED && b.status == DISBURSED && c.status == PENDING
    ensures ChartsSection.ApprovalRate(ChartsSection.TotalApproved(StatusDataOf([a, b, c])),
                                       ChartsSection.Total(StatusDataOf([a, b, c]))) == 67
  {
    var apps := [a, b, c];
    var sd := StatusDataOf(apps);
    SampleCount(a, b, c, PENDING);
    SampleCount(a, b, c, APPROVED);
    SampleCount(a, b, c, REJECTED);
    SampleCount(a, b, c, DISBURSED);
    ChartFiguresFromRecords(apps);
    StatusTotal(apps);
    assert ChartsSection.TotalApproved(sd) == 2 && ChartsSection.Total(sd) == 3;
    ChartsSection.TwoOfThree();
  }

  lemma SampleCount(a: LoanRecord, b: LoanRecord, c: LoanRecord, s: string)
    ensures CountStatus([a, b, c], s) ==
      (if a.status == s then 1 else 0) + (if b.status == s then 1 else 0) + (if c.status == s then 1 else 0)
  {
    CountSnoc([], a, s);
    CountSnoc([a], b, s);
    CountSnoc([a, b], c, s);
    assert [] + [a] == [a] && [a] + [b] == [a, b] && [a, b] + [c] == [a, b, c];
  }

  /** One more record adds one to its own status count. */
  lemma CountSnoc(apps: seq<LoanRecord>, a: LoanRecord, s: string)
    ensures CountStatus(apps + [a], s) == CountStatus(apps, s) + (if a.status == s then 1 else 0)
  {
    assert (apps + [a])[..|apps|] == apps;
  }

  // ---------------------------------------------------------------------
  // Monthly series
  // ---------------------------------------------------------------------

  function Months(r: seq<MonthBucket>): (m: seq<string>)
    ensures |m| == |r| && forall j :: 0 <= j < |r| ==> m[j] == r[j].month
  {
    if r == [] then [] else [r[0].month] + Months(r[1..])
  }

  predicate StrictlyAscending(r: seq<MonthBucket>)
  {
    forall i, j :: 0 <= i < j < |r| ==> LexLess(r[i].month, r[j].month)
  }

  /** What `getMonthlyData` promises about its result: buckets in ascending
      key order, one per key some record has, each counting that key's
      records and its APPROVED or DISBURSED records. */
  predicate IsMonthlySeries(apps: seq<LoanRecord>, r: seq<MonthBucket>)
  {
    StrictlyAscending(r) && CoversRecords(apps, r) && CountsRecords(apps, r)
  }

  /** Every record's month has a bucket. */
  predicate CoversRecords(apps: seq<LoanRecord>, r: seq<MonthBucket>)
  {
    forall i :: 0 <= i < |apps| ==> MonthKey(apps[i]) in Months(r)
  }

  /** Every bucket counts the records of its month and their approvals, and is not empty. */
  predicate CountsRecords(apps: seq<LoanRecord>, r: seq<MonthBucket>)
  {
    forall j :: 0 <= j < |r| ==>
      && r[j].applications == KeyedSum(apps, MonthKey, One, r[j].month) >= 1
      && r[j].approved == KeyedSum(apps, MonthKey, ApprovedFlag, r[j].month)
  }

  /** Insert a bucket into a list ascending by month. */
  function InsertByMonth(b: MonthBucket, s: seq<MonthBucket>): (r: seq<MonthBucket>)
    ensures multiset(r) == multiset(s) + multiset{b}
  {
    if s == [] then [b]
    else if LexLess(b.month, s[0].month) then [b] + s
    else
      assert s == [s[0]] + s[1..];
      [s[0]] + InsertByMonth(b, s[1..])
  }

  lemma {:induction false} InsertByMonthSorted(b: MonthBucket, s: seq<MonthBucket>)
    requires StrictlyAscending(s)
    requires b.month !in Months(s)
    ensures StrictlyAscending(InsertByMonth(b, s))
  {
    if s != [] {
      if LexLess(b.month, s[0].month) {
        PrependSmallest(b, s);
        PrependSorted(b, s);
      } else {
        LexLessTotal(b.month, s[0].month);
        assert Months(s[1..]) == Months(s)[1..];
        InsertByMonthSorted(b, s[1..]);
        var rest := InsertByMonth(b, s[1..]);
        forall j | 0 <= j < |rest| ensures LexLess(s[0].month, rest[j].month) {
          BelowRest(b, s, rest[j]);
        }
        PrependSorted(s[0], rest);
      }
    }
  }

  lemma PrependSorted(b: MonthBucket, s: seq<MonthBucket>)
    requires StrictlyAscending(s)
    requires forall j :: 0 <= j < |s| ==> LexLess(b.month, s[j].month)
    ensures StrictlyAscending([b] + s)
  {
    var r := [b] + s;
    forall i, j | 0 <= i < j < |r| ensures LexLess(r[i].month, r[j].month) {
      if i > 0 {
        assert r[i] == s[i - 1] && r[j] == s[j - 1];
      }
    }
  }

  lemma PrependSmallest(b: MonthBucket, s: seq<MonthBucket>)
    requires StrictlyAscending(s) && s != []
    requires LexLess(b.month, s[0].month)
    ensures forall j :: 0 <= j < |s| ==> LexLess(b.month, s[j].month)
  {
    forall j | 0 < j < |s| ensures LexLess(b.month, s[j].month) {
      LexLessTransitive(b.month, s[0].month, s[j].month);
    }
  }

  /** Every element of the insertion into the tail lies above the head. */
  lemma BelowRest(b: MonthBucket, s: seq<MonthBucket>, x: MonthBucket)
    requires StrictlyAscending(s) && s != []
    requires LexLess(s[0].month, b.month)
    requires x in multiset(InsertByMonth(b, s[1..]))
    ensures LexLess(s[0].month, x.month)
  {
    if x != b {
      assert x in multiset(s[1..]);
      var k :| 0 <= k < |s[1..]| && s[1..][k] == x;
      assert s[k + 1] == x;
    }
  }

  /** `.sort((a, b) => a.month.localeCompare(b.month))`. */
  function SortByMonth(s: seq<MonthBucket>): (r: seq<MonthBucket>)
    ensures multiset(r) == multiset(s)
  {
    if s == [] then []
    else
      assert s == [s[0]] + s[1..];
      InsertByMonth(s[0], SortByMonth(s[1..]))
  }

  lemma {:induction false} SortByMonthSorted(s: seq<MonthBucket>)
    requires Distinct(Months(s))
    ensures StrictlyAscending(SortByMonth(s))
  {
    if s != [] {
      assert Months(s[1..]) == Months(s)[1..];
      SortByMonthSorted(s[1..]);
      var sorted := SortByMonth(s[1..]);
      forall j | 0 <= j < |sorted| ensures sorted[j].month != s[0].month {
        assert sorted[j] in multiset(s[1..]);
        var k :| 0 <= k < |s[1..]| && s[1..][k] == sorted[j];
        assert Months(s)[k + 1] == sorted[j].month;
      }
      InsertByMonthSorted(s[0], sorted);
    }
  }

  /** The state of `getMonthlyData`'s dictionary after the records of
      `prefix`: one bucket per key seen so far, listed in `order` (the order
      `Object.values` returns them), each counting its records and approvals. */
  ghost predicate Bucketed(prefix: seq<LoanRecord>, monthly: map<string, MonthBucket>, order: seq<string>)
  {
    BucketKeys(prefix, monthly, order) && BucketCounts(prefix, monthly)
  }

  ghost predicate BucketKeys(prefix: seq<LoanRecord>, monthly: map<string, MonthBucket>, order: seq<string>)
  {
    && Distinct(order)
    && (forall k :: k in monthly <==> k in order)
    && (forall k :: k in monthly ==> monthly[k].month == k)
    && (forall j :: 0 <= j < |prefix| ==> MonthKey(prefix[j]) in monthly)
  }

  ghost predicate BucketCounts(prefix: seq<LoanRecord>, monthly: map<string, MonthBucket>)
  {
    && (forall k :: k in monthly ==>
          && monthly[k].applications == KeyedSum(prefix, MonthKey, One, k) >= 1
          && monthly[k].approved == KeyedSum(prefix, MonthKey, ApprovedFlag, k))
    && (forall k :: k !in monthly ==> KeyedSum(prefix, MonthKey, One, k) == 0)
    && (forall k :: k !in monthly ==> KeyedSum(prefix, MonthKey, ApprovedFlag, k) == 0)
  }

  /** The bucket a record lands in before and after it is counted. */
  predicate BucketUpdate(monthly: map<string, MonthBucket>, a: LoanRecord, before: MonthBucket, after: MonthBucket)
  {
    && before == (if MonthKey(a) in monthly then monthly[MonthKey(a)] else MonthBucket(MonthKey(a), 0, 0))
    && after == MonthBucket(MonthKey(a), before.applications + 1, before.approved + ApprovedFlag(a))
  }

  /** Bucketing one more record keeps the dictionary in step with the prefix. */
  lemma BucketStep(apps: seq<LoanRecord>, i: nat, monthly: map<string, MonthBucket>, order: seq<string>,
                   before: MonthBucket, after: MonthBucket)
    requires i < |apps| && Bucketed(apps[..i], monthly, order)
    requires BucketUpdate(monthly, apps[i], before, after)
    ensures Bucketed(apps[..i + 1], monthly[MonthKey(apps[i]) := after],
                     if MonthKey(apps[i]) in monthly then order else order + [MonthKey(apps[i])])
  {
    BucketStepKeys(apps, i, monthly, order, after);
    BucketStepCounts(apps, i, monthly, before, after);
  }

  lemma BucketStepKeys(apps: seq<LoanRecord>, i: nat, monthly: map<string, MonthBucket>, order: seq<string>,
                       after: MonthBucket)
    requires i < |apps| && BucketKeys(apps[..i], monthly, order)
    requires after.month == MonthKey(apps[i])
    ensures BucketKeys(apps[..i + 1], monthly[MonthKey(apps[i]) := after],
                       if MonthKey(apps[i]) in monthly then order else order + [MonthKey(apps[i])])
  {
    var key := MonthKey(apps[i]);
    if key !in monthly {
      DistinctSnoc(order, key);
    }
    var m := monthly[key := after];
    KeysFollowOrder(monthly, order, key, after, m, if key in monthly then order else order + [key]);
    KeysCoverRecords(apps, i, monthly, m, apps[..i], apps[..i + 1]);
  }

  /** A new key is listed once it enters the dictionary, and each bucket keeps its own month. */
  lemma KeysFollowOrder(monthly: map<string, MonthBucket>, order: seq<string>, key: string, after: MonthBucket,
                        m: map<string, MonthBucket>, o: seq<string>)
    requires forall k :: k in monthly <==> k in order
    requires forall k :: k in monthly ==> monthly[k].month == k
    requires after.month == key
    requires m == monthly[key := after] && o == if key in monthly then order else order + [key]
    ensures forall k :: k in m <==> k in o
    ensures forall k :: k in m ==> m[k].month == k
  {
  }

  /** The record just counted has its bucket, and earlier records keep theirs. */
  lemma KeysCoverRecords(apps: seq<LoanRecord>, i: nat, monthly: map<string, MonthBucket>,
                         m: map<string, MonthBucket>, p: seq<LoanRecord>, q: seq<LoanRecord>)
    requires i < |apps| && p == apps[..i] && q == apps[..i + 1]
    requires forall j :: 0 <= j < |p| ==> MonthKey(p[j]) in monthly
    requires forall k :: k in monthly ==> k in m
    requires MonthKey(apps[i]) in m
    ensures forall j :: 0 <= j < |q| ==> MonthKey(q[j]) in m
  {
    forall j | 0 <= j < |q| ensures MonthKey(q[j]) in m {
      if j < i { assert q[j] == p[j]; }
    }
  }

  lemma BucketStepCounts(apps: seq<LoanRecord>, i: nat, monthly: map<string, MonthBucket>,
                         before: MonthBucket, after: MonthBucket)
    requires i < |apps| && BucketCounts(apps[..i], monthly)
    requires BucketUpdate(monthly, apps[i], before, after)
    ensures BucketCounts(apps[..i + 1], monthly[MonthKey(apps[i]) := after])
  {
    var key := MonthKey(apps[i]);
    forall k
      ensures KeyedSum(apps[..i + 1], MonthKey, One, k) ==
        KeyedSum(apps[..i], MonthKey, One, k) + (if k == key then 1 else 0)
      ensures KeyedSum(apps[..i + 1], MonthKey, ApprovedFlag, k) ==
        KeyedSum(apps[..i], MonthKey, ApprovedFlag, k) + (if k == key then ApprovedFlag(apps[i]) else 0)
    {
      KeyedSumStep(apps, i, MonthKey, One, k);
      KeyedSumStep(apps, i, MonthKey, ApprovedFlag, k);
    }
  }

  /** `getMonthlyData`: bucket every record by its month key, counting it and,
      when APPROVED or DISBURSED, counting it as approved; then sort the
      buckets by key. */
  method MonthlyData(apps: seq<LoanRecord>) returns (series: seq<MonthBucket>)
    ensures IsMonthlySeries(apps, series)
  {
    var monthly: map<string, MonthBucket> := map[];
    var order: seq<string> := [];
    for i := 0 to |apps|
      invariant Bucketed(apps[..i], monthly, order)
    {
      var key := MonthKey(apps[i]);
      var bucket := if key in monthly then monthly[key] else MonthBucket(key, 0, 0);
      ghost var before := bucket;
      BucketStep(apps, i, monthly, order, before,
                 MonthBucket(key, before.applications + 1, before.approved + ApprovedFlag(apps[i])));
      if key !in monthly {
        order := order + [key];
      }
      bucket := bucket.(applications := bucket.applications + 1);
      if IsApproved(apps[i]) {
        bucket := bucket.(approved := bucket.approved + 1);
      }
      monthly := monthly[key := bucket];
    }
    assert apps[..|apps|] == apps;
    var buckets := seq(|order|, j requires 0 <= j < |order| => monthly[order[j]]);
    SortedBucketsFormSeries(apps, monthly, order, buckets);
    series := SortByMonth(buckets);
  }

  /** Once every record has been bucketed, sorting the buckets (listed in
      insertion order) yields the monthly series. */
  lemma SortedBucketsFormSeries(apps: seq<LoanRecord>, monthly: map<string, MonthBucket>, order: seq<string>,
                                buckets: seq<MonthBucket>)
    requires Bucketed(apps, monthly, order)
    requires ListsDictionary(monthly, order, buckets)
    ensures IsMonthlySeries(apps, SortByMonth(buckets))
  {
    BucketedFacts(apps, monthly, order);
    SortedBucketsFormSeriesFrom(apps, monthly, order, buckets);
  }

  /** The finished dictionary, in the form the sorting argument uses. */
  ghost predicate DictionaryFacts(apps: seq<LoanRecord>, monthly: map<string, MonthBucket>, order: seq<string>)
  {
    && Distinct(order)
    && (forall k :: k in monthly <==> k in order)
    && (forall k :: k in monthly ==>
          && monthly[k].month == k
          && monthly[k].applications == KeyedSum(apps, MonthKey, One, k) >= 1
          && monthly[k].approved == KeyedSum(apps, MonthKey, ApprovedFlag, k))
    && (forall i :: 0 <= i < |apps| ==> MonthKey(apps[i]) in order)
  }

  /** `buckets` lists the dictionary's values in key order. */
  ghost predicate ListsDictionary(monthly: map<string, MonthBucket>, order: seq<string>, buckets: seq<MonthBucket>)
  {
    |buckets| == |order| && forall j :: 0 <= j < |order| ==> order[j] in monthly && buckets[j] == monthly[order[j]]
  }

  lemma BucketedFacts(apps: seq<LoanRecord>, monthly: map<string, MonthBucket>, order: seq<string>)
    requires Bucketed(apps, monthly, order)
    ensures DictionaryFacts(apps, monthly, order)
  {
  }

  lemma SortedBucketsFormSeriesFrom(apps: seq<LoanRecord>, monthly: map<string, MonthBucket>, order: seq<string>,
                                    buckets: seq<MonthBucket>)
    requires DictionaryFacts(apps, monthly, order)
    requires ListsDictionary(monthly, order, buckets)
    ensures IsMonthlySeries(apps, SortByMonth(buckets))
  {
    var series := SortByMonth(buckets);
    MonthsOfBuckets(monthly, order, buckets);
    SortByMonthSorted(buckets);
    SeriesCountsRecords(apps, monthly, order, buckets, series);
    SeriesCoversRecords(apps, order, buckets, series);
  }

  /** Listing the dictionary's buckets in key order lists their months in that order. */
  lemma MonthsOfBuckets(monthly: map<string, MonthBucket>, order: seq<string>, buckets: seq<MonthBucket>)
    requires forall k :: k in monthly <==> k in order
    requires forall k :: k in monthly ==> monthly[k].month == k
    requires |buckets| == |order| && forall j :: 0 <= j < |order| ==> buckets[j] == monthly[order[j]]
    ensures Months(buckets) == order
  {
    forall j | 0 <= j < |order| ensures Months(buckets)[j] == order[j] {
      assert order[j] in monthly;
    }
  }

  lemma SeriesCountsRecords(apps: seq<LoanRecord>, monthly: map<string, MonthBucket>, order: seq<string>,
                            buckets: seq<MonthBucket>, series: seq<MonthBucket>)
    requires forall k :: k in monthly <==> k in order
    requires forall k :: k in monthly ==>
          && monthly[k].month == k
          && monthly[k].applications == KeyedSum(apps, MonthKey, One, k) >= 1
          && monthly[k].approved == KeyedSum(apps, MonthKey, ApprovedFlag, k)
    requires |buckets| == |order| && forall j :: 0 <= j < |order| ==> buckets[j] == monthly[order[j]]
    requires multiset(series) == multiset(buckets)
    ensures CountsRecords(apps, series)
  {
    forall j | 0 <= j < |series|
      ensures series[j].applications == KeyedSum(apps, MonthKey, One, series[j].month) >= 1
      ensures series[j].approved == KeyedSum(apps, MonthKey, ApprovedFlag, series[j].month)
    {
      assert series[j] in multiset(buckets);
      BucketFromDictionary(monthly, order, buckets, series[j]);
    }
  }

  lemma SeriesCoversRecords(apps: seq<LoanRecord>, order: seq<string>, buckets: seq<MonthBucket>,
                            series: seq<MonthBucket>)
    requires forall i :: 0 <= i < |apps| ==> MonthKey(apps[i]) in order
    requires Months(buckets) == order
    requires multiset(series) == multiset(buckets)
    ensures CoversRecords(apps, series)
  {
    forall i | 0 <= i < |apps| ensures MonthKey(apps[i]) in Months(series) {
      var k :| 0 <= k < |order| && order[k] == MonthKey(apps[i]);
      BucketListed(buckets, series, k);
    }
  }

  lemma BucketFromDictionary(monthly: map<string, MonthBucket>, order: seq<string>, buckets: seq<MonthBucket>,
                             x: MonthBucket)
    requires forall k :: k in monthly <==> k in order
    requires forall k :: k in monthly ==> monthly[k].month == k
    requires |buckets| == |order| && forall j :: 0 <= j < |order| ==> buckets[j] == monthly[order[j]]
    requires x in multiset(buckets)
    ensures x.month in monthly && x == monthly[x.month]
  {
    var j :| 0 <= j < |buckets| && buckets[j] == x;
    assert order[j] in monthly;
  }

  lemma BucketListed(buckets: seq<MonthBucket>, series: seq<MonthBucket>, k: nat)
    requires k < |buckets| && multiset(series) == multiset(buckets)
    ensures buckets[k].month in Months(series)
  {
    assert buckets[k] in multiset(series);
    var j :| 0 <= j < |series| && series[j] == buckets[k];
    assert Months(series)[j] == buckets[k].month;
  }

  function SumApplications(r: seq<MonthBucket>): int
  {
    if r == [] then 0 else r[0].applications + SumApplications(r[1..])
  }

  function SumApproved(r: seq<MonthBucket>): int
  {
    if r == [] then 0 else r[0].approved + SumApproved(r[1..])
  }

  lemma {:induction false} BucketSums(apps: seq<LoanRecord>, r: seq<MonthBucket>)
    requires forall j :: 0 <= j < |r| ==>
      r[j].applications == KeyedSum(apps, MonthKey, One, r[j].month) &&
      r[j].approved == KeyedSum(apps, MonthKey, ApprovedFlag, r[j].month)
    ensures SumApplications(r) == SumOverKeys(Months(r), apps, MonthKey, One)
    ensures SumApproved(r) == SumOverKeys(Months(r), apps, MonthKey, ApprovedFlag)
  {
    if r != [] {
      assert Months(r)[1..] == Months(r[1..]);
      BucketSums(apps, r[1..]);
    }
  }

  /** Any monthly series loses no record: its application counts add up to
      the number of records, its approved counts to the APPROVED or DISBURSED
      records, and no bucket has more approvals than applications. */
  lemma MonthlyTotals(apps: seq<LoanRecord>, r: seq<MonthBucket>)
    requires IsMonthlySeries(apps, r)
    ensures SumApplications(r) == |apps|
    ensures SumApproved(r) == Sum(apps, ApprovedFlag)
    ensures forall j :: 0 <= j < |r| ==> r[j].approved <= r[j].applications
  {
    forall i, j | 0 <= i < j < |Months(r)| ensures Months(r)[i] != Months(r)[j] {
      if Months(r)[i] == Months(r)[j] {
        LexLessIrreflexive(r[i].month);
      }
    }
    BucketSums(apps, r);
    PartitionSum(Months(r), apps, MonthKey, One);
    PartitionSum(Months(r), apps, MonthKey, ApprovedFlag);
    SumOfOnes(apps);
    forall j | 0 <= j < |r| ensures r[j].approved <= r[j].applications {
      ApprovedAtMostAll(apps, MonthKey, r[j].month);
    }
  }

  /** Month keys are zero-padded, so ascending key order is calendar order
      within a year: March 2024 sorts before November 2024. */
  lemma MonthKeysSortByCalendar(a: LoanRecord, b: LoanRecord)
    requires a.createdAt == Parsed(2024, 3) && b.createdAt == Parsed(2024, 11)
    ensures MonthKey(a) == "2024-03" && MonthKey(b) == "2024-11"
    ensures LexLess(MonthKey(a), MonthKey(b))
  {
    PrintedYear2024();
    PaddedMonths();
    MonthKeyOf(a, "2024", "03");
    MonthKeyOf(b, "2024", "11");
    LexLessAtFirstDifference(MonthKey(a), MonthKey(b), 5);
  }

  lemma PrintedYear2024()
    ensures IntToString(2024) == "2024"
  {
    assert NatToString(2) == "2";
    assert NatToString(20) == "20";
    assert NatToString(202) == "202";
  }

  lemma PrintedYear1970()
    ensures IntToString(1970) == "1970"
  {
    assert NatToString(1) == "1";
    assert NatToString(19) == "19";
    assert NatToString(197) == "197";
  }

  /** Single-digit months gain a leading zero; two-digit months keep theirs. */
  lemma PaddedMonths()
    ensures PadStart2(IntToString(1)) == "01"
    ensures PadStart2(IntToString(3)) == "03"
    ensures PadStart2(IntToString(11)) == "11"
  {
    assert IntToString(1) == "1";
    assert IntToString(3) == "3";
    assert IntToString(11) == "11";
  }

  /** The key of a dated record from the printed year and padded month. */
  lemma MonthKeyOf(a: LoanRecord, year: string, month: string)
    requires DateOf(a).IsDate()
    requires IntToString(DateOf(a).year) == year && PadStart2(IntToString(DateOf(a).month)) == month
    ensures MonthKey(a) == year + "-" + month
  {
  }

  /** A record whose `createdAt` is falsy is bucketed by `applicationDate`;
      a truthy `createdAt` that does not parse, or a fallback that is
      undefined or does not parse, lands in "NaN-NaN"; a `null` fallback
      lands in the epoch's month like any other date. */
  lemma MonthKeyFallbacks(a: LoanRecord)
    ensures a.createdAt.Falsy() ==> MonthKey(a) == MonthKey(a.(createdAt := a.applicationDate))
    ensures a.createdAt.Unparsable? ==> MonthKey(a) == NAN_MONTH
    ensures a.createdAt.Falsy() && !a.applicationDate.IsDate() ==> MonthKey(a) == NAN_MONTH
    ensures a.createdAt.Falsy() && a.applicationDate.Epoch? ==>
      MonthKey(a) == MonthKey(a.(createdAt := Parsed(a.applicationDate.year, a.applicationDate.month)))
  {
  }

  /** A record with both dates `null` is bucketed under the epoch's month,
      here "1970-01" (a time zone at or east of UTC). */
  lemma NullDatesGiveEpochMonth(a: LoanRecord)
    requires a.createdAt == Epoch(1970, 1) && a.applicationDate == Epoch(1970, 1)
    ensures MonthKey(a) == "1970-01"
  {
    PrintedYear1970();
    PaddedMonths();
    MonthKeyOf(a, "1970", "01");
  }

  // ---------------------------------------------------------------------
  // Purpose sums
  // ---------------------------------------------------------------------

  /** The distinct purposes in order of first occurrence. */
  function PurposeOrder(apps: seq<LoanRecord>): (o: seq<string>)
    ensures Distinct(o)
    ensures forall p :: p in o <==> exists i :: 0 <= i < |apps| && apps[i].purpose == p
  {
    if apps == [] then []
    else
      var init := apps[..|apps| - 1];
      var o := PurposeOrder(init);
      assert forall i :: 0 <= i < |init| ==> apps[i] == init[i];
      if apps[|apps| - 1].purpose in o then o else o + [apps[|apps| - 1].purpose]
  }

  /** Every occurrence of a later-listed purpose is preceded by an occurrence
      of each earlier-listed one: the order is that of first occurrence. */
  lemma {:induction false} PurposeOrderIsFirstOccurrence(apps: seq<LoanRecord>, j: nat, l: nat, i: nat)
    requires j < l < |PurposeOrder(apps)|
    requires i < |apps| && apps[i].purpose == PurposeOrder(apps)[l]
    ensures exists i' :: 0 <= i' < i && apps[i'].purpose == PurposeOrder(apps)[j]
    decreases |apps|
  {
    var init := apps[..|apps| - 1];
    var o := PurposeOrder(init);
    var last := apps[|apps| - 1].purpose;
    if i < |init| {
      assert init[i] == apps[i];
      if l < |o| {
        PurposeOrderIsFirstOccurrence(init, j, l, i);
        var i' :| 0 <= i' < i && init[i'].purpose == o[j];
        assert apps[i'] == init[i'];
      } else {
        assert false;
      }
    } else {
      if l < |o| {
        var i0 :| 0 <= i0 < |init| && init[i0].purpose == o[l];
        PurposeOrderIsFirstOccurrence(init, j, l, i0);
        var i' :| 0 <= i' < i0 && init[i'].purpose == o[j];
        assert apps[i'] == init[i'];
      } else {
        assert o[j] in o;
        var i' :| 0 <= i' < |init| && init[i'].purpose == o[j];
        assert apps[i'] == init[i'];
      }
    }
  }

  predicate IsPurposeSeries(apps: seq<LoanRecord>, r: seq<PurposeEntry>)
  {
    && |r| == |PurposeOrder(apps)|
    && (forall j :: 0 <= j < |r| ==> r[j].purpose == PurposeOrder(apps)[j])
    && (forall j :: 0 <= j < |r| ==> r[j].amount == KeyedSum(apps, Purpose, Amount, r[j].purpose))
  }

  /** `getPurposeData`: sum `loanAmount` per purpose into a dictionary and
      list its keys in insertion order. */
  method PurposeData(apps: seq<LoanRecord>) returns (data: seq<PurposeEntry>)
    ensures IsPurposeSeries(apps, data)
  {
    var acc: map<string, int> := map[];
    var keys: seq<string> := [];
    for i := 0 to |apps|
      invariant Summed(apps[..i], acc, keys)
    {
      var p := apps[i].purpose;
      var amount := (if p in acc then acc[p] else 0) + apps[i].loanAmount;
      SummedStep(apps, i, acc, keys);
      if p !in acc {
        keys := keys + [p];
      }
      acc := acc[p := amount];
    }
    assert apps[..|apps|] == apps;
    data := seq(|keys|, j requires 0 <= j < |keys| => PurposeEntry(keys[j], acc[keys[j]]));
    SummedFormsSeries(apps, acc, keys, data);
  }

  /** `data` lists the accumulator's sums in key order. */
  ghost predicate ListsSums(acc: map<string, int>, keys: seq<string>, data: seq<PurposeEntry>)
  {
    |data| == |keys| && forall j :: 0 <= j < |keys| ==> keys[j] in acc && data[j] == PurposeEntry(keys[j], acc[keys[j]])
  }

  /** Once every record has been summed, listing the sums in key order gives
      the purpose series. */
  lemma SummedFormsSeries(apps: seq<LoanRecord>, acc: map<string, int>, keys: seq<string>, data: seq<PurposeEntry>)
    requires Summed(apps, acc, keys)
    requires ListsSums(acc, keys, data)
    ensures IsPurposeSeries(apps, data)
  {
  }

  /** The state of `getPurposeData`'s accumulator after the records of
      `prefix`: its keys in insertion order and a running sum per purpose. */
  ghost predicate Summed(prefix: seq<LoanRecord>, acc: map<string, int>, keys: seq<string>)
  {
    && keys == PurposeOrder(prefix)
    && (forall k :: k in acc <==> k in keys)
    && (forall k :: k in acc ==> acc[k] == KeyedSum(prefix, Purpose, Amount, k))
    && (forall k :: k !in acc ==> KeyedSum(prefix, Purpose, Amount, k) == 0)
  }

  lemma SummedStep(apps: seq<LoanRecord>, i: nat, acc: map<string, int>, keys: seq<string>)
    requires i < |apps| && Summed(apps[..i], acc, keys)
    ensures Summed(apps[..i + 1],
                   acc[apps[i].purpose := (if apps[i].purpose in acc then acc[apps[i].purpose] else 0) + apps[i].loanAmount],
                   if apps[i].purpose in acc then keys else keys + [apps[i].purpose])
  {
    var p := apps[i].purpose;
    forall k
      ensures KeyedSum(apps[..i + 1], Purpose, Amount, k) ==
        KeyedSum(apps[..i], Purpose, Amount, k) + (if k == p then apps[i].loanAmount else 0)
    {
      KeyedSumStep(apps, i, Purpose, Amount, k);
    }
    assert apps[..i + 1][..i] == apps[..i];
  }

  function SumAmounts(r: seq<PurposeEntry>): int
  {
    if r == [] then 0 else r[0].amount + SumAmounts(r[1..])
  }

  lemma {:induction false} AmountSums(apps: seq<LoanRecord>, r: seq<PurposeEntry>, keys: seq<string>)
    requires |r| == |keys|
    requires forall j :: 0 <= j < |r| ==> r[j].purpose == keys[j]
    requires forall j :: 0 <= j < |r| ==> r[j].amount == KeyedSum(apps, Purpose, Amount, r[j].purpose)
    ensures SumAmounts(r) == SumOverKeys(keys, apps, Purpose, Amount)
  {
    if r != [] {
      AmountSums(apps, r[1..], keys[1..]);
    }
  }

  /** The purpose amounts add up to the total amount over all records. */
  lemma PurposeTotals(apps: seq<LoanRecord>, r: seq<PurposeEntry>)
    requires IsPurposeSeries(apps, r)
    ensures SumAmounts(r) == Sum(apps, Amount)
  {
    var keys := PurposeOrder(apps);
    AmountSums(apps, r, keys);
    forall i | 0 <= i < |apps| ensures Purpose(apps[i]) in keys {
    }
    PartitionSum(keys, apps, Purpose, Amount);
  }

  // ---------------------------------------------------------------------
  // Search and status filter
  // ---------------------------------------------------------------------

  /** A record stays in the list when its name or purpose contains the search
      text, ignoring case, and the filter is ALL or its status. */
  predicate Keep(a: LoanRecord, search: string, filter: string): (k: bool)
    ensures k ==> filter == ALL || a.status == filter
    ensures search == "" ==> (k <==> filter == ALL || a.status == filter)
  {
    IncludesEmpty(ToLower(a.name));
    (Includes(ToLower(a.name), ToLower(search)) || Includes(ToLower(a.purpose), ToLower(search)))
    && (filter == ALL || a.status == filter)
  }

  /** `xs` is `ys` with some elements left out, the rest in the same order. */
  predicate IsSublist(xs: seq<LoanRecord>, ys: seq<LoanRecord>)
    decreases |ys|
  {
    if xs == [] then true
    else if ys == [] then false
    else if xs[0] == ys[0] then IsSublist(xs[1..], ys[1..])
    else IsSublist(xs, ys[1..])
  }

  /** `filteredApplications`. */
  function FilteredApplications(apps: seq<LoanRecord>, search: string, filter: string): (r: seq<LoanRecord>)
    ensures forall a :: a in r <==> a in apps && Keep(a, search, filter)
    ensures forall a :: multiset(r)[a] == if Keep(a, search, filter) then multiset(apps)[a] else 0
    ensures IsSublist(r, apps)
  {
    if apps == [] then []
    else
      assert apps == [apps[0]] + apps[1..];
      if Keep(apps[0], search, filter) then [apps[0]] + FilteredApplications(apps[1..], search, filter)
      else
        var rest := FilteredApplications(apps[1..], search, filter);
        assert rest == [] || rest[0] in apps[1..];
        SublistSkip(rest, apps);
        rest
  }

  /** Dropping the head of `ys` keeps a sublist of its tail a sublist of `ys`. */
  lemma {:induction false} SublistSkip(xs: seq<LoanRecord>, ys: seq<LoanRecord>)
    requires ys != [] && IsSublist(xs, ys[1..])
    ensures IsSublist(xs, ys)
    decreases |ys|
  {
    if xs != [] && xs[0] == ys[0] {
      SublistTail(xs, ys[1..]);
      SublistSkip(xs[1..], ys[1..]);
    }
  }

  /** If `xs` is a sublist of `ys`, so is its tail. */
  lemma {:induction false} SublistTail(xs: seq<LoanRecord>, ys: seq<LoanRecord>)
    requires xs != [] && IsSublist(xs, ys)
    ensures IsSublist(xs[1..], ys[1..])
    decreases |ys|
  {
    if xs[0] != ys[0] {
      SublistTail(xs, ys[1..]);
      SublistSkip(xs[1..], ys[1..]);
    }
  }

  /** An empty search with the ALL filter shows every record, in order. */
  lemma {:induction false} FilterIdentity(apps: seq<LoanRecord>)
    ensures FilteredApplications(apps, "", ALL) == apps
  {
    if apps != [] {
      IncludesEmpty(ToLower(apps[0].name));
      FilterIdentity(apps[1..]);
    }
  }

  // ---------------------------------------------------------------------
  // Disbursal guard
  // ---------------------------------------------------------------------

  /** `applications.find(app => app.applicationId === id)`, as an index. */
  function FindApplication(apps: seq<LoanRecord>, id: string): (r: Option<nat>)
    ensures r.None? <==> forall i :: 0 <= i < |apps| ==> apps[i].applicationId != id
    ensures r.Some? ==> r.value < |apps| && apps[r.value].applicationId == id
    ensures r.Some? ==> forall j :: 0 <= j < r.value ==> apps[j].applicationId != id
  {
    if apps == [] then None
    else if apps[0].applicationId == id then Some(0)
    else match FindApplication(apps[1..], id)
      case None => None
      case Some(k) => Some(k + 1)
  }

  /** The three ways `handleDisburse` ends before or at its request. */
  datatype DisburseDecision =
    | NoSuchApplication        // the lookup yields undefined and reading its status throws
    | NotApproved              // the "must be approved" toast, no request
    | Disburse(url: string, amount: int)

  /** `handleDisburse` up to its POST. */
  function DisburseFor(apps: seq<LoanRecord>, id: string): (d: DisburseDecision)
    ensures d.NoSuchApplication? <==> forall i :: 0 <= i < |apps| ==> apps[i].applicationId != id
    ensures d.Disburse? ==> d.url == API + "/disbursements/disburse/" + id
  {
    match FindApplication(apps, id)
    case None => NoSuchApplication
    case Some(i) =>
      if apps[i].status != APPROVED then NotApproved
      else Disburse(API + "/disbursements/disburse/" + id, apps[i].loanAmount)
  }

  /** Money moves only for an APPROVED record, and the amount sent is the
      first matching record's own loan amount. */
  lemma DisburseGuard(apps: seq<LoanRecord>, id: string, i: nat)
    requires i < |apps| && apps[i].applicationId == id
    requires forall j :: 0 <= j < i ==> apps[j].applicationId != id
    ensures DisburseFor(apps, id).Disburse? <==> apps[i].status == APPROVED
    ensures DisburseFor(apps, id).NotApproved? <==> apps[i].status != APPROVED
    ensures DisburseFor(apps, id).Disburse? ==> DisburseFor(apps, id).amount == apps[i].loanAmount
  {
  }

  // ---------------------------------------------------------------------
  // Fetching the record list
  // ---------------------------------------------------------------------

  /** The cached user the page reads once; "" stands for a missing field. */
  datatype DashboardUser = DashboardUser(id: string, role: string, name: string)

  /** The records endpoint: every record for an admin, one user's otherwise. */
  function FetchEndpoint(user: DashboardUser): (url: string)
    ensures user.role == ChartsSection.ADMIN ==> url == API + "/loans/all"
    ensures user.role != ChartsSection.ADMIN ==> url == API + "/loans/user/" + user.id
  {
    if user.role == ChartsSection.ADMIN then API + "/loans/all" else API + "/loans/user/" + user.id
  }

  /** The admin endpoint and a non-admin's endpoint are never the same URL,
      whatever the non-admin's id. */
  lemma EndpointsDiffer(admin: DashboardUser, user: DashboardUser)
    requires admin.role == ChartsSection.ADMIN && user.role != ChartsSection.ADMIN
    ensures FetchEndpoint(admin) != FetchEndpoint(user)
  {
    var prefix := API + "/loans/";
    assert FetchEndpoint(admin)[|prefix|] == 'a';
    assert FetchEndpoint(user)[|prefix|] == 'u';
  }

  /** How the request for the record list settles. */
  datatype FetchResponse =
    | Records(list: seq<LoanRecord>)   // a JSON array
    | NotAList                         // any other body
    | Failed(message: string)          // an error; "" when the body has no message

  /** Which of its three screens the page renders. */
  datatype View = LoadingView | ErrorView(message: string) | MainView

  class DashboardPage {
    const user: DashboardUser
    var applications: seq<LoanRecord>
    var loading: bool
    var error: Option<string>

    /** The loading screen wins over the error screen, which wins over the dashboard. */
    function CurrentView(): (v: View)
      reads this
      ensures v == LoadingView <==> loading
      ensures v.ErrorView? <==> !loading && error.Some?
      ensures v.ErrorView? ==> v.message == error.value
      ensures v == MainView <==> !loading && error.None?
    {
      if loading then LoadingView
      else if error.Some? then ErrorView(error.value)
      else MainView
    }

    constructor(user: DashboardUser)
      ensures this.user == user
      ensures applications == [] && loading && error == None
    {
      this.user := user;
      applications := [];
      loading := true;
      error := None;
    }

    /** The mount effect: without an id or a role, show the session error and
        fetch nothing; otherwise start the fetch. */
    method Mount() returns (request: Option<string>)
      modifies this
      ensures user.id == "" || user.role == "" ==>
        request == None && error == Some(NOT_LOGGED_IN) && !loading && applications == old(applications)
      ensures user.id != "" && user.role != "" ==>
        request == Some(FetchEndpoint(user)) && loading && error == old(error) && applications == old(applications)
    {
      if user.id == "" || user.role == "" {
        error := Some(NOT_LOGGED_IN);
        loading := false;
        request := None;
      } else {
        var url := FetchApplications();
        request := Some(url);
      }
    }

    /** `fetchApplications` up to its request (also what Try Again runs). */
    method FetchApplications() returns (url: string)
      modifies this
      ensures url == FetchEndpoint(user)
      ensures loading && error == old(error) && applications == old(applications)
    {
      loading := true;
      url := FetchEndpoint(user);
    }

    /** The list the page keeps for a successful response. */
    static function Normalized(response: FetchResponse): (list: seq<LoanRecord>)
      requires !response.Failed?
      ensures response.NotAList? ==> list == []
      ensures response.Records? ==> list == response.list
    {
      if response.Records? then response.list else []
    }

    /** The message a failure shows. */
    static function FailureMessage(response: FetchResponse): (m: string)
      requires response.Failed?
      ensures response.message != "" ==> m == response.message
      ensures response.message == "" ==> m == LOAD_FAILED
    {
      if response.message != "" then response.message else LOAD_FAILED
    }

    /** `fetchApplications` as written: a success stores the normalised list
        but leaves any earlier error in place. */
    method FetchSettled(response: FetchResponse)
      modifies this
      ensures !loading
      ensures !response.Failed? ==> applications == Normalized(response) && error == old(error)
      ensures response.Failed? ==> applications == old(applications) && error == Some(FailureMessage(response))
    {
      if response.Failed? {
        error := Some(FailureMessage(response));
      } else {
        applications := Normalized(response);
      }
      loading := false;
    }

    /** `fetchApplications` as evidently intended: a success also clears the error. */
    method FetchSettledCorrected(response: FetchResponse)
      modifies this
      ensures !loading
      ensures !response.Failed? ==> applications == Normalized(response) && error == None
      ensures response.Failed? ==> applications == old(applications) && error == Some(FailureMessage(response))
    {
      if response.Failed? {
        error := Some(FailureMessage(response));
      } else {
        applications := Normalized(response);
        error := None;
      }
      loading := false;
    }
  }

  /** A first load fails, the user presses Try Again, and the retry succeeds:
      as written, the page still shows the error screen. */
  method RetryAfterFailureAsWritten(user: DashboardUser, records: seq<LoanRecord>) returns (view: View)
    requires user.id != "" && user.role != ""
    ensures view == ErrorView(LOAD_FAILED)
  {
    var page := new DashboardPage(user);
    var first := page.Mount();
    page.FetchSettled(Failed(""));
    var retry := page.FetchApplications();
    page.FetchSettled(Records(records));
    view := page.CurrentView();
  }

  /** The same sequence with the corrected settlement shows the dashboard. */
  method RetryAfterFailureCorrected(user: DashboardUser, records: seq<LoanRecord>) returns (view: View, shown: seq<LoanRecord>)
    requires user.id != "" && user.role != ""
    ensures view == MainView && shown == records
  {
    var page := new DashboardPage(user);
    var first := page.Mount();
    page.FetchSettledCorrected(Failed(""));
    var retry := page.FetchApplications();
    page.FetchSettledCorrected(Records(records));
    view := page.CurrentView();
    shown := page.applications;
  }

  // ---------------------------------------------------------------------
  // Wiring of the charts section
  // ---------------------------------------------------------------------

  /** The role and name props the charts section receives. */
  datatype ChartsProps = ChartsProps(userRole: Option<string>, userName: Option<string>)

  /** As written the page passes neither prop. */
  function ChartsPropsAsWired(user: DashboardUser): ChartsProps
  {
    ChartsProps(None, None)
  }

  /** Evidently intended: pass the signed-in user's role and name. */
  function ChartsPropsIntended(user: DashboardUser): ChartsProps
  {
    ChartsProps(Some(user.role), if user.name == "" then None else Some(user.name))
  }

  /** As wired, even an admin gets the user layout and the anonymous greeting. */
  lemma AdminChartsUnreachableAsWired(user: DashboardUser)
    ensures !ChartsSection.IsAdminView(ChartsPropsAsWired(user).userRole)
    ensures ChartsSection.Greeting(ChartsPropsAsWired(user).userName) == "Welcome!"
  {
  }

  /** With the props passed, the admin layout appears exactly for ADMIN and
      the greeting names the user when a name is cached. */
  lemma ChartsViewIntended(user: DashboardUser)
    ensures ChartsSection.IsAdminView(ChartsPropsIntended(user).userRole) <==> user.role == ChartsSection.ADMIN
    ensures user.name != "" ==> ChartsSection.Greeting(ChartsPropsIntended(user).userName) == "Welcome, " + user.name + "!"
  {
  }
}
