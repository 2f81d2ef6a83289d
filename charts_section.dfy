/**
 * What the charts section derives from the status and purpose series it is
 * handed: the total, the approved total, the approval rate, the top three
 * purposes by amount, the greeting, and the choice between the admin and
 * the user layout.
 */
module ChartsSection {
  import opened JsSemantics
  import opened LoanRecords

  const ADMIN := "ADMIN"

  /** `statusData.reduce((sum, s) => sum + s.value, 0)`. */
  function Total(sd: seq<StatusEntry>): (r: nat)
    ensures forall i :: 0 <= i < |sd| ==> sd[i].value <= r
    ensures r == 0 <==> forall i :: 0 <= i < |sd| ==> sd[i].value == 0
  {
    if sd == [] then 0 else sd[0].value + Total(sd[1..])
  }

  /** `statusData.find(s => s.name === name)?.value || 0`: the value of the
      first entry with that name, or 0 when there is none. */
  function ValueOf(sd: seq<StatusEntry>, name: string): (r: nat)
    ensures (forall i :: 0 <= i < |sd| ==> sd[i].name != name) ==> r == 0
    ensures forall i :: 0 <= i < |sd| && sd[i].name == name && (forall j :: 0 <= j < i ==> sd[j].name != name)
              ==> r == sd[i].value
  {
    if sd == [] then 0
    else if sd[0].name == name then sd[0].value
    else ValueOf(sd[1..], name)
  }

  /** Two different names are read from two different entries, so their
      values together never exceed the total. */
  lemma {:induction false} TwoValuesAtMostTotal(sd: seq<StatusEntry>, a: string, b: string)
    requires a != b
    ensures ValueOf(sd, a) + ValueOf(sd, b) <= Total(sd)
  {
    if sd != [] {
      if sd[0].name == a {
        ValueAtMostTotal(sd[1..], b);
      } else if sd[0].name == b {
        ValueAtMostTotal(sd[1..], a);
      } else {
        TwoValuesAtMostTotal(sd[1..], a, b);
      }
    }
  }

  lemma {:induction false} ValueAtMostTotal(sd: seq<StatusEntry>, name: string)
    ensures ValueOf(sd, name) <= Total(sd)
  {
    if sd != [] && sd[0].name != name {
      ValueAtMostTotal(sd[1..], name);
    }
  }

  /** Approved awaiting disbursal plus disbursed. */
  function TotalApproved(sd: seq<StatusEntry>): (r: nat)
    ensures r <= Total(sd)
  {
    TwoValuesAtMostTotal(sd, APPROVED_LABEL, DISBURSED_LABEL);
    ValueOf(sd, APPROVED_LABEL) + ValueOf(sd, DISBURSED_LABEL)
  }

  /** The Pending card: the Pending slice, or 0 when the chart has none. */
  function Pending(sd: seq<StatusEntry>): (r: nat)
    ensures r <= Total(sd)
    ensures (forall i :: 0 <= i < |sd| ==> sd[i].name != PENDING_LABEL) ==> r == 0
  {
    ValueAtMostTotal(sd, PENDING_LABEL);
    ValueOf(sd, PENDING_LABEL)
  }

  /** The Rejected card: the Rejected slice, or 0 when the chart has none. */
  function Rejected(sd: seq<StatusEntry>): (r: nat)
    ensures r <= Total(sd)
    ensures (forall i :: 0 <= i < |sd| ==> sd[i].name != REJECTED_LABEL) ==> r == 0
  {
    ValueAtMostTotal(sd, REJECTED_LABEL);
    ValueOf(sd, REJECTED_LABEL)
  }

  /** `total ? Math.round(totalApproved / total * 100) : 0`, in integers:
      the percentage rounded half up. */
  function ApprovalRate(totalApproved: nat, total: nat): (r: nat)
    ensures total == 0 ==> r == 0
    ensures total > 0 ==> 2 * r * total <= 200 * totalApproved + total < 2 * (r + 1) * total
  {
    if total == 0 then 0
    else
      var n, d := 200 * totalApproved + total, 2 * total;
      assert d * (n / d) <= n < d * (n / d) + d;
      n / d
  }

  /** The rate is a percentage whenever the approved count is part of the total. */
  lemma ApprovalRateBounds(totalApproved: nat, total: nat)
    requires totalApproved <= total
    ensures ApprovalRate(totalApproved, total) <= 100
  {
    var r := ApprovalRate(totalApproved, total);
    if total > 0 && r > 100 {
      MulMonotone(101, r, 2 * total);
      assert false;
    }
  }

  lemma MulMonotone(a: nat, b: nat, c: nat)
    requires a <= b
    ensures a * c <= b * c
  {
  }

  /** The rate the section shows for a status series lies in [0, 100]. */
  lemma ChartRateBounds(sd: seq<StatusEntry>)
    ensures ApprovalRate(TotalApproved(sd), Total(sd)) <= 100
  {
    ApprovalRateBounds(TotalApproved(sd), Total(sd));
  }

  /** Two approvals out of three show as 67 percent. */
  lemma TwoOfThree()
    ensures ApprovalRate(2, 3) == 67
  {
    assert 2 * 67 * 3 <= 200 * 2 + 3 < 2 * 68 * 3;
  }

  /** Exactly half rounds up. */
  lemma HalfRoundsUp()
    ensures ApprovalRate(1, 200) == 1
  {
  }

  predicate SortedByAmountDesc(s: seq<PurposeEntry>)
  {
    forall i, j :: 0 <= i < j < |s| ==> s[j].amount <= s[i].amount
  }

  /** Insert `e` before the first entry it is not smaller than, so that it
      stays ahead of later entries with the same amount. */
  function InsertDesc(e: PurposeEntry, s: seq<PurposeEntry>): (r: seq<PurposeEntry>)
    ensures multiset(r) == multiset(s) + multiset{e}
  {
    if s == [] then [e]
    else if e.amount >= s[0].amount then [e] + s
    else
      assert s == [s[0]] + s[1..];
      [s[0]] + InsertDesc(e, s[1..])
  }

  lemma {:induction false} InsertDescSorted(e: PurposeEntry, s: seq<PurposeEntry>)
    requires SortedByAmountDesc(s)
    ensures SortedByAmountDesc(InsertDesc(e, s))
  {
    if s != [] && e.amount < s[0].amount {
      var rest := InsertDesc(e, s[1..]);
      InsertDescSorted(e, s[1..]);
      assert multiset(rest) == multiset(s[1..]) + multiset{e};
      forall j | 0 <= j < |rest| ensures rest[j].amount <= s[0].amount {
        assert rest[j] in multiset(rest);
        if rest[j] != e {
          assert rest[j] in multiset(s[1..]);
          var k :| 0 <= k < |s[1..]| && s[1..][k] == rest[j];
          assert s[k + 1] == rest[j];
        }
      }
    }
  }

  /** The descending sort `sort((a, b) => b.amount - a.amount)`. */
  function SortDesc(s: seq<PurposeEntry>): (r: seq<PurposeEntry>)
    ensures multiset(r) == multiset(s)
    ensures SortedByAmountDesc(r)
  {
    if s == [] then []
    else
      assert s == [s[0]] + s[1..];
      InsertDescSorted(s[0], SortDesc(s[1..]));
      InsertDesc(s[0], SortDesc(s[1..]))
  }

  /** Everything past the first `k` entries of a descending list is at most
      every entry before it. */
  lemma SortedSplit(s: seq<PurposeEntry>, k: nat)
    requires SortedByAmountDesc(s) && k <= |s|
    ensures forall x, y :: x in s[k..] && y in s[..k] ==> x.amount <= y.amount
  {
    forall x, y | x in s[k..] && y in s[..k]
      ensures x.amount <= y.amount
    {
      var i :| 0 <= i < k && s[..k][i] == y;
      var j :| 0 <= j < |s[k..]| && s[k..][j] == x;
      assert s[k + j] == x && s[i] == y;
    }
  }

  /** The three largest purposes by amount, largest first. */
  function TopPurposes(pd: seq<PurposeEntry>): (r: seq<PurposeEntry>)
    ensures |r| == if |pd| < 3 then |pd| else 3
    ensures SortedByAmountDesc(r)
    ensures multiset(r) <= multiset(pd)
    ensures forall x, y :: x in multiset(pd) - multiset(r) && y in r ==> x.amount <= y.amount
  {
    var s := SortDesc(pd);
    var k := if |s| < 3 then |s| else 3;
    SortedPrefixIsTop(pd, s, k);
    s[..k]
  }

  /** A prefix of a descending arrangement of `pd` holds its largest entries. */
  lemma SortedPrefixIsTop(pd: seq<PurposeEntry>, s: seq<PurposeEntry>, k: nat)
    requires multiset(s) == multiset(pd) && SortedByAmountDesc(s) && k <= |s|
    ensures |s| == |pd|
    ensures SortedByAmountDesc(s[..k])
    ensures multiset(s[..k]) <= multiset(pd)
    ensures forall x, y :: x in multiset(pd) - multiset(s[..k]) && y in s[..k] ==> x.amount <= y.amount
  {
    assert |s| == |multiset(s)| == |multiset(pd)| == |pd|;
    assert s == s[..k] + s[k..];
    assert multiset(pd) - multiset(s[..k]) == multiset(s[k..]);
    SortedSplit(s, k);
  }

  /** `userName ? "Welcome, <name>!" : "Welcome!"`. */
  function Greeting(userName: Option<string>): (g: string)
    ensures userName.Some? && userName.value != [] ==> g == "Welcome, " + userName.value + "!"
    ensures userName.None? || userName.value == [] ==> g == "Welcome!"
  {
    if userName.Some? && userName.value != [] then "Welcome, " + userName.value + "!" else "Welcome!"
  }

  /** The admin layout is chosen by an exact, case-sensitive comparison. */
  predicate IsAdminView(userRole: Option<string>): (b: bool)
    ensures userRole.Some? && userRole.value != ADMIN && ToUpper(userRole.value) == ADMIN ==> !b
  {
    userRole == Some(ADMIN)
  }

  lemma AdminViewExact(role: string)
    ensures IsAdminView(Some(role)) <==> role == ADMIN
    ensures !IsAdminView(None)
    ensures !IsAdminView(Some("admin"))
  {
    assert "admin"[0] != ADMIN[0];
  }
}
