/**
 * The loan record the backend returns, the per-record keys and weights the
 * dashboard groups by, and keyed sums over a record list with the fact
 * that makes grouping lossless: summing the groups of a set of distinct
 * keys that covers every record gives the sum over all records.
 */
module LoanRecords {
  import opened JsSemantics

  const PENDING := "PENDING"
  const APPROVED := "APPROVED"
  const REJECTED := "REJECTED"
  const DISBURSED := "DISBURSED"
  const CLOSED := "CLOSED"

  /** A date field as `app.createdAt || app.applicationDate` and `new Date(...)`
      see it, with dates already split into their local year and month (1-12):
      - `Undefined`: absent, `undefined` or "": falsy, and an invalid date;
      - `Epoch`: `null` or 0: falsy, yet `new Date` of it is the epoch, whose
        local month (1970-01, or 1969-12 west of UTC) the record carries;
      - `Unparsable`: truthy but not a date;
      - `Parsed`: a truthy value that is a date. */
  datatype DateField = Undefined | Epoch(year: int, month: int) | Unparsable | Parsed(year: int, month: int)
  {
    /** Falsy values make `||` fall through to its right operand. */
    predicate Falsy() { Undefined? || Epoch? }

    /** `new Date(...)` of the value is a valid date. */
    predicate IsDate() { Epoch? || Parsed? }
  }

  datatype LoanRecord = LoanRecord(
    applicationId: string,
    name: string,
    purpose: string,
    loanAmount: int,
    creditScore: int,
    status: string,
    profession: string,
    createdAt: DateField,
    applicationDate: DateField)

  /** The labels the status chart and its summary cards use. */
  const PENDING_LABEL := "Pending"
  const APPROVED_LABEL := "Approved"
  const REJECTED_LABEL := "Rejected"
  const DISBURSED_LABEL := "Disbursed"

  /** One slice of the status chart. */
  datatype StatusEntry = StatusEntry(name: string, value: nat)

  /** One point of the monthly series. */
  datatype MonthBucket = MonthBucket(month: string, applications: nat, approved: nat)

  /** One bar of the purpose chart. */
  datatype PurposeEntry = PurposeEntry(purpose: string, amount: int)

  /** `app.createdAt || app.applicationDate`. */
  function DateOf(a: LoanRecord): (d: DateField)
    ensures !a.createdAt.Falsy() ==> d == a.createdAt
    ensures a.createdAt.Falsy() ==> d == a.applicationDate
  {
    if a.createdAt.Falsy() then a.applicationDate else a.createdAt
  }

  /** The `YYYY-MM` bucket of a record, from the date `DateOf` picks; an
      invalid date prints as "NaN-NaN". */
  function MonthKey(a: LoanRecord): (key: string)
    ensures key == "NaN-NaN" <==> !DateOf(a).IsDate()
  {
    var d := DateOf(a);
    if d.IsDate() then
      var year := IntToString(d.year);
      assert year[0] == '-' || IsDigit(year[0]);
      assert (year + "-" + PadStart2(IntToString(d.month)))[0] == year[0];
      year + "-" + PadStart2(IntToString(d.month))
    else "NaN-NaN"
  }

  function Status(a: LoanRecord): string { a.status }
  function Purpose(a: LoanRecord): string { a.purpose }
  function Amount(a: LoanRecord): int { a.loanAmount }
  function One(a: LoanRecord): int { 1 }

  /** The statuses the monthly series counts as approved. */
  predicate IsApproved(a: LoanRecord) { a.status == APPROVED || a.status == DISBURSED }

  function ApprovedFlag(a: LoanRecord): int { if IsApproved(a) then 1 else 0 }

  /** Sum of `w` over all records. */
  function Sum(apps: seq<LoanRecord>, w: LoanRecord -> int): int
  {
    if apps == [] then 0 else Sum(apps[..|apps| - 1], w) + w(apps[|apps| - 1])
  }

  /** Sum of `w` over the records whose key is `k`. */
  function KeyedSum<K(==)>(apps: seq<LoanRecord>, key: LoanRecord -> K, w: LoanRecord -> int, k: K): int
  {
    if apps == [] then 0
    else KeyedSum(apps[..|apps| - 1], key, w, k) + (if key(apps[|apps| - 1]) == k then w(apps[|apps| - 1]) else 0)
  }

  /** Extending a prefix by one record adds that record's weight to its own key only. */
  lemma KeyedSumStep<K>(apps: seq<LoanRecord>, i: nat, key: LoanRecord -> K, w: LoanRecord -> int, k: K)
    requires i < |apps|
    ensures KeyedSum(apps[..i + 1], key, w, k) ==
      KeyedSum(apps[..i], key, w, k) + (if key(apps[i]) == k then w(apps[i]) else 0)
  {
    assert apps[..i + 1][..i] == apps[..i];
  }

  lemma SumStep(apps: seq<LoanRecord>, i: nat, w: LoanRecord -> int)
    requires i < |apps|
    ensures Sum(apps[..i + 1], w) == Sum(apps[..i], w) + w(apps[i])
  {
    assert apps[..i + 1][..i] == apps[..i];
  }

  /** A keyed sum of non-negative weights is non-negative and at most the total. */
  lemma {:induction false} KeyedSumBounds<K>(apps: seq<LoanRecord>, key: LoanRecord -> K, w: LoanRecord -> int, k: K)
    requires forall a :: w(a) >= 0
    ensures 0 <= KeyedSum(apps, key, w, k) <= Sum(apps, w)
    decreases |apps|
  {
    if apps != [] {
      KeyedSumBounds(apps[..|apps| - 1], key, w, k);
    }
  }

  /** Counting approved records never exceeds counting all of them, key by key. */
  lemma {:induction false} ApprovedAtMostAll<K>(apps: seq<LoanRecord>, key: LoanRecord -> K, k: K)
    ensures 0 <= KeyedSum(apps, key, ApprovedFlag, k) <= KeyedSum(apps, key, One, k)
    decreases |apps|
  {
    if apps != [] {
      ApprovedAtMostAll(apps[..|apps| - 1], key, k);
    }
  }

  /** A key no record carries has an empty group. */
  lemma {:induction false} KeyedSumAbsent<K>(apps: seq<LoanRecord>, key: LoanRecord -> K, w: LoanRecord -> int, k: K)
    requires forall i :: 0 <= i < |apps| ==> key(apps[i]) != k
    ensures KeyedSum(apps, key, w, k) == 0
    decreases |apps|
  {
    if apps != [] {
      KeyedSumAbsent(apps[..|apps| - 1], key, w, k);
    }
  }

  predicate Distinct<K(==)>(s: seq<K>)
  {
    forall i, j :: 0 <= i < j < |s| ==> s[i] != s[j]
  }

  /** Appending a new element keeps a list free of repeats. */
  lemma DistinctSnoc<K>(s: seq<K>, x: K)
    requires Distinct(s) && x !in s
    ensures Distinct(s + [x])
  {
    var t := s + [x];
    forall i, j | 0 <= i < j < |t| ensures t[i] != t[j] {
      if j == |s| {
        assert t[i] == s[i];
      } else {
        assert t[i] == s[i] && t[j] == s[j];
      }
    }
  }

  /** The groups of `keys`, summed. */
  function SumOverKeys<K(==)>(keys: seq<K>, apps: seq<LoanRecord>, key: LoanRecord -> K, w: LoanRecord -> int): int
  {
    if keys == [] then 0 else KeyedSum(apps, key, w, keys[0]) + SumOverKeys(keys[1..], apps, key, w)
  }

  lemma {:induction false} SumOverKeysEmpty<K>(keys: seq<K>, key: LoanRecord -> K, w: LoanRecord -> int)
    ensures SumOverKeys(keys, [], key, w) == 0
    decreases |keys|
  {
    if keys != [] {
      SumOverKeysEmpty(keys[1..], key, w);
    }
  }

  /** Appending one record adds its weight once if its key is among the
      (distinct) keys, and not at all otherwise. */
  lemma {:induction false} SumOverKeysSnoc<K>(keys: seq<K>, apps: seq<LoanRecord>, a: LoanRecord,
                                                   key: LoanRecord -> K, w: LoanRecord -> int)
    requires Distinct(keys)
    ensures SumOverKeys(keys, apps + [a], key, w) ==
      SumOverKeys(keys, apps, key, w) + (if key(a) in keys then w(a) else 0)
    decreases |keys|
  {
    if keys != [] {
      assert (apps + [a])[..|apps + [a]| - 1] == apps;
      SumOverKeysSnoc(keys[1..], apps, a, key, w);
      if key(a) == keys[0] {
        assert key(a) !in keys[1..] by {
          forall j | 0 <= j < |keys[1..]| ensures keys[1..][j] != key(a) {
            assert keys[1..][j] == keys[j + 1];
          }
        }
      } else {
        assert key(a) in keys <==> key(a) in keys[1..] by {
          assert keys == [keys[0]] + keys[1..];
        }
      }
    }
  }

  /** Grouping loses nothing: over distinct keys covering every record, the
      group sums add up to the sum over all records. */
  lemma {:induction false} PartitionSum<K>(keys: seq<K>, apps: seq<LoanRecord>, key: LoanRecord -> K, w: LoanRecord -> int)
    requires Distinct(keys)
    requires forall i :: 0 <= i < |apps| ==> key(apps[i]) in keys
    ensures SumOverKeys(keys, apps, key, w) == Sum(apps, w)
    decreases |apps|
  {
    if apps == [] {
      SumOverKeysEmpty(keys, key, w);
    } else {
      var init := apps[..|apps| - 1];
      var a := apps[|apps| - 1];
      assert apps == init + [a];
      PartitionSum(keys, init, key, w);
      SumOverKeysSnoc(keys, init, a, key, w);
    }
  }
}
