/**
 * The placeholder credit score the loan form shows next to the PAN field:
 * a Java-style 31-multiplier rolling hash of the upper-cased PAN, kept in
 * signed 32-bit range, mapped into [300, 900].
 */
module CreditScore {
  import opened JsSemantics

  const MIN_SCORE: int := 300
  const MAX_SCORE: int := 900

  /** The hash of `s` after its characters have been folded in left to right,
      each step being h := wrap32(31 * h + code unit). */
  function RollingHash(s: string): (h: int)
    ensures -TWO_31 <= h < TWO_31
  {
    if s == [] then 0 else Wrap32(31 * RollingHash(s[..|s| - 1]) + s[|s| - 1] as int)
  }

  function Abs(x: int): (r: nat)
    ensures r == x || r == -x
  {
    if x < 0 then -x else x
  }

  /** What `hashCode` returns for `str`. */
  function PanHash(str: string): (r: nat)
    ensures r <= TWO_31
  {
    Abs(RollingHash(ToUpper(str)))
  }

  /** The source's loop body `((h << 5) - h + c) | 0` is the rolling-hash step:
      the shift wraps 32h to 32 bits, and wrapping twice loses nothing. */
  lemma ShiftStepIsRollingStep(h: int, c: int)
    ensures Wrap32(Wrap32(h * 32) - h + c) == Wrap32(31 * h + c)
  {
    var t := Wrap32(h * 32);
    assert (t - h + c) - (31 * h + c) == t - h * 32;
    Wrap32Congruent(t - h + c, 31 * h + c);
  }

  /** `hashCode`: upper-case the string, then fold it with shift-and-subtract. */
  method HashCode(str: string) returns (r: int)
    ensures r == PanHash(str)
    ensures 0 <= r <= TWO_31
  {
    var s := ToUpper(str);
    var hash := 0;
    var i := 0;
    while i < |s|
      invariant 0 <= i <= |s|
      invariant hash == RollingHash(s[..i])
    {
      ShiftStepIsRollingStep(hash, s[i] as int);
      assert s[..i + 1][..i] == s[..i];
      hash := Wrap32(Wrap32(hash * 32) - hash + s[i] as int);
      i := i + 1;
    }
    assert s[..i] == s;
    r := if hash < 0 then -hash else hash;
  }

  /** `getCreditScoreFromPan`: no score (the empty string) for a PAN shorter
      than five characters, otherwise 300 + hash mod 601. */
  function CreditScoreFromPan(pan: string): (r: Option<int>)
    ensures r.None? <==> |pan| < 5
    ensures r.Some? ==> MIN_SCORE <= r.value <= MAX_SCORE
    ensures r.Some? ==> r.value - MIN_SCORE == PanHash(pan) % 601
  {
    if |pan| < 5 then None else Some(MIN_SCORE + PanHash(pan) % 601)
  }

  /** The score ignores letter case: scoring a PAN and its upper-cased form agree. */
  lemma ScoreCaseInsensitive(pan: string)
    ensures CreditScoreFromPan(ToUpper(pan)) == CreditScoreFromPan(pan)
  {
    ToUpperIdempotent(pan);
  }

  /** Two PANs that upper-case to the same string get the same score. */
  lemma ScoreAgreesUpToCase(a: string, b: string)
    requires ToUpper(a) == ToUpper(b)
    ensures CreditScoreFromPan(a) == CreditScoreFromPan(b)
  {
    assert |a| == |ToUpper(a)| == |b|;
  }

  /** One more character folded into the hash. */
  lemma RollingHashSnoc(s: string, c: char)
    ensures RollingHash(s + [c]) == Wrap32(31 * RollingHash(s) + c as int)
  {
    assert (s + [c])[..|s|] == s;
  }

  /** The hash of one prefix determines the hash of the next. */
  lemma PrefixStep(s: string, k: nat, h: int, r: int)
    requires k < |s| && RollingHash(s[..k]) == h
    requires r == Wrap32(31 * h + s[k] as int)
    ensures RollingHash(s[..k + 1]) == r
  {
    assert s[..k + 1][..k] == s[..k];
  }

  /** The sample PAN's hash, prefix by prefix: first the five letters, */
  lemma SampleHashLetters(pan: string)
    requires pan == "ABCDE1234F"
    ensures RollingHash(pan[..5]) == 62061635
  {
    assert pan[..0] == [];
    PrefixStep(pan, 0, 0, 65);
    PrefixStep(pan, 1, 65, 2081);
    PrefixStep(pan, 2, 2081, 64578);
    PrefixStep(pan, 3, 64578, 2001986);
    PrefixStep(pan, 4, 2001986, 62061635);
  }

  /** then the first three digits, */
  lemma SampleHashDigits(pan: string)
    requires pan == "ABCDE1234F"
    ensures RollingHash(pan[..8]) == 2042279695
  {
    SampleHashLetters(pan);
    PrefixStep(pan, 5, 62061635, 1923910734);
    PrefixStep(pan, 6, 1923910734, -488309340);
    PrefixStep(pan, 7, -488309340, 2042279695);
  }

  /** then the last digit and the check letter. */
  lemma SampleHash(pan: string)
    requires pan == "ABCDE1234F"
    ensures RollingHash(pan) == -169265695
  {
    SampleHashDigits(pan);
    PrefixStep(pan, 8, 2042279695, -1113838843);
    PrefixStep(pan, 9, -1113838843, -169265695);
    assert pan[..10] == pan;
  }

  /** The sample PAN ABCDE1234F scores 355, */
  lemma SampleScore(pan: string)
    requires pan == "ABCDE1234F"
    ensures CreditScoreFromPan(pan) == Some(355)
  {
    SamplePanHash(pan);
  }

  lemma SamplePanHash(pan: string)
    requires pan == "ABCDE1234F"
    ensures PanHash(pan) == 169265695 && |pan| == 10
  {
    ToUpperIsUpper(pan);
    SampleHash(pan);
  }

  /** and so does its lower-case spelling. */
  lemma SampleScoreLowerCase(pan: string)
    requires pan == "abcde1234f"
    ensures CreditScoreFromPan(pan) == Some(355)
  {
    var upper := "ABCDE1234F";
    assert ToUpper(pan) == upper by {
      assert forall i :: 0 <= i < |pan| ==> ToUpper(pan)[i] == upper[i];
    }
    ToUpperIsUpper(upper);
    ScoreAgreesUpToCase(pan, upper);
    SampleScore(upper);
  }
}
