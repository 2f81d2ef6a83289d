/**
 * The loan-application wizard: four stages (Personal Info, Loan Details,
 * Documents, Review & Submit), a validator per stage that reports the
 * first broken rule, field and file-slot editing, Next/Back navigation and
 * the submit gate that packages the multipart payload.
 */
module LoanApplication {
  import opened JsSemantics

  const STEPS: seq<string> := ["Personal Info", "Loan Details", "Documents", "Review & Submit"]
  const LAST_STEP: int := |STEPS| - 1

  /** The options the form's drop-downs offer. Validation never consults them. */
  const PROFESSIONS: seq<string> := ["Software Engineer", "Doctor", "Teacher", "Accountant",
    "Entrepreneur", "Government Employee", "Lawyer", "Other"]
  const LOAN_PURPOSES: seq<string> := ["Home Purchase", "Car Purchase", "Education", "Business",
    "Medical Expenses", "Debt Consolidation", "Personal Use"]
  const LOAN_TENURES: seq<int> := [12, 24, 36, 48, 60, 72, 84, 96, 108, 120]

  const MIN_LOAN_AMOUNT: int := 1000

  const NAME_REQUIRED := "Name is required"
  const PROFESSION_REQUIRED := "Profession is required"
  const PURPOSE_REQUIRED := "Purpose is required"
  const AMOUNT_TOO_LOW := "Loan amount must be at least ₹1,000"
  const PAN_REQUIRED := "PAN card is required"
  const PAN_INVALID := "Enter a valid PAN card (e.g. ABCDE1234F)"
  const TENURE_REQUIRED := "Please select a loan tenure"
  const PF_REQUIRED := "PF Account Statement PDF is required"
  const SLIP_REQUIRED := "Salary Slip PDF is required"
  const LOGIN_REQUIRED := "Please log in to apply for a loan"
  const SUBMIT_OK := "Application submitted successfully!"
  const SUBMIT_FAILED := "Application failed"

  /** The six text fields of the form, all kept as the strings the inputs hold. */
  datatype FormData = FormData(name: string, profession: string, purpose: string,
                               loanAmount: string, panCard: string, tenureInMonths: string)

  datatype Field = Name | Profession | Purpose | LoanAmount | PanCard | TenureInMonths

  const EMPTY_FORM: FormData := FormData("", "", "", "", "", "")

  function Get(f: FormData, field: Field): string
  {
    match field
    case Name => f.name
    case Profession => f.profession
    case Purpose => f.purpose
    case LoanAmount => f.loanAmount
    case PanCard => f.panCard
    case TenureInMonths => f.tenureInMonths
  }

  /** `{ ...formData, [name]: value }`: one field replaced, the others kept. */
  function Set(f: FormData, field: Field, v: string): (r: FormData)
    ensures Get(r, field) == v
    ensures forall other :: other != field ==> Get(r, other) == Get(f, other)
  {
    match field
    case Name => f.(name := v)
    case Profession => f.(profession := v)
    case Purpose => f.(purpose := v)
    case LoanAmount => f.(loanAmount := v)
    case PanCard => f.(panCard := v)
    case TenureInMonths => f.(tenureInMonths := v)
  }

  /** A browser `File`: its name and its size in bytes. */
  datatype FileRef = FileRef(fileName: string, size: nat)

  datatype FileSlot = PfAccountPdf | SalarySlip

  datatype Files = Files(pfAccountPdf: Option<FileRef>, salarySlip: Option<FileRef>)

  const NO_FILES: Files := Files(None, None)

  function GetFile(fs: Files, slot: FileSlot): Option<FileRef>
  {
    match slot
    case PfAccountPdf => fs.pfAccountPdf
    case SalarySlip => fs.salarySlip
  }

  function SetFile(fs: Files, slot: FileSlot, v: Option<FileRef>): (r: Files)
    ensures GetFile(r, slot) == v
    ensures forall other :: other != slot ==> GetFile(r, other) == GetFile(fs, other)
  {
    match slot
    case PfAccountPdf => fs.(pfAccountPdf := v)
    case SalarySlip => fs.(salarySlip := v)
  }

  /** `/^[A-Z]{5}[0-9]{4}[A-Z]$/`: five capitals, four digits, one capital.
      A matching PAN has no lower-case letter and no white space at either
      end, so upper-casing and trimming leave it as it is. */
  predicate MatchesPan(s: string): (m: bool)
    ensures m ==> AllUpper(s) && ToUpper(s) == s && Trim(s) == s
  {
    if && |s| == 10
       && (forall i :: 0 <= i < 5 ==> IsUpper(s[i]))
       && (forall i :: 5 <= i < 9 ==> IsDigit(s[i]))
       && IsUpper(s[9])
    then
      PanIsTrimmedUpper(s);
      true
    else
      false
  }

  lemma PanIsTrimmedUpper(s: string)
    requires |s| == 10 && IsUpper(s[0]) && IsUpper(s[9])
    requires forall i :: 0 <= i < 9 ==> IsUpper(s[i]) || IsDigit(s[i])
    ensures AllUpper(s) && ToUpper(s) == s && Trim(s) == s
  {
    assert AllUpper(s) by {
      forall i | 0 <= i < |s| ensures !IsLower(s[i]) {
        if i < 9 { assert IsUpper(s[i]) || IsDigit(s[i]); }
      }
    }
    ToUpperIsUpper(s);
    assert !IsWhitespace(s[0]) && !IsWhitespace(s[9]);
    TrimOfTrimmed(s);
  }

  predicate AllDigits(s: string) { forall i :: 0 <= i < |s| ==> IsDigit(s[i]) }

  /** The value of a string of decimal digits. */
  function DigitsValue(d: string): nat
    requires AllDigits(d)
  {
    if d == [] then 0 else 10 * DigitsValue(d[..|d| - 1]) + (d[|d| - 1] as int - '0' as int)
  }

  /** `Number(s)` on the inputs this form meets: surrounding white space is
      ignored, blank is 0, an optionally signed run of digits is its value,
      anything else is NaN (`None`). */
  function ParseNumber(s: string): (r: Option<int>)
    ensures Trim(s) == [] ==> r == Some(0)
    ensures AllDigits(Trim(s)) ==> r == Some(DigitsValue(Trim(s)))
    ensures SignedDigits(Trim(s)) && Trim(s)[0] == '-' ==> r == Some(0 - DigitsValue(Trim(s)[1..]))
    ensures SignedDigits(Trim(s)) && Trim(s)[0] == '+' ==> r == Some(DigitsValue(Trim(s)[1..]))
    ensures r.None? <==> !AllDigits(Trim(s)) && !SignedDigits(Trim(s))
  {
    ParseTrimmed(Trim(s))
  }

  /** `Number` on a string with no white space at its ends. */
  function ParseTrimmed(t: string): (r: Option<int>)
    ensures t == [] ==> r == Some(0)
    ensures AllDigits(t) ==> r == Some(DigitsValue(t))
    ensures SignedDigits(t) && t[0] == '-' ==> r == Some(0 - DigitsValue(t[1..]))
    ensures SignedDigits(t) && t[0] == '+' ==> r == Some(DigitsValue(t[1..]))
    ensures r.None? <==> !AllDigits(t) && !SignedDigits(t)
  {
    if t == [] then Some(0)
    else if AllDigits(t) then Some(DigitsValue(t))
    else if |t| > 1 && t[0] == '-' && AllDigits(t[1..]) then Some(0 - DigitsValue(t[1..]) as int)
    else if |t| > 1 && t[0] == '+' && AllDigits(t[1..]) then Some(DigitsValue(t[1..]))
    else None
  }

  /** A sign followed by at least one digit. */
  predicate SignedDigits(t: string)
  {
    |t| > 1 && (t[0] == '-' || t[0] == '+') && AllDigits(t[1..])
  }

  lemma {:induction false} DigitsValueOfNat(n: nat)
    ensures AllDigits(NatToString(n)) && DigitsValue(NatToString(n)) == n
  {
    var s := NatToString(n);
    if n >= 10 {
      DigitsValueOfNat(n / 10);
      assert s[..|s| - 1] == NatToString(n / 10);
    }
  }

  lemma TrimNoWhitespace(s: string)
    requires forall i :: 0 <= i < |s| ==> !IsWhitespace(s[i])
    ensures Trim(s) == s
  {
  }

  /** Parsing the decimal rendering of a natural number gives the number back. */
  lemma ParseNumberOfNat(n: nat)
    ensures ParseNumber(NatToString(n)) == Some(n)
  {
    var s := NatToString(n);
    TrimNoWhitespace(s);
    DigitsValueOfNat(n);
  }

  /** The amount rule: empty, not a number, or below 1000. */
  predicate AmountRuleFails(amount: string)
  {
    amount == "" || ParseNumber(amount).None? || ParseNumber(amount).value < MIN_LOAN_AMOUNT
  }

  /** An amount with a letter in it is not a number and fails the amount rule. */
  lemma NonNumericAmountFails()
    ensures ParseNumber("12a").None? && AmountRuleFails("12a")
  {
    TrimNoWhitespace("12a");
    assert !IsDigit("12a"[2]) && !SignedDigits("12a");
  }

  /** A bare sign is not a number and fails the amount rule. */
  lemma BareSignFails()
    ensures ParseNumber("-").None? && AmountRuleFails("-")
  {
    TrimNoWhitespace("-");
    assert !IsDigit("-"[0]);
  }

  /** A negative amount parses, and fails the amount rule as too low. */
  lemma NegativeAmountFails()
    ensures ParseNumber("-5000") == Some(-5000) && AmountRuleFails("-5000")
  {
    TrimNoWhitespace("-5000");
    assert !IsDigit("-5000"[0]);
    assert "-5000"[1..] == "5000";
    assert DigitsValue("5000") == 5000 by {
      assert "5000"[..3] == "500" && "500"[..2] == "50" && "50"[..1] == "5" && "5"[..0] == "";
    }
  }

  /** "500" is refused by the amount rule and "1000" is accepted. */
  lemma AmountThreshold()
    ensures AmountRuleFails("500")
    ensures !AmountRuleFails("1000")
  {
    assert NatToString(500) == "500" by {
      assert NatToString(50) == "50" by { assert NatToString(5) == "5"; }
    }
    assert NatToString(1000) == "1000" by {
      assert NatToString(100) == "100" by {
        assert NatToString(10) == "10" by { assert NatToString(1) == "1"; }
      }
    }
    ParseNumberOfNat(500);
    ParseNumberOfNat(1000);
  }

  /** One validation rule: whether it holds, and the message shown when it does not. */
  datatype Rule = Rule(holds: bool, message: string)

  /** The rules of each stage, in the order they are checked. */
  function Rules(step: int, f: FormData, fs: Files): seq<Rule>
  {
    if step == 0 then
      [Rule(Trim(f.name) != "", NAME_REQUIRED),
       Rule(f.profession != "", PROFESSION_REQUIRED)]
    else if step == 1 then
      [Rule(f.purpose != "", PURPOSE_REQUIRED),
       Rule(!AmountRuleFails(f.loanAmount), AMOUNT_TOO_LOW),
       Rule(Trim(f.panCard) != "", PAN_REQUIRED),
       Rule(MatchesPan(f.panCard), PAN_INVALID),
       Rule(f.tenureInMonths != "", TENURE_REQUIRED)]
    else if step == 2 then
      [Rule(fs.pfAccountPdf.Some?, PF_REQUIRED),
       Rule(fs.salarySlip.Some?, SLIP_REQUIRED)]
    else []
  }

  /** The message of the first rule that fails, or "" when all hold. */
  function FirstFailure(rules: seq<Rule>): (r: string)
  {
    if rules == [] then "" else if !rules[0].holds then rules[0].message else FirstFailure(rules[1..])
  }

  /** FirstFailure is "" exactly when every rule holds (all messages being non-empty). */
  lemma {:induction false} FirstFailureEmptyIff(rules: seq<Rule>)
    requires forall i :: 0 <= i < |rules| ==> rules[i].message != ""
    ensures FirstFailure(rules) == "" <==> forall i :: 0 <= i < |rules| ==> rules[i].holds
  {
    if rules != [] && rules[0].holds {
      FirstFailureEmptyIff(rules[1..]);
      assert forall i :: 1 <= i < |rules| ==> rules[i] == rules[1..][i - 1];
    }
  }

  /** A non-empty FirstFailure is the message of a failing rule all of whose
      predecessors hold. */
  lemma {:induction false} FirstFailureIsFirst(rules: seq<Rule>)
    requires FirstFailure(rules) != ""
    ensures exists k :: (0 <= k < |rules| && !rules[k].holds && rules[k].message == FirstFailure(rules)
                         && forall i :: 0 <= i < k ==> rules[i].holds)
  {
    if rules[0].holds {
      FirstFailureIsFirst(rules[1..]);
      var k :| 0 <= k < |rules[1..]| && !rules[1..][k].holds
        && rules[1..][k].message == FirstFailure(rules[1..])
        && forall i :: 0 <= i < k ==> rules[1..][i].holds;
      assert forall i :: 1 <= i < k + 1 ==> rules[i] == rules[1..][i - 1];
      assert !rules[k + 1].holds && rules[k + 1].message == FirstFailure(rules);
    }
  }

  /** `validateStep`: the first failing rule's message for the given stage,
      or "" when the stage passes. The Review stage has no rule. */
  function ValidateStep(step: int, f: FormData, fs: Files): (r: string)
    ensures step == LAST_STEP ==> r == ""
    ensures step == 2 ==> (r == "" <==> fs.pfAccountPdf.Some? && fs.salarySlip.Some?)
  {
    if step == 0 then
      if Trim(f.name) == "" then NAME_REQUIRED
      else if f.profession == "" then PROFESSION_REQUIRED
      else ""
    else if step == 1 then
      if f.purpose == "" then PURPOSE_REQUIRED
      else if AmountRuleFails(f.loanAmount) then AMOUNT_TOO_LOW
      else if Trim(f.panCard) == "" then PAN_REQUIRED
      else if !MatchesPan(f.panCard) then PAN_INVALID
      else if f.tenureInMonths == "" then TENURE_REQUIRED
      else ""
    else if step == 2 then
      if fs.pfAccountPdf.None? then PF_REQUIRED
      else if fs.salarySlip.None? then SLIP_REQUIRED
      else ""
    else ""
  }

  /** The early-return chain of `validateStep` reports exactly the first
      failing rule of the stage's rule table. */
  lemma ValidateStepFollowsRules(step: int, f: FormData, fs: Files)
    ensures ValidateStep(step, f, fs) == FirstFailure(Rules(step, f, fs))
  {
    if step == 1 {
      LoanStepFollowsRules(f, fs);
    } else if step == 0 || step == 2 {
      var rs := Rules(step, f, fs);
      assert FirstFailure(rs[1..]) == if !rs[1].holds then rs[1].message else "";
    }
  }

  /** The loan-details stage checks its five rules in order. */
  lemma LoanStepFollowsRules(f: FormData, fs: Files)
    ensures ValidateStep(1, f, fs) == FirstFailure(Rules(1, f, fs))
  {
    var rs := Rules(1, f, fs);
    FirstFailureOfFive(rs[0], rs[1], rs[2], rs[3], rs[4]);
    assert rs == [rs[0], rs[1], rs[2], rs[3], rs[4]];
  }

  /** Over five rules, FirstFailure is the chain of early returns. */
  lemma FirstFailureOfFive(r0: Rule, r1: Rule, r2: Rule, r3: Rule, r4: Rule)
    ensures FirstFailure([r0, r1, r2, r3, r4]) ==
      if !r0.holds then r0.message
      else if !r1.holds then r1.message
      else if !r2.holds then r2.message
      else if !r3.holds then r3.message
      else if !r4.holds then r4.message
      else ""
  {
    assert FirstFailure([r4]) == if !r4.holds then r4.message else "" by {
      assert [r4][1..] == [];
    }
    assert FirstFailure([r3, r4]) == if !r3.holds then r3.message else FirstFailure([r4]) by {
      assert [r3, r4][1..] == [r4];
    }
    assert FirstFailure([r2, r3, r4]) == if !r2.holds then r2.message else FirstFailure([r3, r4]) by {
      assert [r2, r3, r4][1..] == [r3, r4];
    }
    assert FirstFailure([r1, r2, r3, r4]) ==
      if !r1.holds then r1.message else FirstFailure([r2, r3, r4]) by {
      assert [r1, r2, r3, r4][1..] == [r2, r3, r4];
    }
    assert [r0, r1, r2, r3, r4][1..] == [r1, r2, r3, r4];
  }

  /** A stage passes exactly when every one of its rules holds. */
  lemma ValidateStepPasses(step: int, f: FormData, fs: Files)
    ensures ValidateStep(step, f, fs) == "" <==>
      forall i :: 0 <= i < |Rules(step, f, fs)| ==> Rules(step, f, fs)[i].holds
  {
    ValidateStepFollowsRules(step, f, fs);
    FirstFailureEmptyIff(Rules(step, f, fs));
  }

  /** Stage 0 fails on a blank name first, then on an empty profession; any
      non-empty profession passes, listed among PROFESSIONS or not. */
  lemma PersonalInfoRules(f: FormData, fs: Files)
    ensures (forall i :: 0 <= i < |f.name| ==> IsWhitespace(f.name[i])) ==>
      ValidateStep(0, f, fs) == NAME_REQUIRED
    ensures Trim(f.name) != "" && f.profession == "" ==> ValidateStep(0, f, fs) == PROFESSION_REQUIRED
    ensures Trim(f.name) != "" && f.profession != "" ==> ValidateStep(0, f, fs) == ""
  {
    TrimEmptyIff(f.name);
  }

  /** A profession no drop-down offers still passes stage 0. */
  lemma UnlistedChoicesPass(f: FormData, fs: Files)
    requires f.name == "Ann" && f.profession == "Astronaut"
    ensures ValidateStep(0, f, fs) == ""
    ensures f.profession !in PROFESSIONS
  {
    NamedApplicantPasses(f, fs);
    AstronautUnlisted(f.profession);
  }

  lemma NamedApplicantPasses(f: FormData, fs: Files)
    requires f.name == "Ann" && f.profession != ""
    ensures ValidateStep(0, f, fs) == ""
  {
    assert Trim(f.name) != "" by {
      TrimEmptyIff(f.name);
      assert !IsWhitespace(f.name[0]);
    }
    PersonalInfoRules(f, fs);
  }

  lemma AstronautUnlisted(p: string)
    requires p == "Astronaut"
    ensures p !in PROFESSIONS
  {
    forall i | 0 <= i < |PROFESSIONS| ensures PROFESSIONS[i] != p {
      if i == 3 {
        assert |PROFESSIONS[i]| != |p|;
      } else {
        assert PROFESSIONS[i][0] != p[0];
      }
    }
  }

  /** One part of the multipart body: a text value or a file. */
  datatype Part = Text(text: string) | Blob(file: FileRef)

  function FieldKey(field: Field): string
  {
    match field
    case Name => "name"
    case Profession => "profession"
    case Purpose => "purpose"
    case LoanAmount => "loanAmount"
    case PanCard => "panCard"
    case TenureInMonths => "tenureInMonths"
  }

  function SlotKey(slot: FileSlot): string
  {
    match slot
    case PfAccountPdf => "pfAccountPdf"
    case SalarySlip => "salarySlip"
  }

  function FilePart(slot: FileSlot, file: Option<FileRef>): seq<(string, Part)>
  {
    if file.Some? then [(SlotKey(slot), Blob(file.value))] else []
  }

  /** The `FormData` body `handleSubmit` builds: the six fields in declaration
      order, the user id, then each attached file. */
  function BuildPayload(f: FormData, userId: string, fs: Files): (p: seq<(string, Part)>)
    ensures 7 <= |p| <= 9
  {
    [(FieldKey(Name), Text(f.name)), (FieldKey(Profession), Text(f.profession)),
     (FieldKey(Purpose), Text(f.purpose)), (FieldKey(LoanAmount), Text(f.loanAmount)),
     (FieldKey(PanCard), Text(f.panCard)), (FieldKey(TenureInMonths), Text(f.tenureInMonths)),
     ("userId", Text(userId))]
    + FilePart(PfAccountPdf, fs.pfAccountPdf) + FilePart(SalarySlip, fs.salarySlip)
  }

  /** What the server reads under `key`: the first part with that name. */
  function Lookup(p: seq<(string, Part)>, key: string): (r: Option<Part>)
    ensures r.Some? ==> exists i :: 0 <= i < |p| && p[i] == (key, r.value)
    ensures r.None? ==> forall i :: 0 <= i < |p| ==> p[i].0 != key
  {
    if p == [] then None else if p[0].0 == key then Some(p[0].1) else Lookup(p[1..], key)
  }

  /** Lookup finds the first part under a key. */
  lemma {:induction false} LookupFirst(p: seq<(string, Part)>, key: string, k: nat)
    requires k < |p| && p[k].0 == key
    requires forall j :: 0 <= j < k ==> p[j].0 != key
    ensures Lookup(p, key) == Some(p[k].1)
    decreases k
  {
    if k > 0 {
      LookupFirst(p[1..], key, k - 1);
    }
  }

  /** Reading the payload back gives every form field under its own name, */
  lemma PayloadFields(f: FormData, userId: string, fs: Files, field: Field)
    ensures Lookup(BuildPayload(f, userId, fs), FieldKey(field)) == Some(Text(Get(f, field)))
  {
    var p := BuildPayload(f, userId, fs);
    match field
    case Name => LookupFirst(p, "name", 0);
    case Profession => LookupFirst(p, "profession", 1);
    case Purpose => LookupFirst(p, "purpose", 2);
    case LoanAmount => LookupFirst(p, "loanAmount", 3);
    case PanCard => LookupFirst(p, "panCard", 4);
    case TenureInMonths => LookupFirst(p, "tenureInMonths", 5);
  }

  /** the submitting user's id, */
  lemma PayloadUserId(f: FormData, userId: string, fs: Files)
    ensures Lookup(BuildPayload(f, userId, fs), "userId") == Some(Text(userId))
  {
    LookupFirst(BuildPayload(f, userId, fs), "userId", 6);
  }

  /** and exactly the attached files. */
  lemma PayloadFiles(f: FormData, userId: string, fs: Files, slot: FileSlot)
    ensures Lookup(BuildPayload(f, userId, fs), SlotKey(slot)) ==
      if GetFile(fs, slot).Some? then Some(Blob(GetFile(fs, slot).value)) else None
  {
    var p := BuildPayload(f, userId, fs);
    if slot == PfAccountPdf && fs.pfAccountPdf.Some? {
      LookupFirst(p, SlotKey(slot), 7);
    } else if slot == SalarySlip && fs.salarySlip.Some? {
      LookupFirst(p, SlotKey(slot), |p| - 1);
    }
  }

  /** How the pending request ended. */
  datatype SubmitOutcome = Accepted | Refused(serverMessage: string)

  /** The wizard's state slots. `userId` is the id of the cached profile read
      when the page rendered ("" when there is none). */
  class LoanWizard {
    var step: int
    var formData: FormData
    var files: Files
    var error: string
    var loading: bool
    var success: string
    var showDetails: bool
    const userId: string

    /** The stage index stays within the four stages, and the PAN is kept upper-cased. */
    predicate Valid()
      reads this
    {
      0 <= step <= LAST_STEP && AllUpper(formData.panCard)
    }

    constructor (userId: string)
      ensures Valid()
      ensures step == 0 && formData == EMPTY_FORM && files == NO_FILES
      ensures error == "" && !loading && success == "" && !showDetails
      ensures this.userId == userId
    {
      step := 0;
      formData := EMPTY_FORM;
      files := NO_FILES;
      error := "";
      loading := false;
      success := "";
      showDetails := false;
      this.userId := userId;
    }

    /** `handleChange`: store the typed value, upper-casing the PAN. */
    method HandleChange(field: Field, value: string)
      requires Valid()
      modifies this`formData
      ensures Valid()
      ensures Get(formData, field) == if field == PanCard then ToUpper(value) else value
      ensures forall other :: other != field ==> Get(formData, other) == Get(old(formData), other)
    {
      var v := if field == PanCard then ToUpper(value) else value;
      ToUpperIsUpper(value);
      formData := Set(formData, field, v);
    }

    /** `handleFileChange`: take the first selected file; an empty selection changes nothing. */
    method HandleFileChange(slot: FileSlot, selected: seq<FileRef>)
      modifies this`files
      ensures selected == [] ==> files == old(files)
      ensures selected != [] ==> GetFile(files, slot) == Some(selected[0])
      ensures forall other :: other != slot ==> GetFile(files, other) == GetFile(old(files), other)
    {
      if selected != [] {
        files := SetFile(files, slot, Some(selected[0]));
      }
    }

    /** `removeFile`: empty the named slot only. */
    method RemoveFile(slot: FileSlot)
      modifies this`files
      ensures GetFile(files, slot) == None
      ensures forall other :: other != slot ==> GetFile(files, other) == GetFile(old(files), other)
    {
      files := SetFile(files, slot, None);
    }

    /** The info button flips the stage-details panel. */
    method ToggleDetails()
      modifies this`showDetails
      ensures showDetails == !old(showDetails)
    {
      showDetails := !showDetails;
    }

    /** `handleNext`, reachable from the Next button (shown before the last
        stage, disabled while a submission is pending). */
    method HandleNext()
      requires Valid() && step < LAST_STEP && !loading
      modifies this`step, this`error, this`showDetails
      ensures Valid()
      ensures ValidateStep(old(step), formData, files) != "" ==>
        step == old(step) && error == ValidateStep(old(step), formData, files)
        && showDetails == old(showDetails)
      ensures ValidateStep(old(step), formData, files) == "" ==>
        step == old(step) + 1 && error == "" && !showDetails
    {
      var err := ValidateStep(step, formData, files);
      if err != "" {
        error := err;
        return;
      }
      error := "";
      showDetails := false;
      step := step + 1;
    }

    /** `handleBack`, reachable from the Back button (shown after the first stage). */
    method HandleBack()
      requires Valid() && step > 0 && !loading
      modifies this`step, this`error, this`showDetails
      ensures Valid()
      ensures step == old(step) - 1 && error == "" && !showDetails
    {
      error := "";
      showDetails := false;
      step := step - 1;
    }

    /** `handleSubmit` up to the request: re-validate the current stage, insist
        on a logged-in user, then mark the request pending and return the
        payload to send. `toLogin` is the redirect to the login page. */
    method HandleSubmit() returns (payload: Option<seq<(string, Part)>>, toLogin: bool)
      requires Valid() && !loading
      modifies this`error, this`loading, this`success
      ensures Valid()
      ensures ValidateStep(step, formData, files) != "" ==>
        payload == None && !toLogin && error == ValidateStep(step, formData, files)
        && !loading && success == old(success)
      ensures ValidateStep(step, formData, files) == "" && userId == "" ==>
        payload == None && toLogin && error == LOGIN_REQUIRED && !loading && success == old(success)
      ensures ValidateStep(step, formData, files) == "" && userId != "" ==>
        payload == Some(BuildPayload(formData, userId, files)) && !toLogin
        && loading && error == "" && success == ""
    {
      var err := ValidateStep(step, formData, files);
      if err != "" {
        error := err;
        return None, false;
      }
      if userId == "" {
        error := LOGIN_REQUIRED;
        return None, true;
      }
      loading := true;
      error := "";
      success := "";
      payload := Some(BuildPayload(formData, userId, files));
      toLogin := false;
    }

    /** The pending request settles: report success or the server's message;
        the form and the files are kept either way. */
    method SubmitSettled(outcome: SubmitOutcome)
      requires Valid() && loading
      modifies this`error, this`loading, this`success
      ensures Valid() && !loading
      ensures outcome.Accepted? ==> success == SUBMIT_OK && error == old(error)
      ensures outcome.Refused? ==> success == old(success)
      ensures outcome.Refused? ==>
        error == if outcome.serverMessage != "" then outcome.serverMessage else SUBMIT_FAILED
    {
      if outcome.Accepted? {
        success := SUBMIT_OK;
      } else {
        error := if outcome.serverMessage != "" then outcome.serverMessage else SUBMIT_FAILED;
      }
      loading := false;
    }
  }
}
