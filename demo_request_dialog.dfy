// DemoRequestDialog.java: the Swing dialog that collects a demo request. The
// dialog is a class over the texts of its fields, the selected index of the
// employee-count box, the state of its two buttons and the panel it shows.
// Message boxes are recorded in `shown`. The submission task the dialog
// queues on the event thread is the method `RunQueuedSubmission`, given
// whether its sleep is interrupted.

module DemoRequestDialog {
  import opened Common

  // ---------------------------------------------------------------------
  // EMAIL_PATTERN
  // ---------------------------------------------------------------------

  predicate IsAsciiLetter(c: char) { 'A' <= c <= 'Z' || 'a' <= c <= 'z' }

  predicate IsAsciiAlnum(c: char) { IsAsciiLetter(c) || '0' <= c <= '9' }

  /** `[A-Za-z0-9+_.-]`, the characters before the `@`. */
  predicate IsLocalChar(c: char) { IsAsciiAlnum(c) || c == '+' || c == '_' || c == '.' || c == '-' }

  /** `[A-Za-z0-9.-]`, the characters of the host before its last dot. */
  predicate IsDomainChar(c: char) { IsAsciiAlnum(c) || c == '.' || c == '-' }

  /** `[A-Za-z0-9+_.-]+`. */
  predicate LocalPart(t: string)
  {
    |t| >= 1 && forall j :: 0 <= j < |t| ==> IsLocalChar(t[j])
  }

  /** `[A-Za-z0-9.-]+\.[A-Za-z]{2,}` read with its last dot at `k`. */
  predicate DomainSplit(d: string, k: int)
  {
    1 <= k < |d| && d[k] == '.' && (forall j :: 0 <= j < k ==> IsDomainChar(d[j]))
    && |d| - k - 1 >= 2 && (forall j :: k < j < |d| ==> IsAsciiLetter(d[j]))
  }

  /** `[A-Za-z0-9.-]+\.[A-Za-z]{2,}`. */
  predicate DomainPart(d: string)
  {
    exists k :: 1 <= k < |d| && DomainSplit(d, k)
  }

  /** The text splits at the `@` at `i` into a local part and a domain. */
  predicate SplitsAt(s: string, i: int)
  {
    0 <= i < |s| && s[i] == '@' && LocalPart(s[..i]) && DomainPart(s[i + 1..])
  }

  /**
   * `EMAIL_PATTERN.matcher(s).matches()` for
   * `^[A-Za-z0-9+_.-]+@([A-Za-z0-9.-]+\.[A-Za-z]{2,})$`: the whole text is a
   * local part, an `@` and a host that ends in a dot and two or more letters
   * (`MatchesIff`). The position of the `@` is searched from the left.
   */
  predicate MatchesEmailPattern(s: string)
  {
    MatchesFrom(s, 0)
  }

  /** Some `@` at `i` or after splits the text. */
  predicate MatchesFrom(s: string, i: nat)
    decreases |s| - i
  {
    i < |s| && (SplitsAt(s, i) || MatchesFrom(s, i + 1))
  }

  lemma {:induction false} MatchesFromIff(s: string, i: nat)
    ensures MatchesFrom(s, i) <==> exists j :: i <= j && SplitsAt(s, j)
    decreases |s| - i
  {
    if i < |s| {
      MatchesFromIff(s, i + 1);
      if !SplitsAt(s, i) && exists j :: i <= j && SplitsAt(s, j) {
        var j :| i <= j && SplitsAt(s, j);
        assert i + 1 <= j;
      }
    }
  }

  /** The pattern matches exactly when some `@` splits the text into a local part and a domain. */
  lemma MatchesIff(s: string)
    ensures MatchesEmailPattern(s) <==> exists i :: SplitsAt(s, i)
  {
    MatchesFromIff(s, 0);
  }

  /** A local part, an `@`, a host and a top-level part of two or more letters make a match. */
  lemma ComposedAddressMatches(local: string, host: string, top: string)
    requires LocalPart(local)
    requires |host| >= 1 && forall j :: 0 <= j < |host| ==> IsDomainChar(host[j])
    requires |top| >= 2 && forall j :: 0 <= j < |top| ==> IsAsciiLetter(top[j])
    ensures MatchesEmailPattern(local + "@" + host + "." + top)
  {
    var s := local + "@" + host + "." + top;
    var i := |local|;
    assert s[..i] == local;
    var d := s[i + 1..];
    assert d == host + "." + top;
    assert DomainSplit(d, |host|);
    assert SplitsAt(s, i);
    MatchesIff(s);
  }

  /** Without an `@` nothing matches. */
  lemma NoAtNoMatch(s: string)
    requires '@' !in s
    ensures !MatchesEmailPattern(s)
  {
    MatchesIff(s);
  }

  /** A host without a dot does not match, whatever comes before the `@`. */
  lemma NoDotNoMatch(local: string, host: string)
    requires '@' !in local && '.' !in host
    ensures !MatchesEmailPattern(local + "@" + host)
  {
    var s := local + "@" + host;
    forall i | |local| <= i < |s|
      ensures !SplitsAt(s, i)
    {
      var d := s[i + 1..];
      assert d == host[i - |local|..];
      assert forall k :: 0 <= k < |d| ==> d[k] in host;
    }
    MatchesIff(s);
  }

  /**
   * The documented examples: `user@example.com` is accepted, while
   * `user@domain` (no dot after the at-sign) and `user.example.com` (no
   * at-sign) are rejected.
   */
  lemma DocumentedAddresses()
    ensures MatchesEmailPattern("user@example.com")
    ensures !MatchesEmailPattern("user@domain")
    ensures !MatchesEmailPattern("user.example.com")
  {
    ComposedAddressMatches("user", "example", "com");
    assert "user" + "@" + "example" + "." + "com" == "user@example.com";
    NoDotNoMatch("user", "domain");
    assert "user" + "@" + "domain" == "user@domain";
    NoAtNoMatch("user.example.com");
  }

  // ---------------------------------------------------------------------
  // validateForm
  // ---------------------------------------------------------------------

  /** The rules of `validateForm`, in the order it checks them. */
  datatype Rule = FullNameRule | CompanyNameRule | EmailRequiredRule | EmailInvalidRule | PhoneRule | EmployeeCountRule

  /** The line each failed rule adds. */
  function Message(r: Rule): (m: string)
    ensures m != ""
  {
    match r
    case FullNameRule => "• Full Name is required\n"
    case CompanyNameRule => "• Company Name is required\n"
    case EmailRequiredRule => "• Email is required\n"
    case EmailInvalidRule => "• Please enter a valid email address\n"
    case PhoneRule => "• Phone Number is required\n"
    case EmployeeCountRule => "• Employee Count is required\n"
  }

  const ErrorsHeader := "Please correct the following errors:\n\n"

  /** The place of a rule in the order `validateForm` checks them. */
  function Rank(r: Rule): nat
  {
    match r
    case FullNameRule => 0
    case CompanyNameRule => 1
    case EmailRequiredRule => 2
    case EmailInvalidRule => 3
    case PhoneRule => 4
    case EmployeeCountRule => 5
  }

  /** Rules listed in the order they are checked, none twice. */
  predicate InCheckOrder(ps: seq<Rule>)
  {
    forall i, j :: 0 <= i < j < |ps| ==> Rank(ps[i]) < Rank(ps[j])
  }

  /** The texts `validateForm` reads: the four fields and the selected index of the employee-count box. */
  datatype Fields = Fields(fullName: string, companyName: string, email: string, phone: string, employeeIndex: int)

  /** `s.trim().isEmpty()`: every character of `s` is at most a space. */
  predicate Blank(s: string)
  {
    s == [] || (IsJavaSpace(s[0]) && Blank(s[1..]))
  }

  /** `Blank` is trimming to nothing. */
  lemma BlankIsTrimEmpty(s: string)
    ensures Blank(s) <==> JavaTrim(s) == ""
  {
    TrimEmptyIff(s, IsJavaSpace);
    BlankAll(s);
  }

  lemma {:induction false} BlankAll(s: string)
    ensures Blank(s) <==> AllSatisfy(s, IsJavaSpace)
  {
    if s != [] {
      BlankAll(s[1..]);
      assert forall i :: 1 <= i < |s| ==> s[i] == s[1..][i - 1];
    }
  }

  /**
   * The tests `validateForm` makes: whether full name, company name, email
   * and phone are blank, whether the trimmed email does not match the
   * pattern, whether the placeholder (index 0) of the employee-count box is
   * selected.
   */
  datatype Checks = Checks(fullNameBlank: bool, companyNameBlank: bool, emailBlank: bool,
                           emailMalformed: bool, phoneBlank: bool, placeholder: bool)

  function ChecksOf(f: Fields): Checks
  {
    Checks(Blank(f.fullName), Blank(f.companyName), Blank(f.email),
           !MatchesEmailPattern(JavaTrim(f.email)), Blank(f.phone), f.employeeIndex == 0)
  }

  /** When each rule fails; the pattern is only tried on an email that is not blank. */
  predicate Fails(r: Rule, c: Checks)
  {
    match r
    case FullNameRule => c.fullNameBlank
    case CompanyNameRule => c.companyNameBlank
    case EmailRequiredRule => c.emailBlank
    case EmailInvalidRule => !c.emailBlank && c.emailMalformed
    case PhoneRule => c.phoneBlank
    case EmployeeCountRule => c.placeholder
  }

  /** The rule, when its test fails. */
  function Step(test: bool, r: Rule): seq<Rule>
  {
    if test then [r] else []
  }

  /** The email rules: "required" for a blank email, else "valid" when it does not match. */
  function EmailStep(blank: bool, malformed: bool): seq<Rule>
  {
    if blank then [EmailRequiredRule] else if malformed then [EmailInvalidRule] else []
  }

  /** The failed rules of a form, appended one test after the other as `validateForm` does. */
  function Problems(c: Checks): seq<Rule>
  {
    Step(c.fullNameBlank, FullNameRule) + Step(c.companyNameBlank, CompanyNameRule) + EmailStep(c.emailBlank, c.emailMalformed)
    + Step(c.phoneBlank, PhoneRule) + Step(c.placeholder, EmployeeCountRule)
  }

  /** A rule is listed exactly when it fails. */
  lemma ProblemsAreFailures(c: Checks)
    ensures forall r :: r in Problems(c) <==> Fails(r, c)
  {
    var p1 := Step(c.fullNameBlank, FullNameRule) + Step(c.companyNameBlank, CompanyNameRule);
    var p2 := Step(c.phoneBlank, PhoneRule) + Step(c.placeholder, EmployeeCountRule);
    assert Problems(c) == p1 + EmailStep(c.emailBlank, c.emailMalformed) + Step(c.phoneBlank, PhoneRule) + Step(c.placeholder, EmployeeCountRule);
    forall r ensures r in Problems(c) <==> Fails(r, c) {
      assert r in Problems(c) <==>
        r in p1 || r in EmailStep(c.emailBlank, c.emailMalformed) || r in Step(c.phoneBlank, PhoneRule) || r in Step(c.placeholder, EmployeeCountRule);
    }
  }

  /** The form is valid, no rule listed, exactly when no rule fails. */
  lemma NoProblemsIff(c: Checks)
    ensures Problems(c) == [] <==> forall r :: !Fails(r, c)
  {
    ProblemsAreFailures(c);
    if Problems(c) != [] {
      assert Problems(c)[0] in Problems(c);
    }
  }

  /** The failed rules are listed in the order they are checked, so none twice, and the email fails at most one of its rules. */
  lemma ProblemsInCheckOrder(c: Checks)
    ensures InCheckOrder(Problems(c))
    ensures !(EmailRequiredRule in Problems(c) && EmailInvalidRule in Problems(c))
  {
    var p1 := Step(c.fullNameBlank, FullNameRule);
    var p2 := p1 + Step(c.companyNameBlank, CompanyNameRule);
    var p3 := p2 + EmailStep(c.emailBlank, c.emailMalformed);
    var p4 := p3 + Step(c.phoneBlank, PhoneRule);
    StepKeepsOrder(p1, CompanyNameRule, c.companyNameBlank, 1);
    StepKeepsOrder(p2, if c.emailBlank then EmailRequiredRule else EmailInvalidRule,
                   c.emailBlank || c.emailMalformed, 2);
    assert p3 == p2 + Step(c.emailBlank || c.emailMalformed, if c.emailBlank then EmailRequiredRule else EmailInvalidRule);
    StepKeepsOrder(p3, PhoneRule, c.phoneBlank, 4);
    StepKeepsOrder(p4, EmployeeCountRule, c.placeholder, 5);
    ProblemsAreFailures(c);
  }

  /** All of `ps` come before rank `k`. */
  predicate Below(ps: seq<Rule>, k: nat)
  {
    forall i :: 0 <= i < |ps| ==> Rank(ps[i]) < k
  }

  /** A list in check order, all before rank `k`, followed by a rule of rank `k` or more when its test fails. */
  lemma StepKeepsOrder(ps: seq<Rule>, r: Rule, test: bool, k: nat)
    requires InCheckOrder(ps) && Below(ps, k) && k <= Rank(r)
    ensures InCheckOrder(ps + Step(test, r)) && Below(ps + Step(test, r), Rank(r) + 1)
  {
    var qs := ps + Step(test, r);
    forall i, j | 0 <= i < j < |qs| ensures Rank(qs[i]) < Rank(qs[j]) {
      if j >= |ps| {
        assert qs[i] == ps[i] && qs[j] == r;
      }
    }
  }

  /** The rules of a form: the email is listed as malformed exactly when it is not blank and its trimmed text does not match. */
  lemma FormProblems(f: Fields)
    ensures FullNameRule in Problems(ChecksOf(f)) <==> JavaTrim(f.fullName) == ""
    ensures EmailInvalidRule in Problems(ChecksOf(f)) <==>
      JavaTrim(f.email) != "" && !MatchesEmailPattern(JavaTrim(f.email))
    ensures EmployeeCountRule in Problems(ChecksOf(f)) <==> f.employeeIndex == 0
  {
    var c := ChecksOf(f);
    ProblemsAreFailures(c);
    BlankIsTrimEmpty(f.fullName);
    BlankIsTrimEmpty(f.email);
    assert Fails(FullNameRule, c) == c.fullNameBlank;
    assert Fails(EmailInvalidRule, c) == (!c.emailBlank && c.emailMalformed);
    assert Fails(EmployeeCountRule, c) == c.placeholder;
  }

  /** The lines of the failed rules one after the other, as the `StringBuilder` collects them. */
  function Concat(ps: seq<Rule>): (s: string)
    ensures s == "" <==> ps == []
  {
    if ps == [] then "" else Message(ps[0]) + Concat(ps[1..])
  }

  /** The panel the dialog shows. */
  datatype Panel = FormPanel | SuccessPanel

  class Dialog {
    var fullName: string
    var companyName: string
    var email: string
    var phone: string
    var employeeIndex: int
    var submitText: string
    var submitEnabled: bool
    var cancelEnabled: bool
    var panel: Panel
    var submissionQueued: bool
    var interrupted: bool
    var disposed: bool
    var shown: seq<string>

    /** The dialog as it opens: empty fields, the placeholder selected, both buttons enabled. */
    constructor ()
      ensures fullName == "" && companyName == "" && email == "" && phone == "" && employeeIndex == 0
      ensures submitText == "Submit Request" && submitEnabled && cancelEnabled && panel == FormPanel
      ensures !submissionQueued && !interrupted && !disposed && shown == []
    {
      fullName, companyName, email, phone := "", "", "", "";
      employeeIndex := 0;
      submitText := "Submit Request";
      submitEnabled, cancelEnabled := true, true;
      panel := FormPanel;
      submissionQueued, interrupted, disposed := false, false, false;
      shown := [];
    }

    /** What the form holds now. */
    function Entered(): Fields
      reads `fullName, `companyName, `email, `phone, `employeeIndex
    {
      Fields(fullName, companyName, email, phone, employeeIndex)
    }

    /**
     * `validateForm`: the failed rules are collected in the order they are
     * checked (the `StringBuilder` is kept as the rules whose lines it
     * holds); when there is any, a message box lists their lines under the
     * header and the form is invalid, and otherwise it is valid.
     */
    method ValidateForm() returns (valid: bool)
      modifies `shown
      ensures valid <==> Problems(ChecksOf(Entered())) == []
      ensures shown == old(shown) + (if valid then [] else [ErrorsHeader + Concat(Problems(ChecksOf(Entered())))])
    {
      var failed: seq<Rule> := [];
      failed := failed + Step(Blank(fullName), FullNameRule);
      assert failed == Step(Blank(fullName), FullNameRule);
      failed := failed + Step(Blank(companyName), CompanyNameRule);
      failed := failed + EmailStep(Blank(email), !MatchesEmailPattern(JavaTrim(email)));
      failed := failed + Step(Blank(phone), PhoneRule);
      failed := failed + Step(employeeIndex == 0, EmployeeCountRule);
      assert failed == Problems(ChecksOf(Entered()));
      if failed != [] {
        shown := shown + [ErrorsHeader + Concat(failed)];
        return false;
      }
      return true;
    }

    /**
     * `handleSubmit`: an invalid form only shows its errors, and the buttons
     * stay as they were. A valid one labels the submit button
     * `Submitting...`, disables both buttons and queues the submission.
     */
    method HandleSubmit()
      modifies `shown, `submitText, `submitEnabled, `cancelEnabled, `submissionQueued
      ensures var ps := Problems(ChecksOf(Entered()));
        shown == old(shown) + (if ps == [] then [] else [ErrorsHeader + Concat(ps)])
      ensures Problems(ChecksOf(Entered())) != [] ==>
        submitText == old(submitText) && submitEnabled == old(submitEnabled) && cancelEnabled == old(cancelEnabled)
        && submissionQueued == old(submissionQueued)
      ensures Problems(ChecksOf(Entered())) == [] ==>
        submitText == "Submitting..." && !submitEnabled && !cancelEnabled && submissionQueued
    {
      ghost var f := Entered();
      var valid := ValidateForm();
      assert Entered() == f;
      if !valid {
        return;
      }
      submitText := "Submitting...";
      submitEnabled := false;
      cancelEnabled := false;
      submissionQueued := true;
      assert Entered() == f;
    }

    /**
     * The queued submission: it sleeps, swallowing an interruption (the
     * thread's interrupt flag is set again), then shows the success panel.
     * Nothing re-enables the buttons and nothing reports a failure.
     */
    method RunQueuedSubmission(interruptedWhileSleeping: bool)
      requires submissionQueued
      modifies `panel, `interrupted, `submissionQueued
      ensures panel == SuccessPanel && !submissionQueued
      ensures interrupted == (old(interrupted) || interruptedWhileSleeping)
    {
      if interruptedWhileSleeping {
        interrupted := true;
      }
      panel := SuccessPanel;
      submissionQueued := false;
    }

    /** `handleCancel`: the dialog is disposed. */
    method HandleCancel()
      modifies `disposed
      ensures disposed
    {
      disposed := true;
    }

    /** The success panel's Close button: the dialog is disposed. */
    method HandleSuccessClose()
      requires panel == SuccessPanel
      modifies `disposed
      ensures disposed
    {
      disposed := true;
    }
  }
}
