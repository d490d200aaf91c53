/**
 * The client-side order wizard (components/domain-wizard.tsx): the step
 * machine SEARCH → RESULTS → REGISTER → HOSTING → COMPLETE, the search
 * expansion of a term over the chosen TLDs, and the default hosting
 * username derived from the chosen domain. The three form submissions
 * are the form library's validation followed by the handler; what the
 * internal routes answer is a parameter, and each submission returns the
 * request it sent.
 */
module Wizard {
  import opened Common
  import opened Namecheap
  import opened RegistrarRoutes
  import opened Schemas
  import opened WhmCreate

  // ---------------------------------------------------------------------
  // Pure parts
  // ---------------------------------------------------------------------

  /** The term followed by each TLD, in the order the TLDs were selected. */
  function DomainsToCheck(term: string, tlds: seq<string>): (domains: seq<string>)
    ensures |domains| == |tlds|
    ensures forall i :: 0 <= i < |tlds| ==> domains[i] == term + tlds[i]
  {
    if |tlds| == 0 then [] else [term + tlds[0]] + DomainsToCheck(term, tlds[1..])
  }

  /**
   * A search the form accepts is never refused by the check route: it
   * sends one non-empty list, so the route answers 200 or 500.
   */
  lemma AcceptedSearchReachesRegistrar(cfg: Config, f: SearchForm, reply: ApiReply<seq<DomainCheck>>)
    requires |SearchIssues(f)| == 0
    ensures var h := Check(cfg, Listed(DomainsToCheck(f.searchTerm, f.selectedTlds)), reply);
            && h.response.status in {200, 500}
            && h.sent == SentBy(CheckAvailability(cfg, DomainsToCheck(f.searchTerm, f.selectedTlds), reply))
  {
  }

  /** `toLowerCase` on one character, for the ASCII letters. */
  function LowerChar(c: char): (d: char)
    ensures IsUpperAscii(c) ==> IsLowerAscii(d) && d as int == c as int + 32
    ensures !IsUpperAscii(c) ==> d == c
  {
    if IsUpperAscii(c) then (c as int + 32) as char else c
  }

  function Lower(s: string): (t: string)
    ensures |t| == |s|
    ensures forall i :: 0 <= i < |s| ==> t[i] == LowerChar(s[i])
  {
    if |s| == 0 then "" else [LowerChar(s[0])] + Lower(s[1..])
  }

  predicate UsernameChar(c: char) {
    IsLowerAscii(c) || IsDigit(c)
  }

  /** `replace(/[^a-z0-9]/g, "")` */
  function KeepUsernameChars(s: string): (t: string)
    ensures |t| <= |s|
    ensures forall i :: 0 <= i < |t| ==> UsernameChar(t[i])
  {
    if |s| == 0 then ""
    else if UsernameChar(s[0]) then [s[0]] + KeepUsernameChars(s[1..])
    else KeepUsernameChars(s[1..])
  }

  /** `slice(0, n)` */
  function Prefix(s: string, n: nat): (t: string)
    ensures |t| == if |s| <= n then |s| else n
    ensures t == s[..|t|]
  {
    if |s| <= n then s else s[..n]
  }

  /** The default hosting username: the first label, lowercased, stripped to [a-z0-9], cut to 16. */
  function Sanitise(domain: string): string {
    Prefix(KeepUsernameChars(Lower(Split(domain, '.')[0])), 16)
  }

  /** The username holds only lowercase letters and digits, at most 16 of them. */
  lemma SanitiseShape(domain: string)
    ensures |Sanitise(domain)| <= 16
    ensures forall i :: 0 <= i < |Sanitise(domain)| ==> UsernameChar(Sanitise(domain)[i])
  {
    var kept := KeepUsernameChars(Lower(Split(domain, '.')[0]));
    forall i | 0 <= i < |Sanitise(domain)|
      ensures UsernameChar(Sanitise(domain)[i])
    {
      assert Sanitise(domain)[i] == kept[i];
    }
  }

  /** Characters the filter keeps are kept as they are. */
  lemma {:induction false} KeepUsernameCharsFixed(s: string)
    requires forall i :: 0 <= i < |s| ==> UsernameChar(s[i])
    ensures KeepUsernameChars(s) == s
  {
    if |s| > 0 {
      KeepUsernameCharsFixed(s[1..]);
    }
  }

  /** Sanitising a username that came out of the sanitiser gives it back. */
  lemma SanitiseIdempotent(domain: string)
    ensures Sanitise(Sanitise(domain)) == Sanitise(domain)
  {
    var u := Sanitise(domain);
    SanitiseShape(domain);
    assert '.' !in u by {
      forall i | 0 <= i < |u|
        ensures u[i] != '.'
      {
        assert UsernameChar(u[i]);
      }
    }
    SplitFree(u, '.');
    assert Lower(u) == u;
    KeepUsernameCharsFixed(u);
  }

  /**
   * The pre-filled username passes the hosting form exactly when it has
   * at least three characters and starts with a letter; a domain whose
   * first label starts with a digit never gives a valid default.
   */
  lemma SanitisedUsernameValid(domain: string)
    ensures UsernamePattern(Sanitise(domain)) <==> |Sanitise(domain)| >= 3 && IsLowerAscii(Sanitise(domain)[0])
  {
    SanitiseShape(domain);
  }

  /** A first label that is already a valid username is left unchanged. */
  lemma {:induction false} SanitiseKeepsValidLabel(first: string, rest: string)
    requires UsernamePattern(first)
    ensures Sanitise(first + "." + rest) == first
  {
    SplitFree(first, '.');
    SplitPrefix(first, rest, '.');
    assert first + "." + rest == first + ['.'] + rest;
    assert Lower(first) == first;
    KeepUsernameCharsFixed(first);
  }

  // ---------------------------------------------------------------------
  // What the handlers exchange with the internal routes
  // ---------------------------------------------------------------------

  datatype Step = SearchStep | ResultsStep | RegisterStep | HostingStep | CompleteStep

  datatype DomainResult = DomainResult(domain: string, available: bool, price: string)

  /** What a handler caught: an `Error` with its message, or some other thrown value. */
  datatype Thrown = ErrorObject(message: string) | OtherThrown

  /** How a `fetch` ended: a response with its `ok` flag and decoded body, or a throw. */
  datatype Fetched<T> = Responded(ok: bool, body: T) | Threw(thrown: Thrown)

  /** The members of the check and register routes' bodies the wizard reads. */
  datatype CheckBody = CheckBody(success: bool, message: string, data: seq<DomainCheck>)
  datatype RegisterBody = RegisterBody(success: bool, message: string)
  /** The member of the hosting route's body the wizard reads. */
  datatype HostingBody = HostingBody(error: string)

  /** `years` as `JSON.stringify` writes it: a number stays a number, NaN becomes null. */
  function JsonYears(v: Option<int>): (y: YearsField)
    ensures v.Some? <==> y.Num?
    ensures v.Some? ==> y.n == v.value
    ensures v.None? ==> y == Absent
  {
    if v.Some? then Num(v.value) else Absent
  }

  /** The request bodies the wizard posts. */
  datatype WizardRequest =
    | CheckDomains(domains: seq<string>)
    | RegisterDomainRequest(domain: string, years: YearsField, registrantInfo: ContactInfo, enableWhoisguard: bool)
    | CreateHosting(account: AccountRequest)

  const Unexpected: string := "An unexpected error occurred."

  /** `err instanceof Error ? err.message : ...` */
  function Caught(t: Thrown): (message: string)
    ensures t.ErrorObject? ==> message == t.message
    ensures t.OtherThrown? ==> message == Unexpected
  {
    if t.ErrorObject? then t.message else Unexpected
  }

  /** The error shown after a failed submission: the thrown message, or the body's message with a fallback. */
  function FailureMessage(thrown: Option<Thrown>, message: string, fallback: string): (m: string)
    ensures thrown.Some? ==> m == Caught(thrown.value)
    ensures thrown.None? && Truthy(message) ==> m == message
    ensures thrown.None? && !Truthy(message) ==> m == fallback
  {
    if thrown.Some? then Caught(thrown.value) else if Truthy(message) then message else fallback
  }

  /** A row of the check result as shown: available iff the registrar said "true", at the fixed price. */
  function ResultsOf(rows: seq<DomainCheck>): (rs: seq<DomainResult>)
    ensures |rs| == |rows|
    ensures forall i :: 0 <= i < |rows| ==>
              rs[i].domain == rows[i].domain && (rs[i].available <==> rows[i].available == "true")
              && rs[i].price == "12.99"
  {
    if |rows| == 0 then []
    else [DomainResult(rows[0].domain, rows[0].available == "true", "12.99")] + ResultsOf(rows[1..])
  }

  // ---------------------------------------------------------------------
  // Form defaults
  // ---------------------------------------------------------------------

  const InitialContact: ContactInfo :=
    ContactInfo("John", "Doe", "123 Innovation Drive", "", "Techville", "CA", "90210", "US", "+1.5551234567",
                "john.doe@example.com", "", "")

  const DefaultSearch: SearchForm := SearchForm("", [".com"])

  const DefaultHosting: HostingForm := HostingForm("", "", "webcrtae_basic")

  /**
   * The registration form's defaults as written: `years` starts as the
   * number 1, which the schema's `z.string()` refuses. The e-mail is
   * well formed, so the e-mail check is taken as passed.
   */
  const WrittenDefaultRegistration: RegistrationForm :=
    RegistrationForm(Initial(1), InitialContact, Some(true), true)

  /** The defaults with `years` as the string the year select itself produces. */
  const DefaultRegistration: RegistrationForm :=
    RegistrationForm(Picked("1"), InitialContact, Some(true), true)

  /** Submitting the registration form as first shown, without touching the year select, is refused. */
  lemma WrittenDefaultRefused()
    ensures ParseRegistration(WrittenDefaultRegistration).None?
    ensures RegistrationIssues(WrittenDefaultRegistration)[0] == Issue("years", "Expected string, received number")
  {
  }

  /** The sample telephone number has the form's shape. */
  lemma SamplePhoneMatches()
    ensures PhoneMatches("+1.5551234567")
  {
    var s := "+1.5551234567";
    assert PhoneSplitAt(s, 1) by {
      assert s[1..2] == "1";
      assert s[3..] == "5551234567";
    }
    PhoneMatchesPattern(s);
  }

  /** The sample registrant the form starts with passes the registrant checks. */
  lemma SampleContactPasses()
    ensures |ContactIssues(InitialContact, true)| == 0
  {
    SamplePhoneMatches();
  }

  /** With the corrected default the untouched form submits one year for the sample registrant. */
  lemma DefaultRegistrationAccepted()
    ensures ParseRegistration(DefaultRegistration) == Some(Registration(Some(1), InitialContact, true))
  {
    SampleContactPasses();
    YearsNumberRendered(1);
    assert NatToString(1) == "1";
  }

  // ---------------------------------------------------------------------
  // The step machine
  // ---------------------------------------------------------------------

  class DomainWizard {
    var step: Step
    var searchTerm: string
    var results: seq<DomainResult>
    var isLoading: bool
    var error: string
    var selectedDomain: Option<DomainResult>
    var searchForm: SearchForm
    var registrationForm: RegistrationForm
    var hostingForm: HostingForm

    /**
     * Between two events nothing is loading, a selected domain is an
     * available one, and the steps after RESULTS always have one.
     */
    ghost predicate Valid()
      reads this
    {
      && !isLoading
      && (selectedDomain.Some? ==> selectedDomain.value.available)
      && (step in {RegisterStep, HostingStep, CompleteStep} ==> selectedDomain.Some?)
    }

    /** The state the wizard is mounted in, which `reset` returns to. */
    ghost predicate Initial()
      reads this
    {
      && step == SearchStep && searchTerm == "" && results == [] && !isLoading && error == ""
      && selectedDomain == None && searchForm == DefaultSearch && registrationForm == WrittenDefaultRegistration
      && hostingForm == DefaultHosting
    }

    constructor()
      ensures Valid() && Initial()
    {
      step := SearchStep;
      searchTerm := "";
      results := [];
      isLoading := false;
      error := "";
      selectedDomain := None;
      searchForm := DefaultSearch;
      registrationForm := WrittenDefaultRegistration;
      hostingForm := DefaultHosting;
    }

    /**
     * Submitting the search form. When the form refuses the values nothing
     * is sent; otherwise the term's expansion is sent, the results are
     * cleared, and either RESULTS shows the rows or the step stays and
     * the error is set.
     */
    method SearchSubmit(form: SearchForm, reply: Fetched<CheckBody>) returns (sent: Option<WizardRequest>)
      requires Valid() && step == SearchStep
      modifies this
      ensures Valid()
      ensures searchForm == form && selectedDomain == old(selectedDomain)
      ensures registrationForm == old(registrationForm) && hostingForm == old(hostingForm)
      ensures |SearchIssues(form)| > 0 ==>
                sent.None? && step == old(step) && searchTerm == old(searchTerm) && results == old(results)
                && error == old(error)
      ensures |SearchIssues(form)| == 0 ==>
                && sent == Some(CheckDomains(DomainsToCheck(form.searchTerm, form.selectedTlds)))
                && searchTerm == form.searchTerm
                && (reply.Responded? && reply.ok && reply.body.success ==>
                      step == ResultsStep && results == ResultsOf(reply.body.data) && error == "")
                && (!(reply.Responded? && reply.ok && reply.body.success) ==>
                      step == old(step) && results == []
                      && error == FailureMessage(if reply.Threw? then Some(reply.thrown) else None,
                                                 if reply.Responded? then reply.body.message else "",
                                                 "Failed to check availability."))
    {
      searchForm := form;
      if |SearchIssues(form)| > 0 {
        return None;
      }
      isLoading := true;
      error := "";
      results := [];
      searchTerm := form.searchTerm;
      var domains := DomainsToCheck(form.searchTerm, form.selectedTlds);
      sent := Some(CheckDomains(domains));
      SearchReply(reply);
    }

    /** The check route's answer, and the end of loading. */
    method SearchReply(reply: Fetched<CheckBody>)
      requires isLoading && error == "" && results == [] && step == SearchStep
      requires selectedDomain.Some? ==> selectedDomain.value.available
      modifies this
      ensures Valid()
      ensures searchForm == old(searchForm) && selectedDomain == old(selectedDomain) && searchTerm == old(searchTerm)
      ensures registrationForm == old(registrationForm) && hostingForm == old(hostingForm)
      ensures reply.Responded? && reply.ok && reply.body.success ==>
                step == ResultsStep && results == ResultsOf(reply.body.data) && error == ""
      ensures !(reply.Responded? && reply.ok && reply.body.success) ==>
                step == SearchStep && results == []
                && error == FailureMessage(if reply.Threw? then Some(reply.thrown) else None,
                                           if reply.Responded? then reply.body.message else "",
                                           "Failed to check availability.")
    {
      match reply {
        case Threw(thrown) =>
          error := FailureMessage(Some(thrown), "", "Failed to check availability.");
        case Responded(ok, body) =>
          if !ok || !body.success {
            error := FailureMessage(None, body.message, "Failed to check availability.");
          } else {
            results := ResultsOf(body.data);
            step := ResultsStep;
          }
      }
      isLoading := false;
    }

    /** The Register button of an available result. */
    method Select(i: nat)
      requires Valid() && i < |results| && results[i].available
      modifies this
      ensures Valid()
      ensures selectedDomain == Some(old(results[i])) && step == RegisterStep
      ensures results == old(results) && error == old(error) && searchTerm == old(searchTerm)
      ensures searchForm == old(searchForm) && registrationForm == old(registrationForm)
      ensures hostingForm == old(hostingForm)
    {
      selectedDomain := Some(results[i]);
      step := RegisterStep;
    }

    /**
     * Submitting the registration form: nothing happens without a selected
     * domain or when the form refuses the values. Otherwise the parsed
     * values are sent for the selected domain; on success the hosting form
     * is reset with the sanitised username and HOSTING shown, on failure
     * the step stays and the error is set.
     */
    method RegisterSubmit(form: RegistrationForm, reply: Fetched<RegisterBody>) returns (sent: Option<WizardRequest>)
      requires Valid()
      modifies this
      ensures Valid()
      ensures registrationForm == form && selectedDomain == old(selectedDomain)
      ensures results == old(results) && searchTerm == old(searchTerm) && searchForm == old(searchForm)
      ensures ParseRegistration(form).None? || old(selectedDomain).None? ==>
                sent.None? && step == old(step) && error == old(error) && hostingForm == old(hostingForm)
      ensures ParseRegistration(form).Some? && old(selectedDomain).Some? ==>
                var values := ParseRegistration(form).value;
                var domain := old(selectedDomain).value.domain;
                && sent == Some(RegisterDomainRequest(domain, JsonYears(values.years), values.registrantInfo, values.whoisguard))
                && (reply.Responded? && reply.ok && reply.body.success ==>
                      step == HostingStep && error == ""
                      && hostingForm == HostingForm(Sanitise(domain), "", "webcrtae_basic"))
                && (!(reply.Responded? && reply.ok && reply.body.success) ==>
                      step == old(step) && hostingForm == old(hostingForm)
                      && error == FailureMessage(if reply.Threw? then Some(reply.thrown) else None,
                                                 if reply.Responded? then reply.body.message else "",
                                                 "Failed to register domain."))
    {
      registrationForm := form;
      var parsed := ParseRegistration(form);
      if parsed.None? || selectedDomain.None? {
        return None;
      }
      var values := parsed.value;
      var domain := selectedDomain.value.domain;
      isLoading := true;
      error := "";
      sent := Some(RegisterDomainRequest(domain, JsonYears(values.years), values.registrantInfo, values.whoisguard));
      RegisterReply(domain, reply);
    }

    /** The register route's answer for `domain`, the selected domain, and the end of loading. */
    method RegisterReply(domain: string, reply: Fetched<RegisterBody>)
      requires isLoading && error == ""
      requires selectedDomain.Some? && selectedDomain.value.available && selectedDomain.value.domain == domain
      modifies this
      ensures Valid()
      ensures registrationForm == old(registrationForm) && selectedDomain == old(selectedDomain)
      ensures results == old(results) && searchTerm == old(searchTerm) && searchForm == old(searchForm)
      ensures reply.Responded? && reply.ok && reply.body.success ==>
                step == HostingStep && error == "" && hostingForm == HostingForm(Sanitise(domain), "", "webcrtae_basic")
      ensures !(reply.Responded? && reply.ok && reply.body.success) ==>
                step == old(step) && hostingForm == old(hostingForm)
                && error == FailureMessage(if reply.Threw? then Some(reply.thrown) else None,
                                           if reply.Responded? then reply.body.message else "",
                                           "Failed to register domain.")
    {
      match reply {
        case Threw(thrown) =>
          error := FailureMessage(Some(thrown), "", "Failed to register domain.");
        case Responded(ok, body) =>
          if !ok || !body.success {
            error := FailureMessage(None, body.message, "Failed to register domain.");
          } else {
            hostingForm := HostingForm(Sanitise(domain), "", "webcrtae_basic");
            step := HostingStep;
          }
      }
      isLoading := false;
    }

    /**
     * Submitting the hosting form: nothing happens without a selected
     * domain or when the form refuses the values. Otherwise the account is
     * requested for the selected domain with the registration form's
     * e-mail; only the response's `ok` decides: COMPLETE, or the step
     * stays with the route's error.
     */
    method HostingSubmit(form: HostingForm, reply: Fetched<HostingBody>) returns (sent: Option<WizardRequest>)
      requires Valid()
      modifies this
      ensures Valid()
      ensures hostingForm == form && selectedDomain == old(selectedDomain) && results == old(results)
      ensures searchTerm == old(searchTerm) && searchForm == old(searchForm)
      ensures registrationForm == old(registrationForm)
      ensures |HostingIssues(form)| > 0 || old(selectedDomain).None? ==>
                sent.None? && step == old(step) && error == old(error)
      ensures |HostingIssues(form)| == 0 && old(selectedDomain).Some? ==>
                && sent == Some(CreateHosting(AccountRequest(form.hostingUsername, old(selectedDomain).value.domain,
                                                             form.hostingPassword, form.plan,
                                                             registrationForm.registrantInfo.emailAddress)))
                && (reply.Responded? && reply.ok ==> step == CompleteStep && error == "")
                && (!(reply.Responded? && reply.ok) ==>
                      step == old(step)
                      && error == FailureMessage(if reply.Threw? then Some(reply.thrown) else None,
                                                 if reply.Responded? then reply.body.error else "",
                                                 "Failed to create hosting account."))
    {
      hostingForm := form;
      if |HostingIssues(form)| > 0 || selectedDomain.None? {
        return None;
      }
      isLoading := true;
      error := "";
      var account := AccountRequest(form.hostingUsername, selectedDomain.value.domain, form.hostingPassword, form.plan,
                                    registrationForm.registrantInfo.emailAddress);
      sent := Some(CreateHosting(account));
      match reply {
        case Threw(thrown) =>
          error := FailureMessage(Some(thrown), "", "Failed to create hosting account.");
        case Responded(ok, body) =>
          if !ok {
            error := FailureMessage(None, body.error, "Failed to create hosting account.");
          } else {
            step := CompleteStep;
          }
      }
      isLoading := false;
    }

    /** The Skip button of the hosting step. */
    method Skip()
      requires Valid() && step == HostingStep
      modifies this
      ensures Valid() && step == CompleteStep
      ensures selectedDomain == old(selectedDomain) && results == old(results) && error == old(error)
      ensures searchTerm == old(searchTerm) && searchForm == old(searchForm)
      ensures registrationForm == old(registrationForm) && hostingForm == old(hostingForm)
    {
      step := CompleteStep;
    }

    /** "Back to Results" in the registration step. */
    method BackToResults()
      requires Valid()
      modifies this
      ensures Valid() && step == ResultsStep
      ensures selectedDomain == old(selectedDomain) && results == old(results) && error == old(error)
      ensures searchTerm == old(searchTerm) && searchForm == old(searchForm)
      ensures registrationForm == old(registrationForm) && hostingForm == old(hostingForm)
    {
      step := ResultsStep;
    }

    /** "Search Again" in the results step: the results and the selection are kept. */
    method SearchAgain()
      requires Valid()
      modifies this
      ensures Valid() && step == SearchStep
      ensures selectedDomain == old(selectedDomain) && results == old(results) && error == old(error)
      ensures searchTerm == old(searchTerm) && searchForm == old(searchForm)
      ensures registrationForm == old(registrationForm) && hostingForm == old(hostingForm)
    {
      step := SearchStep;
    }

    /** "Start Over": everything back to the mounted state. */
    method Reset()
      modifies this
      ensures Valid() && Initial()
    {
      step := SearchStep;
      searchTerm := "";
      results := [];
      isLoading := false;
      error := "";
      selectedDomain := None;
      searchForm := DefaultSearch;
      registrationForm := WrittenDefaultRegistration;
      hostingForm := DefaultHosting;
    }
  }
}
