/**
 * The three client-side form schemas of lib/schemas.ts (search,
 * registration, hosting) as validators. A form is accepted exactly when
 * its list of issues is empty; the issues come in the order the schema
 * declares its fields, each with the schema's own message.
 */
module Schemas {
  import opened Common
  import opened Namecheap
  import opened RegistrarRoutes

  /** One validation failure: the field path and the message shown under it. */
  datatype Issue = Issue(path: string, message: string)

  /** An issue for `path` when `failed`, none otherwise. */
  function IssueIf(failed: bool, path: string, message: string): (r: seq<Issue>)
    ensures |r| <= 1
    ensures |r| == 1 <==> failed
    ensures failed ==> r[0] == Issue(path, message)
  {
    if failed then [Issue(path, message)] else []
  }

  // ---------------------------------------------------------------------
  // SearchSchema
  // ---------------------------------------------------------------------

  datatype SearchForm = SearchForm(searchTerm: string, selectedTlds: seq<string>)

  function SearchIssues(f: SearchForm): (issues: seq<Issue>)
    ensures |issues| == 0 <==> |f.searchTerm| >= 1 && |f.selectedTlds| >= 1
    ensures |issues| <= 2
  {
    IssueIf(|f.searchTerm| < 1, "searchTerm", "Please enter a domain name to search.")
    + IssueIf(|f.selectedTlds| < 1, "selectedTlds", "Please select at least one TLD.")
  }

  // ---------------------------------------------------------------------
  // Telephone numbers: /^\+\d{1,3}\.\d+$/
  // ---------------------------------------------------------------------

  /** `s` reads as "+", the `k` digits of a country code, ".", then one or more digits. */
  predicate PhoneSplitAt(s: string, k: nat) {
    k + 3 <= |s| && s[0] == '+' && AllDigits(s[1..k + 1]) && s[k + 1] == '.' && AllDigits(s[k + 2..])
  }

  /** What the pattern denotes: some country-code length from 1 to 3 fits. */
  predicate PhonePattern(s: string) {
    exists k :: 1 <= k <= 3 && PhoneSplitAt(s, k)
  }

  /** Length of the run of digits starting at position `i`. */
  function DigitRun(s: string, i: nat): (n: nat)
    requires i <= |s|
    ensures i + n <= |s|
    ensures forall j :: i <= j < i + n ==> IsDigit(s[j])
    ensures i + n < |s| ==> !IsDigit(s[i + n])
    decreases |s| - i
  {
    if i < |s| && IsDigit(s[i]) then 1 + DigitRun(s, i + 1) else 0
  }

  /** A left-to-right match of the pattern: the country code is the whole digit run after "+". */
  predicate PhoneMatches(s: string) {
    |s| >= 1 && s[0] == '+'
    && var d := DigitRun(s, 1);
       1 <= d <= 3 && d + 3 <= |s| && s[d + 1] == '.' && AllDigits(s[d + 2..])
  }

  /** The greedy match accepts exactly the strings the pattern denotes. */
  lemma PhoneMatchesPattern(s: string)
    ensures PhoneMatches(s) <==> PhonePattern(s)
  {
    if PhoneMatches(s) {
      var d := DigitRun(s, 1);
      assert AllDigits(s[1..d + 1]);
      assert PhoneSplitAt(s, d);
    }
    if PhonePattern(s) {
      var k :| 1 <= k <= 3 && PhoneSplitAt(s, k);
      forall j | 1 <= j < k + 1
        ensures IsDigit(s[j])
      {
        assert s[1..k + 1][j - 1] == s[j];
      }
      assert DigitRun(s, 1) == k;
    }
  }

  /**
   * The telephone format of section 2.5 of RFC 5733 (EPP contact mapping):
   * the same shape with at most 14 subscriber digits and 17 characters.
   */
  predicate EppPhone(s: string) {
    |s| <= 17 && exists k :: 1 <= k <= 3 && PhoneSplitAt(s, k) && |s| - (k + 2) <= 14
  }

  /** Every EPP-conformant number passes the form. */
  lemma EppPhonesPass(s: string)
    requires EppPhone(s)
    ensures PhoneMatches(s)
  {
    PhoneMatchesPattern(s);
  }

  /** The form is looser than EPP: a 15-digit subscriber number passes it. */
  lemma FormAdmitsNonEppPhone()
    ensures PhoneMatches("+1.123456789012345") && !EppPhone("+1.123456789012345")
  {
    var s := "+1.123456789012345";
    assert PhoneSplitAt(s, 1);
    PhoneMatchesPattern(s);
  }

  // ---------------------------------------------------------------------
  // RegistrationSchema
  // ---------------------------------------------------------------------

  /**
   * The `years` form value: a string picked from the select, or the
   * initial number the form starts with until a year is picked.
   */
  datatype YearsInput = Picked(text: string) | Initial(n: int)

  /**
   * The registration form. `emailAccepted` is the verdict of zod's e-mail
   * pattern on `registrantInfo.emailAddress`; that pattern needs an "@",
   * so it never accepts the empty string.
   */
  datatype RegistrationForm = RegistrationForm(years: YearsInput, registrantInfo: ContactInfo,
                                               whoisguard: Option<bool>, emailAccepted: bool)

  /**
   * `Number(text)` on the strings modelled: "" is 0, a digit string its
   * decimal value, the rest NaN (written None).
   */
  function YearsNumber(text: string): (y: Option<int>)
    ensures |text| == 0 ==> y == Some(0)
    ensures |text| > 0 && AllDigits(text) ==> y == Some(ParseNat(text))
    ensures !AllDigits(text) ==> y == None
  {
    if |text| == 0 then Some(0)
    else if AllDigits(text) then Some(ParseNat(text))
    else None
  }

  /** Each select option ("1" to "10") turns back into its number. */
  lemma YearsNumberRendered(n: nat)
    ensures YearsNumber(NatToString(n)) == Some(n)
  {
    NatToStringCanonical(n);
  }

  /** The issues of the registrant part, in declaration order. */
  function ContactIssues(c: ContactInfo, emailAccepted: bool): (issues: seq<Issue>)
    ensures |issues| == 0 <==>
              Truthy(c.firstName) && Truthy(c.lastName) && Truthy(c.address1) && Truthy(c.city)
              && Truthy(c.stateProvince) && Truthy(c.postalCode) && Truthy(c.country)
              && PhoneMatches(c.phone) && Truthy(c.emailAddress) && emailAccepted
  {
    IssueIf(!Truthy(c.firstName), "registrantInfo.firstName", "First name is required.")
    + IssueIf(!Truthy(c.lastName), "registrantInfo.lastName", "Last name is required.")
    + IssueIf(!Truthy(c.address1), "registrantInfo.address1", "Address is required.")
    + IssueIf(!Truthy(c.city), "registrantInfo.city", "City is required.")
    + IssueIf(!Truthy(c.stateProvince), "registrantInfo.stateProvince", "State/Province is required.")
    + IssueIf(!Truthy(c.postalCode), "registrantInfo.postalCode", "Postal code is required.")
    + IssueIf(!Truthy(c.country), "registrantInfo.country", "Country is required.")
    + IssueIf(!Truthy(c.phone), "registrantInfo.phone", "Phone number is required.")
    + IssueIf(!PhoneMatches(c.phone), "registrantInfo.phone", "Invalid format. Use +1.1234567890")
    + IssueIf(!(Truthy(c.emailAddress) && emailAccepted), "registrantInfo.emailAddress", "Invalid email address.")
  }

  function RegistrationIssues(f: RegistrationForm): (issues: seq<Issue>)
    ensures |issues| == 0 <==> f.years.Picked? && |ContactIssues(f.registrantInfo, f.emailAccepted)| == 0
  {
    IssueIf(f.years.Initial?, "years", "Expected string, received number")
    + ContactIssues(f.registrantInfo, f.emailAccepted)
  }

  /** The parsed registration: years through `Number` (None for NaN), whoisguard defaulting to true. */
  datatype Registration = Registration(years: Option<int>, registrantInfo: ContactInfo, whoisguard: bool)

  function ParseRegistration(f: RegistrationForm): (r: Option<Registration>)
    ensures r.Some? <==> |RegistrationIssues(f)| == 0
    ensures r.Some? ==> r.value.registrantInfo == f.registrantInfo
    ensures r.Some? ==> (r.value.whoisguard <==> f.whoisguard != Some(false))
    ensures r.Some? ==> r.value.years == YearsNumber(f.years.text)
  {
    if |RegistrationIssues(f)| > 0 then None
    else Some(Registration(YearsNumber(f.years.text), f.registrantInfo, f.whoisguard.GetOr(true)))
  }

  /** A registrant the form accepts passes the register and transfer routes' required-field check. */
  lemma FormContactPassesRoutes(c: ContactInfo, emailAccepted: bool)
    requires |ContactIssues(c, emailAccepted)| == 0
    ensures ContactRejection(c).None?
  {
  }

  /**
   * The optional registrant fields never produce an issue: two contacts
   * that differ only there are judged alike.
   */
  lemma ContactIssuesIgnoreOptional(c: ContactInfo, d: ContactInfo, emailAccepted: bool)
    requires forall f :: !OptionalField(f) ==> FieldValue(c, f) == FieldValue(d, f)
    ensures ContactIssues(c, emailAccepted) == ContactIssues(d, emailAccepted)
  {
    assert FieldValue(c, FirstName) == FieldValue(d, FirstName);
    assert FieldValue(c, LastName) == FieldValue(d, LastName);
    assert FieldValue(c, Address1) == FieldValue(d, Address1);
    assert FieldValue(c, City) == FieldValue(d, City);
    assert FieldValue(c, StateProvince) == FieldValue(d, StateProvince);
    assert FieldValue(c, PostalCode) == FieldValue(d, PostalCode);
    assert FieldValue(c, Country) == FieldValue(d, Country);
    assert FieldValue(c, Phone) == FieldValue(d, Phone);
    assert FieldValue(c, EmailAddress) == FieldValue(d, EmailAddress);
  }

  // ---------------------------------------------------------------------
  // HostingSchema
  // ---------------------------------------------------------------------

  const HostingPlans: seq<string> := ["webcrtae_basic", "webcrtae_pro", "webcrtae_elite"]

  const UsernameLength: string := "Username must be 3-16 characters."
  const UsernameShape: string := "Must start with a letter and contain only lowercase letters and numbers."

  /** /^[a-z][a-z0-9]{2,15}$/ */
  predicate UsernamePattern(s: string) {
    3 <= |s| <= 16 && IsLowerAscii(s[0]) && forall i :: 1 <= i < |s| ==> IsLowerAscii(s[i]) || IsDigit(s[i])
  }

  /** The hosting form; "" stands for a plan that was never chosen. */
  datatype HostingForm = HostingForm(hostingUsername: string, hostingPassword: string, plan: string)

  /** Every failing check of the username reports: both length bounds, then the pattern. */
  function UsernameIssues(s: string): (issues: seq<Issue>)
    ensures |issues| == 0 <==> UsernamePattern(s)
    ensures |s| < 3 || |s| > 16 ==> |issues| == 2 && issues[0].message == UsernameLength
  {
    IssueIf(|s| < 3, "hostingUsername", UsernameLength)
    + IssueIf(|s| > 16, "hostingUsername", UsernameLength)
    + IssueIf(!UsernamePattern(s), "hostingUsername", UsernameShape)
  }

  function PlanIssues(plan: string): (issues: seq<Issue>)
    ensures |issues| == 0 <==> plan in HostingPlans
  {
    if |plan| == 0 then [Issue("plan", "You must select a hosting plan.")]
    else if plan !in HostingPlans then
      [Issue("plan", "Invalid enum value. Expected 'webcrtae_basic' | 'webcrtae_pro' | 'webcrtae_elite', received '"
                     + plan + "'")]
    else []
  }

  function HostingIssues(f: HostingForm): (issues: seq<Issue>)
    ensures |issues| == 0 <==> UsernamePattern(f.hostingUsername) && |f.hostingPassword| >= 8 && f.plan in HostingPlans
  {
    UsernameIssues(f.hostingUsername)
    + IssueIf(|f.hostingPassword| < 8, "hostingPassword", "Password must be at least 8 characters long.")
    + PlanIssues(f.plan)
  }
}
