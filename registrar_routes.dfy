/**
 * The three registrar routes under app/api/namecheap: check, register and
 * transfer. Each route is an ordered chain of guards followed by one or two
 * adapter calls; the model returns the HTTP answer together with the
 * registrar requests that were actually sent, in order.
 */
module RegistrarRoutes {
  import opened Common
  import opened Namecheap

  /** The JSON body: `{success: false, message}` or `{success: true, data}`. */
  datatype Body<T> = Failed(message: string) | Succeeded(data: T)

  datatype Response<T> = Response(status: nat, body: Body<T>)

  /** A route's answer and the registrar requests it sent, oldest first. */
  datatype Handled<T> = Handled(response: Response<T>, sent: seq<ApiCall>)

  /** The request an adapter call put on the wire, as a (possibly empty) log. */
  function SentBy<T>(o: ApiOutcome<T>): (log: seq<ApiCall>)
    ensures |log| <= 1
    ensures |log| == 1 <==> o.sent.Some?
    ensures o.sent.Some? ==> log[0] == o.sent.value
  {
    if o.sent.Some? then [o.sent.value] else []
  }

  /**
   * A thrown adapter error answered with 500 and the error's message;
   * every error the adapter throws is an `Error`, so the fallback text is
   * never used.
   */
  function Crash<T>(message: string, sent: seq<ApiCall>): Handled<T> {
    Handled(Response(500, Failed(message)), sent)
  }

  function Reject<T>(message: string): Handled<T> {
    Handled(Response(400, Failed(message)), [])
  }

  // ---------------------------------------------------------------------
  // Guards shared by register and transfer
  // ---------------------------------------------------------------------

  /**
   * The `years` member of a request body: missing (or null), a JSON number,
   * a JSON string, or a value such as an object that `Number` turns into
   * NaN.
   */
  datatype YearsField = Absent | Num(n: int) | Text(s: string) | NonNumeric

  /** JavaScript truthiness of the member: 0, "" and a missing member are falsy. */
  predicate YearsTruthy(y: YearsField) {
    match y
    case Absent => false
    case Num(n) => n != 0
    case Text(s) => s != ""
    case NonNumeric => true
  }

  /**
   * `!isNaN(years) && years >= 1 && years <= 10`; a string is read by
   * `Number`, which the model applies to digit strings (others are NaN).
   */
  predicate YearsInRange(y: YearsField) {
    match y
    case Num(n) => 1 <= n <= 10
    case Text(s) => |s| > 0 && AllDigits(s) && 1 <= ParseNat(s) <= 10
    case _ => false
  }

  /** The argument the routes hand the adapter: the member itself, number or string. */
  function YearsArgOf(y: YearsField): (a: YearsArg)
    requires YearsInRange(y)
    ensures AllDigits(YearsText(a)) && |YearsText(a)| > 0 && 1 <= ParseNat(YearsText(a)) <= 10
    ensures y.Num? ==> a == Count(y.n)
    ensures y.Text? ==> a == Verbatim(y.s)
  {
    match y
    case Num(n) => NatToStringCanonical(n); Count(n)
    case Text(s) => Verbatim(s)
  }

  const DomainRequired: string := "Domain name is required"
  const YearsOutOfRange: string := "Years must be a number between 1 and 10"
  const RegistrantRequired: string := "Registrant information is required"
  const EppRequired: string := "EPP/Auth code is required"
  const DomainUnavailable: string := "Domain is not available for registration"
  const DomainsRequired: string := "Please provide an array of domain names to check"

  /** The registrant fields both routes insist on, in the order they are checked. */
  const RequiredFields: seq<Field> :=
    [FirstName, LastName, Address1, City, StateProvince, PostalCode, Country, Phone, EmailAddress]

  /** The request-body property name of a contact field. */
  function PropertyName(f: Field): string {
    match f
    case FirstName => "firstName"
    case LastName => "lastName"
    case Address1 => "address1"
    case Address2 => "address2"
    case City => "city"
    case StateProvince => "stateProvince"
    case PostalCode => "postalCode"
    case Country => "country"
    case Phone => "phone"
    case EmailAddress => "emailAddress"
    case OrganizationName => "organizationName"
    case JobTitle => "jobTitle"
  }

  /** Index of the first field of `fields` that is empty in `c`, or `|fields|` when none is. */
  function FirstMissing(c: ContactInfo, fields: seq<Field>): (i: nat)
    ensures i <= |fields|
    ensures forall j :: 0 <= j < i ==> Truthy(FieldValue(c, fields[j]))
    ensures i < |fields| ==> !Truthy(FieldValue(c, fields[i]))
    decreases |fields|
  {
    if |fields| == 0 then 0
    else if !Truthy(FieldValue(c, fields[0])) then 0
    else 1 + FirstMissing(c, fields[1..])
  }

  /** The message for the first required registrant field that is empty, if any. */
  function ContactRejection(c: ContactInfo): (r: Option<string>)
    ensures r.None? <==> forall f :: f in RequiredFields ==> Truthy(FieldValue(c, f))
    ensures r.Some? ==> exists i :: 0 <= i < |RequiredFields|
                          && !Truthy(FieldValue(c, RequiredFields[i]))
                          && (forall j :: 0 <= j < i ==> Truthy(FieldValue(c, RequiredFields[j])))
                          && r.value == "Registrant " + PropertyName(RequiredFields[i]) + " is required"
  {
    var i := FirstMissing(c, RequiredFields);
    if i < |RequiredFields| then Some("Registrant " + PropertyName(RequiredFields[i]) + " is required") else None
  }

  /** Contacts that agree on the checked fields fail (or pass) the check at the same place. */
  lemma {:induction false} FirstMissingAgrees(c: ContactInfo, d: ContactInfo, fields: seq<Field>)
    requires forall j :: 0 <= j < |fields| ==> FieldValue(c, fields[j]) == FieldValue(d, fields[j])
    ensures FirstMissing(c, fields) == FirstMissing(d, fields)
    decreases |fields|
  {
    if |fields| > 0 {
      FirstMissingAgrees(c, d, fields[1..]);
    }
  }

  /** address2, organizationName and jobTitle never decide the required-field check. */
  lemma ContactRejectionIgnoresOptional(c: ContactInfo, d: ContactInfo)
    requires forall f :: !OptionalField(f) ==> FieldValue(c, f) == FieldValue(d, f)
    ensures ContactRejection(c) == ContactRejection(d)
  {
    forall j | 0 <= j < |RequiredFields|
      ensures FieldValue(c, RequiredFields[j]) == FieldValue(d, RequiredFields[j])
    {
      assert !OptionalField(RequiredFields[j]);
    }
    FirstMissingAgrees(c, d, RequiredFields);
  }

  // ---------------------------------------------------------------------
  // POST /api/namecheap/check
  // ---------------------------------------------------------------------

  /** The `domains` member of the body: missing, not an array, or an array. */
  datatype DomainsField = NoDomains | NotAList | Listed(domains: seq<string>)

  /** Non-empty arrays go to the registrar unchanged; anything else is refused before any request. */
  function Check(cfg: Config, field: DomainsField, reply: ApiReply<seq<DomainCheck>>): (h: Handled<seq<DomainCheck>>)
    ensures !(field.Listed? && |field.domains| > 0) ==> h == Reject(DomainsRequired)
    ensures field.Listed? && |field.domains| > 0 ==>
              h.sent == SentBy(CheckAvailability(cfg, field.domains, reply))
    ensures h.response.status == 200 <==>
              field.Listed? && |field.domains| > 0 && |MissingVars(cfg)| == 0 && reply.Answered? && reply.status != "ERROR"
    ensures h.response.status == 200 ==> h.response.body == Succeeded(reply.result)
    ensures field.Listed? && |field.domains| > 0 && CheckAvailability(cfg, field.domains, reply).result.Err? ==>
              h.response == Response(500, Failed(CheckAvailability(cfg, field.domains, reply).result.error))
    ensures h.response.status in {200, 400, 500}
  {
    if !(field.Listed? && |field.domains| > 0) then Reject(DomainsRequired)
    else
      var o := CheckAvailability(cfg, field.domains, reply);
      if o.result.Err? then Crash(o.result.error, SentBy(o))
      else Handled(Response(200, Succeeded(o.result.value)), SentBy(o))
  }

  /**
   * The request a check sends names every listed domain: splitting its
   * DomainList parameter at commas gives the list back when no name
   * contains a comma.
   */
  lemma CheckSendsListedDomains(cfg: Config, domains: seq<string>, reply: ApiReply<seq<DomainCheck>>)
    requires |domains| > 0 && |MissingVars(cfg)| == 0
    requires forall i :: 0 <= i < |domains| ==> ',' !in domains[i]
    ensures var h := Check(cfg, Listed(domains), reply);
            && |h.sent| == 1
            && Named(Command) in h.sent[0].params && h.sent[0].params[Named(Command)] == "namecheap.domains.check"
            && Named(DomainList) in h.sent[0].params
            && Split(h.sent[0].params[Named(DomainList)], ',') == domains
  {
    var p := RequestParams(cfg, "namecheap.domains.check", CheckParams(domains));
    assert Named(DomainList) in CheckParams(domains);
    assert p[Named(DomainList)] == Join(domains, ",");
    assert p[Named(Command)] == "namecheap.domains.check";
    SplitJoin(domains, ',');
  }

  // ---------------------------------------------------------------------
  // POST /api/namecheap/register
  // ---------------------------------------------------------------------

  /** The body of a registration request; "" and `None` stand for members left out. */
  datatype RegisterRequest = RegisterRequest(
    domain: string, years: YearsField, registrantInfo: Option<ContactInfo>,
    techInfo: Option<ContactInfo>, adminInfo: Option<ContactInfo>, auxInfo: Option<ContactInfo>,
    nameservers: seq<string>, addFreeWhoisguard: Option<bool>, enableWhoisguard: Option<bool>)

  /** `flag !== false`: only an explicit `false` turns a whoisguard option off. */
  function OnUnlessFalse(flag: Option<bool>): (on: bool)
    ensures !on <==> flag == Some(false)
  {
    flag != Some(false)
  }

  /** The registration guards in their order: domain, years, registrant, registrant fields. */
  function RegisterRejection(req: RegisterRequest): (r: Option<string>)
    ensures r.None? <==> (Truthy(req.domain) && YearsInRange(req.years) && req.registrantInfo.Some?
                          && ContactRejection(req.registrantInfo.value).None?)
    ensures !Truthy(req.domain) ==> r == Some(DomainRequired)
    ensures Truthy(req.domain) && !YearsInRange(req.years) ==> r == Some(YearsOutOfRange)
    ensures Truthy(req.domain) && YearsInRange(req.years) && req.registrantInfo.None? ==> r == Some(RegistrantRequired)
    ensures Truthy(req.domain) && YearsInRange(req.years) && req.registrantInfo.Some? ==>
              r == ContactRejection(req.registrantInfo.value)
  {
    if !Truthy(req.domain) then Some(DomainRequired)
    else if !YearsInRange(req.years) then Some(YearsOutOfRange)
    else if req.registrantInfo.None? then Some(RegistrantRequired)
    else ContactRejection(req.registrantInfo.value)
  }

  /** Some entry of the availability answer names exactly this domain with Available "true". */
  predicate ListsAvailable(checks: seq<DomainCheck>, domain: string) {
    exists i :: 0 <= i < |checks| && checks[i].domain == domain && checks[i].available == "true"
  }

  /** The adapter call a validated registration makes. */
  function CreateFor(cfg: Config, req: RegisterRequest, reply: ApiReply<Attributes>): ApiOutcome<Attributes>
    requires RegisterRejection(req).None?
  {
    RegisterDomain(cfg, req.domain, YearsArgOf(req.years), req.registrantInfo.value, req.techInfo, req.adminInfo,
                   req.auxInfo, req.nameservers, OnUnlessFalse(req.addFreeWhoisguard),
                   OnUnlessFalse(req.enableWhoisguard), reply)
  }

  /**
   * POST /api/namecheap/register: validation, then an availability check of
   * the one domain, then the registration itself, which is sent only when
   * the check lists the domain as available.
   */
  function Register(cfg: Config, req: RegisterRequest, checkReply: ApiReply<seq<DomainCheck>>,
                    createReply: ApiReply<Attributes>): (h: Handled<Attributes>)
    ensures RegisterRejection(req).Some? ==> h == Reject(RegisterRejection(req).value)
    ensures RegisterRejection(req).None? && |h.sent| >= 1 ==> Some(h.sent[0]) == CheckAvailability(cfg, [req.domain], checkReply).sent
    ensures |h.sent| == 2 <==>
              RegisterRejection(req).None? && |MissingVars(cfg)| == 0 && checkReply.Answered?
              && checkReply.status != "ERROR" && ListsAvailable(checkReply.result, req.domain)
    ensures |h.sent| == 2 ==> Some(h.sent[1]) == CreateFor(cfg, req, createReply).sent
    ensures h.response.status == 201 <==> |h.sent| == 2 && createReply.Answered? && createReply.status != "ERROR"
    ensures h.response.status == 201 ==> h.response.body == Succeeded(createReply.result)
    ensures RegisterRejection(req).None? && CheckAvailability(cfg, [req.domain], checkReply).result.Err? ==>
              h.response == Response(500, Failed(CheckAvailability(cfg, [req.domain], checkReply).result.error))
              && h.sent == SentBy(CheckAvailability(cfg, [req.domain], checkReply))
    ensures RegisterRejection(req).None? && CheckAvailability(cfg, [req.domain], checkReply).result.Ok?
            && !ListsAvailable(checkReply.result, req.domain) ==>
              h == Handled(Response(400, Failed(DomainUnavailable)), SentBy(CheckAvailability(cfg, [req.domain], checkReply)))
    ensures |h.sent| == 2 && CreateFor(cfg, req, createReply).result.Err? ==>
              h.response == Response(500, Failed(CreateFor(cfg, req, createReply).result.error))
    ensures h.response.status in {201, 400, 500}
  {
    match RegisterRejection(req)
    case Some(message) => Reject(message)
    case None =>
      var check := CheckAvailability(cfg, [req.domain], checkReply);
      if check.result.Err? then Crash(check.result.error, SentBy(check))
      else if !ListsAvailable(check.result.value, req.domain) then
        Handled(Response(400, Failed(DomainUnavailable)), SentBy(check))
      else CreateStep(SentBy(check), CreateFor(cfg, req, createReply))
  }

  /** The registration request after the check that preceded it: 201 with its result, or 500. */
  function CreateStep(checkSent: seq<ApiCall>, create: ApiOutcome<Attributes>): (h: Handled<Attributes>)
    ensures h.sent == checkSent + SentBy(create)
    ensures h.response.status == 201 <==> create.result.Ok?
    ensures h.response.status == 201 ==> h.response.body == Succeeded(create.result.value)
    ensures create.result.Err? ==> h.response == Response(500, Failed(create.result.error))
    ensures h.response.status in {201, 500}
  {
    var sent := checkSent + SentBy(create);
    if create.result.Err? then Crash(create.result.error, sent)
    else Handled(Response(201, Succeeded(create.result.value)), sent)
  }

  /**
   * What a sent registration carries: the requested domain, the years as
   * given (a number rendered in decimal, a string as it came, either way
   * between 1 and 10), both whoisguard options "yes" unless the body said
   * `false`.
   */
  lemma RegisterSendsRequestedValues(cfg: Config, req: RegisterRequest, checkReply: ApiReply<seq<DomainCheck>>,
                                     createReply: ApiReply<Attributes>)
    requires |Register(cfg, req, checkReply, createReply).sent| == 2
    ensures var p := Register(cfg, req, checkReply, createReply).sent[1].params;
            && Named(Command) in p && p[Named(Command)] == "namecheap.domains.create"
            && Named(DomainName) in p && p[Named(DomainName)] == req.domain
            && Named(Years) in p && AllDigits(p[Named(Years)]) && 1 <= ParseNat(p[Named(Years)]) <= 10
            && (req.years.Num? ==> p[Named(Years)] == IntToString(req.years.n))
            && (req.years.Text? ==> p[Named(Years)] == req.years.s)
            && Named(AddFreeWhoisguard) in p && (p[Named(AddFreeWhoisguard)] == "no" <==> req.addFreeWhoisguard == Some(false))
            && Named(WGEnabled) in p && (p[Named(WGEnabled)] == "no" <==> req.enableWhoisguard == Some(false))
  {
    RegisterDomainSends(cfg, req.domain, YearsArgOf(req.years), req.registrantInfo.value, req.techInfo, req.adminInfo,
                        req.auxInfo, req.nameservers, OnUnlessFalse(req.addFreeWhoisguard),
                        OnUnlessFalse(req.enableWhoisguard), createReply);
  }

  // ---------------------------------------------------------------------
  // POST /api/namecheap/transfer
  // ---------------------------------------------------------------------

  /** The body of a transfer request; "" and `None` stand for members left out. */
  datatype TransferRequest = TransferRequest(
    domain: string, epp: string, years: YearsField, registrantInfo: Option<ContactInfo>,
    techInfo: Option<ContactInfo>, adminInfo: Option<ContactInfo>, auxInfo: Option<ContactInfo>,
    addFreeWhoisguard: Option<bool>, enableWhoisguard: Option<bool>)

  /** The transfer guards in their order: domain, EPP code, years (only when given), registrant, fields. */
  function TransferRejection(req: TransferRequest): (r: Option<string>)
    ensures r.None? <==> (Truthy(req.domain) && Truthy(req.epp) && (YearsTruthy(req.years) ==> YearsInRange(req.years))
                          && req.registrantInfo.Some? && ContactRejection(req.registrantInfo.value).None?)
    ensures !Truthy(req.domain) ==> r == Some(DomainRequired)
    ensures Truthy(req.domain) && !Truthy(req.epp) ==> r == Some(EppRequired)
    ensures Truthy(req.domain) && Truthy(req.epp) && YearsTruthy(req.years) && !YearsInRange(req.years) ==>
              r == Some(YearsOutOfRange)
    ensures Truthy(req.domain) && Truthy(req.epp) && (YearsTruthy(req.years) ==> YearsInRange(req.years)) ==>
              r == (if req.registrantInfo.None? then Some(RegistrantRequired) else ContactRejection(req.registrantInfo.value))
  {
    if !Truthy(req.domain) then Some(DomainRequired)
    else if !Truthy(req.epp) then Some(EppRequired)
    else if YearsTruthy(req.years) && !YearsInRange(req.years) then Some(YearsOutOfRange)
    else if req.registrantInfo.None? then Some(RegistrantRequired)
    else ContactRejection(req.registrantInfo.value)
  }

  /** `years || 1` on a body that passed validation: the member as given, or the number 1. */
  function TransferYears(y: YearsField): (a: YearsArg)
    requires YearsTruthy(y) ==> YearsInRange(y)
    ensures AllDigits(YearsText(a)) && |YearsText(a)| > 0 && 1 <= ParseNat(YearsText(a)) <= 10
    ensures YearsTruthy(y) ==> a == YearsArgOf(y)
    ensures !YearsTruthy(y) ==> a == Count(1)
  {
    if YearsTruthy(y) then YearsArgOf(y)
    else
      assert YearsText(Count(1)) == "1";
      Count(1)
  }

  /**
   * The number 0 is falsy and skips the range check, so it means one year;
   * the string "0" is truthy and is refused.
   */
  lemma ZeroYearsNumberVersusString(req: TransferRequest)
    requires Truthy(req.domain) && Truthy(req.epp)
    ensures TransferRejection(req.(years := Text("0"))) == Some(YearsOutOfRange)
    ensures TransferRejection(req.(years := Num(0))) == TransferRejection(req.(years := Absent))
  {
    assert ParseNat("0") == 0 by {
      assert "0"[..0] == "";
    }
  }

  /** The adapter call a validated transfer makes. */
  function TransferFor(cfg: Config, req: TransferRequest, reply: ApiReply<Attributes>): ApiOutcome<Attributes>
    requires TransferRejection(req).None?
  {
    TransferDomain(cfg, req.domain, req.epp, Some(TransferYears(req.years)), req.registrantInfo.value,
                   req.techInfo, req.adminInfo, req.auxInfo, OnUnlessFalse(req.addFreeWhoisguard),
                   OnUnlessFalse(req.enableWhoisguard), reply)
  }

  /** POST /api/namecheap/transfer: validation, then the transfer itself; there is no availability check. */
  function Transfer(cfg: Config, req: TransferRequest, reply: ApiReply<Attributes>): (h: Handled<Attributes>)
    ensures TransferRejection(req).Some? ==> h == Reject(TransferRejection(req).value)
    ensures TransferRejection(req).None? ==> h.sent == SentBy(TransferFor(cfg, req, reply))
    ensures h.response.status == 201 <==>
              TransferRejection(req).None? && |MissingVars(cfg)| == 0 && reply.Answered? && reply.status != "ERROR"
    ensures h.response.status == 201 ==> h.response.body == Succeeded(reply.result)
    ensures TransferRejection(req).None? && TransferFor(cfg, req, reply).result.Err? ==>
              h.response == Response(500, Failed(TransferFor(cfg, req, reply).result.error))
    ensures h.response.status in {201, 400, 500}
  {
    match TransferRejection(req)
    case Some(message) => Reject(message)
    case None =>
      var o := TransferFor(cfg, req, reply);
      if o.result.Err? then Crash(o.result.error, SentBy(o))
      else Handled(Response(201, Succeeded(o.result.value)), SentBy(o))
  }

  /**
   * What a sent transfer carries: the domain, the EPP code, the years as
   * given (between 1 and 10) or "1" when none, 0 or "" was given, and the
   * whoisguard options.
   */
  lemma TransferSendsRequestedValues(cfg: Config, req: TransferRequest, reply: ApiReply<Attributes>)
    requires |Transfer(cfg, req, reply).sent| == 1
    ensures var p := Transfer(cfg, req, reply).sent[0].params;
            && Named(Command) in p && p[Named(Command)] == "namecheap.domains.transfer.create"
            && Named(DomainName) in p && p[Named(DomainName)] == req.domain
            && Named(EPPCode) in p && p[Named(EPPCode)] == req.epp
            && Named(Years) in p && AllDigits(p[Named(Years)]) && 1 <= ParseNat(p[Named(Years)]) <= 10
            && (req.years.Num? && req.years.n != 0 ==> p[Named(Years)] == IntToString(req.years.n))
            && (req.years.Text? && req.years.s != "" ==> p[Named(Years)] == req.years.s)
            && (!YearsTruthy(req.years) ==> p[Named(Years)] == "1")
            && Named(Nameservers) !in p
            && Named(AddFreeWhoisguard) in p && (p[Named(AddFreeWhoisguard)] == "no" <==> req.addFreeWhoisguard == Some(false))
            && Named(WGEnabled) in p && (p[Named(WGEnabled)] == "no" <==> req.enableWhoisguard == Some(false))
  {
    var y := TransferYears(req.years);
    TransferDomainSends(cfg, req.domain, req.epp, Some(y), req.registrantInfo.value, req.techInfo, req.adminInfo,
                        req.auxInfo, OnUnlessFalse(req.addFreeWhoisguard), OnUnlessFalse(req.enableWhoisguard), reply);
  }
}
