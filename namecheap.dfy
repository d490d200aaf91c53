/**
 * The registrar adapter (app/utils/namecheap.ts): configuration check,
 * endpoint choice, request parameter maps for the check / create /
 * transfer / pricing commands, and the interpretation of the registrar's
 * reply. The HTTP request and the XML parsing are not modelled: the
 * parsed reply is a parameter (`ApiReply`), and every function that
 * would send a request returns the request it sends instead.
 */
module Namecheap {
  import opened Common

  const SandboxUrl: string := "https://api.sandbox.namecheap.com/xml.response"
  const ProductionUrl: string := "https://api.namecheap.com/xml.response"

  const UsernameVar: string := "NAMECHEAP_USERNAME"
  const ApiKeyVar: string := "NAMECHEAP_API_KEY"
  const ClientIpVar: string := "NAMECHEAP_CLIENT_IP"

  /** The process environment the adapter reads; "" stands for an unset variable. */
  datatype Config = Config(username: string, apiKey: string, clientIp: string, sandbox: string)

  datatype ApiError = ApiError(number: string, message: string)

  /** The registrar's parsed reply, or the transport failure that replaced it. */
  datatype ApiReply<T> =
    | Unreachable(message: string)
    | Answered(status: string, errors: seq<ApiError>, result: T)

  /** A request that was actually sent: endpoint and query parameters. */
  datatype ApiCall = ApiCall(url: string, params: map<ParamKey, string>)

  /** What one adapter call did: the request it sent (if any) and what it returned or threw. */
  datatype ApiOutcome<T> = ApiOutcome(sent: Option<ApiCall>, result: Result<T, string>)

  /** One entry of a domains.check answer (the attributes Domain and Available). */
  datatype DomainCheck = DomainCheck(domain: string, available: string)

  /** The XML attributes of a create / transfer result element. */
  type Attributes = map<string, string>

  // ---------------------------------------------------------------------
  // makeNamecheapApiRequest
  // ---------------------------------------------------------------------

  /** The unset variables, in the fixed order username, API key, client IP. */
  function MissingVars(cfg: Config): seq<string> {
    (if Truthy(cfg.username) then [] else [UsernameVar])
    + (if Truthy(cfg.apiKey) then [] else [ApiKeyVar])
    + (if Truthy(cfg.clientIp) then [] else [ClientIpVar])
  }

  /** Position of a variable in the fixed reporting order. */
  function VarRank(v: string): nat {
    if v == UsernameVar then 0 else if v == ApiKeyVar then 1 else 2
  }

  const ConfigErrorLead: string := "Namecheap configuration error – missing env variable"

  function ConfigErrorMessage(missing: seq<string>): string {
    ConfigErrorLead + (if |missing| > 1 then "s" else "") + ": " + Join(missing, ", ")
  }

  /** The sandbox endpoint is used exactly when NAMECHEAP_SANDBOX is the string "true". */
  function ApiUrl(cfg: Config): (url: string)
    ensures url == SandboxUrl <==> cfg.sandbox == "true"
    ensures url == ProductionUrl <==> cfg.sandbox != "true"
  {
    if cfg.sandbox == "true" then SandboxUrl else ProductionUrl
  }

  /** Credentials and command first, then the caller's parameters, which win on a clash. */
  function RequestParams(cfg: Config, command: string, params: map<ParamKey, string>): (r: map<ParamKey, string>)
    ensures r.Keys == {Named(ApiUser), Named(ApiKey), Named(UserName), Named(ClientIp), Named(Command)} + params.Keys
    ensures forall k :: k in params ==> r[k] == params[k]
    ensures Named(Command) !in params ==> r[Named(Command)] == command
    ensures Named(ApiUser) !in params ==> r[Named(ApiUser)] == cfg.username
    ensures Named(UserName) !in params ==> r[Named(UserName)] == cfg.username
    ensures Named(ApiKey) !in params ==> r[Named(ApiKey)] == cfg.apiKey
    ensures Named(ClientIp) !in params ==> r[Named(ClientIp)] == cfg.clientIp
  {
    map[Named(ApiUser) := cfg.username, Named(ApiKey) := cfg.apiKey, Named(UserName) := cfg.username,
        Named(ClientIp) := cfg.clientIp, Named(Command) := command] + params
  }

  function HexDigit(d: nat): char
    requires d < 16
  {
    "0123456789abcdef"[d]
  }

  /** `JSON.stringify` applied to one character of a string. */
  function EscapeChar(c: char): string {
    if c == '"' then "\\\""
    else if c == '\\' then "\\\\"
    else if c == '\U{8}' then "\\b"
    else if c == '\t' then "\\t"
    else if c == '\n' then "\\n"
    else if c == '\U{C}' then "\\f"
    else if c == '\r' then "\\r"
    else if c < ' ' then "\\u00" + [HexDigit(c as int / 16), HexDigit(c as int % 16)]
    else [c]
  }

  function EscapeString(s: string): string
    decreases |s|
  {
    if |s| == 0 then "" else EscapeChar(s[0]) + EscapeString(s[1..])
  }

  function JsonString(s: string): string {
    "\"" + EscapeString(s) + "\""
  }

  function ErrorJson(e: ApiError): string {
    "{\"number\":" + JsonString(e.number) + ",\"message\":" + JsonString(e.message) + "}"
  }

  function ErrorJsons(errors: seq<ApiError>): (r: seq<string>)
    ensures |r| == |errors|
    ensures forall i :: 0 <= i < |errors| ==> r[i] == ErrorJson(errors[i])
  {
    seq(|errors|, i requires 0 <= i < |errors| => ErrorJson(errors[i]))
  }

  const ApiErrorLead: string := "Namecheap API Error: ["

  /** The message thrown for an ERROR reply: the (number, message) pairs as a JSON array. */
  function ApiErrorMessage(errors: seq<ApiError>): string {
    ApiErrorLead + Join(ErrorJsons(errors), ",") + "]"
  }

  /**
   * makeNamecheapApiRequest: with a variable missing nothing is sent and
   * the configuration error is thrown; otherwise the request goes to the
   * chosen endpoint and an ERROR status becomes a thrown error listing
   * the registrar's errors.
   */
  function Perform<T>(cfg: Config, command: string, params: map<ParamKey, string>, reply: ApiReply<T>): (o: ApiOutcome<T>)
    ensures |MissingVars(cfg)| > 0 ==> o.sent == None && o.result == Err(ConfigErrorMessage(MissingVars(cfg)))
    ensures |MissingVars(cfg)| == 0 ==> o.sent == Some(ApiCall(ApiUrl(cfg), RequestParams(cfg, command, params)))
    ensures o.result.Ok? <==> |MissingVars(cfg)| == 0 && reply.Answered? && reply.status != "ERROR"
    ensures o.result.Ok? ==> o.result.value == reply.result
    ensures |MissingVars(cfg)| == 0 && reply.Answered? && reply.status == "ERROR" ==>
              o.result == Err(ApiErrorMessage(reply.errors))
    ensures |MissingVars(cfg)| == 0 && reply.Unreachable? ==> o.result == Err(reply.message)
  {
    var missing := MissingVars(cfg);
    if |missing| > 0 then ApiOutcome(None, Err(ConfigErrorMessage(missing)))
    else
      var call := Some(ApiCall(ApiUrl(cfg), RequestParams(cfg, command, params)));
      match reply
      case Unreachable(message) => ApiOutcome(call, Err(message))
      case Answered(status, errors, result) =>
        if status == "ERROR" then ApiOutcome(call, Err(ApiErrorMessage(errors)))
        else ApiOutcome(call, Ok(result))
  }

  /** Each missing variable is reported, in the fixed order, and only missing ones. */
  lemma MissingVarsReported(cfg: Config)
    ensures UsernameVar in MissingVars(cfg) <==> !Truthy(cfg.username)
    ensures ApiKeyVar in MissingVars(cfg) <==> !Truthy(cfg.apiKey)
    ensures ClientIpVar in MissingVars(cfg) <==> !Truthy(cfg.clientIp)
    ensures forall i, j :: 0 <= i < j < |MissingVars(cfg)| ==> VarRank(MissingVars(cfg)[i]) < VarRank(MissingVars(cfg)[j])
  {
  }

  /** Where the `i`-th missing name starts in the configuration error message. */
  function ConfigNameOffset(missing: seq<string>, i: nat): nat
    requires i < |missing|
  {
    |ConfigErrorLead| + (if |missing| > 1 then 1 else 0) + 2 + JoinOffset(missing, ", ", i)
  }

  /** "variables" (plural) exactly when more than one is missing, and every missing name is in the message. */
  lemma ConfigMessageLists(missing: seq<string>, i: nat)
    requires i < |missing|
    ensures |ConfigErrorMessage(missing)| > |ConfigErrorLead|
    ensures ConfigErrorMessage(missing)[|ConfigErrorLead|] == 's' <==> |missing| > 1
    ensures Occurs(ConfigErrorMessage(missing), ConfigNameOffset(missing, i), missing[i])
  {
    var plural := if |missing| > 1 then "s" else "";
    var pre := ConfigErrorLead + plural + ": ";
    JoinHolds(missing, ", ", i);
    OccursInContext(pre, Join(missing, ", "), "", JoinOffset(missing, ", ", i), missing[i]);
    assert pre + Join(missing, ", ") + "" == ConfigErrorMessage(missing);
    assert ConfigErrorMessage(missing)[|ConfigErrorLead|] == (plural + ": ")[0];
  }

  /** Where the `i`-th error object starts in the ERROR message. */
  function ErrorOffset(errors: seq<ApiError>, i: nat): nat
    requires i < |errors|
  {
    |ApiErrorLead| + JoinOffset(ErrorJsons(errors), ",", i)
  }

  /** An ERROR reply's message carries every (number, message) pair, in the registrar's order. */
  lemma ApiErrorsListedInOrder(errors: seq<ApiError>, i: nat)
    requires i < |errors|
    ensures Occurs(ApiErrorMessage(errors), ErrorOffset(errors, i), ErrorJson(errors[i]))
    ensures i + 1 < |errors| ==> ErrorOffset(errors, i) + |ErrorJson(errors[i])| < ErrorOffset(errors, i + 1)
  {
    var js := ErrorJsons(errors);
    JoinHolds(js, ",", i);
    OccursInContext(ApiErrorLead, Join(js, ","), "]", JoinOffset(js, ",", i), js[i]);
    if i + 1 < |errors| {
      JoinOffsetNext(js, ",", i);
    }
  }

  // ---------------------------------------------------------------------
  // Contact parameters (addContactInfoToParams)
  // ---------------------------------------------------------------------

  /** A contact record; an empty optional field is one the caller left out. */
  datatype ContactInfo = ContactInfo(
    firstName: string, lastName: string, address1: string, address2: string,
    city: string, stateProvince: string, postalCode: string, country: string,
    phone: string, emailAddress: string, organizationName: string, jobTitle: string)

  /** The contact roles of a registration, i.e. the key prefixes. */
  datatype Role = Registrant | Tech | Admin | AuxBilling

  datatype Field =
    | FirstName | LastName | Address1 | Address2 | City | StateProvince
    | PostalCode | Country | Phone | EmailAddress | OrganizationName | JobTitle

  /**
   * A request parameter key. Keys written per contact are kept structured;
   * `KeyName` gives the string the registrar receives (`${prefix}${field}`).
   */
  datatype ParamKey = Named(name: Name) | Contact(role: Role, field: Field)

  /** The fixed parameter names the adapter sends. */
  datatype Name =
    | ApiUser | ApiKey | UserName | ClientIp | Command
    | DomainList | DomainName | EPPCode | Years | AddFreeWhoisguard | WGEnabled | Nameservers
    | ProductType | ProductCategory | ProductName

  function RoleName(r: Role): string {
    match r
    case Registrant => "Registrant"
    case Tech => "Tech"
    case Admin => "Admin"
    case AuxBilling => "AuxBilling"
  }

  function FieldName(f: Field): string {
    match f
    case FirstName => "FirstName"
    case LastName => "LastName"
    case Address1 => "Address1"
    case Address2 => "Address2"
    case City => "City"
    case StateProvince => "StateProvince"
    case PostalCode => "PostalCode"
    case Country => "Country"
    case Phone => "Phone"
    case EmailAddress => "EmailAddress"
    case OrganizationName => "OrganizationName"
    case JobTitle => "JobTitle"
  }

  function NameString(n: Name): string {
    match n
    case ApiUser => "ApiUser"
    case ApiKey => "ApiKey"
    case UserName => "UserName"
    case ClientIp => "ClientIp"
    case Command => "Command"
    case DomainList => "DomainList"
    case DomainName => "DomainName"
    case EPPCode => "EPPCode"
    case Years => "Years"
    case AddFreeWhoisguard => "AddFreeWhoisguard"
    case WGEnabled => "WGEnabled"
    case Nameservers => "Nameservers"
    case ProductType => "ProductType"
    case ProductCategory => "ProductCategory"
    case ProductName => "ProductName"
  }

  function KeyName(k: ParamKey): string {
    match k
    case Named(n) => NameString(n)
    case Contact(r, f) => RoleName(r) + FieldName(f)
  }

  function FieldValue(c: ContactInfo, f: Field): string {
    match f
    case FirstName => c.firstName
    case LastName => c.lastName
    case Address1 => c.address1
    case Address2 => c.address2
    case City => c.city
    case StateProvince => c.stateProvince
    case PostalCode => c.postalCode
    case Country => c.country
    case Phone => c.phone
    case EmailAddress => c.emailAddress
    case OrganizationName => c.organizationName
    case JobTitle => c.jobTitle
  }

  /** The three fields written only when non-empty. */
  predicate OptionalField(f: Field) {
    f == Address2 || f == OrganizationName || f == JobTitle
  }

  /** The keys addContactInfoToParams may write under a role: one per field. */
  function ContactKeys(role: Role): set<ParamKey> {
    {Contact(role, FirstName), Contact(role, LastName), Contact(role, Address1), Contact(role, Address2),
     Contact(role, City), Contact(role, StateProvince), Contact(role, PostalCode), Contact(role, Country),
     Contact(role, Phone), Contact(role, EmailAddress), Contact(role, OrganizationName), Contact(role, JobTitle)}
  }

  lemma InContactKeys(role: Role, f: Field)
    ensures Contact(role, f) in ContactKeys(role)
  {
    match f
    case FirstName => case LastName => case Address1 => case Address2 => case City =>
    case StateProvince => case PostalCode => case Country => case Phone => case EmailAddress =>
    case OrganizationName => case JobTitle =>
  }

  /** Whether addContactInfoToParams writes key `k` for contact `c` under `role`. */
  predicate Writes(role: Role, c: ContactInfo, k: ParamKey) {
    k.Contact? && k.role == role && (!OptionalField(k.field) || Truthy(FieldValue(c, k.field)))
  }

  /**
   * The entries addContactInfoToParams writes for one contact, stated
   * directly: the value of every field it writes, under the role's prefix.
   */
  function ContactParams(role: Role, c: ContactInfo): map<ParamKey, string> {
    map k | k in ContactKeys(role) && Writes(role, c, k) :: FieldValue(c, k.field)
  }

  /** A contact's entries all sit under its own role. */
  lemma ContactParamsRole(role: Role, c: ContactInfo, k: ParamKey)
    ensures k in ContactParams(role, c) ==> k.Contact? && k.role == role
  {
  }

  /**
   * A contact contributes a mandatory field always, and an optional field
   * (Address2, OrganizationName, JobTitle) exactly when it is non-empty,
   * with the contact's value.
   */
  lemma ContactParamsField(role: Role, c: ContactInfo, f: Field)
    ensures Contact(role, f) in ContactParams(role, c) <==> !OptionalField(f) || Truthy(FieldValue(c, f))
    ensures Contact(role, f) in ContactParams(role, c) ==> ContactParams(role, c)[Contact(role, f)] == FieldValue(c, f)
  {
    InContactKeys(role, f);
  }

  /** One line of addContactInfoToParams: writes field `f` unless it is optional and empty. */
  function Put(m: map<ParamKey, string>, role: Role, c: ContactInfo, f: Field): map<ParamKey, string> {
    if Writes(role, c, Contact(role, f)) then m[Contact(role, f) := FieldValue(c, f)] else m
  }

  /** The lines of addContactInfoToParams, in its order. */
  function WithContact(m: map<ParamKey, string>, role: Role, c: ContactInfo): map<ParamKey, string> {
    var m := Put(Put(Put(m, role, c, FirstName), role, c, LastName), role, c, Address1);
    var m := Put(Put(Put(m, role, c, Address2), role, c, City), role, c, StateProvince);
    var m := Put(Put(Put(m, role, c, PostalCode), role, c, Country), role, c, Phone);
    Put(Put(Put(m, role, c, EmailAddress), role, c, OrganizationName), role, c, JobTitle)
  }

  lemma PutAt(m: map<ParamKey, string>, role: Role, c: ContactInfo, f: Field, k: ParamKey)
    ensures k in Put(m, role, c, f) <==> k in m || (k == Contact(role, f) && Writes(role, c, k))
    ensures k in Put(m, role, c, f) ==>
              Put(m, role, c, f)[k] == if k == Contact(role, f) && Writes(role, c, k) then FieldValue(c, f) else m[k]
  {
  }

  /**
   * What addContactInfoToParams leaves under one key: the contact's value
   * where it writes, the earlier value everywhere else.
   */
  lemma WithContactAt(m: map<ParamKey, string>, role: Role, c: ContactInfo, k: ParamKey)
    ensures k in WithContact(m, role, c) <==> k in m || Writes(role, c, k)
    ensures k in WithContact(m, role, c) ==>
              WithContact(m, role, c)[k] == if Writes(role, c, k) then FieldValue(c, k.field) else m[k]
  {
    var m1 := Put(m, role, c, FirstName);
    var m2 := Put(m1, role, c, LastName);
    var m3 := Put(m2, role, c, Address1);
    var m4 := Put(m3, role, c, Address2);
    var m5 := Put(m4, role, c, City);
    var m6 := Put(m5, role, c, StateProvince);
    var m7 := Put(m6, role, c, PostalCode);
    var m8 := Put(m7, role, c, Country);
    var m9 := Put(m8, role, c, Phone);
    var m10 := Put(m9, role, c, EmailAddress);
    var m11 := Put(m10, role, c, OrganizationName);
    assert WithContact(m, role, c) == Put(m11, role, c, JobTitle);
    PutAt(m, role, c, FirstName, k);
    PutAt(m1, role, c, LastName, k);
    PutAt(m2, role, c, Address1, k);
    PutAt(m3, role, c, Address2, k);
    PutAt(m4, role, c, City, k);
    PutAt(m5, role, c, StateProvince, k);
    PutAt(m6, role, c, PostalCode, k);
    PutAt(m7, role, c, Country, k);
    PutAt(m8, role, c, Phone, k);
    PutAt(m9, role, c, EmailAddress, k);
    PutAt(m10, role, c, OrganizationName, k);
    PutAt(m11, role, c, JobTitle, k);
    if k.Contact? && k.role == role {
      match k.field
      case FirstName => case LastName => case Address1 => case Address2 => case City =>
      case StateProvince => case PostalCode => case Country => case Phone => case EmailAddress =>
      case OrganizationName => case JobTitle =>
    }
  }

  /** Running the lines one after another overlays the contact's entries on the dictionary. */
  lemma WithContactIsOverlay(m: map<ParamKey, string>, role: Role, c: ContactInfo)
    ensures WithContact(m, role, c) == m + ContactParams(role, c)
  {
    var r := WithContact(m, role, c);
    var cp := ContactParams(role, c);
    forall k | k in r || k in m + cp
      ensures k in r && k in m + cp && r[k] == (m + cp)[k]
    {
      WithContactAt(m, role, c, k);
      ContactParamsRole(role, c, k);
      if k.Contact? && k.role == role {
        ContactParamsField(role, c, k.field);
      }
    }
  }

  /** A dictionary the builders fill in place. */
  class ParamMap {
    var entries: map<ParamKey, string>

    constructor (initial: map<ParamKey, string>)
      ensures entries == initial
    {
      entries := initial;
    }

    method Set(key: ParamKey, value: string)
      modifies this
      ensures entries == old(entries)[key := value]
    {
      entries := entries[key := value];
    }

    /** addContactInfoToParams: writes the contact's entries under its role's prefix. */
    method AddContactInfo(role: Role, c: ContactInfo)
      modifies this
      ensures entries == old(entries) + ContactParams(role, c)
    {
      PutField(role, c, FirstName);
      PutField(role, c, LastName);
      PutField(role, c, Address1);
      PutField(role, c, Address2);
      PutField(role, c, City);
      PutField(role, c, StateProvince);
      PutField(role, c, PostalCode);
      PutField(role, c, Country);
      PutField(role, c, Phone);
      PutField(role, c, EmailAddress);
      PutField(role, c, OrganizationName);
      PutField(role, c, JobTitle);
      WithContactIsOverlay(old(entries), role, c);
    }

    /** One line of addContactInfoToParams; the optional fields are skipped when empty. */
    method PutField(role: Role, c: ContactInfo, f: Field)
      modifies this
      ensures entries == Put(old(entries), role, c, f)
    {
      if !OptionalField(f) || Truthy(FieldValue(c, f)) {
        entries := entries[Contact(role, f) := FieldValue(c, f)];
      }
    }
  }

  // ---------------------------------------------------------------------
  // registerDomain / transferDomain / checkDomainAvailability / getPricing
  // ---------------------------------------------------------------------

  function YesNo(b: bool): string {
    if b then "yes" else "no"
  }

  /** The contact used for a role: the one supplied, or else the registrant. */
  function RoleContact(supplied: Option<ContactInfo>, registrant: ContactInfo): ContactInfo {
    supplied.GetOr(registrant)
  }

  /** The contact whose details are written under `role`. */
  function ContactFor(role: Role, registrant: ContactInfo, tech: Option<ContactInfo>, admin: Option<ContactInfo>,
                      aux: Option<ContactInfo>): ContactInfo {
    match role
    case Registrant => registrant
    case Tech => RoleContact(tech, registrant)
    case Admin => RoleContact(admin, registrant)
    case AuxBilling => RoleContact(aux, registrant)
  }

  /**
   * The `years` argument as a route passes it: typed as a number, but a
   * string taken from a request body arrives unconverted.
   */
  datatype YearsArg = Count(n: int) | Verbatim(text: string)

  /** `years.toString()`: a number's decimal rendering, a string itself. */
  function YearsText(y: YearsArg): string {
    match y
    case Count(n) => IntToString(n)
    case Verbatim(text) => text
  }

  function RegisterBase(domain: string, years: YearsArg, addFreeWhoisguard: bool, enableWhoisguard: bool): map<ParamKey, string> {
    map[Named(DomainName) := domain, Named(Years) := YearsText(years),
        Named(AddFreeWhoisguard) := YesNo(addFreeWhoisguard), Named(WGEnabled) := YesNo(enableWhoisguard)]
  }

  function TransferBase(domain: string, epp: string, years: Option<YearsArg>, addFreeWhoisguard: bool,
                        enableWhoisguard: bool): map<ParamKey, string> {
    map[Named(DomainName) := domain, Named(EPPCode) := epp, Named(Years) := YearsText(years.GetOr(Count(1))),
        Named(AddFreeWhoisguard) := YesNo(addFreeWhoisguard), Named(WGEnabled) := YesNo(enableWhoisguard)]
  }

  /** The four contacts overlaid on `m`, registrant first. */
  function WithAllContacts(m: map<ParamKey, string>, registrant: ContactInfo, tech: Option<ContactInfo>,
                           admin: Option<ContactInfo>, aux: Option<ContactInfo>): map<ParamKey, string> {
    m + ContactParams(Registrant, registrant) + ContactParams(Tech, RoleContact(tech, registrant))
      + ContactParams(Admin, RoleContact(admin, registrant)) + ContactParams(AuxBilling, RoleContact(aux, registrant))
  }

  /** The parameter map registerDomain sends with namecheap.domains.create. */
  function RegisterParams(domain: string, years: YearsArg, registrant: ContactInfo, tech: Option<ContactInfo>,
                          admin: Option<ContactInfo>, aux: Option<ContactInfo>, nameservers: seq<string>,
                          addFreeWhoisguard: bool, enableWhoisguard: bool): map<ParamKey, string> {
    var m := WithAllContacts(RegisterBase(domain, years, addFreeWhoisguard, enableWhoisguard), registrant, tech, admin, aux);
    if |nameservers| > 0 then m[Named(Nameservers) := Join(nameservers, ",")] else m
  }

  /** The parameter map transferDomain sends; an omitted `years` means 1. */
  function TransferParams(domain: string, epp: string, years: Option<YearsArg>, registrant: ContactInfo,
                          tech: Option<ContactInfo>, admin: Option<ContactInfo>, aux: Option<ContactInfo>,
                          addFreeWhoisguard: bool, enableWhoisguard: bool): map<ParamKey, string> {
    WithAllContacts(TransferBase(domain, epp, years, addFreeWhoisguard, enableWhoisguard), registrant, tech, admin, aux)
  }

  /** The contact writes leave every named parameter as it was. */
  lemma WithAllContactsNamed(m: map<ParamKey, string>, registrant: ContactInfo, tech: Option<ContactInfo>,
                             admin: Option<ContactInfo>, aux: Option<ContactInfo>, n: Name)
    ensures Named(n) in WithAllContacts(m, registrant, tech, admin, aux) <==> Named(n) in m
    ensures Named(n) in m ==> WithAllContacts(m, registrant, tech, admin, aux)[Named(n)] == m[Named(n)]
  {
    ContactParamsRole(Registrant, registrant, Named(n));
    ContactParamsRole(Tech, RoleContact(tech, registrant), Named(n));
    ContactParamsRole(Admin, RoleContact(admin, registrant), Named(n));
    ContactParamsRole(AuxBilling, RoleContact(aux, registrant), Named(n));
  }

  /** Under each role, only that role's own contact is written: later roles do not touch it. */
  lemma WithAllContactsRole(m: map<ParamKey, string>, registrant: ContactInfo, tech: Option<ContactInfo>,
                            admin: Option<ContactInfo>, aux: Option<ContactInfo>, role: Role, f: Field)
    ensures var r := WithAllContacts(m, registrant, tech, admin, aux);
            var cp := ContactParams(role, ContactFor(role, registrant, tech, admin, aux));
            && (Contact(role, f) in r <==> Contact(role, f) in m || Contact(role, f) in cp)
            && (Contact(role, f) in r ==> r[Contact(role, f)] == if Contact(role, f) in cp then cp[Contact(role, f)] else m[Contact(role, f)])
  {
    var k := Contact(role, f);
    ContactParamsRole(Registrant, registrant, k);
    ContactParamsRole(Tech, RoleContact(tech, registrant), k);
    ContactParamsRole(Admin, RoleContact(admin, registrant), k);
    ContactParamsRole(AuxBilling, RoleContact(aux, registrant), k);
  }

  /**
   * Over parameters that hold only named keys, the contact writes put
   * under `role` exactly the entries of that role's contact `c`.
   */
  lemma WithAllContactsRoleContent(m: map<ParamKey, string>, registrant: ContactInfo, tech: Option<ContactInfo>,
                                   admin: Option<ContactInfo>, aux: Option<ContactInfo>, role: Role, c: ContactInfo)
    requires forall k :: k in m ==> k.Named?
    requires c == ContactFor(role, registrant, tech, admin, aux)
    ensures var r := WithAllContacts(m, registrant, tech, admin, aux);
            && (forall f :: Contact(role, f) in r <==> !OptionalField(f) || Truthy(FieldValue(c, f)))
            && (forall f :: Contact(role, f) in r ==> r[Contact(role, f)] == FieldValue(c, f))
  {
    var r := WithAllContacts(m, registrant, tech, admin, aux);
    forall f: Field
      ensures Contact(role, f) in r <==> !OptionalField(f) || Truthy(FieldValue(c, f))
      ensures Contact(role, f) in r ==> r[Contact(role, f)] == FieldValue(c, f)
    {
      WithAllContactsRole(m, registrant, tech, admin, aux, role, f);
      ContactParamsField(role, c, f);
    }
  }

  /** The contact writes leave every named parameter of `m` as it was and add none. */
  lemma WithAllContactsKeepsNamed(m: map<ParamKey, string>, registrant: ContactInfo, tech: Option<ContactInfo>,
                                  admin: Option<ContactInfo>, aux: Option<ContactInfo>)
    ensures var r := WithAllContacts(m, registrant, tech, admin, aux);
            && (forall n :: Named(n) in r <==> Named(n) in m)
            && (forall n :: Named(n) in m ==> r[Named(n)] == m[Named(n)])
  {
    forall n: Name {
      WithAllContactsNamed(m, registrant, tech, admin, aux, n);
    }
  }

  lemma RegisterBaseValues(domain: string, years: YearsArg, addFreeWhoisguard: bool, enableWhoisguard: bool)
    ensures var b := RegisterBase(domain, years, addFreeWhoisguard, enableWhoisguard);
            && Named(DomainName) in b && b[Named(DomainName)] == domain
            && Named(Years) in b && b[Named(Years)] == YearsText(years)
            && Named(AddFreeWhoisguard) in b && b[Named(AddFreeWhoisguard)] == YesNo(addFreeWhoisguard)
            && Named(WGEnabled) in b && b[Named(WGEnabled)] == YesNo(enableWhoisguard)
            && (forall n :: Named(n) in b ==> n in {DomainName, Years, AddFreeWhoisguard, WGEnabled})
  {
  }

  lemma TransferBaseValues(domain: string, epp: string, years: Option<YearsArg>, addFreeWhoisguard: bool, enableWhoisguard: bool)
    ensures var b := TransferBase(domain, epp, years, addFreeWhoisguard, enableWhoisguard);
            && Named(DomainName) in b && b[Named(DomainName)] == domain
            && Named(EPPCode) in b && b[Named(EPPCode)] == epp
            && Named(Years) in b && b[Named(Years)] == YearsText(years.GetOr(Count(1)))
            && Named(AddFreeWhoisguard) in b && b[Named(AddFreeWhoisguard)] == YesNo(addFreeWhoisguard)
            && Named(WGEnabled) in b && b[Named(WGEnabled)] == YesNo(enableWhoisguard)
            && (forall n :: Named(n) in b ==> n in {DomainName, EPPCode, Years, AddFreeWhoisguard, WGEnabled})
  {
  }

  /**
   * registerDomain's named parameters: the domain, the years as `toString`
   * renders them, the two WhoisGuard flags as "yes"/"no", the comma-joined
   * nameservers only when some are given, and no other.
   */
  lemma RegisterParamsNamed(domain: string, years: YearsArg, registrant: ContactInfo, tech: Option<ContactInfo>,
                            admin: Option<ContactInfo>, aux: Option<ContactInfo>, nameservers: seq<string>,
                            addFreeWhoisguard: bool, enableWhoisguard: bool)
    ensures var p := RegisterParams(domain, years, registrant, tech, admin, aux, nameservers,
                                    addFreeWhoisguard, enableWhoisguard);
            && Named(DomainName) in p && p[Named(DomainName)] == domain
            && Named(Years) in p && p[Named(Years)] == YearsText(years)
            && Named(AddFreeWhoisguard) in p && p[Named(AddFreeWhoisguard)] == YesNo(addFreeWhoisguard)
            && Named(WGEnabled) in p && p[Named(WGEnabled)] == YesNo(enableWhoisguard)
            && (Named(Nameservers) in p <==> |nameservers| > 0)
            && (Named(Nameservers) in p ==> p[Named(Nameservers)] == Join(nameservers, ","))
            && (forall n :: Named(n) in p ==> n in {DomainName, Years, AddFreeWhoisguard, WGEnabled, Nameservers})
  {
    var m := WithAllContacts(RegisterBase(domain, years, addFreeWhoisguard, enableWhoisguard), registrant, tech, admin, aux);
    WithAllContactsKeepsNamed(RegisterBase(domain, years, addFreeWhoisguard, enableWhoisguard), registrant, tech, admin, aux);
    RegisterBaseValues(domain, years, addFreeWhoisguard, enableWhoisguard);
    assert Named(Nameservers) !in m;
  }

  /**
   * registerDomain's entries under one role: every mandatory field of
   * that role's contact `c` (the registrant's when none was supplied),
   * its optional fields only when non-empty, with the contact's values.
   */
  lemma RegisterParamsRole(domain: string, years: YearsArg, registrant: ContactInfo, tech: Option<ContactInfo>,
                           admin: Option<ContactInfo>, aux: Option<ContactInfo>, nameservers: seq<string>,
                           addFreeWhoisguard: bool, enableWhoisguard: bool, role: Role, c: ContactInfo)
    requires c == ContactFor(role, registrant, tech, admin, aux)
    ensures var p := RegisterParams(domain, years, registrant, tech, admin, aux, nameservers,
                                    addFreeWhoisguard, enableWhoisguard);
            && (forall f :: Contact(role, f) in p <==> !OptionalField(f) || Truthy(FieldValue(c, f)))
            && (forall f :: Contact(role, f) in p ==> p[Contact(role, f)] == FieldValue(c, f))
  {
    var base := RegisterBase(domain, years, addFreeWhoisguard, enableWhoisguard);
    assert forall k :: k in base ==> k.Named?;
    WithAllContactsRoleContent(base, registrant, tech, admin, aux, role, c);
    var all := WithAllContacts(base, registrant, tech, admin, aux);
    var p := RegisterParams(domain, years, registrant, tech, admin, aux, nameservers, addFreeWhoisguard, enableWhoisguard);
    forall f: Field
      ensures Contact(role, f) in p <==> Contact(role, f) in all
      ensures Contact(role, f) in p ==> p[Contact(role, f)] == all[Contact(role, f)]
    {
    }
  }

  /**
   * transferDomain's named parameters: the domain, the EPP code, the
   * years (1 when omitted), the two WhoisGuard flags, and no nameservers
   * or any other.
   */
  lemma TransferParamsNamed(domain: string, epp: string, years: Option<YearsArg>, registrant: ContactInfo,
                            tech: Option<ContactInfo>, admin: Option<ContactInfo>, aux: Option<ContactInfo>,
                            addFreeWhoisguard: bool, enableWhoisguard: bool)
    ensures var p := TransferParams(domain, epp, years, registrant, tech, admin, aux,
                                    addFreeWhoisguard, enableWhoisguard);
            && Named(DomainName) in p && p[Named(DomainName)] == domain
            && Named(EPPCode) in p && p[Named(EPPCode)] == epp
            && Named(Years) in p && p[Named(Years)] == YearsText(years.GetOr(Count(1)))
            && Named(AddFreeWhoisguard) in p && p[Named(AddFreeWhoisguard)] == YesNo(addFreeWhoisguard)
            && Named(WGEnabled) in p && p[Named(WGEnabled)] == YesNo(enableWhoisguard)
            && (forall n :: Named(n) in p ==> n in {DomainName, EPPCode, Years, AddFreeWhoisguard, WGEnabled})
  {
    WithAllContactsKeepsNamed(TransferBase(domain, epp, years, addFreeWhoisguard, enableWhoisguard), registrant, tech, admin, aux);
    TransferBaseValues(domain, epp, years, addFreeWhoisguard, enableWhoisguard);
  }

  /** transferDomain's entries under one role, as for registerDomain. */
  lemma TransferParamsRole(domain: string, epp: string, years: Option<YearsArg>, registrant: ContactInfo,
                           tech: Option<ContactInfo>, admin: Option<ContactInfo>, aux: Option<ContactInfo>,
                           addFreeWhoisguard: bool, enableWhoisguard: bool, role: Role, c: ContactInfo)
    requires c == ContactFor(role, registrant, tech, admin, aux)
    ensures var p := TransferParams(domain, epp, years, registrant, tech, admin, aux,
                                    addFreeWhoisguard, enableWhoisguard);
            && (forall f :: Contact(role, f) in p <==> !OptionalField(f) || Truthy(FieldValue(c, f)))
            && (forall f :: Contact(role, f) in p ==> p[Contact(role, f)] == FieldValue(c, f))
  {
    var base := TransferBase(domain, epp, years, addFreeWhoisguard, enableWhoisguard);
    assert forall k :: k in base ==> k.Named?;
    WithAllContactsRoleContent(base, registrant, tech, admin, aux, role, c);
  }

  /**
   * A role with no contact of its own gets exactly the registrant's
   * entries: the same fields, with the same values.
   */
  lemma DefaultContactCopiesRegistrant(domain: string, years: YearsArg, registrant: ContactInfo, tech: Option<ContactInfo>,
                                       admin: Option<ContactInfo>, aux: Option<ContactInfo>, nameservers: seq<string>,
                                       addFreeWhoisguard: bool, enableWhoisguard: bool, role: Role)
    requires ContactFor(role, registrant, tech, admin, aux) == registrant
    ensures var p := RegisterParams(domain, years, registrant, tech, admin, aux, nameservers,
                                    addFreeWhoisguard, enableWhoisguard);
            forall f :: (Contact(role, f) in p <==> Contact(Registrant, f) in p)
                        && (Contact(role, f) in p ==> p[Contact(role, f)] == p[Contact(Registrant, f)])
  {
    RegisterParamsRole(domain, years, registrant, tech, admin, aux, nameservers, addFreeWhoisguard, enableWhoisguard,
                       role, registrant);
    RegisterParamsRole(domain, years, registrant, tech, admin, aux, nameservers, addFreeWhoisguard, enableWhoisguard,
                       Registrant, registrant);
  }

  /** registerDomain, building its parameters in place as the adapter does. */
  method BuildRegisterParams(domain: string, years: YearsArg, registrant: ContactInfo, tech: Option<ContactInfo>,
                             admin: Option<ContactInfo>, aux: Option<ContactInfo>, nameservers: seq<string>,
                             addFreeWhoisguard: bool, enableWhoisguard: bool) returns (params: map<ParamKey, string>)
    ensures params == RegisterParams(domain, years, registrant, tech, admin, aux, nameservers,
                                     addFreeWhoisguard, enableWhoisguard)
  {
    var pm := new ParamMap(map[Named(DomainName) := domain, Named(Years) := YearsText(years),
                               Named(AddFreeWhoisguard) := YesNo(addFreeWhoisguard),
                               Named(WGEnabled) := YesNo(enableWhoisguard)]);
    AddContacts(pm, registrant, tech, admin, aux);
    if |nameservers| > 0 {
      pm.Set(Named(Nameservers), Join(nameservers, ","));
    }
    params := pm.entries;
  }

  /** transferDomain, building its parameters in place as the adapter does. */
  method BuildTransferParams(domain: string, epp: string, years: Option<YearsArg>, registrant: ContactInfo,
                             tech: Option<ContactInfo>, admin: Option<ContactInfo>, aux: Option<ContactInfo>,
                             addFreeWhoisguard: bool, enableWhoisguard: bool) returns (params: map<ParamKey, string>)
    ensures params == TransferParams(domain, epp, years, registrant, tech, admin, aux,
                                     addFreeWhoisguard, enableWhoisguard)
  {
    var y := if years.Some? then years.value else Count(1);
    var pm := new ParamMap(map[Named(DomainName) := domain, Named(EPPCode) := epp, Named(Years) := YearsText(y),
                               Named(AddFreeWhoisguard) := YesNo(addFreeWhoisguard),
                               Named(WGEnabled) := YesNo(enableWhoisguard)]);
    AddContacts(pm, registrant, tech, admin, aux);
    params := pm.entries;
  }

  /** The four addContactInfoToParams calls both builders make; a missing contact falls back to the registrant. */
  method AddContacts(pm: ParamMap, registrant: ContactInfo, tech: Option<ContactInfo>, admin: Option<ContactInfo>,
                     aux: Option<ContactInfo>)
    modifies pm
    ensures pm.entries == WithAllContacts(old(pm.entries), registrant, tech, admin, aux)
  {
    pm.AddContactInfo(Registrant, registrant);
    if tech.Some? {
      pm.AddContactInfo(Tech, tech.value);
    } else {
      pm.AddContactInfo(Tech, registrant);
    }
    if admin.Some? {
      pm.AddContactInfo(Admin, admin.value);
    } else {
      pm.AddContactInfo(Admin, registrant);
    }
    if aux.Some? {
      pm.AddContactInfo(AuxBilling, aux.value);
    } else {
      pm.AddContactInfo(AuxBilling, registrant);
    }
  }

  function CheckParams(domains: seq<string>): map<ParamKey, string> {
    map[Named(DomainList) := Join(domains, ",")]
  }

  function CheckAvailability(cfg: Config, domains: seq<string>, reply: ApiReply<seq<DomainCheck>>): ApiOutcome<seq<DomainCheck>> {
    Perform(cfg, "namecheap.domains.check", CheckParams(domains), reply)
  }

  function RegisterDomain(cfg: Config, domain: string, years: YearsArg, registrant: ContactInfo, tech: Option<ContactInfo>,
                          admin: Option<ContactInfo>, aux: Option<ContactInfo>, nameservers: seq<string>,
                          addFreeWhoisguard: bool, enableWhoisguard: bool, reply: ApiReply<Attributes>): ApiOutcome<Attributes> {
    Perform(cfg, "namecheap.domains.create",
            RegisterParams(domain, years, registrant, tech, admin, aux, nameservers, addFreeWhoisguard, enableWhoisguard),
            reply)
  }

  function TransferDomain(cfg: Config, domain: string, epp: string, years: Option<YearsArg>, registrant: ContactInfo,
                          tech: Option<ContactInfo>, admin: Option<ContactInfo>, aux: Option<ContactInfo>,
                          addFreeWhoisguard: bool, enableWhoisguard: bool, reply: ApiReply<Attributes>): ApiOutcome<Attributes> {
    Perform(cfg, "namecheap.domains.transfer.create",
            TransferParams(domain, epp, years, registrant, tech, admin, aux, addFreeWhoisguard, enableWhoisguard),
            reply)
  }

  /** getPricing; the reply's result stands for the quoted unit price in cents. */
  function GetPricing(cfg: Config, productType: string, productCategory: string, productName: string,
                      reply: ApiReply<int>): ApiOutcome<int> {
    Perform(cfg, "namecheap.users.getPricing",
            map[Named(ProductType) := productType, Named(ProductCategory) := productCategory, Named(ProductName) := productName],
            reply)
  }

  /**
   * The create request as it goes out: credentials and command
   * "namecheap.domains.create" around registerDomain's named parameters.
   */
  lemma RegisterDomainSends(cfg: Config, domain: string, years: YearsArg, registrant: ContactInfo, tech: Option<ContactInfo>,
                            admin: Option<ContactInfo>, aux: Option<ContactInfo>, nameservers: seq<string>,
                            addFreeWhoisguard: bool, enableWhoisguard: bool, reply: ApiReply<Attributes>)
    requires |MissingVars(cfg)| == 0
    ensures var o := RegisterDomain(cfg, domain, years, registrant, tech, admin, aux, nameservers,
                                    addFreeWhoisguard, enableWhoisguard, reply);
            && o.sent.Some? && o.sent.value.url == ApiUrl(cfg)
            && var p := o.sent.value.params;
            && Named(Command) in p && p[Named(Command)] == "namecheap.domains.create"
            && Named(DomainName) in p && p[Named(DomainName)] == domain
            && Named(Years) in p && p[Named(Years)] == YearsText(years)
            && Named(AddFreeWhoisguard) in p && p[Named(AddFreeWhoisguard)] == YesNo(addFreeWhoisguard)
            && Named(WGEnabled) in p && p[Named(WGEnabled)] == YesNo(enableWhoisguard)
            && (Named(Nameservers) in p <==> |nameservers| > 0)
  {
    var params := RegisterParams(domain, years, registrant, tech, admin, aux, nameservers,
                                 addFreeWhoisguard, enableWhoisguard);
    RegisterParamsNamed(domain, years, registrant, tech, admin, aux, nameservers, addFreeWhoisguard, enableWhoisguard);
    var cmd := "namecheap.domains.create";
    assert RegisterDomain(cfg, domain, years, registrant, tech, admin, aux, nameservers, addFreeWhoisguard,
                          enableWhoisguard, reply).sent
      == Some(ApiCall(ApiUrl(cfg), RequestParams(cfg, cmd, params)));
    RequestParamsAt(cfg, cmd, params, Named(Command));
    RequestParamsAt(cfg, cmd, params, Named(DomainName));
    RequestParamsAt(cfg, cmd, params, Named(Years));
    RequestParamsAt(cfg, cmd, params, Named(AddFreeWhoisguard));
    RequestParamsAt(cfg, cmd, params, Named(WGEnabled));
    RequestParamsAt(cfg, cmd, params, Named(Nameservers));
  }

  /**
   * The transfer request as it goes out: credentials and command
   * "namecheap.domains.transfer.create" around transferDomain's named
   * parameters, with no nameservers.
   */
  lemma TransferDomainSends(cfg: Config, domain: string, epp: string, years: Option<YearsArg>, registrant: ContactInfo,
                            tech: Option<ContactInfo>, admin: Option<ContactInfo>, aux: Option<ContactInfo>,
                            addFreeWhoisguard: bool, enableWhoisguard: bool, reply: ApiReply<Attributes>)
    requires |MissingVars(cfg)| == 0
    ensures var o := TransferDomain(cfg, domain, epp, years, registrant, tech, admin, aux,
                                    addFreeWhoisguard, enableWhoisguard, reply);
            && o.sent.Some? && o.sent.value.url == ApiUrl(cfg)
            && var p := o.sent.value.params;
            && Named(Command) in p && p[Named(Command)] == "namecheap.domains.transfer.create"
            && Named(DomainName) in p && p[Named(DomainName)] == domain
            && Named(EPPCode) in p && p[Named(EPPCode)] == epp
            && Named(Years) in p && p[Named(Years)] == YearsText(years.GetOr(Count(1)))
            && Named(AddFreeWhoisguard) in p && p[Named(AddFreeWhoisguard)] == YesNo(addFreeWhoisguard)
            && Named(WGEnabled) in p && p[Named(WGEnabled)] == YesNo(enableWhoisguard)
            && Named(Nameservers) !in p
  {
    var params := TransferParams(domain, epp, years, registrant, tech, admin, aux, addFreeWhoisguard, enableWhoisguard);
    TransferParamsNamed(domain, epp, years, registrant, tech, admin, aux, addFreeWhoisguard, enableWhoisguard);
    var cmd := "namecheap.domains.transfer.create";
    assert TransferDomain(cfg, domain, epp, years, registrant, tech, admin, aux, addFreeWhoisguard, enableWhoisguard, reply).sent
      == Some(ApiCall(ApiUrl(cfg), RequestParams(cfg, cmd, params)));
    RequestParamsAt(cfg, cmd, params, Named(Command));
    RequestParamsAt(cfg, cmd, params, Named(DomainName));
    RequestParamsAt(cfg, cmd, params, Named(EPPCode));
    RequestParamsAt(cfg, cmd, params, Named(Years));
    RequestParamsAt(cfg, cmd, params, Named(AddFreeWhoisguard));
    RequestParamsAt(cfg, cmd, params, Named(WGEnabled));
    RequestParamsAt(cfg, cmd, params, Named(Nameservers));
  }
  
  /** One key of the sent map: the caller's value, else the command or a credential, else absent. */
  lemma RequestParamsAt(cfg: Config, command: string, params: map<ParamKey, string>, k: ParamKey)
    ensures var r := RequestParams(cfg, command, params);
      && (k in params ==> k in r && r[k] == params[k])
      && (k == Named(Command) && k !in params ==> k in r && r[k] == command)
      && (k !in params && !k.Named? ==> k !in r)
      && (k !in params && k.Named? && k.name !in {ApiUser, ApiKey, UserName, ClientIp, Command} ==> k !in r)
  {
  }
}
