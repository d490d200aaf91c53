# Domain and hosting storefront: the order path

This project models the server and client logic a customer goes through when
buying a domain, with optional hosting, from the storefront. It covers:

- **Common** (`common.dfy`): the JavaScript string helpers the code relies on.
  These are `split`, `join` and decimal rendering and parsing.
- **Namecheap** (`namecheap.dfy`): the registrar adapter.
  - `makeNamecheapApiRequest` checks the credentials and adds them to the request.
  - It turns an `ERROR` reply into an error that lists the registrar's messages.
  - `checkDomainAvailability`, `registerDomain`, `transferDomain` and `getPricing` build the parameter map the registrar receives.
  - `addContactInfoToParams` is a class, `ParamMap`, whose methods update the map in place, as the source mutates its `params` object.
- **RegistrarRoutes** (`registrar_routes.dfy`): `POST /api/namecheap/check`, `/register` and `/transfer`.
  - Each route runs its guards in the source's order.
  - The registrar's requests and the response are modelled.
- **Schemas** (`schemas.dfy`): the three zod schemas (search, registration, hosting) as lists of issues.
  - A form is accepted exactly when the list is empty.
- **WhmCreate** (`whm_create.dfy`): `POST /api/whm/create`.
  - It covers the configuration check, the `createacct` request and the classification of WHM's answer.
- **Store** (`store.dfy`): the routes that read or write the database, as methods of a `Database` class.
  - The class holds the order table, the user table with its unique e-mail index, and the log of provider requests.
  - The routes are the payment-intent route, the Stripe webhook, and the user create and profile routes.
  - The webhook is also specified by the pure function `Fulfil`, and the properties of the webhook are proved about `Fulfil`.
- **Wizard** (`wizard.dfy`): the client-side order wizard, modelled as the class `DomainWizard`.
  - The wizard's steps are SEARCH, RESULTS, REGISTER, HOSTING and COMPLETE.
  - The class also covers the search expansion `domainsToCheck`, the hosting-username sanitiser and the form defaults.

Calls to other systems are replaced by their outcome, passed in as a parameter. These are the registrar's XML reply, WHM's answer, the payment processor's intent, `fetch` in the browser and the outcome of signature checking. Each model returns or logs the requests it sent, so every contract can say what went out as well as what came back. An empty string stands for a member that is missing or falsy in JavaScript. Money is counted in integer cents.

Two points where the code and its design description disagree. The model follows the code on both:

- The webhook has no "already processed" check. A second delivery of the same payment repeats every registrar and hosting request. See `ReplayRepeatsProviderCalls`.
- A payment whose order id is not in the table is a store error. It is answered with 500 ("Failed to process order"), not with a "not found".

## Model

| member | source | states |
|---|---|---|
| Common.Split | app/api/stripe/payment-intent/route.ts:19 | `split` always yields at least one piece |
| Common.SplitJoin | app/utils/namecheap.ts:89 | splitting the comma-joined domain list at commas gives the list back when no name contains a comma |
| Common.NatToStringCanonical | components/domain-wizard.tsx:321 | parsing the decimal rendering of a number gives the number back |
| Common.NatToStringInjective | components/domain-wizard.tsx:321 | different numbers render as different strings |
| Namecheap.ApiUrl | app/utils/namecheap.ts:24-27 | the sandbox endpoint exactly when NAMECHEAP_SANDBOX is "true", production otherwise |
| Namecheap.RequestParams | app/utils/namecheap.ts:47-54 | the sent map holds the credentials, the command and the caller's parameters; a caller's parameter overrides a credential of the same name |
| Namecheap.RequestParamsAt | app/utils/namecheap.ts:47-54 | each key of the sent map is the caller's value, or else the command or a credential; no other key is present |
| Namecheap.ErrorJsons | app/utils/namecheap.ts:66-69 | one JSON object per registrar error, in the reply's order |
| Namecheap.Perform | app/utils/namecheap.ts:18-81 | with a credential missing, nothing is sent and the error names the missing variables; otherwise exactly one request goes to the selected endpoint; success iff the registrar answered with a status other than ERROR, and then the reply's result is returned; an ERROR answer throws the message listing the registrar's errors; a transport failure throws its own message |
| Namecheap.MissingVarsReported | app/utils/namecheap.ts:30-34 | each variable is reported iff it is unset, in the order username, API key, client IP |
| Namecheap.ConfigMessageLists | app/utils/namecheap.ts:36-41 | the message says "variables" iff more than one is missing, and names every missing variable |
| Namecheap.ApiErrorsListedInOrder | app/utils/namecheap.ts:65-71 | the error message contains every registrar error's JSON, in the reply's order and without overlap |
| Namecheap.InContactKeys | app/utils/namecheap.ts:173-192 | every field of a role has its parameter key under that role |
| Namecheap.ContactParamsRole | app/utils/namecheap.ts:173-192 | a contact's parameters are all under its own role |
| Namecheap.ContactParamsField | app/utils/namecheap.ts:173-192 | a mandatory field is always written; an optional field (address2, organisation, job title) only when non-empty; either way with the contact's value |
| Namecheap.PutAt | app/utils/namecheap.ts:185-190 | writing one field adds that key when the field is written and leaves every other key as it was |
| Namecheap.WithContactAt | app/utils/namecheap.ts:173-192 | after adding a contact, a key holds the contact's value when the contact writes it, and the old value otherwise |
| Namecheap.WithContactIsOverlay | app/utils/namecheap.ts:173-192 | adding a contact field by field equals overlaying the contact's parameter map |
| Namecheap.ParamMap.constructor | app/utils/namecheap.ts:122-127 | the map starts as the given entries |
| Namecheap.ParamMap.Set | app/utils/namecheap.ts:158 | one key is set, every other key is unchanged |
| Namecheap.ParamMap.AddContactInfo | app/utils/namecheap.ts:173-192 | the new map is the old one overlaid with the contact's parameters |
| Namecheap.ParamMap.PutField | app/utils/namecheap.ts:185-190 | one field written into the map in place |
| Namecheap.WithAllContactsNamed | app/utils/namecheap.ts:130-154 | adding the four contacts leaves every non-contact parameter as it was |
| Namecheap.WithAllContactsRole | app/utils/namecheap.ts:130-154 | a role's parameters come from that role's own contact, or from the registrant's when none was given |
| Namecheap.WithAllContactsRoleContent | app/utils/namecheap.ts:130-154 | under each role, every mandatory field and each non-empty optional field of that role's contact, with its value |
| Namecheap.WithAllContactsKeepsNamed | app/utils/namecheap.ts:130-154 | no named parameter is added or changed by the contacts |
| Namecheap.RegisterBaseValues | app/utils/namecheap.ts:122-127 | the create parameters: the domain, the years as `toString` renders them (a number in decimal, a string unchanged), and both WhoisGuard flags as yes/no |
| Namecheap.TransferBaseValues | app/utils/namecheap.ts:241-247 | the transfer parameters: the domain, the EPP code, the years (1 when omitted) and both flags |
| Namecheap.RegisterParamsNamed | app/utils/namecheap.ts:110-159 | registerDomain's named parameters: the base ones, plus the comma-joined nameservers exactly when some are given, and no others |
| Namecheap.RegisterParamsRole | app/utils/namecheap.ts:130-154 | registerDomain's entries under each role equal that role's contact's parameters |
| Namecheap.TransferParamsNamed | app/utils/namecheap.ts:229-247 | transferDomain's named parameters: the base ones and no nameservers |
| Namecheap.TransferParamsRole | app/utils/namecheap.ts:250-274 | transferDomain's entries under each role equal that role's contact's parameters |
| Namecheap.DefaultContactCopiesRegistrant | app/utils/namecheap.ts:130-154 | a role without a contact of its own carries exactly the registrant's fields and values |
| Namecheap.BuildRegisterParams | app/utils/namecheap.ts:110-159 | the in-place construction yields registerDomain's parameter map |
| Namecheap.BuildTransferParams | app/utils/namecheap.ts:229-274 | the in-place construction yields transferDomain's parameter map |
| Namecheap.AddContacts | app/utils/namecheap.ts:130-154 | the four in-place contact additions yield the old map with the four contacts overlaid |
| Namecheap.RegisterDomainSends | app/utils/namecheap.ts:110-165 | when configured, one request with the command namecheap.domains.create and the domain, years and flags as given; nameservers only when given |
| Namecheap.TransferDomainSends | app/utils/namecheap.ts:229-280 | when configured, one request with namecheap.domains.transfer.create, the domain, the EPP code, the years (1 when omitted) and the flags; never nameservers |
| RegistrarRoutes.SentBy | app/utils/namecheap.ts:57 | the request log of a call: one request exactly when one was sent |
| RegistrarRoutes.FirstMissing | app/api/namecheap/register/route.ts:51-73 | the index of the first required field that is empty; all fields before it are filled |
| RegistrarRoutes.ContactRejection | app/api/namecheap/register/route.ts:51-73 | no rejection iff every required field is non-empty; otherwise the message names a required field |
| RegistrarRoutes.FirstMissingAgrees | app/api/namecheap/register/route.ts:63-73 | two contacts that agree on the listed fields stop at the same field |
| RegistrarRoutes.ContactRejectionIgnoresOptional | app/api/namecheap/transfer/route.ts:60-83 | the optional fields never decide a rejection |
| RegistrarRoutes.Check | app/api/namecheap/check/route.ts:9-33 | 400 without a request unless `domains` is a non-empty array; otherwise the list is sent unchanged; 200 with the registrar's rows iff configured and answered without ERROR; an adapter error gives 500 with that error's message; only 200, 400 or 500 |
| RegistrarRoutes.CheckSendsListedDomains | app/utils/namecheap.ts:88-95 | the check request carries namecheap.domains.check and a DomainList that splits back into the listed domains |
| RegistrarRoutes.OnUnlessFalse | app/api/namecheap/register/route.ts:100-101 | a flag is off only when the body sent `false` |
| RegistrarRoutes.YearsArgOf | app/api/namecheap/register/route.ts:91-94 | a `years` that passed the range guard reaches the adapter as it came, and its rendering is a digit string worth 1 to 10 |
| RegistrarRoutes.RegisterRejection | app/api/namecheap/register/route.ts:20-73 | no rejection iff domain, years from 1 to 10, registrant and required fields are all present; otherwise the first failing guard's message, in the source's order |
| RegistrarRoutes.Register | app/api/namecheap/register/route.ts:18-120 | a rejected body sends nothing; otherwise the availability check goes first; the create request is sent iff the check lists the domain as available; a check that succeeds without listing it gives 400 "Domain is not available for registration" after that one request; a failing check gives 500 with its message after that one request; a failing create gives 500 with its message; 201 with the result iff the create succeeded; only 201, 400 or 500 |
| RegistrarRoutes.CreateStep | app/api/namecheap/register/route.ts:92-119 | the create request is logged after the check's; 201 with the registrar's result iff it accepted, otherwise 500 with the adapter's error message |
| RegistrarRoutes.RegisterSendsRequestedValues | app/api/namecheap/register/route.ts:92-102 | the create request carries the requested domain and the years as given (a number in decimal, a string verbatim), always a digit string worth 1 to 10; each WhoisGuard flag is "no" iff the body sent `false` |
| RegistrarRoutes.TransferRejection | app/api/namecheap/transfer/route.ts:20-83 | no rejection iff domain and EPP code are present, years (when truthy: a non-zero number, a non-empty string or another value) is from 1 to 10, and the registrant is complete; otherwise the first failing guard's message |
| RegistrarRoutes.TransferYears | app/api/namecheap/transfer/route.ts:89 | `years || 1`: the member as given when truthy, otherwise the number 1; what is sent is always a digit string worth 1 to 10 |
| RegistrarRoutes.ZeroYearsNumberVersusString | app/api/namecheap/transfer/route.ts:40 | the number 0 is falsy and is treated like a missing member, while the string "0" is truthy and refused as out of range |
| RegistrarRoutes.Transfer | app/api/namecheap/transfer/route.ts:18-113 | a rejected body sends nothing; otherwise exactly the transfer request; 201 with the result iff it succeeded; an adapter error gives 500 with its message; only 201, 400 or 500 |
| RegistrarRoutes.TransferSendsRequestedValues | app/api/namecheap/transfer/route.ts:86-96 | the transfer request carries the domain, the EPP code, the years as given (a digit string worth 1 to 10) or "1" when none, 0 or "" was given, no nameservers, and each flag "no" iff sent `false` |
| Schemas.IssueIf | lib/schemas.ts:3-40 | at most one issue, present iff the check failed, with that path and message |
| Schemas.SearchIssues | lib/schemas.ts:3-6 | the search form passes iff the term and the TLD list are both non-empty |
| Schemas.DigitRun | lib/schemas.ts:22 | the length of the maximal run of digits from a position |
| Schemas.PhoneMatchesPattern | lib/schemas.ts:22 | the left-to-right phone matcher accepts exactly the strings the regular expression denotes |
| Schemas.EppPhonesPass | lib/schemas.ts:19-22 | every number in RFC 5733 section 2.5 format passes the form |
| Schemas.FormAdmitsNonEppPhone | lib/schemas.ts:19-22 | the form also admits a number that RFC 5733 refuses (15 subscriber digits) |
| Schemas.YearsNumber | lib/schemas.ts:9 | `Number(text)`: "" is 0, a digit string its decimal value, anything else NaN |
| Schemas.YearsNumberRendered | components/domain-wizard.tsx:321 | each option of the year select turns back into its own number |
| Schemas.ContactIssues | lib/schemas.ts:10-26 | the registrant passes iff every required field is non-empty, the phone matches and the e-mail is accepted |
| Schemas.RegistrationIssues | lib/schemas.ts:8-28 | the form passes iff `years` is a string and the registrant passes |
| Schemas.ParseRegistration | lib/schemas.ts:8-28 | a result iff no issue; the registrant unchanged, years through `Number`, and WhoisGuard on unless it was set to false |
| Schemas.FormContactPassesRoutes | app/api/namecheap/register/route.ts:51-73 | a registrant the form accepts is never refused by the routes' required-field check |
| Schemas.ContactIssuesIgnoreOptional | lib/schemas.ts:14-25 | the optional fields never produce an issue |
| Schemas.UsernameIssues | lib/schemas.ts:31-35 | no issue iff the username matches `^[a-z][a-z0-9]{2,15}$`; a wrong length reports the length message first |
| Schemas.PlanIssues | lib/schemas.ts:37-39 | no issue iff the plan is one of the three plan ids |
| Schemas.HostingIssues | lib/schemas.ts:30-40 | the hosting form passes iff the username is valid, the password has at least 8 characters and the plan is known |
| WhmCreate.RefusalReason | app/api/whm/create/route.js:56 | WHM's own reason when it gave one, otherwise "Unknown error from WHM." |
| WhmCreate.CreateAccount | app/api/whm/create/route.js:13-87 | without credentials, 500 and nothing sent; a body that fails to parse gives 500 with its message; 200 with WHM's data iff WHM confirmed (`result` 1); a refusal gives 400 "WHM Error: …"; an error reply keeps WHM's status; no reply or a setup failure gives 500 |
| WhmCreate.WhmStatusesClassify | app/api/whm/create/route.js:50-86 | 200 iff WHM's data is passed through; apart from WHM's own error status, only 200, 400 or 500; every 400 the route makes itself begins "WHM Error: " |
| Store.RegistrarCalls | app/api/stripe/payment-intent/route.ts:25 | the provider log of one registrar call: the request, if one was sent |
| Store.UpsertByEmail | app/api/stripe/webhook/route.ts:54-82 | an upsert fails only on an empty e-mail or a taken new id; afterwards exactly one row has the e-mail and holds the new details; an existing row keeps its id and its name unless renamed; a new row gets the name; the other rows are untouched |
| Store.UpsertKeepsValid | app/api/stripe/webhook/route.ts:54-82 | a successful upsert keeps every row under its own id and the e-mail index one to one |
| Store.UpsertIdempotent | app/api/user/create/route.ts:12-39 | upserting the same data twice leaves the table as the first upsert did |
| Store.InsertKeepsValid | app/api/user/profile/route.ts:12-27 | an insert succeeds iff the id and the e-mail are both free, and it keeps the table consistent |
| Store.TldAfterLastDot | app/api/stripe/payment-intent/route.ts:19 | the TLD is the part after the last dot: a suffix of the domain with no dot, preceded by a dot; without a dot it is the whole domain |
| Store.TldStep | app/api/stripe/payment-intent/route.ts:19 | dropping a leading character keeps the TLD unless the domain has no dot, in which case the TLD is the whole domain |
| Store.DomainActionCases | app/api/stripe/webhook/route.ts:94-107 | REGISTER sends registerDomain for the order's domain and years; TRANSFER with an EPP code sends transferDomain; TRANSFER without one gives 400 "EPP Code missing for transfer"; any other action gives 400 "Unknown domain action"; the handler goes on iff the registrar accepted |
| Store.HostingCalls | app/api/stripe/webhook/route.ts:109-141 | one hosting request iff username, password and plan id are all set; it names the order's domain and the registrant's e-mail |
| Store.DeliverKeepsTables | app/api/stripe/webhook/route.ts:94-141 | the domain and hosting steps write no table |
| Store.ProvisionTables | app/api/stripe/webhook/route.ts:54-92 | a failed upsert gives 500 and nothing is sent; otherwise the user table is the upsert's, and the order gets the user's id, the plan's name and the amount |
| Store.BadSignatureTouchesNothing | app/api/stripe/webhook/route.ts:19-24 | a delivery with a bad signature gets 400 "Webhook Error: …"; nothing is written or sent |
| Store.NothingWrittenWithoutOrderId | app/api/stripe/webhook/route.ts:31-36 | other event types get 200 and a payment without an order id gets 400; neither writes or sends anything |
| Store.CompletedWithoutGate | app/api/stripe/webhook/route.ts:40-46 | a payment for an existing order marks it COMPLETED with the payment id, whatever its previous status; no other order changes |
| Store.UnknownOrderFails | app/api/stripe/webhook/route.ts:40-46 | an unknown order id gives 500; nothing is written or sent |
| Store.WebhookUpsertsRegistrant | app/api/stripe/webhook/route.ts:54-92 | the registrant becomes the user with its e-mail (named "first last" when new, keeping its name otherwise); the order points to that user and records the amount paid; the other users are untouched |
| Store.TransferWithoutEppRefused | app/api/stripe/webhook/route.ts:97-103 | a TRANSFER order without an EPP code sends no registrar request, although the order is already COMPLETED |
| Store.DomainThenHosting | app/api/stripe/webhook/route.ts:94-141 | for REGISTER, or TRANSFER with an EPP code, the registrar request (registration or transfer) comes first; 200 iff the registrar accepted, else 500 with nothing further; the hosting request follows iff the registrar accepted and username, password and plan id are set |
| Store.ProvisionReplay | app/api/stripe/webhook/route.ts:54-141 | provisioning again on the tables it produced produces the same result |
| Store.ReplayRepeatsProviderCalls | app/api/stripe/webhook/route.ts:26-160 | redelivering a handled event writes nothing new but sends every provider request again and answers the same |
| Store.IntentMetadataCannotFulfil | app/api/stripe/payment-intent/route.ts:41-52 | a payment whose metadata is what the payment-intent route attaches (no registrant, no plan) marks its order COMPLETED, then fails with 500 before any provider request |
| Store.ProfileName | app/api/user/profile/route.ts:16 | the given name, otherwise "first last" |
| Store.Database.CreatePaymentIntent | app/api/stripe/payment-intent/route.ts:10-59 | missing fields or an empty TLD give 400 and nothing else; 200 only after pricing succeeded, a PENDING order priced at unit price times years was recorded under the new id, and a USD intent of that many cents naming the order was requested; once fields and TLD are present the answer is never 400; a pricing failure (or a taken id) gives 500 with the tables unchanged and only the pricing request logged; after successful pricing the PENDING order is recorded and the intent requested, and the answer is 200 with the client secret and order id when the processor created the intent, otherwise 500; every failure is 500 "Internal Server Error"; at most one order is added |
| Store.Database.CreateUser | app/api/user/create/route.ts:4-46 | missing fields give 400 and no change; otherwise the upsert by e-mail, renaming on update, with 200 and the user id, or 500 and no change |
| Store.Database.CreateProfile | app/api/user/profile/route.ts:4-34 | missing fields give 400; a taken id or e-mail gives 500 and no change; otherwise exactly one new row and 201 |
| Store.Database.HandleWebhook | app/api/stripe/webhook/route.ts:14-161 | the tables and the response are those of `Fulfil`; the provider log grows by exactly its requests |
| Store.Database.ProvisionOrder | app/api/stripe/webhook/route.ts:54-141 | the writes after the first order update, as `Provision` describes them |
| Store.Database.DeliverOrder | app/api/stripe/webhook/route.ts:94-141 | the registrar and hosting requests, as `Deliver` describes them; the tables are unchanged |
| Wizard.DomainsToCheck | components/domain-wizard.tsx:87 | one domain per selected TLD, in order: the term followed by that TLD |
| Wizard.AcceptedSearchReachesRegistrar | components/domain-wizard.tsx:87-94 | for an accepted search form the check route never answers 400 and sends exactly the expanded list |
| Wizard.LowerChar | components/domain-wizard.tsx:128 | an ASCII capital becomes its lowercase letter; other characters are unchanged |
| Wizard.Lower | components/domain-wizard.tsx:128 | `toLowerCase` character by character, with the length kept |
| Wizard.KeepUsernameChars | components/domain-wizard.tsx:129 | only lowercase letters and digits remain |
| Wizard.Prefix | components/domain-wizard.tsx:130 | the first n characters, or the whole string when shorter |
| Wizard.SanitiseShape | components/domain-wizard.tsx:126-130 | the derived username has at most 16 characters, all lowercase letters or digits |
| Wizard.KeepUsernameCharsFixed | components/domain-wizard.tsx:129 | a string of allowed characters passes the filter unchanged |
| Wizard.SanitiseIdempotent | components/domain-wizard.tsx:126-130 | sanitising a derived username gives it back |
| Wizard.SanitisedUsernameValid | components/domain-wizard.tsx:126-135 | the derived username passes the hosting schema iff it has at least 3 characters and starts with a letter |
| Wizard.SanitiseKeepsValidLabel | components/domain-wizard.tsx:126-130 | a first label that is already a valid username is kept as it is |
| Wizard.JsonYears | components/domain-wizard.tsx:117-122 | the parsed years go out as a JSON number, and NaN goes out as null, which the route reads as a missing member |
| Wizard.Caught | components/domain-wizard.tsx:102 | an Error's message, otherwise "An unexpected error occurred." |
| Wizard.FailureMessage | components/domain-wizard.tsx:96 | the thrown message, else the body's message, else the step's fallback |
| Wizard.ResultsOf | components/domain-wizard.tsx:97-99 | one result per row, in order: available iff the registrar said "true", at the fixed price 12.99 |
| Wizard.WrittenDefaultRefused | components/domain-wizard.tsx:69-73 | the registration form as first shown is refused, with the `years` type error first |
| Wizard.SamplePhoneMatches | components/domain-wizard.tsx:27-37 | the sample registrant's phone has the form's shape |
| Wizard.SampleContactPasses | components/domain-wizard.tsx:27-37 | the sample registrant passes every registrant check of the form |
| Wizard.DefaultRegistrationAccepted | components/domain-wizard.tsx:69-73 | with `years` as the string "1", the untouched form submits one year for the sample registrant with WhoisGuard on |
| Wizard.DomainWizard.constructor | components/domain-wizard.tsx:55-78 | the wizard starts at SEARCH with the form defaults as written, `years` being the number 1 |
| Wizard.DomainWizard.SearchSubmit | components/domain-wizard.tsx:81-106 | an invalid form sends nothing; otherwise it sends the expanded list; success shows the results at RESULTS; failure stays with no results and the failure message |
| Wizard.DomainWizard.SearchReply | components/domain-wizard.tsx:95-105 | a successful answer shows its rows at RESULTS; any other answer or a throw leaves SEARCH with no results and the failure message |
| Wizard.DomainWizard.Select | components/domain-wizard.tsx:282-288 | choosing an available result selects it and moves to REGISTER |
| Wizard.DomainWizard.RegisterSubmit | components/domain-wizard.tsx:108-144 | nothing is sent without a valid form and a selection; otherwise it sends the selected domain and the parsed values, years as `JSON.stringify` writes them; success moves to HOSTING with the derived username, an empty password and the basic plan; failure shows the message |
| Wizard.DomainWizard.RegisterReply | components/domain-wizard.tsx:124-143 | a successful answer moves to HOSTING with the derived username; any other answer or a throw keeps the step and shows the failure message |
| Wizard.DomainWizard.HostingSubmit | components/domain-wizard.tsx:146-175 | nothing is sent without a valid form and a selection; otherwise it sends the account for the selected domain with the registrant's e-mail; COMPLETE iff the response was ok |
| Wizard.DomainWizard.Skip | components/domain-wizard.tsx:579 | HOSTING moves to COMPLETE; selection, results, error, search term and all three forms unchanged |
| Wizard.DomainWizard.BackToResults | components/domain-wizard.tsx:492 | back to RESULTS; selection, results, error, search term and all three forms unchanged |
| Wizard.DomainWizard.SearchAgain | components/domain-wizard.tsx:299 | back to SEARCH; selection, results, error, search term and all three forms unchanged |
| Wizard.DomainWizard.Reset | components/domain-wizard.tsx:177-187 | back to the mounted state, forms as written |

## Left out

- HTTP, XML parsing, Prisma and the payment processor's SDK are not modelled. Their outcomes are parameters, and so are webhook signature verification, generated ids and the client secret.
- Money: the source prices with floating point (`parseFloat(price) * years`, rounded to cents) and stores `totalPrice` in dollars (`amount / 100`). The model takes the unit price in whole cents and stores cents throughout.
- Store.Database.CreatePaymentIntent: the model does not capture floating-point rounding of the price, because it works in integer cents.
- Wizard.Lower: only ASCII letters are lowercased; `toLowerCase` on other scripts is not modelled, because strings are plain character sequences here.
- Schemas.ContactIssues: zod's e-mail pattern is an input (`emailAccepted`), not a definition, because its regular expression is outside the order path.
- `generatePassword` is not modelled, because its output is random.
- `getBalances` is not modelled, because no route on the order path calls it.
- Schemas.YearsNumber: only "", digit strings and "not a number" are modelled. Signs, fractions, whitespace and exponent forms of `Number(text)` are not, because the year select yields only "1" to "10".
- RegistrarRoutes.TransferRejection: a string `years` is read as a number only when it is all digits. Strings that `Number` also reads (surrounding whitespace, a sign, a decimal point, an exponent, hex) count as NaN in the model, so some strings the source accepts are refused. The same holds for RegistrarRoutes.RegisterRejection.
- RegistrarRoutes.YearsField: JSON numbers are integers and `true`, `false` and arrays are not modelled. The source accepts a fractional number such as 2.5 or `true` and sends it as `toString` renders it.
- An omitted optional member (address2, organisation, job title, hosting plan name) is the empty string. The model does not tell `undefined` apart from "".
- Store.Database.CreateUser: when `address2` is omitted, the source passes `undefined` to the update branch, so Prisma keeps the stored value. The model writes "" over it.
- Foreign-key failures (an order's `userId` naming no user) are not modelled, because the schema is not part of this model.
- Concurrency: two webhook deliveries or requests running at once are not modelled. Each handler runs to completion.
- A request body that is not JSON is modelled only for the WHM route, whose parse error message reaches the response. The other routes receive parsed bodies, so their 500 answer to such a body is not modelled.
- The webhook's `JSON.parse` of the registrant and plan metadata: a missing or unparsable member is `None`, which takes the 500 path the thrown error takes in the source.
- Wizard.Caught: a thrown value that is not an `Error` is a single case with the fixed message. What it held is not modelled.
- Store.HostingCalls: the WHM answer inside the webhook is only logged by the source. The model records the request and ignores the answer, as the source's response does.
- Wizard.DomainWizard.Reset: returns to the defaults as written. react-hook-form's `reset(values)` at domain-wizard.tsx:132-136 also replaces the hosting form's stored defaults, and that is not modelled. After a registration, the source's reset may therefore restore the derived username instead of "".
- Loading indicators, rendering and `console` logging are not modelled. `isLoading` is false between events, which is all the model keeps of it.

## Findings

| source | as written | input that shows it | evidently intended | confidence | as-written member | corrected member |
|---|---|---|---|---|---|---|
| components/domain-wizard.tsx:69-73 with lib/schemas.ts:9 | the registration form starts with `years: 1` (a number), but the schema declares `years: z.string()` | submit the registration step without touching the year select | the default is the string "1", which the select itself produces and the schema accepts | not executed | Wizard.WrittenDefaultRefused | Wizard.DefaultRegistrationAccepted |
