/**
 * The database-backed routes: payment-intent creation
 * (app/api/stripe/payment-intent/route.ts), the two user routes
 * (app/api/user/create/route.ts, app/api/user/profile/route.ts) and the
 * payment webhook (app/api/stripe/webhook/route.ts). The database is a
 * class holding the order and user tables; every request the handlers
 * make to a provider (registrar, payment processor, hosting route) is
 * appended to a log, and what the providers answer is a parameter.
 */
module Store {
  import opened Common
  import opened Namecheap
  import opened WhmCreate

  // ---------------------------------------------------------------------
  // Rows and tables
  // ---------------------------------------------------------------------

  datatype OrderStatus = Pending | Completed

  /** An order row; prices are in cents, "" stands for a null column. */
  datatype Order = Order(id: string, userId: string, status: OrderStatus, hostingPlan: string,
                         domainAction: string, domainName: string, years: int, totalPrice: int,
                         eppCode: string, stripePaymentId: string)

  /** The contact columns of a user row. */
  datatype Details = Details(firstName: string, lastName: string, address1: string, address2: string,
                             city: string, stateProvince: string, postalCode: string, country: string,
                             phone: string)

  datatype User = User(id: string, email: string, name: string, details: Details)

  /** The user table: rows by id, and the unique index on `email`. */
  datatype Users = Users(byId: map<string, User>, byEmail: map<string, string>)

  /** Rows are stored under their own id, and the e-mail index matches the rows one to one. */
  ghost predicate UsersValid(t: Users) {
    && (forall id :: id in t.byId ==> t.byId[id].id == id && t.byId[id].email in t.byEmail
                                      && t.byEmail[t.byId[id].email] == id)
    && (forall e :: e in t.byEmail ==> t.byEmail[e] in t.byId && t.byId[t.byEmail[e]].email == e)
  }

  ghost predicate OrdersValid(orders: map<string, Order>) {
    forall id :: id in orders ==> orders[id].id == id
  }

  /** `${firstName} ${lastName}` */
  function FullName(firstName: string, lastName: string): string {
    firstName + " " + lastName
  }

  /** A request the handlers sent to a provider. */
  datatype ProviderCall =
    | Registrar(call: ApiCall)
    | StripeIntent(amount: int, currency: string, metadata: IntentMetadata)
    | Hosting(account: AccountRequest)

  /** The metadata the payment-intent route attaches to a payment. */
  datatype IntentMetadata = IntentMetadata(orderId: string, domain: string, years: int, hostingPlan: string,
                                           domainAction: string, userId: string)

  function RegistrarCalls(sent: Option<ApiCall>): (calls: seq<ProviderCall>)
    ensures sent.None? ==> calls == []
    ensures sent.Some? ==> calls == [Registrar(sent.value)]
  {
    if sent.Some? then [Registrar(sent.value)] else []
  }

  /** The JSON bodies these routes answer with. */
  datatype JsonBody =
    | ErrorJson(error: string)
    | IntentJson(clientSecret: string, orderId: string)
    | UserJson(userId: string)
    | ProfileJson(userId: string, message: string)
    | ReceivedJson

  datatype HttpResponse = HttpResponse(status: nat, body: JsonBody)

  const InternalError: HttpResponse := HttpResponse(500, ErrorJson("Internal Server Error"))

  // ---------------------------------------------------------------------
  // The store operations behind prisma.user.upsert / prisma.user.create
  // ---------------------------------------------------------------------

  /**
   * An upsert keyed by e-mail: the row with that e-mail gets `details`
   * (and `name` too when `renameOnUpdate`); with no such row a new one is
   * created under `newId` with `name`. A lookup by an empty e-mail and a
   * taken `newId` are store errors.
   */
  function Upsert(t: Users, email: string, newId: string, details: Details, name: string, renameOnUpdate: bool)
    : Result<(Users, string), string>
  {
    if !Truthy(email) then Err("no unique value to look the user up by")
    else if email in t.byEmail && t.byEmail[email] in t.byId then
      var id := t.byEmail[email];
      var prior := t.byId[id];
      var row := if renameOnUpdate then prior.(details := details, name := name) else prior.(details := details);
      Ok((Users(t.byId[id := row], t.byEmail), id))
    else if newId in t.byId then Err("unique constraint failed on id")
    else Ok((Users(t.byId[newId := User(newId, email, name, details)], t.byEmail[email := newId]), newId))
  }

  /**
   * What an upsert guarantees on a consistent table: it fails only on an
   * empty e-mail or a taken new id; afterwards exactly one row has the
   * e-mail, it holds the new details, an existing row keeps its id and
   * e-mail (and its name unless renamed), a new row gets `name`, and
   * every other row is untouched.
   */
  lemma UpsertByEmail(t: Users, email: string, newId: string, details: Details, name: string, renameOnUpdate: bool)
    requires UsersValid(t)
    ensures var r := Upsert(t, email, newId, details, name, renameOnUpdate);
            && (r.Err? <==> !Truthy(email) || (email !in t.byEmail && newId in t.byId))
            && (r.Ok? ==>
                  var (t', id) := r.value;
                  && UsersValid(t')
                  && email in t'.byEmail && t'.byEmail[email] == id
                  && (forall u :: u in t'.byId && t'.byId[u].email == email ==> u == id)
                  && id in t'.byId && t'.byId[id].details == details && t'.byId[id].email == email
                  && (email in t.byEmail ==> id == t.byEmail[email]
                                             && t'.byId[id].name == (if renameOnUpdate then name else t.byId[id].name))
                  && (email !in t.byEmail ==> id == newId && t'.byId[id].name == name)
                  && t'.byId.Keys == t.byId.Keys + {id}
                  && (forall u :: u in t.byId && u != id ==> t'.byId[u] == t.byId[u]))
  {
    var r := Upsert(t, email, newId, details, name, renameOnUpdate);
    if r.Ok? {
      var (t', id) := r.value;
      if email !in t.byEmail {
        forall u | u in t'.byId && t'.byId[u].email == email
          ensures u == id
        {
        }
      }
    }
  }

  /** A successful upsert keeps the user table consistent. */
  lemma UpsertKeepsValid(t: Users, email: string, newId: string, details: Details, name: string, renameOnUpdate: bool)
    requires UsersValid(t)
    ensures var r := Upsert(t, email, newId, details, name, renameOnUpdate);
            r.Ok? ==> UsersValid(r.value.0)
  {
    UpsertByEmail(t, email, newId, details, name, renameOnUpdate);
  }

  /** Upserting the same data twice leaves the table as the first upsert did. */
  lemma UpsertIdempotent(t: Users, email: string, newId: string, details: Details, name: string, renameOnUpdate: bool)
    requires UsersValid(t)
    requires Upsert(t, email, newId, details, name, renameOnUpdate).Ok?
    ensures var (t', id) := Upsert(t, email, newId, details, name, renameOnUpdate).value;
            Upsert(t', email, newId, details, name, renameOnUpdate) == Ok((t', id))
  {
    UpsertByEmail(t, email, newId, details, name, renameOnUpdate);
    var (t', id) := Upsert(t, email, newId, details, name, renameOnUpdate).value;
    var row := t'.byId[id];
    var again := if renameOnUpdate then row.(details := details, name := name) else row.(details := details);
    assert again == row;
    assert t'.byId[id := again] == t'.byId;
  }

  /** A plain insert: a store error when the id or the e-mail is already taken. */
  function Insert(t: Users, u: User): Result<Users, string> {
    if u.id in t.byId then Err("unique constraint failed on id")
    else if u.email in t.byEmail then Err("unique constraint failed on email")
    else Ok(Users(t.byId[u.id := u], t.byEmail[u.email := u.id]))
  }

  lemma InsertKeepsValid(t: Users, u: User)
    requires UsersValid(t)
    ensures Insert(t, u).Ok? <==> u.id !in t.byId && u.email !in t.byEmail
    ensures Insert(t, u).Ok? ==> UsersValid(Insert(t, u).value)
                                 && Insert(t, u).value.byId == t.byId[u.id := u]
  {
  }

  // ---------------------------------------------------------------------
  // Payment-intent helpers
  // ---------------------------------------------------------------------

  /** `domain.split(".").pop()`: the last dot-separated piece. */
  function Tld(domain: string): string {
    var pieces := Split(domain, '.');
    pieces[|pieces| - 1]
  }

  /** One character at a time: a leading character either ends a dot-free domain or is dropped with its piece. */
  lemma TldStep(domain: string)
    requires |domain| > 0
    ensures domain[0] == '.' || '.' in domain[1..] ==> Tld(domain) == Tld(domain[1..])
    ensures domain[0] != '.' && '.' !in domain[1..] ==> Tld(domain) == domain
  {
    var tail := domain[1..];
    var rest := Split(tail, '.');
    if domain[0] == '.' {
      assert Split(domain, '.') == [""] + rest;
    } else if '.' !in tail {
      assert rest == [tail] by { SplitFree(tail, '.'); }
      assert [domain[0]] + tail == domain;
    } else {
      assert |rest| != 1 by {
        JoinSplit(tail, '.');
        SplitPiecesFree(tail, '.', 0);
      }
      assert Split(domain, '.') == [[domain[0]] + rest[0]] + rest[1..];
    }
  }

  /**
   * The piece is what follows the last dot: it holds no dot and ends the
   * domain; it is the whole domain when there is no dot, and is preceded
   * by a dot otherwise.
   */
  lemma {:induction false} TldAfterLastDot(domain: string)
    ensures '.' !in Tld(domain)
    ensures |Tld(domain)| <= |domain| && domain[|domain| - |Tld(domain)|..] == Tld(domain)
    ensures '.' !in domain ==> Tld(domain) == domain
    ensures '.' in domain ==> |Tld(domain)| < |domain| && domain[|domain| - |Tld(domain)| - 1] == '.'
    decreases |domain|
  {
    SplitPiecesFree(domain, '.', |Split(domain, '.')| - 1);
    if |domain| > 0 {
      var tail := domain[1..];
      assert domain == [domain[0]] + tail;
      TldStep(domain);
      if domain[0] == '.' || '.' in tail {
        TldAfterLastDot(tail);
        var n := |Tld(tail)|;
        assert domain[|domain| - n..] == tail[|tail| - n..];
        if '.' in tail {
          assert domain[|domain| - n - 1] == tail[|tail| - n - 1];
        }
      }
    }
  }

  /** The payment-intent request body; "" and 0 stand for missing members. */
  datatype IntentRequest = IntentRequest(domain: string, years: int, userId: string, hostingPlan: string,
                                         domainAction: string)

  predicate IntentComplete(req: IntentRequest) {
    Truthy(req.domain) && req.years != 0 && Truthy(req.userId) && Truthy(req.hostingPlan) && Truthy(req.domainAction)
  }

  /** What the payment processor did with the intent request. */
  datatype StripeOutcome = IntentCreated(clientSecret: string) | StripeFailed

  // ---------------------------------------------------------------------
  // The webhook's inputs
  // ---------------------------------------------------------------------

  /** The plan object the checkout attached (`initialPlan`). */
  datatype PlanChoice = PlanChoice(id: string, name: string)

  /**
   * A payment's metadata as the webhook reads it. The two JSON members are
   * given parsed; `None` stands for one that is absent or does not parse.
   */
  datatype Metadata = Metadata(orderId: string, registrantInfo: Option<ContactInfo>, initialPlan: Option<PlanChoice>,
                               hostingUsername: string, hostingPassword: string)

  datatype PaymentIntent = PaymentIntent(id: string, amount: int, metadata: Metadata)

  datatype Event = PaymentSucceeded(intent: PaymentIntent) | OtherEvent(kind: string)

  /** A delivery whose signature checked out, or the verifier's complaint. */
  datatype Delivery = Verified(event: Event) | BadSignature(message: string)

  /** What the webhook answered, the tables afterwards and the provider requests it made. */
  datatype Fulfilment = Fulfilment(response: HttpResponse, orders: map<string, Order>, users: Users,
                                   calls: seq<ProviderCall>)

  const Received: HttpResponse := HttpResponse(200, ReceivedJson)
  const ProcessingFailed: HttpResponse := HttpResponse(500, ErrorJson("Failed to process order"))

  function DetailsOf(c: ContactInfo): Details {
    Details(c.firstName, c.lastName, c.address1, c.address2, c.city, c.stateProvince, c.postalCode, c.country, c.phone)
  }

  /** The domain step either lets the handler go on or ends it with a response. */
  datatype DomainStep = Proceed(calls: seq<ProviderCall>) | Halt(response: HttpResponse, calls: seq<ProviderCall>)

  /**
   * REGISTER registers, TRANSFER transfers when the order has an EPP
   * code, anything else stops with 400; a registrar error stops with 500.
   * Only the registrant is passed, so the other contacts copy it.
   */
  function DomainAction(cfg: Config, order: Order, registrant: ContactInfo, reply: ApiReply<Attributes>): DomainStep
  {
    if order.domainAction == "REGISTER" then
      var o := RegisterDomain(cfg, order.domainName, Count(order.years), registrant, None, None, None, [], true, true, reply);
      if o.result.Err? then Halt(ProcessingFailed, RegistrarCalls(o.sent)) else Proceed(RegistrarCalls(o.sent))
    else if order.domainAction == "TRANSFER" then
      if !Truthy(order.eppCode) then Halt(HttpResponse(400, ErrorJson("EPP Code missing for transfer")), [])
      else
        var o := TransferDomain(cfg, order.domainName, order.eppCode, Some(Count(order.years)), registrant, None, None, None,
                                true, true, reply);
        if o.result.Err? then Halt(ProcessingFailed, RegistrarCalls(o.sent)) else Proceed(RegistrarCalls(o.sent))
    else Halt(HttpResponse(400, ErrorJson("Unknown domain action")), [])
  }

  /** The domain step's requests and its verdict, case by case. */
  lemma DomainActionCases(cfg: Config, order: Order, registrant: ContactInfo, reply: ApiReply<Attributes>)
    ensures var s := DomainAction(cfg, order, registrant, reply);
            && (order.domainAction == "REGISTER" ==>
                  s.calls == RegistrarCalls(RegisterDomain(cfg, order.domainName, Count(order.years), registrant, None, None,
                                                           None, [], true, true, reply).sent))
            && (order.domainAction == "TRANSFER" && Truthy(order.eppCode) ==>
                  s.calls == RegistrarCalls(TransferDomain(cfg, order.domainName, order.eppCode, Some(Count(order.years)),
                                                           registrant, None, None, None, true, true, reply).sent))
            && (order.domainAction == "TRANSFER" && !Truthy(order.eppCode) ==>
                  s == Halt(HttpResponse(400, ErrorJson("EPP Code missing for transfer")), []))
            && (order.domainAction != "REGISTER" && order.domainAction != "TRANSFER" ==>
                  s == Halt(HttpResponse(400, ErrorJson("Unknown domain action")), []))
            && (s.Proceed? <==> (order.domainAction == "REGISTER" || (order.domainAction == "TRANSFER" && Truthy(order.eppCode)))
                                && |MissingVars(cfg)| == 0 && reply.Answered? && reply.status != "ERROR")
            && (s.Halt? && s.response.status == 500 ==> s.response == ProcessingFailed)
  {
  }

  /** The hosting request, made only when username, password and plan id are all non-empty. */
  function HostingCalls(md: Metadata, order: Order, registrant: ContactInfo, plan: PlanChoice): (calls: seq<ProviderCall>)
    ensures |calls| <= 1
    ensures |calls| == 1 <==> Truthy(md.hostingUsername) && Truthy(md.hostingPassword) && Truthy(plan.id)
    ensures |calls| == 1 ==>
              calls[0] == Hosting(AccountRequest(md.hostingUsername, order.domainName, md.hostingPassword, plan.id,
                                                 registrant.emailAddress))
  {
    if Truthy(md.hostingUsername) && Truthy(md.hostingPassword) && Truthy(plan.id) then
      [Hosting(AccountRequest(md.hostingUsername, order.domainName, md.hostingPassword, plan.id,
                              registrant.emailAddress))]
    else []
  }

  /** The first order write: COMPLETED and the payment id, whatever the order's status was. */
  function CompleteOrder(o: Order, paymentId: string): Order {
    o.(status := Completed, stripePaymentId := paymentId)
  }

  /** The second order write: the user, the plan's name (when it has one) and the amount paid. */
  function AssignOrder(o: Order, userId: string, plan: PlanChoice, amount: int): Order {
    o.(userId := userId, hostingPlan := if Truthy(plan.name) then plan.name else o.hostingPlan, totalPrice := amount)
  }

  /** The payment_intent.succeeded branch of the webhook, up to the first order write. */
  function Succeeded(cfg: Config, pi: PaymentIntent, orders: map<string, Order>, users: Users, newUserId: string,
                     reply: ApiReply<Attributes>): Fulfilment
  {
    var orderId := pi.metadata.orderId;
    if !Truthy(orderId) then Fulfilment(HttpResponse(400, ErrorJson("Order ID missing")), orders, users, [])
    else if orderId !in orders then Fulfilment(ProcessingFailed, orders, users, [])
    else
      var completed := orders[orderId := CompleteOrder(orders[orderId], pi.id)];
      if pi.metadata.registrantInfo.None? || pi.metadata.initialPlan.None? then
        Fulfilment(ProcessingFailed, completed, users, [])
      else Provision(cfg, pi, completed, users, newUserId, reply)
  }

  /**
   * The rest of the branch, on the tables after the first order write:
   * the user upsert, the second order write, the domain step and the
   * hosting request.
   */
  function Provision(cfg: Config, pi: PaymentIntent, orders: map<string, Order>, users: Users, newUserId: string,
                     reply: ApiReply<Attributes>): Fulfilment
    requires pi.metadata.orderId in orders
    requires pi.metadata.registrantInfo.Some? && pi.metadata.initialPlan.Some?
  {
    var orderId := pi.metadata.orderId;
    var registrant, plan := pi.metadata.registrantInfo.value, pi.metadata.initialPlan.value;
    var upsert := Upsert(users, registrant.emailAddress, newUserId, DetailsOf(registrant),
                         FullName(registrant.firstName, registrant.lastName), false);
    if upsert.Err? then Fulfilment(ProcessingFailed, orders, users, [])
    else
      var (users', userId) := upsert.value;
      var order := AssignOrder(orders[orderId], userId, plan, pi.amount);
      Deliver(cfg, pi.metadata, orders[orderId := order], users', order, registrant, plan, reply)
  }

  /** The domain step for `order`, then the hosting request if the domain step let the handler go on. */
  function Deliver(cfg: Config, md: Metadata, orders: map<string, Order>, users: Users, order: Order,
                   registrant: ContactInfo, plan: PlanChoice, reply: ApiReply<Attributes>): Fulfilment
  {
    var step := DomainAction(cfg, order, registrant, reply);
    if step.Halt? then Fulfilment(step.response, orders, users, step.calls)
    else Fulfilment(Received, orders, users, step.calls + HostingCalls(md, order, registrant, plan))
  }

  /**
   * The webhook as a function of the delivery, the tables before it, the
   * id the store would give a new user and the registrar's answer.
   */
  function Fulfil(cfg: Config, delivery: Delivery, orders: map<string, Order>, users: Users, newUserId: string,
                  reply: ApiReply<Attributes>): Fulfilment
  {
    match delivery
    case BadSignature(message) => Fulfilment(HttpResponse(400, ErrorJson("Webhook Error: " + message)), orders, users, [])
    case Verified(event) =>
      match event
      case PaymentSucceeded(pi) => Succeeded(cfg, pi, orders, users, newUserId, reply)
      case OtherEvent(_) => Fulfilment(Received, orders, users, [])
  }

  // ---------------------------------------------------------------------
  // Properties of the webhook
  // ---------------------------------------------------------------------

  /** The domain and hosting steps write no table. */
  lemma DeliverKeepsTables(cfg: Config, md: Metadata, orders: map<string, Order>, users: Users, order: Order,
                           registrant: ContactInfo, plan: PlanChoice, reply: ApiReply<Attributes>)
    ensures var f := Deliver(cfg, md, orders, users, order, registrant, plan, reply);
            f.orders == orders && f.users == users
  {
  }

  /**
   * The tables after provisioning: a failed upsert leaves them and ends
   * with 500 and no request; otherwise the user table is the upsert's and
   * the order carries the user's id, the plan's name and the amount.
   */
  lemma ProvisionTables(cfg: Config, pi: PaymentIntent, orders: map<string, Order>, users: Users,
                        newUserId: string, reply: ApiReply<Attributes>)
    requires pi.metadata.orderId in orders
    requires pi.metadata.registrantInfo.Some? && pi.metadata.initialPlan.Some?
    ensures var f := Provision(cfg, pi, orders, users, newUserId, reply);
            var r := pi.metadata.registrantInfo.value;
            var up := Upsert(users, r.emailAddress, newUserId, DetailsOf(r), FullName(r.firstName, r.lastName), false);
            && (up.Err? ==> f == Fulfilment(ProcessingFailed, orders, users, []))
            && (up.Ok? ==> f.users == up.value.0
                           && f.orders == orders[pi.metadata.orderId := AssignOrder(orders[pi.metadata.orderId],
                                                                                     up.value.1,
                                                                                     pi.metadata.initialPlan.value,
                                                                                     pi.amount)])
  {
    var r := pi.metadata.registrantInfo.value;
    var up := Upsert(users, r.emailAddress, newUserId, DetailsOf(r), FullName(r.firstName, r.lastName), false);
    if up.Ok? {
      var order := AssignOrder(orders[pi.metadata.orderId], up.value.1, pi.metadata.initialPlan.value, pi.amount);
      DeliverKeepsTables(cfg, pi.metadata, orders[pi.metadata.orderId := order], up.value.0, order, r,
                         pi.metadata.initialPlan.value, reply);
    }
  }

  /** A delivery that fails the signature check is refused before anything is written or sent. */
  lemma BadSignatureTouchesNothing(cfg: Config, message: string, orders: map<string, Order>, users: Users,
                                   newUserId: string, reply: ApiReply<Attributes>)
    ensures Fulfil(cfg, BadSignature(message), orders, users, newUserId, reply)
            == Fulfilment(HttpResponse(400, ErrorJson("Webhook Error: " + message)), orders, users, [])
  {
  }

  /** Other event types are acknowledged and change nothing; so is a payment without an order id, with 400. */
  lemma NothingWrittenWithoutOrderId(cfg: Config, delivery: Delivery, orders: map<string, Order>, users: Users,
                                     newUserId: string, reply: ApiReply<Attributes>)
    requires delivery.Verified?
    requires delivery.event.PaymentSucceeded? ==> !Truthy(delivery.event.intent.metadata.orderId)
    ensures var f := Fulfil(cfg, delivery, orders, users, newUserId, reply);
            && f.orders == orders && f.users == users && f.calls == []
            && f.response == (if delivery.event.OtherEvent? then Received
                              else HttpResponse(400, ErrorJson("Order ID missing")))
  {
  }

  /**
   * There is no "already processed" check: a payment for an existing order
   * marks it COMPLETED with this payment's id whatever its status was, and
   * that write stays even when a later step fails.
   */
  lemma CompletedWithoutGate(cfg: Config, pi: PaymentIntent, orders: map<string, Order>, users: Users,
                             newUserId: string, reply: ApiReply<Attributes>)
    requires pi.metadata.orderId in orders && Truthy(pi.metadata.orderId)
    ensures var f := Fulfil(cfg, Verified(PaymentSucceeded(pi)), orders, users, newUserId, reply);
            && f.orders.Keys == orders.Keys
            && f.orders[pi.metadata.orderId].status == Completed
            && f.orders[pi.metadata.orderId].stripePaymentId == pi.id
            && (forall id :: id in orders && id != pi.metadata.orderId ==> f.orders[id] == orders[id])
  {
    var completed := orders[pi.metadata.orderId := CompleteOrder(orders[pi.metadata.orderId], pi.id)];
    if pi.metadata.registrantInfo.Some? && pi.metadata.initialPlan.Some? {
      ProvisionTables(cfg, pi, completed, users, newUserId, reply);
    }
  }

  /** An unknown order id is a store error: 500, nothing written, nothing sent. */
  lemma UnknownOrderFails(cfg: Config, pi: PaymentIntent, orders: map<string, Order>, users: Users,
                          newUserId: string, reply: ApiReply<Attributes>)
    requires Truthy(pi.metadata.orderId) && pi.metadata.orderId !in orders
    ensures Fulfil(cfg, Verified(PaymentSucceeded(pi)), orders, users, newUserId, reply)
            == Fulfilment(ProcessingFailed, orders, users, [])
  {
  }

  /**
   * The registrant becomes (or updates) the user with its e-mail: a new
   * user is named "first last", an existing one keeps its name and
   * e-mail; every other user is untouched.
   */
  lemma WebhookUpsertsRegistrant(cfg: Config, pi: PaymentIntent, orders: map<string, Order>, users: Users,
                                 newUserId: string, reply: ApiReply<Attributes>)
    requires UsersValid(users)
    requires Truthy(pi.metadata.orderId) && pi.metadata.orderId in orders
    requires pi.metadata.registrantInfo.Some? && pi.metadata.initialPlan.Some?
    requires Truthy(pi.metadata.registrantInfo.value.emailAddress)
    requires pi.metadata.registrantInfo.value.emailAddress !in users.byEmail ==> newUserId !in users.byId
    ensures var f := Fulfil(cfg, Verified(PaymentSucceeded(pi)), orders, users, newUserId, reply);
            var r := pi.metadata.registrantInfo.value;
            && UsersValid(f.users)
            && r.emailAddress in f.users.byEmail
            && var id := f.users.byEmail[r.emailAddress];
            && f.orders[pi.metadata.orderId].userId == id
            && f.orders[pi.metadata.orderId].totalPrice == pi.amount
            && f.users.byId[id].details == DetailsOf(r)
            && (r.emailAddress in users.byEmail ==> f.users.byId[id].name == users.byId[id].name)
            && (r.emailAddress !in users.byEmail ==> f.users.byId[id].name == FullName(r.firstName, r.lastName))
            && (forall u :: u in users.byId && u != id ==> f.users.byId[u] == users.byId[u])
  {
    var r := pi.metadata.registrantInfo.value;
    UpsertByEmail(users, r.emailAddress, newUserId, DetailsOf(r), FullName(r.firstName, r.lastName), false);
    var completed := orders[pi.metadata.orderId := CompleteOrder(orders[pi.metadata.orderId], pi.id)];
    ProvisionTables(cfg, pi, completed, users, newUserId, reply);
  }

  /**
   * A TRANSFER order without an EPP code is refused with 400 and no
   * registrar request, although the order was already marked COMPLETED.
   */
  lemma TransferWithoutEppRefused(cfg: Config, pi: PaymentIntent, orders: map<string, Order>, users: Users,
                                  newUserId: string, reply: ApiReply<Attributes>)
    requires Truthy(pi.metadata.orderId) && pi.metadata.orderId in orders
    requires orders[pi.metadata.orderId].domainAction == "TRANSFER" && !Truthy(orders[pi.metadata.orderId].eppCode)
    ensures var f := Fulfil(cfg, Verified(PaymentSucceeded(pi)), orders, users, newUserId, reply);
            && f.calls == []
            && f.orders[pi.metadata.orderId].status == Completed
            && (f.response == HttpResponse(400, ErrorJson("EPP Code missing for transfer")) || f.response == ProcessingFailed)
  {
  }

  /**
   * Provider requests of a delivery that reaches the domain step: exactly
   * one registrar request for the order's domain and years (a registration,
   * or a transfer with the order's EPP code), then the
   * hosting request when the metadata carries username, password and plan
   * id. Whatever happens to the hosting request, the answer is 200 once
   * the registrar accepted.
   */
  lemma DomainThenHosting(cfg: Config, pi: PaymentIntent, orders: map<string, Order>, users: Users,
                          newUserId: string, reply: ApiReply<Attributes>)
    requires Truthy(pi.metadata.orderId) && pi.metadata.orderId in orders
    requires pi.metadata.registrantInfo.Some? && pi.metadata.initialPlan.Some?
    requires Upsert(users, pi.metadata.registrantInfo.value.emailAddress, newUserId,
                    DetailsOf(pi.metadata.registrantInfo.value),
                    FullName(pi.metadata.registrantInfo.value.firstName, pi.metadata.registrantInfo.value.lastName),
                    false).Ok?
    requires var o := orders[pi.metadata.orderId];
             o.domainAction == "REGISTER" || (o.domainAction == "TRANSFER" && Truthy(o.eppCode))
    requires |MissingVars(cfg)| == 0
    ensures var f := Fulfil(cfg, Verified(PaymentSucceeded(pi)), orders, users, newUserId, reply);
            var o := orders[pi.metadata.orderId];
            var r := pi.metadata.registrantInfo.value;
            var md := pi.metadata;
            && 1 <= |f.calls| <= 2
            && f.calls[0] == Registrar(if o.domainAction == "REGISTER" then
                                         RegisterDomain(cfg, o.domainName, Count(o.years), r, None, None, None, [], true,
                                                        true, reply).sent.value
                                       else
                                         TransferDomain(cfg, o.domainName, o.eppCode, Some(Count(o.years)), r, None,
                                                        None, None, true, true, reply).sent.value)
            && (f.response == Received <==> reply.Answered? && reply.status != "ERROR")
            && (f.response != Received ==> f.response == ProcessingFailed && |f.calls| == 1)
            && (|f.calls| == 2 <==> f.response == Received && Truthy(md.hostingUsername)
                                    && Truthy(md.hostingPassword) && Truthy(md.initialPlan.value.id))
  {
  }

  /** Provisioning the same payment again, on the tables it produced, produces them again. */
  lemma ProvisionReplay(cfg: Config, pi: PaymentIntent, orders: map<string, Order>, users: Users,
                        newUserId: string, reply: ApiReply<Attributes>)
    requires UsersValid(users)
    requires pi.metadata.orderId in orders
    requires pi.metadata.registrantInfo.Some? && pi.metadata.initialPlan.Some?
    requires Provision(cfg, pi, orders, users, newUserId, reply).response == Received
    ensures var f := Provision(cfg, pi, orders, users, newUserId, reply);
            pi.metadata.orderId in f.orders && Provision(cfg, pi, f.orders, f.users, newUserId, reply) == f
  {
    var orderId := pi.metadata.orderId;
    var r, plan := pi.metadata.registrantInfo.value, pi.metadata.initialPlan.value;
    var details, name := DetailsOf(r), FullName(r.firstName, r.lastName);
    UpsertIdempotent(users, r.emailAddress, newUserId, details, name, false);
    var (users', userId) := Upsert(users, r.emailAddress, newUserId, details, name, false).value;
    var order := AssignOrder(orders[orderId], userId, plan, pi.amount);
    var f := Provision(cfg, pi, orders, users, newUserId, reply);
    assert f.orders == orders[orderId := order];
    assert AssignOrder(order, userId, plan, pi.amount) == order;
    assert f.orders[orderId := order] == f.orders;
  }

  /**
   * No idempotency: delivering the same successful payment again writes
   * nothing new but repeats every provider request, registration or
   * transfer included, and answers the same.
   */
  lemma ReplayRepeatsProviderCalls(cfg: Config, delivery: Delivery, orders: map<string, Order>, users: Users,
                                   newUserId: string, reply: ApiReply<Attributes>)
    requires UsersValid(users)
    requires Fulfil(cfg, delivery, orders, users, newUserId, reply).response == Received
    ensures var f := Fulfil(cfg, delivery, orders, users, newUserId, reply);
            var g := Fulfil(cfg, delivery, f.orders, f.users, newUserId, reply);
            g == f
  {
    if delivery.Verified? && delivery.event.PaymentSucceeded? {
      var pi := delivery.event.intent;
      var orderId := pi.metadata.orderId;
      var completed := orders[orderId := CompleteOrder(orders[orderId], pi.id)];
      ProvisionReplay(cfg, pi, completed, users, newUserId, reply);
      var f := Provision(cfg, pi, completed, users, newUserId, reply);
      assert f.orders[orderId].status == Completed && f.orders[orderId].stripePaymentId == pi.id;
      assert f.orders[orderId := CompleteOrder(f.orders[orderId], pi.id)] == f.orders;
    }
  }

  /**
   * A payment created by the payment-intent route carries neither
   * registrantInfo nor initialPlan, so the webhook marks its order
   * COMPLETED and then fails with 500 before any provider request.
   */
  lemma IntentMetadataCannotFulfil(cfg: Config, md: IntentMetadata, paymentId: string, amount: int,
                                   orders: map<string, Order>, users: Users, newUserId: string,
                                   reply: ApiReply<Attributes>)
    requires Truthy(md.orderId) && md.orderId in orders
    ensures var pi := PaymentIntent(paymentId, amount, Metadata(md.orderId, None, None, "", ""));
            var f := Fulfil(cfg, Verified(PaymentSucceeded(pi)), orders, users, newUserId, reply);
            && f.response == ProcessingFailed && f.calls == [] && f.users == users
            && f.orders[md.orderId].status == Completed
  {
  }

  // ---------------------------------------------------------------------
  // The database and the handlers
  // ---------------------------------------------------------------------

  /** The user create route's body; "" stands for a missing member. */
  datatype UserRequest = UserRequest(email: string, details: Details)

  predicate UserComplete(req: UserRequest) {
    var d := req.details;
    Truthy(req.email) && Truthy(d.firstName) && Truthy(d.lastName) && Truthy(d.address1) && Truthy(d.city)
    && Truthy(d.stateProvince) && Truthy(d.postalCode) && Truthy(d.country) && Truthy(d.phone)
  }

  /** The profile route's body: the user create body plus the caller's id and an optional name. */
  datatype ProfileRequest = ProfileRequest(id: string, name: string, email: string, details: Details)

  predicate ProfileComplete(req: ProfileRequest) {
    Truthy(req.id) && UserComplete(UserRequest(req.email, req.details))
  }

  /** `name || `${firstName} ${lastName}`` */
  function ProfileName(req: ProfileRequest): (name: string)
    ensures Truthy(req.name) ==> name == req.name
    ensures !Truthy(req.name) ==> name == FullName(req.details.firstName, req.details.lastName)
  {
    if Truthy(req.name) then req.name else FullName(req.details.firstName, req.details.lastName)
  }

  class Database {
    var orders: map<string, Order>
    var users: Users
    /** Every provider request made so far, oldest first. */
    var log: seq<ProviderCall>

    ghost predicate Valid()
      reads this
    {
      UsersValid(users) && OrdersValid(orders)
    }

    constructor()
      ensures Valid() && orders == map[] && users == Users(map[], map[]) && log == []
    {
      orders := map[];
      users := Users(map[], map[]);
      log := [];
    }

    /**
     * POST /api/stripe/payment-intent: prices the domain, records a
     * PENDING order under `newOrderId` and asks the payment processor for
     * an intent of that many cents whose metadata names the order.
     */
    method CreatePaymentIntent(cfg: Config, req: IntentRequest, pricing: ApiReply<int>, newOrderId: string,
                               stripe: StripeOutcome) returns (response: HttpResponse)
      requires Valid()
      modifies this
      ensures Valid() && users == old(users)
      ensures !IntentComplete(req) ==>
                response == HttpResponse(400, ErrorJson("Missing required fields"))
                && orders == old(orders) && log == old(log)
      ensures IntentComplete(req) && !Truthy(Tld(req.domain)) ==>
                response == HttpResponse(400, ErrorJson("Invalid domain"))
                && orders == old(orders) && log == old(log)
      ensures response.status == 200 ==>
                var quote := GetPricing(cfg, "DOMAIN", req.domainAction, Tld(req.domain), pricing);
                IntentComplete(req) && Truthy(Tld(req.domain)) && quote.result.Ok? &&
                var price := quote.result.value * req.years;
                var md := IntentMetadata(newOrderId, req.domain, req.years, req.hostingPlan, req.domainAction, req.userId);
                && stripe.IntentCreated?
                && response.body == IntentJson(stripe.clientSecret, newOrderId)
                && newOrderId !in old(orders)
                && orders == old(orders)[newOrderId := Order(newOrderId, req.userId, Pending, req.hostingPlan,
                                                             req.domainAction, req.domain, req.years, price, "", "")]
                && log == old(log) + RegistrarCalls(quote.sent) + [StripeIntent(price, "usd", md)]
      ensures IntentComplete(req) && Truthy(Tld(req.domain)) ==>
                var quote := GetPricing(cfg, "DOMAIN", req.domainAction, Tld(req.domain), pricing);
                && response.status != 400
                && (quote.result.Err? || newOrderId in old(orders) ==>
                      response == InternalError && orders == old(orders) && log == old(log) + RegistrarCalls(quote.sent))
                && (quote.result.Ok? && newOrderId !in old(orders) ==>
                      var price := quote.result.value * req.years;
                      var md := IntentMetadata(newOrderId, req.domain, req.years, req.hostingPlan, req.domainAction,
                                               req.userId);
                      && orders == old(orders)[newOrderId := Order(newOrderId, req.userId, Pending, req.hostingPlan,
                                                                   req.domainAction, req.domain, req.years, price, "", "")]
                      && log == old(log) + RegistrarCalls(quote.sent) + [StripeIntent(price, "usd", md)]
                      && (stripe.IntentCreated? ==> response == HttpResponse(200, IntentJson(stripe.clientSecret, newOrderId)))
                      && (stripe.StripeFailed? ==> response == InternalError))
      ensures response.status in {200, 400, 500}
      ensures response.status == 500 ==> response == InternalError
      ensures orders == old(orders) || (newOrderId !in old(orders) && orders.Keys == old(orders.Keys) + {newOrderId})
    {
      if !IntentComplete(req) {
        return HttpResponse(400, ErrorJson("Missing required fields"));
      }
      var tld := Tld(req.domain);
      if !Truthy(tld) {
        return HttpResponse(400, ErrorJson("Invalid domain"));
      }
      var quote := GetPricing(cfg, "DOMAIN", req.domainAction, tld, pricing);
      log := log + RegistrarCalls(quote.sent);
      if quote.result.Err? {
        return InternalError;
      }
      var price := quote.result.value * req.years;
      if newOrderId in orders {
        return InternalError;
      }
      orders := orders[newOrderId := Order(newOrderId, req.userId, Pending, req.hostingPlan, req.domainAction,
                                           req.domain, req.years, price, "", "")];
      var md := IntentMetadata(newOrderId, req.domain, req.years, req.hostingPlan, req.domainAction, req.userId);
      log := log + [StripeIntent(price, "usd", md)];
      match stripe
      case StripeFailed =>
        return InternalError;
      case IntentCreated(secret) =>
        return HttpResponse(200, IntentJson(secret, newOrderId));
    }

    /**
     * POST /api/user/create: an upsert keyed by e-mail that sets the
     * contact columns and the name "first last" on both branches.
     */
    method CreateUser(req: UserRequest, newUserId: string) returns (response: HttpResponse)
      requires Valid()
      modifies this
      ensures Valid() && orders == old(orders) && log == old(log)
      ensures !UserComplete(req) ==>
                response == HttpResponse(400, ErrorJson("Missing required user information")) && users == old(users)
      ensures UserComplete(req) ==>
                match Upsert(old(users), req.email, newUserId, req.details,
                             FullName(req.details.firstName, req.details.lastName), true)
                case Ok((t, id)) => users == t && response == HttpResponse(200, UserJson(id))
                case Err(_) => users == old(users) && response == InternalError
    {
      if !UserComplete(req) {
        return HttpResponse(400, ErrorJson("Missing required user information"));
      }
      var name := FullName(req.details.firstName, req.details.lastName);
      UpsertKeepsValid(users, req.email, newUserId, req.details, name, true);
      match Upsert(users, req.email, newUserId, req.details, name, true)
      case Err(_) =>
        return InternalError;
      case Ok((t, id)) =>
        users := t;
        return HttpResponse(200, UserJson(id));
    }

    /**
     * POST /api/user/profile: a plain create under the caller's id; a
     * taken id or e-mail is a store error, answered with 500.
     */
    method CreateProfile(req: ProfileRequest) returns (response: HttpResponse)
      requires Valid()
      modifies this
      ensures Valid() && orders == old(orders) && log == old(log)
      ensures !ProfileComplete(req) ==>
                response == HttpResponse(400, ErrorJson("Missing required user profile information"))
                && users == old(users)
      ensures ProfileComplete(req) && (req.id in old(users).byId || req.email in old(users).byEmail) ==>
                response == InternalError && users == old(users)
      ensures ProfileComplete(req) && req.id !in old(users).byId && req.email !in old(users).byEmail ==>
                response == HttpResponse(201, ProfileJson(req.id, "User profile created successfully"))
                && users.byId == old(users).byId[req.id := User(req.id, req.email, ProfileName(req), req.details)]
                && users.byEmail == old(users).byEmail[req.email := req.id]
    {
      if !ProfileComplete(req) {
        return HttpResponse(400, ErrorJson("Missing required user profile information"));
      }
      var row := User(req.id, req.email, ProfileName(req), req.details);
      InsertKeepsValid(users, row);
      match Insert(users, row)
      case Err(_) =>
        return InternalError;
      case Ok(t) =>
        users := t;
        return HttpResponse(201, ProfileJson(req.id, "User profile created successfully"));
    }

    /**
     * POST /api/stripe/webhook, step by step: the order is marked
     * COMPLETED first, then the user upserted, the order given its user, the
     * domain registered or transferred and the hosting account requested.
     */
    method HandleWebhook(cfg: Config, delivery: Delivery, newUserId: string, reply: ApiReply<Attributes>)
      returns (response: HttpResponse)
      requires Valid()
      modifies this
      ensures Valid()
      ensures var f := Fulfil(cfg, delivery, old(orders), old(users), newUserId, reply);
              response == f.response && orders == f.orders && users == f.users && log == old(log) + f.calls
    {
      if delivery.BadSignature? {
        return HttpResponse(400, ErrorJson("Webhook Error: " + delivery.message));
      }
      if delivery.event.OtherEvent? {
        return Received;
      }
      var pi := delivery.event.intent;
      var orderId := pi.metadata.orderId;
      if !Truthy(orderId) {
        return HttpResponse(400, ErrorJson("Order ID missing"));
      }
      if orderId !in orders {
        return ProcessingFailed;
      }
      orders := orders[orderId := CompleteOrder(orders[orderId], pi.id)];
      if pi.metadata.registrantInfo.None? || pi.metadata.initialPlan.None? {
        return ProcessingFailed;
      }
      response := ProvisionOrder(cfg, pi, newUserId, reply);
    }

    /** The part of the webhook after the first order write. */
    method ProvisionOrder(cfg: Config, pi: PaymentIntent, newUserId: string, reply: ApiReply<Attributes>)
      returns (response: HttpResponse)
      requires Valid()
      requires pi.metadata.orderId in orders
      requires pi.metadata.registrantInfo.Some? && pi.metadata.initialPlan.Some?
      modifies this
      ensures Valid()
      ensures var f := Provision(cfg, pi, old(orders), old(users), newUserId, reply);
              response == f.response && orders == f.orders && users == f.users && log == old(log) + f.calls
    {
      var orderId := pi.metadata.orderId;
      var registrant, plan := pi.metadata.registrantInfo.value, pi.metadata.initialPlan.value;
      var name := FullName(registrant.firstName, registrant.lastName);
      UpsertKeepsValid(users, registrant.emailAddress, newUserId, DetailsOf(registrant), name, false);
      var upsert := Upsert(users, registrant.emailAddress, newUserId, DetailsOf(registrant), name, false);
      if upsert.Err? {
        return ProcessingFailed;
      }
      var (t, userId) := upsert.value;
      users := t;
      var order := AssignOrder(orders[orderId], userId, plan, pi.amount);
      orders := orders[orderId := order];
      response := DeliverOrder(cfg, pi.metadata, order, registrant, plan, reply);
    }

    /** The registrar request of the domain step, then the hosting request; the tables stay as they are. */
    method DeliverOrder(cfg: Config, md: Metadata, order: Order, registrant: ContactInfo, plan: PlanChoice,
                        reply: ApiReply<Attributes>) returns (response: HttpResponse)
      modifies this
      ensures orders == old(orders) && users == old(users)
      ensures var f := Deliver(cfg, md, orders, users, order, registrant, plan, reply);
              response == f.response && log == old(log) + f.calls
    {
      var step := DomainAction(cfg, order, registrant, reply);
      log := log + step.calls;
      if step.Halt? {
        return step.response;
      }
      log := log + HostingCalls(md, order, registrant, plan);
      return Received;
    }
  }
}
