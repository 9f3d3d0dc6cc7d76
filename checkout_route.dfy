/**
 * The checkout route of app/api/checkout/route.ts. A signed-in user names a price; the
 * route accepts only the three credit-pack prices, finds or creates the user's Stripe
 * customer, and opens a Stripe Checkout session for one unit of that price.
 *
 * Clerk, the request body and Stripe's session creation are parameters.
 */
module CheckoutRoute {
  import opened Wrappers
  import opened JsValues
  import opened CreditLedger
  import opened Http
  import WebhookRoute

  const DefaultAppUrl: string := "http://localhost:3000"
  const CheckoutFailed: string := "Failed to create checkout session"

  /** One entry of `line_items`. */
  datatype SessionLine = SessionLine(price: string, quantity: nat)

  /** The parameters of `stripe.checkout.sessions.create`; `userId` is the session's metadata. */
  datatype SessionParams = SessionParams(
    customer: string,
    mode: string,
    lineItems: seq<SessionLine>,
    allowPromotionCodes: bool,
    successUrl: string,
    cancelUrl: string,
    userId: string)

  /** The created session, as far as the route reads it. */
  datatype CheckoutSession = CheckoutSession(url: Option<string>)

  /**
   * The environment of one call:
   * - `auth` is the `userId` that `auth()` returns, Err when `auth()` throws;
   * - `priceId` is the body's `priceId`, Err when `req.json()` throws;
   * - `prices` are the three credit-pack price variables;
   * - `appUrl` is `NEXT_PUBLIC_APP_URL`;
   * - `primaryEmail(userId)` is the Clerk user's primary email, Err when the lookup throws;
   * - `freshCustomerId` is the id Stripe gives a customer it creates;
   * - `createSession` is `stripe.checkout.sessions.create`, Err when it throws.
   */
  datatype CheckoutIo = CheckoutIo(
    auth: Result<Option<string>, string>,
    priceId: Result<Option<string>, string>,
    prices: WebhookRoute.CreditPrices,
    appUrl: Option<string>,
    primaryEmail: string -> Result<Option<string>, string>,
    freshCustomerId: string,
    createSession: SessionParams -> Result<CheckoutSession, string>)
  {
    /** `auth()` returned a non-empty `userId`. */
    predicate SignedIn()
    {
      auth.Ok? && Truthy(auth.value)
    }
  }

  /** `validPriceIds`: the three variables, unset ones included as `undefined`. */
  function ValidPriceIds(prices: WebhookRoute.CreditPrices): seq<Option<string>>
  {
    [prices.gen1, prices.gen5, prices.gen10]
  }

  /** `validPriceIds.includes(priceId)` for a price id that is a string. */
  predicate Allowed(priceId: string, prices: WebhookRoute.CreditPrices)
  {
    Some(priceId) in ValidPriceIds(prices)
  }

  /** The session for one unit of `priceId`, bought by `customerId` for `userId`, returning to the app. */
  function SessionFor(customerId: string, priceId: string, userId: string, appUrl: Option<string>): SessionParams
  {
    var base := OrDefault(appUrl, DefaultAppUrl);
    SessionParams(customerId, "payment", [SessionLine(priceId, 1)], true, base + "?success=true", base + "?canceled=true", userId)
  }

  /**
   * What the request reaches once the price and the email are known: the customer, then
   * the session. It answers 200 or 500, and at most adds the fresh customer.
   */
  function OpenSession(userId: string, priceId: string, email: string, io: CheckoutIo, customers: map<string, Customer>, order: seq<string>): (r: StoreReply)
    ensures r.reply.status in {200, 500}
    ensures customers.Keys <= r.customers.Keys <= customers.Keys + {io.freshCustomerId}
    ensures io.freshCustomerId !in customers ==> forall id :: id in customers ==> r.customers[id] == customers[id]
  {
    var lookup := GetOrCreate(customers, order, email, io.freshCustomerId);
    match io.createSession(SessionFor(lookup.customerId, priceId, userId, io.appUrl))
    case Err(_) => StoreReply(Failure(500, CheckoutFailed), lookup.customers, lookup.order)
    case Ok(session) => StoreReply(Success(CheckoutUrl(session.url)), lookup.customers, lookup.order)
  }

  /**
   * `POST` as a function of the store before the call. It answers 200, 400, 401 or 500,
   * 401 exactly when `auth()` gives no user (a throw from it is the generic 500); the only change to the store is at most one new
   * customer under the id Stripe assigns.
   */
  function Checkout(io: CheckoutIo, customers: map<string, Customer>, order: seq<string>): (r: StoreReply)
    ensures r.reply.status in {200, 400, 401, 500}
    ensures r.reply.status == 401 <==> io.auth.Ok? && !Truthy(io.auth.value)
    ensures customers.Keys <= r.customers.Keys <= customers.Keys + {io.freshCustomerId}
    ensures io.freshCustomerId !in customers ==> forall id :: id in customers ==> r.customers[id] == customers[id]
  {
    if io.auth.Err? then StoreReply(Failure(500, CheckoutFailed), customers, order)
    else if !Truthy(io.auth.value) then StoreReply(Failure(401, "Unauthorized"), customers, order)
    else match io.priceId
      case Err(_) => StoreReply(Failure(500, CheckoutFailed), customers, order)
      case Ok(priceId) =>
        if !Truthy(priceId) then StoreReply(Failure(400, "Price ID is required"), customers, order)
        else if !Allowed(priceId.value, io.prices) then StoreReply(Failure(400, "Invalid price ID"), customers, order)
        else match io.primaryEmail(io.auth.value.value)
          case Err(_) => StoreReply(Failure(500, CheckoutFailed), customers, order)
          case Ok(email) =>
            if !Truthy(email) then StoreReply(Failure(400, "No email address found"), customers, order)
            else OpenSession(io.auth.value.value, priceId.value, email.value, io, customers, order)
  }

  /** The route handler. */
  method Post(io: CheckoutIo, store: CustomerStore) returns (reply: Reply)
    requires io.freshCustomerId !in store.customers
    modifies store
    ensures StoreReply(reply, store.customers, store.order) == Checkout(io, old(store.customers), old(store.order))
  {
    if io.auth.Err? {
      return Failure(500, CheckoutFailed);
    }
    var userId := io.auth.value;
    if !Truthy(userId) {
      return Failure(401, "Unauthorized");
    }
    if io.priceId.Err? {
      return Failure(500, CheckoutFailed);
    }
    var priceId := io.priceId.value;
    if !Truthy(priceId) {
      return Failure(400, "Price ID is required");
    }
    var validPriceIds := ValidPriceIds(io.prices);
    if Some(priceId.value) !in validPriceIds {
      return Failure(400, "Invalid price ID");
    }
    var clerkUser := io.primaryEmail(userId.value);
    if clerkUser.Err? {
      return Failure(500, CheckoutFailed);
    }
    if !Truthy(clerkUser.value) {
      return Failure(400, "No email address found");
    }
    var email := clerkUser.value.value;
    var customerId := store.GetOrCreateStripeCustomer(email, io.freshCustomerId);
    var session := io.createSession(SessionFor(customerId, priceId.value, userId.value, io.appUrl));
    if session.Err? {
      return Failure(500, CheckoutFailed);
    }
    reply := Success(CheckoutUrl(session.value.url));
  }

  // ---------------------------------------------------------------- properties

  /**
   * Authentication comes first: a throw from `auth()` answers the generic 500 and a missing
   * user 401, whatever the body says, and the store is untouched.
   */
  lemma UnauthorizedFirst(io: CheckoutIo, customers: map<string, Customer>, order: seq<string>, priceId: Result<Option<string>, string>)
    requires !io.SignedIn()
    ensures io.auth.Err? ==> Checkout(io, customers, order) == StoreReply(Failure(500, CheckoutFailed), customers, order)
    ensures io.auth.Ok? ==> Checkout(io, customers, order) == StoreReply(Failure(401, "Unauthorized"), customers, order)
    ensures Checkout(io.(priceId := priceId), customers, order) == Checkout(io, customers, order)
  {
  }

  /**
   * The price is checked against the allowlist before anything else is looked up: a
   * missing or unlisted price answers 400 without consulting Clerk or Stripe.
   */
  lemma PriceCheckedFirst(io: CheckoutIo, customers: map<string, Customer>, order: seq<string>,
                          primaryEmail: string -> Result<Option<string>, string>, createSession: SessionParams -> Result<CheckoutSession, string>)
    requires io.SignedIn() && io.priceId.Ok?
    requires !Truthy(io.priceId.value) || !Allowed(io.priceId.value.value, io.prices)
    ensures var s := Checkout(io, customers, order);
      s.reply.status == 400 && s.customers == customers && s.order == order
    ensures Checkout(io.(primaryEmail := primaryEmail, createSession := createSession), customers, order) == Checkout(io, customers, order)
  {
  }

  /** Opening a session never answers 400. */
  lemma SessionNeverAnswers400(userId: string, priceId: string, email: string, io: CheckoutIo, customers: map<string, Customer>, order: seq<string>)
    ensures OpenSession(userId, priceId, email, io, customers, order).reply.status != 400
  {
  }

  /** Every 400 leaves the store as it was: no customer is created for a rejected request. */
  lemma RejectionsCreateNoCustomer(io: CheckoutIo, customers: map<string, Customer>, order: seq<string>)
    ensures var s := Checkout(io, customers, order);
      s.reply.status == 400 ==> s.customers == customers && s.order == order
  {
    if io.SignedIn() && io.priceId.Ok? && Truthy(io.priceId.value) && Allowed(io.priceId.value.value, io.prices)
      && io.primaryEmail(io.auth.value.value).Ok? && Truthy(io.primaryEmail(io.auth.value.value).value)
    {
      SessionNeverAnswers400(io.auth.value.value, io.priceId.value.value, io.primaryEmail(io.auth.value.value).value.value, io, customers, order);
    }
  }

  /** Every 500 carries only the generic "Failed to create checkout session", whichever step threw, `auth()` included. */
  lemma ServerErrorsAreGeneric(io: CheckoutIo, customers: map<string, Customer>, order: seq<string>)
    ensures var s := Checkout(io, customers, order);
      s.reply.status == 500 ==> s.reply == Failure(500, CheckoutFailed)
  {
  }

  /**
   * A session is opened for the user's own customer (a live record with the user's email),
   * for exactly one unit of the chosen price, in payment mode with promotion codes, tagged
   * with the user's id, returning to the app's URL with `?success=true` or `?canceled=true`.
   */
  lemma SessionBuysOneUnit(userId: string, priceId: string, email: string, io: CheckoutIo, customers: map<string, Customer>, order: seq<string>)
    ensures var lookup := GetOrCreate(customers, order, email, io.freshCustomerId);
      var params := SessionFor(lookup.customerId, priceId, userId, io.appUrl);
      var base := if Truthy(io.appUrl) then io.appUrl.value else DefaultAppUrl;
      lookup.customerId in lookup.customers && lookup.customers[lookup.customerId].email == email &&
      !lookup.customers[lookup.customerId].deleted &&
      params.customer == lookup.customerId && params.lineItems == [SessionLine(priceId, 1)] &&
      params.mode == "payment" && params.allowPromotionCodes && params.userId == userId &&
      params.successUrl == base + "?success=true" && params.cancelUrl == base + "?canceled=true"
  {
  }

  /** A failed session creation answers 500, but a customer created for it stays created. */
  lemma FailedSessionKeepsCustomer(userId: string, priceId: string, email: string, io: CheckoutIo, customers: map<string, Customer>, order: seq<string>)
    requires var lookup := GetOrCreate(customers, order, email, io.freshCustomerId);
      io.createSession(SessionFor(lookup.customerId, priceId, userId, io.appUrl)).Err?
    ensures var lookup := GetOrCreate(customers, order, email, io.freshCustomerId);
      OpenSession(userId, priceId, email, io, customers, order) == StoreReply(Failure(500, CheckoutFailed), lookup.customers, lookup.order)
  {
  }

  /**
   * The allowlist and the webhook agree: a price is accepted for checkout exactly when one
   * unit of it is worth credits to the webhook that fulfils the payment.
   */
  lemma AllowedIffWorthCredits(priceId: string, prices: WebhookRoute.CreditPrices)
    ensures Allowed(priceId, prices) <==>
      WebhookRoute.ItemCredits(WebhookRoute.LineItem(WebhookRoute.PriceId(priceId), Some(1)), prices) > 0
  {
  }
}
