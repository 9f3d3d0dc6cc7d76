/**
 * The Stripe webhook of app/api/webhooks/stripe/route.ts. It checks the signature header,
 * the configured secret and the event's signature, and then handles only completed
 * checkouts: it sums the credits of the session's line items and grants the total to
 * the session's customer when it is positive.
 *
 * Signature checking (`constructEvent`) and the line-item listing are parameters.
 */
module WebhookRoute {
  import opened Wrappers
  import opened JsValues
  import opened CreditLedger
  import opened Http

  const CompletedCheckout: string := "checkout.session.completed"
  /** The `limit` the line items are listed with. */
  const LineItemLimit: nat := 100

  /** `session.customer`: an id, an expanded customer object, or null. */
  datatype CustomerRef = CustomerId(id: string) | ExpandedCustomer(id: string) | NoCustomer
  /** `item.price`: an id, an expanded price object, or null. */
  datatype PriceRef = PriceId(id: string) | ExpandedPrice(id: string) | NoPrice

  datatype LineItem = LineItem(price: PriceRef, quantity: Option<nat>)
  datatype Session = Session(id: string, customer: CustomerRef)
  /** A verified event; `session` is `event.data.object`, read only for completed checkouts. */
  datatype Event = Event(id: string, eventType: string, session: Session)

  /** The `NEXT_PUBLIC_STRIPE_PRICE_GEN_1`, `_GEN_5` and `_GEN_10` variables. */
  datatype CreditPrices = CreditPrices(gen1: Option<string>, gen5: Option<string>, gen10: Option<string>)

  datatype WebhookRequest = WebhookRequest(body: string, signature: Option<string>)

  /**
   * The route's environment: `STRIPE_WEBHOOK_SECRET`, `constructEvent(body, signature,
   * secret)` (Err when verification throws), `listLineItems(sessionId, { limit })` (Err
   * when it throws), and the three credit price ids.
   */
  datatype WebhookIo = WebhookIo(
    webhookSecret: Option<string>,
    constructEvent: (string, string, string) -> Result<Event, string>,
    listLineItems: (string, nat) -> Result<seq<LineItem>, string>,
    prices: CreditPrices)

  function CustomerIdOf(customer: CustomerRef): Option<string>
  {
    match customer
    case CustomerId(id) => Some(id)
    case ExpandedCustomer(id) => Some(id)
    case NoCustomer => None
  }

  function PriceIdOf(price: PriceRef): Option<string>
  {
    match price
    case PriceId(id) => Some(id)
    case ExpandedPrice(id) => Some(id)
    case NoPrice => None
  }

  /** `item.quantity || 0`. */
  function Quantity(item: LineItem): nat
  {
    if item.quantity.Some? then item.quantity.value else 0
  }

  /**
   * The credits one unit of a price buys: the first of GEN_1, GEN_5, GEN_10 it equals
   * (`===`, under which an unset price equals an unset variable) gives 1, 5 or 10; any
   * other price gives 0.
   */
  function Weight(priceId: Option<string>, prices: CreditPrices): (w: nat)
    ensures w == 1 || w == 5 || w == 10 || w == 0
    ensures w == 0 <==> priceId != prices.gen1 && priceId != prices.gen5 && priceId != prices.gen10
  {
    if priceId == prices.gen1 then 1
    else if priceId == prices.gen5 then 5
    else if priceId == prices.gen10 then 10
    else 0
  }

  function ItemCredits(item: LineItem, prices: CreditPrices): nat
  {
    Weight(PriceIdOf(item.price), prices) * Quantity(item)
  }

  /** The credits of a list of line items: the sum of weight times quantity. */
  function TotalCredits(items: seq<LineItem>, prices: CreditPrices): nat
  {
    if |items| == 0 then 0
    else TotalCredits(items[..|items| - 1], prices) + ItemCredits(items[|items| - 1], prices)
  }

  /** The `for (const item of lineItems.data)` loop. */
  method SumCredits(items: seq<LineItem>, prices: CreditPrices) returns (totalCredits: nat)
    ensures totalCredits == TotalCredits(items, prices)
  {
    totalCredits := 0;
    for k := 0 to |items|
      invariant totalCredits == TotalCredits(items[..k], prices)
    {
      assert items[..k + 1][..k] == items[..k];
      var priceId := PriceIdOf(items[k].price);
      var quantity := Quantity(items[k]);
      if priceId == prices.gen1 {
        totalCredits := totalCredits + 1 * quantity;
      } else if priceId == prices.gen5 {
        totalCredits := totalCredits + 5 * quantity;
      } else if priceId == prices.gen10 {
        totalCredits := totalCredits + 10 * quantity;
      }
    }
    assert items[..|items|] == items;
  }

  /**
   * `POST` as a function of the store before the call. It answers 200, 400 or 500, never
   * adds or removes a customer, and only a 200 can change the store.
   */
  function Webhook(req: WebhookRequest, io: WebhookIo, customers: map<string, Customer>): (r: Step<Reply>)
    ensures r.result.status in {200, 400, 500}
    ensures r.customers.Keys == customers.Keys
    ensures r.result.status != 200 ==> r.customers == customers
  {
    if !Truthy(req.signature) then Step(Failure(400, "No signature provided"), customers)
    else if !Truthy(io.webhookSecret) then Step(Failure(500, "Webhook secret not configured"), customers)
    else match io.constructEvent(req.body, req.signature.value, io.webhookSecret.value)
      case Err(_) => Step(Failure(400, "Invalid signature"), customers)
      case Ok(event) =>
        if event.eventType != CompletedCheckout then Step(Success(Received(None)), customers)
        else
          var customerId := CustomerIdOf(event.session.customer);
          if !Truthy(customerId) then Step(Failure(400, "No customer ID"), customers)
          else match io.listLineItems(event.session.id, LineItemLimit)
            case Err(_) => Step(Failure(500, "Processing failed"), customers)
            case Ok(items) =>
              var total := TotalCredits(items, io.prices);
              if total > 0 then
                var granted := Increment(customers, customerId.value, total, event.id);
                if granted.result.Err? then Step(Failure(500, "Processing failed"), granted.customers)
                else Step(Success(Received(Some(total))), granted.customers)
              else Step(Success(Received(Some(0))), customers)
  }

  /** The route handler. */
  method Post(req: WebhookRequest, io: WebhookIo, store: CustomerStore) returns (reply: Reply)
    modifies store
    ensures Step(reply, store.customers) == Webhook(req, io, old(store.customers))
    ensures store.order == old(store.order)
  {
    if !Truthy(req.signature) {
      return Failure(400, "No signature provided");
    }
    if !Truthy(io.webhookSecret) {
      return Failure(500, "Webhook secret not configured");
    }
    var event := io.constructEvent(req.body, req.signature.value, io.webhookSecret.value);
    if event.Err? {
      return Failure(400, "Invalid signature");
    }
    if event.value.eventType != CompletedCheckout {
      return Success(Received(None));
    }
    var customerId := CustomerIdOf(event.value.session.customer);
    if !Truthy(customerId) {
      return Failure(400, "No customer ID");
    }
    var lineItems := io.listLineItems(event.value.session.id, LineItemLimit);
    if lineItems.Err? {
      return Failure(500, "Processing failed");
    }
    var totalCredits := SumCredits(lineItems.value, io.prices);
    if totalCredits > 0 {
      var granted := store.IncrementCredits(customerId.value, totalCredits, event.value.id);
      if granted.Err? {
        return Failure(500, "Processing failed");
      }
    }
    reply := Success(Received(Some(totalCredits)));
  }

  // ---------------------------------------------------------------- the sum

  /** The total is positive exactly when some line item has a matched price and a positive quantity. */
  lemma {:induction false} TotalPositiveIff(items: seq<LineItem>, prices: CreditPrices)
    ensures TotalCredits(items, prices) > 0 <==> exists i :: 0 <= i < |items| && ItemCredits(items[i], prices) > 0
  {
    if |items| > 0 {
      var init := items[..|items| - 1];
      TotalPositiveIff(init, prices);
      if exists i :: 0 <= i < |init| && ItemCredits(init[i], prices) > 0 {
        var i :| 0 <= i < |init| && ItemCredits(init[i], prices) > 0;
        assert items[i] == init[i];
      }
      if exists i :: 0 <= i < |items| && ItemCredits(items[i], prices) > 0 {
        var i :| 0 <= i < |items| && ItemCredits(items[i], prices) > 0;
        if i < |init| {
          assert init[i] == items[i];
        }
      }
    }
  }

  /** Appending a line item adds its own credits. */
  lemma TotalOfAppend(items: seq<LineItem>, item: LineItem, prices: CreditPrices)
    ensures TotalCredits(items + [item], prices) == TotalCredits(items, prices) + Weight(PriceIdOf(item.price), prices) * Quantity(item)
  {
    assert (items + [item])[..|items|] == items;
  }

  /** A line item without a quantity adds nothing. */
  lemma MissingQuantityCountsZero(item: LineItem, prices: CreditPrices)
    requires item.quantity.None?
    ensures ItemCredits(item, prices) == 0
  {
  }

  /** A line item without a price counts as a GEN_1 purchase when `NEXT_PUBLIC_STRIPE_PRICE_GEN_1` is unset. */
  lemma UnpricedItemCountsAsGen1WhenUnset(item: LineItem, prices: CreditPrices)
    requires item.price == NoPrice && prices.gen1.None?
    ensures ItemCredits(item, prices) == Quantity(item)
  {
  }

  // ---------------------------------------------------------------- the route

  /** Every early answer leaves the store untouched; no grant happens without a verified completed checkout. */
  lemma GuardsComeFirst(req: WebhookRequest, io: WebhookIo, customers: map<string, Customer>)
    ensures !Truthy(req.signature) ==> Webhook(req, io, customers) == Step(Failure(400, "No signature provided"), customers)
    ensures Truthy(req.signature) && !Truthy(io.webhookSecret) ==>
      Webhook(req, io, customers) == Step(Failure(500, "Webhook secret not configured"), customers)
    ensures Truthy(req.signature) && Truthy(io.webhookSecret) ==>
      io.constructEvent(req.body, req.signature.value, io.webhookSecret.value).Err? ==>
      Webhook(req, io, customers) == Step(Failure(400, "Invalid signature"), customers)
  {
  }

  /** A verified event of another type is acknowledged and changes nothing. */
  lemma OtherEventsIgnored(req: WebhookRequest, io: WebhookIo, customers: map<string, Customer>, event: Event)
    requires Truthy(req.signature) && Truthy(io.webhookSecret)
    requires io.constructEvent(req.body, req.signature.value, io.webhookSecret.value) == Ok(event)
    requires event.eventType != CompletedCheckout
    ensures Webhook(req, io, customers) == Step(Success(Received(None)), customers)
  {
  }

  /** A completed checkout without a customer id is refused and changes nothing. */
  lemma MissingCustomerRefused(req: WebhookRequest, io: WebhookIo, customers: map<string, Customer>, event: Event)
    requires Truthy(req.signature) && Truthy(io.webhookSecret)
    requires io.constructEvent(req.body, req.signature.value, io.webhookSecret.value) == Ok(event)
    requires event.eventType == CompletedCheckout && !Truthy(CustomerIdOf(event.session.customer))
    ensures Webhook(req, io, customers) == Step(Failure(400, "No customer ID"), customers)
  {
  }

  /**
   * For a completed checkout with a customer and its line items, the route grants the
   * line items' total to that customer, stamped with the event id, exactly when the total
   * is positive, and reports the total.
   */
  lemma GrantsTheTotal(req: WebhookRequest, io: WebhookIo, customers: map<string, Customer>, event: Event, items: seq<LineItem>)
    requires Truthy(req.signature) && Truthy(io.webhookSecret)
    requires io.constructEvent(req.body, req.signature.value, io.webhookSecret.value) == Ok(event)
    requires event.eventType == CompletedCheckout && Truthy(CustomerIdOf(event.session.customer))
    requires io.listLineItems(event.session.id, LineItemLimit) == Ok(items)
    ensures var total := TotalCredits(items, io.prices);
      var id := CustomerIdOf(event.session.customer).value;
      var s := Webhook(req, io, customers);
      (total > 0 ==> s.customers == Increment(customers, id, total, event.id).customers) &&
      (total == 0 ==> s.customers == customers) &&
      (s.result.status == 200 ==> s.result.body == Received(Some(total))) &&
      (s.result.status == 200 <==> total == 0 || Increment(customers, id, total, event.id).result.Ok?)
  {
  }

  /** A redelivered event grants its credits a second time: the route does not look at `last_event_id`. */
  lemma RedeliveryGrantsTwice(req: WebhookRequest, io: WebhookIo, customers: map<string, Customer>, event: Event, items: seq<LineItem>)
    requires Truthy(req.signature) && Truthy(io.webhookSecret)
    requires io.constructEvent(req.body, req.signature.value, io.webhookSecret.value) == Ok(event)
    requires event.eventType == CompletedCheckout && Truthy(CustomerIdOf(event.session.customer))
    requires io.listLineItems(event.session.id, LineItemLimit) == Ok(items)
    requires event.id != "" && TotalCredits(items, io.prices) > 0
    requires var id := CustomerIdOf(event.session.customer).value; id in customers && !customers[id].deleted
    ensures var id := CustomerIdOf(event.session.customer).value;
      var twice := Webhook(req, io, Webhook(req, io, customers).customers).customers;
      ParseCredits(twice[id].metadata).credits == Plus(ParseCredits(customers[id].metadata).credits, 2 * TotalCredits(items, io.prices))
  {
    var id := CustomerIdOf(event.session.customer).value;
    var total := TotalCredits(items, io.prices);
    IncrementGrants(customers, id, total, event.id);
    var once := Increment(customers, id, total, event.id).customers;
    assert Webhook(req, io, customers).customers == once;
    IncrementGrants(once, id, total, event.id);
    GrantTwiceAddsTwice(customers, id, total, event.id);
  }
}
