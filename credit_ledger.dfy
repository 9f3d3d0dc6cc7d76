/**
 * The credit ledger of lib/stripe.ts. Balances live in the string-keyed metadata of a
 * Stripe customer record; `credits` and `total_gens` are decimal strings parsed with
 * `parseInt`, and every operation is a read of the record followed by one metadata update.
 * The per-customer lock around each operation is not modelled: each operation here is one
 * atomic step on the store.
 */
module CreditLedger {
  import opened Wrappers
  import opened JsValues

  /** Stripe customer metadata. */
  type Metadata = map<string, string>

  /** A Stripe customer record, as far as the ledger reads it. */
  datatype Customer = Customer(email: string, deleted: bool, metadata: Metadata)

  /** What `stripe.customers.retrieve` can fail with. */
  datatype LedgerError = NoSuchCustomer | CustomerDeleted

  /** The typed view `getCustomerCredits` returns (`CreditMetadata`). */
  datatype CreditMetadata = CreditMetadata(
    credits: Num,
    totalGens: Num,
    lastGenAt: Option<string>,
    lastPreset: Option<string>,
    lastEventId: Option<string>,
    lastBytes: Option<string>,
    lastHash: Option<string>)

  /** The result of one ledger step: what the call returns and the store after it. */
  datatype Step<T> = Step(result: T, customers: map<string, Customer>)

  /** `metadata[key]`, undefined when the key is absent. */
  function Get(m: Metadata, key: string): Option<string>
  {
    if key in m then Some(m[key]) else None
  }

  /**
   * Stripe's metadata update: every posted key is set to its posted value, a key
   * posted with "" is removed, and keys that are not posted keep their values.
   */
  function Merge(m: Metadata, update: Metadata): (r: Metadata)
    ensures forall k :: k in update ==> Get(r, k) == if update[k] == "" then None else Some(update[k])
    ensures forall k :: k !in update ==> Get(r, k) == Get(m, k)
  {
    map k | k in m.Keys + update.Keys && (k in update ==> update[k] != "") :: if k in update then update[k] else m[k]
  }

  /** The metadata a new customer is created with: 5 free credits and no generations. */
  const InitialMetadata: Metadata := map["credits" := "5", "total_gens" := "0"]

  /**
   * `parseInt(metadata.credits || "0")` and the same for `total_gens`, plus the audit fields:
   * a missing or empty counter reads as 0, a NaN counter comes only from stored text that
   * does not parse, and the audit fields are read as stored.
   */
  function ParseCredits(m: Metadata): (r: CreditMetadata)
    ensures !Truthy(Get(m, "credits")) ==> r.credits == Int(0)
    ensures !Truthy(Get(m, "total_gens")) ==> r.totalGens == Int(0)
    ensures r.credits.NaN? ==> Truthy(Get(m, "credits"))
    ensures r.totalGens.NaN? ==> Truthy(Get(m, "total_gens"))
    ensures r.lastGenAt == Get(m, "last_gen_at") && r.lastPreset == Get(m, "last_preset") && r.lastEventId == Get(m, "last_event_id")
    ensures r.lastBytes == Get(m, "last_bytes") && r.lastHash == Get(m, "last_hash")
  {
    ParseIntOfIntToString(0);
    CreditMetadata(
      ParseInt(OrDefault(Get(m, "credits"), "0")),
      ParseInt(OrDefault(Get(m, "total_gens"), "0")),
      Get(m, "last_gen_at"), Get(m, "last_preset"), Get(m, "last_event_id"),
      Get(m, "last_bytes"), Get(m, "last_hash"))
  }

  /** `getCustomerCredits`: retrieve the customer, refuse a deleted one, parse its metadata. */
  function GetCustomerCredits(customers: map<string, Customer>, customerId: string): (r: Result<CreditMetadata, LedgerError>)
    ensures r.Ok? <==> customerId in customers && !customers[customerId].deleted
    ensures r == Err(NoSuchCustomer) <==> customerId !in customers
    ensures r.Ok? ==> r.value == ParseCredits(customers[customerId].metadata)
    ensures r.Ok? && !Truthy(Get(customers[customerId].metadata, "credits")) ==> r.value.credits == Int(0)
  {
    if customerId !in customers then Err(NoSuchCustomer)
    else if customers[customerId].deleted then Err(CustomerDeleted)
    else Ok(ParseCredits(customers[customerId].metadata))
  }

  /**
   * The metadata update `decrementCredit` posts, or None when it refuses because
   * `credits <= 0`. The ISO timestamp of the charge is the parameter `now`.
   */
  function ChargeUpdate(current: CreditMetadata, presetId: string, hashSignature: string, approxBytes: nat, now: string): (r: Option<Metadata>)
    ensures r.None? <==> AtMostZero(current.credits)
    ensures r.Some? ==> r.value.Keys == {"credits", "total_gens", "last_gen_at", "last_preset", "last_bytes", "last_hash"}
    ensures r.Some? ==> ParseInt(r.value["credits"]) == Plus(current.credits, -1)
    ensures r.Some? ==> ParseInt(r.value["total_gens"]) == Plus(current.totalGens, 1)
    ensures r.Some? ==> ParseInt(r.value["last_bytes"]) == Int(approxBytes)
    ensures r.Some? ==> r.value["last_gen_at"] == now && r.value["last_preset"] == presetId && r.value["last_hash"] == hashSignature
  {
    ParseIntOfNumToString(Plus(current.credits, -1));
    ParseIntOfNumToString(Plus(current.totalGens, 1));
    ParseIntOfIntToString(approxBytes);
    if AtMostZero(current.credits) then None
    else Some(map[
      "credits" := NumToString(Plus(current.credits, -1)),
      "total_gens" := NumToString(Plus(current.totalGens, 1)),
      "last_gen_at" := now,
      "last_preset" := presetId,
      "last_bytes" := NatToString(approxBytes),
      "last_hash" := hashSignature])
  }

  /** The metadata update `incrementCredits` posts. It does not look at `last_event_id` first. */
  function GrantUpdate(current: CreditMetadata, amount: int, eventId: string): (r: Metadata)
    ensures r.Keys == {"credits", "total_gens", "last_event_id"}
    ensures ParseInt(r["credits"]) == Plus(current.credits, amount) && ParseInt(r["total_gens"]) == current.totalGens
    ensures r["last_event_id"] == eventId
  {
    ParseIntOfNumToString(Plus(current.credits, amount));
    ParseIntOfNumToString(current.totalGens);
    map[
      "credits" := NumToString(Plus(current.credits, amount)),
      "total_gens" := NumToString(current.totalGens),
      "last_event_id" := eventId]
  }

  /** `decrementCredit` as one atomic step on the store. */
  function Decrement(customers: map<string, Customer>, customerId: string, presetId: string, hashSignature: string, approxBytes: nat, now: string): (r: Step<Result<bool, LedgerError>>)
    ensures r.result.Ok? <==> customerId in customers && !customers[customerId].deleted
    ensures r.result != Ok(true) ==> r.customers == customers
    ensures r.customers.Keys == customers.Keys
    ensures forall id :: id in customers && id != customerId ==> r.customers[id] == customers[id]
    ensures r.result == Ok(true) ==> r.customers[customerId].email == customers[customerId].email && !r.customers[customerId].deleted
  {
    match GetCustomerCredits(customers, customerId)
    case Err(e) => Step(Err(e), customers)
    case Ok(current) =>
      match ChargeUpdate(current, presetId, hashSignature, approxBytes, now)
      case None => Step(Ok(false), customers)
      case Some(update) =>
        var c := customers[customerId];
        Step(Ok(true), customers[customerId := c.(metadata := Merge(c.metadata, update))])
  }

  /** `incrementCredits` as one atomic step on the store. */
  function Increment(customers: map<string, Customer>, customerId: string, amount: int, eventId: string): (r: Step<Result<(), LedgerError>>)
    ensures r.result.Ok? <==> customerId in customers && !customers[customerId].deleted
    ensures r.result.Err? ==> r.customers == customers
    ensures r.customers.Keys == customers.Keys
    ensures forall id :: id in customers && id != customerId ==> r.customers[id] == customers[id]
    ensures r.result.Ok? ==> r.customers[customerId].email == customers[customerId].email && !r.customers[customerId].deleted
  {
    match GetCustomerCredits(customers, customerId)
    case Err(e) => Step(Err(e), customers)
    case Ok(current) =>
      var c := customers[customerId];
      Step(Ok(()), customers[customerId := c.(metadata := Merge(c.metadata, GrantUpdate(current, amount, eventId)))])
  }

  /**
   * `stripe.customers.list({ email, limit: 1 })`: Stripe lists live customers newest
   * first, so this is the most recently created non-deleted customer with that email.
   */
  function FindByEmail(customers: map<string, Customer>, order: seq<string>, email: string): (r: Option<string>)
    ensures r.Some? ==> r.value in order && r.value in customers && customers[r.value].email == email && !customers[r.value].deleted
    ensures r.None? ==> forall id :: id in order && id in customers ==> customers[id].email != email || customers[id].deleted
    ensures r.Some? ==> exists i :: 0 <= i < |order| && order[i] == r.value && NoneLiveAfter(customers, order, email, i)
  {
    if |order| == 0 then None
    else
      var last := order[|order| - 1];
      if last in customers && customers[last].email == email && !customers[last].deleted then
        assert NoneLiveAfter(customers, order, email, |order| - 1);
        Some(last)
      else
        var r := FindByEmail(customers, order[..|order| - 1], email);
        assert forall id :: id in order ==> id == last || id in order[..|order| - 1];
        if r.Some? then
          var i :| 0 <= i < |order| - 1 && order[..|order| - 1][i] == r.value && NoneLiveAfter(customers, order[..|order| - 1], email, i);
          assert order[i] == r.value && NoneLiveAfter(customers, order, email, i);
          r
        else r
  }

  /** No customer listed after position `i` of the creation order is live with this email. */
  predicate NoneLiveAfter(customers: map<string, Customer>, order: seq<string>, email: string, i: nat)
  {
    forall j :: i < j < |order| && order[j] in customers ==> customers[order[j]].email != email || customers[order[j]].deleted
  }

  /** What `getOrCreateStripeCustomer` leaves behind: the customer id it returns and the store after it. */
  datatype Lookup = Lookup(customerId: string, customers: map<string, Customer>, order: seq<string>)

  /**
   * `getOrCreateStripeCustomer(email)` as a function: the newest live customer with this
   * email, or a new one with `InitialMetadata` under the id Stripe assigns (`freshId`).
   */
  function GetOrCreate(customers: map<string, Customer>, order: seq<string>, email: string, freshId: string): (r: Lookup)
    ensures r.customerId in r.customers && !r.customers[r.customerId].deleted && r.customers[r.customerId].email == email
    ensures customers.Keys <= r.customers.Keys <= customers.Keys + {freshId}
    ensures freshId !in customers ==> forall id :: id in customers ==> r.customers[id] == customers[id]
  {
    match FindByEmail(customers, order, email)
    case Some(id) => Lookup(id, customers, order)
    case None => Lookup(freshId, customers[freshId := Customer(email, false, InitialMetadata)], order + [freshId])
  }

  /** An existing customer's record is left alone; a new one adds exactly its own record, with 5 credits. */
  lemma GetOrCreateOnlyAdds(customers: map<string, Customer>, order: seq<string>, email: string, freshId: string)
    requires freshId !in customers
    ensures var r := GetOrCreate(customers, order, email, freshId);
      (forall id :: id in customers ==> id in r.customers && r.customers[id] == customers[id]) &&
      (r.customerId !in customers ==> r.customerId == freshId && ParseCredits(r.customers[freshId].metadata).credits == Int(5)) &&
      r.customers.Keys <= customers.Keys + {freshId}
  {
    if FindByEmail(customers, order, email).None? {
      InitialBalance();
    }
  }

  // ---------------------------------------------------------------- the store

  /** The Stripe customer store the ledger reads and writes. */
  class CustomerStore {
    var customers: map<string, Customer>
    /** Customer ids in creation order. */
    var order: seq<string>

    constructor (customers0: map<string, Customer>, order0: seq<string>)
      ensures customers == customers0 && order == order0
    {
      customers, order := customers0, order0;
    }

    /**
     * `getOrCreateStripeCustomer`: the newest live customer with this email, or a new
     * customer with `InitialMetadata` under the id Stripe assigns (`freshId`).
     */
    method GetOrCreateStripeCustomer(email: string, freshId: string) returns (customerId: string)
      requires freshId !in customers
      modifies this
      ensures old(FindByEmail(customers, order, email)).Some? ==>
        customerId == old(FindByEmail(customers, order, email)).value && customers == old(customers) && order == old(order)
      ensures old(FindByEmail(customers, order, email)).None? ==>
        customerId == freshId && order == old(order) + [freshId] &&
        customers == old(customers)[freshId := Customer(email, false, InitialMetadata)]
      ensures Lookup(customerId, customers, order) == GetOrCreate(old(customers), old(order), email, freshId)
    {
      var existing := FindByEmail(customers, order, email);
      if existing.Some? {
        return existing.value;
      }
      customers := customers[freshId := Customer(email, false, InitialMetadata)];
      order := order + [freshId];
      customerId := freshId;
    }

    /** `incrementCredits(customerId, amount, eventId)`. */
    method IncrementCredits(customerId: string, amount: int, eventId: string) returns (r: Result<(), LedgerError>)
      modifies this
      ensures Step(r, customers) == Increment(old(customers), customerId, amount, eventId)
      ensures order == old(order)
    {
      var current := GetCustomerCredits(customers, customerId);
      if current.Err? {
        return Err(current.error);
      }
      var newCredits := Plus(current.value.credits, amount);
      var update := map[
        "credits" := NumToString(newCredits),
        "total_gens" := NumToString(current.value.totalGens),
        "last_event_id" := eventId];
      var c := customers[customerId];
      customers := customers[customerId := c.(metadata := Merge(c.metadata, update))];
      r := Ok(());
    }

    /** `decrementCredit(customerId, presetId, hashSignature, approxBytes)`, charged at time `now`. */
    method DecrementCredit(customerId: string, presetId: string, hashSignature: string, approxBytes: nat, now: string) returns (r: Result<bool, LedgerError>)
      modifies this
      ensures Step(r, customers) == Decrement(old(customers), customerId, presetId, hashSignature, approxBytes, now)
      ensures order == old(order)
    {
      var current := GetCustomerCredits(customers, customerId);
      if current.Err? {
        return Err(current.error);
      }
      if AtMostZero(current.value.credits) {
        return Ok(false);
      }
      var newCredits := Plus(current.value.credits, -1);
      var newTotalGens := Plus(current.value.totalGens, 1);
      var update := map[
        "credits" := NumToString(newCredits),
        "total_gens" := NumToString(newTotalGens),
        "last_gen_at" := now,
        "last_preset" := presetId,
        "last_bytes" := NatToString(approxBytes),
        "last_hash" := hashSignature];
      var c := customers[customerId];
      customers := customers[customerId := c.(metadata := Merge(c.metadata, update))];
      r := Ok(true);
    }
  }

  // ---------------------------------------------------------------- properties

  /** Missing (or empty) `credits` and `total_gens` read as 0, never as an error. */
  lemma MissingFieldsReadAsZero(m: Metadata)
    requires !Truthy(Get(m, "credits")) && !Truthy(Get(m, "total_gens"))
    ensures ParseCredits(m).credits == Int(0) && ParseCredits(m).totalGens == Int(0)
  {
    ParseIntOfIntToString(0);
  }

  /** A new customer reads as 5 credits and 0 generations, with no audit fields. */
  lemma InitialBalance()
    ensures ParseCredits(InitialMetadata) == CreditMetadata(Int(5), Int(0), None, None, None, None, None)
  {
    ParseIntOfIntToString(5);
    ParseIntOfIntToString(0);
  }

  /** A customer that is missing or deleted makes the charge fail without a write. */
  lemma DecrementFailsWithoutCustomer(customers: map<string, Customer>, customerId: string, presetId: string, hashSignature: string, approxBytes: nat, now: string)
    requires customerId !in customers || customers[customerId].deleted
    ensures var s := Decrement(customers, customerId, presetId, hashSignature, approxBytes, now);
      s.result.Err? && s.customers == customers
  {
  }

  /** With `credits <= 0` the charge is refused and nothing is written. */
  lemma DecrementRefusesWhenEmpty(customers: map<string, Customer>, customerId: string, presetId: string, hashSignature: string, approxBytes: nat, now: string)
    requires customerId in customers && !customers[customerId].deleted
    requires AtMostZero(ParseCredits(customers[customerId].metadata).credits)
    ensures Decrement(customers, customerId, presetId, hashSignature, approxBytes, now) == Step(Ok(false), customers)
  {
  }

  /** The update `decrementCredit` posts, over its six values. */
  function ChargeShape(c: string, t: string, at: string, preset: string, bytes: string, hash: string): Metadata
  {
    map["credits" := c, "total_gens" := t, "last_gen_at" := at, "last_preset" := preset, "last_bytes" := bytes, "last_hash" := hash]
  }

  /** Merging a charge-shaped update with non-empty counters sets both counters and keeps `last_event_id`. */
  lemma MergeChargeCounters(m: Metadata, c: string, t: string, at: string, preset: string, bytes: string, hash: string)
    requires c != "" && t != ""
    ensures var r := Merge(m, ChargeShape(c, t, at, preset, bytes, hash));
      Get(r, "credits") == Some(c) && Get(r, "total_gens") == Some(t) && Get(r, "last_event_id") == Get(m, "last_event_id")
  {
    var u := ChargeShape(c, t, at, preset, bytes, hash);
    assert u["credits"] == c && u["total_gens"] == t;
    assert "last_event_id" !in u;
  }

  /** Merging a charge-shaped update with non-empty audit values sets those four keys. */
  lemma MergeChargeAudit(m: Metadata, c: string, t: string, at: string, preset: string, bytes: string, hash: string)
    requires at != "" && preset != "" && bytes != "" && hash != ""
    ensures var r := Merge(m, ChargeShape(c, t, at, preset, bytes, hash));
      Get(r, "last_gen_at") == Some(at) && Get(r, "last_preset") == Some(preset) &&
      Get(r, "last_bytes") == Some(bytes) && Get(r, "last_hash") == Some(hash)
  {
    var u := ChargeShape(c, t, at, preset, bytes, hash);
    assert u["last_gen_at"] == at && u["last_preset"] == preset;
    assert u["last_bytes"] == bytes && u["last_hash"] == hash;
  }

  /** What the charge's metadata update does to the parsed view of a record. */
  lemma ChargedView(m: Metadata, presetId: string, hashSignature: string, approxBytes: nat, now: string)
    requires !AtMostZero(ParseCredits(m).credits)
    requires presetId != "" && hashSignature != "" && now != ""
    ensures var before := ParseCredits(m);
      ParseCredits(Merge(m, ChargeUpdate(before, presetId, hashSignature, approxBytes, now).value))
        == CreditMetadata(Plus(before.credits, -1), Plus(before.totalGens, 1), Some(now), Some(presetId),
                          before.lastEventId, Some(NatToString(approxBytes)), Some(hashSignature))
  {
    var before := ParseCredits(m);
    var u := ChargeUpdate(before, presetId, hashSignature, approxBytes, now).value;
    var c, t := NumToString(Plus(before.credits, -1)), NumToString(Plus(before.totalGens, 1));
    NumToStringNonEmpty(Plus(before.credits, -1));
    NumToStringNonEmpty(Plus(before.totalGens, 1));
    assert u == ChargeShape(c, t, now, presetId, NatToString(approxBytes), hashSignature);
    MergeChargeCounters(m, c, t, now, presetId, NatToString(approxBytes), hashSignature);
    MergeChargeAudit(m, c, t, now, presetId, NatToString(approxBytes), hashSignature);
    ParseIntOfNumToString(Plus(before.credits, -1));
    ParseIntOfNumToString(Plus(before.totalGens, 1));
  }

  /**
   * A successful charge takes exactly one credit, adds exactly one generation, stamps
   * the audit fields with this request's preset, size, hash and time, returns true and
   * touches no other customer and no other metadata key.
   */
  lemma DecrementCharges(customers: map<string, Customer>, customerId: string, presetId: string, hashSignature: string, approxBytes: nat, now: string)
    requires customerId in customers && !customers[customerId].deleted
    requires !AtMostZero(ParseCredits(customers[customerId].metadata).credits)
    requires presetId != "" && hashSignature != "" && now != ""
    ensures var s := Decrement(customers, customerId, presetId, hashSignature, approxBytes, now);
      var before := ParseCredits(customers[customerId].metadata);
      var after := ParseCredits(s.customers[customerId].metadata);
      && s.result == Ok(true)
      && s.customers.Keys == customers.Keys
      && (forall id :: id in customers && id != customerId ==> s.customers[id] == customers[id])
      && s.customers[customerId].email == customers[customerId].email
      && after.credits == Plus(before.credits, -1)
      && after.totalGens == Plus(before.totalGens, 1)
      && after.lastPreset == Some(presetId)
      && after.lastHash == Some(hashSignature)
      && after.lastGenAt == Some(now)
      && after.lastBytes == Some(NatToString(approxBytes))
      && ParseInt(after.lastBytes.value) == Int(approxBytes)
      && after.lastEventId == before.lastEventId
  {
    ChargedView(customers[customerId].metadata, presetId, hashSignature, approxBytes, now);
    ParseIntOfIntToString(approxBytes);
  }

  /** Merging a grant-shaped update with non-empty values sets its three keys and keeps the audit fields. */
  lemma MergeGrantShape(m: Metadata, c: string, t: string, e: string)
    requires c != "" && t != "" && e != ""
    ensures var r := Merge(m, map["credits" := c, "total_gens" := t, "last_event_id" := e]);
      Get(r, "credits") == Some(c) && Get(r, "total_gens") == Some(t) && Get(r, "last_event_id") == Some(e) &&
      Get(r, "last_gen_at") == Get(m, "last_gen_at") && Get(r, "last_preset") == Get(m, "last_preset") &&
      Get(r, "last_bytes") == Get(m, "last_bytes") && Get(r, "last_hash") == Get(m, "last_hash")
  {
    var u := map["credits" := c, "total_gens" := t, "last_event_id" := e];
    assert u["credits"] == c && u["total_gens"] == t && u["last_event_id"] == e;
    assert "last_gen_at" !in u && "last_preset" !in u && "last_bytes" !in u && "last_hash" !in u;
  }

  /** What the grant's metadata update does to the parsed view of a record. */
  lemma GrantedView(m: Metadata, amount: int, eventId: string)
    requires eventId != ""
    ensures var before := ParseCredits(m);
      ParseCredits(Merge(m, GrantUpdate(before, amount, eventId)))
        == before.(credits := Plus(before.credits, amount), lastEventId := Some(eventId))
  {
    var before := ParseCredits(m);
    var u := GrantUpdate(before, amount, eventId);
    var c, t := NumToString(Plus(before.credits, amount)), NumToString(before.totalGens);
    NumToStringNonEmpty(Plus(before.credits, amount));
    NumToStringNonEmpty(before.totalGens);
    assert u == map["credits" := c, "total_gens" := t, "last_event_id" := eventId];
    MergeGrantShape(m, c, t, eventId);
    ParseIntOfNumToString(Plus(before.credits, amount));
    ParseIntOfNumToString(before.totalGens);
  }

  /**
   * `incrementCredits` sets the balance to old + amount, leaves `total_gens` as it was
   * and records the event id; the other audit fields are kept.
   */
  lemma IncrementGrants(customers: map<string, Customer>, customerId: string, amount: int, eventId: string)
    requires customerId in customers && !customers[customerId].deleted
    requires eventId != ""
    ensures var s := Increment(customers, customerId, amount, eventId);
      var before := ParseCredits(customers[customerId].metadata);
      var after := ParseCredits(s.customers[customerId].metadata);
      && s.result == Ok(())
      && s.customers.Keys == customers.Keys
      && (forall id :: id in customers && id != customerId ==> s.customers[id] == customers[id])
      && after.credits == Plus(before.credits, amount)
      && after.totalGens == before.totalGens
      && after.lastEventId == Some(eventId)
      && after.lastPreset == before.lastPreset && after.lastHash == before.lastHash
      && after.lastGenAt == before.lastGenAt && after.lastBytes == before.lastBytes
  {
    GrantedView(customers[customerId].metadata, amount, eventId);
  }

  /**
   * `incrementCredits` never consults `last_event_id`: delivering the same event twice
   * grants twice.
   */
  lemma GrantTwiceAddsTwice(customers: map<string, Customer>, customerId: string, amount: int, eventId: string)
    requires customerId in customers && !customers[customerId].deleted
    requires eventId != ""
    ensures var once := Increment(customers, customerId, amount, eventId).customers;
      var twice := Increment(once, customerId, amount, eventId).customers;
      ParseCredits(twice[customerId].metadata).credits
        == Plus(ParseCredits(customers[customerId].metadata).credits, 2 * amount)
  {
    var once := Increment(customers, customerId, amount, eventId).customers;
    IncrementGrants(customers, customerId, amount, eventId);
    IncrementGrants(once, customerId, amount, eventId);
  }

  /**
   * A balance that does not parse (NaN) is never refused: `NaN <= 0` is false, so the
   * charge succeeds and writes "NaN" back, and the same holds on every later charge.
   */
  lemma NaNBalanceIsAlwaysCharged(customers: map<string, Customer>, customerId: string, presetId: string, hashSignature: string, approxBytes: nat, now: string)
    requires customerId in customers && !customers[customerId].deleted
    requires ParseCredits(customers[customerId].metadata).credits == NaN
    requires presetId != "" && hashSignature != "" && now != ""
    ensures var s := Decrement(customers, customerId, presetId, hashSignature, approxBytes, now);
      s.result == Ok(true) && ParseCredits(s.customers[customerId].metadata).credits == NaN
  {
    DecrementCharges(customers, customerId, presetId, hashSignature, approxBytes, now);
  }

  // ---------------------------------------------------------------- non-negativity

  /** A ledger call on one customer. */
  datatype LedgerOp =
    | Charge(presetId: string, hashSignature: string, approxBytes: nat, now: string)
    | Grant(amount: int, eventId: string)

  function Apply(customers: map<string, Customer>, customerId: string, op: LedgerOp): map<string, Customer>
  {
    match op
    case Charge(p, h, b, t) => Decrement(customers, customerId, p, h, b, t).customers
    case Grant(a, e) => Increment(customers, customerId, a, e).customers
  }

  function ApplyAll(customers: map<string, Customer>, customerId: string, ops: seq<LedgerOp>): map<string, Customer>
    decreases |ops|
  {
    if |ops| == 0 then customers else ApplyAll(Apply(customers, customerId, ops[0]), customerId, ops[1..])
  }

  predicate NonNegativeBalance(customers: map<string, Customer>, customerId: string)
  {
    customerId in customers ==> var c := ParseCredits(customers[customerId].metadata).credits; c.Int? && c.value >= 0
  }

  /** An update that posts `credits` as the text of a number leaves exactly that number as the balance. */
  lemma CreditsAfterMerge(m: Metadata, u: Metadata, n: Num)
    requires "credits" in u && u["credits"] == NumToString(n)
    ensures ParseCredits(Merge(m, u)).credits == n
  {
    NumToStringNonEmpty(n);
    assert Get(Merge(m, u), "credits") == Some(NumToString(n));
    ParseIntOfNumToString(n);
  }

  lemma ApplyKeepsNonNegative(customers: map<string, Customer>, customerId: string, op: LedgerOp)
    requires NonNegativeBalance(customers, customerId)
    requires op.Grant? ==> op.amount >= 0
    ensures NonNegativeBalance(Apply(customers, customerId, op), customerId)
  {
    if customerId in customers && !customers[customerId].deleted {
      var m := customers[customerId].metadata;
      match op
      case Charge(p, h, b, t) =>
        if !AtMostZero(ParseCredits(m).credits) {
          CreditsAfterMerge(m, ChargeUpdate(ParseCredits(m), p, h, b, t).value, Plus(ParseCredits(m).credits, -1));
        }
      case Grant(a, e) =>
        CreditsAfterMerge(m, GrantUpdate(ParseCredits(m), a, e), Plus(ParseCredits(m).credits, a));
    }
  }

  /**
   * Starting from a non-negative balance, any sequence of charges and non-negative
   * grants keeps the balance a non-negative integer.
   */
  lemma {:induction false} BalanceStaysNonNegative(customers: map<string, Customer>, customerId: string, ops: seq<LedgerOp>)
    requires NonNegativeBalance(customers, customerId)
    requires forall i :: 0 <= i < |ops| && ops[i].Grant? ==> ops[i].amount >= 0
    ensures NonNegativeBalance(ApplyAll(customers, customerId, ops), customerId)
    decreases |ops|
  {
    if |ops| > 0 {
      ApplyKeepsNonNegative(customers, customerId, ops[0]);
      BalanceStaysNonNegative(Apply(customers, customerId, ops[0]), customerId, ops[1..]);
    }
  }
}
