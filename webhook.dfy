/**
 * The payment-notification endpoint (src/app/api/webhook/route.ts): verify the
 * provider's signature, act only on a completed checkout, mark the order paid
 * with the shipping and billing addresses the checkout collected, and mail a
 * confirmation. The database is a map from order id to order, the mail service
 * an outbox of accepted messages; signature checking and sending are oracles.
 */
module Webhook {
  import opened Wrappers

  const CHECKOUT_COMPLETED: string := "checkout.session.completed"
  const SENDER: string := "CaseCobra <orders@casecobra.example>"
  const SUBJECT: string := "Thanx for you order!"

  /* ---------------------------------------------------------- the event */

  /** A postal address as the payment provider reports it; any field may be null. */
  datatype StripeAddress = StripeAddress(
    city: Option<string>, country: Option<string>, line1: Option<string>,
    line2: Option<string>, postalCode: Option<string>, state: Option<string>)

  datatype CustomerDetails = CustomerDetails(email: Option<string>, name: Option<string>, address: Option<StripeAddress>)

  datatype ShippingDetails = ShippingDetails(name: Option<string>, address: Option<StripeAddress>)

  /** The checkout session carried by the event (`event.data.object`). */
  datatype Session = Session(
    customerDetails: Option<CustomerDetails>,
    shippingDetails: Option<ShippingDetails>,
    metadata: Option<map<string, string>>)

  /** A verified event: its type tag and its object. */
  datatype Event = Event(kind: string, session: Session)

  /* ------------------------------------------------------- the database */

  /** A stored address record. */
  datatype Address = Address(name: string, street: string, city: string, state: string, postalCode: string, country: string)

  datatype Order = Order(
    userId: string, amount: int, isPaid: bool, createdAt: int,
    shippingAddress: Option<Address>, billingAddress: Option<Address>)

  /** The confirmation mail: the template receives the order id, its date and the shipping address. */
  datatype Email = Email(sender: string, to: seq<string>, subject: string, orderId: string, orderDate: int, shippingAddress: Address)

  /** What the mail service's `send` did: accepted the message, reported an error, or threw. */
  datatype SendOutcome = Delivered | ReturnedError | Threw

  /** `400 Invalid Signature`, `200 {result: event, ok: true}` or `500 {ok: false}`. */
  datatype Response = InvalidSignature | Acknowledged(result: Event) | Failed {
    function Status(): int {
      match this
      case InvalidSignature => 400
      case Acknowledged(_) => 200
      case Failed => 500
    }
  }

  /* ------------------------------------------------------ the decisions */

  /** JavaScript truthiness of an optional string: present and not empty. */
  predicate Truthy(s: Option<string>)
    ensures Truthy(s) <==> s != None && s != Some("")
  {
    s.Some? && s.value != ""
  }

  /**
   * `(session.metadata || {userId: null, orderId: null})[key]`: null when there
   * is no metadata or the key is absent.
   */
  function MetadataField(metadata: Option<map<string, string>>, key: string): (r: Option<string>)
    ensures metadata.None? ==> r.None?
    ensures r.Some? <==> metadata.Some? && key in metadata.value
    ensures r.Some? ==> r.value == metadata.value[key]
  {
    if metadata.Some? && key in metadata.value then Some(metadata.value[key]) else None
  }

  /** Every field the handler copies into an address record is present. */
  predicate Complete(name: Option<string>, a: Option<StripeAddress>) {
    && name.Some? && a.Some?
    && a.value.city.Some? && a.value.country.Some? && a.value.line1.Some?
    && a.value.postalCode.Some? && a.value.state.Some?
  }

  /** The address record built from the customer's name and a provider address. */
  function ToAddress(name: Option<string>, a: Option<StripeAddress>): (r: Option<Address>)
    ensures r.Some? <==> Complete(name, a)
    ensures r.Some? ==>
      && r.value.name == name.value
      && r.value.street == a.value.line1.value
      && r.value.postalCode == a.value.postalCode.value
      && r.value.city == a.value.city.value && r.value.state == a.value.state.value
      && r.value.country == a.value.country.value
  {
    if Complete(name, a) then
      Some(Address(name.value, a.value.line1.value, a.value.city.value, a.value.state.value,
                   a.value.postalCode.value, a.value.country.value))
    else None
  }

  /** What a completed checkout must carry for the order to be updated. */
  datatype Checkout = Checkout(email: string, userId: string, orderId: string, shipping: Address, billing: Address)

  /**
   * The checks of a completed checkout, in the handler's order: a customer
   * e-mail, `userId` and `orderId` in the metadata, then both addresses.
   */
  function ValidateCheckout(s: Session): (r: Option<Checkout>)
    ensures r.Some? <==>
      && s.customerDetails.Some? && Truthy(s.customerDetails.value.email)
      && Truthy(MetadataField(s.metadata, "userId")) && Truthy(MetadataField(s.metadata, "orderId"))
      && s.shippingDetails.Some?
      && Complete(s.customerDetails.value.name, s.shippingDetails.value.address)
      && Complete(s.customerDetails.value.name, s.customerDetails.value.address)
    ensures r.Some? ==>
      && r.value.email == s.customerDetails.value.email.value
      && r.value.orderId == MetadataField(s.metadata, "orderId").value
      && r.value.userId == MetadataField(s.metadata, "userId").value
      && Some(r.value.shipping) == ToAddress(s.customerDetails.value.name, s.shippingDetails.value.address)
      && Some(r.value.billing) == ToAddress(s.customerDetails.value.name, s.customerDetails.value.address)
  {
    if s.customerDetails.None? || !Truthy(s.customerDetails.value.email) then None
    else
      var userId, orderId := MetadataField(s.metadata, "userId"), MetadataField(s.metadata, "orderId");
      if !Truthy(userId) || !Truthy(orderId) then None
      else if s.shippingDetails.None? then None
      else
        var name := s.customerDetails.value.name;
        match (ToAddress(name, s.shippingDetails.value.address), ToAddress(name, s.customerDetails.value.address))
        case (Some(shipping), Some(billing)) =>
          Some(Checkout(s.customerDetails.value.email.value, userId.value, orderId.value, shipping, billing))
        case _ => None
  }

  /** The order after `db.order.update`: paid, with both new addresses; nothing else changes. */
  function PaidOrder(o: Order, c: Checkout): (r: Order)
    ensures r.isPaid
    ensures r.shippingAddress == Some(c.shipping) && r.billingAddress == Some(c.billing)
    ensures r.userId == o.userId && r.amount == o.amount && r.createdAt == o.createdAt
  {
    o.(isPaid := true, shippingAddress := Some(c.shipping), billingAddress := Some(c.billing))
  }

  /** The confirmation mail for an updated order. */
  function ConfirmationEmail(c: Checkout, updated: Order): (e: Email)
    ensures e.to == [c.email] && e.orderId == c.orderId && e.shippingAddress == c.shipping
    ensures e.orderDate == updated.createdAt
  {
    Email(SENDER, [c.email], SUBJECT, c.orderId, updated.createdAt, c.shipping)
  }

  /** The response and the new state of the order map and the outbox. */
  datatype Outcome = Outcome(response: Response, orders: map<string, Order>, outbox: seq<Email>)

  /**
   * One `POST`: the decision procedure, as a function of the stored orders, the
   * outbox, the request and the two oracles.
   */
  function Handle(orders: map<string, Order>, outbox: seq<Email>,
                  body: string, signature: Option<string>,
                  constructEvent: (string, string) -> Option<Event>,
                  send: Email -> SendOutcome): (out: Outcome)
    ensures out.response.InvalidSignature? <==> !Truthy(signature)
    ensures out.orders.Keys == orders.Keys
    ensures out.orders != orders ==>
      && Truthy(signature) && constructEvent(body, signature.value).Some?
      && constructEvent(body, signature.value).value.kind == CHECKOUT_COMPLETED
    ensures |outbox| <= |out.outbox| <= |outbox| + 1 && out.outbox[..|outbox|] == outbox
    ensures |out.outbox| > |outbox| ==> out.response.Acknowledged?
  {
    if !Truthy(signature) then Outcome(InvalidSignature, orders, outbox)
    else match constructEvent(body, signature.value)
      case None => Outcome(Failed, orders, outbox)
      case Some(event) =>
        if event.kind != CHECKOUT_COMPLETED then Outcome(Acknowledged(event), orders, outbox)
        else match ValidateCheckout(event.session)
          case None => Outcome(Failed, orders, outbox)
          case Some(c) =>
            if c.orderId !in orders then Outcome(Failed, orders, outbox)
            else
              var updated := PaidOrder(orders[c.orderId], c);
              var orders' := orders[c.orderId := updated];
              var email := ConfirmationEmail(c, updated);
              match send(email)
              case Threw => Outcome(Failed, orders', outbox)
              case ReturnedError => Outcome(Acknowledged(event), orders', outbox)
              case Delivered => Outcome(Acknowledged(event), orders', outbox + [email])
  }

  /* ------------------------------------------------------- the handler */

  /** The order table and the mail service the handler talks to. */
  class Backend {
    var orders: map<string, Order>
    var outbox: seq<Email>

    constructor (orders: map<string, Order>)
      ensures this.orders == orders && outbox == []
    {
      this.orders := orders;
      outbox := [];
    }

    /**
     * `POST`: reject a request without signature, let a failed verification or
     * any later failure fall into the catch-all 500, ignore other event types,
     * then update the order and send the mail. The update is not undone when
     * sending throws.
     */
    method Post(body: string, signature: Option<string>,
                constructEvent: (string, string) -> Option<Event>,
                send: Email -> SendOutcome) returns (response: Response)
      modifies this
      ensures Outcome(response, orders, outbox)
           == Handle(old(orders), old(outbox), body, signature, constructEvent, send)
    {
      if !Truthy(signature) {
        return InvalidSignature;
      }
      var verified := constructEvent(body, signature.value);
      if verified.None? {
        return Failed;
      }
      var event := verified.value;
      if event.kind == CHECKOUT_COMPLETED {
        var session := event.session;
        if session.customerDetails.None? || !Truthy(session.customerDetails.value.email) {
          return Failed;
        }
        var userId := MetadataField(session.metadata, "userId");
        var orderId := MetadataField(session.metadata, "orderId");
        if !Truthy(userId) || !Truthy(orderId) {
          return Failed;
        }
        if session.shippingDetails.None? {
          return Failed;
        }
        var name := session.customerDetails.value.name;
        var shipping := ToAddress(name, session.shippingDetails.value.address);
        var billing := ToAddress(name, session.customerDetails.value.address);
        if shipping.None? || billing.None? || orderId.value !in orders {
          return Failed;
        }
        var c := Checkout(session.customerDetails.value.email.value, userId.value, orderId.value,
                          shipping.value, billing.value);
        var updated := PaidOrder(orders[orderId.value], c);
        orders := orders[orderId.value := updated];
        var email := ConfirmationEmail(c, updated);
        var sent := send(email);
        if sent == Threw {
          return Failed;
        }
        if sent == Delivered {
          outbox := outbox + [email];
        }
      }
      return Acknowledged(event);
    }
  }

  /* -------------------------------------------------------- properties */

  /** Without a signature the answer is 400, nothing changes, and the event is never built. */
  lemma MissingSignatureRejected(orders: map<string, Order>, outbox: seq<Email>, body: string,
                                 signature: Option<string>,
                                 constructEvent: (string, string) -> Option<Event>, send: Email -> SendOutcome,
                                 otherEvent: (string, string) -> Option<Event>)
    requires !Truthy(signature)
    ensures var out := Handle(orders, outbox, body, signature, constructEvent, send);
      && out == Outcome(InvalidSignature, orders, outbox)
      && out.response.Status() == 400
      && out == Handle(orders, outbox, body, signature, otherEvent, send)
  {
  }

  /** A signature that does not verify ends in the catch-all: 500, nothing changes. */
  lemma BadSignatureFails(orders: map<string, Order>, outbox: seq<Email>, body: string,
                          signature: Option<string>,
                          constructEvent: (string, string) -> Option<Event>, send: Email -> SendOutcome)
    requires Truthy(signature) && constructEvent(body, signature.value).None?
    ensures var out := Handle(orders, outbox, body, signature, constructEvent, send);
      out == Outcome(Failed, orders, outbox) && out.response.Status() == 500
  {
  }

  /** A verified event of another type is acknowledged and ignored. */
  lemma OtherEventsIgnored(orders: map<string, Order>, outbox: seq<Email>, body: string,
                           signature: Option<string>,
                           constructEvent: (string, string) -> Option<Event>, send: Email -> SendOutcome)
    requires Truthy(signature) && constructEvent(body, signature.value).Some?
    requires constructEvent(body, signature.value).value.kind != CHECKOUT_COMPLETED
    ensures var out := Handle(orders, outbox, body, signature, constructEvent, send);
      && out == Outcome(Acknowledged(constructEvent(body, signature.value).value), orders, outbox)
      && out.response.Status() == 200
  {
  }

  /**
   * A completed checkout without a customer e-mail, without metadata, or
   * without `userId` or `orderId` fails with 500, touching no order and sending nothing.
   */
  lemma IncompleteCheckoutFails(orders: map<string, Order>, outbox: seq<Email>, body: string,
                                signature: Option<string>,
                                constructEvent: (string, string) -> Option<Event>, send: Email -> SendOutcome)
    requires Truthy(signature) && constructEvent(body, signature.value).Some?
    requires constructEvent(body, signature.value).value.kind == CHECKOUT_COMPLETED
    requires var s := constructEvent(body, signature.value).value.session;
      || s.customerDetails.None? || !Truthy(s.customerDetails.value.email)
      || s.metadata.None?
      || !Truthy(MetadataField(s.metadata, "userId")) || !Truthy(MetadataField(s.metadata, "orderId"))
    ensures var out := Handle(orders, outbox, body, signature, constructEvent, send);
      out == Outcome(Failed, orders, outbox) && out.response.Status() == 500
  {
  }

  /** An order id the table does not hold makes the update throw: 500, nothing changes. */
  lemma UnknownOrderFails(orders: map<string, Order>, outbox: seq<Email>, body: string,
                          signature: Option<string>,
                          constructEvent: (string, string) -> Option<Event>, send: Email -> SendOutcome)
    requires Truthy(signature) && constructEvent(body, signature.value).Some?
    requires constructEvent(body, signature.value).value.kind == CHECKOUT_COMPLETED
    requires var c := ValidateCheckout(constructEvent(body, signature.value).value.session);
      c.Some? && c.value.orderId !in orders
    ensures var out := Handle(orders, outbox, body, signature, constructEvent, send);
      out == Outcome(Failed, orders, outbox) && out.response.Status() == 500
  {
  }

  /**
   * A valid completed checkout for a stored order: exactly that order becomes
   * paid and gains the two addresses; exactly one mail to the customer, with
   * the order id and the shipping address, is accepted; the answer is 200.
   */
  lemma CheckoutMarksPaid(orders: map<string, Order>, outbox: seq<Email>, body: string,
                          signature: Option<string>,
                          constructEvent: (string, string) -> Option<Event>, send: Email -> SendOutcome)
    requires Truthy(signature) && constructEvent(body, signature.value).Some?
    requires constructEvent(body, signature.value).value.kind == CHECKOUT_COMPLETED
    requires var c := ValidateCheckout(constructEvent(body, signature.value).value.session);
      && c.Some? && c.value.orderId in orders
      && send(ConfirmationEmail(c.value, PaidOrder(orders[c.value.orderId], c.value))) == Delivered
    ensures var s := constructEvent(body, signature.value).value.session;
      var c := ValidateCheckout(s).value;
      var out := Handle(orders, outbox, body, signature, constructEvent, send);
      && out.response.Status() == 200
      && out.orders.Keys == orders.Keys
      && (forall id :: id in orders && id != c.orderId ==> out.orders[id] == orders[id])
      && out.orders[c.orderId] == PaidOrder(orders[c.orderId], c)
      && out.orders[c.orderId].isPaid
      && out.orders[c.orderId].shippingAddress == ToAddress(s.customerDetails.value.name, s.shippingDetails.value.address)
      && out.orders[c.orderId].billingAddress == ToAddress(s.customerDetails.value.name, s.customerDetails.value.address)
      && |out.outbox| == |outbox| + 1 && out.outbox[..|outbox|] == outbox
      && out.outbox[|outbox|].to == [s.customerDetails.value.email.value]
      && out.outbox[|outbox|].orderId == MetadataField(s.metadata, "orderId").value
      && Some(out.outbox[|outbox|].shippingAddress) == out.orders[c.orderId].shippingAddress
  {
  }

  /** When sending throws after the update, the order stays paid but the answer is 500. */
  lemma SendFailureKeepsPayment(orders: map<string, Order>, outbox: seq<Email>, body: string,
                                signature: Option<string>,
                                constructEvent: (string, string) -> Option<Event>, send: Email -> SendOutcome)
    requires Truthy(signature) && constructEvent(body, signature.value).Some?
    requires constructEvent(body, signature.value).value.kind == CHECKOUT_COMPLETED
    requires var c := ValidateCheckout(constructEvent(body, signature.value).value.session);
      c.Some? && c.value.orderId in orders
    requires forall e :: send(e) == Threw
    ensures var c := ValidateCheckout(constructEvent(body, signature.value).value.session).value;
      var out := Handle(orders, outbox, body, signature, constructEvent, send);
      && out.response.Status() == 500
      && out.orders == orders[c.orderId := PaidOrder(orders[c.orderId], c)]
      && out.outbox == outbox
  {
  }

  /**
   * Whatever the request: the set of orders is the same, at most one order
   * changes and it ends paid, no paid order becomes unpaid, and the outbox
   * only grows, by at most one mail.
   */
  lemma HandleFrame(orders: map<string, Order>, outbox: seq<Email>, body: string,
                    signature: Option<string>,
                    constructEvent: (string, string) -> Option<Event>, send: Email -> SendOutcome)
    ensures var out := Handle(orders, outbox, body, signature, constructEvent, send);
      && out.orders.Keys == orders.Keys
      && (forall id :: id in orders && out.orders[id] != orders[id] ==> out.orders[id].isPaid)
      && (forall id, id' ::
            id in orders && id' in orders && out.orders[id] != orders[id] && out.orders[id'] != orders[id']
            ==> id == id')
      && (forall id :: id in orders && orders[id].isPaid ==> out.orders[id].isPaid)
      && |outbox| <= |out.outbox| <= |outbox| + 1 && out.outbox[..|outbox|] == outbox
  {
  }

  /**
   * The status tells the cases apart: 400 exactly when the signature header is
   * missing, 200 exactly when the event verified and either was of another
   * type or was processed without the mail service throwing.
   */
  lemma StatusCases(orders: map<string, Order>, outbox: seq<Email>, body: string,
                    signature: Option<string>,
                    constructEvent: (string, string) -> Option<Event>, send: Email -> SendOutcome)
    ensures var out := Handle(orders, outbox, body, signature, constructEvent, send);
      && (out.response.Status() == 400 <==> !Truthy(signature))
      && (out.response.Status() == 200 <==>
            && Truthy(signature) && constructEvent(body, signature.value).Some?
            && var event := constructEvent(body, signature.value).value;
               || event.kind != CHECKOUT_COMPLETED
               || (&& ValidateCheckout(event.session).Some?
                   && ValidateCheckout(event.session).value.orderId in orders
                   && var c := ValidateCheckout(event.session).value;
                      send(ConfirmationEmail(c, PaidOrder(orders[c.orderId], c))) != Threw))
  {
  }

  /**
   * The handler keeps no record of events it has processed: delivering the
   * same completed checkout twice updates the order again and sends a second mail.
   */
  lemma RedeliverySendsSecondEmail(orders: map<string, Order>, outbox: seq<Email>, body: string,
                                   signature: Option<string>,
                                   constructEvent: (string, string) -> Option<Event>, send: Email -> SendOutcome)
    requires Truthy(signature) && constructEvent(body, signature.value).Some?
    requires constructEvent(body, signature.value).value.kind == CHECKOUT_COMPLETED
    requires var c := ValidateCheckout(constructEvent(body, signature.value).value.session);
      && c.Some? && c.value.orderId in orders
      && send(ConfirmationEmail(c.value, PaidOrder(orders[c.value.orderId], c.value))) == Delivered
    ensures var first := Handle(orders, outbox, body, signature, constructEvent, send);
      var second := Handle(first.orders, first.outbox, body, signature, constructEvent, send);
      && second.response.Status() == 200 && second.orders == first.orders
      && |second.outbox| == |outbox| + 2 && second.outbox[|outbox|] == second.outbox[|outbox| + 1]
  {
  }
}
