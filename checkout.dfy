/**
 * The checkout page: an area-keyed delivery fee, three validation checks in
 * a fixed order, a mobile-money payment whose outcome is an input, and an
 * order record appended to the stored order list only once payment is done.
 */
module Checkout {
  import opened Text
  import opened Wrappers
  import opened Catalog
  import Session

  /** The storage key of the order list. */
  const OrdersKey := "urbanaura_orders"

  const Mpesa := "mpesa"
  const Processing := "Processing"

  /** `deliveryPricing`: the fee of each selectable area. */
  const DeliveryPricing: map<string, int> := map[
    "city-center" := 150,
    "westlands" := 200,
    "karen" := 300,
    "kiambu" := 400,
    "thika" := 500,
    "other" := 350]

  /** `area ? deliveryPricing[area] || 350 : 200` */
  function DeliveryFee(area: string): (fee: int)
    ensures area == "" ==> fee == 200
    ensures area == "city-center" ==> fee == 150
    ensures area == "westlands" ==> fee == 200
    ensures area == "karen" ==> fee == 300
    ensures area == "kiambu" ==> fee == 400
    ensures area == "thika" ==> fee == 500
    ensures area == "other" ==> fee == 350
    ensures area != "" && area !in DeliveryPricing ==> fee == 350
    ensures fee in {150, 200, 300, 350, 400, 500}
  {
    if area == "" then 200
    else if area in DeliveryPricing && DeliveryPricing[area] != 0 then DeliveryPricing[area]
    else 350
  }

  /** A cart line as the cart context hands it over. */
  datatype CartLine = CartLine(product: Product, quantity: int)

  /** The record appended to the stored order list. */
  datatype Order = Order(
    id: int,
    customer: Option<Session.User>,
    items: seq<CartLine>,
    subtotal: int,
    deliveryFee: int,
    total: int,
    address: string,
    area: string,
    paymentMethod: string,
    phoneNumber: string,
    date: string,
    status: string)

  /** Why `handlePlaceOrder` stopped before taking payment. */
  datatype CheckoutError = MissingAddress | MissingArea | MissingPhone

  /** The three checks of `handlePlaceOrder`, first failure first. */
  function Validate(address: string, area: string, paymentMethod: string, phone: string)
    : (r: Option<CheckoutError>)
    ensures r == Some(MissingAddress) <==> Trim(address) == ""
    ensures r == Some(MissingArea) <==> Trim(address) != "" && area == ""
    ensures r == Some(MissingPhone) <==>
              Trim(address) != "" && area != "" && paymentMethod == Mpesa && Trim(phone) == ""
    ensures r == None <==>
              Trim(address) != "" && area != "" && (paymentMethod == Mpesa ==> Trim(phone) != "")
  {
    if Trim(address) == "" then Some(MissingAddress)
    else if area == "" then Some(MissingArea)
    else if paymentMethod == Mpesa && Trim(phone) == "" then Some(MissingPhone)
    else None
  }

  /** A blank address is reported whatever else is wrong; an address of spaces only is blank. */
  lemma BlankAddressFirst(address: string, area: string, paymentMethod: string, phone: string)
    requires AllWhitespace(address)
    ensures Validate(address, area, paymentMethod, phone) == Some(MissingAddress)
  {
    TrimEmptyIffBlank(address);
  }

  /** The phone number is only required for mobile-money payment. */
  lemma PhoneOnlyForMpesa(address: string, area: string, paymentMethod: string, phone: string)
    requires paymentMethod != Mpesa
    ensures Validate(address, area, paymentMethod, phone) != Some(MissingPhone)
  {
  }

  /** The order record built once payment has gone through. */
  function NewOrder(id: int, customer: Option<Session.User>, items: seq<CartLine>, subtotal: int,
                    address: string, area: string, paymentMethod: string, phone: string, date: string)
    : (o: Order)
    ensures o.total == o.subtotal + o.deliveryFee
    ensures o.subtotal == subtotal && o.deliveryFee == DeliveryFee(area)
    ensures o.status == Processing
    ensures o.phoneNumber == (if paymentMethod == Mpesa then phone else "")
    ensures o.items == items && o.customer == customer && o.id == id
    ensures o.address == address && o.area == area && o.paymentMethod == paymentMethod && o.date == date
  {
    var fee := DeliveryFee(area);
    Order(id, customer, items, subtotal, fee, subtotal + fee, address, area, paymentMethod,
          if paymentMethod == Mpesa then phone else "", date, Processing)
  }

  /** What `handlePlaceOrder` ended in. */
  datatype Outcome = Invalid(error: CheckoutError) | PaymentFailed | Placed(order: Order)

  /** The stored order list, empty when none has been stored yet. */
  function StoredOrders(storage: map<string, seq<Order>>): seq<Order> {
    if OrdersKey in storage then storage[OrdersKey] else []
  }

  class CheckoutPage {
    var paymentMethod: string
    var phoneNumber: string
    var address: string
    var area: string
    var isProcessing: bool
    /** The cart's lines, as read from the cart context. */
    var items: seq<CartLine>
    /** The browser storage entries this page reads and writes, already decoded. */
    var storage: map<string, seq<Order>>

    /** The page's first render: mobile money selected, every field empty. */
    constructor (cart: seq<CartLine>, stored: map<string, seq<Order>>)
      ensures paymentMethod == Mpesa && phoneNumber == "" && address == "" && area == ""
      ensures !isProcessing && items == cart && storage == stored
    {
      paymentMethod := Mpesa;
      phoneNumber, address, area := "", "", "";
      isProcessing := false;
      items := cart;
      storage := stored;
    }

    /** The form's change handlers. */
    method Enter(payment: string, phone: string, addr: string, selectedArea: string)
      modifies this`paymentMethod, this`phoneNumber, this`address, this`area
      ensures paymentMethod == payment && phoneNumber == phone && address == addr && area == selectedArea
    {
      paymentMethod, phoneNumber, address, area := payment, phone, addr, selectedArea;
    }

    /** The render guard: an empty cart sends the visitor to the cart page and nothing else happens. */
    method Render() returns (redirect: Option<string>)
      ensures redirect == Some("/cart") <==> items == []
      ensures redirect == None <==> items != []
    {
      redirect := if items == [] then Some("/cart") else None;
    }

    /**
     * `handlePlaceOrder`. `user` is the signed-in user, `subtotal` the cart's
     * total price, `now` and `date` the clock, and `paymentSucceeds` the
     * outcome of the simulated mobile-money prompt.
     */
    method PlaceOrder(user: Option<Session.User>, subtotal: int, now: int, date: string,
                      paymentSucceeds: bool)
      returns (outcome: Outcome)
      modifies this`isProcessing, this`items, this`storage
      ensures outcome.Invalid? <==> Validate(address, area, paymentMethod, phoneNumber).Some?
      ensures outcome.Placed? <==>
                Validate(address, area, paymentMethod, phoneNumber) == None
                && (paymentMethod == Mpesa ==> paymentSucceeds)
      ensures var check := Validate(address, area, paymentMethod, phoneNumber);
              check.Some? ==> outcome == Invalid(check.value)
                              && isProcessing == old(isProcessing)
                              && items == old(items) && storage == old(storage)
      ensures outcome.PaymentFailed? <==>
                Validate(address, area, paymentMethod, phoneNumber) == None
                && paymentMethod == Mpesa && !paymentSucceeds
      ensures outcome.PaymentFailed? ==> !isProcessing && items == old(items) && storage == old(storage)
      ensures outcome.Placed? ==>
                outcome.order == NewOrder(now, user, old(items), subtotal, address, area,
                                          paymentMethod, phoneNumber, date)
                && storage == old(storage)[OrdersKey := StoredOrders(old(storage)) + [outcome.order]]
                && items == [] && !isProcessing
    {
      var check := Validate(address, area, paymentMethod, phoneNumber);
      if check.Some? {
        return Invalid(check.value);
      }
      isProcessing := true;
      if paymentMethod == Mpesa && !paymentSucceeds {
        isProcessing := false;
        return PaymentFailed;
      }
      var order := NewOrder(now, user, items, subtotal, address, area, paymentMethod, phoneNumber, date);
      var existing := StoredOrders(storage);
      storage := storage[OrdersKey := existing + [order]];
      items := [];
      isProcessing := false;
      outcome := Placed(order);
    }
  }

  /** Placing an order leaves every earlier order in place and adds exactly one after them. */
  lemma PlacedOrderAppends(storage: map<string, seq<Order>>, order: Order)
    ensures var after := StoredOrders(storage[OrdersKey := StoredOrders(storage) + [order]]);
            |after| == |StoredOrders(storage)| + 1
            && after[..|StoredOrders(storage)|] == StoredOrders(storage)
            && after[|StoredOrders(storage)|] == order
  {
  }
}
