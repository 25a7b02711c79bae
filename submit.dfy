/**
 * The submit step of TicketForm (`handleSubmit`, src/TicketForm.tsx:100-156): three
 * fail-fast checks on the cart and the customer fields, then the order record built
 * from the cart, the customer fields and a snapshot of the event.
 *
 * The checks are plain empty-string tests: no trimming, no format check of the card
 * number, expiry or CVV. A rejection is a `Failure` carrying which check failed, in
 * place of the alert the form shows.
 */
module Submit {
  import opened Wrappers
  import opened Types
  import opened Cart
  import Pricing

  /** The customer and payment fields of the form (src/TicketForm.tsx:29-36). */
  datatype CustomerInfo = CustomerInfo(
    firstName: string,
    lastName: string,
    address: string,
    creditCardNumber: string,
    expiryDate: string,
    cvv: string)

  /** The three reasons a submit is turned down, one per check. */
  datatype SubmitError = NoTicketsSelected | MissingCustomerInfo | MissingPaymentDetails

  datatype PaymentMethod = PaymentMethod(creditCard: string, expiryDate: string, cvv: string)

  datatype OrderCustomer = OrderCustomer(
    firstName: string,
    lastName: string,
    address: string,
    paymentMethod: PaymentMethod)

  /** The part of the event copied into the order. */
  datatype EventSummary = EventSummary(id: string, name: string, date: int, location: string)

  /** One entry of `ticketsByType`: a type and a quantity, with no price. */
  datatype TicketCount = TicketCount(typeKey: string, quantity: int)

  /** The order record `orderData` (src/TicketForm.tsx:132-152). */
  datatype OrderData = OrderData(customer: OrderCustomer, event: EventSummary, ticketsByType: seq<TicketCount>)

  /** The fields a form starts with (src/TicketForm.tsx:43-50). */
  function EmptyCustomerInfo(): CustomerInfo {
    CustomerInfo("", "", "", "", "", "")
  }

  /** The checks of src/TicketForm.tsx:104-117, in order; None when all pass. */
  function Validate(items: seq<OrderItem>, info: CustomerInfo): Option<SubmitError> {
    if |items| == 0 then Some(NoTicketsSelected)
    else if info.firstName == "" || info.lastName == "" || info.address == "" then Some(MissingCustomerInfo)
    else if info.creditCardNumber == "" || info.expiryDate == "" || info.cvv == "" then Some(MissingPaymentDetails)
    else None
  }

  /** Reference: every check evaluated on its own, failures listed in check order. */
  function Problems(items: seq<OrderItem>, info: CustomerInfo): seq<SubmitError> {
    (if items == [] then [NoTicketsSelected] else []) +
    (if "" in [info.firstName, info.lastName, info.address] then [MissingCustomerInfo] else []) +
    (if "" in [info.creditCardNumber, info.expiryDate, info.cvv] then [MissingPaymentDetails] else [])
  }

  /** The fail-fast checks report exactly the first of the failures, and pass iff there are none. */
  lemma ValidateIsFirstProblem(items: seq<OrderItem>, info: CustomerInfo)
    ensures Validate(items, info).None? <==> Problems(items, info) == []
    ensures Problems(items, info) != [] ==> Validate(items, info) == Some(Problems(items, info)[0])
  {
  }

  /** `ticketsByType` (src/TicketForm.tsx:120-126): each line copied, in order, without its cost. */
  function TicketsByType(items: seq<OrderItem>): (lines: seq<TicketCount>)
    ensures |lines| == |items|
    ensures forall i :: 0 <= i < |items| ==>
      lines[i].typeKey == items[i].ticketType && lines[i].quantity == items[i].quantity
  {
    if items == [] then []
    else [TicketCount(items[0].ticketType, items[0].quantity)] + TicketsByType(items[1..])
  }

  /** The cart lines an order's entries stand for. */
  function CartOf(lines: seq<TicketCount>): (items: seq<OrderItem>)
    ensures |items| == |lines|
    ensures forall i :: 0 <= i < |lines| ==>
      items[i].ticketType == lines[i].typeKey && items[i].quantity == lines[i].quantity
  {
    if lines == [] then []
    else [OrderItem(lines[0].typeKey, lines[0].quantity)] + CartOf(lines[1..])
  }

  /** The entries of an order give back the cart they were built from. */
  lemma {:induction false} CartOfTicketsByType(items: seq<OrderItem>)
    ensures CartOf(TicketsByType(items)) == items
  {
    if items != [] {
      assert TicketsByType(items)[1..] == TicketsByType(items[1..]);
      CartOfTicketsByType(items[1..]);
    }
  }

  /** The order record of src/TicketForm.tsx:132-152, without the formatted date. */
  function AssembleOrder(items: seq<OrderItem>, info: CustomerInfo, event: BandEvent): (o: OrderData)
    ensures CartOf(o.ticketsByType) == items
    ensures o.event.id == event.id && o.event.name == event.name
    ensures o.event.date == event.date && o.event.location == event.location
    ensures o.customer.firstName == info.firstName && o.customer.lastName == info.lastName
    ensures o.customer.address == info.address
    ensures o.customer.paymentMethod.creditCard == info.creditCardNumber
    ensures o.customer.paymentMethod.expiryDate == info.expiryDate
    ensures o.customer.paymentMethod.cvv == info.cvv
  {
    CartOfTicketsByType(items);
    OrderData(
      OrderCustomer(info.firstName, info.lastName, info.address,
                    PaymentMethod(info.creditCardNumber, info.expiryDate, info.cvv)),
      EventSummary(event.id, event.name, event.date, event.location),
      TicketsByType(items))
  }

  /** `handleSubmit`: reject on the first failed check, otherwise build the order. */
  function HandleSubmit(items: seq<OrderItem>, info: CustomerInfo, event: BandEvent): (r: Result<OrderData, SubmitError>)
    ensures items == [] ==> r == Failure(NoTicketsSelected)
    ensures (items != [] && (info.firstName == "" || info.lastName == "" || info.address == "")) ==>
      r == Failure(MissingCustomerInfo)
    ensures (items != [] && info.firstName != "" && info.lastName != "" && info.address != "" &&
             (info.creditCardNumber == "" || info.expiryDate == "" || info.cvv == "")) ==>
      r == Failure(MissingPaymentDetails)
    ensures r.Success? <==>
      items != [] && info.firstName != "" && info.lastName != "" && info.address != "" &&
      info.creditCardNumber != "" && info.expiryDate != "" && info.cvv != ""
    ensures r.Success? ==> r.value == AssembleOrder(items, info, event)
  {
    match Validate(items, info)
    case Some(e) => Failure(e)
    case None => Success(AssembleOrder(items, info, event))
  }

  /** A submitted order's entries price to the same total as the cart did. */
  lemma OrderPricesLikeCart(items: seq<OrderItem>, info: CustomerInfo, event: BandEvent)
    requires HandleSubmit(items, info, event).Success?
    ensures Pricing.TotalPrice(CartOf(HandleSubmit(items, info, event).value.ticketsByType), event) ==
            Pricing.TotalPrice(items, event)
  {
  }

  /** A form whose fields were never filled in is turned down, whatever the cart. */
  lemma EmptyFormRejected(items: seq<OrderItem>, event: BandEvent)
    ensures HandleSubmit(items, EmptyCustomerInfo(), event).Failure?
    ensures items != [] ==> HandleSubmit(items, EmptyCustomerInfo(), event) == Failure(MissingCustomerInfo)
  {
  }
}
