/**
 * Request and response shapes of the order endpoints, and the field rules
 * their validation enforces. A field the client omitted is None; a rejected
 * request is answered with 422 before any handler runs.
 */
module OrderSchemas {
  import opened Common
  import opened Models

  const UnprocessableEntity: int := 422

  /** A validated line item (`OrderDetailCreate`). */
  datatype DetailCreate = DetailCreate(arrangementId: int, quantity: int, price: Option<real>)

  /** A line item as sent, before validation. */
  datatype RawDetail = RawDetail(arrangementId: Option<int>, quantity: Option<int>, price: Option<real>)

  /** `OrderBase`: the owner and the state of an order. */
  datatype OrderBase = OrderBase(userId: Option<int>, state: string)

  /** A validated guest checkout request (`GuestOrderCreate`). */
  datatype GuestOrder = GuestOrder(
    name: string, email: string, phone: string, address: string,
    items: seq<DetailCreate>, payMethod: string)

  /** A guest checkout request as sent. */
  datatype RawGuestOrder = RawGuestOrder(
    name: Option<string>, email: Option<string>, phone: Option<string>, address: Option<string>,
    items: Option<seq<RawDetail>>, payMethod: Option<string>)

  /** A line as returned by the cart endpoint (`OrderDetailResponse`). */
  datatype DetailResponse = DetailResponse(id: int, orderId: int, arrangementId: int, quantity: int, price: real)

  datatype Validated<T> = Accepted(value: T) | Refused(code: int)

  predicate DetailAcceptable(raw: RawDetail)
  {
    raw.arrangementId.Some? && raw.arrangementId.value > 0 &&
    raw.quantity.Some? && raw.quantity.value > 0
  }

  /** `OrderDetailCreate`: the arrangement id and the quantity are required and positive; the price is optional. */
  function ValidateDetail(raw: RawDetail): (r: Validated<DetailCreate>)
    ensures r.Accepted? <==> DetailAcceptable(raw)
    ensures r.Refused? ==> r.code == UnprocessableEntity
    ensures r.Accepted? ==> r.value.arrangementId > 0 && r.value.quantity > 0
    ensures r.Accepted? ==> r.value == DetailCreate(raw.arrangementId.value, raw.quantity.value, raw.price)
  {
    if DetailAcceptable(raw) then Accepted(DetailCreate(raw.arrangementId.value, raw.quantity.value, raw.price))
    else Refused(UnprocessableEntity)
  }

  /** A list of line items is accepted exactly when every item is, and then item by item. */
  function ValidateDetails(raws: seq<RawDetail>): (r: Validated<seq<DetailCreate>>)
    ensures r.Accepted? <==> forall i :: 0 <= i < |raws| ==> DetailAcceptable(raws[i])
    ensures r.Refused? ==> r.code == UnprocessableEntity
    ensures r.Accepted? ==> |r.value| == |raws|
    ensures r.Accepted? ==> forall i :: 0 <= i < |raws| ==> ValidateDetail(raws[i]) == Accepted(r.value[i])
  {
    if raws == [] then Accepted([])
    else match (ValidateDetail(raws[0]), ValidateDetails(raws[1..]))
      case (Accepted(d), Accepted(ds)) => Accepted([d] + ds)
      case _ => Refused(UnprocessableEntity)
  }

  /** `OrderBase`: no owner and state "carrito" unless given. */
  function NewOrderBase(userId: Option<int>, state: Option<string>): (r: OrderBase)
    ensures r.userId == userId
    ensures state.None? ==> r.state == CartState
    ensures state.Some? ==> r.state == state.value
  {
    OrderBase(userId, if state.Some? then state.value else CartState)
  }

  /** `OrderDetailResponse`: the price, optional on create, is required on the way out. */
  function ValidateDetailResponse(id: int, orderId: int, arrangementId: int, quantity: int, price: Option<real>): (r: Validated<DetailResponse>)
    ensures r.Accepted? <==> price.Some? && arrangementId > 0 && quantity > 0
    ensures r.Accepted? ==> r.value == DetailResponse(id, orderId, arrangementId, quantity, price.value)
  {
    if price.Some? && arrangementId > 0 && quantity > 0 then Accepted(DetailResponse(id, orderId, arrangementId, quantity, price.value))
    else Refused(UnprocessableEntity)
  }

  /** `GuestOrderCreate`: name, email, phone, address, items and pay method are all required. */
  function ValidateGuestOrder(raw: RawGuestOrder): (r: Validated<GuestOrder>)
    ensures r.Accepted? <==>
      && raw.name.Some? && raw.email.Some? && raw.phone.Some? && raw.address.Some?
      && raw.items.Some? && raw.payMethod.Some?
      && forall i :: 0 <= i < |raw.items.value| ==> DetailAcceptable(raw.items.value[i])
    ensures r.Accepted? ==> r.value.name == raw.name.value && r.value.address == raw.address.value
    ensures r.Accepted? ==> r.value.payMethod == raw.payMethod.value && |r.value.items| == |raw.items.value|
  {
    if raw.name.None? || raw.email.None? || raw.phone.None? || raw.address.None? || raw.items.None? || raw.payMethod.None? then
      Refused(UnprocessableEntity)
    else match ValidateDetails(raw.items.value)
      case Refused(c) => Refused(c)
      case Accepted(items) =>
        Accepted(GuestOrder(raw.name.value, raw.email.value, raw.phone.value, raw.address.value, items, raw.payMethod.value))
  }
}
