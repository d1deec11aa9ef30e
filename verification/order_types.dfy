/** Values exchanged between the order store and the search and shipment
    backends. A backend call is never executed by the model: its answer is
    an input value of type Reply. */
module OrderTypes {

  datatype Option<+T> = None | Some(value: T)

  /** The outcome of awaiting one backend call: either the call answered
      with a response, or the promise rejected (the action's `catch`). */
  datatype Reply<+T> = Answered(response: T) | Threw

  /** One document of the search backend. For the fields the actions only
      test for truthiness (`productId`), an empty string stands for a field
      the document does not carry; the other fields are assumed present. */
  datatype Doc = Doc(
    orderId: string,
    orderName: string,
    customerPartyName: string,
    orderStatusId: string,
    orderDate: string,
    customerEmailId: string,
    phoneNumber: string,
    productId: string,
    shipmentMethodTypeId: string,
    shipGroupSeqId: string,
    orderItemSeqId: string,
    facilityId: string)

  /** One group of a grouped search response, `groups[i].doclist.docs`. */
  datatype Group = Group(docs: seq<Doc>)

  datatype Customer = Customer(name: string)

  /** A normalised order record: scalar fields from the group's first
      document, `items` the group's documents. */
  datatype Order = Order(
    orderId: string,
    orderName: string,
    customer: Customer,
    items: seq<Doc>,
    statusId: string,
    date: string,
    email: string,
    phoneNumber: string)

  /** A flat search response (`resp.data.count`, `resp.data.docs`);
      `errorMarked` is what the shared `hasError` helper reports. */
  datatype SearchResponse = SearchResponse(status: int, errorMarked: bool, count: int, docs: seq<Doc>)

  /** A grouped search response (`resp.data.grouped.orderId.groups`).
      `hasGrouped` says whether the body carries `grouped.orderId` at all;
      a missing groups array under it is the empty sequence. */
  datatype GroupedResponse = GroupedResponse(status: int, errorMarked: bool, hasGrouped: bool, groups: seq<Group>)

  /** A shipment-update response; `eventMessage` is `_EVENT_MESSAGE_`. */
  datatype ShipResponse = ShipResponse(status: int, errorMarked: bool, eventMessage: string)

  /** The user-facing messages the actions raise, in place of the toasts. */
  datatype Toast =
    | OrdersNotFound
    | OrderNotFound
    | SomethingWentWrong
    | OrderPackedForDelivery
    | AllItemsCanceled(orderId: string)

  const StorePickup: string := "STOREPICKUP"

  /** `Array.prototype.find` as an index: the first element satisfying `p`,
      or `None` when no element does. */
  function FirstWhere<T>(s: seq<T>, p: T -> bool): (r: Option<nat>)
    ensures r.Some? ==> r.value < |s| && p(s[r.value])
    ensures r.Some? ==> forall j :: 0 <= j < r.value ==> !p(s[j])
    ensures r.None? ==> forall j :: 0 <= j < |s| ==> !p(s[j])
  {
    if s == [] then None
    else if p(s[0]) then Some(0)
    else
      match FirstWhere(s[1..], p)
      case None => None
      case Some(k) => Some(k + 1)
  }
}
