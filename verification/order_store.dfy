/** The order store: the "open" and "packed" paginated lists, their
    backend totals, and the single current order, with the actions that
    fetch, merge and resolve them. A commit is a direct field update. */
module Store {
  import opened OrderTypes
  import opened Normalizer
  import opened Queries

  /** The items whose shipment method is `shipmentMethod`, in their
      original order (the `filter` in `updateCurrent`). */
  function FilterItems(items: seq<Doc>, shipmentMethod: string): (r: seq<Doc>)
    ensures |r| <= |items|
    ensures forall d :: d in r <==> d in items && d.shipmentMethodTypeId == shipmentMethod
  {
    if items == [] then []
    else
      (if items[0].shipmentMethodTypeId == shipmentMethod then [items[0]] else [])
      + FilterItems(items[1..], shipmentMethod)
  }

  /** Filtering distributes over concatenation, so relative order is kept. */
  lemma {:induction false} FilterItemsAppend(a: seq<Doc>, b: seq<Doc>, shipmentMethod: string)
    ensures FilterItems(a + b, shipmentMethod) == FilterItems(a, shipmentMethod) + FilterItems(b, shipmentMethod)
    decreases |a|
  {
    if a != [] {
      assert (a + b)[0] == a[0];
      assert (a + b)[1..] == a[1..] + b;
      FilterItemsAppend(a[1..], b, shipmentMethod);
    } else {
      assert a + b == b;
    }
  }

  /** Filtering twice by the same method changes nothing more. */
  lemma {:induction false} FilterItemsIdempotent(items: seq<Doc>, shipmentMethod: string)
    ensures FilterItems(FilterItems(items, shipmentMethod), shipmentMethod) == FilterItems(items, shipmentMethod)
    decreases |items|
  {
    if items != [] {
      var head := if items[0].shipmentMethodTypeId == shipmentMethod then [items[0]] else [];
      FilterItemsAppend(head, FilterItems(items[1..], shipmentMethod), shipmentMethod);
      FilterItemsIdempotent(items[1..], shipmentMethod);
    }
  }

  /** Every item shares one shipment method. */
  predicate SingleMethod(items: seq<Doc>) {
    forall i, j :: 0 <= i < |items| && 0 <= j < |items| ==>
      items[i].shipmentMethodTypeId == items[j].shipmentMethodTypeId
  }

  /** The order as `updateCurrent` leaves it: only its items change. */
  function WithMethod(order: Order, shipmentMethod: string): (r: Order)
    ensures r.(items := order.items) == order
    ensures r.items == FilterItems(order.items, shipmentMethod)
    ensures forall d :: d in r.items <==> d in order.items && d.shipmentMethodTypeId == shipmentMethod
    ensures SingleMethod(r.items)
  {
    order.(items := FilterItems(order.items, shipmentMethod))
  }

  /** The already-filtered current order is what filtering it again by the
      same method would give; a cache hit for that method may therefore
      return it as it is. */
  lemma WithMethodIdempotent(order: Order, shipmentMethod: string)
    ensures WithMethod(WithMethod(order, shipmentMethod), shipmentMethod) == WithMethod(order, shipmentMethod)
  {
    FilterItemsIdempotent(order.items, shipmentMethod);
  }

  /** The `find` over the open list: the first order with that identifier. */
  function FindOrder(orders: seq<Order>, orderId: string): (r: Option<nat>)
    ensures r.Some? ==> r.value < |orders| && orders[r.value].orderId == orderId
    ensures r.Some? ==> forall j :: 0 <= j < r.value ==> orders[j].orderId != orderId
    ensures r.None? ==> forall j :: 0 <= j < |orders| ==> orders[j].orderId != orderId
  {
    FirstWhere(orders, (o: Order) => o.orderId == orderId)
  }

  /** Page merging: a positive page index appends to the old list, any other
      index replaces it; the new page is always the tail. */
  function MergePage<T>(list: seq<T>, page: seq<T>, viewIndex: int): (r: seq<T>)
    ensures |r| == |page| + (if viewIndex > 0 then |list| else 0)
    ensures r[|r| - |page|..] == page
    ensures viewIndex > 0 ==> r[..|list|] == list
  {
    if viewIndex > 0 then list + page else page
  }

  /** What a list fetch amounts to for the store: the call failed (state
      left alone), nothing was found (the list is emptied), or a page. */
  datatype PageResult<T> = Failed | NotFound | Page(items: seq<T>, total: nat)

  /** A status-200 answer without `grouped.orderId`: the acceptance test
      reads that field before `hasError`, and the read throws. */
  predicate GroupsUnreadable(r: GroupedResponse) {
    r.status == 200 && !r.hasGrouped
  }

  predicate GroupsAccepted(r: GroupedResponse) {
    r.status == 200 && r.hasGrouped && |r.groups| > 0 && !r.errorMarked
  }

  predicate SearchAccepted(r: SearchResponse) {
    r.status == 200 && r.count > 0 && !r.errorMarked
  }

  /** The page a stage-2 reply makes of the open list; its total is the
      number of groups in the reply. */
  function OpenPage(reply: Reply<GroupedResponse>): (r: PageResult<Order>)
    ensures r.NotFound? <==> reply.Answered? && !GroupsUnreadable(reply.response) && !GroupsAccepted(reply.response)
    ensures r.Page? ==> reply.Answered? && r.total == |reply.response.groups| == |r.items| > 0
    ensures r.Page? ==> forall i :: 0 <= i < |r.items| ==>
      NormaliseGroup(reply.response.groups[i]) == Some(r.items[i])
    ensures r.Failed? <==> (reply.Threw? || GroupsUnreadable(reply.response) ||
      (GroupsAccepted(reply.response) && exists i :: 0 <= i < |reply.response.groups| && reply.response.groups[i].docs == []))
  {
    match reply
    case Threw => Failed
    case Answered(resp) =>
      if GroupsUnreadable(resp) then Failed
      else if !GroupsAccepted(resp) then NotFound
      else
        match NormaliseAll(resp.groups)
        case None => Failed
        case Some(orders) => Page(orders, |resp.groups|)
  }

  /** The page a packed-orders reply makes: its documents as they are, and
      the backend's `count` as total. */
  function PackedPage(reply: Reply<SearchResponse>): (r: PageResult<Doc>)
    ensures r.Failed? <==> reply.Threw?
    ensures r.NotFound? <==> reply.Answered? && !SearchAccepted(reply.response)
    ensures r.Page? ==> r.items == reply.response.docs && r.total == reply.response.count > 0
  {
    match reply
    case Threw => Failed
    case Answered(resp) =>
      if SearchAccepted(resp) then Page(resp.docs, resp.count) else NotFound
  }

  /** The list and total after a page result has been committed. */
  function ApplyPage<T>(list: seq<T>, total: nat, viewIndex: int, pr: PageResult<T>): (r: (seq<T>, nat))
    ensures pr.Failed? ==> r == (list, total)
    ensures pr.NotFound? ==> r == ([], 0)
    ensures pr.Page? ==> r.0 == MergePage(list, pr.items, viewIndex) && r.1 == pr.total
  {
    match pr
    case Failed => (list, total)
    case NotFound => ([], 0)
    case Page(items, t) => (MergePage(list, items, viewIndex), t)
  }

  function PageToasts<T>(pr: PageResult<T>): seq<Toast> {
    match pr
    case Failed => [SomethingWentWrong]
    case NotFound => [OrdersNotFound]
    case Page(_, _) => []
  }

  /** Two pages of one session: page 0 then a later page gives the two
      pages in order; a second page 0 starts over. The total is always the
      latest one. */
  lemma PagingSessions<T>(list: seq<T>, total: nat, a: seq<T>, ta: nat, b: seq<T>, tb: nat)
    ensures var first := ApplyPage(list, total, 0, Page(a, ta));
      ApplyPage(first.0, first.1, 1, Page(b, tb)) == (a + b, tb)
    ensures var first := ApplyPage(list, total, 0, Page(a, ta));
      ApplyPage(first.0, first.1, 0, Page(b, tb)) == (b, tb)
  {
  }

  /** What a single-order fetch yields: the first group's record, "not
      found", or a failure (rejected call, or a first group with no
      documents, where reading `docs[0]` throws). */
  datatype Lookup = Found(order: Order) | Missing | Broken

  function LookupFetched(reply: Reply<GroupedResponse>): (r: Lookup)
    ensures r.Missing? <==> reply.Answered? && !GroupsUnreadable(reply.response) && !GroupsAccepted(reply.response)
    ensures r.Broken? <==> (reply.Threw? || GroupsUnreadable(reply.response) ||
      (GroupsAccepted(reply.response) && reply.response.groups[0].docs == []))
    ensures r.Found? <==> (reply.Answered? && GroupsAccepted(reply.response) &&
      reply.response.groups[0].docs != [])
    ensures r.Found? ==> (Describes(r.order, reply.response.groups[0].docs[0]) &&
      r.order.items == reply.response.groups[0].docs)
  {
    match reply
    case Threw => Broken
    case Answered(resp) =>
      if GroupsUnreadable(resp) then Broken
      else if !GroupsAccepted(resp) then Missing
      else
        match NormaliseGroup(resp.groups[0])
        case None => Broken
        case Some(order) => Found(order)
  }

  function LookupToasts(l: Lookup): seq<Toast> {
    match l
    case Found(_) => []
    case Missing => [OrderNotFound]
    case Broken => [SomethingWentWrong]
  }

  /** The product identifiers sent for hydration after a reply: all those of
      an accepted reply, and none otherwise. */
  ghost predicate HydratesExactly(hydrated: seq<string>, reply: Reply<GroupedResponse>) {
    NoDuplicates(hydrated) &&
    forall p :: p in hydrated <==>
      reply.Answered? && GroupsAccepted(reply.response) && p in ProductIdSet(reply.response.groups)
  }

  predicate CurrentIs(current: Option<Order>, orderId: string) {
    current.Some? && current.value.orderId == orderId
  }

  datatype DetailsOutcome = DetailsOutcome(issued: DetailsQuery, hydrated: seq<string>, toasts: seq<Toast>)

  datatype OpenOrdersOutcome = OpenOrdersOutcome(
    sent: OpenQuery, issued: Option<DetailsQuery>, hydrated: seq<string>, toasts: seq<Toast>)

  datatype PackedOutcome = PackedOutcome(informationFor: Option<seq<Doc>>, toasts: seq<Toast>)

  /** What `getOrderDetail` returns: the cached current order, the open-list
      entry (after filtering), or the outcome of the one fetch it made. */
  datatype DetailResult =
    | CurrentHit(order: Order)
    | OpenHit(order: Order)
    | Fetched(hydrated: seq<string>, toasts: seq<Toast>)

  class OrderStore {
    var open: seq<Order>
    var openTotal: nat
    var packed: seq<Doc>
    var packedTotal: nat
    var current: Option<Order>

    /** The current order only ever holds items of one shipment method. */
    ghost predicate Valid()
      reads this
    {
      current.Some? ==> SingleMethod(current.value.items)
    }

    constructor ()
      ensures Valid()
      ensures open == [] && openTotal == 0 && packed == [] && packedTotal == 0 && current == None
    {
      open, openTotal := [], 0;
      packed, packedTotal := [], 0;
      current := None;
    }

    /** `clearOrders`: both lists emptied with total 0; current kept. */
    method ClearOrders()
      requires Valid()
      modifies this
      ensures Valid()
      ensures open == [] && openTotal == 0 && packed == [] && packedTotal == 0
      ensures current == old(current)
    {
      open, openTotal := [], 0;
      packed, packedTotal := [], 0;
    }

    /** `updateCurrent`: the order, with its items filtered to one method,
        becomes current. The filtered order is returned because the source
        filters the passed object itself; callers write it back. */
    method UpdateCurrent(order: Order, shipmentMethod: string) returns (filtered: Order)
      modifies this
      ensures filtered == WithMethod(order, shipmentMethod)
      ensures current == Some(filtered)
      ensures Valid()
      ensures open == old(open) && openTotal == old(openTotal)
      ensures packed == old(packed) && packedTotal == old(packedTotal)
    {
      var items := FilterItems(order.items, shipmentMethod);
      filtered := order.(items := items);
      current := Some(filtered);
    }

    /** `getOpenOrderDetails`: the stage-2 fetch, hydration of the product
        identifiers, normalisation and the merge into the open list. */
    method GetOpenOrderDetails(query: DetailsQuery, viewIndex: int, shippingOrders: bool,
                               reply: Reply<GroupedResponse>) returns (out: DetailsOutcome)
      requires Valid()
      modifies this
      ensures Valid()
      ensures out.issued == RestrictToPickup(query, shippingOrders)
      ensures (open, openTotal) == ApplyPage(old(open), old(openTotal), viewIndex, OpenPage(reply))
      ensures out.toasts == PageToasts(OpenPage(reply))
      ensures HydratesExactly(out.hydrated, reply)
      ensures packed == old(packed) && packedTotal == old(packedTotal) && current == old(current)
    {
      var issued := RestrictToPickup(query, shippingOrders);
      var hydrated: seq<string> := [];
      var toasts: seq<Toast> := [];
      match reply {
        case Threw =>
          toasts := [SomethingWentWrong];
        case Answered(resp) =>
          if resp.status == 200 && !resp.hasGrouped {
            toasts := [SomethingWentWrong];
          } else if resp.status == 200 && |resp.groups| > 0 && !resp.errorMarked {
            var ids := CollectProductIds(resp.groups);
            if |ids| > 0 {
              hydrated := ids;
            }
            match NormaliseAll(resp.groups) {
              case None =>
                toasts := [SomethingWentWrong];
              case Some(orders) =>
                var merged := orders;
                if viewIndex > 0 {
                  merged := open + orders;
                }
                open, openTotal := merged, |resp.groups|;
            }
          } else {
            open, openTotal := [], 0;
            toasts := [OrdersNotFound];
          }
      }
      out := DetailsOutcome(issued, hydrated, toasts);
    }

    /** `getOpenOrders`: the stage-1 fetch of candidate orders, then the
        stage-2 fetch of their documents; an empty or failed stage 1 makes
        no stage-2 call. */
    method GetOpenOrders(payload: OpenQuery, shippingOrders: bool,
                         stageOne: Reply<SearchResponse>, stageTwo: Reply<GroupedResponse>)
      returns (out: OpenOrdersOutcome)
      requires Valid()
      modifies this
      ensures Valid()
      ensures out.sent == ShapeOpenQuery(payload, shippingOrders)
      ensures stageOne.Threw? ==>
        out.issued == None && out.toasts == [SomethingWentWrong] &&
        open == old(open) && openTotal == old(openTotal)
      ensures stageOne.Answered? && !SearchAccepted(stageOne.response) ==>
        out.issued == None && out.toasts == [OrdersNotFound] && open == [] && openTotal == 0
      ensures stageOne.Answered? && SearchAccepted(stageOne.response) ==>
        out.issued == Some(RestrictToPickup(StageTwoQuery(stageOne.response.docs), shippingOrders)) &&
        (open, openTotal) == ApplyPage(old(open), old(openTotal), payload.viewIndex, OpenPage(stageTwo)) &&
        out.toasts == PageToasts(OpenPage(stageTwo)) &&
        HydratesExactly(out.hydrated, stageTwo)
      ensures out.issued == None ==> out.hydrated == []
      ensures packed == old(packed) && packedTotal == old(packedTotal) && current == old(current)
    {
      var sent := ShapeOpenQuery(payload, shippingOrders);
      match stageOne {
        case Threw =>
          out := OpenOrdersOutcome(sent, None, [], [SomethingWentWrong]);
        case Answered(resp) =>
          if resp.status == 200 && resp.count > 0 && !resp.errorMarked {
            var query := StageTwoQuery(resp.docs);
            var details := GetOpenOrderDetails(query, payload.viewIndex, shippingOrders, stageTwo);
            out := OpenOrdersOutcome(sent, Some(details.issued), details.hydrated, details.toasts);
          } else {
            open, openTotal := [], 0;
            out := OpenOrdersOutcome(sent, None, [], [OrdersNotFound]);
          }
      }
    }

    /** `getPackedOrders`: the documents of a packed-orders page, merged by
        the same page rule, with the backend count as total. */
    method GetPackedOrders(viewIndex: int, reply: Reply<SearchResponse>) returns (out: PackedOutcome)
      requires Valid()
      modifies this
      ensures Valid()
      ensures (packed, packedTotal) == ApplyPage(old(packed), old(packedTotal), viewIndex, PackedPage(reply))
      ensures out.toasts == PageToasts(PackedPage(reply))
      ensures out.informationFor.Some? <==> PackedPage(reply).Page?
      ensures out.informationFor.Some? ==> out.informationFor.value == PackedPage(reply).items
      ensures open == old(open) && openTotal == old(openTotal) && current == old(current)
    {
      match reply {
        case Threw =>
          out := PackedOutcome(None, [SomethingWentWrong]);
        case Answered(resp) =>
          if resp.status == 200 && resp.count > 0 && !resp.errorMarked {
            var orders := resp.docs;
            if viewIndex > 0 {
              orders := packed + orders;
            }
            packed, packedTotal := orders, resp.count;
            out := PackedOutcome(Some(resp.docs), []);
          } else {
            packed, packedTotal := [], 0;
            out := PackedOutcome(None, [OrdersNotFound]);
          }
      }
    }

    /** `getOrderDetail`: the current order if it is the one asked for, else
        the first open-list entry with that identifier, else the first group
        of one fetch. */
    method GetOrderDetail(orderId: string, shipmentMethod: string, reply: Reply<GroupedResponse>)
      returns (result: DetailResult)
      requires Valid()
      modifies this
      ensures Valid()
      ensures packed == old(packed) && packedTotal == old(packedTotal) && openTotal == old(openTotal)
      ensures result.CurrentHit? ==> SingleMethod(result.order.items)
      ensures result.OpenHit? ==> forall d :: d in result.order.items ==> d.shipmentMethodTypeId == shipmentMethod
      ensures CurrentIs(old(current), orderId) ==>
        result == CurrentHit(old(current).value) && open == old(open) && current == old(current)
      ensures !CurrentIs(old(current), orderId) && FindOrder(old(open), orderId).Some? ==>
        var k := FindOrder(old(open), orderId).value;
        var filtered := WithMethod(old(open)[k], shipmentMethod);
        result == OpenHit(filtered) && current == Some(filtered) && open == old(open)[k := filtered]
      ensures !CurrentIs(old(current), orderId) && FindOrder(old(open), orderId).None? ==>
        result.Fetched? && open == old(open) &&
        result.toasts == LookupToasts(LookupFetched(reply)) &&
        HydratesExactly(result.hydrated, reply) &&
        current == (if LookupFetched(reply).Found?
                    then Some(WithMethod(LookupFetched(reply).order, shipmentMethod))
                    else old(current))
    {
      if current.Some? && current.value.orderId == orderId {
        return CurrentHit(current.value);
      }
      if |open| > 0 {
        var found := FindOrder(open, orderId);
        if found.Some? {
          var k := found.value;
          var filtered := UpdateCurrent(open[k], shipmentMethod);
          open := open[k := filtered];
          return OpenHit(filtered);
        }
      }
      var hydrated: seq<string> := [];
      var toasts: seq<Toast> := [];
      match reply {
        case Threw =>
          toasts := [SomethingWentWrong];
        case Answered(resp) =>
          if resp.status == 200 && !resp.hasGrouped {
            toasts := [SomethingWentWrong];
          } else if resp.status == 200 && |resp.groups| > 0 && !resp.errorMarked {
            var ids := CollectProductIds(resp.groups);
            if |ids| > 0 {
              hydrated := ids;
            }
            match NormaliseGroup(resp.groups[0]) {
              case None =>
                toasts := [SomethingWentWrong];
              case Some(order) =>
                var _ := UpdateCurrent(order, shipmentMethod);
            }
          } else {
            toasts := [OrderNotFound];
          }
      }
      result := Fetched(hydrated, toasts);
    }
  }
}
