/** Status changes sent to the backend item by item or ship group by ship
    group: rejecting order items with one aggregated verdict, and the
    quick-ship of a ship group with its follow-up "pack" call. */
module BatchUpdates {
  import opened OrderTypes

  /** One item handed to `rejectOrderItems`; `quantity` is already the
      integer the source obtains with `parseInt`. */
  datatype RejectItem = RejectItem(
    reason: string, facilityId: string, orderItemSeqId: string,
    shipmentMethodTypeId: string, quantity: int)

  /** The parameters of one reject call. */
  datatype RejectParams = RejectParams(
    orderId: string, rejectReason: string, facilityId: string,
    orderItemSeqId: string, shipmentMethodTypeId: string, quantity: int)

  /** The error markers of a response body: `_ERROR_MESSAGE_` ("" when
      absent) and `_ERROR_MESSAGE_LIST_` (any array, even an empty one, is
      truthy, so only its presence matters). */
  datatype Markers = Markers(errorMessage: string, errorList: Option<seq<string>>)

  /** One slot of the batch: the call answered with a body, or it rejected
      and its `.catch` kept the rejection value, which may or may not carry
      a `data` field. */
  datatype ItemReply = Responded(body: Markers) | Rejected(carried: Option<Markers>)

  function BodyOf(reply: ItemReply): Option<Markers> {
    match reply
    case Responded(m) => Some(m)
    case Rejected(m) => m
  }

  predicate Marked(m: Markers) {
    m.errorMessage != "" || m.errorList.Some?
  }

  /** A slot whose body carries neither error marker. */
  predicate Succeeded(reply: ItemReply) {
    BodyOf(reply).Some? && !Marked(BodyOf(reply).value)
  }

  /** A slot with no body: reading a marker from it throws. */
  predicate Unreadable(reply: ItemReply) {
    BodyOf(reply).None?
  }

  function RejectCall(orderId: string, item: RejectItem): RejectParams {
    RejectParams(orderId, item.reason, item.facilityId, item.orderItemSeqId,
                 item.shipmentMethodTypeId, item.quantity)
  }

  /** `rejectOrderItems`: one call per item, and the answer of the call for
      slot `i` is `respond(i, params)`; a failed call fills its own slot. */
  function RejectOrderItems(orderId: string, items: seq<RejectItem>,
                            respond: (nat, RejectParams) -> ItemReply): (r: seq<ItemReply>)
    ensures |r| == |items|
    ensures forall i :: 0 <= i < |items| ==>
      r[i] == respond(i, RejectParams(orderId, items[i].reason, items[i].facilityId,
                                      items[i].orderItemSeqId, items[i].shipmentMethodTypeId,
                                      items[i].quantity))
  {
    if items == [] then []
    else
      var n := |items| - 1;
      RejectOrderItems(orderId, items[..n], respond) + [respond(n, RejectCall(orderId, items[n]))]
  }

  /** The `find` of `setUnfillableOrderOrItem`, scanning slots in order:
      the first slot without error markers, none, or a throw on reaching a
      slot without a body. */
  datatype Verdict = Canceled(index: nat) | NoneCanceled | ScanThrew

  function FirstUnmarked(results: seq<ItemReply>): (v: Verdict)
    ensures v.Canceled? ==> v.index < |results| && Succeeded(results[v.index])
    ensures v.Canceled? ==> forall j :: 0 <= j < v.index ==>
      !Succeeded(results[j]) && !Unreadable(results[j])
    ensures v.NoneCanceled? ==> forall j :: 0 <= j < |results| ==>
      !Succeeded(results[j]) && !Unreadable(results[j])
    ensures v.ScanThrew? ==> exists k :: 0 <= k < |results| && Unreadable(results[k]) &&
                                         (forall j :: 0 <= j < k ==> !Succeeded(results[j]))
  {
    if results == [] then NoneCanceled
    else if Unreadable(results[0]) then ScanThrew
    else if Succeeded(results[0]) then Canceled(0)
    else
      match FirstUnmarked(results[1..])
      case Canceled(k) => Canceled(k + 1)
      case NoneCanceled => NoneCanceled
      case ScanThrew =>
        assert exists k :: 0 <= k < |results| - 1 && Unreadable(results[1..][k]) &&
                           (forall j :: 0 <= j < k ==> !Succeeded(results[1..][j]));
        ScanThrew
  }

  /** When every slot has a body, the batch is reported a success exactly
      when at least one slot carries no error marker; it need not be all. */
  lemma AnySuccessVerdict(results: seq<ItemReply>)
    requires forall j :: 0 <= j < |results| ==> !Unreadable(results[j])
    ensures FirstUnmarked(results).Canceled? <==> exists i :: 0 <= i < |results| && Succeeded(results[i])
  {
  }

  datatype UnfillableOutcome = UnfillableOutcome(results: seq<ItemReply>, verdict: Verdict, toasts: seq<Toast>)

  /** `setUnfillableOrderOrItem`: reject every item, then report. A scan that
      throws ends in the `.catch`, which raises no message. */
  function SetUnfillable(orderId: string, items: seq<RejectItem>,
                         respond: (nat, RejectParams) -> ItemReply): (r: UnfillableOutcome)
    ensures |r.results| == |items|
    ensures forall i :: 0 <= i < |items| ==> r.results[i] == respond(i, RejectCall(orderId, items[i]))
    ensures r.verdict == FirstUnmarked(r.results)
    ensures r.verdict.Canceled? <==> r.toasts == [AllItemsCanceled(orderId)]
    ensures r.verdict.NoneCanceled? <==> r.toasts == [SomethingWentWrong]
    ensures r.verdict.ScanThrew? <==> r.toasts == []
    ensures (forall j :: 0 <= j < |r.results| ==> !Unreadable(r.results[j])) ==>
      (r.toasts == [AllItemsCanceled(orderId)] <==> exists i :: 0 <= i < |items| && Succeeded(r.results[i]))
  {
    var results := RejectOrderItems(orderId, items, respond);
    var verdict := FirstUnmarked(results);
    var toasts := match verdict
      case Canceled(_) => [AllItemsCanceled(orderId)]
      case NoneCanceled => [SomethingWentWrong]
      case ScanThrew => [];
    UnfillableOutcome(results, verdict, toasts)
  }

  /** Two items, one answered with an error marker and one without: the
      batch still counts as a success and holds both slots. */
  lemma OneFailureOneSuccess(orderId: string, a: RejectItem, b: RejectItem, m: Markers, ok: Markers,
                             respond: (nat, RejectParams) -> ItemReply)
    requires Marked(m) && !Marked(ok)
    requires respond(0, RejectCall(orderId, a)) == Responded(m)
    requires respond(1, RejectCall(orderId, b)) == Responded(ok)
    ensures |SetUnfillable(orderId, [a, b], respond).results| == 2
    ensures SetUnfillable(orderId, [a, b], respond).toasts == [AllItemsCanceled(orderId)]
  {
    var results := SetUnfillable(orderId, [a, b], respond).results;
    assert results[0] == Responded(m) && results[1] == Responded(ok);
    assert Succeeded(results[1]);
  }

  predicate IsDigit(c: char) {
    '0' <= c <= '9'
  }

  /** The longest run of digits `s` starts with. */
  function DigitPrefix(s: string): (r: string)
    ensures r <= s
    ensures forall k :: 0 <= k < |r| ==> IsDigit(r[k])
    ensures |r| < |s| ==> !IsDigit(s[|r|])
  {
    if s != [] && IsDigit(s[0]) then [s[0]] + DigitPrefix(s[1..]) else []
  }

  /** `match(/\d+/g)[0]`: the first maximal run of digits, or `None` where
      the match would be `null`. */
  function FirstDigitRun(s: string): (r: Option<string>)
    ensures r.None? <==> forall j :: 0 <= j < |s| ==> !IsDigit(s[j])
  {
    if s == [] then None
    else if IsDigit(s[0]) then Some(DigitPrefix(s))
    else FirstDigitRun(s[1..])
  }

  /** `r` is a maximal run of digits starting at `i`, with no digit before. */
  ghost predicate RunAt(s: string, i: nat, r: string) {
    i + |r| <= |s| && |r| > 0 && s[i..i + |r|] == r &&
    (forall k :: 0 <= k < |r| ==> IsDigit(r[k])) &&
    (forall j :: 0 <= j < i ==> !IsDigit(s[j])) &&
    (i + |r| == |s| || !IsDigit(s[i + |r|]))
  }

  /** What the extraction returns is a first maximal digit run, and its
      position is returned. */
  lemma {:induction false} FirstDigitRunFound(s: string) returns (i: nat)
    requires FirstDigitRun(s).Some?
    ensures RunAt(s, i, FirstDigitRun(s).value)
    decreases |s|
  {
    if IsDigit(s[0]) {
      i := 0;
    } else {
      var j := FirstDigitRunFound(s[1..]);
      i := j + 1;
      var r := FirstDigitRun(s).value;
      assert s[i..i + |r|] == s[1..][j..j + |r|];
      forall k | 0 <= k < i ensures !IsDigit(s[k]) {
        if k > 0 { assert s[k] == s[1..][k - 1]; }
      }
    }
  }

  /** The digit prefix is the only digit-only prefix that stops at a
      non-digit or at the end. */
  lemma DigitPrefixIs(s: string, r: string)
    requires r <= s
    requires forall k :: 0 <= k < |r| ==> IsDigit(r[k])
    requires |r| < |s| ==> !IsDigit(s[|r|])
    ensures DigitPrefix(s) == r
  {
  }

  /** Conversely, a first maximal digit run is what the extraction returns:
      the result is determined by the message. */
  lemma {:induction false} RunAtIsFirstDigitRun(s: string, i: nat, r: string)
    requires RunAt(s, i, r)
    ensures FirstDigitRun(s) == Some(r)
    decreases i
  {
    if i == 0 {
      assert s[..|r|] == r;
      DigitPrefixIs(s, r);
    } else {
      assert !IsDigit(s[0]);
      assert s[1..][i - 1..i - 1 + |r|] == s[i..i + |r|];
      forall j | 0 <= j < i - 1 ensures !IsDigit(s[1..][j]) {
        assert s[1..][j] == s[j + 1];
      }
      assert i - 1 + |r| < |s[1..]| ==> s[1..][i - 1 + |r|] == s[i + |r|];
      RunAtIsFirstDigitRun(s[1..], i - 1, r);
    }
  }

  /** The quick-ship request: fixed packing placeholders around the order,
      facility and ship group. */
  datatype QuickShipParams = QuickShipParams(
    orderId: string, setPackedOnly: string, dimensionUomId: string,
    shipmentBoxTypeId: string, weight: string, weightUomId: string,
    facilityId: string, shipGroupSeqId: string)

  /** A shipment status update (`packDeliveryItems`). */
  datatype ShipmentUpdate = ShipmentUpdate(shipmentId: string, statusId: string)

  datatype QuickShipOutcome = QuickShipOutcome(
    request: QuickShipParams, packRequest: Option<ShipmentUpdate>, toasts: seq<Toast>)

  predicate ShipAccepted(r: ShipResponse) {
    r.status == 200 && !r.errorMarked && r.eventMessage != ""
  }

  /** The `find` over the order's items by ship group (loose equality on
      two strings is plain equality). */
  function FindShipGroupItem(items: seq<Doc>, shipGroupSeqId: string): (r: Option<nat>)
    ensures r.Some? ==> r.value < |items| && items[r.value].shipGroupSeqId == shipGroupSeqId
    ensures r.Some? ==> forall j :: 0 <= j < r.value ==> items[j].shipGroupSeqId != shipGroupSeqId
    ensures r.None? ==> forall j :: 0 <= j < |items| ==> items[j].shipGroupSeqId != shipGroupSeqId
  {
    FirstWhere(items, (d: Doc) => d.shipGroupSeqId == shipGroupSeqId)
  }

  /** The ship group is sent on to packing: its item is not store pickup. */
  predicate NeedsPacking(order: Order, shipGroupSeqId: string) {
    var k := FindShipGroupItem(order.items, shipGroupSeqId);
    k.Some? && order.items[k.value].shipmentMethodTypeId != StorePickup
  }

  /** The messages after the pack call answered: a complaint only when the
      answer has neither an error mark nor an event message. */
  function PackToasts(p: ShipResponse): seq<Toast> {
    if !p.errorMarked && p.eventMessage == "" then [SomethingWentWrong] else []
  }

  /** `quickShipEntireShipGroup`: the quick-ship call, then, unless the ship
      group's item is store pickup, one pack call for the shipment id read
      from the event message. A missing item, a message without digits or a
      rejected pack call end in the `catch`. */
  function QuickShip(order: Order, facilityId: string, shipGroupSeqId: string,
                     shipReply: Reply<ShipResponse>, packReply: Reply<ShipResponse>): (r: QuickShipOutcome)
    ensures r.request == QuickShipParams(order.orderId, "Y", "WT_kg", "YOURPACKNG", "1", "WT_kg",
                                         facilityId, shipGroupSeqId)
    ensures r.packRequest.Some? <==>
      (shipReply.Answered? && ShipAccepted(shipReply.response) &&
       NeedsPacking(order, shipGroupSeqId) && FirstDigitRun(shipReply.response.eventMessage).Some?)
    ensures r.packRequest.Some? ==>
      r.packRequest.value.statusId == "SHIPMENT_PACKED" &&
      Some(r.packRequest.value.shipmentId) == FirstDigitRun(shipReply.response.eventMessage)
    ensures OrderPackedForDelivery in r.toasts ==>
      shipReply.Answered? && ShipAccepted(shipReply.response) &&
      FindShipGroupItem(order.items, shipGroupSeqId).Some? &&
      (r.packRequest.Some? ==> packReply.Answered?)
    ensures r.toasts != []
    ensures r.packRequest.None? ==>
      r.toasts == (if shipReply.Answered? && ShipAccepted(shipReply.response) &&
                      FindShipGroupItem(order.items, shipGroupSeqId).Some? &&
                      !NeedsPacking(order, shipGroupSeqId)
                   then [OrderPackedForDelivery] else [SomethingWentWrong])
    ensures r.packRequest.Some? ==>
      r.toasts == (if packReply.Answered? then PackToasts(packReply.response) + [OrderPackedForDelivery]
                   else [SomethingWentWrong])
  {
    var request := QuickShipParams(order.orderId, "Y", "WT_kg", "YOURPACKNG", "1", "WT_kg",
                                   facilityId, shipGroupSeqId);
    match shipReply
    case Threw => QuickShipOutcome(request, None, [SomethingWentWrong])
    case Answered(resp) =>
      if !ShipAccepted(resp) then QuickShipOutcome(request, None, [SomethingWentWrong])
      else
        match FindShipGroupItem(order.items, shipGroupSeqId)
        case None => QuickShipOutcome(request, None, [SomethingWentWrong])
        case Some(k) =>
          if order.items[k].shipmentMethodTypeId == StorePickup then
            QuickShipOutcome(request, None, [OrderPackedForDelivery])
          else
            match FirstDigitRun(resp.eventMessage)
            case None => QuickShipOutcome(request, None, [SomethingWentWrong])
            case Some(shipmentId) =>
              var pack := Some(ShipmentUpdate(shipmentId, "SHIPMENT_PACKED"));
              match packReply
              case Threw => QuickShipOutcome(request, pack, [SomethingWentWrong])
              case Answered(p) => QuickShipOutcome(request, pack, PackToasts(p) + [OrderPackedForDelivery])
  }

  /** As written, a pack answer that carries an error mark raises no
      complaint: the ship group is still reported packed. */
  lemma ErrorMarkedPackStillReportsPacked(order: Order, facilityId: string, shipGroupSeqId: string,
                                          resp: ShipResponse, p: ShipResponse)
    requires ShipAccepted(resp) && NeedsPacking(order, shipGroupSeqId)
    requires FirstDigitRun(resp.eventMessage).Some?
    requires p.errorMarked
    ensures QuickShip(order, facilityId, shipGroupSeqId, Answered(resp), Answered(p)).toasts == [OrderPackedForDelivery]
  {
  }
}
