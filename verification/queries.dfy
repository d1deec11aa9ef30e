/** The two-stage open-orders query: shaping the stage-1 request, and the
    grouped stage-2 request filtered to the stage-1 order identifiers. */
module Queries {
  import opened OrderTypes

  const ShipmentMethodField: string := "shipmentMethodTypeId"
  const PickupFilter: string := "shipmentMethodTypeId: STOREPICKUP"
  const OrderDocFilter: string := "docType: ORDER"
  const Separator: string := " OR "

  /** The stage-1 request: its page index and the input fields sent. */
  datatype OpenQuery = OpenQuery(viewIndex: int, inputFields: map<string, string>)

  /** The stage-2 request body (`json.params`, `json.query`, `json.filter`). */
  datatype DetailsQuery = DetailsQuery(
    rows: int,
    group: bool,
    groupField: string,
    groupNGroups: bool,
    groupLimit: int,
    query: string,
    filter: seq<string>)

  /** When the user does not ship orders, the stage-1 request is forced to
      store pickup; every other input field is sent as given. */
  function ShapeOpenQuery(q: OpenQuery, shippingOrders: bool): (r: OpenQuery)
    ensures r.viewIndex == q.viewIndex
    ensures shippingOrders ==> r == q
    ensures !shippingOrders ==>
      ShipmentMethodField in r.inputFields && r.inputFields[ShipmentMethodField] == StorePickup
    ensures forall k :: k != ShipmentMethodField ==>
      (k in r.inputFields <==> k in q.inputFields) &&
      (k in q.inputFields ==> r.inputFields[k] == q.inputFields[k])
  {
    if shippingOrders then q
    else q.(inputFields := q.inputFields[ShipmentMethodField := StorePickup])
  }

  /** The filter clause for one order identifier. */
  function Clause(orderId: string): string {
    "orderId: *" + orderId + "*"
  }

  /** One step of the `reduce`: a separator only when the accumulated
      string is already non-empty (truthy), then the clause. */
  function OrFilterStep(acc: string, d: Doc): string {
    (if acc != "" then acc + Separator else acc) + Clause(d.orderId)
  }

  /** The left fold the source performs over the stage-1 documents. */
  function ReduceOrFilter(acc: string, docs: seq<Doc>): string
    decreases |docs|
  {
    if docs == [] then acc else ReduceOrFilter(OrFilterStep(acc, docs[0]), docs[1..])
  }

  function OrFilter(docs: seq<Doc>): string {
    ReduceOrFilter("", docs)
  }

  /** Reference definition: the clauses of the identifiers, in order. */
  function Clauses(docs: seq<Doc>): (cs: seq<string>)
    ensures |cs| == |docs|
  {
    seq(|docs|, i requires 0 <= i < |docs| => Clause(docs[i].orderId))
  }

  /** Reference definition: the strings joined by the separator, with no
      separator before the first or after the last. */
  function JoinOr(cs: seq<string>): string {
    if cs == [] then ""
    else if |cs| == 1 then cs[0]
    else cs[0] + Separator + JoinOr(cs[1..])
  }

  /** A separator and a clause for each document. */
  function SeparatedClauses(docs: seq<Doc>): string {
    if docs == [] then "" else Separator + Clause(docs[0].orderId) + SeparatedClauses(docs[1..])
  }

  lemma {:induction false} ReduceFromNonEmpty(acc: string, docs: seq<Doc>)
    requires acc != ""
    ensures ReduceOrFilter(acc, docs) == acc + SeparatedClauses(docs)
    decreases |docs|
  {
    if docs != [] {
      var next := acc + Separator + Clause(docs[0].orderId);
      assert OrFilterStep(acc, docs[0]) == next;
      ReduceFromNonEmpty(next, docs[1..]);
    }
  }

  lemma {:induction false} JoinFromFirst(docs: seq<Doc>)
    requires docs != []
    ensures JoinOr(Clauses(docs)) == Clause(docs[0].orderId) + SeparatedClauses(docs[1..])
    decreases |docs|
  {
    var cs := Clauses(docs);
    if |docs| > 1 {
      assert cs[1..] == Clauses(docs[1..]);
      JoinFromFirst(docs[1..]);
    }
  }

  /** The `reduce` yields exactly the clauses joined by " OR ". */
  lemma OrFilterIsJoin(docs: seq<Doc>)
    ensures OrFilter(docs) == JoinOr(Clauses(docs))
  {
    if docs != [] {
      var first := Clause(docs[0].orderId);
      assert OrFilterStep("", docs[0]) == first;
      ReduceFromNonEmpty(first, docs[1..]);
      JoinFromFirst(docs);
    }
  }

  /** No leading or trailing separator: a non-empty filter opens with the
      first clause and closes with the last one. */
  lemma OrFilterEnds(docs: seq<Doc>)
    requires docs != []
    ensures Clause(docs[0].orderId) <= OrFilter(docs)
    ensures |OrFilter(docs)| >= |Clause(docs[|docs| - 1].orderId)|
    ensures OrFilter(docs)[|OrFilter(docs)| - |Clause(docs[|docs| - 1].orderId)|..] == Clause(docs[|docs| - 1].orderId)
  {
    OrFilterIsJoin(docs);
    JoinFromFirst(docs);
    LastClauseEnds(docs);
  }

  lemma {:induction false} LastClauseEnds(docs: seq<Doc>)
    requires docs != []
    ensures var j, c := JoinOr(Clauses(docs)), Clause(docs[|docs| - 1].orderId);
      |j| >= |c| && j[|j| - |c|..] == c
    decreases |docs|
  {
    if |docs| > 1 {
      assert Clauses(docs)[1..] == Clauses(docs[1..]);
      LastClauseEnds(docs[1..]);
    }
  }

  /** The stage-2 request: grouped by order identifier, at most 1000
      documents per group, one row per stage-1 document, and filtered to the
      stage-1 identifiers and to order documents. */
  function StageTwoQuery(docs: seq<Doc>): (q: DetailsQuery)
    ensures q.rows == |docs|
    ensures q.group && q.groupField == "orderId" && q.groupNGroups && q.groupLimit == 1000
    ensures q.query == "*:*"
    ensures q.filter == [JoinOr(Clauses(docs)), OrderDocFilter]
  {
    OrFilterIsJoin(docs);
    DetailsQuery(|docs|, true, "orderId", true, 1000, "*:*", [OrFilter(docs), OrderDocFilter])
  }

  /** The push in `getOpenOrderDetails`: when the user does not ship orders,
      the stage-2 filter also restricts to store pickup. */
  function RestrictToPickup(q: DetailsQuery, shippingOrders: bool): (r: DetailsQuery)
    ensures r.(filter := q.filter) == q
    ensures |r.filter| == |q.filter| + (if shippingOrders then 0 else 1)
    ensures r.filter[..|q.filter|] == q.filter
    ensures !shippingOrders ==> r.filter[|q.filter|] == PickupFilter
  {
    if shippingOrders then q else q.(filter := q.filter + [PickupFilter])
  }
}
