/** Turning a grouped search response into flat order records, and the
    product identifiers the records mention. */
module Normalizer {
  import opened OrderTypes

  /** `o` carries the order-level fields of document `d`. */
  predicate Describes(o: Order, d: Doc) {
    o.orderId == d.orderId && o.orderName == d.orderName &&
    o.customer.name == d.customerPartyName && o.statusId == d.orderStatusId &&
    o.date == d.orderDate && o.email == d.customerEmailId &&
    o.phoneNumber == d.phoneNumber
  }

  /** Two documents agree on every order-level field. */
  predicate SameOrderFields(a: Doc, b: Doc) {
    a.orderId == b.orderId && a.orderName == b.orderName &&
    a.customerPartyName == b.customerPartyName && a.orderStatusId == b.orderStatusId &&
    a.orderDate == b.orderDate && a.customerEmailId == b.customerEmailId &&
    a.phoneNumber == b.phoneNumber
  }

  /** One group becomes one order record. Reading `docs[0]` of an empty
      document list throws, which is `None` here. */
  function NormaliseGroup(g: Group): (r: Option<Order>)
    ensures r.Some? <==> |g.docs| > 0
    ensures r.Some? ==> Describes(r.value, g.docs[0]) && r.value.items == g.docs
  {
    if |g.docs| == 0 then None
    else
      var d := g.docs[0];
      Some(Order(d.orderId, d.orderName, Customer(d.customerPartyName), g.docs,
                 d.orderStatusId, d.orderDate, d.customerEmailId, d.phoneNumber))
  }

  /** The record of a group is the only one that carries the whole document
      list and the first document's order fields. */
  lemma NormaliseGroupUnique(g: Group, o: Order)
    requires |g.docs| > 0 && o.items == g.docs && Describes(o, g.docs[0])
    ensures NormaliseGroup(g) == Some(o)
  {
  }

  /** When every document of a group agrees on the order fields, the record
      describes each of them, not only the first. */
  lemma ConsistentGroupDescribesEveryDoc(g: Group)
    requires |g.docs| > 0
    requires forall i :: 0 <= i < |g.docs| ==> SameOrderFields(g.docs[0], g.docs[i])
    ensures forall d :: d in g.docs ==> Describes(NormaliseGroup(g).value, d)
  {
  }

  /** The `orders.map` over all groups: one record per group, in group
      order; any group with no documents makes the whole step throw. */
  function NormaliseAll(groups: seq<Group>): (r: Option<seq<Order>>)
    ensures r.Some? <==> forall i :: 0 <= i < |groups| ==> |groups[i].docs| > 0
    ensures r.Some? ==> |r.value| == |groups|
    ensures r.Some? ==> forall i :: 0 <= i < |groups| ==> NormaliseGroup(groups[i]) == Some(r.value[i])
  {
    if groups == [] then Some([])
    else
      match NormaliseGroup(groups[0])
      case None => None
      case Some(o) =>
        match NormaliseAll(groups[1..])
        case None => None
        case Some(os) => Some([o] + os)
  }

  /** Every document of every group, in order. */
  function AllDocs(groups: seq<Group>): seq<Doc> {
    if groups == [] then [] else AllDocs(groups[..|groups| - 1]) + groups[|groups| - 1].docs
  }

  /** Every item of every order, in order. */
  function AllItems(orders: seq<Order>): seq<Doc> {
    if orders == [] then [] else AllItems(orders[..|orders| - 1]) + orders[|orders| - 1].items
  }

  /** The non-empty product identifiers among `docs`. */
  function ProductIds(docs: seq<Doc>): set<string> {
    set d | d in docs && d.productId != "" :: d.productId
  }

  /** The product identifiers a grouped response mentions. */
  function ProductIdSet(groups: seq<Group>): set<string> {
    ProductIds(AllDocs(groups))
  }

  predicate NoDuplicates(s: seq<string>) {
    forall a, b :: 0 <= a < b < |s| ==> s[a] != s[b]
  }

  lemma ProductIdsSnoc(docs: seq<Doc>, d: Doc)
    ensures ProductIds(docs + [d]) ==
            ProductIds(docs) + (if d.productId != "" then {d.productId} else {})
  {
  }

  lemma AllDocsPrefix(groups: seq<Group>, i: nat)
    requires i < |groups|
    ensures AllDocs(groups[..i + 1]) == AllDocs(groups[..i]) + groups[i].docs
  {
    assert groups[..i + 1][..i] == groups[..i];
  }

  /** The nested `forEach` loops that fill a `Set` and spread it into an
      array: every non-empty product identifier of every document, each
      exactly once. */
  method CollectProductIds(groups: seq<Group>) returns (ids: seq<string>)
    ensures NoDuplicates(ids)
    ensures forall p :: p in ids <==> p in ProductIdSet(groups)
  {
    ids := [];
    ghost var seen: seq<Doc> := [];
    var i := 0;
    while i < |groups|
      invariant 0 <= i <= |groups|
      invariant seen == AllDocs(groups[..i])
      invariant NoDuplicates(ids)
      invariant forall p :: p in ids <==> p in ProductIds(seen)
    {
      var docs := groups[i].docs;
      var j := 0;
      while j < |docs|
        invariant 0 <= j <= |docs|
        invariant seen == AllDocs(groups[..i]) + docs[..j]
        invariant NoDuplicates(ids)
        invariant forall p :: p in ids <==> p in ProductIds(seen)
      {
        var d := docs[j];
        if d.productId != "" && d.productId !in ids {
          ids := ids + [d.productId];
        }
        ProductIdsSnoc(seen, d);
        seen := seen + [d];
        assert docs[..j + 1] == docs[..j] + [d];
        j := j + 1;
      }
      assert docs[..j] == docs;
      AllDocsPrefix(groups, i);
      i := i + 1;
    }
    assert groups[..i] == groups;
  }

  lemma {:induction false} ItemsMatchDocs(groups: seq<Group>, orders: seq<Order>)
    requires |orders| == |groups|
    requires forall i :: 0 <= i < |groups| ==> orders[i].items == groups[i].docs
    ensures AllItems(orders) == AllDocs(groups)
  {
    if groups != [] {
      var n := |groups| - 1;
      ItemsMatchDocs(groups[..n], orders[..n]);
    }
  }

  /** Normalisation loses and invents no document: the items of the records,
      read in order, are the documents of the response, so the product
      identifiers of the records are those collected from the response. */
  lemma NormaliseKeepsEveryDoc(groups: seq<Group>)
    requires NormaliseAll(groups).Some?
    ensures AllItems(NormaliseAll(groups).value) == AllDocs(groups)
    ensures ProductIds(AllItems(NormaliseAll(groups).value)) == ProductIdSet(groups)
  {
    var os := NormaliseAll(groups).value;
    forall i | 0 <= i < |groups| ensures os[i].items == groups[i].docs {
      assert NormaliseGroup(groups[i]) == Some(os[i]);
    }
    ItemsMatchDocs(groups, os);
  }
}
