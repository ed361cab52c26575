/**
 * The status workflow as customers and the admin dashboard drive it.  The
 * store applies any update it is given; the cards only issue updates for a
 * PENDING item, and only to a terminal status.  When every update comes
 * from a card action against the current lists, every new item gets a fresh
 * id, and ids start distinct, the item with a given id changes at most once
 * and a terminal status never changes again.
 */
module Workflow {
  import opened Types
  import opened App
  import AdminOrderCard
  import AdminReviewCard

  // ----- orders -----

  function ApplyOrderUpdate(os: seq<Order>, u: AdminOrderCard.StatusUpdate): seq<Order>
  {
    SetOrderStatus(os, u.id, u.status)
  }

  /** `u` is one of the updates offered by the card of some order currently listed. */
  ghost predicate IssuedByOrderCard(os: seq<Order>, u: AdminOrderCard.StatusUpdate)
  {
    exists i :: 0 <= i < |os| && u in AdminOrderCard.Actions(os[i])
  }

  /** Only the status may change, and only from PENDING to a terminal status. */
  ghost predicate OrderStepAllowed(before: Order, after: Order)
  {
    && after.(status := before.status) == before
    && (after.status == before.status || (before.status.Pending? && after.status.IsTerminal()))
  }

  /**
   * One card-issued update: every order moves by an allowed step, at most one
   * order changes at all, and ids stay distinct.
   */
  lemma OrderCardStep(os: seq<Order>, u: AdminOrderCard.StatusUpdate)
    requires DistinctOrderIds(os) && IssuedByOrderCard(os, u)
    ensures DistinctOrderIds(ApplyOrderUpdate(os, u))
    ensures forall i :: 0 <= i < |os| ==> OrderStepAllowed(os[i], ApplyOrderUpdate(os, u)[i])
    ensures forall i, j :: 0 <= i < j < |os| ==> ApplyOrderUpdate(os, u)[i] == os[i] || ApplyOrderUpdate(os, u)[j] == os[j]
  {
  }

  /**
   * What can happen to the order list: a customer places an order (the
   * store's `addOrder`, `suffix` standing for the random part of the id), or
   * an admin clicks a card button.
   */
  datatype OrderEvent =
    | PlaceOrder(data: OrderData, suffix: string, now: int)
    | ClickOrder(u: AdminOrderCard.StatusUpdate)

  function ApplyOrderEvent(os: seq<Order>, e: OrderEvent): seq<Order>
  {
    match e
    case PlaceOrder(data, suffix, now) => [NewOrder(data, OrderId(suffix), now)] + os
    case ClickOrder(u) => ApplyOrderUpdate(os, u)
  }

  /** A placed order gets an id not yet listed, as `Store.AddOrder` requires; a click comes from a listed card. */
  ghost predicate OrderEventAllowed(os: seq<Order>, e: OrderEvent)
  {
    match e
    case PlaceOrder(_, suffix, _) => OrderId(suffix) !in OrderIds(os)
    case ClickOrder(u) => IssuedByOrderCard(os, u)
  }

  /** The order list after the events `es` in turn. */
  function RunOrders(os: seq<Order>, es: seq<OrderEvent>): seq<Order>
    decreases |es|
  {
    if es == [] then os else RunOrders(ApplyOrderEvent(os, es[0]), es[1..])
  }

  /** Every event of `es` can occur on the list as it stands when the event happens. */
  ghost predicate OrderTrace(os: seq<Order>, es: seq<OrderEvent>)
    decreases |es|
  {
    es == [] || (OrderEventAllowed(os, es[0]) && OrderTrace(ApplyOrderEvent(os, es[0]), es[1..]))
  }

  /** How many events of `es` change the listed order with id `id` (its arrival is not a change). */
  function OrderChanges(os: seq<Order>, es: seq<OrderEvent>, id: string): nat
    decreases |es|
  {
    if es == [] then 0
    else
      var next := ApplyOrderEvent(os, es[0]);
      (if FindOrder(os, id).Some? && FindOrder(next, id) != FindOrder(os, id) then 1 else 0)
      + OrderChanges(next, es[1..], id)
  }

  /**
   * One event, followed by id: ids stay distinct; a listed order stays listed
   * and moves by an allowed step, not at all when it is terminal; an order
   * that was not listed is either still missing or new and PENDING.
   */
  lemma OrderEventStep(os: seq<Order>, e: OrderEvent, id: string)
    requires DistinctOrderIds(os) && OrderEventAllowed(os, e)
    ensures DistinctOrderIds(ApplyOrderEvent(os, e))
    ensures FindOrder(os, id).Some? ==>
      && FindOrder(ApplyOrderEvent(os, e), id).Some?
      && OrderStepAllowed(FindOrder(os, id).value, FindOrder(ApplyOrderEvent(os, e), id).value)
    ensures FindOrder(os, id).Some? && FindOrder(os, id).value.status.IsTerminal() ==>
      FindOrder(ApplyOrderEvent(os, e), id) == FindOrder(os, id)
    ensures FindOrder(os, id).None? ==>
      FindOrder(ApplyOrderEvent(os, e), id).None? || FindOrder(ApplyOrderEvent(os, e), id).value.status.Pending?
  {
    match e
    case PlaceOrder(data, suffix, now) =>
      var o := NewOrder(data, OrderId(suffix), now);
      PrependOrderKeepsIdsDistinct(o, os);
      FindOrderPrepend(o, os, id);
    case ClickOrder(u) =>
      OrderCardStep(os, u);
      if u.id == id {
        FindAfterSetOrderStatus(os, id, u.status);
        var i :| 0 <= i < |os| && u in AdminOrderCard.Actions(os[i]);
        FindOrderDistinct(os, i);
      } else {
        FindOtherAfterSetOrderStatus(os, u.id, id, u.status);
      }
  }

  /** Under any allowed events a listed order with a terminal status never changes again. */
  lemma {:induction false} TerminalOrderStaysFixed(os: seq<Order>, es: seq<OrderEvent>, id: string)
    requires DistinctOrderIds(os) && OrderTrace(os, es)
    requires FindOrder(os, id).Some? && FindOrder(os, id).value.status.IsTerminal()
    ensures FindOrder(RunOrders(os, es), id) == FindOrder(os, id)
    ensures OrderChanges(os, es, id) == 0
    decreases |es|
  {
    if es != [] {
      OrderEventStep(os, es[0], id);
      TerminalOrderStaysFixed(ApplyOrderEvent(os, es[0]), es[1..], id);
    }
  }

  /**
   * Under any allowed events, placements in between included, the order with
   * a given id changes at most once, and then only its status, from PENDING
   * to a terminal status.
   */
  lemma {:induction false} OrderStatusChangesAtMostOnce(os: seq<Order>, es: seq<OrderEvent>, id: string)
    requires DistinctOrderIds(os) && OrderTrace(os, es)
    ensures OrderChanges(os, es, id) <= 1
    ensures FindOrder(os, id).Some? ==>
      && FindOrder(RunOrders(os, es), id).Some?
      && OrderStepAllowed(FindOrder(os, id).value, FindOrder(RunOrders(os, es), id).value)
    decreases |es|
  {
    if es != [] {
      var next := ApplyOrderEvent(os, es[0]);
      OrderEventStep(os, es[0], id);
      if FindOrder(os, id).Some? && FindOrder(next, id) != FindOrder(os, id) {
        TerminalOrderStaysFixed(next, es[1..], id);
      } else {
        OrderStatusChangesAtMostOnce(next, es[1..], id);
      }
    }
  }

  /**
   * A click on button `k` of the card of the order at position `i`: the card
   * passes its update to the store's `updateOrderStatus`.
   */
  method ClickOrderAction(store: Store, i: nat, k: nat)
    requires store.Valid() && i < |store.orders| && k < |AdminOrderCard.Actions(store.orders[i])|
    modifies store`orders
    ensures store.Valid()
    ensures store.orders == ApplyOrderUpdate(old(store.orders), AdminOrderCard.Actions(old(store.orders)[i])[k])
    ensures old(store.orders)[i].status.Pending? && store.orders[i].status.IsTerminal()
    ensures forall j :: 0 <= j < |store.orders| && j != i ==> store.orders[j] == old(store.orders)[j]
  {
    var u := AdminOrderCard.Actions(store.orders[i])[k];
    ghost var before := store.orders;
    store.UpdateOrderStatus(u.id, u.status);
    assert IssuedByOrderCard(before, u);
    OrderCardStep(before, u);
    SetOrderStatusMatching(before, u.id, u.status, i);
    forall j | 0 <= j < |before| && j != i ensures store.orders[j] == before[j] {
      SetOrderStatusOthers(before, u.id, u.status, j);
    }
  }

  /** Two orders that share an id, the first pending and the second confirmed. */
  function TwinOrders(): seq<Order>
  {
    [ Order("ord-x", 1, "555-0101", "White", CustomerEmail, OrderStatus.Pending, 0),
      Order("ord-x", 1, "555-0101", "White", CustomerEmail, OrderStatus.Confirmed, 0) ]
  }

  /**
   * Distinct ids are needed: with a duplicate id, the pending order's Reject
   * button also overwrites the confirmed twin.
   */
  lemma DuplicateIdOverwritesTerminal()
    ensures IssuedByOrderCard(TwinOrders(), AdminOrderCard.StatusUpdate("ord-x", OrderStatus.Rejected))
    ensures TwinOrders()[1].status == OrderStatus.Confirmed
    ensures ApplyOrderUpdate(TwinOrders(), AdminOrderCard.StatusUpdate("ord-x", OrderStatus.Rejected))[1].status
            == OrderStatus.Rejected
  {
  }

  // ----- reviews -----

  function ApplyReviewUpdate(rs: seq<Review>, u: AdminReviewCard.StatusUpdate): seq<Review>
  {
    SetReviewStatus(rs, u.id, u.status)
  }

  ghost predicate IssuedByReviewCard(rs: seq<Review>, u: AdminReviewCard.StatusUpdate)
  {
    exists i :: 0 <= i < |rs| && u in AdminReviewCard.Actions(rs[i])
  }

  ghost predicate ReviewStepAllowed(before: Review, after: Review)
  {
    && after.(status := before.status) == before
    && (after.status == before.status || (before.status.Pending? && after.status.IsTerminal()))
  }

  lemma ReviewCardStep(rs: seq<Review>, u: AdminReviewCard.StatusUpdate)
    requires DistinctReviewIds(rs) && IssuedByReviewCard(rs, u)
    ensures DistinctReviewIds(ApplyReviewUpdate(rs, u))
    ensures forall i :: 0 <= i < |rs| ==> ReviewStepAllowed(rs[i], ApplyReviewUpdate(rs, u)[i])
    ensures forall i, j :: 0 <= i < j < |rs| ==> ApplyReviewUpdate(rs, u)[i] == rs[i] || ApplyReviewUpdate(rs, u)[j] == rs[j]
  {
  }

  /** What can happen to the review list: a customer submits a review, or an admin clicks a card button. */
  datatype ReviewEvent =
    | SubmitReview(data: ReviewData, suffix: string, now: int)
    | ClickReview(u: AdminReviewCard.StatusUpdate)

  function ApplyReviewEvent(rs: seq<Review>, e: ReviewEvent): seq<Review>
  {
    match e
    case SubmitReview(data, suffix, now) => [NewReview(data, ReviewId(suffix), now)] + rs
    case ClickReview(u) => ApplyReviewUpdate(rs, u)
  }

  ghost predicate ReviewEventAllowed(rs: seq<Review>, e: ReviewEvent)
  {
    match e
    case SubmitReview(_, suffix, _) => ReviewId(suffix) !in ReviewIds(rs)
    case ClickReview(u) => IssuedByReviewCard(rs, u)
  }

  function RunReviews(rs: seq<Review>, es: seq<ReviewEvent>): seq<Review>
    decreases |es|
  {
    if es == [] then rs else RunReviews(ApplyReviewEvent(rs, es[0]), es[1..])
  }

  ghost predicate ReviewTrace(rs: seq<Review>, es: seq<ReviewEvent>)
    decreases |es|
  {
    es == [] || (ReviewEventAllowed(rs, es[0]) && ReviewTrace(ApplyReviewEvent(rs, es[0]), es[1..]))
  }

  function ReviewChanges(rs: seq<Review>, es: seq<ReviewEvent>, id: string): nat
    decreases |es|
  {
    if es == [] then 0
    else
      var next := ApplyReviewEvent(rs, es[0]);
      (if FindReview(rs, id).Some? && FindReview(next, id) != FindReview(rs, id) then 1 else 0)
      + ReviewChanges(next, es[1..], id)
  }

  lemma ReviewEventStep(rs: seq<Review>, e: ReviewEvent, id: string)
    requires DistinctReviewIds(rs) && ReviewEventAllowed(rs, e)
    ensures DistinctReviewIds(ApplyReviewEvent(rs, e))
    ensures FindReview(rs, id).Some? ==>
      && FindReview(ApplyReviewEvent(rs, e), id).Some?
      && ReviewStepAllowed(FindReview(rs, id).value, FindReview(ApplyReviewEvent(rs, e), id).value)
    ensures FindReview(rs, id).Some? && FindReview(rs, id).value.status.IsTerminal() ==>
      FindReview(ApplyReviewEvent(rs, e), id) == FindReview(rs, id)
    ensures FindReview(rs, id).None? ==>
      FindReview(ApplyReviewEvent(rs, e), id).None? || FindReview(ApplyReviewEvent(rs, e), id).value.status.Pending?
  {
    match e
    case SubmitReview(data, suffix, now) =>
      var r := NewReview(data, ReviewId(suffix), now);
      PrependReviewKeepsIdsDistinct(r, rs);
      FindReviewPrepend(r, rs, id);
    case ClickReview(u) =>
      ReviewCardStep(rs, u);
      if u.id == id {
        FindAfterSetReviewStatus(rs, id, u.status);
        var i :| 0 <= i < |rs| && u in AdminReviewCard.Actions(rs[i]);
        FindReviewDistinct(rs, i);
      } else {
        FindOtherAfterSetReviewStatus(rs, u.id, id, u.status);
      }
  }

  lemma {:induction false} TerminalReviewStaysFixed(rs: seq<Review>, es: seq<ReviewEvent>, id: string)
    requires DistinctReviewIds(rs) && ReviewTrace(rs, es)
    requires FindReview(rs, id).Some? && FindReview(rs, id).value.status.IsTerminal()
    ensures FindReview(RunReviews(rs, es), id) == FindReview(rs, id)
    ensures ReviewChanges(rs, es, id) == 0
    decreases |es|
  {
    if es != [] {
      ReviewEventStep(rs, es[0], id);
      TerminalReviewStaysFixed(ApplyReviewEvent(rs, es[0]), es[1..], id);
    }
  }

  lemma {:induction false} ReviewStatusChangesAtMostOnce(rs: seq<Review>, es: seq<ReviewEvent>, id: string)
    requires DistinctReviewIds(rs) && ReviewTrace(rs, es)
    ensures ReviewChanges(rs, es, id) <= 1
    ensures FindReview(rs, id).Some? ==>
      && FindReview(RunReviews(rs, es), id).Some?
      && ReviewStepAllowed(FindReview(rs, id).value, FindReview(RunReviews(rs, es), id).value)
    decreases |es|
  {
    if es != [] {
      var next := ApplyReviewEvent(rs, es[0]);
      ReviewEventStep(rs, es[0], id);
      if FindReview(rs, id).Some? && FindReview(next, id) != FindReview(rs, id) {
        TerminalReviewStaysFixed(next, es[1..], id);
      } else {
        ReviewStatusChangesAtMostOnce(next, es[1..], id);
      }
    }
  }

  /** A click on button `k` of the card of the review at position `i`. */
  method ClickReviewAction(store: Store, i: nat, k: nat)
    requires store.Valid() && i < |store.reviews| && k < |AdminReviewCard.Actions(store.reviews[i])|
    modifies store`reviews
    ensures store.Valid()
    ensures store.reviews == ApplyReviewUpdate(old(store.reviews), AdminReviewCard.Actions(old(store.reviews)[i])[k])
    ensures old(store.reviews)[i].status.Pending? && store.reviews[i].status.IsTerminal()
    ensures forall j :: 0 <= j < |store.reviews| && j != i ==> store.reviews[j] == old(store.reviews)[j]
  {
    var u := AdminReviewCard.Actions(store.reviews[i])[k];
    ghost var before := store.reviews;
    store.UpdateReviewStatus(u.id, u.status);
    assert IssuedByReviewCard(before, u);
    ReviewCardStep(before, u);
    SetReviewStatusMatching(before, u.id, u.status, i);
    forall j | 0 <= j < |before| && j != i ensures store.reviews[j] == before[j] {
      SetReviewStatusOthers(before, u.id, u.status, j);
    }
  }
}
