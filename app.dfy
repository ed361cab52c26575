/**
 * The in-memory store of the storefront: two newest-first lists, one of
 * orders and one of reviews, and the five operations on them.  The list
 * transforms are pure functions; the store itself is a class whose two
 * fields each operation replaces.
 */
module App {
  import opened Common
  import opened Types

  /** The placeholder e-mail address every new order carries. */
  const CustomerEmail: string := "customer@example.com"

  /** The id of a new order, from the random suffix the id generator supplies. */
  function OrderId(suffix: string): string
  {
    "ord-" + suffix
  }

  /** The id of a new review, from the random suffix the id generator supplies. */
  function ReviewId(suffix: string): string
  {
    "rev-" + suffix
  }

  /** The two orders the store starts with; `now` is the page's load time in milliseconds. */
  function InitialOrders(now: int): seq<Order>
  {
    [ Order("ord-1689374", 1, "555-0101", "White", "jane.doe@example.com",
            OrderStatus.Pending, now - 1000 * 60 * 5),
      Order("ord-9438210", 2, "555-0102", "Classic Cream", "john.smith@example.com",
            OrderStatus.Confirmed, now - 1000 * 60 * 60 * 2) ]
  }

  /** The two reviews the store starts with. */
  function InitialReviews(now: int): seq<Review>
  {
    [ Review("rev-1", "Alex Johnson", 5,
             "This is the best clothesline I have ever owned. The retractable feature is a lifesaver for my small balcony. Super sturdy and looks great!",
             ReviewStatus.Approved, now - 1000 * 60 * 60 * 24 * 2),
      Review("rev-2", "Maria Garcia", 4,
             "Great product! Installation was straightforward. My only wish is that it came in more colors. Otherwise, it works perfectly.",
             ReviewStatus.Approved, now - 1000 * 60 * 60 * 24 * 5) ]
  }

  function OrderIds(os: seq<Order>): set<string>
  {
    set o | o in os :: o.id
  }

  function ReviewIds(rs: seq<Review>): set<string>
  {
    set r | r in rs :: r.id
  }

  ghost predicate DistinctOrderIds(os: seq<Order>)
  {
    forall i, j :: 0 <= i < j < |os| ==> os[i].id != os[j].id
  }

  ghost predicate DistinctReviewIds(rs: seq<Review>)
  {
    forall i, j :: 0 <= i < j < |rs| ==> rs[i].id != rs[j].id
  }

  /** The seed holds two orders and two reviews, with distinct ids in each list. */
  lemma SeedWellFormed(now: int)
    ensures |InitialOrders(now)| == 2 && DistinctOrderIds(InitialOrders(now))
    ensures |InitialReviews(now)| == 2 && DistinctReviewIds(InitialReviews(now))
  {
    var os, rs := InitialOrders(now), InitialReviews(now);
    assert os[0].id[4] == '1' && os[1].id[4] == '9';
    assert rs[0].id[4] == '1' && rs[1].id[4] == '2';
  }

  /** The order `addOrder` builds: the form's fields, a fresh id, status PENDING. */
  function NewOrder(data: OrderData, id: string, now: int): Order
  {
    Order(id, data.quantity, data.phoneNumber, data.color, CustomerEmail, OrderStatus.Pending, now)
  }

  /** The review `addReview` builds: the form's fields, a fresh id, status PENDING. */
  function NewReview(data: ReviewData, id: string, now: int): Review
  {
    Review(id, data.name, data.rating, data.comment, ReviewStatus.Pending, now)
  }

  /** Putting an order with a fresh id in front keeps the ids distinct. */
  lemma PrependOrderKeepsIdsDistinct(o: Order, os: seq<Order>)
    requires DistinctOrderIds(os) && o.id !in OrderIds(os)
    ensures DistinctOrderIds([o] + os)
  {
  }

  /** Putting a review with a fresh id in front keeps the ids distinct. */
  lemma PrependReviewKeepsIdsDistinct(r: Review, rs: seq<Review>)
    requires DistinctReviewIds(rs) && r.id !in ReviewIds(rs)
    ensures DistinctReviewIds([r] + rs)
  {
  }

  // ----- updateOrderStatus: a map over the list -----

  /**
   * The list after `updateOrderStatus(id, s)`: every order with that id has
   * status `s`, every other field of every order and every order with another
   * id stay as they were, and length and order are kept.
   */
  function SetOrderStatus(os: seq<Order>, id: string, s: OrderStatus): (r: seq<Order>)
    ensures |r| == |os|
    ensures forall i :: 0 <= i < |os| ==> r[i].(status := os[i].status) == os[i]
    ensures forall i :: 0 <= i < |os| ==> r[i].status == if os[i].id == id then s else os[i].status
  {
    if os == [] then []
    else [if os[0].id == id then os[0].(status := s) else os[0]] + SetOrderStatus(os[1..], id, s)
  }

  /** An update leaves every order with another id exactly as it was. */
  lemma SetOrderStatusOthers(os: seq<Order>, id: string, s: OrderStatus, i: int)
    requires 0 <= i < |os| && os[i].id != id
    ensures SetOrderStatus(os, id, s)[i] == os[i]
  {
  }

  /** The update overwrites the status of a matching order whatever it was: the store has no transition guard. */
  lemma SetOrderStatusMatching(os: seq<Order>, id: string, s: OrderStatus, i: int)
    requires 0 <= i < |os| && os[i].id == id
    ensures SetOrderStatus(os, id, s)[i] == os[i].(status := s)
  {
  }

  /** An update with an id that is not in the list leaves the list identical. */
  lemma SetOrderStatusUnknownId(os: seq<Order>, id: string, s: OrderStatus)
    requires id !in OrderIds(os)
    ensures SetOrderStatus(os, id, s) == os
  {
  }

  /** Ids are never changed by an update, so distinct ids stay distinct. */
  lemma SetOrderStatusKeepsIds(os: seq<Order>, id: string, s: OrderStatus)
    ensures forall i :: 0 <= i < |os| ==> SetOrderStatus(os, id, s)[i].id == os[i].id
    ensures OrderIds(SetOrderStatus(os, id, s)) == OrderIds(os)
    ensures DistinctOrderIds(os) ==> DistinctOrderIds(SetOrderStatus(os, id, s))
  {
  }

  /** The last of two updates to the same id wins; in particular an update is idempotent. */
  lemma SetOrderStatusLastWins(os: seq<Order>, id: string, s1: OrderStatus, s2: OrderStatus)
    ensures SetOrderStatus(SetOrderStatus(os, id, s1), id, s2) == SetOrderStatus(os, id, s2)
  {
  }

  // ----- getOrderById: a find over the list -----

  /** The position of the first order with id `id`, or `|os|` when there is none. */
  function OrderIndex(os: seq<Order>, id: string): (k: nat)
    ensures k <= |os|
    ensures forall j :: 0 <= j < k ==> os[j].id != id
    ensures k < |os| ==> os[k].id == id
  {
    if os == [] then 0
    else if os[0].id == id then 0
    else 1 + OrderIndex(os[1..], id)
  }

  /** `getOrderById`: the first order in list order whose id matches, or None when no order has that id. */
  function FindOrder(os: seq<Order>, id: string): (r: Option<Order>)
    ensures r.None? <==> id !in OrderIds(os)
    ensures r.Some? ==> r.value.id == id
    ensures r.Some? ==> exists k :: 0 <= k < |os| && os[k] == r.value && forall j :: 0 <= j < k ==> os[j].id != id
  {
    var k := OrderIndex(os, id);
    if k < |os| then
      assert os[k] in os;
      Some(os[k])
    else
      assert forall o :: o in os ==> o.id != id by {
        forall o | o in os ensures o.id != id {
          var j :| 0 <= j < |os| && os[j] == o;
        }
      }
      None
  }

  /** Two lists with the same ids in the same places have their first match in the same place. */
  lemma OrderIndexSameIds(a: seq<Order>, b: seq<Order>, id: string)
    requires |a| == |b| && forall i :: 0 <= i < |a| ==> a[i].id == b[i].id
    ensures OrderIndex(a, id) == OrderIndex(b, id)
  {
  }

  /** With distinct ids, looking up an order's id finds that very order. */
  lemma FindOrderDistinct(os: seq<Order>, i: int)
    requires DistinctOrderIds(os) && 0 <= i < |os|
    ensures FindOrder(os, os[i].id) == Some(os[i])
  {
  }

  /** A new order in front hides no other id: only its own id now finds it. */
  lemma FindOrderPrepend(o: Order, os: seq<Order>, id: string)
    ensures FindOrder([o] + os, id) == if o.id == id then Some(o) else FindOrder(os, id)
  {
    assert ([o] + os)[1..] == os;
  }

  /** A lookup after an update sees the update: no stale reads. */
  lemma FindAfterSetOrderStatus(os: seq<Order>, id: string, s: OrderStatus)
    ensures FindOrder(SetOrderStatus(os, id, s), id) ==
      if id in OrderIds(os) then Some(FindOrder(os, id).value.(status := s)) else None
  {
  }

  /** An update to one id does not change what a lookup of another id returns. */
  lemma FindOtherAfterSetOrderStatus(os: seq<Order>, id: string, other: string, s: OrderStatus)
    requires other != id
    ensures FindOrder(SetOrderStatus(os, id, s), other) == FindOrder(os, other)
  {
  }

  // ----- updateReviewStatus: a map over the list -----

  /** The list after `updateReviewStatus(id, s)`; the same shape as SetOrderStatus. */
  function SetReviewStatus(rs: seq<Review>, id: string, s: ReviewStatus): (r: seq<Review>)
    ensures |r| == |rs|
    ensures forall i :: 0 <= i < |rs| ==> r[i].(status := rs[i].status) == rs[i]
    ensures forall i :: 0 <= i < |rs| ==> r[i].status == if rs[i].id == id then s else rs[i].status
  {
    if rs == [] then []
    else [if rs[0].id == id then rs[0].(status := s) else rs[0]] + SetReviewStatus(rs[1..], id, s)
  }

  lemma SetReviewStatusOthers(rs: seq<Review>, id: string, s: ReviewStatus, i: int)
    requires 0 <= i < |rs| && rs[i].id != id
    ensures SetReviewStatus(rs, id, s)[i] == rs[i]
  {
  }

  lemma SetReviewStatusMatching(rs: seq<Review>, id: string, s: ReviewStatus, i: int)
    requires 0 <= i < |rs| && rs[i].id == id
    ensures SetReviewStatus(rs, id, s)[i] == rs[i].(status := s)
  {
  }

  lemma SetReviewStatusUnknownId(rs: seq<Review>, id: string, s: ReviewStatus)
    requires id !in ReviewIds(rs)
    ensures SetReviewStatus(rs, id, s) == rs
  {
  }

  lemma SetReviewStatusKeepsIds(rs: seq<Review>, id: string, s: ReviewStatus)
    ensures forall i :: 0 <= i < |rs| ==> SetReviewStatus(rs, id, s)[i].id == rs[i].id
    ensures DistinctReviewIds(rs) ==> DistinctReviewIds(SetReviewStatus(rs, id, s))
  {
  }

  // ----- following a review by its id -----

  /**
   * The position of the first review with id `id`, or `|rs|`.  The store has
   * no lookup of reviews; this one names the review a card shows for an id.
   */
  function ReviewIndex(rs: seq<Review>, id: string): (k: nat)
    ensures k <= |rs|
    ensures forall j :: 0 <= j < k ==> rs[j].id != id
    ensures k < |rs| ==> rs[k].id == id
  {
    if rs == [] then 0
    else if rs[0].id == id then 0
    else 1 + ReviewIndex(rs[1..], id)
  }

  /** The first review in list order whose id matches, or None when no review has that id. */
  function FindReview(rs: seq<Review>, id: string): (r: Option<Review>)
    ensures r.None? <==> id !in ReviewIds(rs)
    ensures r.Some? ==> r.value.id == id
    ensures r.Some? ==> exists k :: 0 <= k < |rs| && rs[k] == r.value && forall j :: 0 <= j < k ==> rs[j].id != id
  {
    var k := ReviewIndex(rs, id);
    if k < |rs| then
      assert rs[k] in rs;
      Some(rs[k])
    else
      assert forall r :: r in rs ==> r.id != id by {
        forall r | r in rs ensures r.id != id {
          var j :| 0 <= j < |rs| && rs[j] == r;
        }
      }
      None
  }

  lemma FindReviewPrepend(r: Review, rs: seq<Review>, id: string)
    ensures FindReview([r] + rs, id) == if r.id == id then Some(r) else FindReview(rs, id)
  {
    assert ([r] + rs)[1..] == rs;
  }

  lemma FindReviewDistinct(rs: seq<Review>, i: int)
    requires DistinctReviewIds(rs) && 0 <= i < |rs|
    ensures FindReview(rs, rs[i].id) == Some(rs[i])
  {
  }

  lemma FindAfterSetReviewStatus(rs: seq<Review>, id: string, s: ReviewStatus)
    ensures FindReview(SetReviewStatus(rs, id, s), id) ==
      if id in ReviewIds(rs) then Some(FindReview(rs, id).value.(status := s)) else None
  {
  }

  lemma FindOtherAfterSetReviewStatus(rs: seq<Review>, id: string, other: string, s: ReviewStatus)
    requires other != id
    ensures FindReview(SetReviewStatus(rs, id, s), other) == FindReview(rs, other)
  {
  }

  // ----- the store -----

  /** The page-level state container that owns the two lists. */
  class Store {
    var orders: seq<Order>
    var reviews: seq<Review>

    /** Ids are unique within each list. */
    ghost predicate Valid()
      reads this
    {
      DistinctOrderIds(orders) && DistinctReviewIds(reviews)
    }

    /** The store as the page loads it: the seed records. */
    constructor (now: int)
      ensures Valid()
      ensures orders == InitialOrders(now) && reviews == InitialReviews(now)
    {
      orders := InitialOrders(now);
      reviews := InitialReviews(now);
      SeedWellFormed(now);
    }

    /**
     * `addOrder`: prepend a PENDING order built from `data` and return its id.
     * `suffix` stands for the random part of the id; that it is fresh is the
     * id generator's business (the store does not check it).
     */
    method AddOrder(data: OrderData, suffix: string, now: int) returns (id: string)
      requires Valid()
      requires OrderId(suffix) !in OrderIds(orders)
      modifies this`orders
      ensures Valid()
      ensures id == OrderId(suffix) && id !in OrderIds(old(orders))
      ensures orders == [NewOrder(data, id, now)] + old(orders)
      ensures orders[0].status == OrderStatus.Pending && orders[0].userEmail == CustomerEmail
      ensures orders[0].quantity == data.quantity && orders[0].phoneNumber == data.phoneNumber
      ensures orders[0].color == data.color
    {
      id := OrderId(suffix);
      var o := NewOrder(data, id, now);
      PrependOrderKeepsIdsDistinct(o, orders);
      orders := [o] + orders;
    }

    /** `updateOrderStatus`: replace the status of every order with that id. */
    method UpdateOrderStatus(id: string, s: OrderStatus)
      requires Valid()
      modifies this`orders
      ensures Valid()
      ensures orders == SetOrderStatus(old(orders), id, s)
      ensures id !in OrderIds(old(orders)) ==> orders == old(orders)
    {
      SetOrderStatusKeepsIds(orders, id, s);
      if id !in OrderIds(orders) {
        SetOrderStatusUnknownId(orders, id, s);
      }
      orders := SetOrderStatus(orders, id, s);
    }

    /** `getOrderById`: the first order with that id, or None. Changes nothing. */
    method GetOrderById(id: string) returns (r: Option<Order>)
      ensures r == FindOrder(orders, id)
      ensures r.Some? ==> r.value in orders && r.value.id == id
      ensures r.None? <==> id !in OrderIds(orders)
    {
      r := FindOrder(orders, id);
      if r.Some? {
        var k := OrderIndex(orders, id);
        assert orders[k] in orders;
      }
    }

    /** `addReview`: prepend a PENDING review built from `data`. */
    method AddReview(data: ReviewData, suffix: string, now: int)
      requires Valid()
      requires ReviewId(suffix) !in ReviewIds(reviews)
      modifies this`reviews
      ensures Valid()
      ensures reviews == [NewReview(data, ReviewId(suffix), now)] + old(reviews)
      ensures reviews[0].status == ReviewStatus.Pending && reviews[0].name == data.name
      ensures reviews[0].rating == data.rating && reviews[0].comment == data.comment
    {
      var r := NewReview(data, ReviewId(suffix), now);
      PrependReviewKeepsIdsDistinct(r, reviews);
      reviews := [r] + reviews;
    }

    /** `updateReviewStatus`: replace the status of every review with that id. */
    method UpdateReviewStatus(id: string, s: ReviewStatus)
      requires Valid()
      modifies this`reviews
      ensures Valid()
      ensures reviews == SetReviewStatus(old(reviews), id, s)
      ensures id !in ReviewIds(old(reviews)) ==> reviews == old(reviews)
    {
      SetReviewStatusKeepsIds(reviews, id, s);
      if id !in ReviewIds(reviews) {
        SetReviewStatusUnknownId(reviews, id, s);
      }
      reviews := SetReviewStatus(reviews, id, s);
    }
  }
}
