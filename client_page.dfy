/**
 * The client-facing page: order submission through the modal, polling the
 * store for the submitted order's status, the status banner, and the list
 * of approved reviews with the review form.
 */
module ClientPage {
  import opened Common
  import opened Types
  import opened App
  import OrderModal
  import ReviewForm
  import AdminOrderCard
  import Workflow

  /** JavaScript truthiness of `string | null`: neither null nor the empty string. */
  predicate Truthy(id: Option<string>)
  {
    id.Some? && id.value != ""
  }

  // ----- approved reviews -----

  /** `reviews.filter(r => r.status === APPROVED)`. */
  function ApprovedReviews(rs: seq<Review>): (shown: seq<Review>)
    ensures forall r :: r in shown <==> r in rs && r.status.Approved?
    ensures |shown| <= |rs|
  {
    if rs == [] then []
    else (if rs[0].status.Approved? then [rs[0]] else []) + ApprovedReviews(rs[1..])
  }

  /** The filter keeps the original order: it distributes over concatenation. */
  lemma {:induction false} ApprovedReviewsAppend(a: seq<Review>, b: seq<Review>)
    ensures ApprovedReviews(a + b) == ApprovedReviews(a) + ApprovedReviews(b)
  {
    if a == [] {
      assert a + b == b;
    } else {
      assert (a + b)[0] == a[0] && (a + b)[1..] == a[1..] + b;
      ApprovedReviewsAppend(a[1..], b);
    }
  }

  /** A newly added review is PENDING, so it does not change what the page shows. */
  lemma NewReviewHidden(data: ReviewData, id: string, now: int, rs: seq<Review>)
    ensures ApprovedReviews([NewReview(data, id, now)] + rs) == ApprovedReviews(rs)
  {
  }

  /** Once an admin approves a review, the page shows it. */
  lemma ApprovalShowsReview(rs: seq<Review>, i: int)
    requires 0 <= i < |rs|
    ensures rs[i].(status := ReviewStatus.Approved) in
      ApprovedReviews(SetReviewStatus(rs, rs[i].id, ReviewStatus.Approved))
  {
  }

  // ----- polling -----

  /**
   * One poll tick: adopt the looked-up order's status when the order is
   * found and its status differs from the current one; otherwise keep the current one.
   */
  function PollStep(current: Option<OrderStatus>, found: Option<Order>): (next: Option<OrderStatus>)
    ensures next != current <==> found.Some? && current != Some(found.value.status)
    ensures next != current ==> next == Some(found.value.status)
  {
    if found.Some? && Some(found.value.status) != current then Some(found.value.status) else current
  }

  /** After a tick that finds the order, the page holds exactly the store's status for it. */
  lemma PollStepSyncs(current: Option<OrderStatus>, found: Option<Order>)
    requires found.Some?
    ensures PollStep(current, found) == Some(found.value.status)
  {
  }

  /**
   * A poll step over the lookup of a list in which an admin has set a listed
   * order's status yields that status.
   */
  lemma PollObservesUpdate(os: seq<Order>, id: string, s: OrderStatus, current: Option<OrderStatus>)
    requires id in OrderIds(os)
    ensures PollStep(current, FindOrder(SetOrderStatus(os, id, s), id)) == Some(s)
  {
  }

  // ----- the status banner -----

  datatype Banner = Banner(bgColor: string, title: string, message: string)

  /** The banner's title for a status. */
  function StatusTitle(s: OrderStatus): string
  {
    match s
    case Pending => "Order Received!"
    case Confirmed => "Order Confirmed!"
    case Rejected => "Order Update"
  }

  /** The banner for a status: colours, title and message. */
  function BannerFor(s: OrderStatus): Banner
  {
    match s
    case Pending =>
      Banner("bg-yellow-100 border-yellow-500 text-yellow-800", StatusTitle(s),
        "Your order is pending confirmation. We will review it shortly.")
    case Confirmed =>
      Banner("bg-green-100 border-green-500 text-green-800", StatusTitle(s),
        "Great news! Your order has been confirmed. We will call you soon to arrange delivery.")
    case Rejected =>
      Banner("bg-red-100 border-red-500 text-red-800", StatusTitle(s),
        "Unfortunately, we were unable to process your order at this time. Please contact support for more information.")
  }

  /** `getStatusMessage`: nothing without a status, otherwise the banner for it. */
  function StatusMessage(status: Option<OrderStatus>): (b: Option<Banner>)
    ensures b.None? <==> status.None?
    ensures b.Some? ==> b.value.title == StatusTitle(status.value)
  {
    if status.None? then None else Some(BannerFor(status.value))
  }

  /** Each status has its own title. */
  lemma StatusTitles(a: OrderStatus, b: OrderStatus)
    ensures StatusTitle(OrderStatus.Pending) == "Order Received!"
    ensures StatusTitle(OrderStatus.Confirmed) == "Order Confirmed!"
    ensures StatusTitle(OrderStatus.Rejected) == "Order Update"
    ensures StatusTitle(a) == StatusTitle(b) <==> a == b
  {
  }

  /** The banner is shown only once an order has been submitted. */
  function DisplayedBanner(submittedOrderId: Option<string>, status: Option<OrderStatus>): (b: Option<Banner>)
    ensures b.Some? <==> Truthy(submittedOrderId) && status.Some?
    ensures Truthy(submittedOrderId) ==> b == StatusMessage(status)
  {
    if Truthy(submittedOrderId) then StatusMessage(status) else None
  }

  // ----- the page -----

  class Page {
    const store: Store
    const modal: OrderModal.Form
    const reviewForm: ReviewForm.Form
    var isModalOpen: bool
    var submittedOrderId: Option<string>
    var orderStatus: Option<OrderStatus>

    ghost predicate Valid()
      reads this, store, modal, reviewForm
    {
      store.Valid() && modal.Valid() && reviewForm.Valid()
    }

    /** The page as first rendered over `store`: no order submitted, modal closed, empty forms. */
    constructor (store: Store)
      requires store.Valid()
      ensures Valid() && this.store == store
      ensures fresh(modal) && fresh(reviewForm)
      ensures !isModalOpen && submittedOrderId == None && orderStatus == None
      ensures modal.quantity == 1 && modal.phoneNumber == "" && modal.color == "White"
      ensures reviewForm.name == "" && reviewForm.rating == 0 && reviewForm.comment == ""
    {
      this.store := store;
      modal := new OrderModal.Form();
      reviewForm := new ReviewForm.Form();
      isModalOpen := false;
      submittedOrderId := None;
      orderStatus := None;
    }

    /**
     * The page mounted again with the order tracking handed back to it: the
     * corrected design, in which the submitted id and the shown status are
     * kept beside the store and so survive a change of route.
     */
    constructor Resume(store: Store, submittedOrderId: Option<string>, orderStatus: Option<OrderStatus>)
      requires store.Valid()
      ensures Valid() && this.store == store
      ensures fresh(modal) && fresh(reviewForm)
      ensures !isModalOpen && this.submittedOrderId == submittedOrderId && this.orderStatus == orderStatus
    {
      this.store := store;
      modal := new OrderModal.Form();
      reviewForm := new ReviewForm.Form();
      isModalOpen := false;
      this.submittedOrderId := submittedOrderId;
      this.orderStatus := orderStatus;
    }

    /** The hero's order button. */
    method OpenOrderModal()
      modifies this`isModalOpen
      ensures isModalOpen
    {
      isModalOpen := true;
    }

    /** The modal's close button and backdrop. */
    method CloseOrderModal()
      modifies this`isModalOpen
      ensures !isModalOpen
    {
      isModalOpen := false;
    }

    /**
     * `handleOrderSubmit`: add the order, remember its id, show it as PENDING
     * and close the modal.
     */
    method HandleOrderSubmit(data: OrderData, suffix: string, now: int)
      requires Valid()
      requires OrderId(suffix) !in OrderIds(store.orders)
      modifies this`submittedOrderId, this`orderStatus, this`isModalOpen, store`orders
      ensures Valid()
      ensures store.orders == [NewOrder(data, OrderId(suffix), now)] + old(store.orders)
      ensures submittedOrderId == Some(OrderId(suffix)) && orderStatus == Some(OrderStatus.Pending)
      ensures !isModalOpen
    {
      var newId := store.AddOrder(data, suffix, now);
      submittedOrderId := Some(newId);
      orderStatus := Some(OrderStatus.Pending);
      isModalOpen := false;
    }

    /**
     * A submit of the open modal: the form's check, then `handleOrderSubmit`
     * when it passes.  A rejected number leaves the store and the page as they were.
     */
    method SubmitOrderForm(suffix: string, now: int)
      requires Valid() && isModalOpen
      requires OrderId(suffix) !in OrderIds(store.orders)
      modifies this`submittedOrderId, this`orderStatus, this`isModalOpen, store`orders, modal`error
      ensures Valid()
      ensures OrderModal.PhoneAccepted(modal.phoneNumber) ==>
        && store.orders == [NewOrder(OrderData(modal.quantity, modal.phoneNumber, modal.color), OrderId(suffix), now)] + old(store.orders)
        && submittedOrderId == Some(OrderId(suffix)) && orderStatus == Some(OrderStatus.Pending) && !isModalOpen
        && modal.error == ""
      ensures !OrderModal.PhoneAccepted(modal.phoneNumber) ==>
        && store.orders == old(store.orders) && modal.error == OrderModal.PhoneError
        && submittedOrderId == old(submittedOrderId) && orderStatus == old(orderStatus) && isModalOpen
    {
      var sent := modal.HandleSubmit();
      if sent.Some? {
        HandleOrderSubmit(sent.value, suffix, now);
      }
    }

    /** The body of the polling interval; no interval runs without a submitted order id. */
    method PollTick()
      requires Valid()
      modifies this`orderStatus
      ensures !Truthy(submittedOrderId) ==> orderStatus == old(orderStatus)
      ensures Truthy(submittedOrderId) ==>
        orderStatus == PollStep(old(orderStatus), FindOrder(store.orders, submittedOrderId.value))
    {
      if !Truthy(submittedOrderId) {
        return;
      }
      var order := store.GetOrderById(submittedOrderId.value);
      if order.Some? && Some(order.value.status) != orderStatus {
        orderStatus := Some(order.value.status);
      }
    }

    /**
     * A submit of the review form, whose `onSubmit` is the store's `addReview`.
     * The new review is PENDING, so the approved list the page shows is unchanged.
     */
    method SubmitReview(suffix: string, now: int)
      requires Valid()
      requires ReviewId(suffix) !in ReviewIds(store.reviews)
      modifies store`reviews
      modifies reviewForm`name, reviewForm`rating, reviewForm`comment, reviewForm`error, reviewForm`submitted
      ensures Valid()
      ensures ApprovedReviews(store.reviews) == ApprovedReviews(old(store.reviews))
      ensures old(reviewForm.name) != "" && old(reviewForm.rating) != 0 && old(reviewForm.comment) != "" ==>
        && store.reviews == [NewReview(ReviewData(old(reviewForm.name), old(reviewForm.rating), old(reviewForm.comment)),
                                       ReviewId(suffix), now)] + old(store.reviews)
        && reviewForm.name == "" && reviewForm.rating == 0 && reviewForm.comment == ""
        && reviewForm.error == "" && reviewForm.submitted
      ensures !(old(reviewForm.name) != "" && old(reviewForm.rating) != 0 && old(reviewForm.comment) != "") ==>
        && store.reviews == old(store.reviews)
        && reviewForm.error == ReviewForm.ReviewError && reviewForm.submitted == old(reviewForm.submitted)
        && reviewForm.name == old(reviewForm.name) && reviewForm.rating == old(reviewForm.rating)
        && reviewForm.comment == old(reviewForm.comment)
    {
      var sent := reviewForm.HandleSubmit();
      if sent.Some? {
        store.AddReview(sent.value, suffix, now);
        NewReviewHidden(sent.value, ReviewId(suffix), now, old(store.reviews));
      }
    }
  }

  /** The order data of the sample round trip: the form's defaults and a valid number. */
  const SampleOrder: OrderData := OrderData(1, "555-9999", "White")

  /**
   * The customer's half of a round trip, on the page as first rendered: open
   * the modal, type a valid number and submit.  Returns the order tracking
   * the page then holds.
   */
  method PlaceSampleOrder(store: Store, suffix: string, now: int)
    returns (submittedOrderId: Option<string>, orderStatus: Option<OrderStatus>)
    requires store.Valid() && OrderId(suffix) !in OrderIds(store.orders)
    modifies store`orders
    ensures store.Valid()
    ensures store.orders == [NewOrder(SampleOrder, OrderId(suffix), now)] + old(store.orders)
    ensures submittedOrderId == Some(OrderId(suffix)) && orderStatus == Some(OrderStatus.Pending)
  {
    var page := new Page(store);
    page.OpenOrderModal();
    page.modal.ChangePhoneNumber("555-9999");
    OrderModal.SamplePhoneAccepted();
    page.SubmitOrderForm(suffix, now);
    submittedOrderId, orderStatus := page.submittedOrderId, page.orderStatus;
  }

  /** The admin's half, on the dashboard: Confirm on the card of the newest order. */
  method ConfirmNewest(store: Store)
    requires store.Valid() && |store.orders| > 0 && store.orders[0].status.Pending?
    modifies store`orders
    ensures store.Valid()
    ensures store.orders ==
      Workflow.ApplyOrderUpdate(old(store.orders), AdminOrderCard.StatusUpdate(old(store.orders)[0].id, OrderStatus.Confirmed))
  {
    assert AdminOrderCard.Actions(store.orders[0])[1] == AdminOrderCard.StatusUpdate(store.orders[0].id, OrderStatus.Confirmed);
    Workflow.ClickOrderAction(store, 0, 1);
  }

  /**
   * A round trip as the program runs it.  The dashboard is another route, so
   * the page that placed the order is unmounted and its tracking is lost;
   * back on the home route a fresh page holds no submitted id, so it shows no
   * banner and its polling does nothing, although the store holds the
   * confirmed order.
   */
  method OrderRoundTripAsWritten(store: Store, suffix: string, now: int)
    returns (seen: Option<OrderStatus>, banner: Option<Banner>)
    requires store.Valid() && OrderId(suffix) !in OrderIds(store.orders)
    modifies store`orders
    ensures store.orders == Workflow.ApplyOrderUpdate([NewOrder(SampleOrder, OrderId(suffix), now)] + old(store.orders),
                                                      AdminOrderCard.StatusUpdate(OrderId(suffix), OrderStatus.Confirmed))
    ensures store.orders[0].status == OrderStatus.Confirmed
    ensures seen == None && banner == None
  {
    var lostId, lostStatus := PlaceSampleOrder(store, suffix, now);
    ConfirmNewest(store);
    var back := new Page(store);
    back.PollTick();
    seen := back.orderStatus;
    banner := DisplayedBanner(back.submittedOrderId, back.orderStatus);
  }

  /**
   * The round trip as intended: the tracking survives the change of route
   * and is handed to the page when it mounts again, so its next tick shows
   * CONFIRMED with the confirmation banner.
   */
  method OrderRoundTrip(store: Store, suffix: string, now: int)
    returns (seen: Option<OrderStatus>, banner: Option<Banner>)
    requires store.Valid() && OrderId(suffix) !in OrderIds(store.orders)
    modifies store`orders
    ensures store.orders == Workflow.ApplyOrderUpdate([NewOrder(SampleOrder, OrderId(suffix), now)] + old(store.orders),
                                                      AdminOrderCard.StatusUpdate(OrderId(suffix), OrderStatus.Confirmed))
    ensures seen == Some(OrderStatus.Confirmed)
    ensures banner.Some? && banner.value.title == StatusTitle(OrderStatus.Confirmed)
  {
    var keptId, keptStatus := PlaceSampleOrder(store, suffix, now);
    ConfirmNewest(store);
    var back := new Page.Resume(store, keptId, keptStatus);
    assert OrderId(suffix)[0] == 'o';
    FindOrderDistinct(store.orders, 0);
    back.PollTick();
    seen := back.orderStatus;
    banner := DisplayedBanner(back.submittedOrderId, back.orderStatus);
  }
}
