# Velora storefront: order/review store and status workflow, in Dafny

This project models the logic of a small storefront: an in-memory store
that holds two newest-first lists, one of orders and one of reviews. Customers
add orders and reviews through two forms. Admins move each item from PENDING
to a terminal status (CONFIRMED or REJECTED for orders, APPROVED or REJECTED
for reviews) from cards on a dashboard. The client page polls the store for
the status of the order it submitted, and it shows only approved reviews.

Modules follow the source files:

- `Types` (`types.dfy`): the two status enums and the `Order` and `Review` records.
- `App` (`app.dfy`): the seed data and the pure list transforms (prepend, status-replacing map, first-match find). It also holds class `Store` with its two `seq` fields: four of the five store operations replace one of them, and `GetOrderById` only reads.
- `OrderModal` (`order_modal.dfy`): the phone-number pattern and length check, and the quantity clamp. Class `Form` holds the form state.
- `ReviewForm` (`review_form.dfy`): the star highlight rule. Class `Form` holds the form state, with the completeness check and the reset.
- `ClientPage` (`client_page.dfy`): the approved-review filter, the poll step and the status banner. Class `Page` holds the page state (modal open, submitted id, shown status).
- `AdminOrderCard` and `AdminReviewCard`: the badge mappings and the PENDING-gated actions. The review card also has the five-star display.
- `Workflow` (`workflow.dfy`): card clicks applied to the store, and the theorem about them. The store's history is a sequence of events: a customer adds an item with a fresh id, or an admin clicks a card button. If ids start distinct, the item with a given id changes at most once, and only its status, from PENDING to a terminal status. A terminal status never changes again.
- `Common` (`common.dfy`): `Option`, `Clamp` and a count of set slots in a row of stars.

The store does not guard transitions. `SetOrderStatus` overwrites any status, terminal ones included. Only the cards enforce the workflow, and they do so only while ids are distinct.

The phone check tests every character as well as the length: a number is accepted when every character is a digit, `-`, `+`, JavaScript white space, `(` or `)`, and when it has at least 7 characters.

The store accepts any rating and any comment. Only the review form insists on a rating in 1..5 and non-empty fields.

The client page keeps the id of the order it submitted, and the status it shows, in its own state. The admin dashboard is another route, so the page is unmounted while an admin confirms, and the customer never sees the confirmation (see "## Findings").

## Model

| member | source | states |
|---|---|---|
| Types.OrderStatusValues | types.ts:1-5 | OrderStatus has exactly the three values PENDING, CONFIRMED, REJECTED, and their string values tell them apart |
| Types.ReviewStatusValues | types.ts:7-11 | ReviewStatus has exactly the three values PENDING, APPROVED, REJECTED, and their string values tell them apart |
| Types.SharedStatusNames | types.ts:1-11 | an order status and a review status have the same string value iff both are PENDING or both are REJECTED |
| App.SeedWellFormed | App.tsx:12-50 | the seed holds two orders and two reviews, with pairwise distinct ids in each list |
| App.InitialOrders | App.tsx:12-31 | the two seed orders: ord-1689374 (1 White, PENDING, five minutes old) and ord-9438210 (2 Classic Cream, CONFIRMED, two hours old) |
| App.InitialReviews | App.tsx:33-50 | the two seed reviews: rev-1 (Alex Johnson, 5 stars) and rev-2 (Maria Garcia, 4 stars), both APPROVED, two and five days old |
| App.NewOrder | App.tsx:57-63 | the order addOrder builds: the form's quantity, phone and colour, the given id, status PENDING, the placeholder e-mail, created now |
| App.NewReview | App.tsx:81-86 | the review addReview builds: the form's name, rating and comment, the given id, status PENDING, created now |
| App.PrependOrderKeepsIdsDistinct | App.tsx:56-65 | prepending an order whose id is not yet in the list keeps the ids distinct |
| App.PrependReviewKeepsIdsDistinct | App.tsx:80-87 | prepending a review whose id is not yet in the list keeps the ids distinct |
| App.SetOrderStatus | App.tsx:68-74 | updateOrderStatus keeps length and order; every order with the id gets the new status; no other field and no other order's status changes |
| App.SetOrderStatusOthers | App.tsx:71 | an order with another id is left exactly as it was |
| App.SetOrderStatusMatching | App.tsx:68-74 | an order with the id gets the new status whatever its current status was: the store has no transition guard |
| App.SetOrderStatusUnknownId | App.tsx:69-72 | an update with an id not in the list leaves the list identical |
| App.SetOrderStatusKeepsIds | App.tsx:68-74 | an update changes no id, so the set of ids and their distinctness are kept |
| App.SetOrderStatusLastWins | App.tsx:68-74 | of two updates to the same id the last one wins; in particular an update is idempotent |
| App.OrderIndex | App.tsx:76-78 | the position of the first order with the id (none before it matches), or the list's length when none matches |
| App.FindOrder | App.tsx:76-78 | getOrderById yields None exactly when no order has the id; otherwise it yields the first order in list order with that id |
| App.OrderIndexSameIds | App.tsx:77 | two lists with the same ids at the same positions have their first match at the same position |
| App.FindOrderDistinct | App.tsx:76-78 | with distinct ids, looking up an order's id yields that very order |
| App.FindAfterSetOrderStatus | App.tsx:68-78 | a lookup after an update sees the new status, and sees the id exactly when it was listed before (no stale read) |
| App.FindOrderPrepend | App.tsx:64-78 | after an order is prepended, a lookup of its id finds it and a lookup of any other id is unchanged |
| App.FindOtherAfterSetOrderStatus | App.tsx:68-78 | an update to one id does not change the lookup of any other id |
| App.SetReviewStatus | App.tsx:90-96 | updateReviewStatus keeps length and order; every review with the id gets the new status; nothing else changes |
| App.SetReviewStatusOthers | App.tsx:93 | a review with another id is left exactly as it was |
| App.SetReviewStatusMatching | App.tsx:90-96 | a review with the id gets the new status whatever its current status was |
| App.SetReviewStatusUnknownId | App.tsx:91-94 | an update with an id not in the list leaves the list identical |
| App.SetReviewStatusKeepsIds | App.tsx:90-96 | an update changes no id, so distinct ids stay distinct |
| App.ReviewIndex | App.tsx:92-94 | the position of the first review with the id (none before it matches), or the list's length; the store itself has no review lookup, this names the review an id denotes |
| App.FindReview | App.tsx:92-94 | the review an id denotes: None exactly when no review has the id, otherwise the first review in list order with it |
| App.FindReviewPrepend | App.tsx:87-94 | after a review is prepended, a lookup of its id finds it and a lookup of any other id is unchanged |
| App.FindReviewDistinct | App.tsx:92-94 | with distinct ids, looking up a review's id yields that very review |
| App.FindAfterSetReviewStatus | App.tsx:90-96 | a lookup after an update sees the new status, and sees the id exactly when it was listed before |
| App.FindOtherAfterSetReviewStatus | App.tsx:90-96 | an update to one id does not change the lookup of any other id |
| App.Store.constructor | App.tsx:53-54 | the store starts with the seed lists, with distinct ids |
| App.Store.AddOrder | App.tsx:56-66 | prepends a PENDING order with the placeholder e-mail and the input's quantity, phone and colour, and returns its new "ord-" id; the old orders follow unchanged |
| App.Store.UpdateOrderStatus | App.tsx:68-74 | the order list becomes SetOrderStatus of the old list; an unknown id leaves it unchanged; reviews are untouched |
| App.Store.GetOrderById | App.tsx:76-78 | returns FindOrder of the current list: a listed order with the id, or None exactly when the id is absent |
| App.Store.AddReview | App.tsx:80-88 | prepends a PENDING review with a new "rev-" id and the input's name, rating and comment; the old reviews follow unchanged |
| App.Store.UpdateReviewStatus | App.tsx:90-96 | the review list becomes SetReviewStatus of the old list; an unknown id leaves it unchanged |
| OrderModal.MatchesPhonePattern | components/OrderModal.tsx:20 | the regular expression `^[0-9-+\s()]*$` matches iff every character is in the class |
| OrderModal.PhoneAccepted | components/OrderModal.tsx:20 | the full submit condition: the number matches the pattern and has at least 7 characters (its meaning is stated by PhoneAcceptedIff) |
| OrderModal.PhoneAcceptedIff | components/OrderModal.tsx:20 | a number is accepted iff it has at least 7 characters and every character is in the class |
| OrderModal.EmptyPhoneRejected | components/OrderModal.tsx:20 | the empty string passes the pattern but fails the length check |
| OrderModal.ForeignCharRejected | components/OrderModal.tsx:20 | one character outside the class rejects a number of any length |
| OrderModal.SamplePhoneAccepted | components/OrderModal.tsx:20 | "555-9999" is accepted |
| OrderModal.ClampQuantity | components/OrderModal.tsx:40 | Math.max(1, v): at least 1, at least v, and equal to v or to 1 |
| OrderModal.Form.constructor | components/OrderModal.tsx:11-14 | the form starts with quantity 1, an empty number, colour White and no error |
| OrderModal.Form.ChangeQuantity | components/OrderModal.tsx:40 | the stored quantity is the clamped input, so it stays at least 1 |
| OrderModal.Form.ChangePhoneNumber | components/OrderModal.tsx:52 | the number is stored as typed |
| OrderModal.Form.ChangeColor | components/OrderModal.tsx:60-68 | the colour becomes the chosen option, one of White, Classic Cream, Woodland Gray |
| OrderModal.Form.HandleSubmit | components/OrderModal.tsx:18-26 | sends exactly {quantity, phoneNumber, color} and clears the error iff the number is accepted; otherwise sets the error and sends nothing |
| ReviewForm.StarRowCount | components/ReviewForm.tsx:13-18 | the widget lights exactly as many stars as the hovered rating, or the chosen rating when nothing is hovered, cut off at 0 and 5; lit stars come first |
| ReviewForm.StarHighlighted | components/ReviewForm.tsx:18 | star `star` is lit iff the hovered rating, or the chosen rating when nothing is hovered (hover 0), is at least `star` |
| ReviewForm.StarRow | components/ReviewForm.tsx:13-18 | the widget's five stars, left to right, each lit by StarHighlighted; the row has exactly five entries |
| ReviewForm.Form.constructor | components/ReviewForm.tsx:32-36 | the form starts empty, with rating 0, no error and no thank-you message |
| ReviewForm.Form.ChangeName | components/ReviewForm.tsx:70 | the name is stored as typed |
| ReviewForm.Form.ChangeComment | components/ReviewForm.tsx:85 | the comment is stored as typed |
| ReviewForm.Form.SelectRating | components/ReviewForm.tsx:13-20 | a click on star 1..5 sets the rating to that star |
| ReviewForm.Form.HandleSubmit | components/ReviewForm.tsx:38-53 | rejects with the error iff name is empty, rating is 0 or comment is empty; otherwise sends exactly {name, rating, comment} with rating in 1..5, clears the error, resets the fields and sets submitted |
| AdminOrderCard.BadgeClassesDistinct | components/AdminOrderCard.tsx:9-20 | the badge mapping gives the three order statuses three different classes |
| AdminOrderCard.BadgeClasses | components/AdminOrderCard.tsx:9-20 | getStatusBadgeClasses: yellow for PENDING, green for CONFIRMED, red for REJECTED (distinct, by BadgeClassesDistinct) |
| AdminOrderCard.Actions | components/AdminOrderCard.tsx:55-69 | the card offers actions iff the order is PENDING; each targets the card's own id with a terminal status; Reject and Confirm are both offered |
| AdminReviewCard.BadgeClassesDistinct | components/AdminReviewCard.tsx:9-20 | the badge mapping gives the three review statuses three different classes |
| AdminReviewCard.BadgeClasses | components/AdminReviewCard.tsx:9-20 | getStatusBadgeClasses: yellow for PENDING, green for APPROVED, red for REJECTED (distinct, by BadgeClassesDistinct) |
| AdminReviewCard.Actions | components/AdminReviewCard.tsx:63-77 | the card offers actions iff the review is PENDING; each targets the card's own id with a terminal status; Reject and Approve are both offered |
| AdminReviewCard.StarDisplay | components/AdminReviewCard.tsx:22-36 | the display has exactly five stars |
| AdminReviewCard.StarDisplayCount | components/AdminReviewCard.tsx:24-27 | exactly `rating` stars are filled for ratings 0..5 (none below, five above), and the filled stars come first |
| Workflow.OrderCardStep | components/AdminOrderCard.tsx:55-69 | a card-issued update on a list with distinct ids changes at most one order, only its status, and only from PENDING to terminal; ids stay distinct |
| Workflow.OrderEventStep | App.tsx:56-74 | one added order with a fresh id, or one card-issued update, keeps ids distinct; followed by its id, a listed order stays listed and changes only its status from PENDING to terminal, not at all when terminal; an unlisted id stays unlisted or arrives PENDING |
| Workflow.TerminalOrderStaysFixed | components/AdminOrderCard.tsx:55-69 | under any sequence of added orders with fresh ids and card-issued updates, an order with a terminal status never changes again |
| Workflow.OrderStatusChangesAtMostOnce | components/AdminOrderCard.tsx:55-69 | under any sequence of added orders with fresh ids and card-issued updates, the order with a given id changes at most once, and only its status from PENDING to terminal |
| Workflow.ClickOrderAction | components/AdminOrderCard.tsx:58-64 | a click on a card button applies that card's update to the store: the clicked order goes from PENDING to terminal and every other order is unchanged |
| Workflow.DuplicateIdOverwritesTerminal | App.tsx:59 | distinct ids are needed: with two orders sharing an id, the pending one's Reject button also overwrites the confirmed one |
| Workflow.ReviewCardStep | components/AdminReviewCard.tsx:63-77 | a card-issued update on a list with distinct ids changes at most one review, only its status, and only from PENDING to terminal |
| Workflow.ReviewEventStep | App.tsx:80-96 | one added review with a fresh id, or one card-issued update, keeps ids distinct; a listed review changes only its status from PENDING to terminal, not at all when terminal; an unlisted id stays unlisted or arrives PENDING |
| Workflow.TerminalReviewStaysFixed | components/AdminReviewCard.tsx:63-77 | under any sequence of added reviews with fresh ids and card-issued updates, a review with a terminal status never changes again |
| Workflow.ReviewStatusChangesAtMostOnce | components/AdminReviewCard.tsx:63-77 | under any sequence of added reviews with fresh ids and card-issued updates, the review with a given id changes at most once, and only its status from PENDING to terminal |
| Workflow.ClickReviewAction | components/AdminReviewCard.tsx:66-72 | a click on a card button applies that card's update to the store: the clicked review goes from PENDING to terminal and every other review is unchanged |
| ClientPage.ApprovedReviews | pages/ClientPage.tsx:143 | the shown reviews are exactly those with status APPROVED; PENDING and REJECTED reviews never appear |
| ClientPage.ApprovedReviewsAppend | pages/ClientPage.tsx:143 | the filter distributes over concatenation, so approved reviews keep their original order |
| ClientPage.NewReviewHidden | pages/ClientPage.tsx:143 | a newly added (PENDING) review does not change the approved list |
| ClientPage.ApprovalShowsReview | pages/ClientPage.tsx:143 | after an admin approves a review, it appears in the approved list |
| ClientPage.PollStep | pages/ClientPage.tsx:97-100 | a tick changes the shown status iff the order is found with a status different from the current one, and then adopts that status |
| ClientPage.PollStepSyncs | pages/ClientPage.tsx:97-100 | after a tick that finds the order, the shown status is the store's status |
| ClientPage.PollObservesUpdate | pages/ClientPage.tsx:96-100 | a poll step over the lookup of a list in which a listed order's status was set yields that status |
| ClientPage.StatusMessage | pages/ClientPage.tsx:113-133 | there is no banner iff there is no status; otherwise the banner carries the status's title |
| ClientPage.StatusTitle | pages/ClientPage.tsx:117-132 | the banner title of each status: 'Order Received!', 'Order Confirmed!', 'Order Update' (pairwise different, by StatusTitles) |
| ClientPage.BannerFor | pages/ClientPage.tsx:117-133 | the banner of each status: its colour classes, its title StatusTitle and its message, as in the three switch cases |
| ClientPage.StatusTitles | pages/ClientPage.tsx:117-132 | the titles are 'Order Received!', 'Order Confirmed!' and 'Order Update', and they are pairwise different |
| ClientPage.DisplayedBanner | pages/ClientPage.tsx:169 | a banner is shown iff a non-empty order id has been submitted and a status is held, and with an id it is exactly getStatusMessage() for the held status |
| ClientPage.Page.constructor | pages/ClientPage.tsx:68-71 | the page starts with the modal closed, no submitted id and no status |
| ClientPage.Page.OpenOrderModal | pages/ClientPage.tsx:159 | the order button opens the modal |
| ClientPage.Page.CloseOrderModal | pages/ClientPage.tsx:298 | closing the modal sets it closed |
| ClientPage.Page.HandleOrderSubmit | pages/ClientPage.tsx:106-111 | adds the order, holds its new id as the submitted id, shows PENDING and closes the modal |
| ClientPage.Page.SubmitOrderForm | pages/ClientPage.tsx:296-300 | a modal submit with an accepted number adds exactly the form's fields as a new order, shows it PENDING, closes the modal and clears the error; with a rejected number the store and page are unchanged and the error is set |
| ClientPage.Page.PollTick | pages/ClientPage.tsx:93-104 | without a submitted id nothing changes; otherwise the shown status becomes PollStep of the current one and the store's lookup |
| ClientPage.Page.SubmitReview | pages/ClientPage.tsx:241 | a complete review is prepended to the store as PENDING and the form is reset (empty fields, rating 0, no error, thank-you shown); an incomplete one leaves the store and the fields unchanged and sets the error; the approved list is unchanged either way |
| ClientPage.PlaceSampleOrder | pages/ClientPage.tsx:106-111 | on a freshly rendered page, ordering with a valid number prepends exactly that PENDING order and leaves the page tracking its id with status PENDING |
| ClientPage.ConfirmNewest | components/AdminOrderCard.tsx:58-64 | Confirm on the newest order's card applies exactly the update (its id, CONFIRMED) to the store |
| ClientPage.OrderRoundTripAsWritten | App.tsx:105-108 | as written: after ordering, leaving for "/admin", confirming and coming back to "/", the store holds the confirmed order but the remounted page polls nothing and shows no banner |
| ClientPage.Page.Resume | pages/ClientPage.tsx:69-71 | corrected design: the page mounted again with the submitted id and shown status handed back to it, the modal closed |
| ClientPage.OrderRoundTrip | pages/ClientPage.tsx:93-104 | corrected design: with the tracking kept across the route change, the store ends with exactly the confirmed order prepended, and the next tick shows CONFIRMED with the confirmation banner |

## Left out

- Rendering: JSX, CSS classes other than the badge and banner mappings, the hero, feature, spec, gallery and testimonial markup.
- The scroll animations driven by IntersectionObserver (pages/ClientPage.tsx:73-90), because they are a browser API.
- pages/GuidelinesPage.tsx, components/Header.tsx, components/Footer.tsx and components/CustomCursor.tsx: static content, links and mouse plumbing.
- pages/AdminPage.tsx, which only maps each list onto cards. That wiring is `Workflow.ClickOrderAction` and `Workflow.ClickReviewAction`.
- components/ReviewCard.tsx is not part of this model. It only renders one approved review.
- Timers. The 2-second polling interval is modelled as one step, `Page.PollTick`. The 4-second timeout that hides the thank-you message (components/ReviewForm.tsx:52) is not modelled, so `submitted` stays true after an accepted review.
- Id generation by `Math.random`. Its random part is a `suffix` parameter, and the store methods require the resulting id to be new. The source does not check for collisions; `Workflow.DuplicateIdOverwritesTerminal` shows what a collision would break. The length and alphabet of the suffix are not modelled.
- `createdAt` timestamps are an integer parameter `now` in milliseconds. The seed uses `now` minus the source's offsets.
- `parseInt` and NaN in the quantity field. `Form.ChangeQuantity` takes an integer input only.
- React state and hook mechanics. Each card action is assumed to see the lists as last rendered after the previous action, which is the store's current state. Routing appears only in the round trip, as the page being built afresh when the home route mounts again.
- The hover state of the star widget (mouse enter and leave) is a parameter of `ReviewForm.StarRowCount`, not a state of its own.
- The `default` branches of the badge switches, which no enum value reaches.
- `|s|` counts Unicode scalar values, while JavaScript's `length` counts UTF-16 code units. Every character the phone pattern admits is one code unit, so the two agree on every number that passes the pattern.
- AdminReviewCard.StarDisplay: its contract states only the number of stars; which stars are filled is stated by `StarDisplayCount`.

## Findings

| source | as written | input that shows it | evidently intended | confidence | as-written member | corrected member |
|---|---|---|---|---|---|---|
| pages/ClientPage.tsx:93-104 | the submitted id and shown status are state of `ClientPage` (lines 69-71); App.tsx:105-108 mounts `ClientPage` at "/" and `AdminPage` at "/admin", never both, so the tracking is dropped when the admin opens the dashboard and the 2-second poll never runs while an update can happen | place an order with number 555-9999, go to "/admin", press Confirm on the new order, go back to "/" | the customer's banner turns to "Order Confirmed!" on the next tick | medium; not executed | ClientPage.OrderRoundTripAsWritten | ClientPage.OrderRoundTrip |
