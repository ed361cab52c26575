/** The admin dashboard's card for one order: its status badge and its two actions. */
module AdminOrderCard {
  import opened Types

  /** The arguments a card passes to `onUpdateStatus`. */
  datatype StatusUpdate = StatusUpdate(id: string, status: OrderStatus)

  /** The badge colours for each status. */
  function BadgeClasses(s: OrderStatus): string
  {
    match s
    case Pending => "bg-yellow-100 text-yellow-800"
    case Confirmed => "bg-green-100 text-green-800"
    case Rejected => "bg-red-100 text-red-800"
  }

  /** The badge mapping tells the three statuses apart. */
  lemma BadgeClassesDistinct(a: OrderStatus, b: OrderStatus)
    ensures BadgeClasses(a) == BadgeClasses(b) <==> a == b
  {
  }

  /**
   * The updates the card's buttons can issue, Reject before Confirm: none
   * unless the order is PENDING, and only terminal statuses for the card's
   * own order.
   */
  function Actions(o: Order): (acts: seq<StatusUpdate>)
    ensures acts != [] <==> o.status.Pending?
    ensures forall u :: u in acts ==> u.id == o.id && u.status.IsTerminal()
    ensures o.status.Pending? ==>
      StatusUpdate(o.id, OrderStatus.Rejected) in acts && StatusUpdate(o.id, OrderStatus.Confirmed) in acts
  {
    if o.status == OrderStatus.Pending then
      [StatusUpdate(o.id, OrderStatus.Rejected), StatusUpdate(o.id, OrderStatus.Confirmed)]
    else
      []
  }
}
