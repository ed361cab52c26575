/** The domain records of the storefront: orders, reviews and their statuses. */
module Types {

  /** The lifecycle stage of an order. */
  datatype OrderStatus = Pending | Confirmed | Rejected
  {
    /** The string value of the enum member, as shown on the admin badge. */
    function Name(): string
    {
      match this
      case Pending => "PENDING"
      case Confirmed => "CONFIRMED"
      case Rejected => "REJECTED"
    }

    /** Confirmed and Rejected are the outcomes of an admin decision. */
    predicate IsTerminal()
    {
      !Pending?
    }
  }

  /** The lifecycle stage of a review. */
  datatype ReviewStatus = Pending | Approved | Rejected
  {
    function Name(): string
    {
      match this
      case Pending => "PENDING"
      case Approved => "APPROVED"
      case Rejected => "REJECTED"
    }

    predicate IsTerminal()
    {
      !Pending?
    }
  }

  /** A customer's purchase request. `createdAt` is a timestamp in milliseconds. */
  datatype Order = Order(
    id: string,
    quantity: int,
    phoneNumber: string,
    color: string,
    userEmail: string,
    status: OrderStatus,
    createdAt: int)

  /** A customer testimonial. */
  datatype Review = Review(
    id: string,
    name: string,
    rating: int,
    comment: string,
    status: ReviewStatus,
    createdAt: int)

  /** What the order form hands to the store: an Order without id, status, userEmail and createdAt. */
  datatype OrderData = OrderData(quantity: int, phoneNumber: string, color: string)

  /** What the review form hands to the store: a Review without id, createdAt and status. */
  datatype ReviewData = ReviewData(name: string, rating: int, comment: string)

  /** OrderStatus has exactly three values, told apart by their string values. */
  lemma OrderStatusValues(s: OrderStatus, t: OrderStatus)
    ensures s == OrderStatus.Pending || s == OrderStatus.Confirmed || s == OrderStatus.Rejected
    ensures s.Name() == t.Name() <==> s == t
  {
  }

  /** ReviewStatus has exactly three values, told apart by their string values. */
  lemma ReviewStatusValues(s: ReviewStatus, t: ReviewStatus)
    ensures s == ReviewStatus.Pending || s == ReviewStatus.Approved || s == ReviewStatus.Rejected
    ensures s.Name() == t.Name() <==> s == t
  {
  }

  /** The two enums share exactly two string values, PENDING and REJECTED. */
  lemma SharedStatusNames(o: OrderStatus, r: ReviewStatus)
    ensures o.Name() == r.Name() <==> (o.Pending? && r.Pending?) || (o.Rejected? && r.Rejected?)
  {
  }
}
