/** The admin dashboard's card for one review: badge, actions and the star display. */
module AdminReviewCard {
  import opened Common
  import opened Types

  /** The arguments a card passes to `onUpdateStatus`. */
  datatype StatusUpdate = StatusUpdate(id: string, status: ReviewStatus)

  /** The badge colours for each status. */
  function BadgeClasses(s: ReviewStatus): string
  {
    match s
    case Pending => "bg-yellow-100 text-yellow-800"
    case Approved => "bg-green-100 text-green-800"
    case Rejected => "bg-red-100 text-red-800"
  }

  /** The badge mapping tells the three statuses apart. */
  lemma BadgeClassesDistinct(a: ReviewStatus, b: ReviewStatus)
    ensures BadgeClasses(a) == BadgeClasses(b) <==> a == b
  {
  }

  /** The updates the card's buttons can issue, Reject before Approve; none unless the review is PENDING. */
  function Actions(r: Review): (acts: seq<StatusUpdate>)
    ensures acts != [] <==> r.status.Pending?
    ensures forall u :: u in acts ==> u.id == r.id && u.status.IsTerminal()
    ensures r.status.Pending? ==>
      StatusUpdate(r.id, ReviewStatus.Rejected) in acts && StatusUpdate(r.id, ReviewStatus.Approved) in acts
  {
    if r.status == ReviewStatus.Pending then
      [StatusUpdate(r.id, ReviewStatus.Rejected), StatusUpdate(r.id, ReviewStatus.Approved)]
    else
      []
  }

  /** `StarDisplay`: five stars, star `i` (0-based) filled when `i < rating`. */
  function StarDisplay(rating: int): (filled: seq<bool>)
    ensures |filled| == 5
  {
    Threshold(5, rating)
  }

  /**
   * The display fills exactly `rating` stars for a rating in 0..5 (none below,
   * all five above), and the filled stars come first.
   */
  lemma StarDisplayCount(rating: int)
    ensures CountTrue(StarDisplay(rating)) == Clamp(rating, 0, 5)
    ensures 0 <= rating <= 5 ==> CountTrue(StarDisplay(rating)) == rating
    ensures forall i, j :: 0 <= j <= i < 5 && StarDisplay(rating)[i] ==> StarDisplay(rating)[j]
  {
    ThresholdCount(5, rating);
  }
}
