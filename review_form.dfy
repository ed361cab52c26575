/** The review form: name, star rating and comment, with the completeness check and reset. */
module ReviewForm {
  import opened Common
  import opened Types

  const ReviewError: string := "Please fill out all fields and provide a rating."

  /**
   * Whether star `star` (1..5) of the rating widget is highlighted: the hovered
   * rating when there is one (non-zero), otherwise the chosen rating, is at least `star`.
   */
  predicate StarHighlighted(star: int, hoverRating: int, rating: int)
  {
    (if hoverRating != 0 then hoverRating else rating) >= star
  }

  /** The five stars of `StarRating`, left to right. */
  function StarRow(hoverRating: int, rating: int): (lit: seq<bool>)
    ensures |lit| == 5
  {
    seq(5, i => StarHighlighted(i + 1, hoverRating, rating))
  }

  /**
   * The widget lights exactly as many stars as the shown rating (hover first,
   * then the chosen one), cut off at 0 and 5, and the lit stars come first.
   */
  lemma StarRowCount(hoverRating: int, rating: int)
    ensures CountTrue(StarRow(hoverRating, rating)) == Clamp(if hoverRating != 0 then hoverRating else rating, 0, 5)
    ensures forall i, j :: 0 <= j <= i < 5 && StarRow(hoverRating, rating)[i] ==> StarRow(hoverRating, rating)[j]
  {
    var shown := if hoverRating != 0 then hoverRating else rating;
    assert StarRow(hoverRating, rating) == Threshold(5, shown);
    ThresholdCount(5, shown);
  }

  /** The form's state. */
  class Form {
    var name: string
    var rating: int
    var comment: string
    var error: string
    var submitted: bool

    /** The rating is 0 (none chosen yet) or one of the five stars. */
    ghost predicate Valid()
      reads this
    {
      0 <= rating <= 5
    }

    constructor ()
      ensures Valid()
      ensures name == "" && rating == 0 && comment == "" && error == "" && !submitted
    {
      name, rating, comment, error, submitted := "", 0, "", "", false;
    }

    method ChangeName(input: string)
      modifies this`name
      ensures name == input
    {
      name := input;
    }

    method ChangeComment(input: string)
      modifies this`comment
      ensures comment == input
    {
      comment := input;
    }

    /** A click on star `star`; the widget only has the stars 1..5. */
    method SelectRating(star: int)
      requires 1 <= star <= 5
      modifies this`rating
      ensures Valid() && rating == star
    {
      rating := star;
    }

    /**
     * `handleSubmit`: reject with an error iff a field is missing; otherwise
     * send the three fields, clear the error, reset the form and show the
     * thank-you message.
     */
    method HandleSubmit() returns (sent: Option<ReviewData>)
      requires Valid()
      modifies this`name, this`rating, this`comment, this`error, this`submitted
      ensures Valid()
      ensures sent.Some? <==> old(name) != "" && old(rating) != 0 && old(comment) != ""
      ensures sent.Some? ==> sent.value == ReviewData(old(name), old(rating), old(comment))
      ensures sent.Some? ==> 1 <= sent.value.rating <= 5
      ensures sent.Some? ==> error == "" && name == "" && rating == 0 && comment == "" && submitted
      ensures sent.None? ==> error == ReviewError && submitted == old(submitted)
      ensures sent.None? ==> name == old(name) && rating == old(rating) && comment == old(comment)
    {
      if name == "" || rating == 0 || comment == "" {
        error := ReviewError;
        return None;
      }
      error := "";
      sent := Some(ReviewData(name, rating, comment));
      name, rating, comment := "", 0, "";
      submitted := true;
    }
  }
}
