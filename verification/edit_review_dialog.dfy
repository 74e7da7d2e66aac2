/**
 * The dialog in which a reviewer edits their review (EditReviewDialog.tsx):
 * the values it prefills, the rating check before it sends, and how it
 * reports a refusal.
 */
module EditReviewDialog {
  import opened Wrappers
  import opened Replies
  import opened LearningSessions
  import opened Reviews
  import opened Stars
  import Text

  const RatingRangeError := "Please select a rating between 1 and 5 stars"
  const UpdateFallback := "Failed to update review"

  /** `PUT /reviews/<id>/` with the new rating and comment: a full update. */
  datatype UpdateRequest = UpdateRequest(id: ReviewId, rating: int, comment: string)

  class Dialog {
    var review: Option<Review>    // the `review` prop
    var isOpen: bool              // the `isOpen` prop
    var rating: int
    var comment: string
    var hoveredRating: int
    var error: string

    constructor ()
      ensures review.None? && !isOpen
      ensures rating == 5 && comment == "" && hoveredRating == 0 && error == ""
    {
      review, isOpen := None, false;
      rating, comment, hoveredRating, error := 5, "", 0, "";
    }

    function Lit(): seq<bool>
      reads this
    {
      LitStars(hoveredRating, rating)
    }

    /**
     * A render with the props `r` and `open`. The effect depends on
     * `[review, isOpen]`, so it runs only when one of them changed: then an
     * open dialog with a review takes over its rating and comment and clears
     * the error. Otherwise the fields keep what they had, so a re-render does
     * not undo the user's edits.
     */
    method Receive(r: Option<Review>, open: bool)
      modifies this
      ensures review == r && isOpen == open && hoveredRating == old(hoveredRating)
      ensures (r != old(review) || open != old(isOpen)) && r.Some? && open ==>
                rating == r.value.rating && comment == r.value.comment && error == ""
      ensures !((r != old(review) || open != old(isOpen)) && r.Some? && open) ==>
                rating == old(rating) && comment == old(comment) && error == old(error)
    {
      var changed := r != review || open != isOpen;
      review, isOpen := r, open;
      if changed && r.Some? && open {
        rating, comment, error := r.value.rating, r.value.comment, "";
      }
    }

    method ClickStar(k: int)
      requires 1 <= k <= StarCount
      modifies this
      ensures rating == k && comment == old(comment) && error == old(error) && review == old(review)
      ensures hoveredRating == old(hoveredRating) && isOpen == old(isOpen)
    {
      rating := k;
    }

    method EditComment(text: string)
      modifies this
      ensures comment == text && rating == old(rating) && error == old(error) && review == old(review)
      ensures hoveredRating == old(hoveredRating) && isOpen == old(isOpen)
    {
      comment := text;
    }

    /**
     * `handleSubmit`: with no review nothing happens. Otherwise the error is
     * cleared; a rating outside 1..5 is reported and nothing is sent; else the
     * update is sent, and success asks the parent to close the dialog while
     * failure shows the server's detail or the fallback text.
     */
    method HandleSubmit(reply: Reply) returns (sent: Option<UpdateRequest>, close: bool)
      modifies this
      ensures review == old(review) && isOpen == old(isOpen) && rating == old(rating)
      ensures comment == old(comment) && hoveredRating == old(hoveredRating)
      ensures review.None? ==> sent.None? && !close && error == old(error)
      ensures review.Some? && !ValidRating(rating) ==> sent.None? && !close && error == RatingRangeError
      ensures sent.Some? <==> review.Some? && ValidRating(rating)
      ensures sent.Some? ==> sent.value == UpdateRequest(review.value.id, rating, comment)
      ensures close <==> sent.Some? && reply.Succeeded?
      ensures close ==> error == ""
      ensures sent.Some? && reply.Failed? ==> error == ErrorText(reply.detail, UpdateFallback) && error != ""
    {
      if review.None? {
        return None, false;
      }
      error := "";
      if rating < 1 || rating > 5 {
        error := RatingRangeError;
        return None, false;
      }
      sent := Some(UpdateRequest(review.value.id, rating, comment));
      match reply
      case Succeeded =>
        close := true;
      case Failed(detail) =>
        error := ErrorText(detail, UpdateFallback);
        close := false;
    }
  }

  /**
   * An update the dialog sends for a review its viewer wrote: the comment box
   * is not `required`, so a comment cleared to whitespace is sent too and
   * refused with "This field may not be blank."; any other comment is
   * accepted, the stored review taking the new rating and the stripped comment
   * and keeping everything else.
   */
  lemma AuthorUpdateAccepted(rows: seq<Review>, x: Review, requester: ProfileId, req: UpdateRequest)
    requires forall i, j :: 0 <= i < j < |rows| ==> rows[i].id != rows[j].id
    requires x in rows && x.reviewer == requester
    requires req.id == x.id && ValidRating(req.rating)
    ensures EditReview(rows, requester, None, req.id, req.rating, req.comment)
            == if CommentGiven(req.comment) then Ok(x.(rating := req.rating, comment := Text.Trim(req.comment)))
               else Err(CommentRequired)
  {
    var r := EditReview(rows, requester, None, req.id, req.rating, req.comment);
    assert x in VisibleReviews(rows, requester, None);
    assert Reachable(rows, requester, None, req.id);
    if CommentGiven(req.comment) {
      var y :| y in rows && y.id == req.id && y.reviewer == requester
               && r.value == y.(rating := req.rating, comment := Text.Trim(req.comment));
      var i :| 0 <= i < |rows| && rows[i] == x;
      var j :| 0 <= j < |rows| && rows[j] == y;
      assert i == j;
    }
  }
}
