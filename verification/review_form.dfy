/**
 * The form that creates a review (ReviewForm.tsx): the star rating and the
 * comment it holds, the checks before it sends, and what it sends.
 */
module ReviewForm {
  import opened Wrappers
  import opened Replies
  import opened LearningSessions
  import opened Reviews
  import opened Stars
  import Text

  /** What pressing "Submit Review" leads to. */
  datatype SubmitOutcome =
    | BlockedByBrowser           // the comment textarea is `required` and empty
    | Alerted(message: string)   // no star chosen
    | Sent(request: ReviewRequest)

  const NoRatingAlert := "Please select a rating"

  class Form {
    const sessionId: SessionId
    const reviewedUserId: ProfileId
    var rating: int
    var hoveredRating: int
    var comment: string

    /** Ratings and hovers only ever come from the five star buttons, or are 0. */
    ghost predicate Valid()
      reads this
    {
      0 <= rating <= StarCount && 0 <= hoveredRating <= StarCount
    }

    constructor (sessionId: SessionId, reviewedUserId: ProfileId)
      ensures Valid()
      ensures this.sessionId == sessionId && this.reviewedUserId == reviewedUserId
      ensures rating == 0 && hoveredRating == 0 && comment == ""
    {
      this.sessionId, this.reviewedUserId := sessionId, reviewedUserId;
      rating, hoveredRating, comment := 0, 0, "";
    }

    function Lit(): seq<bool>
      reads this
    {
      LitStars(hoveredRating, rating)
    }

    /** The submit button is disabled while a request is pending and while no star is chosen. */
    predicate SubmitEnabled(pending: bool)
      reads this
    {
      !pending && rating != 0
    }

    /** Clicking star `k` chooses it as the rating. */
    method ClickStar(k: int)
      requires Valid() && 1 <= k <= StarCount
      modifies this
      ensures Valid() && rating == k
      ensures hoveredRating == old(hoveredRating) && comment == old(comment)
    {
      rating := k;
    }

    /** The pointer entering star `k`. */
    method HoverStar(k: int)
      requires Valid() && 1 <= k <= StarCount
      modifies this
      ensures Valid() && hoveredRating == k
      ensures rating == old(rating) && comment == old(comment)
      ensures Lit()[k - 1] && (k < StarCount ==> !Lit()[k])
    {
      hoveredRating := k;
    }

    /** The pointer leaving a star: the lit stars show the rating again. */
    method LeaveStar()
      requires Valid()
      modifies this
      ensures Valid() && hoveredRating == 0
      ensures rating == old(rating) && comment == old(comment)
      ensures forall i :: 0 <= i < StarCount ==> (Lit()[i] <==> i < rating)
    {
      hoveredRating := 0;
    }

    method EditComment(text: string)
      requires Valid()
      modifies this
      ensures Valid() && comment == text
      ensures rating == old(rating) && hoveredRating == old(hoveredRating)
    {
      comment := text;
    }

    /**
     * `handleSubmit`: an empty comment never reaches it; with no star chosen
     * it alerts and sends nothing; otherwise it sends the request naming the
     * reviewed user. Success clears the rating and the comment; failure is
     * only logged and keeps both.
     */
    method HandleSubmit(reply: Reply) returns (o: SubmitOutcome)
      requires Valid()
      modifies this
      ensures Valid() && hoveredRating == old(hoveredRating)
      ensures o == BlockedByBrowser <==> old(comment) == ""
      ensures o.Alerted? <==> old(comment) != "" && old(rating) == 0
      ensures o.Alerted? ==> o.message == NoRatingAlert
      ensures o.Sent? ==> o.request == ReviewRequest(sessionId, Some(reviewedUserId), old(rating), old(comment))
      ensures o.Sent? ==> ValidRating(o.request.rating)
      ensures o.Sent? && reply.Succeeded? ==> rating == 0 && comment == ""
      ensures !(o.Sent? && reply.Succeeded?) ==> rating == old(rating) && comment == old(comment)
    {
      if comment == "" {
        return BlockedByBrowser;
      }
      if rating == 0 {
        return Alerted(NoRatingAlert);
      }
      o := Sent(ReviewRequest(sessionId, Some(reviewedUserId), rating, comment));
      if reply.Succeeded? {
        rating, comment := 0, "";
      }
    }
  }

  /**
   * A request the form sends is never refused for its rating, and it names
   * the reviewed user explicitly, so the backend reviews exactly that user.
   */
  lemma SentRequestTargetsNamedUser(sessions: seq<LearningSession>, profiles: set<ProfileId>, rows: seq<Review>,
                                    reviewer: ProfileId, sessionId: SessionId, reviewed: ProfileId, rating: int, comment: string)
    requires 1 <= rating <= StarCount && reviewed != 0
    ensures var r := Admit(sessions, profiles, rows, reviewer, ReviewRequest(sessionId, Some(reviewed), rating, comment));
      && r != Err(InvalidRating)
      && (r.Ok? ==> r.value == reviewed)
  {
  }

  /**
   * The browser's `required` stops only an empty comment: a comment of spaces
   * is sent, and the backend refuses it as blank.
   */
  lemma SpacesCommentRefused(sessions: seq<LearningSession>, profiles: set<ProfileId>, rows: seq<Review>,
                             reviewer: ProfileId, sessionId: SessionId, reviewed: ProfileId, rating: int)
    requires 1 <= rating <= StarCount
    ensures Admit(sessions, profiles, rows, reviewer, ReviewRequest(sessionId, Some(reviewed), rating, "  ")) == Err(CommentRequired)
  {
    assert Text.IsWhitespace("  "[0]) && Text.IsWhitespace("  "[1]);
  }
}
