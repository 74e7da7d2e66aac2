/**
 * Reviews of completed learning sessions (reviews/models.py, serializers.py
 * and views.py): the admission chain a new review goes through, who sees and
 * who may change a review, and the `review_count` aggregate a profile keeps.
 */
module Reviews {
  import opened Wrappers
  import opened Seqs
  import opened LearningSessions
  import Text

  type ReviewId = nat

  datatype Review = Review(
    id: ReviewId,
    session: SessionId,
    reviewer: ProfileId,
    reviewed: ProfileId,
    rating: int,
    comment: string,
    createdAt: Minutes)

  function ReviewCreatedAt(r: Review): int { r.createdAt }

  const MinRating := 1
  const MaxRating := 5

  /** The `rating` field's validators. */
  predicate ValidRating(rating: int) {
    MinRating <= rating <= MaxRating
  }

  /** The `unique_together` key. */
  predicate SameTriple(a: Review, b: Review) {
    a.session == b.session && a.reviewer == b.reviewer && a.reviewed == b.reviewed
  }

  /** Some stored review already has this (session, reviewer, reviewed) triple. */
  predicate HasReview(rows: seq<Review>, session: SessionId, reviewer: ProfileId, reviewed: ProfileId) {
    exists i :: 0 <= i < |rows| && rows[i].session == session && rows[i].reviewer == reviewer && rows[i].reviewed == reviewed
  }

  datatype ReviewError =
    | InvalidRating            // rating outside 1..5 (400 from the field validators)
    | SessionNotFound          // "Session not found"
    | SessionNotCompleted      // "Can only review completed sessions"
    | ReviewedUserNotFound     // "Reviewed user not found"
    | ReviewedNotParticipant   // "Can only review participants of this session"
    | ReviewerNotParticipant   // "You can only review sessions you participated in"
    | DuplicateReview          // the unique_together constraint refuses the insert
    | ReviewNotFound           // get_object's 404
    | CannotEditOthersReview   // "You can only edit your own reviews"
    | CannotDeleteOthersReview // "You can only delete your own reviews"
    | UserIdRequired           // for_user without user_id (400)
    | SessionIdRequired        // a full update without the required `session_id` field (400)
    | CommentRequired          // "This field may not be blank." for a comment of whitespace only (400)

  // --------------------------------------------------------------- admission

  /** The writable fields of a create request; `reviewedId` is None when absent. */
  datatype ReviewRequest = ReviewRequest(sessionId: SessionId, reviewedId: Option<int>, rating: int, comment: string)

  /**
   * `comment` is a model `TextField` without `blank=True`, so the serializer's
   * field refuses a comment that is empty once stripped (one of whitespace
   * only, by `Text.TrimEmptyIffBlank`), and stores it stripped.
   */
  predicate CommentGiven(comment: string) {
    !Text.Blank(comment)
  }

  /** The field validation a create or update payload passes before anything else. */
  predicate FieldsValid(req: ReviewRequest) {
    ValidRating(req.rating) && CommentGiven(req.comment)
  }

  /** `if reviewed_id:` — an absent id and the id 0 both count as not given. */
  predicate NamesReviewed(req: ReviewRequest) {
    req.reviewedId.Some? && req.reviewedId.value != 0
  }

  /** The party a participant reviews by default: the learner's is the mentor, checked first. */
  function OtherParty(s: LearningSession, reviewer: ProfileId): (r: Option<ProfileId>)
    ensures r.Some? <==> IsParticipant(s, reviewer)
    ensures r.Some? ==> IsParticipant(s, r.value)
    ensures r.Some? && s.learner != s.mentor ==> r.value != reviewer
  {
    if s.learner == reviewer then Some(s.mentor)
    else if s.mentor == reviewer then Some(s.learner)
    else None
  }

  /** The `reviewed` branch of the serializer: the named profile, or the other party. */
  function ReviewTarget(s: LearningSession, profiles: set<ProfileId>, reviewer: ProfileId, req: ReviewRequest)
    : (r: Result<ProfileId, ReviewError>)
    ensures r.Ok? ==> IsParticipant(s, r.value)
    ensures r.Ok? && NamesReviewed(req) ==> r.value == req.reviewedId.value && r.value in profiles
    ensures r.Ok? && !NamesReviewed(req) ==> Some(r.value) == OtherParty(s, reviewer)
    ensures r == Err(ReviewedUserNotFound) <==> NamesReviewed(req) && (req.reviewedId.value < 0 || req.reviewedId.value as nat !in profiles)
    ensures r == Err(ReviewedNotParticipant) <==>
              NamesReviewed(req) && 0 <= req.reviewedId.value && req.reviewedId.value as nat in profiles
              && !IsParticipant(s, req.reviewedId.value as nat)
    ensures r == Err(ReviewerNotParticipant) <==> !NamesReviewed(req) && !IsParticipant(s, reviewer)
    ensures r.Err? ==> r.error in {ReviewedUserNotFound, ReviewedNotParticipant, ReviewerNotParticipant}
  {
    if NamesReviewed(req) then
      var id := req.reviewedId.value;
      if id < 0 || id as nat !in profiles then Err(ReviewedUserNotFound)
      else if !IsParticipant(s, id) then Err(ReviewedNotParticipant)
      else Ok(id as nat)
    else
      match OtherParty(s, reviewer)
      case None => Err(ReviewerNotParticipant)
      case Some(p) => Ok(p)
  }

  /**
   * The request passes field validation and names a COMPLETED session: the
   * point from which `ReviewSerializer.create` looks at the reviewed profile.
   */
  predicate ReachesTarget(sessions: seq<LearningSession>, req: ReviewRequest) {
    FieldsValid(req) && FindSession(sessions, req.sessionId).Some?
    && FindSession(sessions, req.sessionId).value.status == Completed
  }

  /**
   * `ReviewSerializer.create` with the field validation before it and the
   * uniqueness constraint after it: the profile the new review is about, or
   * the first check that fails, in the source's order. Field errors come back
   * together in one 400; the model names the rating's first.
   */
  function Admit(sessions: seq<LearningSession>, profiles: set<ProfileId>, rows: seq<Review>, reviewer: ProfileId, req: ReviewRequest)
    : (r: Result<ProfileId, ReviewError>)
    ensures r == Err(InvalidRating) <==> !ValidRating(req.rating)
    ensures r == Err(CommentRequired) <==> ValidRating(req.rating) && !CommentGiven(req.comment)
    ensures r == Err(SessionNotFound) <==> FieldsValid(req) && forall s :: s in sessions ==> s.id != req.sessionId
    ensures r == Err(SessionNotCompleted) <==>
              FieldsValid(req) && FindSession(sessions, req.sessionId).Some?
              && FindSession(sessions, req.sessionId).value.status != Completed
    ensures r == Err(ReviewedUserNotFound) <==>
              ReachesTarget(sessions, req)
              && ReviewTarget(FindSession(sessions, req.sessionId).value, profiles, reviewer, req) == Err(ReviewedUserNotFound)
    ensures r == Err(ReviewedNotParticipant) <==>
              ReachesTarget(sessions, req)
              && ReviewTarget(FindSession(sessions, req.sessionId).value, profiles, reviewer, req) == Err(ReviewedNotParticipant)
    ensures r == Err(ReviewerNotParticipant) <==>
              ReachesTarget(sessions, req)
              && ReviewTarget(FindSession(sessions, req.sessionId).value, profiles, reviewer, req)
                 !in {Err(ReviewedUserNotFound), Err(ReviewedNotParticipant)}
              && !IsParticipant(FindSession(sessions, req.sessionId).value, reviewer)
    ensures r == Err(DuplicateReview) <==>
              ReachesTarget(sessions, req)
              && var s := FindSession(sessions, req.sessionId).value;
                 var t := ReviewTarget(s, profiles, reviewer, req);
                 t.Ok? && IsParticipant(s, reviewer) && HasReview(rows, req.sessionId, reviewer, t.value)
    ensures r.Ok? <==>
              ReachesTarget(sessions, req)
              && var s := FindSession(sessions, req.sessionId).value;
                 var t := ReviewTarget(s, profiles, reviewer, req);
                 t.Ok? && IsParticipant(s, reviewer) && !HasReview(rows, req.sessionId, reviewer, t.value)
    ensures r.Ok? ==> r == ReviewTarget(FindSession(sessions, req.sessionId).value, profiles, reviewer, req)
    ensures r.Ok? ==> FieldsValid(req)
    ensures r.Ok? ==> exists s :: s in sessions && s.id == req.sessionId && s.status == Completed
                                  && IsParticipant(s, reviewer) && IsParticipant(s, r.value)
    ensures r.Ok? ==> !HasReview(rows, req.sessionId, reviewer, r.value)
    ensures r.Ok? && NamesReviewed(req) ==> r.value == req.reviewedId.value && r.value in profiles
  {
    if !ValidRating(req.rating) then Err(InvalidRating)
    else if !CommentGiven(req.comment) then Err(CommentRequired)
    else match FindSession(sessions, req.sessionId)
      case None => Err(SessionNotFound)
      case Some(s) =>
        if s.status != Completed then Err(SessionNotCompleted)
        else match ReviewTarget(s, profiles, reviewer, req)
          case Err(e) => Err(e)
          case Ok(reviewed) =>
            if !IsParticipant(s, reviewer) then Err(ReviewerNotParticipant)
            else if HasReview(rows, s.id, reviewer, reviewed) then Err(DuplicateReview)
            else Ok(reviewed)
  }

  /** A request that passes every check of `Admit` is admitted for the target it names. */
  lemma AdmitAccepts(sessions: seq<LearningSession>, profiles: set<ProfileId>, rows: seq<Review>, reviewer: ProfileId,
                     req: ReviewRequest, s: LearningSession, reviewed: ProfileId)
    requires FieldsValid(req) && FindSession(sessions, req.sessionId) == Some(s) && s.status == Completed
    requires ReviewTarget(s, profiles, reviewer, req) == Ok(reviewed) && IsParticipant(s, reviewer)
    requires !HasReview(rows, req.sessionId, reviewer, reviewed)
    ensures Admit(sessions, profiles, rows, reviewer, req) == Ok(reviewed)
  {
  }

  /** A reviewer outside the session is always refused, whatever `reviewed_id` names. */
  lemma OutsiderCannotReview(sessions: seq<LearningSession>, profiles: set<ProfileId>, rows: seq<Review>, reviewer: ProfileId, req: ReviewRequest)
    requires forall s :: s in sessions && s.id == req.sessionId ==> !IsParticipant(s, reviewer)
    ensures Admit(sessions, profiles, rows, reviewer, req).Err?
    ensures Admit(sessions, profiles, rows, reviewer, req) != Err(DuplicateReview)
  {
  }

  /** Naming oneself as the reviewed profile is not refused. */
  lemma SelfReviewAccepted(sessions: seq<LearningSession>, profiles: set<ProfileId>, rows: seq<Review>, reviewer: ProfileId, req: ReviewRequest)
    requires FieldsValid(req) && reviewer != 0 && reviewer in profiles && req.reviewedId == Some(reviewer)
    requires FindSession(sessions, req.sessionId).Some?
    requires var s := FindSession(sessions, req.sessionId).value; s.status == Completed && IsParticipant(s, reviewer)
    requires !HasReview(rows, req.sessionId, reviewer, reviewer)
    ensures Admit(sessions, profiles, rows, reviewer, req) == Ok(reviewer)
  {
  }

  /** Without `reviewed_id`, a participant of a completed session reviews the other party. */
  lemma DefaultReviewsOtherParty(sessions: seq<LearningSession>, profiles: set<ProfileId>, rows: seq<Review>, reviewer: ProfileId, req: ReviewRequest)
    requires FieldsValid(req) && req.reviewedId.None?
    requires FindSession(sessions, req.sessionId).Some?
    requires var s := FindSession(sessions, req.sessionId).value;
      s.status == Completed && s.learner != s.mentor && IsParticipant(s, reviewer)
      && !HasReview(rows, req.sessionId, reviewer, if reviewer == s.learner then s.mentor else s.learner)
    ensures var s := FindSession(sessions, req.sessionId).value;
      Admit(sessions, profiles, rows, reviewer, req) == Ok(if reviewer == s.learner then s.mentor else s.learner)
  {
  }

  /** `reviewed_id` 0 is falsy, so it is the same request as one without `reviewed_id`. */
  lemma ReviewedIdZeroIsAbsent(sessions: seq<LearningSession>, profiles: set<ProfileId>, rows: seq<Review>, reviewer: ProfileId, req: ReviewRequest)
    requires req.reviewedId == Some(0)
    ensures Admit(sessions, profiles, rows, reviewer, req) == Admit(sessions, profiles, rows, reviewer, req.(reviewedId := None))
  {
  }

  // ---------------------------------------------------------------- listings

  /**
   * Whether `get_queryset` lists a review: with `user_id`, the reviews of that
   * profile; without it, those the requester wrote or received.
   */
  predicate Listed(x: Review, requester: ProfileId, userId: Option<nat>) {
    if userId.Some? then x.reviewed == userId.value
    else x.reviewer == requester || x.reviewed == requester
  }

  /** `get_queryset`, newest first. No other query parameter narrows it. */
  function VisibleReviews(rows: seq<Review>, requester: ProfileId, userId: Option<nat>): (r: seq<Review>)
    ensures forall x :: x in r <==> x in rows && Listed(x, requester, userId)
    ensures Ascending(rows, ReviewCreatedAt) ==> Descending(r, ReviewCreatedAt)
  {
    var listed := Filter(rows, (x: Review) => Listed(x, requester, userId));
    ListedFacts(rows, requester, userId, listed);
    Reverse(listed)
  }

  lemma ListedFacts(rows: seq<Review>, requester: ProfileId, userId: Option<nat>, listed: seq<Review>)
    requires listed == Filter(rows, (x: Review) => Listed(x, requester, userId))
    ensures forall x :: x in Reverse(listed) <==> x in rows && Listed(x, requester, userId)
    ensures Ascending(rows, ReviewCreatedAt) ==> Descending(Reverse(listed), ReviewCreatedAt)
  {
    var p := (x: Review) => Listed(x, requester, userId);
    forall x ensures x in Reverse(listed) <==> x in rows && Listed(x, requester, userId) {
      ReverseMembership(listed, x);
      FilterMembership(rows, p, x);
    }
    if Ascending(rows, ReviewCreatedAt) {
      FilterAscending(rows, p, ReviewCreatedAt);
      ReverseDescending(listed, ReviewCreatedAt);
    }
  }

  /** `for_user`: 400 without `user_id`, else that profile's received reviews, newest first. */
  function ForUser(rows: seq<Review>, requester: ProfileId, userId: Option<nat>): (r: Result<seq<Review>, ReviewError>)
    ensures r.Err? <==> userId.None?
    ensures r.Err? ==> r.error == UserIdRequired
    ensures r.Ok? ==> forall x :: x in r.value <==> x in rows && x.reviewed == userId.value
    ensures r.Ok? && Ascending(rows, ReviewCreatedAt) ==> Descending(r.value, ReviewCreatedAt)
  {
    if userId.None? then Err(UserIdRequired)
    else Ok(VisibleReviews(rows, requester, userId))
  }

  /** The first review in `rows` with the given id. */
  function FindReview(rows: seq<Review>, id: ReviewId): (r: Option<Review>)
    ensures r.Some? ==> r.value in rows && r.value.id == id
    ensures r.None? ==> forall x :: x in rows ==> x.id != id
  {
    if rows == [] then None
    else if rows[0].id == id then Some(rows[0])
    else FindReview(rows[1..], id)
  }

  // ------------------------------------------------------- edits and deletes

  /** The review `id` is among those `get_queryset` lists for the request. */
  predicate Reachable(rows: seq<Review>, requester: ProfileId, userId: Option<nat>, id: ReviewId) {
    exists x :: x in rows && x.id == id && Listed(x, requester, userId)
  }

  /**
   * `update`: `get_object` through `get_queryset`, then the field validation
   * of the rating and the comment, then the ownership check of
   * `perform_update`; only rating and comment change, the comment stripped.
   */
  function EditReview(rows: seq<Review>, requester: ProfileId, userId: Option<nat>, id: ReviewId, rating: int, comment: string)
    : (r: Result<Review, ReviewError>)
    ensures r == Err(ReviewNotFound) <==> !Reachable(rows, requester, userId, id)
    ensures r == Err(InvalidRating) <==> Reachable(rows, requester, userId, id) && !ValidRating(rating)
    ensures r == Err(CommentRequired) <==> Reachable(rows, requester, userId, id) && ValidRating(rating) && !CommentGiven(comment)
    ensures r.Err? ==> r.error in {ReviewNotFound, InvalidRating, CommentRequired, CannotEditOthersReview}
    ensures r == Err(CannotEditOthersReview) ==> exists x :: x in rows && x.id == id && x.reviewer != requester
    ensures r.Ok? ==> ValidRating(rating) && CommentGiven(comment)
    ensures r.Ok? ==> exists x :: x in rows && x.id == id && x.reviewer == requester
                                  && r.value == x.(rating := rating, comment := Text.Trim(comment))
  {
    match FindReview(VisibleReviews(rows, requester, userId), id)
    case None => Err(ReviewNotFound)
    case Some(x) =>
      if !ValidRating(rating) then Err(InvalidRating)
      else if !CommentGiven(comment) then Err(CommentRequired)
      else if x.reviewer != requester then Err(CannotEditOthersReview)
      else Ok(x.(rating := rating, comment := Text.Trim(comment)))
  }

  /**
   * `update` as written, for a full (PUT) update whose payload may lack
   * `session_id`. That write-only field is required, so its absence is a
   * validation error raised with the rating validators; when it is given,
   * the serializer's update also writes it, moving the review to that session.
   */
  function EditReviewAsWritten(rows: seq<Review>, requester: ProfileId, userId: Option<nat>, id: ReviewId,
                               sessionId: Option<SessionId>, rating: int, comment: string)
    : (r: Result<Review, ReviewError>)
    ensures r == Err(ReviewNotFound) <==> !Reachable(rows, requester, userId, id)
    ensures r == Err(SessionIdRequired) <==> Reachable(rows, requester, userId, id) && sessionId.None?
    ensures sessionId.None? ==> r.Err?
    ensures r.Ok? ==> ValidRating(rating) && CommentGiven(comment)
    ensures r.Ok? ==> exists x :: x in rows && x.id == id && x.reviewer == requester
                                  && r.value == x.(session := sessionId.value, rating := rating, comment := Text.Trim(comment))
  {
    match FindReview(VisibleReviews(rows, requester, userId), id)
    case None => Err(ReviewNotFound)
    case Some(x) =>
      if sessionId.None? then Err(SessionIdRequired)
      else if !ValidRating(rating) then Err(InvalidRating)
      else if !CommentGiven(comment) then Err(CommentRequired)
      else if x.reviewer != requester then Err(CannotEditOthersReview)
      else Ok(x.(session := sessionId.value, rating := rating, comment := Text.Trim(comment)))
  }

  /**
   * A full update that leaves `session_id` out, as the edit dialog sends it,
   * is refused even for the author's own review with a valid rating.
   */
  lemma UpdateWithoutSessionIdRefused(rows: seq<Review>, x: Review, rating: int, comment: string)
    requires x in rows && ValidRating(rating)
    ensures EditReviewAsWritten(rows, x.reviewer, None, x.id, None, rating, comment) == Err(SessionIdRequired)
  {
    assert x in VisibleReviews(rows, x.reviewer, None);
  }

  /** `destroy`: `get_object`, then the ownership check of `perform_destroy`. */
  function DeleteReview(rows: seq<Review>, requester: ProfileId, userId: Option<nat>, id: ReviewId)
    : (r: Result<Review, ReviewError>)
    ensures r == Err(ReviewNotFound) <==> !Reachable(rows, requester, userId, id)
    ensures r.Err? ==> r.error in {ReviewNotFound, CannotDeleteOthersReview}
    ensures r == Err(CannotDeleteOthersReview) ==> exists x :: x in rows && x.id == id && x.reviewer != requester
    ensures r.Ok? ==> r.value in rows && r.value.id == id && r.value.reviewer == requester
  {
    match FindReview(VisibleReviews(rows, requester, userId), id)
    case None => Err(ReviewNotFound)
    case Some(x) =>
      if x.reviewer != requester then Err(CannotDeleteOthersReview)
      else Ok(x)
  }

  /**
   * Without `user_id`, a stranger gets 404 and the reviewed party gets 403: the
   * review is changed only by its author.
   */
  lemma OnlyAuthorChangesReview(rows: seq<Review>, x: Review, requester: ProfileId, rating: int, comment: string)
    requires forall i, j :: 0 <= i < j < |rows| ==> rows[i].id != rows[j].id
    requires x in rows && requester != x.reviewer
    ensures requester != x.reviewed ==>
              EditReview(rows, requester, None, x.id, rating, comment) == Err(ReviewNotFound)
              && DeleteReview(rows, requester, None, x.id) == Err(ReviewNotFound)
    ensures requester == x.reviewed ==>
              (ValidRating(rating) && CommentGiven(comment) ==>
                 EditReview(rows, requester, None, x.id, rating, comment) == Err(CannotEditOthersReview))
              && DeleteReview(rows, requester, None, x.id) == Err(CannotDeleteOthersReview)
  {
    var visible := VisibleReviews(rows, requester, None);
    if requester == x.reviewed {
      var found := FindReview(visible, x.id);
      var k :| 0 <= k < |rows| && rows[k] == x;
      var i :| 0 <= i < |rows| && rows[i] == found.value;
      assert i == k;
    }
  }

  // ------------------------------------------------------------ the aggregate

  /** The number of reviews naming `p` as reviewed: `reviews.count()` in `save()`. */
  function Received(rows: seq<Review>, p: ProfileId): (n: nat)
    ensures n <= |rows|
    ensures n == 0 <==> forall i :: 0 <= i < |rows| ==> rows[i].reviewed != p
  {
    if rows == [] then 0
    else (if rows[0].reviewed == p then 1 else 0) + Received(rows[1..], p)
  }

  lemma {:induction false} ReceivedAppend(rows: seq<Review>, x: Review, p: ProfileId)
    ensures Received(rows + [x], p) == Received(rows, p) + if x.reviewed == p then 1 else 0
    decreases |rows|
  {
    if rows == [] {
      assert rows + [x] == [x];
    } else {
      assert (rows + [x])[1..] == rows[1..] + [x];
      ReceivedAppend(rows[1..], x, p);
    }
  }

  /** The rows without the review `id`, in their order: `instance.delete()`. */
  function RemoveReview(rows: seq<Review>, id: ReviewId): (r: seq<Review>)
    ensures forall x :: x in r <==> x in rows && x.id != id
    ensures Subsequence(r, rows)
  {
    if rows == [] then []
    else if rows[0].id == id then RemoveReview(rows[1..], id)
    else [rows[0]] + RemoveReview(rows[1..], id)
  }

  /** Removing one review lowers its reviewed profile's count by one and no other. */
  lemma {:induction false} RemoveDropsReceived(rows: seq<Review>, x: Review, p: ProfileId)
    requires forall i, j :: 0 <= i < j < |rows| ==> rows[i].id != rows[j].id
    requires x in rows
    ensures Received(RemoveReview(rows, x.id), p) == Received(rows, p) - if x.reviewed == p then 1 else 0
    decreases |rows|
  {
    if rows[0] == x {
      assert forall y :: y in rows[1..] ==> y.id != x.id;
      RemoveAbsent(rows[1..], x.id);
    } else {
      var k :| 0 <= k < |rows| && rows[k] == x;
      assert rows[1..][k - 1] == x;
      RemoveDropsReceived(rows[1..], x, p);
      var r := RemoveReview(rows, x.id);
      assert r[0] == rows[0] && r[1..] == RemoveReview(rows[1..], x.id);
    }
  }

  lemma {:induction false} RemoveAbsent(rows: seq<Review>, id: ReviewId)
    requires forall y :: y in rows ==> y.id != id
    ensures RemoveReview(rows, id) == rows
    decreases |rows|
  {
    if rows != [] {
      assert rows[0] in rows;
      RemoveAbsent(rows[1..], id);
    }
  }

  /** The row with `x.id` replaced by `x`. */
  function ReplaceReview(rows: seq<Review>, x: Review): (r: seq<Review>)
    ensures |r| == |rows|
    ensures forall i :: 0 <= i < |rows| ==> r[i] == if rows[i].id == x.id then x else rows[i]
  {
    seq(|rows|, i requires 0 <= i < |rows| => if rows[i].id == x.id then x else rows[i])
  }

  /** Replacing a review by one about the same profile leaves every count as it was. */
  lemma {:induction false} ReplaceKeepsReceived(rows: seq<Review>, x: Review, p: ProfileId)
    requires forall i :: 0 <= i < |rows| && rows[i].id == x.id ==> rows[i].reviewed == x.reviewed
    ensures Received(ReplaceReview(rows, x), p) == Received(rows, p)
    decreases |rows|
  {
    if rows != [] {
      ReplaceKeepsReceived(rows[1..], x, p);
      assert ReplaceReview(rows, x)[1..] == ReplaceReview(rows[1..], x);
    }
  }

  ghost predicate ReviewsWellFormed(rows: seq<Review>, nextId: nat) {
    && (forall i :: 0 <= i < |rows| ==> rows[i].id < nextId && ValidRating(rows[i].rating))
    && (forall i, j :: 0 <= i < j < |rows| ==> rows[i].id != rows[j].id && !SameTriple(rows[i], rows[j]))
    && Ascending(rows, ReviewCreatedAt)
  }

  /** A profile's stored `review_count`; a profile without an entry has 0. */
  function CountOf(counts: map<ProfileId, nat>, p: ProfileId): nat {
    if p in counts then counts[p] else 0
  }

  /** No stored count is below the number of reviews the profile received. */
  ghost predicate CountsCover(counts: map<ProfileId, nat>, rows: seq<Review>) {
    forall p :: Received(rows, p) <= CountOf(counts, p)
  }

  /** Every stored count equals the number of reviews the profile received. */
  ghost predicate CountsExact(counts: map<ProfileId, nat>, rows: seq<Review>) {
    forall p :: CountOf(counts, p) == Received(rows, p)
  }

  /**
   * Recounting `q` after a change that touched only `q`'s reviews keeps the
   * counts covering, and exact if they were.
   */
  lemma Recount(counts: map<ProfileId, nat>, rows: seq<Review>, rows': seq<Review>, q: ProfileId)
    requires forall p :: p != q ==> Received(rows', p) == Received(rows, p)
    ensures CountsCover(counts, rows) ==> CountsCover(counts[q := Received(rows', q)], rows')
    ensures CountsExact(counts, rows) ==> CountsExact(counts[q := Received(rows', q)], rows')
    ensures CountOf(counts[q := Received(rows', q)], q) == Received(rows', q)
  {
    var counts' := counts[q := Received(rows', q)];
    forall p ensures CountOf(counts', p) == if p == q then Received(rows', q) else CountOf(counts, p) {
    }
  }

  /** Without a recount, the counts still cover a table that lost reviews. */
  lemma NoRecount(counts: map<ProfileId, nat>, rows: seq<Review>, rows': seq<Review>)
    requires forall p :: Received(rows', p) <= Received(rows, p)
    requires CountsCover(counts, rows)
    ensures CountsCover(counts, rows')
  {
  }

  /**
   * Removing a review without recounting: the counts still cover the table,
   * and an exact count for its reviewed profile is left one too high.
   */
  lemma StaleCountAfterRemove(counts: map<ProfileId, nat>, rows: seq<Review>, x: Review)
    requires forall i, j :: 0 <= i < j < |rows| ==> rows[i].id != rows[j].id
    requires x in rows && CountsCover(counts, rows)
    ensures CountsCover(counts, RemoveReview(rows, x.id))
    ensures CountsExact(counts, rows) ==> CountOf(counts, x.reviewed) == Received(RemoveReview(rows, x.id), x.reviewed) + 1
  {
    forall p ensures Received(RemoveReview(rows, x.id), p) == Received(rows, p) - if x.reviewed == p then 1 else 0 {
      RemoveDropsReceived(rows, x, p);
    }
    NoRecount(counts, rows, RemoveReview(rows, x.id));
  }

  /**
   * The `Review` table together with each profile's `review_count`. Every
   * stored review has a rating in 1..5 and a triple of its own; a stored count
   * never falls below the true number of received reviews.
   */
  class ReviewTable {
    var rows: seq<Review>
    /** `UserProfile.review_count` of each profile that has one. */
    var reviewCount: map<ProfileId, nat>
    var nextId: nat

    function StoredCount(p: ProfileId): nat
      reads this
    {
      CountOf(reviewCount, p)
    }

    ghost predicate Valid()
      reads this
    {
      ReviewsWellFormed(rows, nextId) && CountsCover(reviewCount, rows)
    }

    /** Every stored count equals the number of reviews the profile received. */
    ghost predicate Consistent()
      reads this
    {
      CountsExact(reviewCount, rows)
    }

    constructor ()
      ensures Valid() && Consistent() && rows == []
    {
      rows, reviewCount, nextId := [], map[], 1;
    }

    /**
     * `Review.save()`: store the row, then recount the reviewed profile's
     * reviews; no other profile's count changes.
     */
    method Save(x: Review)
      requires Valid()
      requires x.id == nextId && ValidRating(x.rating)
      requires !HasReview(rows, x.session, x.reviewer, x.reviewed)
      requires forall i :: 0 <= i < |rows| ==> rows[i].createdAt <= x.createdAt
      modifies this
      ensures Valid() && nextId == old(nextId) + 1
      ensures rows == old(rows) + [x]
      ensures reviewCount == old(reviewCount)[x.reviewed := Received(rows, x.reviewed)]
      ensures StoredCount(x.reviewed) == Received(rows, x.reviewed)
      ensures old(Consistent()) ==> Consistent()
    {
      AscendingAppend(rows, x, ReviewCreatedAt);
      forall p ensures Received(rows + [x], p) == Received(rows, p) + if x.reviewed == p then 1 else 0 {
        ReceivedAppend(rows, x, p);
      }
      Recount(reviewCount, rows, rows + [x], x.reviewed);
      rows := rows + [x];
      nextId := nextId + 1;
      reviewCount := reviewCount[x.reviewed := Received(rows, x.reviewed)];
    }

    /**
     * `POST /reviews/`: the checks of the serializer one after the other, each
     * returning early, then `save()`. `now` is the clock, which never runs
     * backwards.
     */
    method Create(sessions: seq<LearningSession>, profiles: set<ProfileId>, reviewer: ProfileId, req: ReviewRequest, now: Minutes)
      returns (r: Result<Review, ReviewError>)
      requires Valid()
      requires forall i :: 0 <= i < |rows| ==> rows[i].createdAt <= now
      modifies this
      ensures Valid()
      ensures var a := Admit(sessions, profiles, old(rows), reviewer, req);
        && (a.Err? ==> r == Err(a.error) && rows == old(rows) && reviewCount == old(reviewCount))
        && (a.Ok? ==> r == Ok(Review(old(nextId), req.sessionId, reviewer, a.value, req.rating, Text.Trim(req.comment), now)))
      ensures r.Ok? ==> rows == old(rows) + [r.value]
                        && reviewCount == old(reviewCount)[r.value.reviewed := Received(rows, r.value.reviewed)]
      ensures old(Consistent()) ==> Consistent()
    {
      if !ValidRating(req.rating) {
        return Err(InvalidRating);
      }
      if !CommentGiven(req.comment) {
        return Err(CommentRequired);
      }
      var found := FindSession(sessions, req.sessionId);
      if found.None? {
        return Err(SessionNotFound);
      }
      var s := found.value;
      if s.status != Completed {
        return Err(SessionNotCompleted);
      }
      var reviewed: ProfileId;
      if NamesReviewed(req) {
        var id := req.reviewedId.value;
        if id < 0 || id as nat !in profiles {
          return Err(ReviewedUserNotFound);
        }
        if !IsParticipant(s, id) {
          return Err(ReviewedNotParticipant);
        }
        reviewed := id;
      } else if s.learner == reviewer {
        reviewed := s.mentor;
      } else if s.mentor == reviewer {
        reviewed := s.learner;
      } else {
        return Err(ReviewerNotParticipant);
      }
      if !IsParticipant(s, reviewer) {
        return Err(ReviewerNotParticipant);
      }
      if HasReview(rows, s.id, reviewer, reviewed) {
        return Err(DuplicateReview);
      }
      var x := Review(nextId, s.id, reviewer, reviewed, req.rating, Text.Trim(req.comment), now);
      Save(x);
      r := Ok(x);
    }

    /** `PUT /reviews/{id}/` with a rating and a comment, saved through `save()`. */
    method Update(requester: ProfileId, userId: Option<nat>, id: ReviewId, rating: int, comment: string)
      returns (r: Result<Review, ReviewError>)
      requires Valid()
      modifies this
      ensures Valid() && nextId == old(nextId)
      ensures r == EditReview(old(rows), requester, userId, id, rating, comment)
      ensures r.Err? ==> rows == old(rows) && reviewCount == old(reviewCount)
      ensures r.Ok? ==> rows == ReplaceReview(old(rows), r.value)
                        && reviewCount == old(reviewCount)[r.value.reviewed := Received(rows, r.value.reviewed)]
      ensures old(Consistent()) ==> Consistent()
    {
      var found := FindReview(VisibleReviews(rows, requester, userId), id);
      if found.None? {
        return Err(ReviewNotFound);
      }
      var x := found.value;
      if !ValidRating(rating) {
        return Err(InvalidRating);
      }
      if !CommentGiven(comment) {
        return Err(CommentRequired);
      }
      if x.reviewer != requester {
        return Err(CannotEditOthersReview);
      }
      var y := x.(rating := rating, comment := Text.Trim(comment));
      EditKeepsWellFormed(rows, nextId, x, y);
      Recount(reviewCount, rows, ReplaceReview(rows, y), y.reviewed);
      rows := ReplaceReview(rows, y);
      reviewCount := reviewCount[y.reviewed := Received(rows, y.reviewed)];
      r := Ok(y);
    }

    /**
     * `DELETE /reviews/{id}/` as written: the row goes, but nothing recounts
     * the reviewed profile, so its stored count is left one too high.
     */
    method DestroyAsWritten(requester: ProfileId, userId: Option<nat>, id: ReviewId)
      returns (r: Result<Review, ReviewError>)
      requires Valid()
      modifies this
      ensures Valid() && nextId == old(nextId) && reviewCount == old(reviewCount)
      ensures r == DeleteReview(old(rows), requester, userId, id)
      ensures rows == if r.Ok? then RemoveReview(old(rows), id) else old(rows)
      ensures r.Ok? && old(Consistent()) ==> StoredCount(r.value.reviewed) == Received(rows, r.value.reviewed) + 1
    {
      r := DeleteReview(rows, requester, userId, id);
      if r.Ok? {
        StaleCountAfterRemove(reviewCount, rows, r.value);
        RemoveKeepsWellFormed(rows, nextId, id);
        rows := RemoveReview(rows, id);
      }
    }

    /** `DELETE /reviews/{id}/`, recounting the reviewed profile as `save()` does. */
    method Destroy(requester: ProfileId, userId: Option<nat>, id: ReviewId)
      returns (r: Result<Review, ReviewError>)
      requires Valid()
      modifies this
      ensures Valid() && nextId == old(nextId)
      ensures r == DeleteReview(old(rows), requester, userId, id)
      ensures r.Err? ==> rows == old(rows) && reviewCount == old(reviewCount)
      ensures r.Ok? ==> rows == RemoveReview(old(rows), id)
                        && reviewCount == old(reviewCount)[r.value.reviewed := Received(rows, r.value.reviewed)]
      ensures old(Consistent()) ==> Consistent()
    {
      r := DeleteReview(rows, requester, userId, id);
      if r.Ok? {
        var x := r.value;
        forall p ensures Received(RemoveReview(rows, id), p) == Received(rows, p) - if x.reviewed == p then 1 else 0 {
          RemoveDropsReceived(rows, x, p);
        }
        RemoveKeepsWellFormed(rows, nextId, id);
        Recount(reviewCount, rows, RemoveReview(rows, id), x.reviewed);
        rows := RemoveReview(rows, id);
        reviewCount := reviewCount[x.reviewed := Received(rows, x.reviewed)];
      }
    }
  }

  lemma RemoveKeepsWellFormed(rows: seq<Review>, nextId: nat, id: ReviewId)
    requires ReviewsWellFormed(rows, nextId)
    ensures ReviewsWellFormed(RemoveReview(rows, id), nextId)
  {
    var r := RemoveReview(rows, id);
    SubsequenceKeepsDistinct(r, rows);
    SubsequenceAscending(r, rows, ReviewCreatedAt);
    forall i | 0 <= i < |r| ensures r[i].id < nextId && ValidRating(r[i].rating) {
      assert r[i] in rows;
    }
  }

  /** Editing rating and comment keeps a table well formed and every count as it was. */
  lemma EditKeepsWellFormed(rows: seq<Review>, nextId: nat, x: Review, y: Review)
    requires ReviewsWellFormed(rows, nextId) && x in rows
    requires y == x.(rating := y.rating, comment := y.comment) && ValidRating(y.rating)
    ensures ReviewsWellFormed(ReplaceReview(rows, y), nextId)
    ensures forall p :: Received(ReplaceReview(rows, y), p) == Received(rows, p)
  {
    var r := ReplaceReview(rows, y);
    var k :| 0 <= k < |rows| && rows[k] == x;
    forall i | 0 <= i < |rows| && rows[i].id == y.id ensures rows[i] == x {
      assert i == k;
    }
    forall i | 0 <= i < |rows|
      ensures r[i].id == rows[i].id && r[i].createdAt == rows[i].createdAt && ValidRating(r[i].rating)
      ensures SameTriple(r[i], rows[i])
    {
    }
    forall p ensures Received(r, p) == Received(rows, p) {
      ReplaceKeepsReceived(rows, y, p);
    }
  }

  /** A subsequence of a well-formed table is distinct in ids and triples too. */
  lemma {:induction false} SubsequenceKeepsDistinct(r: seq<Review>, s: seq<Review>)
    requires Subsequence(r, s)
    requires forall i, j :: 0 <= i < j < |s| ==> s[i].id != s[j].id && !SameTriple(s[i], s[j])
    ensures forall i, j :: 0 <= i < j < |r| ==> r[i].id != r[j].id && !SameTriple(r[i], r[j])
    decreases |s|
  {
    if r != [] && s != [] {
      if r[0] == s[0] && Subsequence(r[1..], s[1..]) {
        SubsequenceKeepsDistinct(r[1..], s[1..]);
        SubsequenceMembers(r[1..], s[1..]);
        forall j | 0 < j < |r| ensures r[0].id != r[j].id && !SameTriple(r[0], r[j]) {
          assert r[j] == r[1..][j - 1];
          var k :| 0 <= k < |s[1..]| && s[1..][k] == r[j];
          assert s[k + 1] == r[j];
        }
        forall i, j | 0 < i < j < |r| ensures r[i].id != r[j].id && !SameTriple(r[i], r[j]) {
          assert r[i] == r[1..][i - 1] && r[j] == r[1..][j - 1];
        }
      } else {
        SubsequenceKeepsDistinct(r, s[1..]);
      }
    }
  }
}
