/**
 * The reviews panel of a completed session (MutualReviewSection.tsx): the
 * reviews it shows, whether it thinks the viewer has already reviewed, and
 * which review form it offers. The list it works on comes from
 * `GET /reviews/?session=<id>`.
 */
module MutualReviews {
  import opened Wrappers
  import opened Seqs
  import opened LearningSessions
  import opened Reviews
  import Text

  /** The first review in `reviews` written by `reviewer`: `reviews.find(...)`. */
  function FirstBy(reviews: seq<Review>, reviewer: ProfileId): (r: Option<Review>)
    ensures r.Some? ==> r.value in reviews && r.value.reviewer == reviewer
    ensures r.Some? ==> exists i :: 0 <= i < |reviews| && reviews[i] == r.value
                                    && forall j :: 0 <= j < i ==> reviews[j].reviewer != reviewer
    ensures r.None? <==> forall i :: 0 <= i < |reviews| ==> reviews[i].reviewer != reviewer
  {
    if reviews == [] then None
    else if reviews[0].reviewer == reviewer then Some(reviews[0])
    else
      var rest := FirstBy(reviews[1..], reviewer);
      if rest.Some? then
        var i :| 0 <= i < |reviews[1..]| && reviews[1..][i] == rest.value
                 && forall j :: 0 <= j < i ==> reviews[1..][j].reviewer != reviewer;
        assert reviews[i + 1] == rest.value;
        rest
      else rest
  }

  /** `reviews.some(r => r.reviewer.id === user.id)`. */
  predicate HasReviewedOther(reviews: seq<Review>, user: ProfileId) {
    exists i :: 0 <= i < |reviews| && reviews[i].reviewer == user
  }

  /** The panel as rendered. */
  datatype Panel =
    | Hidden                          // no logged-in user
    | Shown(
        mentorReview: Option<Review>,
        learnerReview: Option<Review>,
        offerReviewOfLearner: bool,   // the mentor's "Review ... (Learner)" button
        offerReviewOfMentor: bool,    // the learner's "Review ... (Mentor)" button
        thankYou: bool)

  function RenderPanel(user: Option<ProfileId>, s: LearningSession, reviews: seq<Review>): (p: Panel)
    ensures p.Hidden? <==> user.None?
    ensures p.Shown? ==> (p.thankYou <==> HasReviewedOther(reviews, user.value))
    ensures p.Shown? ==> (p.offerReviewOfLearner <==> user.value == s.mentor && !p.thankYou)
    ensures p.Shown? ==> (p.offerReviewOfMentor <==> user.value == s.learner && !p.thankYou)
    ensures p.Shown? ==> p.mentorReview == FirstBy(reviews, s.mentor) && p.learnerReview == FirstBy(reviews, s.learner)
    ensures p.Shown? && !IsParticipant(s, user.value) ==> !p.offerReviewOfLearner && !p.offerReviewOfMentor
    ensures p.Shown? && p.mentorReview.Some? ==> p.mentorReview.value in reviews && p.mentorReview.value.reviewer == s.mentor
    ensures p.Shown? && p.learnerReview.Some? ==> p.learnerReview.value in reviews && p.learnerReview.value.reviewer == s.learner
  {
    if user.None? then Hidden
    else
      var u := user.value;
      var reviewed := HasReviewedOther(reviews, u);
      Shown(FirstBy(reviews, s.mentor), FirstBy(reviews, s.learner),
            !reviewed && u == s.mentor, !reviewed && u == s.learner, reviewed)
  }

  /**
   * The list the panel receives as written: the `session` parameter is not
   * one `get_queryset` reads, so it is every review the viewer wrote or
   * received, on any session.
   */
  function FetchedAsWritten(rows: seq<Review>, user: ProfileId, session: SessionId): (r: seq<Review>)
    ensures forall x :: x in r <==> x in rows && (x.reviewer == user || x.reviewed == user)
  {
    VisibleReviews(rows, user, None)
  }

  /** The list as evidently intended: the viewer's reviews of this session only. */
  function Fetched(rows: seq<Review>, user: ProfileId, session: SessionId): (r: seq<Review>)
    ensures forall x :: x in r <==> x in rows && (x.reviewer == user || x.reviewed == user) && x.session == session
    ensures Subsequence(r, VisibleReviews(rows, user, None))
  {
    var visible := VisibleReviews(rows, user, None);
    var p := (x: Review) => x.session == session;
    forall x ensures x in Filter(visible, p) <==> x in visible && x.session == session {
      FilterMembership(visible, p, x);
    }
    FilterIsSubsequence(visible, p);
    Filter(visible, p)
  }

  /** With the intended list, "already reviewed" means: wrote a review of this session. */
  lemma HasReviewedOtherExact(rows: seq<Review>, user: ProfileId, session: SessionId)
    ensures HasReviewedOther(Fetched(rows, user, session), user) <==>
            exists x :: x in rows && x.session == session && x.reviewer == user
  {
    var f := Fetched(rows, user, session);
    if exists x :: x in rows && x.session == session && x.reviewer == user {
      var x :| x in rows && x.session == session && x.reviewer == user;
      var i :| 0 <= i < |f| && f[i] == x;
    }
  }

  /**
   * As written, a learner who reviewed their mentor after one session is told
   * they already reviewed the next one and is offered no form, though the
   * backend would accept that review; the earlier session's review is shown as
   * the learner's review of this one.
   */
  lemma ReviewOfEarlierSessionBlocksNext()
    ensures var rows := [Review(1, 1, 10, 20, 5, "great", 60)];
      var second := LearningSession(2, 7, 10, 20, 100, Completed, "", "", 50);
      var panel := RenderPanel(Some(10), second, FetchedAsWritten(rows, 10, 2));
      && panel.thankYou && !panel.offerReviewOfMentor
      && panel.learnerReview == Some(rows[0]) && rows[0].session != second.id
      && !RenderPanel(Some(10), second, Fetched(rows, 10, 2)).thankYou
  {
    var rows := [Review(1, 1, 10, 20, 5, "great", 60)];
    var second := LearningSession(2, 7, 10, 20, 100, Completed, "", "", 50);
    FetchedOwnReview(rows[0], 10, 2);
    OwnReviewOnly(second, rows[0]);
    HasReviewedOtherExact(rows, 10, 2);
  }

  /** A table holding just one review the viewer wrote lists just that review, as written. */
  lemma FetchedOwnReview(x: Review, user: ProfileId, session: SessionId)
    requires x.reviewer == user
    ensures FetchedAsWritten([x], user, session) == [x]
  {
    var p := (y: Review) => Listed(y, user, None);
    FilterAll([x], p);
    assert Reverse([x]) == [x];
  }

  /** A list holding only the learner's own review marks the learner as done. */
  lemma OwnReviewOnly(s: LearningSession, x: Review)
    requires x.reviewer == s.learner && s.learner != s.mentor
    ensures var panel := RenderPanel(Some(s.learner), s, [x]);
      panel.thankYou && !panel.offerReviewOfMentor && panel.learnerReview == Some(x)
  {
    assert HasReviewedOther([x], s.learner) by {
      assert [x][0].reviewer == s.learner;
    }
  }

  /** The review the panel withheld in the example above is one the backend accepts. */
  lemma WithheldReviewIsAdmitted()
    ensures var first := LearningSession(1, 7, 10, 20, 0, Completed, "", "", 0);
      var second := LearningSession(2, 7, 10, 20, 100, Completed, "", "", 50);
      Admit([first, second], {10, 20}, [Review(1, 1, 10, 20, 5, "great", 60)], 10, ReviewRequest(2, Some(20), 4, "again")) == Ok(20)
  {
    var first := LearningSession(1, 7, 10, 20, 0, Completed, "", "", 0);
    var second := LearningSession(2, 7, 10, 20, 100, Completed, "", "", 50);
    var rows := [Review(1, 1, 10, 20, 5, "great", 60)];
    assert FindSession([first, second], 2) == Some(second) by {
      assert [first, second][1..] == [second];
    }
    var req := ReviewRequest(2, Some(20), 4, "again");
    assert !HasReview(rows, 2, 10, 20);
    assert CommentGiven("again") by {
      assert !Text.IsWhitespace("again"[0]);
    }
    assert ReviewTarget(second, {10, 20}, 10, req) == Ok(20);
    AdmitAccepts([first, second], {10, 20}, rows, 10, req, second, 20);
  }

  /** The as-written list only adds reviews: it never misses one the intended list has. */
  lemma AsWrittenOverApproximates(rows: seq<Review>, user: ProfileId, session: SessionId)
    ensures HasReviewedOther(Fetched(rows, user, session), user) ==> HasReviewedOther(FetchedAsWritten(rows, user, session), user)
  {
    var f := Fetched(rows, user, session);
    var w := FetchedAsWritten(rows, user, session);
    if HasReviewedOther(f, user) {
      var i :| 0 <= i < |f| && f[i].reviewer == user;
      assert f[i] in w;
      var j :| 0 <= j < |w| && w[j] == f[i];
    }
  }

  /**
   * With the intended list, a form the panel offers submits a review the
   * backend accepts: the review of the other party of a completed session
   * the viewer has not yet reviewed.
   */
  lemma OfferedReviewAdmitted(sessions: seq<LearningSession>, profiles: set<ProfileId>, rows: seq<Review>,
                              s: LearningSession, u: ProfileId, rating: int, comment: string)
    requires FindSession(sessions, s.id) == Some(s) && s.status == Completed
    requires s.learner in profiles && s.mentor in profiles
    requires ValidRating(rating) && CommentGiven(comment)
    ensures var p := RenderPanel(Some(u), s, Fetched(rows, u, s.id));
      && (p.offerReviewOfLearner ==>
            Admit(sessions, profiles, rows, u, ReviewRequest(s.id, Some(s.learner), rating, comment)) == Ok(s.learner))
      && (p.offerReviewOfMentor ==>
            Admit(sessions, profiles, rows, u, ReviewRequest(s.id, Some(s.mentor), rating, comment)) == Ok(s.mentor))
  {
    var p := RenderPanel(Some(u), s, Fetched(rows, u, s.id));
    HasReviewedOtherExact(rows, u, s.id);
    if p.offerReviewOfLearner || p.offerReviewOfMentor {
      assert !exists x :: x in rows && x.session == s.id && x.reviewer == u;
      assert !HasReview(rows, s.id, u, s.learner) && !HasReview(rows, s.id, u, s.mentor) by {
        forall i | 0 <= i < |rows| ensures !(rows[i].session == s.id && rows[i].reviewer == u) {
          assert rows[i] in rows;
        }
      }
      if p.offerReviewOfLearner {
        var req := ReviewRequest(s.id, Some(s.learner), rating, comment);
        assert ReviewTarget(s, profiles, u, req) == Ok(s.learner);
        AdmitAccepts(sessions, profiles, rows, u, req, s, s.learner);
      } else {
        var req := ReviewRequest(s.id, Some(s.mentor), rating, comment);
        assert ReviewTarget(s, profiles, u, req) == Ok(s.mentor);
        AdmitAccepts(sessions, profiles, rows, u, req, s, s.mentor);
      }
    }
  }

  /** The panel's two form toggles. */
  class Section {
    const session: LearningSession
    var showReviewMentor: bool
    var showReviewLearner: bool

    constructor (session: LearningSession)
      ensures this.session == session && !showReviewMentor && !showReviewLearner
    {
      this.session := session;
      showReviewMentor, showReviewLearner := false, false;
    }

    /** The mentor's button flips the form for reviewing the learner. */
    method ToggleReviewLearner()
      modifies this
      ensures showReviewLearner == !old(showReviewLearner) && showReviewMentor == old(showReviewMentor)
    {
      showReviewLearner := !showReviewLearner;
    }

    /** The learner's button flips the form for reviewing the mentor. */
    method ToggleReviewMentor()
      modifies this
      ensures showReviewMentor == !old(showReviewMentor) && showReviewLearner == old(showReviewLearner)
    {
      showReviewMentor := !showReviewMentor;
    }

    /** A form's `onSuccess` closes it. */
    method ReviewSubmitted(ofMentor: bool)
      modifies this
      ensures ofMentor ==> !showReviewMentor && showReviewLearner == old(showReviewLearner)
      ensures !ofMentor ==> !showReviewLearner && showReviewMentor == old(showReviewMentor)
    {
      if ofMentor {
        showReviewMentor := false;
      } else {
        showReviewLearner := false;
      }
    }
  }
}
