/**
 * The session card (EnhancedSessionCard.tsx): which controls each status
 * exposes to the viewer, the panels its toggles open, and how those controls
 * compare with what the backend accepts.
 */
module SessionCard {
  import opened Wrappers
  import opened LearningSessions

  /** `user?.id === session.mentor.id`: false when nobody is logged in. */
  predicate IsMentor(user: Option<ProfileId>, s: LearningSession) {
    user.Some? && user.value == s.mentor
  }

  predicate CanApprove(user: Option<ProfileId>, s: LearningSession) {
    IsMentor(user, s) && s.status == Pending
  }

  predicate CanEditTime(st: Status) {
    st != Completed && st != Cancelled
  }

  predicate CanChat(st: Status) {
    st == Approved || st == Completed
  }

  predicate CanComplete(st: Status) {
    st == Approved
  }

  predicate CanReview(st: Status) {
    st == Completed
  }

  /** What the card renders besides the session's text. */
  datatype CardView = CardView(
    approve: bool,
    reject: bool,
    editTime: bool,
    chatToggle: bool,
    complete: bool,
    reviewsToggle: bool,
    chatPanel: bool,
    reviewsPanel: bool)

  /** The card's controls and panels for a viewer and the two panel toggles. */
  function View(user: Option<ProfileId>, s: LearningSession, showChat: bool, showReviews: bool): (v: CardView)
    ensures v.approve == v.reject
    ensures v.approve ==> v.editTime && !v.chatToggle && !v.complete && !v.reviewsToggle
    ensures !(v.complete && v.reviewsToggle)
    ensures v.complete ==> v.editTime && v.chatToggle
    ensures v.reviewsToggle ==> v.chatToggle && !v.editTime
    ensures v.chatPanel <==> showChat && v.chatToggle
    ensures v.reviewsPanel <==> showReviews && v.reviewsToggle
    ensures v.approve ==> user == Some(s.mentor)
  {
    CardView(
      CanApprove(user, s), CanApprove(user, s), CanEditTime(s.status), CanChat(s.status),
      CanComplete(s.status), CanReview(s.status),
      showChat && CanChat(s.status), showReviews && CanReview(s.status))
  }

  /** The controls, status by status; approve and reject also need the mentor as viewer. */
  lemma ControlsByStatus(user: Option<ProfileId>, s: LearningSession, showChat: bool, showReviews: bool)
    ensures var v := View(user, s, showChat, showReviews);
      && (s.status == Pending ==> v.editTime && !v.chatToggle && !v.complete && !v.reviewsToggle && (v.approve <==> IsMentor(user, s)))
      && (s.status == Approved ==> v.editTime && v.chatToggle && v.complete && !v.reviewsToggle && !v.approve)
      && (s.status == Rejected ==> v.editTime && !v.chatToggle && !v.complete && !v.reviewsToggle && !v.approve)
      && (s.status == Completed ==> !v.editTime && v.chatToggle && !v.complete && v.reviewsToggle && !v.approve)
      && (s.status == Cancelled ==> !v.editTime && !v.chatToggle && !v.complete && !v.reviewsToggle && !v.approve)
  {
  }

  /**
   * Every action the card offers on one of the viewer's sessions is accepted
   * by the backend and has the effect its label promises.
   */
  lemma OfferedActionsSucceed(rows: seq<LearningSession>, u: ProfileId, s: LearningSession, response: string, t: Minutes)
    requires forall i, j :: 0 <= i < j < |rows| ==> rows[i].id != rows[j].id
    requires s in rows && IsParticipant(s, u)
    ensures var v := View(Some(u), s, false, false);
      && (v.approve ==> Perform(rows, u, s.id, Approve(Some(response))) == Ok(s.(status := Approved, mentorResponse := response)))
      && (v.reject ==> Perform(rows, u, s.id, Reject(Some(response))) == Ok(s.(status := Rejected, mentorResponse := response)))
      && (v.editTime ==> Perform(rows, u, s.id, EditTime(Some(t))).Ok?)
      && (v.complete ==> Perform(rows, u, s.id, Complete) == Ok(s.(status := Completed)))
  {
    if IsMentor(Some(u), s) {
      MentorDecisionTakesEffect(rows, s, response);
    }
    if CanEditTime(s.status) {
      PerformOnVisible(rows, u, s, EditTime(Some(t)));
    }
    if CanComplete(s.status) {
      CompleteTakesEffect(rows, u, s);
    }
  }

  /** The mentor's approve and reject, sent for one of their sessions, take effect. */
  lemma MentorDecisionTakesEffect(rows: seq<LearningSession>, s: LearningSession, response: string)
    requires forall i, j :: 0 <= i < j < |rows| ==> rows[i].id != rows[j].id
    requires s in rows
    ensures Perform(rows, s.mentor, s.id, Approve(Some(response))) == Ok(s.(status := Approved, mentorResponse := response))
    ensures Perform(rows, s.mentor, s.id, Reject(Some(response))) == Ok(s.(status := Rejected, mentorResponse := response))
  {
    PerformOnVisible(rows, s.mentor, s, Approve(Some(response)));
    PerformOnVisible(rows, s.mentor, s, Reject(Some(response)));
  }

  /** A participant's complete, sent for one of their sessions, takes effect. */
  lemma CompleteTakesEffect(rows: seq<LearningSession>, u: ProfileId, s: LearningSession)
    requires forall i, j :: 0 <= i < j < |rows| ==> rows[i].id != rows[j].id
    requires s in rows && IsParticipant(s, u)
    ensures Perform(rows, u, s.id, Complete) == Ok(s.(status := Completed))
  {
    PerformOnVisible(rows, u, s, Complete);
  }

  /**
   * The backend is more permissive than the card: the mentor may approve or
   * reject outside PENDING, complete outside APPROVED, and move a COMPLETED or
   * CANCELLED session, none of which the card offers.
   */
  lemma BackendAcceptsHiddenActions(s: LearningSession, t: Minutes)
    ensures s.status != Pending ==>
              !View(Some(s.mentor), s, false, false).approve && Step(s, s.mentor, Approve(None)).Ok?
              && !View(Some(s.mentor), s, false, false).reject && Step(s, s.mentor, Reject(None)).Ok?
    ensures s.status != Approved ==>
              !View(Some(s.mentor), s, false, false).complete && Step(s, s.mentor, Complete).Ok?
    ensures s.status in {Completed, Cancelled} ==>
              !View(Some(s.mentor), s, false, false).editTime && Step(s, s.mentor, EditTime(Some(t))).Ok?
  {
  }

  /** Which action the approval dialog is opened for. */
  datatype ApprovalChoice = ApproveChoice | RejectChoice

  /** The card's own state: the dialog it opens and its two panel toggles. */
  class Card {
    const session: LearningSession
    const user: Option<ProfileId>
    var showApprovalDialog: bool
    var approvalAction: ApprovalChoice
    var showEditTimeDialog: bool
    var showChat: bool
    var showMutualReviews: bool

    constructor (session: LearningSession, user: Option<ProfileId>)
      ensures this.session == session && this.user == user
      ensures !showApprovalDialog && approvalAction == ApproveChoice && !showEditTimeDialog
      ensures !showChat && !showMutualReviews
    {
      this.session, this.user := session, user;
      showApprovalDialog, approvalAction, showEditTimeDialog := false, ApproveChoice, false;
      showChat, showMutualReviews := false, false;
    }

    function Rendered(): CardView
      reads this
    {
      View(user, session, showChat, showMutualReviews)
    }

    /** `handleApprove` and `handleReject`: open the dialog for the chosen action. */
    method OpenApproval(choice: ApprovalChoice)
      modifies this
      ensures approvalAction == choice && showApprovalDialog
      ensures showEditTimeDialog == old(showEditTimeDialog) && showChat == old(showChat)
      ensures showMutualReviews == old(showMutualReviews)
    {
      approvalAction := choice;
      showApprovalDialog := true;
    }

    /** The dialog's `onClose`. */
    method CloseApproval()
      modifies this
      ensures !showApprovalDialog && approvalAction == old(approvalAction)
      ensures showEditTimeDialog == old(showEditTimeDialog) && showChat == old(showChat)
      ensures showMutualReviews == old(showMutualReviews)
    {
      showApprovalDialog := false;
    }

    /** "Edit Time" opens the time dialog. */
    method OpenEditTime()
      modifies this
      ensures showEditTimeDialog
      ensures showApprovalDialog == old(showApprovalDialog) && approvalAction == old(approvalAction)
      ensures showChat == old(showChat) && showMutualReviews == old(showMutualReviews)
    {
      showEditTimeDialog := true;
    }

    /**
     * `handleComplete`: sends the complete action for this session; a failure
     * is only logged, and no state of the card changes either way.
     */
    method HandleComplete() returns (sent: (SessionId, SessionAction))
      ensures sent == (session.id, Complete)
    {
      sent := (session.id, Complete);
    }

    /** "Show Chat" / "Hide Chat". */
    method ToggleChat()
      modifies this
      ensures showChat == !old(showChat)
      ensures showApprovalDialog == old(showApprovalDialog) && approvalAction == old(approvalAction)
      ensures showEditTimeDialog == old(showEditTimeDialog) && showMutualReviews == old(showMutualReviews)
      ensures Rendered().chatPanel <==> !old(Rendered().chatPanel) && CanChat(session.status)
    {
      showChat := !showChat;
    }

    /** "Session Reviews" / "Hide Reviews". */
    method ToggleReviews()
      modifies this
      ensures showMutualReviews == !old(showMutualReviews)
      ensures showApprovalDialog == old(showApprovalDialog) && approvalAction == old(approvalAction)
      ensures showEditTimeDialog == old(showEditTimeDialog) && showChat == old(showChat)
      ensures Rendered().reviewsPanel <==> !old(Rendered().reviewsPanel) && CanReview(session.status)
    {
      showMutualReviews := !showMutualReviews;
    }
  }
}
