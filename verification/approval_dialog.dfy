/**
 * The approve/reject dialog (SessionApprovalDialog.tsx): the response text it
 * holds, when its submit button is enabled, and the request it sends.
 */
module ApprovalDialog {
  import opened Wrappers
  import opened Text
  import opened Replies
  import opened LearningSessions
  import opened SessionCard

  /**
   * The submit button is disabled while a request is pending, and for a
   * rejection whose trimmed response is empty.
   */
  predicate SubmitEnabled(action: ApprovalChoice, response: string, loading: bool) {
    !loading && !(action == RejectChoice && Trim(response) == "")
  }

  /** A rejection can be submitted exactly when the response has a non-whitespace character. */
  lemma RejectNeedsText(response: string)
    ensures SubmitEnabled(RejectChoice, response, false) <==> exists i :: 0 <= i < |response| && !IsWhitespace(response[i])
    ensures SubmitEnabled(ApproveChoice, response, false)
  {
    TrimEmptyIffBlank(response);
  }

  /**
   * The backend does not share the dialog's rule: the mentor's rejection with
   * a blank response, or none at all, is accepted and stored as given.
   */
  lemma BackendStoresBlankRejection(s: LearningSession, blank: string)
    requires forall i :: 0 <= i < |blank| ==> IsWhitespace(blank[i])
    ensures !SubmitEnabled(RejectChoice, blank, false)
    ensures Step(s, s.mentor, Reject(Some(blank))) == Ok(s.(status := Rejected, mentorResponse := blank))
    ensures Step(s, s.mentor, Reject(None)) == Ok(s.(status := Rejected, mentorResponse := ""))
  {
    TrimEmptyIffBlank(blank);
  }

  /** The request the dialog sends: the action on the session, with the response text. */
  function Request(action: ApprovalChoice, response: string): (a: SessionAction)
    ensures a.Approve? <==> action == ApproveChoice
    ensures a.Approve? || a.Reject?
    ensures a.response == Some(response)
  {
    if action == ApproveChoice then Approve(Some(response)) else Reject(Some(response))
  }

  class Dialog {
    const session: Option<LearningSession>
    const action: ApprovalChoice
    var mentorResponse: string
    var isOpen: bool

    constructor (session: Option<LearningSession>, action: ApprovalChoice)
      ensures this.session == session && this.action == action
      ensures mentorResponse == "" && isOpen
    {
      this.session, this.action := session, action;
      mentorResponse, isOpen := "", true;
    }

    /** The textarea's `onChange`. */
    method EditResponse(text: string)
      modifies this
      ensures mentorResponse == text && isOpen == old(isOpen)
    {
      mentorResponse := text;
    }

    /**
     * `handleSubmit`: with no session nothing is sent; otherwise the action's
     * request carries the response text as typed. Success clears the text and
     * closes the dialog; failure leaves both as they were.
     */
    method HandleSubmit(reply: Reply) returns (sent: Option<(SessionId, SessionAction)>)
      modifies this
      ensures session.None? ==> sent.None? && mentorResponse == old(mentorResponse) && isOpen == old(isOpen)
      ensures session.Some? ==> sent == Some((session.value.id, Request(action, old(mentorResponse))))
      ensures session.Some? && reply.Succeeded? ==> mentorResponse == "" && !isOpen
      ensures reply.Failed? ==> mentorResponse == old(mentorResponse) && isOpen == old(isOpen)
    {
      if session.None? {
        return None;
      }
      sent := Some((session.value.id, Request(action, mentorResponse)));
      if reply.Succeeded? {
        mentorResponse := "";
        isOpen := false;
      }
    }
  }

  /**
   * What an approval sent by the session's mentor from a PENDING card does on
   * the backend: the session becomes APPROVED with the typed response.
   */
  lemma SubmittedApprovalTakesEffect(rows: seq<LearningSession>, s: LearningSession, response: string)
    requires forall i, j :: 0 <= i < j < |rows| ==> rows[i].id != rows[j].id
    requires s in rows && CanApprove(Some(s.mentor), s)
    ensures Perform(rows, s.mentor, s.id, Request(ApproveChoice, response)).Ok?
    ensures Perform(rows, s.mentor, s.id, Request(ApproveChoice, response)).value.status == Approved
    ensures Perform(rows, s.mentor, s.id, Request(ApproveChoice, response)).value.mentorResponse == response
  {
    PerformOnVisible(rows, s.mentor, s, Request(ApproveChoice, response));
  }
}
