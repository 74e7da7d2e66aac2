/**
 * The page of one skill (SkillDetailPage.tsx): who is offered the booking
 * form, the checks `handleBookSession` makes, and the booking it sends.
 */
module SkillDetailPage {
  import opened Wrappers
  import opened Replies
  import opened Skills
  import opened LearningSessions
  import Text

  const DateRequiredError := "Please select a date and time"
  const BookingFallback := "Failed to book session"

  /** Where `handleBookSession` ends up. */
  datatype BookOutcome =
    | NavigateToLogin              // nobody is logged in
    | NotSent                      // an error message is shown instead
    | Sent(request: BookingRequest)

  class Page {
    const skill: Skill
    const user: Option<ProfileId>
    var showBookingForm: bool
    var scheduledDateTime: string
    var learnerMessage: string
    var error: string

    constructor (skill: Skill, user: Option<ProfileId>)
      ensures this.skill == skill && this.user == user
      ensures !showBookingForm && scheduledDateTime == "" && learnerMessage == "" && error == ""
    {
      this.skill, this.user := skill, user;
      showBookingForm, scheduledDateTime, learnerMessage, error := false, "", "", "";
    }

    /** `user?.id === skill.mentor.id`: false when nobody is logged in. */
    predicate IsOwnSkill()
      reads this
    {
      user.Some? && user.value == skill.mentor
    }

    /** The booking form is rendered only when opened, and never on one's own skill. */
    predicate FormShown()
      reads this
    {
      showBookingForm && !IsOwnSkill()
    }

    /** "Book a Session" is offered to a logged-in viewer who is not the skill's mentor. */
    predicate BookButtonShown()
      reads this
    {
      !IsOwnSkill() && user.Some?
    }

    /** "Login to Book Session" is offered to a viewer who is not logged in. */
    predicate LoginButtonShown()
      reads this
    {
      !IsOwnSkill() && user.None?
    }

    /** "Book a Session", enabled while the form is closed. */
    method OpenBookingForm()
      requires BookButtonShown() && !showBookingForm
      modifies this
      ensures FormShown()
      ensures scheduledDateTime == old(scheduledDateTime) && learnerMessage == old(learnerMessage) && error == old(error)
    {
      showBookingForm := true;
    }

    /** "Cancel" closes the form and keeps what was typed. */
    method CancelBooking()
      modifies this
      ensures !showBookingForm && !FormShown()
      ensures scheduledDateTime == old(scheduledDateTime) && learnerMessage == old(learnerMessage) && error == old(error)
    {
      showBookingForm := false;
    }

    method EditDateTime(text: string)
      modifies this
      ensures scheduledDateTime == text
      ensures showBookingForm == old(showBookingForm) && learnerMessage == old(learnerMessage) && error == old(error)
    {
      scheduledDateTime := text;
    }

    method EditMessage(text: string)
      modifies this
      ensures learnerMessage == text
      ensures showBookingForm == old(showBookingForm) && scheduledDateTime == old(scheduledDateTime) && error == old(error)
    {
      learnerMessage := text;
    }

    /**
     * `handleBookSession`. The error is cleared first; with nobody logged in
     * the page navigates to the login page; an empty date is reported; a date
     * the browser cannot read (`parsed` is None) fails before any request, with
     * the fallback text. Otherwise the booking is sent with the typed message
     * and no status: success resets and closes the form, failure shows the
     * server's detail or the fallback.
     */
    method HandleBookSession(parsed: Option<Minutes>, reply: Reply) returns (o: BookOutcome)
      modifies this
      ensures o == NavigateToLogin <==> user.None?
      ensures o == NavigateToLogin ==> error == "" && showBookingForm == old(showBookingForm)
      ensures user.Some? && old(scheduledDateTime) == "" ==> o == NotSent && error == DateRequiredError
      ensures o.Sent? <==> user.Some? && old(scheduledDateTime) != "" && parsed.Some?
      ensures o.Sent? ==> o.request == BookingRequest(skill.id, parsed.value, Some(old(learnerMessage)), None, None)
      ensures o.Sent? && reply.Succeeded? ==>
                !showBookingForm && scheduledDateTime == "" && learnerMessage == "" && error == ""
      ensures o.Sent? && reply.Failed? ==> error == ErrorText(reply.detail, BookingFallback)
      ensures user.Some? && old(scheduledDateTime) != "" && parsed.None? ==> o == NotSent && error == BookingFallback
      ensures error != "" ==> o == NotSent || (o.Sent? && reply.Failed?)
      ensures !(o.Sent? && reply.Succeeded?) ==>
                showBookingForm == old(showBookingForm) && scheduledDateTime == old(scheduledDateTime)
                && learnerMessage == old(learnerMessage)
    {
      error := "";
      if user.None? {
        return NavigateToLogin;
      }
      if scheduledDateTime == "" {
        error := DateRequiredError;
        return NotSent;
      }
      if parsed.None? {
        error := ErrorText(None, BookingFallback);
        return NotSent;
      }
      o := Sent(BookingRequest(skill.id, parsed.value, Some(learnerMessage), None, None));
      match reply
      case Succeeded =>
        showBookingForm, scheduledDateTime, learnerMessage := false, "", "";
      case Failed(detail) =>
        error := ErrorText(detail, BookingFallback);
    }
  }

  /**
   * A booking the page sends creates a PENDING session with the viewer as
   * learner, the skill's mentor as mentor and the typed message (stripped of
   * surrounding whitespace), under both
   * the serializer as written and the intended one, since it sends no status.
   */
  lemma SentBookingIsPending(skill: Skill, viewer: ProfileId, when: Minutes, message: string, id: SessionId, now: Minutes)
    ensures var req := BookingRequest(skill.id, when, Some(message), None, None);
      var s := NewSessionAsWritten(skill, viewer, req, id, now);
      && s == NewSession(skill, viewer, req, id, now)
      && s.status == Pending && s.learner == viewer && s.mentor == skill.mentor
      && s.learnerMessage == Text.Trim(message) && s.scheduledAt == when
  {
    NewSessionAgreesWithoutStatus(skill, viewer, BookingRequest(skill.id, when, Some(message), None, None), id, now);
  }

  /**
   * The page hides booking from a skill's own mentor, but the backend would
   * accept that booking: the rule lives only in the page.
   */
  lemma OwnSkillBookingOnlyHiddenByPage(p: Page, req: BookingRequest, id: SessionId, now: Minutes)
    requires p.IsOwnSkill()
    ensures !p.FormShown() && !p.BookButtonShown() && !p.LoginButtonShown()
    ensures var s := NewSession(p.skill, p.user.value, req, id, now); s.learner == s.mentor && s.status == Pending
  {
    SelfBookingAccepted(p.skill, req, id, now);
  }
}
