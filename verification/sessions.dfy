/**
 * The learning-session lifecycle on the backend (learning_sessions/models.py,
 * views.py and serializers.py): the closed status set, who sees which
 * session, the four transitions approve, reject, edit_time and complete, the
 * update the viewset inherits, the per-session message thread, and how a
 * booking creates a session.
 */
module LearningSessions {
  import opened Wrappers
  import opened Seqs
  import Skills
  import Text

  type ProfileId = nat
  type SessionId = nat
  /** Times are whole minutes on one clock. */
  type Minutes = int

  datatype Status = Pending | Approved | Rejected | Completed | Cancelled

  /** Width of the `status` column. */
  const StatusColumnWidth := 10

  /** The code stored in the `status` column. */
  function StatusCode(st: Status): (code: string)
    ensures 0 < |code| <= StatusColumnWidth
  {
    match st
    case Pending => "PENDING"
    case Approved => "APPROVED"
    case Rejected => "REJECTED"
    case Completed => "COMPLETED"
    case Cancelled => "CANCELLED"
  }

  /** Reads a stored code back; only the five codes are statuses. */
  function ParseStatus(code: string): (r: Option<Status>)
    ensures r.Some? ==> StatusCode(r.value) == code
    ensures r.None? ==> forall st :: StatusCode(st) != code
  {
    if code == "PENDING" then Some(Pending)
    else if code == "APPROVED" then Some(Approved)
    else if code == "REJECTED" then Some(Rejected)
    else if code == "COMPLETED" then Some(Completed)
    else if code == "CANCELLED" then Some(Cancelled)
    else None
  }

  lemma StatusCodeRoundTrip(st: Status)
    ensures ParseStatus(StatusCode(st)) == Some(st)
  {
  }

  /** A stored session. `learnerMessage` and `mentorResponse` may be "". */
  datatype LearningSession = LearningSession(
    id: SessionId,
    skill: Skills.SkillId,
    learner: ProfileId,
    mentor: ProfileId,
    scheduledAt: Minutes,
    status: Status,
    learnerMessage: string,
    mentorResponse: string,
    createdAt: Minutes)

  datatype SessionMessage = SessionMessage(
    id: nat,
    session: SessionId,
    sender: ProfileId,
    message: string,
    createdAt: Minutes)

  function CreatedAt(s: LearningSession): int { s.createdAt }
  function MessageCreatedAt(m: SessionMessage): int { m.createdAt }

  predicate IsParticipant(s: LearningSession, user: ProfileId) {
    s.learner == user || s.mentor == user
  }

  // ---------------------------------------------------------------- listings

  /** `get_queryset`: the sessions the requester takes part in, newest first. */
  function VisibleSessions(rows: seq<LearningSession>, user: ProfileId): (r: seq<LearningSession>)
    ensures forall s :: s in r <==> s in rows && IsParticipant(s, user)
    ensures Ascending(rows, CreatedAt) ==> Descending(r, CreatedAt)
  {
    var mine := Filter(rows, (s: LearningSession) => IsParticipant(s, user));
    VisibleFacts(rows, user, mine);
    Reverse(mine)
  }

  lemma VisibleFacts(rows: seq<LearningSession>, user: ProfileId, mine: seq<LearningSession>)
    requires mine == Filter(rows, (s: LearningSession) => IsParticipant(s, user))
    ensures forall s :: s in Reverse(mine) <==> s in rows && IsParticipant(s, user)
    ensures Ascending(rows, CreatedAt) ==> Descending(Reverse(mine), CreatedAt)
  {
    var p := (s: LearningSession) => IsParticipant(s, user);
    forall s ensures s in Reverse(mine) <==> s in rows && IsParticipant(s, user) {
      ReverseMembership(mine, s);
      FilterMembership(rows, p, s);
    }
    if Ascending(rows, CreatedAt) {
      FilterAscending(rows, p, CreatedAt);
      ReverseDescending(mine, CreatedAt);
    }
  }

  /** `as_learner`: the sessions the requester books, in table order. */
  function AsLearner(rows: seq<LearningSession>, user: ProfileId): (r: seq<LearningSession>)
    ensures forall s :: s in r <==> s in rows && s.learner == user
    ensures Subsequence(r, rows)
  {
    var p := (s: LearningSession) => s.learner == user;
    forall s ensures s in Filter(rows, p) <==> s in rows && s.learner == user {
      FilterMembership(rows, p, s);
    }
    FilterIsSubsequence(rows, p);
    Filter(rows, p)
  }

  /** `as_mentor`: the sessions the requester teaches, in table order. */
  function AsMentor(rows: seq<LearningSession>, user: ProfileId): (r: seq<LearningSession>)
    ensures forall s :: s in r <==> s in rows && s.mentor == user
    ensures Subsequence(r, rows)
  {
    var p := (s: LearningSession) => s.mentor == user;
    forall s ensures s in Filter(rows, p) <==> s in rows && s.mentor == user {
      FilterMembership(rows, p, s);
    }
    FilterIsSubsequence(rows, p);
    Filter(rows, p)
  }

  /** The first session in `rows` with the given id. */
  function FindSession(rows: seq<LearningSession>, id: SessionId): (r: Option<LearningSession>)
    ensures r.Some? ==> r.value in rows && r.value.id == id
    ensures r.None? ==> forall s :: s in rows ==> s.id != id
  {
    if rows == [] then None
    else if rows[0].id == id then Some(rows[0])
    else FindSession(rows[1..], id)
  }

  /**
   * `get_object` of a detail action: the lookup goes through `get_queryset`,
   * so a session the requester does not take part in is not found at all.
   */
  function GetObject(rows: seq<LearningSession>, user: ProfileId, id: SessionId): (r: Option<LearningSession>)
    ensures r.Some? ==> r.value in rows && r.value.id == id && IsParticipant(r.value, user)
    ensures r.None? ==> forall s :: s in rows && s.id == id ==> !IsParticipant(s, user)
  {
    FindSession(VisibleSessions(rows, user), id)
  }

  // ------------------------------------------------------------- transitions

  /** A detail action on one session, with what the request carried. */
  datatype SessionAction =
    | Approve(response: Option<string>)   // `mentor_response`, None when absent
    | Reject(response: Option<string>)
    | EditTime(newTime: Option<Minutes>)  // None when absent or empty
    | Complete

  datatype SessionError =
    | NotFound                            // get_object's 404
    | OnlyMentorCanApprove                // 403
    | OnlyMentorCanReject                 // 403
    | OnlyParticipantsCanEditTime         // 403
    | ScheduledDatetimeRequired           // 400
    | OnlyParticipantsCanAccessMessages   // 403
    | MessageRequired                     // 400
    | OnlyParticipantsCanComplete         // 403
    | SkillNotFound                       // Skill.DoesNotExist while booking

  /** Everything an action never changes: identity, parties, booking data. */
  predicate SameBooking(s: LearningSession, t: LearningSession) {
    t.id == s.id && t.skill == s.skill && t.learner == s.learner && t.mentor == s.mentor
    && t.learnerMessage == s.learnerMessage && t.createdAt == s.createdAt
  }

  /**
   * What a detail action does to a session it found. No action looks at the
   * current status except edit_time, which sends an APPROVED session back to
   * PENDING.
   */
  function Step(s: LearningSession, requester: ProfileId, action: SessionAction): (r: Result<LearningSession, SessionError>)
    ensures r.Ok? ==> SameBooking(s, r.value)
    ensures r.Ok? && !action.EditTime? ==> r.value.scheduledAt == s.scheduledAt
    ensures r.Ok? && !action.Approve? && !action.Reject? ==> r.value.mentorResponse == s.mentorResponse
    ensures r.Err? ==> r.error != NotFound && r.error != SkillNotFound
  {
    match action
    case Approve(response) =>
      if s.mentor != requester then Err(OnlyMentorCanApprove)
      else Ok(s.(status := Approved, mentorResponse := response.GetOr("")))
    case Reject(response) =>
      if s.mentor != requester then Err(OnlyMentorCanReject)
      else Ok(s.(status := Rejected, mentorResponse := response.GetOr("")))
    case EditTime(newTime) =>
      if !IsParticipant(s, requester) then Err(OnlyParticipantsCanEditTime)
      else if newTime.None? then Err(ScheduledDatetimeRequired)
      else Ok(s.(scheduledAt := newTime.value, status := if s.status == Approved then Pending else s.status))
    case Complete =>
      if !IsParticipant(s, requester) then Err(OnlyParticipantsCanComplete)
      else Ok(s.(status := Completed))
  }

  /** The full request: look the session up as `get_object` does, then step. */
  function Perform(rows: seq<LearningSession>, requester: ProfileId, id: SessionId, action: SessionAction)
    : (r: Result<LearningSession, SessionError>)
    ensures r.Err? && r.error == NotFound <==> GetObject(rows, requester, id).None?
    ensures r.Ok? ==> exists s :: s in rows && s.id == id && SameBooking(s, r.value) && IsParticipant(s, requester)
  {
    match GetObject(rows, requester, id)
    case None => Err(NotFound)
    case Some(s) => Step(s, requester, action)
  }

  /** Approve: the mentor's approval succeeds from every status; anyone else is refused. */
  lemma ApproveFromAnyStatus(s: LearningSession, requester: ProfileId, response: Option<string>)
    ensures var r := Step(s, requester, Approve(response));
      && (requester != s.mentor ==> r == Err(OnlyMentorCanApprove))
      && (requester == s.mentor ==>
            (r.Ok? && r.value.status == Approved
             && r.value.mentorResponse == (if response.Some? then response.value else "")
             && r.value.scheduledAt == s.scheduledAt && SameBooking(s, r.value)))
  {
  }

  /** Reject: like approve, and an absent or empty response is stored as "". */
  lemma RejectFromAnyStatus(s: LearningSession, requester: ProfileId, response: Option<string>)
    ensures var r := Step(s, requester, Reject(response));
      && (requester != s.mentor ==> r == Err(OnlyMentorCanReject))
      && (requester == s.mentor ==>
            (r.Ok? && r.value.status == Rejected
             && r.value.mentorResponse == (if response.Some? then response.value else "")
             && r.value.scheduledAt == s.scheduledAt && SameBooking(s, r.value)))
  {
  }

  /** edit_time: a new time, and APPROVED falls back to PENDING; other statuses stay. */
  lemma EditTimeRevokesApproval(s: LearningSession, requester: ProfileId, newTime: Option<Minutes>)
    ensures var r := Step(s, requester, EditTime(newTime));
      && (!IsParticipant(s, requester) ==> r == Err(OnlyParticipantsCanEditTime))
      && (IsParticipant(s, requester) && newTime.None? ==> r == Err(ScheduledDatetimeRequired))
      && (IsParticipant(s, requester) && newTime.Some? ==>
            r.Ok? && r.value.scheduledAt == newTime.value
            && r.value.status == (if s.status == Approved then Pending else s.status)
            && r.value.mentorResponse == s.mentorResponse)
  {
  }

  /** complete: any participant, from any status. */
  lemma CompleteFromAnyStatus(s: LearningSession, requester: ProfileId)
    ensures var r := Step(s, requester, Complete);
      && (!IsParticipant(s, requester) ==> r == Err(OnlyParticipantsCanComplete))
      && (IsParticipant(s, requester) ==>
            (r.Ok? && r.value.status == Completed && r.value == s.(status := Completed)))
  {
  }

  /**
   * Among the four detail actions, the only way back to PENDING is a time edit
   * of an APPROVED session (the inherited update is `PatchAsWritten`).
   */
  lemma OnlyEditTimeReturnsToPending(s: LearningSession, requester: ProfileId, action: SessionAction)
    requires Step(s, requester, action).Ok?
    requires s.status != Pending && Step(s, requester, action).value.status == Pending
    ensures action.EditTime? && s.status == Approved
  {
  }

  /**
   * None of the four detail actions produces CANCELLED: they keep it, never
   * enter it (the inherited update does, see `PatchBypassesActions`).
   */
  lemma NoActionCancels(s: LearningSession, requester: ProfileId, action: SessionAction)
    requires Step(s, requester, action).Ok?
    ensures Step(s, requester, action).value.status == Cancelled ==> s.status == Cancelled
  {
  }

  /** Nothing is terminal: from every status the mentor reaches APPROVED, REJECTED and COMPLETED. */
  lemma NoTerminalStatus(s: LearningSession, target: Status)
    requires target in {Approved, Rejected, Completed}
    ensures exists a :: Step(s, s.mentor, a).Ok? && Step(s, s.mentor, a).value.status == target
  {
    var a := if target == Approved then Approve(None) else if target == Rejected then Reject(None) else Complete;
    assert Step(s, s.mentor, a).value.status == target;
  }

  /**
   * Because `get_object` already filters by participation, a request that gets
   * past it never meets the participant checks of edit_time and complete, and
   * the mentor checks of approve and reject refuse only the learner.
   */
  lemma ParticipantChecksUnreachable(rows: seq<LearningSession>, requester: ProfileId, id: SessionId, action: SessionAction)
    ensures Perform(rows, requester, id, action) != Err(OnlyParticipantsCanEditTime)
    ensures Perform(rows, requester, id, action) != Err(OnlyParticipantsCanComplete)
    ensures Perform(rows, requester, id, action) in {Err(OnlyMentorCanApprove), Err(OnlyMentorCanReject)} ==>
              exists s :: s in rows && s.id == id && s.learner == requester && s.mentor != requester
  {
  }

  /**
   * With distinct ids, a detail action on a session the requester takes part
   * in reaches exactly that session.
   */
  lemma PerformOnVisible(rows: seq<LearningSession>, requester: ProfileId, s: LearningSession, action: SessionAction)
    requires forall i, j :: 0 <= i < j < |rows| ==> rows[i].id != rows[j].id
    requires s in rows && IsParticipant(s, requester)
    ensures GetObject(rows, requester, s.id) == Some(s)
    ensures Perform(rows, requester, s.id, action) == Step(s, requester, action)
  {
    assert s in VisibleSessions(rows, requester);
    var found := GetObject(rows, requester, s.id);
    var i :| 0 <= i < |rows| && rows[i] == found.value;
    var k :| 0 <= k < |rows| && rows[k] == s;
    assert i == k;
  }

  // ------------------------------------------------------ the inherited update

  /**
   * The writable fields of a `PATCH /sessions/<id>/` (`partial_update`, which
   * the viewset inherits from `ModelViewSet`); None when absent.
   */
  datatype SessionPatch = SessionPatch(
    status: Option<Status>,
    scheduledAt: Option<Minutes>,
    learnerMessage: Option<string>,
    mentorResponse: Option<string>)

  /** A field the payload gives replaces the stored one, stripped when it is text. */
  function Replaced(v: Option<string>, stored: string): (r: string)
    ensures v.None? ==> r == stored
    ensures v.Some? ==> r == Text.Trim(v.value)
  {
    if v.Some? then Text.Trim(v.value) else stored
  }

  /**
   * `partial_update` as written: `get_object`, then every field the payload
   * gives is stored, `status` and `mentor_response` included, since the
   * serializer leaves them writable. No check looks at who the requester is
   * beyond participation, or at the current status.
   */
  function PatchAsWritten(rows: seq<LearningSession>, requester: ProfileId, id: SessionId, p: SessionPatch)
    : (r: Result<LearningSession, SessionError>)
    ensures r.Err? <==> GetObject(rows, requester, id).None?
    ensures r.Err? ==> r.error == NotFound
    ensures r.Ok? ==> exists s :: s in rows && s.id == id && IsParticipant(s, requester)
                                  && r.value.id == s.id && r.value.skill == s.skill
                                  && r.value.learner == s.learner && r.value.mentor == s.mentor
                                  && r.value.createdAt == s.createdAt
                                  && r.value.status == (if p.status.Some? then p.status.value else s.status)
                                  && r.value.scheduledAt == (if p.scheduledAt.Some? then p.scheduledAt.value else s.scheduledAt)
                                  && r.value.learnerMessage == Replaced(p.learnerMessage, s.learnerMessage)
                                  && r.value.mentorResponse == Replaced(p.mentorResponse, s.mentorResponse)
  {
    match GetObject(rows, requester, id)
    case None => Err(NotFound)
    case Some(s) =>
      Ok(s.(status := p.status.GetOr(s.status), scheduledAt := p.scheduledAt.GetOr(s.scheduledAt),
            learnerMessage := Replaced(p.learnerMessage, s.learnerMessage),
            mentorResponse := Replaced(p.mentorResponse, s.mentorResponse)))
  }

  /**
   * As written, the learner of a PENDING session approves it through the
   * update, which the approve action refuses them; and either participant
   * moves a session into CANCELLED, which no detail action does.
   */
  lemma PatchBypassesActions(rows: seq<LearningSession>, s: LearningSession)
    requires forall i, j :: 0 <= i < j < |rows| ==> rows[i].id != rows[j].id
    requires s in rows && s.status == Pending && s.learner != s.mentor
    ensures Perform(rows, s.learner, s.id, Approve(None)) == Err(OnlyMentorCanApprove)
    ensures PatchAsWritten(rows, s.learner, s.id, SessionPatch(Some(Approved), None, None, None)) == Ok(s.(status := Approved))
    ensures PatchAsWritten(rows, s.learner, s.id, SessionPatch(Some(Cancelled), None, None, None)) == Ok(s.(status := Cancelled))
    ensures PatchAsWritten(rows, s.mentor, s.id, SessionPatch(Some(Cancelled), None, None, None)) == Ok(s.(status := Cancelled))
  {
    PerformOnVisible(rows, s.learner, s, Approve(None));
    PerformOnVisible(rows, s.mentor, s, Complete);
  }

  /**
   * The update as intended: `status` and `mentor_response` are read-only, so
   * the serializer ignores them and they change only through the detail
   * actions; the time and the learner's message may still be edited.
   */
  function Patch(rows: seq<LearningSession>, requester: ProfileId, id: SessionId, p: SessionPatch)
    : (r: Result<LearningSession, SessionError>)
    ensures r.Err? <==> GetObject(rows, requester, id).None?
    ensures r.Err? ==> r.error == NotFound
    ensures r.Ok? ==> exists s :: s in rows && s.id == id && IsParticipant(s, requester)
                                  && r.value.id == s.id && r.value.skill == s.skill
                                  && r.value.learner == s.learner && r.value.mentor == s.mentor
                                  && r.value.createdAt == s.createdAt
                                  && r.value.status == s.status && r.value.mentorResponse == s.mentorResponse
                                  && r.value.scheduledAt == (if p.scheduledAt.Some? then p.scheduledAt.value else s.scheduledAt)
                                  && r.value.learnerMessage == Replaced(p.learnerMessage, s.learnerMessage)
  {
    PatchAsWritten(rows, requester, id, p.(status := None, mentorResponse := None))
  }

  /**
   * The two agree exactly when the payload's status and response would leave
   * the stored ones as they are.
   */
  lemma PatchAgreesWithoutStatus(rows: seq<LearningSession>, requester: ProfileId, s: LearningSession, p: SessionPatch)
    requires forall i, j :: 0 <= i < j < |rows| ==> rows[i].id != rows[j].id
    requires s in rows && IsParticipant(s, requester)
    ensures PatchAsWritten(rows, requester, s.id, p) == Patch(rows, requester, s.id, p)
            <==> p.status in {None, Some(s.status)} && Replaced(p.mentorResponse, s.mentorResponse) == s.mentorResponse
  {
    PerformOnVisible(rows, requester, s, Complete);
  }

  /**
   * With the intended update, every request that changes a session's status
   * is a detail action: so no request of either kind enters CANCELLED, and
   * only the mentor enters APPROVED or REJECTED.
   */
  lemma StatusChangesOnlyByAction(rows: seq<LearningSession>, requester: ProfileId, id: SessionId, p: SessionPatch)
    requires forall i, j :: 0 <= i < j < |rows| ==> rows[i].id != rows[j].id
    ensures var r := Patch(rows, requester, id, p);
      r.Ok? ==> GetObject(rows, requester, id).Some? && r.value.status == GetObject(rows, requester, id).value.status
  {
    var r := Patch(rows, requester, id, p);
    if r.Ok? {
      var s := GetObject(rows, requester, id).value;
      PerformOnVisible(rows, requester, s, Complete);
    }
  }

  // ---------------------------------------------------------------- messages

  /** What a POST carries counts as a message only when present and non-empty. */
  predicate HasMessageText(text: Option<string>) {
    text.Some? && text.value != ""
  }

  /** `messages` GET: the session's thread, oldest first. */
  function ListMessages(rows: seq<LearningSession>, messages: seq<SessionMessage>, requester: ProfileId, id: SessionId)
    : (r: Result<seq<SessionMessage>, SessionError>)
    ensures r.Err? <==> GetObject(rows, requester, id).None?
    ensures r.Err? ==> r.error == NotFound
    ensures r.Ok? ==> forall m :: m in r.value <==> m in messages && m.session == id
    ensures r.Ok? && Ascending(messages, MessageCreatedAt) ==> Ascending(r.value, MessageCreatedAt)
  {
    match GetObject(rows, requester, id)
    case None => Err(NotFound)
    case Some(s) =>
      if !IsParticipant(s, requester) then Err(OnlyParticipantsCanAccessMessages)
      else
        var thread := Filter(messages, (m: SessionMessage) => m.session == id);
        ThreadFacts(messages, id, thread);
        Ok(thread)
  }

  lemma ThreadFacts(messages: seq<SessionMessage>, id: SessionId, thread: seq<SessionMessage>)
    requires thread == Filter(messages, (m: SessionMessage) => m.session == id)
    ensures forall m :: m in thread <==> m in messages && m.session == id
    ensures Ascending(messages, MessageCreatedAt) ==> Ascending(thread, MessageCreatedAt)
  {
    var p := (m: SessionMessage) => m.session == id;
    forall m ensures m in thread <==> m in messages && m.session == id {
      FilterMembership(messages, p, m);
    }
    if Ascending(messages, MessageCreatedAt) {
      FilterAscending(messages, p, MessageCreatedAt);
    }
  }

  // ----------------------------------------------------------------- booking

  /**
   * What a `TextField(blank=True)` stores from an optional payload value: the
   * value stripped of surrounding whitespace, or "" when absent.
   */
  function StoredText(v: Option<string>): (r: string)
    ensures v.None? ==> r == ""
    ensures v.Some? ==> r == Text.Trim(v.value)
  {
    if v.Some? then Text.Trim(v.value) else ""
  }

  /**
   * A booking request as the serializer accepts it. `learner` and `mentor`
   * are read-only and so absent; `status` and `mentorResponse` are writable
   * fields of the serializer.
   */
  datatype BookingRequest = BookingRequest(
    skillId: Skills.SkillId,
    scheduledAt: Minutes,
    learnerMessage: Option<string>,
    status: Option<Status>,
    mentorResponse: Option<string>)

  /**
   * `LearningSessionSerializer.create` as written: the skill and the two
   * parties are computed, but a client-supplied `status` and
   * `mentor_response` are stored as given. The two text fields are character
   * fields of the serializer, so what is stored is stripped.
   */
  function NewSessionAsWritten(skill: Skills.Skill, requester: ProfileId, req: BookingRequest, id: SessionId, now: Minutes)
    : (s: LearningSession)
    ensures s.skill == skill.id && s.learner == requester && s.mentor == skill.mentor
    ensures s.status == (if req.status.Some? then req.status.value else Pending)
  {
    LearningSession(id, skill.id, requester, skill.mentor, req.scheduledAt,
                    req.status.GetOr(Pending), StoredText(req.learnerMessage), StoredText(req.mentorResponse), now)
  }

  /** As written, a learner can book a session that is already APPROVED. */
  lemma BookingCanSkipApproval(skill: Skills.Skill, requester: ProfileId, when: Minutes, id: SessionId, now: Minutes)
    ensures NewSessionAsWritten(skill, requester, BookingRequest(skill.id, when, None, Some(Approved), Some("ok")), id, now).status == Approved
    ensures NewSessionAsWritten(skill, requester, BookingRequest(skill.id, when, None, Some(Approved), Some("ok")), id, now).mentorResponse == "ok"
  {
  }

  /**
   * The booking as intended: whatever the payload holds, a new session is
   * PENDING, has no mentor response yet, is booked by the requester and is
   * taught by the skill's mentor.
   */
  function NewSession(skill: Skills.Skill, requester: ProfileId, req: BookingRequest, id: SessionId, now: Minutes)
    : (s: LearningSession)
    ensures s.status == Pending && s.mentorResponse == ""
    ensures s.skill == skill.id && s.learner == requester && s.mentor == skill.mentor
    ensures s.scheduledAt == req.scheduledAt && s.createdAt == now && s.id == id
    ensures s.learnerMessage == (if req.learnerMessage.Some? then Text.Trim(req.learnerMessage.value) else "")
  {
    LearningSession(id, skill.id, requester, skill.mentor, req.scheduledAt,
                    Pending, StoredText(req.learnerMessage), "", now)
  }

  /** The two agree exactly when the payload leaves status and response out. */
  lemma NewSessionAgreesWithoutStatus(skill: Skills.Skill, requester: ProfileId, req: BookingRequest, id: SessionId, now: Minutes)
    ensures NewSessionAsWritten(skill, requester, req, id, now) == NewSession(skill, requester, req, id, now)
            <==> req.status in {None, Some(Pending)} && (req.mentorResponse.None? || Text.Blank(req.mentorResponse.value))
  {
    if req.mentorResponse.Some? {
      Text.TrimEmptyIffBlank(req.mentorResponse.value);
    }
  }

  /** A booking where learner and mentor are the same profile is accepted. */
  lemma SelfBookingAccepted(skill: Skills.Skill, req: BookingRequest, id: SessionId, now: Minutes)
    ensures var s := NewSession(skill, skill.mentor, req, id, now); s.learner == s.mentor
  {
  }

  // ------------------------------------------------------------------- table

  /** The row with `s.id` replaced by `s`. */
  function ReplaceSession(rows: seq<LearningSession>, s: LearningSession): (r: seq<LearningSession>)
    ensures |r| == |rows|
    ensures forall i :: 0 <= i < |rows| ==> r[i] == if rows[i].id == s.id then s else rows[i]
  {
    seq(|rows|, i requires 0 <= i < |rows| => if rows[i].id == s.id then s else rows[i])
  }

  ghost predicate SessionsWellFormed(rows: seq<LearningSession>, nextId: nat) {
    && (forall i :: 0 <= i < |rows| ==> rows[i].id < nextId)
    && (forall i, j :: 0 <= i < j < |rows| ==> rows[i].id != rows[j].id)
    && Ascending(rows, CreatedAt)
  }

  ghost predicate MessagesWellFormed(messages: seq<SessionMessage>, nextId: nat, rows: seq<LearningSession>) {
    && (forall i :: 0 <= i < |messages| ==> messages[i].id < nextId)
    && (forall i, j :: 0 <= i < j < |messages| ==> messages[i].id != messages[j].id)
    && (forall i :: 0 <= i < |messages| ==> exists s :: s in rows && s.id == messages[i].session)
    && Ascending(messages, MessageCreatedAt)
  }

  lemma ReplaceKeepsWellFormed(rows: seq<LearningSession>, nextId: nat, s: LearningSession, t: LearningSession)
    requires SessionsWellFormed(rows, nextId) && s in rows && t.id == s.id && t.createdAt == s.createdAt
    ensures SessionsWellFormed(ReplaceSession(rows, t), nextId)
    ensures forall u :: u in rows ==> exists v :: v in ReplaceSession(rows, t) && v.id == u.id
  {
    var r := ReplaceSession(rows, t);
    var k :| 0 <= k < |rows| && rows[k] == s;
    forall i | 0 <= i < |rows| ensures r[i].createdAt == rows[i].createdAt && r[i].id == rows[i].id {
      if rows[i].id == s.id { assert i == k; }
    }
    forall u | u in rows ensures exists v :: v in r && v.id == u.id {
      var i :| 0 <= i < |rows| && rows[i] == u;
      assert r[i] in r;
    }
  }

  /**
   * The `LearningSession` and `SessionMessage` tables. The detail actions
   * assign a found session's fields and save it back in place.
   */
  class SessionTable {
    var rows: seq<LearningSession>
    var messages: seq<SessionMessage>
    var nextSessionId: nat
    var nextMessageId: nat

    ghost predicate Valid()
      reads this
    {
      SessionsWellFormed(rows, nextSessionId) && MessagesWellFormed(messages, nextMessageId, rows)
    }

    constructor ()
      ensures Valid() && rows == [] && messages == []
    {
      rows, messages := [], [];
      nextSessionId, nextMessageId := 1, 1;
    }

    /**
     * `POST /sessions/`: book a session of the skill `req.skillId` for the
     * requester. `now` is the clock, which never runs backwards.
     */
    method Book(skills: seq<Skills.Skill>, requester: ProfileId, req: BookingRequest, now: Minutes)
      returns (r: Result<LearningSession, SessionError>)
      requires Valid()
      requires forall i :: 0 <= i < |rows| ==> rows[i].createdAt <= now
      modifies this
      ensures Valid() && messages == old(messages)
      ensures Skills.FindSkill(skills, req.skillId).None? <==> r == Err(SkillNotFound)
      ensures r.Ok? <==> Skills.FindSkill(skills, req.skillId).Some?
      ensures r.Err? ==> r == Err(SkillNotFound) && rows == old(rows)
      ensures r.Ok? ==> r.value == NewSession(Skills.FindSkill(skills, req.skillId).value, requester, req, r.value.id, now)
      ensures r.Ok? ==> (forall s :: s in old(rows) ==> s.id != r.value.id) && rows == old(rows) + [r.value]
    {
      var skill := Skills.FindSkill(skills, req.skillId);
      if skill.None? {
        return Err(SkillNotFound);
      }
      var s := NewSession(skill.value, requester, req, nextSessionId, now);
      AscendingAppend(rows, s, CreatedAt);
      rows := rows + [s];
      nextSessionId := nextSessionId + 1;
      r := Ok(s);
    }

    /** `approve`, `reject`, `edit_time` and `complete`: step the found session and save it. */
    method Act(requester: ProfileId, id: SessionId, action: SessionAction)
      returns (r: Result<LearningSession, SessionError>)
      requires Valid()
      modifies this
      ensures Valid() && messages == old(messages)
      ensures r == Perform(old(rows), requester, id, action)
      ensures rows == if r.Ok? then ReplaceSession(old(rows), r.value) else old(rows)
    {
      var found := GetObject(rows, requester, id);
      if found.None? {
        return Err(NotFound);
      }
      r := Step(found.value, requester, action);
      assert r == Perform(rows, requester, id, action);
      if r.Ok? {
        ReplaceKeepsWellFormed(rows, nextSessionId, found.value, r.value);
        rows := ReplaceSession(rows, r.value);
      }
    }

    /**
     * `PATCH /sessions/<id>/` as intended: the found session takes the given
     * time and learner's message and is saved; its status and the mentor's
     * response stay.
     */
    method PartialUpdate(requester: ProfileId, id: SessionId, p: SessionPatch)
      returns (r: Result<LearningSession, SessionError>)
      requires Valid()
      modifies this
      ensures Valid() && messages == old(messages)
      ensures r == Patch(old(rows), requester, id, p)
      ensures rows == if r.Ok? then ReplaceSession(old(rows), r.value) else old(rows)
    {
      var found := GetObject(rows, requester, id);
      if found.None? {
        return Err(NotFound);
      }
      var s := found.value;
      var t := s.(scheduledAt := p.scheduledAt.GetOr(s.scheduledAt),
                  learnerMessage := Replaced(p.learnerMessage, s.learnerMessage));
      ReplaceKeepsWellFormed(rows, nextSessionId, s, t);
      rows := ReplaceSession(rows, t);
      r := Ok(t);
    }

    /**
     * `messages` POST: a participant's non-empty text is appended to the
     * session's thread with the requester as sender; nothing else changes.
     */
    method Post(requester: ProfileId, id: SessionId, text: Option<string>, now: Minutes)
      returns (r: Result<SessionMessage, SessionError>)
      requires Valid()
      requires forall i :: 0 <= i < |messages| ==> messages[i].createdAt <= now
      modifies this
      ensures Valid() && rows == old(rows)
      ensures GetObject(old(rows), requester, id).None? <==> r == Err(NotFound)
      ensures GetObject(old(rows), requester, id).Some? && !HasMessageText(text) <==> r == Err(MessageRequired)
      ensures r.Err? ==> r.error in {NotFound, MessageRequired}
      ensures r.Ok? <==> GetObject(old(rows), requester, id).Some? && HasMessageText(text)
      ensures r.Err? ==> messages == old(messages)
      ensures r.Ok? ==> r.value.session == id && r.value.sender == requester && Some(r.value.message) == text
      ensures r.Ok? ==> messages == old(messages) + [r.value]
    {
      var found := GetObject(rows, requester, id);
      if found.None? {
        return Err(NotFound);
      }
      // get_object's filter already admits only participants, so the 403 of
      // the participant check is never answered
      assert IsParticipant(found.value, requester);
      if !HasMessageText(text) {
        return Err(MessageRequired);
      }
      var m := SessionMessage(nextMessageId, id, requester, text.value, now);
      AscendingAppend(messages, m, MessageCreatedAt);
      messages := messages + [m];
      nextMessageId := nextMessageId + 1;
      r := Ok(m);
    }
  }
}
