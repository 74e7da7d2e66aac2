/**
 * The periodic reminder job (learning_sessions/tasks.py): which sessions get
 * a reminder, how many are enqueued, and the status gate the reminder task
 * applies when it runs. Mail delivery itself is not modelled.
 */
module SessionReminders {
  import opened Wrappers
  import opened Seqs
  import opened LearningSessions

  /** Reminders go out this many minutes before the start. */
  const ReminderLead := 30
  /** Half-width of the selection window around the lead time. */
  const ReminderSlack := 2

  /** The job's filter: an APPROVED session starting within [now+28, now+32] minutes. */
  predicate DueForReminder(s: LearningSession, now: Minutes) {
    && s.status == Approved
    && now + ReminderLead - ReminderSlack <= s.scheduledAt
    && s.scheduledAt <= now + ReminderLead + ReminderSlack
  }

  /** The sessions `schedule_session_reminders` selects, in table order. */
  function SelectForReminder(rows: seq<LearningSession>, now: Minutes): (r: seq<LearningSession>)
    ensures forall s :: s in r <==> s in rows && s.status == Approved && now + 28 <= s.scheduledAt <= now + 32
    ensures Subsequence(r, rows)
  {
    var p := (s: LearningSession) => DueForReminder(s, now);
    forall s ensures s in Filter(rows, p) <==> s in rows && DueForReminder(s, now) {
      FilterMembership(rows, p, s);
    }
    FilterIsSubsequence(rows, p);
    Filter(rows, p)
  }

  /**
   * `schedule_session_reminders`: enqueues one reminder per selected session,
   * in order, and reports how many it enqueued.
   */
  method ScheduleSessionReminders(rows: seq<LearningSession>, now: Minutes) returns (queued: seq<SessionId>, count: nat)
    ensures count == |queued| == |SelectForReminder(rows, now)|
    ensures forall i :: 0 <= i < count ==> queued[i] == SelectForReminder(rows, now)[i].id
  {
    var sessions := SelectForReminder(rows, now);
    queued, count := [], 0;
    for i := 0 to |sessions|
      invariant count == i == |queued|
      invariant forall j :: 0 <= j < i ==> queued[j] == sessions[j].id
    {
      queued := queued + [sessions[i].id];
      count := count + 1;
    }
  }

  /** What `send_session_reminder_email` reports. */
  datatype ReminderOutcome =
    | Sent(recipient: ProfileId)   // "Reminder sent to ..."
    | NotApproved(id: SessionId)   // "Session {id} is not approved, skipping reminder"
    | SessionMissing(id: SessionId) // "Session {id} not found"

  /** `send_session_reminder_email`: mails the learner only while the session is APPROVED. */
  function SendSessionReminder(rows: seq<LearningSession>, id: SessionId): (r: ReminderOutcome)
    ensures r == SessionMissing(id) <==> forall s :: s in rows ==> s.id != id
    ensures r.Sent? <==> FindSession(rows, id).Some? && FindSession(rows, id).value.status == Approved
    ensures r.Sent? ==> exists s :: s in rows && s.id == id && s.status == Approved && r.recipient == s.learner
    ensures r.NotApproved? ==> r.id == id && exists s :: s in rows && s.id == id && s.status != Approved
  {
    match FindSession(rows, id)
    case None => SessionMissing(id)
    case Some(s) => if s.status != Approved then NotApproved(id) else Sent(s.learner)
  }

  /** With distinct ids, every session the job selects passes the task's status gate. */
  lemma SelectedSessionsGetReminded(rows: seq<LearningSession>, now: Minutes, s: LearningSession)
    requires forall i, j :: 0 <= i < j < |rows| ==> rows[i].id != rows[j].id
    requires s in SelectForReminder(rows, now)
    ensures SendSessionReminder(rows, s.id) == Sent(s.learner)
  {
    var found := FindSession(rows, s.id);
    var i :| 0 <= i < |rows| && rows[i] == found.value;
    var k :| 0 <= k < |rows| && rows[k] == s;
    assert i == k;
  }

  /**
   * A time edit between selection and delivery sends the session back to
   * PENDING, so its queued reminder is skipped.
   */
  lemma EditedSessionSkipsReminder(rows: seq<LearningSession>, s: LearningSession, requester: ProfileId, t: Minutes)
    requires forall i, j :: 0 <= i < j < |rows| ==> rows[i].id != rows[j].id
    requires s in rows && s.status == Approved
    requires Step(s, requester, EditTime(Some(t))).Ok?
    ensures SendSessionReminder(ReplaceSession(rows, Step(s, requester, EditTime(Some(t))).value), s.id) == NotApproved(s.id)
  {
    var edited := Step(s, requester, EditTime(Some(t))).value;
    var rows' := ReplaceSession(rows, edited);
    var found := FindSession(rows', s.id);
    var i :| 0 <= i < |rows'| && rows'[i] == found.value;
    assert rows[i].id == s.id;
  }
}
