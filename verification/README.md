# SkillSwap learning sessions, reviews and skills in Dafny

SkillSwap is a platform where mentors offer skills and learners book learning
sessions. This project models and proves properties of:

- the session lifecycle: booking, approve, reject, edit time, complete, the
  partial update the session viewset inherits, the message thread and the
  reminder scheduler;
- review admission, editing, deletion and the `review_count` aggregate;
- the skill catalog with its filters and ownership rules;
- registration;
- the frontend components that gate the same machine: the session card, the
  approval dialog, the mutual review panel, the review form, the edit-review
  dialog, the skill browser and the skill page.

Database tables are `seq`s of records inside classes (`SessionTable`,
`ReviewTable`, `SkillTable`, `AccountTable`). Rows are kept in creation order,
so `order_by('-created_at')` is the reversal of a filter. Each class method is
tied to a pure function: `Perform`, `Patch`, `Admit`, `EditReview`,
`DeleteReview`, `NewSession`, `ListSkills` or `Validate`. The lemmas are stated about those
functions.

React components are classes whose fields are their `useState` variables. The
server's reply to a request is a parameter (`Replies.Reply`), and each handler
returns the request it sends. `get_object` goes through `get_queryset`, so an
object the requester cannot see yields `NotFound`. As a consequence, the
participant checks of `edit_time`, `messages` and `complete` can never fail
(`LearningSessions.ParticipantChecksUnreachable`).

The serializers' character fields strip surrounding whitespace and, unless
they allow blanks, refuse a value left empty; the model stores the stripped
text.

Times are integer minutes. Python truthiness is kept:
- `reviewed_id` 0 counts as absent;
- an empty message counts as missing;
- an empty `user_id` counts as absent.

## Model

| member | source | states |
|---|---|---|
| LearningSessions.StatusCode | skillswap_django/learning_sessions/models.py:8-20 | every status code is non-empty and fits the 10-character `status` column |
| LearningSessions.ParseStatus | skillswap_django/learning_sessions/models.py:8-14 | exactly the five codes are accepted, each as the status it names; any other text is refused |
| LearningSessions.StatusCodeRoundTrip | skillswap_django/learning_sessions/models.py:8-14 | parsing a status's code gives that status back |
| LearningSessions.VisibleSessions | skillswap_django/learning_sessions/views.py:15-19 | exactly the sessions where the requester is learner or mentor, newest first when the table is in creation order |
| LearningSessions.AsLearner | skillswap_django/learning_sessions/views.py:21-25 | exactly the sessions whose learner is the requester, in table order |
| LearningSessions.AsMentor | skillswap_django/learning_sessions/views.py:27-31 | exactly the sessions whose mentor is the requester, in table order |
| LearningSessions.GetObject | skillswap_django/learning_sessions/views.py:15-19 | finds the session with the id only when the requester takes part in it; otherwise none |
| LearningSessions.Step | skillswap_django/learning_sessions/views.py:33-127 | a successful action keeps id, skill, parties, message and creation time; only edit_time moves the time; only approve and reject touch the response |
| LearningSessions.Perform | skillswap_django/learning_sessions/views.py:33-127 | NotFound exactly when the session is not among the requester's sessions; a success comes from a session the requester takes part in |
| LearningSessions.ApproveFromAnyStatus | skillswap_django/learning_sessions/views.py:36-42 | the mentor gets APPROVED with the given text or '' from every status; anyone else gets OnlyMentorCanApprove |
| LearningSessions.RejectFromAnyStatus | skillswap_django/learning_sessions/views.py:53-59 | the mentor gets REJECTED with the given text or '' (no text required) from every status; anyone else gets OnlyMentorCanReject |
| LearningSessions.EditTimeRevokesApproval | skillswap_django/learning_sessions/views.py:69-81 | a missing time gives ScheduledDatetimeRequired; otherwise the time is replaced, APPROVED becomes PENDING and every other status stays |
| LearningSessions.CompleteFromAnyStatus | skillswap_django/learning_sessions/views.py:119-124 | a participant gets COMPLETED from every status |
| LearningSessions.OnlyEditTimeReturnsToPending | skillswap_django/learning_sessions/views.py:64-84 | among the four detail actions, a session leaves another status for PENDING only by a time edit of an APPROVED session |
| LearningSessions.NoActionCancels | skillswap_django/learning_sessions/views.py:33-127 | none of the four detail actions produces CANCELLED |
| LearningSessions.NoTerminalStatus | skillswap_django/learning_sessions/views.py:33-127 | from every status the mentor can reach APPROVED, REJECTED and COMPLETED |
| LearningSessions.ParticipantChecksUnreachable | skillswap_django/learning_sessions/views.py:64-127 | the participant checks of edit_time and complete never fire; an approve/reject refusal means a learner asked |
| LearningSessions.PerformOnVisible | skillswap_django/learning_sessions/views.py:33-36 | on one of the requester's sessions, the request does exactly what the action does to that session |
| LearningSessions.PatchAsWritten | skillswap_django/learning_sessions/views.py:10-19 | NotFound iff the session is not among the requester's; otherwise it keeps id, skill, parties and creation time and takes every given field, status and response included, text stripped |
| LearningSessions.PatchBypassesActions | skillswap_django/learning_sessions/serializers.py:16-18 | the learner of a PENDING session approves it by PATCH though the approve action refuses them; either participant sets CANCELLED |
| LearningSessions.Patch | skillswap_django/learning_sessions/serializers.py:16-18 | NotFound iff not among the requester's sessions; otherwise the given time and message are taken and status and response always stay |
| LearningSessions.PatchAgreesWithoutStatus | skillswap_django/learning_sessions/serializers.py:16-18 | the two updates agree iff the payload leaves status and response as stored |
| LearningSessions.StatusChangesOnlyByAction | skillswap_django/learning_sessions/views.py:10-19 | under the intended update, a PATCH never changes the status of the session it finds |
| LearningSessions.ListMessages | skillswap_django/learning_sessions/views.py:86-98 | NotFound iff the session is not visible; otherwise exactly that session's messages, in ascending creation order |
| LearningSessions.NewSessionAsWritten | skillswap_django/learning_sessions/serializers.py:14-27 | the skill is the one named, the learner the requester, the mentor the skill's mentor; the status is the client's or PENDING |
| LearningSessions.BookingCanSkipApproval | skillswap_django/learning_sessions/serializers.py:16-18 | a payload carrying APPROVED and a response creates an APPROVED session with that response |
| LearningSessions.NewSession | skillswap_django/learning_sessions/serializers.py:20-27 | a new session is PENDING with an empty response, booked by the requester with the skill's mentor, at the requested time, with the message stripped |
| LearningSessions.NewSessionAgreesWithoutStatus | skillswap_django/learning_sessions/serializers.py:16-18 | the two agree exactly when the payload leaves status out or sends PENDING, and leaves the response out or sends a blank one |
| LearningSessions.SelfBookingAccepted | skillswap_django/learning_sessions/serializers.py:25-26 | a mentor booking their own skill is learner and mentor of the session |
| LearningSessions.ReplaceKeepsWellFormed | skillswap_django/learning_sessions/views.py:40-42 | saving an action's result keeps ids distinct and below the counter and rows in creation order |
| LearningSessions.SessionTable.Book | skillswap_django/learning_sessions/serializers.py:20-27 | SkillNotFound iff no such skill, the only error, and nothing changes; otherwise the booking succeeds and exactly `NewSession` with a fresh id is appended |
| LearningSessions.SessionTable.Act | skillswap_django/learning_sessions/views.py:33-127 | the reply is `Perform` on the old table; on success that row is replaced, otherwise nothing changes |
| LearningSessions.SessionTable.PartialUpdate | skillswap_django/learning_sessions/views.py:10-19 | the reply is `Patch` on the old table; on success that row is replaced, otherwise nothing changes |
| LearningSessions.SessionTable.Post | skillswap_django/learning_sessions/views.py:86-112 | NotFound iff not visible; MessageRequired iff the text is missing or empty; no other error (the participant 403 is unreachable), so a participant's non-empty text succeeds and exactly one message from the requester is appended |
| SessionReminders.SelectForReminder | skillswap_django/learning_sessions/tasks.py:92-99 | a session is selected iff it is APPROVED and starts between now+28 and now+32 minutes inclusive; selection keeps table order |
| SessionReminders.ScheduleSessionReminders | skillswap_django/learning_sessions/tasks.py:89-106 | one reminder is queued per selected session, in order, and the count equals the number selected |
| SessionReminders.SendSessionReminder | skillswap_django/learning_sessions/tasks.py:47-87 | an unknown id reports the session missing; a non-APPROVED session is skipped; otherwise the learner is reminded |
| SessionReminders.SelectedSessionsGetReminded | skillswap_django/learning_sessions/tasks.py:101-106 | every queued session's reminder is sent to its learner |
| SessionReminders.EditedSessionSkipsReminder | skillswap_django/learning_sessions/tasks.py:53-54 | a session whose time was edited after approval is skipped as not approved |
| Reviews.OtherParty | skillswap_django/reviews/serializers.py:46-52 | defined iff the reviewer takes part; it is a participant, and not the reviewer when learner and mentor differ |
| Reviews.ReviewTarget | skillswap_django/reviews/serializers.py:37-52 | ReviewedUserNotFound iff a named id is no profile; ReviewedNotParticipant iff it is a profile outside the session; without a name, the other party, and ReviewerNotParticipant iff the reviewer is outside; no other error |
| Reviews.Admit | skillswap_django/reviews/serializers.py:7-64 | each refusal holds iff its check is the first to fail, in the order rating, comment, session, COMPLETED, reviewed user, reviewed participant, reviewer, duplicate; admitted iff all pass; an admitted review is of a participant of a completed session the reviewer took part in, and is new |
| Reviews.AdmitAccepts | skillswap_django/reviews/serializers.py:19-64 | a request that passes every check is admitted for the target it names |
| Reviews.OutsiderCannotReview | skillswap_django/reviews/serializers.py:54-55 | a reviewer outside the session is always refused, whatever `reviewed_id` names |
| Reviews.SelfReviewAccepted | skillswap_django/reviews/serializers.py:37-55 | naming oneself as the reviewed user is accepted, with a valid rating and a non-blank comment |
| Reviews.DefaultReviewsOtherParty | skillswap_django/reviews/serializers.py:46-52 | without `reviewed_id` the learner reviews the mentor and the mentor the learner |
| Reviews.ReviewedIdZeroIsAbsent | skillswap_django/reviews/serializers.py:37 | `reviewed_id` 0 behaves as if absent |
| Reviews.VisibleReviews | skillswap_django/reviews/views.py:15-24 | with `user_id`, the reviews of that user; without, those the requester wrote or received; newest first; no other parameter narrows it |
| Reviews.ForUser | skillswap_django/reviews/views.py:59-68 | UserIdRequired iff `user_id` is absent; otherwise exactly that user's received reviews, newest first |
| Reviews.EditReview | skillswap_django/reviews/views.py:48-52 | NotFound iff not visible; InvalidRating iff visible with a rating outside 1..5; CommentRequired iff visible with a valid rating and a blank comment; otherwise only the ownership refusal; a success changes only rating and the stripped comment of the author's review |
| Reviews.EditReviewAsWritten | skillswap_django/reviews/serializers.py:7-17 | NotFound iff not visible; a full update without `session_id` always fails; a successful one also moves the review to the given session |
| Reviews.UpdateWithoutSessionIdRefused | skillswap_django/reviews/serializers.py:11 | the author's own valid edit without `session_id` is refused with SessionIdRequired |
| Reviews.DeleteReview | skillswap_django/reviews/views.py:54-57 | NotFound iff not visible; CannotDeleteOthersReview for anyone but the author; a success is the author's review with that id |
| Reviews.OnlyAuthorChangesReview | skillswap_django/reviews/views.py:48-57 | a stranger gets NotFound and the reviewed user gets the ownership refusal, for both edit and delete |
| Reviews.Received | skillswap_django/reviews/models.py:23-25 | the number of reviews naming a profile as reviewed; zero iff there are none |
| Reviews.ReceivedAppend | skillswap_django/reviews/models.py:21-25 | a new review adds one to its reviewed profile's count and nothing to any other |
| Reviews.RemoveReview | skillswap_django/reviews/views.py:57 | deleting keeps exactly the other rows, in order |
| Reviews.RemoveDropsReceived | skillswap_django/reviews/views.py:54-57 | deleting a review takes one from its reviewed profile's count and nothing from any other |
| Reviews.ReplaceKeepsReceived | skillswap_django/reviews/views.py:52 | an edit that keeps the reviewed profile changes no count |
| Reviews.RemoveKeepsWellFormed | skillswap_django/reviews/models.py:11-16 | after a delete, ratings stay in 1..5 and ids and (session, reviewer, reviewed) triples stay unique |
| Reviews.EditKeepsWellFormed | skillswap_django/reviews/models.py:11-16 | after an edit, ratings stay in 1..5, keys stay unique and every count is unchanged |
| Reviews.StaleCountAfterRemove | skillswap_django/reviews/views.py:54-57 | a delete without recount keeps every stored count at least the true count, and leaves an exact count one too high for the reviewed profile |
| Reviews.ReviewTable.Save | skillswap_django/reviews/models.py:21-26 | the row is appended and only the reviewed profile's `review_count` is recomputed, to its exact count |
| Reviews.ReviewTable.Create | skillswap_django/reviews/serializers.py:19-64 | the reply is `Admit`'s error, or the stored review with the computed parties, the given rating and the stripped comment; counts stay exact |
| Reviews.ReviewTable.Update | skillswap_django/reviews/views.py:48-52 | the reply is `EditReview`, with its refusals; on success only that row changes; counts stay exact |
| Reviews.ReviewTable.DestroyAsWritten | skillswap_django/reviews/views.py:54-57 | the row goes but `review_count` is untouched, so the reviewed profile's stored count is one too many |
| Reviews.ReviewTable.Destroy | skillswap_django/reviews/views.py:54-57 | the reply is `DeleteReview`; the row goes and the reviewed profile is recounted, so counts stay exact |
| Skills.LevelCode | skillswap_django/skills/models.py:19-29 | each level code is non-empty and fits the 15-character `level` column |
| Skills.ListSkills | skillswap_django/skills/views.py:20-30 | a skill is listed iff it is in the category (when given) and at the level (when given); newest first |
| Skills.UnfilteredListsAll | skillswap_django/skills/views.py:20-30 | with neither filter, the listing is the whole catalog, newest first |
| Skills.MySkills | skillswap_django/skills/views.py:46-50 | exactly the requester's skills, in table order |
| Skills.CheckFields | skillswap_django/skills/models.py:27-31 | BlankField iff the title or the description is blank; otherwise FieldTooLong iff the stripped title is over 200 or the stripped tags over 500 characters; no other refusal; accepted otherwise, with title and description stripped and non-empty, title and tags within their limits, tags stripped, and category, level and duration as given |
| Skills.CheckFieldsIdempotent | skillswap_django/skills/models.py:27-31 | the fields a skill was stored with are accepted again and stored unchanged |
| Skills.SkillTable.Create | skillswap_django/skills/views.py:32-33 | an error iff `CheckFields` refuses, and then exactly its error (BlankField or FieldTooLong) with nothing changed; otherwise the new skill's mentor is the requester, with a fresh id and the checked fields, appended |
| Skills.SkillTable.Update | skillswap_django/skills/views.py:35-39 | NotFound iff not listed; otherwise `CheckFields`'s error (BlankField or FieldTooLong) iff it refuses; otherwise OnlyOwnerCanEdit iff another mentor's; no other error, so the owner's valid request succeeds and changes only the writable fields, to the checked values |
| Skills.SkillTable.Destroy | skillswap_django/skills/views.py:41-44 | NotFound iff not listed; OnlyOwnerCanDelete iff another mentor's; no other error, so the owner's request succeeds and removes exactly that skill from the skill table |
| Accounts.UserTypeCode | skillswap_django/accounts/models.py:7-13 | each user-type code fits the 10-character column |
| Accounts.ParseUserType | skillswap_django/accounts/serializers.py:28 | exactly MENTOR and LEARNER are accepted |
| Accounts.UserTypeRoundTrip | skillswap_django/accounts/serializers.py:28 | parsing a type's code gives the type back |
| Accounts.Validate | skillswap_django/accounts/serializers.py:21-41 | BlankField iff a required text field or a given timezone is blank; else InvalidUserType iff the type is unknown; else PasswordsDontMatch iff the stripped passwords differ; accepted otherwise, storing stripped non-empty text, a missing bio as '' and a missing timezone as 'UTC' |
| Accounts.StrippedPasswordsMatch | skillswap_django/accounts/serializers.py:26-35 | a password "secret " with confirmation "secret" is accepted, and "secret" is kept |
| Accounts.ConfirmationNotKept | skillswap_django/accounts/serializers.py:41 | the confirmation affects nothing beyond the equality check |
| Accounts.AccountTable.Register | skillswap_django/accounts/serializers.py:37-50 | validation errors as `Validate`; a taken (stripped) username is refused; success iff the payload validates and the username is free, so no other error; on success one new user and exactly one profile linked to it, with the validated type, bio and timezone; on failure nothing changes |
| Replies.ErrorText | skillswap_frontend/src/components/EditReviewDialog.tsx:58 | the server's non-empty detail, otherwise the fallback; never empty when the fallback is not |
| Text.TrimEmptyIffBlank | skillswap_frontend/src/components/SessionApprovalDialog.tsx:109 | a string trims to nothing iff all its characters are whitespace |
| Text.ToLower | skillswap_frontend/src/pages/SkillsPage.tsx:22-23 | keeps the length and lower-cases each letter |
| Text.Contains | skillswap_frontend/src/pages/SkillsPage.tsx:22-23 | true iff the needle occurs at some position of the haystack |
| SessionCard.View | skillswap_frontend/src/components/EnhancedSessionCard.tsx:30-36 | approve and reject appear together and only for the mentor; complete and review never together; panels show iff toggled on and allowed |
| SessionCard.ControlsByStatus | skillswap_frontend/src/components/EnhancedSessionCard.tsx:32-36 | which controls each of the five statuses shows |
| SessionCard.OfferedActionsSucceed | skillswap_frontend/src/components/EnhancedSessionCard.tsx:114-167 | every action the card offers on one of the viewer's sessions is accepted by the backend with the labelled effect |
| SessionCard.MentorDecisionTakesEffect | skillswap_django/learning_sessions/views.py:33-62 | the mentor's approve and reject of one of their sessions succeed and store the status and the response |
| SessionCard.CompleteTakesEffect | skillswap_django/learning_sessions/views.py:114-127 | a participant's complete succeeds and changes only the status, to COMPLETED |
| SessionCard.BackendAcceptsHiddenActions | skillswap_frontend/src/components/EnhancedSessionCard.tsx:32-35 | the backend accepts approve, reject, complete and edit-time requests that the card never offers |
| SessionCard.Card.OpenApproval | skillswap_frontend/src/components/EnhancedSessionCard.tsx:49-57 | opens the dialog for the chosen action and leaves the other state alone |
| SessionCard.Card.CloseApproval | skillswap_frontend/src/components/EnhancedSessionCard.tsx:199 | closes the dialog only |
| SessionCard.Card.OpenEditTime | skillswap_frontend/src/components/EnhancedSessionCard.tsx:140 | opens the time dialog only |
| SessionCard.Card.HandleComplete | skillswap_frontend/src/components/EnhancedSessionCard.tsx:59-65 | sends the complete action for the card's session |
| SessionCard.Card.ToggleChat | skillswap_frontend/src/components/EnhancedSessionCard.tsx:151 | flips the chat toggle; the panel shows iff it did not before and chat is allowed |
| SessionCard.Card.ToggleReviews | skillswap_frontend/src/components/EnhancedSessionCard.tsx:173 | flips the reviews toggle; the panel shows iff it did not before and reviews are allowed |
| ApprovalDialog.RejectNeedsText | skillswap_frontend/src/components/SessionApprovalDialog.tsx:109 | a rejection can be submitted iff the response has a non-whitespace character; an approval always can |
| ApprovalDialog.BackendStoresBlankRejection | skillswap_frontend/src/components/SessionApprovalDialog.tsx:109 | the blank rejection the dialog blocks is accepted and stored by the backend |
| ApprovalDialog.Request | skillswap_frontend/src/components/SessionApprovalDialog.tsx:36-46 | approve sends approve, anything else reject, both with the typed text |
| ApprovalDialog.Dialog.EditResponse | skillswap_frontend/src/components/SessionApprovalDialog.tsx:91 | the typed text becomes the response; the dialog stays as it was |
| ApprovalDialog.Dialog.HandleSubmit | skillswap_frontend/src/components/SessionApprovalDialog.tsx:32-53 | nothing is sent without a session; success clears the text and closes; failure keeps both |
| ApprovalDialog.SubmittedApprovalTakesEffect | skillswap_frontend/src/components/SessionApprovalDialog.tsx:36-40 | the mentor's approval from a PENDING card makes the session APPROVED with the typed text |
| MutualReviews.FirstBy | skillswap_frontend/src/components/MutualReviewSection.tsx:26-27 | the first review by that reviewer, or none iff there is none |
| MutualReviews.RenderPanel | skillswap_frontend/src/components/MutualReviewSection.tsx:21-156 | hidden iff no user; thank-you iff the user wrote a listed review; the reviews shown are the first by the mentor and by the learner; the mentor is offered the learner's review iff there is no thank-you, and the learner the mentor's likewise; outsiders are offered none |
| MutualReviews.FetchedAsWritten | skillswap_frontend/src/hooks/useReviews.ts:72-81 | the panel receives every review the viewer wrote or received, on any session |
| MutualReviews.Fetched | skillswap_frontend/src/hooks/useReviews.ts:76 | the viewer's reviews of this session only |
| MutualReviews.HasReviewedOtherExact | skillswap_frontend/src/components/MutualReviewSection.tsx:29 | with the intended list, "already reviewed" iff the viewer wrote a review of this session |
| MutualReviews.ReviewOfEarlierSessionBlocksNext | skillswap_frontend/src/hooks/useReviews.ts:76 | a review of an earlier session shows the thank-you and withholds the form on the next one |
| MutualReviews.WithheldReviewIsAdmitted | skillswap_frontend/src/components/MutualReviewSection.tsx:101-151 | the review withheld in that example is one the backend accepts |
| MutualReviews.AsWrittenOverApproximates | skillswap_frontend/src/components/MutualReviewSection.tsx:29 | whenever the intended list says "already reviewed", so does the as-written one |
| MutualReviews.OfferedReviewAdmitted | skillswap_frontend/src/components/MutualReviewSection.tsx:101-146 | every form the panel offers submits a review with a 1..5 rating and a non-blank comment that the backend accepts |
| MutualReviews.Section.ToggleReviewLearner | skillswap_frontend/src/components/MutualReviewSection.tsx:109 | flips the learner-review form only |
| MutualReviews.Section.ToggleReviewMentor | skillswap_frontend/src/components/MutualReviewSection.tsx:131 | flips the mentor-review form only |
| MutualReviews.Section.ReviewSubmitted | skillswap_frontend/src/components/MutualReviewSection.tsx:121-143 | a form's success closes that form only |
| Stars.LitStars | skillswap_frontend/src/components/ReviewForm.tsx:67 | five stars; the lit ones form a prefix ending at the hovered star, or at the rating when none is hovered |
| ReviewForm.Form.constructor | skillswap_frontend/src/components/ReviewForm.tsx:17-19 | rating, hover and comment start at 0, 0 and '' |
| ReviewForm.Form.ClickStar | skillswap_frontend/src/components/ReviewForm.tsx:63 | clicking star k makes the rating k |
| ReviewForm.Form.HoverStar | skillswap_frontend/src/components/ReviewForm.tsx:61 | hovering star k lights stars 1..k exactly |
| ReviewForm.Form.LeaveStar | skillswap_frontend/src/components/ReviewForm.tsx:62 | leaving the stars lights exactly the first `rating` |
| ReviewForm.Form.EditComment | skillswap_frontend/src/components/ReviewForm.tsx:81-88 | the typed text becomes the comment; rating and hover stay |
| ReviewForm.Form.HandleSubmit | skillswap_frontend/src/components/ReviewForm.tsx:22-44 | an empty comment is blocked; rating 0 alerts and sends nothing; otherwise the request names the reviewed user with a 1..5 rating; success resets, failure keeps |
| ReviewForm.SentRequestTargetsNamedUser | skillswap_frontend/src/components/ReviewForm.tsx:31-36 | the backend never refuses the sent rating, and an admitted review is of the user named |
| ReviewForm.SpacesCommentRefused | skillswap_frontend/src/components/ReviewForm.tsx:81-88 | a comment of spaces, which the textarea's `required` lets through, is refused by the backend as blank |
| EditReviewDialog.Dialog.constructor | skillswap_frontend/src/components/EditReviewDialog.tsx:26-29 | the rating starts at 5 and the comment and error at '' |
| EditReviewDialog.Dialog.Receive | skillswap_frontend/src/components/EditReviewDialog.tsx:31-37 | when the props changed and the dialog is open with a review, its rating and comment are loaded and the error cleared; otherwise, including a re-render with the same props, the fields keep what they had |
| EditReviewDialog.Dialog.ClickStar | skillswap_frontend/src/components/EditReviewDialog.tsx:89 | clicking star k makes the rating k and changes nothing else |
| EditReviewDialog.Dialog.EditComment | skillswap_frontend/src/components/EditReviewDialog.tsx:112 | the typed text becomes the comment and nothing else changes |
| EditReviewDialog.Dialog.HandleSubmit | skillswap_frontend/src/components/EditReviewDialog.tsx:39-60 | nothing without a review; a rating outside 1..5 sets the bounds error and sends nothing; success closes; failure shows the detail or 'Failed to update review' |
| EditReviewDialog.AuthorUpdateAccepted | skillswap_frontend/src/components/EditReviewDialog.tsx:50-55 | under the intended update, the author's request is refused with CommentRequired iff the comment is blank, and otherwise changes exactly rating and the stripped comment |
| SkillsPage.FilteredSkills | skillswap_frontend/src/pages/SkillsPage.tsx:21-24 | keeps a skill iff its lower-cased title or description contains the lower-cased term; an order-preserving subsequence |
| SkillsPage.EmptyTermKeepsAll | skillswap_frontend/src/pages/SkillsPage.tsx:21-24 | an empty term keeps every skill |
| SkillsPage.SearchIgnoresCase | skillswap_frontend/src/pages/SkillsPage.tsx:22-23 | lower-casing the term changes nothing |
| SkillsPage.SearchExample | skillswap_frontend/src/pages/SkillsPage.tsx:21-24 | "guitar" keeps "Guitar Basics" and drops "Piano" |
| SkillsPage.Render | skillswap_frontend/src/pages/SkillsPage.tsx:35-120 | loading, login prompt, loading, then "No skills found" iff the filtered list is empty, else the grid of exactly that list |
| SkillsPage.Page.SetSearch | skillswap_frontend/src/pages/SkillsPage.tsx:70 | sets the search term; the backend query is unchanged |
| SkillsPage.Page.SetCategory | skillswap_frontend/src/pages/SkillsPage.tsx:74 | sets the category filter only, and Clear Filters is offered |
| SkillsPage.Page.SetLevel | skillswap_frontend/src/pages/SkillsPage.tsx:87-96 | sets one of the three level codes only, and Clear Filters is offered |
| SkillsPage.Page.ClearFilters | skillswap_frontend/src/pages/SkillsPage.tsx:98-105 | clears all three filters, hides the button, and the page shows the whole catalog newest first |
| SkillsPage.ShownSkillsMatchEveryFilter | skillswap_frontend/src/pages/SkillsPage.tsx:18-24 | a card is shown iff the skill is in the catalog, in the category, at the level and matches the term |
| SkillDetailPage.Page.OpenBookingForm | skillswap_frontend/src/pages/SkillDetailPage.tsx:229-232 | "Book a Session" shows the form |
| SkillDetailPage.Page.CancelBooking | skillswap_frontend/src/pages/SkillDetailPage.tsx:176-181 | Cancel hides the form and keeps what was typed |
| SkillDetailPage.Page.EditDateTime | skillswap_frontend/src/pages/SkillDetailPage.tsx:152-159 | the typed text becomes the date field and nothing else changes |
| SkillDetailPage.Page.EditMessage | skillswap_frontend/src/pages/SkillDetailPage.tsx:168 | the typed text becomes the message and nothing else changes |
| SkillDetailPage.Page.HandleBookSession | skillswap_frontend/src/pages/SkillDetailPage.tsx:36-67 | clears the error; no user goes to login; an empty date is reported; otherwise the booking is sent with no status; success resets and hides the form, failure shows the detail or 'Failed to book session' |
| SkillDetailPage.SentBookingIsPending | skillswap_frontend/src/pages/SkillDetailPage.tsx:54-58 | the page's booking creates a PENDING session of the viewer with the skill's mentor and the stripped message, under either serializer |
| SkillDetailPage.OwnSkillBookingOnlyHiddenByPage | skillswap_frontend/src/pages/SkillDetailPage.tsx:225-246 | the skill's own mentor sees no booking form or button, though the backend would accept the booking |

## Left out

- `average_rating` (reviews/models.py:24) is floating point. Only the integer `review_count` is modelled.
- The email text, `send_mail`, Celery `.delay` and the beat schedule are not modelled. The scheduler returns the ids it queues, and a reminder returns its recipient.
- Date parsing and formatting are not modelled; times are integer minutes. On the skill page, the outcome of `new Date(...).toISOString()` is a parameter, and a date it cannot read takes the fallback error path.
- skillswap_django/tasks.py is not part of this model. It repeats the reminder tasks with another window and imports an app this project does not have.
- LiveChat.tsx, SessionChat.tsx, the polling hooks, AuthContext.tsx and the react-query cache are not part of this model. The card's `showLiveChat` flag is never set, so it is left out.
- HTTP status codes and error texts are error constructors, one per message.
- Accounts.Validate: does not model the e-mail format check, nor the normalisation `create_user` applies to the e-mail address and the username. A missing required field is not modelled either: every required field is present in `RegisterPayload`.
- The serializers' stripping of text uses the whitespace set of `Text.Trim`. Python's `str.strip` also removes U+001C to U+001F and U+0085, and keeps U+FEFF.
- The session viewset's inherited full update (`PUT /sessions/<id>/`, which also requires and rewrites `skill_id`) and delete (`DELETE /sessions/<id>/`) are not modelled. A `skill_id` in a PATCH is not modelled either, nor is a status code the choice field refuses.
- LearningSessions.SessionTable.Book: does not model the required-field checks of the payload. A missing skill, which raises an unhandled error, is SkillNotFound.
- Reviews.EditReviewAsWritten: does not model a `session_id` that names a missing session. It also does not model `reviewed_id` being written by an update.
- Text.ToLower: lower-cases ASCII letters only, not the full Unicode mapping of `toLowerCase`.
- SkillDetailPage.Page.HandleBookSession: does not model the browser's own `required` check on the date field, which would stop an empty date before the handler runs. The handler's own empty-date branch is modelled.
- Skills.SkillTable.Destroy: does not model the cascade of `instance.delete()`. The skill's sessions go with it (learning_sessions/models.py:16), and so do their messages (:31) and their reviews (reviews/models.py:8). The skill and session tables are separate classes here, so the model removes the skill row only. The cascade does not go through `Review.save`, so every profile that received one of those reviews keeps a stale `review_count`: the same defect as the Findings row for reviews/views.py:54-57.
- Skills.SkillTable.Update: models the full update (`PUT`) only. A `PATCH` that omits fields is not modelled, nor is the validation of `duration_minutes` as an integer or of `category` as an existing category.
- Accounts.AccountTable.Register: does not model the column lengths of `User` and `UserProfile` (a username over 150 characters, a timezone over 50). The serializer is a plain `Serializer` that does not check them, and whether the database refuses them depends on its backend.
- Rendering, CSS classes, `getLevelColor` and `getStatusColor` are not modelled.

## Findings

| source | as written | input that shows it | evidently intended | confidence | as-written member | corrected member |
|---|---|---|---|---|---|---|
| skillswap_django/learning_sessions/serializers.py:16-18 | `status` and `mentor_response` are writable when a session is created | a learner posts a booking with `status: "APPROVED"` and `mentor_response: "ok"` | a new session is PENDING with no response; only the mentor approves | high, not executed | LearningSessions.NewSessionAsWritten (BookingCanSkipApproval) | LearningSessions.NewSession |
| skillswap_frontend/src/hooks/useReviews.ts:76 | the panel asks for `?session=<id>`, but the review listing ignores that parameter and returns every review of the viewer | a learner reviewed their mentor after session 1, then opens the panel of completed session 2 | "already reviewed" refers to this session only | high, not executed | MutualReviews.FetchedAsWritten (ReviewOfEarlierSessionBlocksNext) | MutualReviews.Fetched (HasReviewedOtherExact, OfferedReviewAdmitted) |
| skillswap_django/reviews/views.py:54-57 | deleting a review does not recompute the reviewed profile's `review_count`; only `save()` does | delete the only review a profile received; its `review_count` stays 1 | `review_count` equals the number of reviews received after every change | high, not executed | Reviews.ReviewTable.DestroyAsWritten | Reviews.ReviewTable.Destroy |
| skillswap_django/learning_sessions/views.py:10 | the viewset is a `ModelViewSet` and the serializer leaves `status` and `mentor_response` writable (serializers.py:16-18), so a PATCH by either participant stores them | the learner of a PENDING session sends `PATCH /sessions/<id>/` with `status: "APPROVED"` | status and response change only through the mentor's detail actions | medium, not executed | LearningSessions.PatchAsWritten (PatchBypassesActions) | LearningSessions.Patch (StatusChangesOnlyByAction, SessionTable.PartialUpdate) |
| skillswap_django/reviews/serializers.py:11 | `session_id` is a required field, and the edit dialog's full update does not send it | the author edits their own review to 4 stars from the edit dialog | an edit changes rating and comment of one's own review | medium, not executed | Reviews.EditReviewAsWritten (UpdateWithoutSessionIdRefused) | Reviews.EditReview (AuthorUpdateAccepted) |
