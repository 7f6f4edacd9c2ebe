# HackAttack admin dashboard — a Dafny model

This project models the server and dashboard logic of the HackAttack 2025 admin dashboard, a Next.js application in which hackathon organisers review team registrations, team members, proposal submissions and workshop registrations. The model covers:

- **Request gate** (`Middleware`): the public-route check and the per-client sliding-window rate limiter. The limiter is a class over a map from client key to request timestamps.
- **Admin sign-in** (`Auth`): magic-link issue, token verification, session check and logout. The `auth_tokens` and `admin_sessions` tables are maps, and time is an integer count of milliseconds.
- **Decisions** (`Approval`, `Workshops`): the team, member, submission and workshop decision endpoints. This covers their validation order, the exact fields each one writes, the audit record, and the best-effort e-mail and notification flags.
- **Live notifications** (`Notifications`, `NotificationService`): the registry of server-sent-event streams, as a class over a map, and the notification rows and messages.
- **Audit log** (`History`): appending a record, and listing one entity's records newest first.
- **Counters and listings** (`Stats`, `Registration`, `Records`): the dashboard counters, the team/creator/member join, and the field-for-field record converters.
- **Mail composition** (`EmailConfig`, `EmailService`): batch choice by date, template, subject and attachment choice, placeholder substitution, and the guard clauses of the service facade.
- **Dashboard tables** (`TeamTable`, `LegacyTable`, `WorkshopTable`, `SubmissionTable`, `StatusBadge`): status mapping, search and filters, the selected row, the local update once the server accepts a decision, the spreadsheet export rows, and the status badge with its history popover. Each table is a class whose handlers replace its state. The workshop table keeps its rows in an array that the handlers update in place.

Storage calls, the mail transport and each push to a stream are outcome parameters: each succeeds or answers with an error and, where a handler's model says so, it can also throw. The reads that are instead taken as always answering are named under "## Left out". Randomness and the clock are parameters too.

`Wrappers`, `Text` and `Seqs` hold the shared pieces:
- the `Option` and `Result` types;
- the JavaScript string operations the code relies on (`startsWith`, `includes`, `trim`, ASCII `toLowerCase`, global `replace`, `join`);
- filtering, counting and ordering of sequences.

The token verification endpoint (`src/app/api/auth/verify-token/route.ts`) creates no admin session and sets no cookie. It marks the token used, looks up the user and returns a sign-in link. The model follows that code rather than a description of the endpoint that has it open a session.

## Model

| member | source | states |
|---|---|---|
| Middleware.PublicIffRooted | src/middleware.ts:9-26 | a pathname is public exactly when it starts with "/", because "/" is a public route and routes match by prefix |
| Middleware.RateLimiterUnreachable | src/middleware.ts:17-29 | no pathname is both non-public and under "/api/", so the rate-limit branch is never reached |
| Middleware.ClientKey | src/middleware.ts:30-31 | the key is never empty and neither starts nor ends with white space; it is "Unknown" when the header is absent or its first comma-separated entry is blank |
| Middleware.ClientKeyIsFirstEntry | src/middleware.ts:30-31 | unless it is the fallback "Unknown", the key taken from a present header is written in it after blanks only and before its first comma |
| Middleware.Recent | src/middleware.ts:38-40 | every kept timestamp is less than 60000 ms before now and every such stored timestamp is kept |
| Middleware.WindowElapsed | src/middleware.ts:38-40 | once a full window has passed since every stored request, nothing is left in the window |
| Middleware.RecentSameInstant | src/middleware.ts:38-40 | requests at the current instant are all inside the window |
| Middleware.RateLimiter.constructor | src/middleware.ts:4 | the map starts empty, with every stored list within the limit |
| Middleware.RateLimiter.Admit | src/middleware.ts:34-49 | admitted exactly when fewer than 100 recent timestamps are stored; an admitted request stores the pruned list followed by now and touches no other key; a refused one changes nothing, not even by pruning; no list ever exceeds 100 |
| Middleware.Handle | src/middleware.ts:11-132 | public paths pass without touching the limiter; other non-API paths pass exactly when the user is authenticated and are otherwise redirected to "/"; a 429 leaves the limiter as it was |
| Middleware.HandleNeverLimits | src/middleware.ts:9-50 | as configured, no request is ever answered 429 and the limiter map never changes |
| Middleware.RateLimitScenario | src/middleware.ts:38-49 | one client's 100 requests at one instant are admitted, the 101st is refused, and one a full window later is admitted |
| Auth.ValidEmailIff | src/app/api/auth/send-magic-link/route.ts:15 | the format check holds exactly when the text splits as one or more non-blank non-@ characters, "@", one or more such characters, ".", one or more such characters |
| Auth.Hex | src/app/api/auth/send-magic-link/route.ts:41 | the token text has two lower-case hexadecimal digits per random byte |
| Auth.HexRoundTrip | src/app/api/auth/send-magic-link/route.ts:41 | the hexadecimal text reads back to the bytes it was made from |
| Auth.HexInjective | src/app/api/auth/send-magic-link/route.ts:41 | different random bytes never give the same token |
| Auth.UserWithEmail | src/app/api/auth/send-magic-link/route.ts:35-38 | a user is found exactly when some listed user has that e-mail, and the one found has it |
| Auth.AdminName | src/app/api/auth/send-magic-link/route.ts:67 | the greeting name is the full name when one is set and non-empty, otherwise the part of the e-mail before "@" when that is non-empty, otherwise "Admin"; it is never empty |
| Auth.SendMagicLink | src/app/api/auth/send-magic-link/route.ts:6-88 | missing e-mail gives 400 "Email is required", a malformed one 400 "Invalid email format", a failed user listing 500, an unknown user 404; success exactly when the user exists and the insert succeeds, and then one row is appended with used false, expiry now + 900000 ms and a 64-character token, the token is echoed only in development, and an e-mail is attempted; every error leaves the table unchanged and sends no e-mail |
| Auth.MagicLinkMailIrrelevant | src/app/api/auth/send-magic-link/route.ts:63-80 | a failed e-mail changes neither the response nor the stored token |
| Auth.LiveRows | src/app/api/auth/verify-token/route.ts:13-18 | exactly the unused rows holding the token, in table order |
| Auth.VerifySteps | src/app/api/auth/verify-token/route.ts:8-82 | the handler gets past every check only with a single live row for the token, a non-empty user list and a user owning the token's e-mail |
| Auth.VerifyToken | src/app/api/auth/verify-token/route.ts:4-101 | the error for each failing step in order (400 Token is required, 400 Invalid or expired token, 400 Token has expired, 500 Failed to process token); the token is marked used exactly when it is redeemable and the update succeeds, and the table is unchanged otherwise; a success returns the first listed user |
| Auth.VerifyTokenCorrected | src/app/api/auth/verify-token/route.ts:61-92 | same table effect and success condition as the handler as written, but the user returned is a listed user whose e-mail is the token's |
| Auth.VerifySingleUse | src/app/api/auth/verify-token/route.ts:13-39 | once a verification has consumed a token, every later verification of it answers 400 "Invalid or expired token" |
| Auth.MarkUsedKillsToken | src/app/api/auth/verify-token/route.ts:36-39 | marking the single live row used leaves no live row for that token |
| Auth.VerifyExpiryBoundary | src/app/api/auth/verify-token/route.ts:28-33 | a token checked at its expiry instant is still redeemed; one millisecond later it is refused as expired and stays unused |
| Auth.VerifyConsumesBeforeLookup | src/app/api/auth/verify-token/route.ts:36-64 | a redeemable token whose owner is not listed gives 404 and is still consumed |
| Auth.IssueThenVerify | src/app/api/auth/verify-token/route.ts:13-33 | a freshly issued token is redeemable up to its lifetime and refused as expired after it |
| Auth.VerifyTokenReturnsFirstUser | src/app/api/auth/verify-token/route.ts:84-92 | a token owned by the second listed user returns the first user as written, and the owner in the corrected handler |
| Auth.CheckSession | src/app/api/auth/check-session/route.ts:5-55 | always status 200; a user is returned exactly when the cookie is given, the session select succeeds and returns an unexpired session, and the `Admins` select succeeds with a single row for its e-mail, and then it is that e-mail; a session select that fails answers null with the table unchanged, as does an `Admins` select that fails (the caught errors); the session table changes only by deleting an expired session that was looked up |
| Auth.ExpiredSessionGone | src/app/api/auth/check-session/route.ts:24-34 | an expired session is removed by the first check that sees it and no later check succeeds with that cookie |
| Auth.Logout | src/app/api/auth/logout/route.ts:5-35 | a throwing delete gives 500 with no cookie and no change; otherwise success with the cookie cleared (empty, maxAge 0, httpOnly, lax, path "/", secure only in production); the row is deleted only when a cookie is present |
| Auth.LogoutEndsSession | src/app/api/auth/logout/route.ts:10-15 | after a completed logout the same cookie no longer opens a session |
| History.RecordAction | src/lib/services/historyService.ts:9-34 | a successful insert appends exactly one row carrying the six given fields and the current time, leaving earlier rows as they were; a failed or throwing insert leaves the log unchanged and nothing reaches the caller |
| History.ConvertAll | src/lib/services/historyService.ts:51-55 | every returned row is the field-for-field conversion of the selected row at the same position |
| History.EntityRowsExact | src/lib/services/historyService.ts:40-44 | the selected rows are all and only the log rows of that entity, as many as there are, ordered by created_at descending |
| History.GetEntityHistory | src/lib/services/historyService.ts:36-60 | an error or exception gives the empty list; otherwise exactly the entity's rows, each converted, newest first |
| History.RecordedActionListed | src/lib/services/historyService.ts:18-44 | after a successful record the entity's history lists the new action |
| History.RecordLeavesOthers | src/lib/services/historyService.ts:18-44 | recording an action for one entity leaves every other entity's history as it was |
| Approval.ApplyTeamApproval | src/app/api/team/approval/route.ts:36-47 | the status is always written; a rejection stores the given reason, an acceptance clears it, any other status keeps it; no other column changes |
| Approval.TeamApprovalPut | src/app/api/team/approval/route.ts:5-75 | the checks in order (400 missing id or approval, 400 unknown approval, 400 rejection without a non-blank reason), 500 for a store error or exception; success exactly when every check passes and the update succeeds, and then only the row with that id changes, with no existence check (an unknown id succeeds with no data); every failure leaves the table unchanged |
| Approval.TeamApprovalFrame | src/app/api/team/approval/route.ts:49-53 | a team row can change only when its id was sent, and then only in status and reason |
| Approval.TeamApprovalIdempotent | src/app/api/team/approval/route.ts:36-53 | sending the same approval twice leaves the table as one send did |
| Approval.AcceptClearsReason | src/app/api/team/approval/route.ts:43-47 | a rejection stores the reason and a later acceptance clears it |
| Approval.MemberApprovalPut | src/app/api/team/member/approval/route.ts:5-48 | 400 for a missing id or approval and for an approval outside Pending, Accepted and Rejected; 500 "Failed to update member approval" for a store error and 500 "Internal server error" for a throw; success exactly when valid and the update succeeds, writing member_approval of that id only, with no not-found check; failures change nothing |
| Approval.MemberApprovalsStayValid | src/app/api/team/member/approval/route.ts:16-27 | when every stored member approval is allowed before a call, it still is after it |
| Approval.SubmissionStatusPut | src/app/api/team/submission/status/route.ts:5-54 | 400 for a missing id or status and for a status outside Valid, Invalid and Pending; on a valid body 500 "Failed to update submission status" for a store error or an id with no row and 500 "Internal server error" for a throw; on success only status and updated_at of that row are written and the message is "Submission " + the lower-cased status + " successfully" |
| Approval.InvalidSubmissionReply | src/app/api/team/submission/status/route.ts:42-46 | marking a submission Invalid answers "Submission invalid successfully" with the updated row |
| Workshops.ConvertWorkshops | src/app/api/workshop/route.ts:25-27 | the i-th record is the conversion of the i-th row |
| Workshops.ConvertWorkshopsInvertible | src/app/api/workshop/route.ts:25-27 | converting the list loses, adds and reorders nothing: the rows are recovered from the records |
| Workshops.ListWorkshops | src/app/api/workshop/route.ts:10-41 | a store error gives 500 "Failed to fetch workshop data" and an exception 500 "Internal server error"; otherwise every row exactly once, converted, newest first, with total equal to the number of rows |
| Workshops.ActionFor | src/app/api/workshop/route.ts:120-125 | the audit action is approve exactly for Approved, reject exactly for Rejected, and reset for anything else |
| Workshops.EmailStep | src/app/api/workshop/route.ts:137-163 | the e-mail flag is set exactly for Approved, or Rejected with a non-empty reason, whether or not the transport delivers |
| Workshops.PatchWorkshop | src/app/api/workshop/route.ts:43-195 | every failure, including a session or current-row select that fails, leaves the workshop table and the audit log unchanged |
| Workshops.PatchWorkshopDone | src/app/api/workshop/route.ts:43-195 | success exactly when the session select succeeds and returns a row for the cookie, id and status are given, a rejection carries a non-blank reason, the current-row select succeeds and finds the id, and the store update succeeds; then only that row's approval is written, the audit record of the session's admin with the old and new status under entity type "workshop" is attempted, emailSent holds for Approved and Rejected, and notificationSent only when the notification call returned true |
| Workshops.PatchWorkshopErrors | src/app/api/workshop/route.ts:43-195 | the failure replies in the order of the checks: no cookie, a session select that answers with an error, or no session row gives {user: null} and a session select that throws gives 500, all before any field check; then 400 missing id or status, 400 rejection without a non-blank reason; then a current-row select that throws gives 500, one that answers with an error or finds no row gives 404; then 500 for an update error or exception |
| Workshops.ExpiredSessionStillAuthorises | src/app/api/workshop/route.ts:54-64 | an expired session authorises exactly the same change as an unexpired one |
| Workshops.RejectionReasonNotStored | src/app/api/workshop/route.ts:99-109 | a rejection never changes any row's rejection_message |
| Workshops.PatchRecordsHistory | src/app/api/workshop/route.ts:119-133 | a successful change with a successful insert appends exactly one record, for this workshop, with the prior and new status, and it appears in the workshop's history |
| Workshops.EmailSentDespiteTransportFailure | src/app/api/workshop/route.ts:137-163 | an approval reports emailSent even when the mail transport fails |
| Workshops.NotificationFailureHarmless | src/app/api/workshop/route.ts:165-187 | a notification call that throws leaves notificationSent false and the reply still a success |
| Notifications.FrameText | src/app/api/notifications/stream/route.ts:17-23 | every frame starts with "data: ", ends with a blank line and is the JSON text plus eight characters |
| Notifications.FrameRoundTrip | src/app/api/notifications/stream/route.ts:51-57 | a client reading a frame gets the JSON text back unchanged |
| Notifications.FrameEndsOnce | src/app/api/notifications/stream/route.ts:74-79 | for JSON text without line breaks, the only blank-line terminator in a frame is the one at its end, so each frame is one event |
| Notifications.ConnectionRegistry.constructor | src/app/api/notifications/stream/route.ts:4 | the registry starts empty with nothing written |
| Notifications.ConnectionRegistry.Open | src/app/api/notifications/stream/route.ts:6-42 | without a user id the answer is 400 and nothing changes; otherwise the new stream replaces any earlier one for that user and its first event is "connected" |
| Notifications.ConnectionRegistry.Cancel | src/app/api/notifications/stream/route.ts:27-28 | removes exactly that user id, whichever stream is registered for it, and writes nothing |
| Notifications.ConnectionRegistry.CancelOwn | src/app/api/notifications/stream/route.ts:27-28 | removes the user only while the cancelled stream is still the one registered |
| Notifications.ConnectionRegistry.Publish | src/app/api/notifications/stream/route.ts:44-67 | true exactly when the user is registered with an open stream, and then one event is written to that stream and the map is unchanged; an unregistered user changes nothing; a failed write removes that user and writes nothing |
| Notifications.ConnectionRegistry.BroadcastToAll | src/app/api/notifications/stream/route.ts:69-88 | the count is the number of users with an open stream and never exceeds the number registered; exactly those users stay registered; the events written are one broadcast per open user, each such user exactly once (in the visit order returned), to that user's stream |
| Notifications.OpenUsersBound | src/app/api/notifications/stream/route.ts:69-88 | the users with open streams are no more than the users registered |
| Notifications.ReopenReplaces | src/app/api/notifications/stream/route.ts:16 | after a user registers twice, a push goes to the second stream |
| Notifications.StaleCancelDropsLiveStream | src/app/api/notifications/stream/route.ts:27-28 | when the first stream of a user who has reconnected is cancelled, the second, still open stream stops receiving pushes |
| Notifications.OwnCancelKeepsLiveStream | src/app/api/notifications/stream/route.ts:27-28 | with the corrected cancel, the second stream keeps receiving |
| NotificationService.NewRow | src/lib/services/notificationService.ts:15-24 | the inserted row is unread, carries the user, type, title and message given, and has a team id exactly when a non-empty one was given |
| NotificationService.ToNotification | src/lib/services/notificationService.ts:41-51 | the pushed record carries the stored row's id, user, team, type, title, message and read flag |
| NotificationService.CreateNotification | src/lib/services/notificationService.ts:11-66 | true exactly when the insert succeeds; on failure nothing is stored or pushed; on success the row is appended and, when the user's stream is open, pushed to it, and the answer is true whether or not the push reached anyone |
| NotificationService.TeamNotice | src/lib/services/notificationService.ts:68-90 | the type and title are the approved or rejected ones according to `approved` alone; an approval message is "Your team \"" + the team name + "\" has been approved for HackAttack! You can now proceed with the competition.", and a rejection message is "Your team \"" + the team name + "\" registration was rejected. Reason: " + the reason, or `undefined` when none is given |
| NotificationService.RejectionNoticeCarriesReason | src/lib/services/notificationService.ts:79-81 | a rejection notice includes the team name and ends with the reason given |
| NotificationService.MemberNotice | src/lib/services/notificationService.ts:92-114 | type and title follow `approved` alone; user and team as given; the message starts with "Team member \"" and the member's name and ends with the team's name in quotes, so it names both |
| NotificationService.SubmissionNotice | src/lib/services/notificationService.ts:116-139 | type and title follow `approved` alone; user and team as given; the message starts with "Your team \"" and the team's name |
| NotificationService.CreateTeamApprovalNotification | src/lib/services/notificationService.ts:68-90 | stores the team notice exactly when the insert succeeds; then pushes it to the user's open stream, forgets a closed one, and changes nothing for an unregistered user; a failed insert changes nothing |
| NotificationService.CreateMemberApprovalNotification | src/lib/services/notificationService.ts:92-114 | stores the member notice exactly when the insert succeeds; then pushes it to the user's open stream, forgets a closed one, and changes nothing for an unregistered user; a failed insert changes nothing |
| NotificationService.CreateSubmissionApprovalNotification | src/lib/services/notificationService.ts:116-139 | stores the submission notice exactly when the insert succeeds; then pushes it to the user's open stream, forgets a closed one, and changes nothing for an unregistered user; a failed insert changes nothing |
| Stats.CountOrZero | src/app/api/team/submission/stats/route.ts:43 | a null exact count reads as 0, a present one as itself |
| Stats.SubmittedTeams | src/app/api/team/submission/stats/route.ts:31-33 | the set of submitting teams holds exactly the team ids that occur in some submission |
| Stats.SubmittedTeamsBound | src/app/api/team/submission/stats/route.ts:31-33 | no more distinct teams have submitted than there are submission rows |
| Stats.SubmissionStatsGet | src/app/api/team/submission/stats/route.ts:5-58 | a count error gives 500 "Failed to count teams", a submissions error 500 "Failed to fetch submissions", a thrown error 500 "Internal server error"; success exactly when both queries succeed, with total the count (or 0), submitted the distinct teams (at most the rows), valid and invalid the rows with those exact statuses (together at most the rows), and notSubmitted total minus submitted |
| Stats.NotSubmittedCanBeNegative | src/app/api/team/submission/stats/route.ts:43-45 | notSubmitted is not clamped at zero: a submission from a team the count misses yields -1 |
| Stats.WorkshopStatsGet | src/app/api/workshop/stats/route.ts:5-48 | success exactly when both queries succeed, otherwise 500 "Internal server error"; pending, approved and rejected count the rows whose approval is exactly that text, and together never exceed the rows |
| Stats.TeamStatsGet | src/app/api/team/stats/route.ts:5-48 | success exactly when both queries succeed, otherwise 500 "Internal server error"; pending, approved (the Accepted rows) and rejected count exact status texts and together never exceed the rows |
| Stats.InReviewTeamsUncounted | src/app/api/team/stats/route.ts:20-29 | a Submitted or Resubmitted team moves none of the three counters |
| Stats.FetchTeamStats | src/lib/services/admin/teamService.ts:5-50 | success exactly when both queries succeed, with the route's counts under `accepted` and the success message; otherwise the failure message, no data, and the error's message or "Unknown error" for a thrown non-Error |
| EmailConfig.Asset | src/lib/config/email.ts:89-101 | an inline image carries the content id of its name and the file name `<name>.png` |
| EmailConfig.DetermineBatch | src/lib/config/email.ts:237-251 | the batch is always 1 or 2, and it is 1 exactly inside the closed batch-1 interval; every other date, before or after both batches included, gives 2 |
| EmailConfig.DetermineBatchBoundary | src/lib/config/email.ts:240-244 | the first instant of 8 November is in batch 1, the next millisecond and the instant before batch 1 are in batch 2 |
| EmailConfig.RegistrationLayout | src/lib/config/email.ts:104-163 | a layout exists exactly for "success" with batch 1 or 2, or for "failed"; a success without a batch throws "Batch is required for success emails", any other status throws the invalid-status error; the header image comes first, then the success banner with the batch's template and subject, or the failure banner with the failure template and subject |
| EmailConfig.RegistrationPlaceholders | src/lib/config/email.ts:165-171 | `{{teamLeader}}` then `{{email}}` are replaced; `{{rejectMessage}}` is replaced third exactly when the status is "failed" and the message is non-empty |
| EmailConfig.SendRegistrationEmail | src/lib/config/email.ts:79-190 | throws exactly when the layout does, with its error; otherwise the message from the configured sender to the address, with the layout's subject and attachments and the substituted template, and the transport outcome as the success flag |
| EmailConfig.RegistrationFillsLeader | src/lib/config/email.ts:165-167 | in a template whose only placeholders are `{{teamLeader}}`, every one of them becomes the team leader's name, whatever the status |
| EmailConfig.WorkshopInfo | src/lib/config/email.ts:279-309 | "workshop1" and "workshop2" expand to their fixed name, heading, date and benefits; any other name is kept with empty details |
| EmailConfig.WorkshopLayout | src/lib/config/email.ts:311-347 | a layout exists exactly for "approved" or "rejected", each with its own template, subject naming the workshop and banner after the header; any other status throws the invalid-status error |
| EmailConfig.WorkshopPlaceholders | src/lib/config/email.ts:349-362 | the nine workshop placeholders in order (participant name, e-mail, workshop title, date, name, institution and the three benefits), plus `{{rejectMessage}}` exactly for a rejection with a non-empty message |
| EmailConfig.SendWorkshopEmail | src/lib/config/email.ts:253-381 | throws exactly for a status other than approved or rejected; otherwise the composed message with the expanded workshop details and the transport outcome as the success flag |
| EmailConfig.WorkshopTemplateVerbatim | src/lib/config/email.ts:349-362 | a template without any brace is sent exactly as written, whatever the participant's details |
| EmailService.FinalBatch | src/lib/services/emailService.ts:43-47 | a given non-zero batch is kept; a success without one but with a registration date gets the batch of that date; otherwise the batch is passed on as given |
| EmailService.SendRegistrationEmail | src/lib/services/emailService.ts:33-64 | a success left without a batch throws "Batch is required for success emails", a given batch other than 1 or 2 throws the same, a failure without a message throws "Reject message is required for failed emails", and any other status throws the invalid-status error; otherwise the result is the composer's with the final batch; a dated success gets the subject of its date's batch and a given batch 1 or 2 its own subject |
| EmailService.SendBatch1SuccessEmail | src/lib/services/emailService.ts:66-73 | never throws; the batch-1 subject to the given address, with the leader and address substituted into the batch-1 template |
| EmailService.SendBatch2SuccessEmail | src/lib/services/emailService.ts:75-82 | never throws; the batch-2 subject to the given address, with the leader and address substituted into the batch-2 template |
| EmailService.SendFailedRegistrationEmail | src/lib/services/emailService.ts:84-95 | throws exactly for an empty message, with the missing-message error; otherwise the failure subject with leader, address and message substituted into the failure template |
| EmailService.SendEmailWithAutoBatch | src/lib/services/emailService.ts:97-111 | a success never throws and gets the batch-1 subject exactly when its date lies in the batch-1 interval |
| EmailService.SendWorkshopApprovalEmail | src/lib/services/emailService.ts:113-137 | a rejection without a message throws "Reject message is required for rejected workshop emails"; a delivery happens exactly for an approval or a rejection with a message, and is then the composer's, to the given address, with the approval or rejection subject and the transport outcome; any other status throws the invalid-status error |
| EmailService.SendWorkshopSuccessEmail | src/lib/services/emailService.ts:139-152 | never throws; the approval subject names the expanded workshop name |
| EmailService.SendWorkshopRejectionEmail | src/lib/services/emailService.ts:154-169 | throws exactly for an empty message; otherwise the update subject names the expanded workshop name |
| EmailService.MagicLinkUrl | src/lib/services/emailService.ts:174 | the link starts with the application URL followed by the confirmation path |
| EmailService.MagicLinkRoundTrip | src/lib/services/emailService.ts:174 | reading the token back from the link gives the token unchanged |
| EmailService.SendMagicLinkEmail | src/lib/services/emailService.ts:171-214 | succeeds exactly when the transport does, otherwise fails with "Failed to send magic link email"; the message goes from the sender address to the admin with the login subject and carries the link inside the HTML |
| Records.ConvertUser | src/lib/utility/typeconverter.ts:7-17 | the conversion is invertible: the user maps back to exactly the row it came from, id preserved |
| Records.ConvertTeam | src/lib/utility/typeconverter.ts:19-32 | the conversion is invertible: no column is lost or swapped, the payment URL, status and reason included |
| Records.ConvertTeamMember | src/lib/utility/typeconverter.ts:34-50 | the conversion is invertible: every member column, leader flag and approval included, maps back to the row |
| Records.ConvertWorkshop | src/lib/utility/typeconverter.ts:52-65 | the conversion is invertible: all ten workshop columns map back to the row |
| Records.ConvertHistory | src/lib/utility/typeconverter.ts:67-78 | the conversion is invertible: all eight history columns map back to the row |
| Records.FirstLeader | src/app/dashboard/_components/_team/AdminTable.tsx:281 | the result is a member marked as leader with no leader before it, and it is absent exactly when no member is marked as leader |
| Registration.Creator | src/app/api/team/registration/route.ts:92-95 | a creator is found exactly when some user row has the team's creator id, and it is the converted first such row |
| Registration.TeamMembers | src/app/api/team/registration/route.ts:97-101 | the members are exactly the converted member rows of that team: each result belongs to the team and comes from a row, and every row of the team appears |
| Registration.TeamMembersFilterThenConvert | src/app/api/team/registration/route.ts:97-101 | a team's members are the rows filtered by team id, converted one by one: same number, same order, repeats kept |
| Registration.TeamMembersAppend | src/app/api/team/registration/route.ts:97-101 | the members found in two concatenated row lists are those of the first list followed by those of the second |
| Registration.Details | src/app/api/team/registration/route.ts:88-108 | a team has an entry exactly when its creator is known; the entry carries the converted team, that creator, the team's members and their number |
| Registration.Join | src/app/api/team/registration/route.ts:88-110 | the listing has at most one entry per team row |
| Registration.JoinSound | src/app/api/team/registration/route.ts:88-110 | every listed entry is the entry of some team row |
| Registration.JoinComplete | src/app/api/team/registration/route.ts:88-110 | every team whose creator is known is listed |
| Registration.JoinAppend | src/app/api/team/registration/route.ts:88-110 | the listing keeps team-row order: the listing of two runs of teams is the two listings concatenated |
| Registration.JoinKeepsAll | src/app/api/team/registration/route.ts:88-110 | when every creator is known nothing is dropped and the i-th entry belongs to the i-th team row |
| Registration.RegistrationGet | src/app/api/team/registration/route.ts:50-120 | the first failing fetch, in the order teams, users, members, gives its own 500 error text, a thrown failure "Internal server error"; data exactly when all three fetches succeed, and then the join |
| StatusBadge.Classify | src/components/ui/hoverable-status.tsx:19-66 | on the lower-cased text: the Pending badge exactly when it contains "pending" or "waiting"; otherwise the Approved badge exactly when it contains "approved", "accepted" or "valid"; the Rejected badge only for "rejected" without "invalid"; the text itself exactly when none of the seven words occurs |
| StatusBadge.InvalidIncludesValid | src/components/ui/hoverable-status.tsx:34-57 | every text containing "invalid" contains "valid", so the rejection test never sees "invalid" |
| StatusBadge.InvalidShownApproved | src/components/ui/hoverable-status.tsx:34-45 | the submission status "Invalid" gets the Approved badge |
| StatusBadge.ClassifyIntended | src/components/ui/hoverable-status.tsx:34-57 | with the rejection words checked before the approval words: Pending for the pending words, Rejected exactly for the rejection words, Approved exactly for the approval words without rejection words, otherwise the text |
| StatusBadge.IntendedAgreesWithoutRejection | src/components/ui/hoverable-status.tsx:34-57 | the two orders agree on every text without "rejected" or "invalid" |
| StatusBadge.IntendedSubmissionBadges | src/components/ui/hoverable-status.tsx:22-57 | with the intended order "Valid", "Invalid" and "Pending" get the Approved, Rejected and Pending badges |
| StatusBadge.NoStatusWord | src/components/ui/hoverable-status.tsx:22-57 | a text lacking one character of each of the seven words contains none of them |
| StatusBadge.ApproveShownVerbatim | src/components/ui/hoverable-status.tsx:59-65 | the team table's "Approve" contains no status word and is shown as written |
| StatusBadge.SubmittedShownVerbatim | src/components/ui/hoverable-status.tsx:59-65 | "Submitted" contains no status word and is shown as written |
| StatusBadge.NotSubmittedShownVerbatim | src/components/ui/hoverable-status.tsx:59-65 | "Not Submitted" contains no status word and is shown as written |
| StatusBadge.HistoryPopover.constructor | src/components/ui/hoverable-status.tsx:68-70 | a new popover has no history and is not loading |
| StatusBadge.HistoryPopover.StartFetch | src/components/ui/hoverable-status.tsx:72-77 | while loading nothing is fetched; otherwise loading is set and the entity's history path is fetched; the history is unchanged |
| StatusBadge.HistoryPopover.FinishFetch | src/components/ui/hoverable-status.tsx:78-86 | an OK answer replaces the history by its history field or by the empty list; any other answer or a failure keeps it; loading is cleared either way |
| StatusBadge.HoverWhileLoading | src/components/ui/hoverable-status.tsx:72-87 | a second hover before the answer fetches nothing, and a hover after it fetches again |
| TeamTable.MapApiStatus | src/app/dashboard/_components/_team/AdminTable.tsx:54-69 | Accepted is shown as Approve, Rejected, Submitted and Resubmitted keep their names, and every other value, Pending included, is shown as Pending |
| TeamTable.MapApiStatusRoundTrip | src/app/dashboard/_components/_team/AdminTable.tsx:54-71 | every component status is reached from its own approval value, so no label is lost |
| TeamTable.AcceptedTeamBadgeIsPlain | src/app/dashboard/_components/_team/AdminTable.tsx:695-700 | an accepted team's status label "Approve" is not recognised by the badge and is drawn as a plain badge |
| TeamTable.Transform | src/app/dashboard/_components/_team/AdminTable.tsx:121-132 | a row carries the team's id, name, institution, creation date, member count, mapped status and the team record, no reason, and no payment link, because the record has no `paymentproof_url` key |
| TeamTable.TransformIntended | src/app/dashboard/_components/_team/AdminTable.tsx:128 | the intended row is the row as written with the team's own payment link |
| TeamTable.PaymentLinkLost | src/app/dashboard/_components/_team/AdminTable.tsx:128 | for every team the row's payment link differs from the team's payment link |
| TeamTable.TransformAll | src/app/dashboard/_components/_team/AdminTable.tsx:121-132 | one row per fetched team, in order |
| TeamTable.FilteredData | src/app/dashboard/_components/_team/AdminTable.tsx:225-246 | the rows shown come from the list and pass the search and the status boxes (the search alone when the first three boxes are clear); every row passing them is shown |
| TeamTable.SearchOnlyWhenPrimaryClear | src/app/dashboard/_components/_team/AdminTable.tsx:228-230 | with Pending, Accepted and Rejected all clear, the Submitted and Resubmitted boxes have no effect and the search alone decides |
| TeamTable.SelectAllKeepsSearchMatches | src/app/dashboard/_components/_team/AdminTable.tsx:104-110 | with every box checked exactly the rows matching the search are shown |
| TeamTable.EmptySearchShowsAll | src/app/dashboard/_components/_team/AdminTable.tsx:225-230 | an empty search with no box checked shows every row |
| TeamTable.Request | src/app/dashboard/_components/_team/AdminTable.tsx:158-162 | the request names the team and the decision, and carries the reason exactly when it is given and non-empty, otherwise null |
| TeamTable.WithDecision | src/app/dashboard/_components/_team/AdminTable.tsx:178-184 | the team record gets the new status and the reason or the empty text; every other field is as it was |
| TeamTable.ApplyDecision | src/app/dashboard/_components/_team/AdminTable.tsx:171-188 | rows with the team's id get the mapped status, the reason and the updated record; all other rows and all other fields are unchanged |
| TeamTable.ApplyDecisionIdempotent | src/app/dashboard/_components/_team/AdminTable.tsx:171-188 | applying the same accepted decision twice is the same as applying it once |
| TeamTable.DecidedRowOffersNoAction | src/app/dashboard/_components/_team/AdminTable.tsx:610-611 | once an acceptance or rejection is applied the row no longer offers Approve and Reject |
| Text.OrDash | src/app/dashboard/_components/_team/AdminTable.tsx:287 | a given non-empty text is kept, anything else becomes "-" (the same rule fills the submission and workshop export cells) |
| TeamTable.Leader | src/app/dashboard/_components/_team/AdminTable.tsx:280-285 | the leader is the first member marked as leader; there is none exactly when no member is marked |
| TeamTable.Export | src/app/dashboard/_components/_team/AdminTable.tsx:273-288 | one export row per shown row, numbered from 1, with the name, institution, member count, date, status label, reason or "-", the first leader's name and e-mail or "-", and the team's WhatsApp number exactly when it is non-zero |
| TeamTable.RegistrationTable.constructor | src/app/dashboard/_components/_team/AdminTable.tsx:85-143 | the table starts with the fetched rows, an empty search, no box checked, nothing selected and the reason dialog closed |
| TeamTable.RegistrationTable.SetSearch | src/app/dashboard/_components/_team/AdminTable.tsx:86 | only the search text changes |
| TeamTable.RegistrationTable.SetFilters | src/app/dashboard/_components/_team/AdminTable.tsx:98-102 | only the boxes change |
| TeamTable.RegistrationTable.SelectAll | src/app/dashboard/_components/_team/AdminTable.tsx:104-110 | every box is checked, nothing else changes, and the rows shown are exactly those matching the search |
| TeamTable.RegistrationTable.SetReason | src/app/dashboard/_components/_team/AdminTable.tsx:97 | only the reason text changes |
| TeamTable.RegistrationTable.Select | src/app/dashboard/_components/_team/AdminTable.tsx:619 | the selection becomes the row's position on screen, nothing else changes |
| TeamTable.RegistrationTable.SelectRow | src/app/dashboard/_components/_team/AdminTable.tsx:619 | the selection becomes the position in the whole list of the row on screen, so the selected row is the one shown |
| TeamTable.RegistrationTable.ApproveSelected | src/app/dashboard/_components/_team/AdminTable.tsx:203-209 | with nothing selected nothing is sent; otherwise the acceptance of the row at the selected position of the whole list is requested and the selection is cleared |
| TeamTable.RegistrationTable.SubmitReason | src/app/dashboard/_components/_team/AdminTable.tsx:215-223 | a request is sent exactly when a row is selected and the reason is not blank; it rejects that row with the reason as typed, and the dialog, reason and selection are reset; otherwise nothing changes |
| TeamTable.RegistrationTable.Answer | src/app/dashboard/_components/_team/AdminTable.tsx:165-188 | a successful answer applies the decision to the rows, a failed one leaves them; nothing else changes |
| TeamTable.WrongTeamApproved | src/app/dashboard/_components/_team/AdminTable.tsx:203-209 | with two submitted teams and a search showing only the second, approving the row on screen requests the acceptance of the first |
| TeamTable.RightTeamApproved | src/app/dashboard/_components/_team/AdminTable.tsx:203-209 | with the intended selection the same clicks request the acceptance of the team on screen |
| LegacyTable.MapApiStatus | src/app/dashboard/_components/AdminTable.tsx:54-65 | Accepted is shown as Approve and Rejected as Rejected; every other value is shown as Pending |
| LegacyTable.InReviewShownPending | src/app/dashboard/_components/AdminTable.tsx:54-65 | Submitted and Resubmitted teams are shown as Pending and so are offered the team actions |
| LegacyTable.AgreesWithTeamTable | src/app/dashboard/_components/AdminTable.tsx:54-67 | on Pending, Accepted and Rejected the earlier table shows the same label as the five-status table |
| LegacyTable.Transform | src/app/dashboard/_components/AdminTable.tsx:132-142 | a row carries the team's id, name, institution, creation date, member count, mapped status and the team record, and no reason |
| LegacyTable.FilteredData | src/app/dashboard/_components/AdminTable.tsx:289-291 | the rows shown are exactly the rows whose team name contains the search, ignoring case |
| LegacyTable.EmptySearchShowsAll | src/app/dashboard/_components/AdminTable.tsx:289-291 | an empty search shows every row |
| LegacyTable.DecideMembers | src/app/dashboard/_components/AdminTable.tsx:185-189 | members with that id get the decision; every other member is unchanged, and the list keeps its length |
| LegacyTable.ApplyMemberDecision | src/app/dashboard/_components/AdminTable.tsx:179-193 | every row keeps all its fields except its team record, whose members get the decision as above; a row without a record is unchanged |
| LegacyTable.DecidedMemberButtonLocked | src/app/dashboard/_components/AdminTable.tsx:425-460 | after an accepted decision the button that would repeat it is locked for every member with that id |
| LegacyTable.MemberDecisionIdempotent | src/app/dashboard/_components/AdminTable.tsx:179-193 | applying the same member decision twice is applying it once |
| LegacyTable.ApplyTeamDecision | src/app/dashboard/_components/AdminTable.tsx:235-252 | rows with the team's id get the mapped status, the reason and the updated record; all other rows and fields are unchanged |
| LegacyTable.DecidedTeamOffersNoAction | src/app/dashboard/_components/AdminTable.tsx:547 | once an acceptance or rejection is applied the row is no longer Pending and offers no team action |
| LegacyTable.LegacyRegistrationTable.constructor | src/app/dashboard/_components/AdminTable.tsx:106-144 | the table starts with one row per fetched team, an empty search and no member request in flight |
| LegacyTable.LegacyRegistrationTable.ClickMember | src/app/dashboard/_components/AdminTable.tsx:418-461 | a locked button sends nothing and changes nothing; otherwise the member is marked in flight and the request for that member and decision is sent |
| LegacyTable.LegacyRegistrationTable.AnswerMember | src/app/dashboard/_components/AdminTable.tsx:173-206 | a successful answer applies the decision to every member with that id, a failed one leaves the rows; the in-flight mark is cleared either way |
| LegacyTable.LegacyRegistrationTable.AnswerTeam | src/app/dashboard/_components/AdminTable.tsx:229-252 | a successful answer applies the team decision, a failed one leaves the rows |
| LegacyTable.DoubleClickSendsOnce | src/app/dashboard/_components/AdminTable.tsx:418-461 | while a member's request is in flight a click on either of its buttons sends nothing |
| WorkshopTable.Transform | src/app/dashboard/_components/_workshop/AdminWorkshopTable.tsx:77-89 | a row carries the registration's id, name, e-mail, institution, WhatsApp number, workshop, payment-proof link, approval and date, and no rejection reason, whatever was stored |
| WorkshopTable.FilteredData | src/app/dashboard/_components/_workshop/AdminWorkshopTable.tsx:187-200 | the rows shown are exactly the rows whose name, e-mail or institution contains the search ignoring case and whose approval's box is checked, or every approval when no box is |
| WorkshopTable.SelectAllIsNoFilter | src/app/dashboard/_components/_workshop/AdminWorkshopTable.tsx:143-147 | when every approval is Pending, Approved or Rejected, Select All shows the same rows as no box checked |
| WorkshopTable.UnknownApprovalOnlyUnfiltered | src/app/dashboard/_components/_workshop/AdminWorkshopTable.tsx:193-197 | a row with any other approval passes the filter exactly when no box is checked |
| WorkshopTable.InstitutionLabel | src/app/dashboard/_components/_workshop/AdminWorkshopTable.tsx:376-378 | the column reads Telkom University exactly for "telkom" and Non Telkom otherwise |
| WorkshopTable.WorkshopLabel | src/app/dashboard/_components/_workshop/AdminWorkshopTable.tsx:381 | the column reads Workshop 1 exactly for "workshop1" and Workshop 2 for anything else |
| WorkshopTable.Export | src/app/dashboard/_components/_workshop/AdminWorkshopTable.tsx:202-215 | one export row per shown row, numbered from 1, with its name, e-mail, institution, WhatsApp number, workshop, approval, date and payment proof, and its reason or "-" |
| WorkshopTable.FetchedRowsExportNoReason | src/app/dashboard/_components/_workshop/AdminWorkshopTable.tsx:77-89 | rows fresh from the server export "-" as their reason |
| WorkshopTable.WorkshopAdminTable.constructor | src/app/dashboard/_components/_workshop/AdminWorkshopTable.tsx:53-103 | the table starts with one row per fetched registration, an empty search, no box checked, nothing selected and both dialogs closed |
| WorkshopTable.WorkshopAdminTable.SetSearch | src/app/dashboard/_components/_workshop/AdminWorkshopTable.tsx:54 | only the search text changes |
| WorkshopTable.WorkshopAdminTable.SetRejectReason | src/app/dashboard/_components/_workshop/AdminWorkshopTable.tsx:64 | only the reason text changes |
| WorkshopTable.WorkshopAdminTable.SelectAll | src/app/dashboard/_components/_workshop/AdminWorkshopTable.tsx:143-147 | all three boxes are checked and nothing else changes |
| WorkshopTable.WorkshopAdminTable.Select | src/app/dashboard/_components/_workshop/AdminWorkshopTable.tsx:418 | the selection becomes the row's position on screen, nothing else changes |
| WorkshopTable.WorkshopAdminTable.SelectRow | src/app/dashboard/_components/_workshop/AdminWorkshopTable.tsx:418 | the selection becomes the position in the whole list of the row on screen, so the selected row is the one shown |
| WorkshopTable.WorkshopAdminTable.Approve | src/app/dashboard/_components/_workshop/AdminWorkshopTable.tsx:105-137 | with nothing selected nothing is sent; otherwise the approval of the row at the selected position of the whole list is requested; on success that row alone becomes Approved in place, the selection is cleared and the success dialog opens; on failure nothing changes |
| WorkshopTable.WorkshopAdminTable.SubmitReason | src/app/dashboard/_components/_workshop/AdminWorkshopTable.tsx:149-185 | a request is sent exactly when a row is selected and the reason is not blank, rejecting that row with the trimmed reason; on success that row alone becomes Rejected with that reason and the dialog is reset; otherwise nothing changes |
| WorkshopTable.OnlySecondShown | src/app/dashboard/_components/_workshop/AdminWorkshopTable.tsx:187-200 | with two rows of which the search finds only the second and no box checked, only the second is shown |
| WorkshopTable.WrongRowApproved | src/app/dashboard/_components/_workshop/AdminWorkshopTable.tsx:105-137 | for any two pending registrations where the search shows only the second, approving the row on screen requests and applies the approval of the first, which becomes Approved while the shown one stays Pending |
| WorkshopTable.RightRowApproved | src/app/dashboard/_components/_workshop/AdminWorkshopTable.tsx:105-137 | with the intended selection the registration on screen is the one requested and marked Approved |
| SubmissionTable.Transform | src/app/dashboard/_components/_submission/AdminSubmissionTable.tsx:89-102 | a row is Submitted exactly when the team has a submission, counts the members listed, and carries the team's id, name, institution, date, members, submission id, status and proposal URL |
| SubmissionTable.TransformAll | src/app/dashboard/_components/_submission/AdminSubmissionTable.tsx:89-102 | one row per team, in order |
| SubmissionTable.SubmittedRowsAreSubmittingTeams | src/app/dashboard/_components/_submission/AdminSubmissionTable.tsx:89-102 | the rows marked Submitted are exactly the rows of the teams that have a submission, in the same order |
| SubmissionTable.RowBadgeShowsStatus | src/app/dashboard/_components/_submission/AdminSubmissionTable.tsx:343-347 | neither "Submitted" nor "Not Submitted" contains a status word, so the badge shows the row's status text as it is |
| SubmissionTable.MatchesFilter | src/app/dashboard/_components/_submission/AdminSubmissionTable.tsx:125-128 | a row passes exactly when the filter of its status is on, or when both filters are in the same state |
| SubmissionTable.FilteredData | src/app/dashboard/_components/_submission/AdminSubmissionTable.tsx:121-131 | the rows shown come from the list, have a team name containing the search ignoring case and pass the filter; every row doing both is shown; a row without a team name is never shown |
| SubmissionTable.BothFiltersAsNone | src/app/dashboard/_components/_submission/AdminSubmissionTable.tsx:116-128 | both filters on show the same rows as no filter |
| SubmissionTable.SubmittedFilterShowsSubmitted | src/app/dashboard/_components/_submission/AdminSubmissionTable.tsx:121-131 | with only the Submitted filter on, the rows shown are the Submitted rows among those the search alone shows, in order |
| SubmissionTable.NonLeaderNames | src/app/dashboard/_components/_submission/AdminSubmissionTable.tsx:171-173 | the names listed are those of the members not marked as leader, every such member included |
| SubmissionTable.NonLeaderNamesFilterThenMap | src/app/dashboard/_components/_submission/AdminSubmissionTable.tsx:171-173 | the names are the non-leader members filtered in member order and mapped to their names: same number, same order, repeats kept |
| SubmissionTable.NonLeaderNamesAppend | src/app/dashboard/_components/_submission/AdminSubmissionTable.tsx:171-173 | the names of two concatenated member lists are those of the first followed by those of the second |
| SubmissionTable.MembersColumn | src/app/dashboard/_components/_submission/AdminSubmissionTable.tsx:170-174 | the column is "-" exactly when the non-leader names join to the empty text (in particular when there is no non-leader) and otherwise is that join with ", "; with two or more non-leaders it is always the join; every non-empty non-leader name appears in it |
| SubmissionTable.Export | src/app/dashboard/_components/_submission/AdminSubmissionTable.tsx:153-176 | one export row per shown row, numbered from 1, with the name, institution, member count, submission date and status text, the first leader's name and e-mail or "-", the members column and the proposal URL or "-" |
| SubmissionTable.NoLeaderExportsDash | src/app/dashboard/_components/_submission/AdminSubmissionTable.tsx:164-169 | a team without a member marked as leader exports "-" in both leader columns |
| SubmissionTable.HistoryKey | src/app/dashboard/_components/_submission/AdminSubmissionTable.tsx:345 | the history is keyed by the submission id when it is present and non-empty, else by the team id |
| SubmissionTable.NoSubmissionKeyedByTeam | src/app/dashboard/_components/_submission/AdminSubmissionTable.tsx:345 | a team without a submission keys its history by its own id |
| SubmissionTable.SubmissionAdminTable.constructor | src/app/dashboard/_components/_submission/AdminSubmissionTable.tsx:86-104 | the table starts with one row per team, an empty search and both filters off |
| SubmissionTable.SubmissionAdminTable.SetSearch | src/app/dashboard/_components/_submission/AdminSubmissionTable.tsx:121-123 | only the search text changes |
| SubmissionTable.SubmissionAdminTable.SetFilterSubmitted | src/app/dashboard/_components/_submission/AdminSubmissionTable.tsx:125-126 | only the Submitted filter changes |
| SubmissionTable.SubmissionAdminTable.SetFilterNotSubmitted | src/app/dashboard/_components/_submission/AdminSubmissionTable.tsx:127 | only the Not Submitted filter changes |
| SubmissionTable.SubmissionAdminTable.SelectAll | src/app/dashboard/_components/_submission/AdminSubmissionTable.tsx:116-119 | both filters are turned on, the rows and search are kept, and the rows shown are those no filter shows |
| Seqs.Filter | src/app/dashboard/_components/_team/AdminTable.tsx:225 | every kept element passes the test, every element passing it is kept, and the list never grows |
| Seqs.SortDesc | src/lib/services/historyService.ts:40-44 | the ordering is a permutation of its input, sorted by descending key |
| Seqs.InsertDesc | src/lib/services/historyService.ts:40-44 | inserting into a descending list keeps it descending and adds exactly that element |
| Seqs.CountThreeBound | src/app/api/workshop/stats/route.ts:20-28 | three counts by mutually exclusive tests add up to at most the number of rows |
| Text.IncludesIffMatch | src/app/dashboard/_components/_team/AdminTable.tsx:226 | `includes` holds exactly when the searched text occurs at some position |
| Text.MissingCharExcludes | src/components/ui/hoverable-status.tsx:22-57 | a text lacking one of the characters of a word does not include that word |
| Text.ToLower | src/app/dashboard/_components/_team/AdminTable.tsx:226 | lower-casing keeps the length and maps every character independently |
| Text.EmptySearchMatches | src/app/dashboard/_components/_team/AdminTable.tsx:226 | every text contains the empty search, ignoring case |
| Text.TrimStart | src/app/dashboard/_components/_team/AdminTable.tsx:216 | the result is a suffix of the text that is empty or starts with a non-space |
| Text.TrimStartBlanks | src/app/dashboard/_components/_team/AdminTable.tsx:216 | the prefix removed from the start is blank, and everything is removed exactly for a blank text |
| Text.TrimEnd | src/app/dashboard/_components/_team/AdminTable.tsx:216 | the result is a prefix of the text that is empty or ends with a non-space |
| Text.TrimEndBlanks | src/app/dashboard/_components/_team/AdminTable.tsx:216 | the suffix removed from the end is blank, and everything is removed exactly for a blank text |
| Text.TrimEdges | src/middleware.ts:30-31 | a non-empty trimmed text neither starts nor ends with white space |
| Text.TrimEmptyIffBlank | src/app/dashboard/_components/_team/AdminTable.tsx:216 | a trimmed text is empty, so the reason check fails, exactly when the text is blank |
| Text.BeforeFirst | src/middleware.ts:30-31 | the first comma-separated entry is a prefix without a comma, followed by a comma whenever it is shorter than the header |
| Text.ReplaceAllLiteral | src/lib/config/email.ts:165-171 | a global replacement changes nothing in a text where the placeholder does not occur |
| Text.ReplaceAllAfterLiteral | src/lib/config/email.ts:165-171 | a global replacement replaces the first occurrence and continues after the replacement text |
| Text.ReplaceAllEveryOccurrence | src/lib/config/email.ts:165-167 | a template made of placeholder-free parts around placeholders gets the value at every occurrence of the placeholder |
| Text.JoinIncludesParts | src/app/dashboard/_components/_submission/AdminSubmissionTable.tsx:170-174 | every joined name appears in the joined text |
| Text.JoinEmpty | src/app/dashboard/_components/_submission/AdminSubmissionTable.tsx:170-174 | with a non-empty separator the join is empty exactly when there is no name or a single empty one |

## Left out

- The Supabase client: every query, insert, update and delete is modelled on maps and sequences, with its outcome as a parameter, except the reads named on the `Auth.VerifyToken:` line below. `auth.admin.listUsers` and `generateLink` are parameters: the listed users, and the link or its failure.
- The middleware's Supabase session refresh and sign-in redirect (`src/middleware.ts:55-132`): foreign calls that are not part of this model.
- Template loading from disk and the nodemailer transport: templates are opaque strings, and a send is a success or failure outcome.
- `crypto.randomBytes`, `Date.now` and `new Date()`: the random bytes and the current time are parameters, and timestamps are integers.
- EmailConfig.DetermineBatch: date-string parsing is not modelled. The four batch boundaries are taken as UTC midnight, so the local-time reading that JavaScript gives the non-ISO "2025-11-8" is not captured.
- Locale formatting (`toLocaleDateString`, `formatDateForExcel`) and the spreadsheet writer (`src/lib/utils/excelExport.ts`): export rows keep the raw timestamp.
- Text.ToLower: only the ASCII letters are lowered; Unicode case mapping is not modelled.
- Text.ReplaceAll: the replacement text is inserted literally. JavaScript's `$`-patterns in a replacement string are not interpreted.
- `JSON.stringify`: a notification frame takes the JSON text as a parameter.
- Server-sent-event streams and every cross-request race: a push is a per-stream success or failure. Handlers run one at a time.
- React rendering, hooks, dialogs, toasts and `window.open`: only the state the handlers change is modelled.
- The earlier registration table's Approve, Reject and reason handlers (`src/app/dashboard/_components/AdminTable.tsx:267-287`) are not modelled. They are the same as the five-status table's (`TeamTable.RegistrationTable.ApproveSelected`, `SubmitReason`), and they carry the same on-screen-index defect.
- The submission listing endpoint (`src/app/api/team/submission/route.ts`), the older submission table, the status-with-history component and the stat-card pages are not part of this model.
- WorkshopTable.WorkshopAdminTable.Approve: the copy of the rows shares its row objects with the previous state. The model updates the array in place and does not capture that aliasing.
- SubmissionTable.Export: the submission date column keeps the raw timestamp instead of the formatted date or "-".
- Auth.SendMagicLink: a throw is not modelled. This covers a body that is not JSON, `listUsers` throwing and the token insert throwing. The source answers each with 500 "Internal server error" (`src/app/api/auth/send-magic-link/route.ts:81-87`). The model's `users` and `insertOk` parameters only succeed or fail.
- Auth.VerifyToken: a throw is not modelled. This covers a body that is not JSON, and the token select, the mark-used update, `listUsers` or `generateLink` throwing. The source answers each with 500 "Internal server error" (`src/app/api/auth/verify-token/route.ts:94-100`). A throw after the mark-used update leaves the token consumed; the model does not capture this. The token select is also taken to always answer: a select that answers with an error (including `.single()` finding several rows) gets 400 "Invalid or expired token" in the source (`src/app/api/auth/verify-token/route.ts:13-25`), the same reply the model gives for a missing row, but it is not a separate input of the model.
- Notifications.ConnectionRegistry.BroadcastToAll: the order of the deliveries is left open. The source's `Map` visits users in the order they were first registered; the model states only that each open user gets exactly one delivery.
- EmailService.SendEmailWithAutoBatch: states only the success case; the failed case is what `EmailService.SendRegistrationEmail` states.
- EmailService.SendWorkshopSuccessEmail: states the subject, not the whole message; the message is what `EmailConfig.SendWorkshopEmail` states.
- EmailService.SendWorkshopRejectionEmail: states when it throws and the subject, not the whole message, for the same reason.

## Findings

| source | as written | input that shows it | evidently intended | confidence | as-written member | corrected member |
|---|---|---|---|---|---|---|
| src/components/ui/hoverable-status.tsx:34-57 | the approval words, "valid" among them, are checked before the rejection words | the submission status "Invalid" contains "valid" and gets the Approved badge | "Invalid" gets the Rejected badge | not executed | StatusBadge.InvalidShownApproved | StatusBadge.IntendedSubmissionBadges |
| src/app/dashboard/_components/_team/AdminTable.tsx:203-209 | the row's position in the filtered list indexes the whole list | teams Alpha then Beta, search "beta": approving the only row shown, Beta, requests the acceptance of Alpha | the team on screen is the one decided | not executed | TeamTable.WrongTeamApproved | TeamTable.RightTeamApproved |
| src/app/dashboard/_components/_workshop/AdminWorkshopTable.tsx:105-137 | the row's position in the filtered list indexes the whole array | two pending registrations where the search shows only the second: approving it marks the first Approved | the registration on screen is the one decided | not executed | WorkshopTable.WrongRowApproved | WorkshopTable.RightRowApproved |
| src/app/api/auth/verify-token/route.ts:84-92 | the user returned is the first listed user, not the token's owner | a token owned by the second listed user returns the first user's id and e-mail | the token's owner is returned | not executed | Auth.VerifyTokenReturnsFirstUser | Auth.VerifyTokenCorrected |
| src/app/api/notifications/stream/route.ts:27-28 | a stream's cancel deletes its user's entry whatever stream is registered | a user reconnects, then the first stream is cancelled: the new stream is dropped and pushes fail | only the stream's own entry is removed | not executed | Notifications.StaleCancelDropsLiveStream | Notifications.OwnCancelKeepsLiveStream |
| src/app/dashboard/_components/_team/AdminTable.tsx:128 | the row reads `paymentproof_url`, which the fetched record does not have | any team: the payment-proof button has no link | the row carries the team's `paymentProofUrl` | not executed | TeamTable.PaymentLinkLost | TeamTable.TransformIntended |
