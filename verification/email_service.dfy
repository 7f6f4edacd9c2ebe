/** The e-mail service facade: guard clauses in front of the mail composer,
    the fixed-status helper wrappers, and the magic-link message. */
module EmailService {
  import opened Wrappers
  import opened Text
  import opened EmailConfig

  const MissingRejectMessage: string := "Reject message is required for failed emails"
  const MissingWorkshopRejectMessage: string := "Reject message is required for rejected workshop emails"
  const MagicLinkSubject: string := "Admin Login - HackAttack 2025"
  const MagicLinkFailed: string := "Failed to send magic link email"

  /** `SendEmailParams`; the registration date is already in milliseconds. */
  datatype RegistrationParams = RegistrationParams(
    email: string,
    teamLeader: string,
    status: string,
    batch: Option<int>,
    rejectMessage: Option<string>,
    registrationDate: Option<int>)

  /** A JavaScript truthiness test on an optional batch number. */
  predicate HasBatch(batch: Option<int>)
  {
    batch.Some? && batch.value != 0
  }

  /** The batch passed on: the given one, or for a success without one the
      batch of the registration date. */
  function FinalBatch(p: RegistrationParams): (b: Option<int>)
    ensures HasBatch(p.batch) ==> b == p.batch
    ensures p.status == "success" && !HasBatch(p.batch) && p.registrationDate.Some? ==>
      b == Some(DetermineBatch(p.registrationDate.value))
    ensures (p.status != "success" || p.registrationDate.None?) ==> b == p.batch
  {
    if p.status == "success" && !HasBatch(p.batch) && p.registrationDate.Some? then
      Some(DetermineBatch(p.registrationDate.value))
    else p.batch
  }

  /** `EmailService.sendRegistrationEmail`: a success with no batch and no
      date, or a failure with no message, throws before anything is composed;
      otherwise the composer runs with the final batch. */
  function SendRegistrationEmail(t: Templates, env: MailEnv, p: RegistrationParams, transportOk: bool): (r: Result<Delivery>)
    ensures p.status == "success" && !HasBatch(FinalBatch(p)) ==> r == Err(BatchRequired)
    ensures p.status == "failed" && !Given(p.rejectMessage) ==> r == Err(MissingRejectMessage)
    ensures p.status == "success" && p.registrationDate.Some? && !HasBatch(p.batch) ==>
      r.Ok? && r.value.message.subject == (if DetermineBatch(p.registrationDate.value) == 1 then Batch1Subject else Batch2Subject)
    ensures p.status == "failed" && Given(p.rejectMessage) ==>
      r.Ok? && r.value.message.subject == FailedSubject && r.value.success == transportOk
    ensures p.status == "success" && (p.batch == Some(1) || p.batch == Some(2)) ==>
      r.Ok? && r.value.message.subject == (if p.batch == Some(1) then Batch1Subject else Batch2Subject)
    ensures p.status == "success" && HasBatch(p.batch) && p.batch != Some(1) && p.batch != Some(2) ==>
      r == Err(BatchRequired)
    ensures p.status != "success" && p.status != "failed" ==> r == Err(InvalidRegistrationStatus)
    ensures !(p.status == "success" && !HasBatch(FinalBatch(p))) && !(p.status == "failed" && !Given(p.rejectMessage)) ==>
      r == EmailConfig.SendRegistrationEmail(t, env, p.email, p.teamLeader, p.status, FinalBatch(p), p.rejectMessage,
                                             transportOk)
  {
    var batch := FinalBatch(p);
    if p.status == "success" && !HasBatch(batch) then Err(BatchRequired)
    else if p.status == "failed" && !Given(p.rejectMessage) then Err(MissingRejectMessage)
    else EmailConfig.SendRegistrationEmail(t, env, p.email, p.teamLeader, p.status, batch, p.rejectMessage, transportOk)
  }

  /** `sendBatch1SuccessEmail`: never throws, and always uses the batch-1
      template and subject. */
  function SendBatch1SuccessEmail(t: Templates, env: MailEnv, email: string, teamLeader: string, transportOk: bool): (r: Result<Delivery>)
    ensures r.Ok? && r.value.message.subject == Batch1Subject && r.value.message.to == email
    ensures r.value.message.html == Substitute(t.batch1, [("{{teamLeader}}", teamLeader), ("{{email}}", email)])
  {
    SendRegistrationEmail(t, env, RegistrationParams(email, teamLeader, "success", Some(1), None, None), transportOk)
  }

  /** `sendBatch2SuccessEmail`: never throws, and always uses the batch-2
      template and subject. */
  function SendBatch2SuccessEmail(t: Templates, env: MailEnv, email: string, teamLeader: string, transportOk: bool): (r: Result<Delivery>)
    ensures r.Ok? && r.value.message.subject == Batch2Subject && r.value.message.to == email
    ensures r.value.message.html == Substitute(t.batch2, [("{{teamLeader}}", teamLeader), ("{{email}}", email)])
  {
    SendRegistrationEmail(t, env, RegistrationParams(email, teamLeader, "success", Some(2), None, None), transportOk)
  }

  /** `sendFailedRegistrationEmail`: throws only for an empty message, and
      otherwise fills the message into the failed template. */
  function SendFailedRegistrationEmail(t: Templates, env: MailEnv, email: string, teamLeader: string, rejectMessage: string,
                                       transportOk: bool): (r: Result<Delivery>)
    ensures r.Ok? <==> rejectMessage != ""
    ensures r.Err? ==> r.error == MissingRejectMessage
    ensures r.Ok? ==>
      r.value.message.subject == FailedSubject &&
      r.value.message.html == Substitute(t.failedRegistration,
        [("{{teamLeader}}", teamLeader), ("{{email}}", email), ("{{rejectMessage}}", rejectMessage)])
  {
    assert rejectMessage != "" ==>
      RegistrationPlaceholders(teamLeader, email, "failed", Some(rejectMessage))
      == [("{{teamLeader}}", teamLeader), ("{{email}}", email), ("{{rejectMessage}}", rejectMessage)];
    SendRegistrationEmail(t, env, RegistrationParams(email, teamLeader, "failed", None, Some(rejectMessage), None), transportOk)
  }

  /** `sendEmailWithAutoBatch`: a success always gets the batch of its date. */
  function SendEmailWithAutoBatch(t: Templates, env: MailEnv, email: string, teamLeader: string, registrationDate: int,
                                  status: string, rejectMessage: Option<string>, transportOk: bool): (r: Result<Delivery>)
    ensures status == "success" ==>
      r.Ok? &&
      r.value.message.subject == (if Batch1Start <= registrationDate <= Batch1End then Batch1Subject else Batch2Subject)
  {
    SendRegistrationEmail(t, env, RegistrationParams(email, teamLeader, status, None, rejectMessage, Some(registrationDate)), transportOk)
  }

  /** `SendWorkshopEmailParams`. */
  datatype WorkshopParams = WorkshopParams(
    email: string,
    participantName: string,
    workshopName: string,
    institution: string,
    status: string,
    rejectMessage: Option<string>)

  /** `sendWorkshopApprovalEmail`: a rejection without a message throws;
      everything else goes to the composer unchanged. */
  function SendWorkshopApprovalEmail(t: Templates, env: MailEnv, p: WorkshopParams, transportOk: bool): (r: Result<Delivery>)
    ensures p.status == "rejected" && !Given(p.rejectMessage) ==> r == Err(MissingWorkshopRejectMessage)
    ensures r.Ok? <==> p.status == "approved" || (p.status == "rejected" && Given(p.rejectMessage))
    ensures r.Ok? ==> r.value.success == transportOk && r.value.message.to == p.email
    ensures p.status != "approved" && p.status != "rejected" ==> r == Err(InvalidWorkshopStatus)
    ensures r.Ok? ==>
      r == EmailConfig.SendWorkshopEmail(t, env, p.email, p.participantName, p.workshopName, p.institution,
                                         p.status, p.rejectMessage, transportOk)
    ensures r.Ok? ==>
      r.value.message.subject ==
        (if p.status == "approved" then ApprovedSubject(WorkshopInfo(p.workshopName).name)
         else RejectedSubject(WorkshopInfo(p.workshopName).name))
  {
    if p.status == "rejected" && !Given(p.rejectMessage) then Err(MissingWorkshopRejectMessage)
    else EmailConfig.SendWorkshopEmail(t, env, p.email, p.participantName, p.workshopName, p.institution,
                                       p.status, p.rejectMessage, transportOk)
  }

  /** `sendWorkshopSuccessEmail`: never throws; sends the approval layout. */
  function SendWorkshopSuccessEmail(t: Templates, env: MailEnv, email: string, participantName: string, workshopName: string,
                                    institution: string, transportOk: bool): (r: Result<Delivery>)
    ensures r.Ok? && r.value.message.subject == ApprovedSubject(WorkshopInfo(workshopName).name)
  {
    SendWorkshopApprovalEmail(t, env, WorkshopParams(email, participantName, workshopName, institution, "approved", None), transportOk)
  }

  /** `sendWorkshopRejectionEmail`: throws only for an empty message. */
  function SendWorkshopRejectionEmail(t: Templates, env: MailEnv, email: string, participantName: string, workshopName: string,
                                      institution: string, rejectMessage: string, transportOk: bool): (r: Result<Delivery>)
    ensures r.Ok? <==> rejectMessage != ""
    ensures r.Ok? ==> r.value.message.subject == RejectedSubject(WorkshopInfo(workshopName).name)
  {
    SendWorkshopApprovalEmail(t, env, WorkshopParams(email, participantName, workshopName, institution, "rejected", Some(rejectMessage)), transportOk)
  }

  /** `SendMagicLinkEmailParams`. */
  datatype MagicLinkParams = MagicLinkParams(email: string, token: string, adminName: Option<string>)

  const ConfirmPath: string := "/auth/confirm?token="

  /** The sign-in link the e-mail carries. */
  function MagicLinkUrl(appUrl: string, token: string): (url: string)
    ensures StartsWith(url, appUrl + ConfirmPath)
  {
    appUrl + ConfirmPath + token
  }

  /** What the confirmation page reads back from a link. */
  function TokenFromUrl(appUrl: string, url: string): Option<string>
  {
    if StartsWith(url, appUrl + ConfirmPath) then Some(url[|appUrl + ConfirmPath|..]) else None
  }

  /** The link carries the token unchanged. */
  lemma MagicLinkRoundTrip(appUrl: string, token: string)
    ensures TokenFromUrl(appUrl, MagicLinkUrl(appUrl, token)) == Some(token)
  {
    assert MagicLinkUrl(appUrl, token)[|appUrl + ConfirmPath|..] == token;
  }

  const MagicLinkHtmlHead: string :=
    "\n      <h2>HackAttack 2025 Admin Confirmation</h2>\n      \n      <p>Click the following link to continue to your admin account:</p>\n      <p><a href=\""
  const MagicLinkHtmlTail: string :=
    "\">Sign In</a></p>\n      \n      <p>For security concern, don't share this link with anyone! This link will expire in 15 minutes and can only be used once.</p>\n      <p>Ignore this email if it's not you.</p>\n    "

  /** `sendMagicLinkEmail`: the message to the admin with the link inside;
      a transport failure is rethrown as a fixed error. */
  function SendMagicLinkEmail(env: MailEnv, appUrl: string, p: MagicLinkParams, transportOk: bool): (r: Result<Message>)
    ensures r.Ok? <==> transportOk
    ensures r.Err? ==> r.error == MagicLinkFailed
    ensures r.Ok? ==>
      r.value.to == p.email && r.value.subject == MagicLinkSubject && r.value.from == env.emailFrom &&
      MatchAt(r.value.html, MagicLinkUrl(appUrl, p.token), |MagicLinkHtmlHead|)
  {
    var url := MagicLinkUrl(appUrl, p.token);
    var html := MagicLinkHtmlHead + url + MagicLinkHtmlTail;
    assert html[|MagicLinkHtmlHead|..|MagicLinkHtmlHead| + |url|] == url;
    if transportOk then Ok(Message(env.emailFrom, p.email, MagicLinkSubject, html, []))
    else Err(MagicLinkFailed)
  }
}
