/** The three approval endpoints of the team area: a team's approval
    status, a member's approval and a submission's status. Each validates
    its body in a fixed order, writes exactly the named columns of the row
    with the given id, and maps a store error to 500. The tables are maps
    from row id to row; the store's answer to the update is a parameter. */
module Approval {
  import opened Wrappers
  import opened Text
  import opened Records

  const TeamApprovals: seq<string> := ["Pending", "Accepted", "Rejected", "Submitted", "Resubmitted"]
  const MemberApprovals: seq<string> := ["Pending", "Accepted", "Rejected"]
  const SubmissionStatuses: seq<string> := ["Valid", "Invalid", "Pending"]

  const InternalError: string := "Internal server error"
  const InvalidApproval: string := "Invalid approval status"
  const TeamFieldsRequired: string := "Team ID and approval status are required"
  const TeamReasonRequired: string := "Reject message is required when rejecting a team"
  const TeamUpdateFailed: string := "Failed to update team approval"
  const TeamUpdated: string := "Team approval updated successfully"
  const MemberFieldsRequired: string := "Member ID and approval status are required"
  const MemberUpdateFailed: string := "Failed to update member approval"
  const MemberUpdated: string := "Member approval updated successfully"
  const SubmissionFieldsRequired: string := "Submission ID and status are required"
  const InvalidStatus: string := "Invalid status value"
  const SubmissionUpdateFailed: string := "Failed to update submission status"

  /** The JSON reply of the team and member endpoints. */
  datatype Reply<T> = Reply(status: nat, success: bool, message: string, data: Option<T>)

  /** The parsed body of `PUT /api/team/approval`; `None` for a body that
      is not JSON, which makes `request.json()` throw. */
  datatype TeamApprovalBody = TeamApprovalBody(teamId: Option<string>, approval: Option<string>, rejectMessage: Option<string>)

  datatype TeamApprovalOutcome = TeamApprovalOutcome(reply: Reply<TeamDB>, teams: map<string, TeamDB>)

  /** The row after `update(updateData)`: the status is always written, the
      reason is set for a rejection, cleared for an acceptance and kept for
      every other status. */
  function ApplyTeamApproval(row: TeamDB, approval: string, rejectMessage: Option<string>): (r: TeamDB)
    ensures r.approvalstatus == approval
    ensures approval == "Rejected" ==> r.reject_message == rejectMessage
    ensures approval == "Accepted" ==> r.reject_message == None
    ensures approval != "Rejected" && approval != "Accepted" ==> r.reject_message == row.reject_message
    ensures r.(approvalstatus := row.approvalstatus, reject_message := row.reject_message) == row
  {
    var reason := if approval == "Rejected" then rejectMessage
                  else if approval == "Accepted" then None
                  else row.reject_message;
    row.(approvalstatus := approval, reject_message := reason)
  }

  /** A rejection needs a reason that is neither missing nor blank. */
  predicate ReasonMissing(rejectMessage: Option<string>)
  {
    !Given(rejectMessage) || Trim(rejectMessage.value) == ""
  }

  /** The team-approval checks, in their order, up to the update. */
  predicate TeamBodyValid(b: TeamApprovalBody)
  {
    Given(b.teamId) && Given(b.approval) && b.approval.value in TeamApprovals &&
    !(b.approval.value == "Rejected" && ReasonMissing(b.rejectMessage))
  }

  /** `PUT /api/team/approval`. */
  function TeamApprovalPut(body: Option<TeamApprovalBody>, teams: map<string, TeamDB>, update: StoreOutcome)
    : (o: TeamApprovalOutcome)
    ensures body.None? ==> o.reply == Reply(500, false, InternalError, None)
    ensures body.Some? && !(Given(body.value.teamId) && Given(body.value.approval)) ==>
      o.reply == Reply(400, false, TeamFieldsRequired, None)
    ensures body.Some? && Given(body.value.teamId) && Given(body.value.approval) &&
            body.value.approval.value !in TeamApprovals ==>
      o.reply == Reply(400, false, InvalidApproval, None)
    ensures body.Some? && Given(body.value.teamId) && body.value.approval == Some("Rejected") &&
            ReasonMissing(body.value.rejectMessage) ==>
      o.reply == Reply(400, false, TeamReasonRequired, None)
    ensures o.reply.success <==> body.Some? && TeamBodyValid(body.value) && update == StoreOk
    ensures !o.reply.success ==> o.teams == teams && o.reply.data.None?
    ensures body.Some? && TeamBodyValid(body.value) && update == StoreError ==>
      o.reply == Reply(500, false, TeamUpdateFailed, None)
    ensures body.Some? && TeamBodyValid(body.value) && update == StoreThrows ==>
      o.reply == Reply(500, false, InternalError, None)
    ensures o.reply.success ==>
      var id := body.value.teamId.value;
      o.reply.status == 200 && o.reply.message == TeamUpdated &&
      (id in teams ==>
        o.teams == teams[id := ApplyTeamApproval(teams[id], body.value.approval.value, body.value.rejectMessage)] &&
        o.reply.data == Some(o.teams[id])) &&
      (id !in teams ==> o.teams == teams && o.reply.data.None?)
  {
    match body
    case None => TeamApprovalOutcome(Reply(500, false, InternalError, None), teams)
    case Some(b) =>
      if !Given(b.teamId) || !Given(b.approval) then
        TeamApprovalOutcome(Reply(400, false, TeamFieldsRequired, None), teams)
      else if b.approval.value !in TeamApprovals then
        TeamApprovalOutcome(Reply(400, false, InvalidApproval, None), teams)
      else if b.approval.value == "Rejected" && ReasonMissing(b.rejectMessage) then
        TeamApprovalOutcome(Reply(400, false, TeamReasonRequired, None), teams)
      else if update == StoreError then
        TeamApprovalOutcome(Reply(500, false, TeamUpdateFailed, None), teams)
      else if update == StoreThrows then
        TeamApprovalOutcome(Reply(500, false, InternalError, None), teams)
      else
        assert TeamBodyValid(b) && update == StoreOk;
        var id := b.teamId.value;
        if id in teams then
          var row := ApplyTeamApproval(teams[id], b.approval.value, b.rejectMessage);
          TeamApprovalOutcome(Reply(200, true, TeamUpdated, Some(row)), teams[id := row])
        else
          TeamApprovalOutcome(Reply(200, true, TeamUpdated, None), teams)
  }

  /** Only the named team's row can change, and in it only the status and
      the reason. */
  lemma TeamApprovalFrame(body: Option<TeamApprovalBody>, teams: map<string, TeamDB>, update: StoreOutcome, id: string)
    requires id in teams
    ensures var o := TeamApprovalPut(body, teams, update);
      id in o.teams &&
      (o.teams[id] != teams[id] ==> body.Some? && body.value.teamId == Some(id)) &&
      o.teams[id].(approvalstatus := teams[id].approvalstatus, reject_message := teams[id].reject_message) == teams[id]
  {
  }

  /** Sending the same approval twice leaves the table as one send did. */
  lemma TeamApprovalIdempotent(body: Option<TeamApprovalBody>, teams: map<string, TeamDB>)
    ensures var once := TeamApprovalPut(body, teams, StoreOk).teams;
      TeamApprovalPut(body, once, StoreOk).teams == once
  {
  }

  /** Accepting a rejected team clears the stored reason. */
  lemma AcceptClearsReason(row: TeamDB, reason: string)
    ensures ApplyTeamApproval(ApplyTeamApproval(row, "Rejected", Some(reason)), "Accepted", None).reject_message == None
    ensures ApplyTeamApproval(row, "Rejected", Some(reason)).reject_message == Some(reason)
  {
  }

  /** The parsed body of `PUT /api/team/member/approval`. */
  datatype MemberApprovalBody = MemberApprovalBody(memberId: Option<string>, approval: Option<string>)

  datatype MemberApprovalOutcome = MemberApprovalOutcome(reply: Reply<TeamMemberDB>, members: map<string, TeamMemberDB>)

  predicate MemberBodyValid(b: MemberApprovalBody)
  {
    Given(b.memberId) && Given(b.approval) && b.approval.value in MemberApprovals
  }

  /** `PUT /api/team/member/approval`: writes `member_approval` and nothing
      else. */
  function MemberApprovalPut(body: Option<MemberApprovalBody>, members: map<string, TeamMemberDB>, update: StoreOutcome)
    : (o: MemberApprovalOutcome)
    ensures body.None? ==> o.reply == Reply(500, false, InternalError, None)
    ensures body.Some? && !(Given(body.value.memberId) && Given(body.value.approval)) ==>
      o.reply == Reply(400, false, MemberFieldsRequired, None)
    ensures body.Some? && Given(body.value.memberId) && Given(body.value.approval) &&
            body.value.approval.value !in MemberApprovals ==>
      o.reply == Reply(400, false, InvalidApproval, None)
    ensures o.reply.success <==> body.Some? && MemberBodyValid(body.value) && update == StoreOk
    ensures !o.reply.success ==> o.members == members && o.reply.data.None?
    ensures body.Some? && MemberBodyValid(body.value) && update == StoreError ==>
      o.reply == Reply(500, false, MemberUpdateFailed, None)
    ensures body.Some? && MemberBodyValid(body.value) && update == StoreThrows ==>
      o.reply == Reply(500, false, InternalError, None)
    ensures o.reply.success ==>
      var id := body.value.memberId.value;
      o.reply.status == 200 && o.reply.message == MemberUpdated &&
      (id in members ==>
        o.members == members[id := members[id].(member_approval := body.value.approval.value)] &&
        o.reply.data == Some(o.members[id])) &&
      (id !in members ==> o.members == members && o.reply.data.None?)
  {
    match body
    case None => MemberApprovalOutcome(Reply(500, false, InternalError, None), members)
    case Some(b) =>
      if !Given(b.memberId) || !Given(b.approval) then
        MemberApprovalOutcome(Reply(400, false, MemberFieldsRequired, None), members)
      else if b.approval.value !in MemberApprovals then
        MemberApprovalOutcome(Reply(400, false, InvalidApproval, None), members)
      else if update == StoreError then
        MemberApprovalOutcome(Reply(500, false, MemberUpdateFailed, None), members)
      else if update == StoreThrows then
        MemberApprovalOutcome(Reply(500, false, InternalError, None), members)
      else
        assert MemberBodyValid(b) && update == StoreOk;
        var id := b.memberId.value;
        if id in members then
          var row := members[id].(member_approval := b.approval.value);
          MemberApprovalOutcome(Reply(200, true, MemberUpdated, Some(row)), members[id := row])
        else
          MemberApprovalOutcome(Reply(200, true, MemberUpdated, None), members)
  }

  /** After a successful update every stored member approval is still one
      of the three allowed values. */
  lemma MemberApprovalsStayValid(body: Option<MemberApprovalBody>, members: map<string, TeamMemberDB>, update: StoreOutcome)
    requires forall id :: id in members ==> members[id].member_approval in MemberApprovals
    ensures var o := MemberApprovalPut(body, members, update);
      forall id :: id in o.members ==> o.members[id].member_approval in MemberApprovals
  {
  }

  /** A `Submission` row. */
  datatype SubmissionDB = SubmissionDB(id: string, team_id: string, proposal_url: string, status: string,
                                       created_at: Timestamp, updated_at: Timestamp)

  /** The parsed body of `PUT /api/team/submission/status`. */
  datatype SubmissionStatusBody = SubmissionStatusBody(submissionId: Option<string>, status: Option<string>)

  /** Error replies carry only an error text; a success carries the row and
      a message. */
  datatype SubmissionReply = SubmissionError(status: nat, error: string) | SubmissionUpdated(data: SubmissionDB, message: string)

  datatype SubmissionStatusOutcome = SubmissionStatusOutcome(reply: SubmissionReply, submissions: map<string, SubmissionDB>)

  predicate SubmissionBodyValid(b: SubmissionStatusBody)
  {
    Given(b.submissionId) && Given(b.status) && b.status.value in SubmissionStatuses
  }

  /** `PUT /api/team/submission/status`: writes `status` and `updated_at`;
      because the update ends in `.single()`, an id with no row is an error
      like any other store error. */
  function SubmissionStatusPut(body: Option<SubmissionStatusBody>, submissions: map<string, SubmissionDB>, now: Timestamp,
                               update: StoreOutcome): (o: SubmissionStatusOutcome)
    ensures body.None? ==> o.reply == SubmissionError(500, InternalError)
    ensures body.Some? && !(Given(body.value.submissionId) && Given(body.value.status)) ==>
      o.reply == SubmissionError(400, SubmissionFieldsRequired)
    ensures body.Some? && Given(body.value.submissionId) && Given(body.value.status) &&
            body.value.status.value !in SubmissionStatuses ==>
      o.reply == SubmissionError(400, InvalidStatus)
    ensures o.reply.SubmissionUpdated? <==>
      body.Some? && SubmissionBodyValid(body.value) && update == StoreOk && body.value.submissionId.value in submissions
    ensures body.Some? && SubmissionBodyValid(body.value) && update == StoreOk && body.value.submissionId.value !in submissions ==>
      o.reply == SubmissionError(500, SubmissionUpdateFailed)
    ensures body.Some? && SubmissionBodyValid(body.value) && update == StoreError ==>
      o.reply == SubmissionError(500, SubmissionUpdateFailed)
    ensures body.Some? && SubmissionBodyValid(body.value) && update == StoreThrows ==>
      o.reply == SubmissionError(500, InternalError)
    ensures o.reply.SubmissionError? ==> o.submissions == submissions
    ensures o.reply.SubmissionUpdated? ==>
      var id := body.value.submissionId.value;
      var status := body.value.status.value;
      o.submissions == submissions[id := submissions[id].(status := status, updated_at := now)] &&
      o.reply.data == o.submissions[id] &&
      o.reply.message == "Submission " + ToLower(status) + " successfully"
  {
    match body
    case None => SubmissionStatusOutcome(SubmissionError(500, InternalError), submissions)
    case Some(b) =>
      if !Given(b.submissionId) || !Given(b.status) then
        SubmissionStatusOutcome(SubmissionError(400, SubmissionFieldsRequired), submissions)
      else if b.status.value !in SubmissionStatuses then
        SubmissionStatusOutcome(SubmissionError(400, InvalidStatus), submissions)
      else if update == StoreThrows then
        SubmissionStatusOutcome(SubmissionError(500, InternalError), submissions)
      else if update == StoreError || b.submissionId.value !in submissions then
        SubmissionStatusOutcome(SubmissionError(500, SubmissionUpdateFailed), submissions)
      else
        assert SubmissionBodyValid(b) && update == StoreOk;
        var id := b.submissionId.value;
        var row := submissions[id].(status := b.status.value, updated_at := now);
        SubmissionStatusOutcome(SubmissionUpdated(row, "Submission " + ToLower(b.status.value) + " successfully"), submissions[id := row])
  }

  /** Marking a submission invalid stores the status and answers with
      the lower-cased status in the message. */
  lemma InvalidSubmissionReply(submissions: map<string, SubmissionDB>, id: string, now: Timestamp)
    requires id != "" && id in submissions
    ensures SubmissionStatusPut(Some(SubmissionStatusBody(Some(id), Some("Invalid"))), submissions, now, StoreOk).reply
      == SubmissionUpdated(submissions[id].(status := "Invalid", updated_at := now), "Submission invalid successfully")
  {
    var body := SubmissionStatusBody(Some(id), Some("Invalid"));
    assert SubmissionStatuses[1] == "Invalid";
    assert SubmissionBodyValid(body);
    InvalidMessage();
  }

  lemma InvalidMessage()
    ensures "Submission " + ToLower("Invalid") + " successfully" == "Submission invalid successfully"
  {
    assert ToLower("Invalid") == "invalid";
  }
}
