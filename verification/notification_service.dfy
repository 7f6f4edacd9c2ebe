/** The notification service: storing a notification row and pushing it to
    the user's live stream, and the three builders that choose the type,
    title and message of a team, member or submission decision. The
    `Notification` table is a sequence of rows in insertion order; the
    store's answer to the insert is a parameter. */
module NotificationService {
  import opened Wrappers
  import opened Text
  import opened Records
  import opened Notifications

  /** A `Notification` row. */
  datatype NotificationDB = NotificationDB(
    id: string,
    user_id: string,
    team_id: Option<string>,
    kind: string,
    title: string,
    message: string,
    is_read: bool,
    created_at: string,
    updated_at: string)

  /** `CreateNotificationParams`. */
  datatype CreateParams = CreateParams(userId: string, teamId: Option<string>, kind: string, title: string, message: string)

  /** The row inserted for `p`: unread, with no team when none (or an empty
      one) is given; the store assigns `id`, and both timestamps are now. */
  function NewRow(p: CreateParams, id: string, now: string): (row: NotificationDB)
    ensures !row.is_read
    ensures row.team_id.Some? <==> Given(p.teamId)
    ensures row.team_id.Some? ==> row.team_id == p.teamId
    ensures row.user_id == p.userId && row.kind == p.kind && row.title == p.title && row.message == p.message
  {
    NotificationDB(id, p.userId, if Given(p.teamId) then p.teamId else None, p.kind, p.title, p.message, false, now, now)
  }

  /** The record pushed to the client, read back from the stored row. */
  function ToNotification(row: NotificationDB): (n: Notification)
    ensures n.id == row.id && n.userId == row.user_id && n.teamId == row.team_id && n.isRead == row.is_read
    ensures n.kind == row.kind && n.title == row.title && n.message == row.message
  {
    Notification(row.id, row.user_id, row.team_id, row.kind, row.title, row.message, row.is_read,
                 row.created_at, row.updated_at)
  }

  /** `NotificationService.createNotification`: `false` with nothing stored
      or pushed when the insert fails or throws; otherwise the row is stored,
      pushed if the user's stream is open, and the answer is `true` whether
      or not the push reached anyone. */
  method CreateNotification(registry: ConnectionRegistry, table: seq<NotificationDB>, p: CreateParams, id: string,
                            now: string, insert: StoreOutcome, closed: set<Stream>)
    returns (ok: bool, table': seq<NotificationDB>)
    modifies registry
    ensures ok <==> insert == StoreOk
    ensures !ok ==>
      table' == table && registry.connections == old(registry.connections) && registry.delivered == old(registry.delivered)
    ensures ok ==> table' == table + [NewRow(p, id, now)]
    ensures ok && p.userId in old(registry.connections) && old(registry.connections)[p.userId] !in closed ==>
      registry.connections == old(registry.connections) &&
      registry.delivered == old(registry.delivered) +
        [(old(registry.connections)[p.userId], Pushed(ToNotification(NewRow(p, id, now)), now))]
    ensures ok && p.userId in old(registry.connections) && old(registry.connections)[p.userId] in closed ==>
      registry.connections == old(registry.connections) - {p.userId} && registry.delivered == old(registry.delivered)
    ensures ok && p.userId !in old(registry.connections) ==>
      registry.connections == old(registry.connections) && registry.delivered == old(registry.delivered)
  {
    if insert != StoreOk {
      return false, table;
    }
    var row := NewRow(p, id, now);
    table' := table + [row];
    var pushed := registry.Publish(p.userId, ToNotification(row), now, closed);
    ok := true;
  }

  const TeamApproved: string := "team_approved"
  const TeamRejected: string := "team_rejected"
  const MemberApproved: string := "member_approved"
  const MemberRejected: string := "member_rejected"
  const SubmissionApproved: string := "submission_approved"
  const SubmissionRejected: string := "submission_rejected"

  const TeamPrefix: string := "Your team \""
  const TeamApprovedEnd: string := "\" has been approved for HackAttack! You can now proceed with the competition."
  const TeamRejectedMiddle: string := "\" registration was rejected. Reason: "

  /** The team decision notice. A missing reason is written as the text
      `undefined`, as a template literal renders it. */
  function TeamNotice(userId: string, teamId: string, teamName: string, approved: bool, rejectMessage: Option<string>)
    : (p: CreateParams)
    ensures p.userId == userId && p.teamId == Some(teamId)
    ensures p.kind == (if approved then TeamApproved else TeamRejected)
    ensures p.title == (if approved then "Team Approved! \U{1F389}" else "Team Registration Rejected")
    ensures approved ==> p.message == TeamPrefix + teamName + TeamApprovedEnd
    ensures !approved ==> p.message == TeamPrefix + teamName + TeamRejectedMiddle + rejectMessage.GetOr("undefined")
  {
    var message :=
      if approved then
        TeamPrefix + teamName + TeamApprovedEnd
      else
        TeamPrefix + teamName + TeamRejectedMiddle + rejectMessage.GetOr("undefined");
    CreateParams(userId, Some(teamId), if approved then TeamApproved else TeamRejected,
                 if approved then "Team Approved! \U{1F389}" else "Team Registration Rejected", message)
  }

  /** A rejection notice names the team and ends with the reason given. */
  lemma RejectionNoticeCarriesReason(userId: string, teamId: string, teamName: string, reason: string)
    ensures var m := TeamNotice(userId, teamId, teamName, false, Some(reason)).message;
      Includes(m, teamName) && Includes(m, reason) && m[|m| - |reason|..] == reason
  {
    var m := TeamNotice(userId, teamId, teamName, false, Some(reason)).message;
    FourPartSlices(TeamPrefix, teamName, TeamRejectedMiddle, reason);
    assert MatchAt(m, teamName, |TeamPrefix|);
    IncludesIffMatch(m, teamName);
    assert MatchAt(m, reason, |m| - |reason|);
    IncludesIffMatch(m, reason);
  }

  /** Where the second and the last of four joined texts sit. */
  lemma FourPartSlices(a: string, b: string, c: string, d: string)
    ensures (a + b + c + d)[|a|..|a| + |b|] == b
    ensures (a + b + c + d)[|a + b + c + d| - |d|..] == d
  {
    var m := a + b + c + d;
    assert forall i :: 0 <= i < |b| ==> m[|a| + i] == b[i];
  }

  const MemberPrefix: string := "Team member \""
  const MemberApprovedMiddle: string := "\" has been approved for your team \""
  const MemberRejectedMiddle: string := "\" was rejected for your team \""
  const ClosingQuote: string := "\"."
  const SubmissionPrefix: string := "Your team \""
  const SubmissionApprovedEnd: string := "\" submission has been approved! Great work!"
  const SubmissionRejectedEnd: string :=
    "\" submission was rejected. Please check the requirements and resubmit."

  /** The member decision notice: its message names the member, then the
      team. */
  function MemberNotice(userId: string, teamId: string, memberName: string, teamName: string, approved: bool)
    : (p: CreateParams)
    ensures p.userId == userId && p.teamId == Some(teamId)
    ensures p.kind == (if approved then MemberApproved else MemberRejected)
    ensures p.title == (if approved then "Team Member Approved" else "Team Member Rejected")
    ensures StartsWith(p.message, MemberPrefix + memberName) && Includes(p.message, memberName)
    ensures Includes(p.message, teamName) && |p.message| >= |teamName| + 2 &&
      p.message[|p.message| - |teamName| - 2..|p.message| - 2] == teamName
  {
    var middle := if approved then MemberApprovedMiddle else MemberRejectedMiddle;
    var message := MemberPrefix + memberName + middle + teamName + ClosingQuote;
    IncludesPart(MemberPrefix, memberName, middle + teamName + ClosingQuote);
    assert MemberPrefix + memberName + (middle + teamName + ClosingQuote) == message;
    IncludesPart(MemberPrefix + memberName + middle, teamName, ClosingQuote);
    assert message[..|MemberPrefix + memberName|] == MemberPrefix + memberName;
    assert message[|message| - |teamName| - 2..|message| - 2] == teamName;
    CreateParams(userId, Some(teamId), if approved then MemberApproved else MemberRejected,
                 if approved then "Team Member Approved" else "Team Member Rejected", message)
  }

  /** The submission decision notice: its message names the team. */
  function SubmissionNotice(userId: string, teamId: string, teamName: string, approved: bool): (p: CreateParams)
    ensures p.userId == userId && p.teamId == Some(teamId)
    ensures p.kind == (if approved then SubmissionApproved else SubmissionRejected)
    ensures p.title == (if approved then "Submission Approved! \U{2705}" else "Submission Rejected \U{274C}")
    ensures StartsWith(p.message, SubmissionPrefix + teamName) && Includes(p.message, teamName)
  {
    var end := if approved then SubmissionApprovedEnd else SubmissionRejectedEnd;
    var message := SubmissionPrefix + teamName + end;
    IncludesPart(SubmissionPrefix, teamName, end);
    assert message[..|SubmissionPrefix + teamName|] == SubmissionPrefix + teamName;
    CreateParams(userId, Some(teamId), if approved then SubmissionApproved else SubmissionRejected,
                 if approved then "Submission Approved! \U{2705}" else "Submission Rejected \U{274C}", message)
  }

  /** `createTeamApprovalNotification`. */
  method CreateTeamApprovalNotification(registry: ConnectionRegistry, table: seq<NotificationDB>, userId: string,
                                        teamId: string, teamName: string, approved: bool, rejectMessage: Option<string>,
                                        id: string, now: string, insert: StoreOutcome, closed: set<Stream>)
    returns (ok: bool, table': seq<NotificationDB>)
    modifies registry
    ensures ok <==> insert == StoreOk
    ensures ok ==> table' == table + [NewRow(TeamNotice(userId, teamId, teamName, approved, rejectMessage), id, now)]
    ensures !ok ==> table' == table
    ensures !ok ==> registry.connections == old(registry.connections) && registry.delivered == old(registry.delivered)
    ensures ok && userId in old(registry.connections) && old(registry.connections)[userId] !in closed ==>
      registry.connections == old(registry.connections) &&
      registry.delivered == old(registry.delivered) +
        [(old(registry.connections)[userId], Pushed(ToNotification(NewRow(TeamNotice(userId, teamId, teamName, approved, rejectMessage), id, now)), now))]
    ensures ok && userId in old(registry.connections) && old(registry.connections)[userId] in closed ==>
      registry.connections == old(registry.connections) - {userId} && registry.delivered == old(registry.delivered)
    ensures ok && userId !in old(registry.connections) ==>
      registry.connections == old(registry.connections) && registry.delivered == old(registry.delivered)
  {
    ok, table' := CreateNotification(registry, table, TeamNotice(userId, teamId, teamName, approved, rejectMessage),
                                     id, now, insert, closed);
  }

  /** `createMemberApprovalNotification`. */
  method CreateMemberApprovalNotification(registry: ConnectionRegistry, table: seq<NotificationDB>, userId: string,
                                          teamId: string, memberName: string, teamName: string, approved: bool,
                                          id: string, now: string, insert: StoreOutcome, closed: set<Stream>)
    returns (ok: bool, table': seq<NotificationDB>)
    modifies registry
    ensures ok <==> insert == StoreOk
    ensures ok ==> table' == table + [NewRow(MemberNotice(userId, teamId, memberName, teamName, approved), id, now)]
    ensures !ok ==> table' == table
    ensures !ok ==> registry.connections == old(registry.connections) && registry.delivered == old(registry.delivered)
    ensures ok && userId in old(registry.connections) && old(registry.connections)[userId] !in closed ==>
      registry.connections == old(registry.connections) &&
      registry.delivered == old(registry.delivered) +
        [(old(registry.connections)[userId], Pushed(ToNotification(NewRow(MemberNotice(userId, teamId, memberName, teamName, approved), id, now)), now))]
    ensures ok && userId in old(registry.connections) && old(registry.connections)[userId] in closed ==>
      registry.connections == old(registry.connections) - {userId} && registry.delivered == old(registry.delivered)
    ensures ok && userId !in old(registry.connections) ==>
      registry.connections == old(registry.connections) && registry.delivered == old(registry.delivered)
  {
    ok, table' := CreateNotification(registry, table, MemberNotice(userId, teamId, memberName, teamName, approved),
                                     id, now, insert, closed);
  }

  /** `createSubmissionApprovalNotification`. */
  method CreateSubmissionApprovalNotification(registry: ConnectionRegistry, table: seq<NotificationDB>, userId: string,
                                              teamId: string, teamName: string, approved: bool,
                                              id: string, now: string, insert: StoreOutcome, closed: set<Stream>)
    returns (ok: bool, table': seq<NotificationDB>)
    modifies registry
    ensures ok <==> insert == StoreOk
    ensures ok ==> table' == table + [NewRow(SubmissionNotice(userId, teamId, teamName, approved), id, now)]
    ensures !ok ==> table' == table
    ensures !ok ==> registry.connections == old(registry.connections) && registry.delivered == old(registry.delivered)
    ensures ok && userId in old(registry.connections) && old(registry.connections)[userId] !in closed ==>
      registry.connections == old(registry.connections) &&
      registry.delivered == old(registry.delivered) +
        [(old(registry.connections)[userId], Pushed(ToNotification(NewRow(SubmissionNotice(userId, teamId, teamName, approved), id, now)), now))]
    ensures ok && userId in old(registry.connections) && old(registry.connections)[userId] in closed ==>
      registry.connections == old(registry.connections) - {userId} && registry.delivered == old(registry.delivered)
    ensures ok && userId !in old(registry.connections) ==>
      registry.connections == old(registry.connections) && registry.delivered == old(registry.delivered)
  {
    ok, table' := CreateNotification(registry, table, SubmissionNotice(userId, teamId, teamName, approved),
                                     id, now, insert, closed);
  }
}
