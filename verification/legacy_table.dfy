/** The earlier registration table: three statuses, a search on the team
    name only, and per-member decisions made from the team's detail view.
    Member buttons are locked while that member's request is in flight or
    when the member already has the decision the button would make. */
module LegacyTable {
  import opened Wrappers
  import opened Text
  import opened Seqs
  import opened Records
  import opened Registration
  import TeamTable

  datatype Status = Pending | Approve | Rejected

  /** Only Pending, Accepted and Rejected are mapped; anything else,
      Submitted and Resubmitted among them, shows as Pending. */
  function MapApiStatus(api: string): (s: Status)
    ensures s == Approve <==> api == "Accepted"
    ensures s == Rejected <==> api == "Rejected"
    ensures s == Pending <==> api != "Accepted" && api != "Rejected"
  {
    if api == "Accepted" then Approve
    else if api == "Rejected" then Rejected
    else Pending
  }

  /** The two statuses this table does not know show as Pending, and so are
      offered the team actions. */
  lemma InReviewShownPending()
    ensures MapApiStatus("Submitted") == Pending && MapApiStatus("Resubmitted") == Pending
    ensures TeamActionsOffered(MapApiStatus("Submitted")) && TeamActionsOffered(MapApiStatus("Resubmitted"))
  {
  }

  /** Agreement with the five-status table on the three statuses both
      know. */
  lemma AgreesWithTeamTable(api: string)
    requires api == "Pending" || api == "Accepted" || api == "Rejected"
    ensures TeamTable.StatusText(TeamTable.MapApiStatus(api)) ==
            (match MapApiStatus(api) case Pending => "Pending" case Approve => "Approve" case Rejected => "Rejected")
  {
  }

  datatype Participant = Participant(
    id: string,
    team: string,
    institution: string,
    members: int,
    status: Status,
    date: Timestamp,
    reason: Option<string>,
    teamData: Option<TeamWithDetails>)

  function Transform(t: TeamWithDetails): (p: Participant)
    ensures p.id == t.team.id && p.team == t.team.teamName && p.members == t.memberCount
    ensures p.status == MapApiStatus(t.team.approvalStatus) && p.teamData == Some(t) && p.reason.None?
    ensures p.institution == t.team.institution && p.date == t.team.createdAt
  {
    Participant(t.team.id, t.team.teamName, t.team.institution, t.memberCount, MapApiStatus(t.team.approvalStatus),
                t.team.createdAt, None, Some(t))
  }

  function SearchRow(search: string): Participant -> bool
  {
    (p: Participant) => ContainsIgnoringCase(p.team, search)
  }

  /** `filteredData`: the search on the team name, nothing else. */
  function FilteredData(ps: seq<Participant>, search: string): (r: seq<Participant>)
    ensures |r| <= |ps|
    ensures forall i :: 0 <= i < |r| ==> r[i] in ps && ContainsIgnoringCase(r[i].team, search)
    ensures forall i :: 0 <= i < |ps| && ContainsIgnoringCase(ps[i].team, search) ==> ps[i] in r
  {
    Filter(ps, SearchRow(search))
  }

  /** An empty search shows every row. */
  lemma {:induction false} EmptySearchShowsAll(ps: seq<Participant>)
    ensures FilteredData(ps, "") == ps
  {
    forall i | 0 <= i < |ps|
      ensures SearchRow("")(ps[i])
    {
      EmptySearchMatches(ps[i].team);
    }
    FilterAll(ps, SearchRow(""));
  }

  /** Team actions are offered only for Pending rows. */
  predicate TeamActionsOffered(s: Status)
  {
    s == Pending
  }

  /** A member's button for `target` is locked. */
  predicate MemberButtonDisabled(loading: Option<string>, m: TeamMember, target: string)
  {
    loading == Some(m.id) || m.memberApproval == target
  }

  /** One member after an accepted member decision. */
  function DecidedMember(m: TeamMember, memberId: string, approval: string): TeamMember
  {
    if m.id == memberId then m.(memberApproval := approval) else m
  }

  /** A team's members after the decision. */
  function DecideMembers(ms: seq<TeamMember>, memberId: string, approval: string): (r: seq<TeamMember>)
    ensures |r| == |ms|
    ensures forall j :: 0 <= j < |ms| && ms[j].id == memberId ==> r[j] == ms[j].(memberApproval := approval)
    ensures forall j :: 0 <= j < |ms| && ms[j].id != memberId ==> r[j] == ms[j]
  {
    seq(|ms|, j requires 0 <= j < |ms| => DecidedMember(ms[j], memberId, approval))
  }

  /** The rows after an accepted member decision: every member with that
      id, in every team, gets the decision; all else is as it was. */
  function ApplyMemberDecision(ps: seq<Participant>, memberId: string, approval: string): (r: seq<Participant>)
    ensures |r| == |ps|
    ensures forall i :: 0 <= i < |ps| ==>
      r[i].(teamData := ps[i].teamData) == ps[i] && r[i].teamData.Some? == ps[i].teamData.Some? &&
      (ps[i].teamData.Some? ==>
        r[i].teamData.value == ps[i].teamData.value.(members := DecideMembers(ps[i].teamData.value.members, memberId, approval)))
  {
    seq(|ps|, i requires 0 <= i < |ps| =>
      var p := ps[i];
      if p.teamData.None? then p
      else p.(teamData := Some(p.teamData.value.(members := DecideMembers(p.teamData.value.members, memberId, approval)))))
  }

  /** After an accepted decision the button that would repeat it is locked
      for every member with that id. */
  lemma DecidedMemberButtonLocked(ps: seq<Participant>, memberId: string, approval: string, loading: Option<string>,
                                  i: nat, j: nat)
    requires i < |ps| && ps[i].teamData.Some? && j < |ps[i].teamData.value.members|
    requires ps[i].teamData.value.members[j].id == memberId
    ensures var r := ApplyMemberDecision(ps, memberId, approval);
      MemberButtonDisabled(loading, r[i].teamData.value.members[j], approval)
  {
  }

  /** Member decisions are idempotent. */
  lemma MemberDecisionIdempotent(ps: seq<Participant>, memberId: string, approval: string)
    ensures ApplyMemberDecision(ApplyMemberDecision(ps, memberId, approval), memberId, approval) ==
            ApplyMemberDecision(ps, memberId, approval)
  {
    var once := ApplyMemberDecision(ps, memberId, approval);
    var twice := ApplyMemberDecision(once, memberId, approval);
    forall i | 0 <= i < |ps|
      ensures twice[i] == once[i]
    {
      if ps[i].teamData.Some? {
        var ms := once[i].teamData.value.members;
        assert DecideMembers(ms, memberId, approval) == ms;
      }
    }
  }

  /** The rows after an accepted team decision: only the rows with that id
      change, and only in status and reason. */
  function ApplyTeamDecision(ps: seq<Participant>, req: TeamTable.ApprovalRequest): (r: seq<Participant>)
    ensures |r| == |ps|
    ensures forall i :: 0 <= i < |ps| && ps[i].id != req.teamId ==> r[i] == ps[i]
    ensures forall i :: 0 <= i < |ps| && ps[i].id == req.teamId ==>
      r[i].status == MapApiStatus(req.approval) && r[i].reason == req.rejectMessage &&
      r[i].teamData.Some? == ps[i].teamData.Some? &&
      (r[i].teamData.Some? ==> r[i].teamData.value == TeamTable.WithDecision(ps[i].teamData.value, req)) &&
      r[i].(status := ps[i].status, reason := ps[i].reason, teamData := ps[i].teamData) == ps[i]
  {
    seq(|ps|, i requires 0 <= i < |ps| =>
      var p := ps[i];
      if p.id != req.teamId then p
      else p.(status := MapApiStatus(req.approval), reason := req.rejectMessage,
              teamData := if p.teamData.Some? then Some(TeamTable.WithDecision(p.teamData.value, req)) else None))
  }

  /** An accepted or rejected team no longer offers the team actions. */
  lemma DecidedTeamOffersNoAction(ps: seq<Participant>, req: TeamTable.ApprovalRequest, i: nat)
    requires req.approval == "Accepted" || req.approval == "Rejected"
    requires i < |ps| && ps[i].id == req.teamId
    ensures !TeamActionsOffered(ApplyTeamDecision(ps, req)[i].status)
  {
  }

  /** The body of `PUT /api/team/member/approval`. */
  datatype MemberRequest = MemberRequest(memberId: string, approval: string)

  class LegacyRegistrationTable {
    var participants: seq<Participant>
    var search: string
    /** The member whose request is in flight. */
    var approvalLoading: Option<string>

    constructor (teams: seq<TeamWithDetails>)
      ensures |participants| == |teams| && forall i :: 0 <= i < |teams| ==> participants[i] == Transform(teams[i])
      ensures search == "" && approvalLoading.None?
    {
      participants := seq(|teams|, i requires 0 <= i < |teams| => Transform(teams[i]));
      search := "";
      approvalLoading := None;
    }

    function Visible(): seq<Participant>
      reads this
    {
      FilteredData(participants, search)
    }

    /** A member's Yes or No button: a locked button does nothing; otherwise
        the member is marked in flight and the request is sent. */
    method ClickMember(m: TeamMember, approval: string) returns (request: Option<MemberRequest>)
      modifies this
      ensures MemberButtonDisabled(old(approvalLoading), m, approval) ==> request.None? && approvalLoading == old(approvalLoading)
      ensures !MemberButtonDisabled(old(approvalLoading), m, approval) ==>
        request == Some(MemberRequest(m.id, approval)) && approvalLoading == Some(m.id)
      ensures participants == old(participants) && search == old(search)
    {
      if MemberButtonDisabled(approvalLoading, m, approval) {
        return None;
      }
      approvalLoading := Some(m.id);
      request := Some(MemberRequest(m.id, approval));
    }

    /** The answer to a member request: on success the decision is applied
        to every member with that id; the lock is released either way. */
    method AnswerMember(req: MemberRequest, ok: bool)
      modifies this
      ensures ok ==> participants == ApplyMemberDecision(old(participants), req.memberId, req.approval)
      ensures !ok ==> participants == old(participants)
      ensures approvalLoading.None? && search == old(search)
    {
      if ok {
        participants := ApplyMemberDecision(participants, req.memberId, req.approval);
      }
      approvalLoading := None;
    }

    /** The answer to a team decision. */
    method AnswerTeam(req: TeamTable.ApprovalRequest, ok: bool)
      modifies this
      ensures ok ==> participants == ApplyTeamDecision(old(participants), req)
      ensures !ok ==> participants == old(participants)
      ensures approvalLoading == old(approvalLoading) && search == old(search)
    {
      if ok {
        participants := ApplyTeamDecision(participants, req);
      }
    }
  }

  /** While a member's request is in flight a second click on either of its
      buttons sends nothing. */
  method DoubleClickSendsOnce(teams: seq<TeamWithDetails>, m: TeamMember)
    returns (first: Option<MemberRequest>, second: Option<MemberRequest>)
    requires m.memberApproval != "Accepted"
    ensures first == Some(MemberRequest(m.id, "Accepted")) && second.None?
  {
    var table := new LegacyRegistrationTable(teams);
    first := table.ClickMember(m, "Accepted");
    second := table.ClickMember(m, "Rejected");
  }
}
