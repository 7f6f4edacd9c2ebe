/** The team registration table of the dashboard: the fetched teams as
    rows, the search box and the five status filters, the row chosen for a
    decision, and the local update once the decision is accepted by the
    server. The table is an object whose handlers replace its state; the
    request a handler sends and the server's answer are values. */
module TeamTable {
  import opened Wrappers
  import opened Text
  import opened Seqs
  import opened Records
  import opened Registration
  import StatusBadge

  /** The component's status labels. */
  datatype Status = Pending | Approve | Rejected | Submitted | Resubmitted

  /** The label shown and compared against. */
  function StatusText(s: Status): string
  {
    match s
    case Pending => "Pending"
    case Approve => "Approve"
    case Rejected => "Rejected"
    case Submitted => "Submitted"
    case Resubmitted => "Resubmitted"
  }

  /** The `TeamApproval` value a label stands for. */
  function ApiStatus(s: Status): string
  {
    match s
    case Pending => "Pending"
    case Approve => "Accepted"
    case Rejected => "Rejected"
    case Submitted => "Submitted"
    case Resubmitted => "Resubmitted"
  }

  /** `mapApiStatusToComponentStatus`: Accepted is shown as Approve, the
      other four statuses keep their names, anything else is Pending. */
  function MapApiStatus(api: string): (s: Status)
    ensures s == Approve <==> api == "Accepted"
    ensures s != Pending ==> ApiStatus(s) == api
    ensures s == Pending <==> api != "Accepted" && api != "Rejected" && api != "Submitted" && api != "Resubmitted"
  {
    if api == "Accepted" then Approve
    else if api == "Rejected" then Rejected
    else if api == "Submitted" then Submitted
    else if api == "Resubmitted" then Resubmitted
    else Pending
  }

  /** Every label is reached from its own status value. */
  lemma MapApiStatusRoundTrip(s: Status)
    ensures MapApiStatus(ApiStatus(s)) == s
  {
  }

  /** An accepted team's badge reads "Approve", which the badge classifier
      does not recognise: it is drawn as a plain grey badge. */
  lemma AcceptedTeamBadgeIsPlain()
    ensures StatusBadge.Classify(StatusText(MapApiStatus("Accepted"))) == StatusBadge.PlainBadge("Approve")
  {
    StatusBadge.ApproveShownVerbatim(StatusText(MapApiStatus("Accepted")));
  }

  /** One row. `paymentproofUrl` is `None` where the record read has no such
      key. */
  datatype Participant = Participant(
    id: string,
    team: string,
    institution: string,
    members: int,
    status: Status,
    paymentproofUrl: Option<string>,
    date: Timestamp,
    reason: Option<string>,
    teamData: Option<TeamWithDetails>)

  /** The row built from a fetched team, as written: the record carries its
      payment link under `paymentProofUrl`, but the row reads
      `paymentproof_url`, which is absent. */
  function Transform(t: TeamWithDetails): (p: Participant)
    ensures p.id == t.team.id && p.team == t.team.teamName && p.members == t.memberCount
    ensures p.institution == t.team.institution && p.date == t.team.createdAt
    ensures p.status == MapApiStatus(t.team.approvalStatus)
    ensures p.teamData == Some(t) && p.reason.None?
    ensures p.paymentproofUrl.None?
  {
    Participant(t.team.id, t.team.teamName, t.team.institution, t.memberCount, MapApiStatus(t.team.approvalStatus),
                None, t.team.createdAt, None, Some(t))
  }

  /** The row as intended: the payment link is the team's. */
  function TransformIntended(t: TeamWithDetails): (p: Participant)
    ensures p.paymentproofUrl == Some(t.team.paymentProofUrl)
    ensures p == Transform(t).(paymentproofUrl := Some(t.team.paymentProofUrl))
  {
    Transform(t).(paymentproofUrl := Some(t.team.paymentProofUrl))
  }

  /** The payment-proof button of every row opens an undefined link. */
  lemma PaymentLinkLost(t: TeamWithDetails)
    ensures Transform(t).paymentproofUrl != TransformIntended(t).paymentproofUrl
  {
  }

  function TransformAll(teams: seq<TeamWithDetails>): (ps: seq<Participant>)
    ensures |ps| == |teams|
    ensures forall i :: 0 <= i < |teams| ==> ps[i] == Transform(teams[i])
  {
    seq(|teams|, i requires 0 <= i < |teams| => Transform(teams[i]))
  }

  /** The five filter check boxes. */
  datatype Filters = Filters(pending: bool, accepted: bool, rejected: bool, submitted: bool, resubmitted: bool)

  const NoFilters: Filters := Filters(false, false, false, false, false)
  const AllFilters: Filters := Filters(true, true, true, true, true)

  /** The team name contains the search text, ignoring case. */
  predicate MatchesSearch(p: Participant, search: string)
  {
    ContainsIgnoringCase(p.team, search)
  }

  /** The status filter alone. */
  predicate StatusSelected(s: Status, f: Filters)
  {
    (f.pending && s == Pending) || (f.accepted && s == Approve) || (f.rejected && s == Rejected) ||
    (f.submitted && s == Submitted) || (f.resubmitted && s == Resubmitted)
  }

  /** The `filteredData` test: with the Pending, Accepted and Rejected
      boxes all clear only the search counts, whatever the other two say. */
  predicate Keep(p: Participant, search: string, f: Filters)
  {
    if !f.pending && !f.accepted && !f.rejected then MatchesSearch(p, search)
    else MatchesSearch(p, search) && StatusSelected(p.status, f)
  }

  function KeepRow(search: string, f: Filters): Participant -> bool
  {
    (p: Participant) => Keep(p, search, f)
  }

  function SearchRow(search: string): Participant -> bool
  {
    (p: Participant) => MatchesSearch(p, search)
  }

  /** The rows shown, in fetch order. */
  function FilteredData(ps: seq<Participant>, search: string, f: Filters): (r: seq<Participant>)
    ensures |r| <= |ps|
    ensures forall i :: 0 <= i < |r| ==> r[i] in ps && Keep(r[i], search, f)
    ensures forall i :: 0 <= i < |ps| && Keep(ps[i], search, f) ==> ps[i] in r
  {
    Filter(ps, KeepRow(search, f))
  }

  /** With the first three boxes clear the Submitted and Resubmitted boxes
      have no effect: the search alone decides. */
  lemma {:induction false} SearchOnlyWhenPrimaryClear(ps: seq<Participant>, search: string, f: Filters)
    requires !f.pending && !f.accepted && !f.rejected
    ensures FilteredData(ps, search, f) == Filter(ps, SearchRow(search))
  {
    FilterSame(ps, KeepRow(search, f), SearchRow(search));
  }

  /** Select All keeps every row the search matches. */
  lemma {:induction false} SelectAllKeepsSearchMatches(ps: seq<Participant>, search: string)
    ensures FilteredData(ps, search, AllFilters) == Filter(ps, SearchRow(search))
  {
    FilterSame(ps, KeepRow(search, AllFilters), SearchRow(search));
  }

  /** An empty search with no filter shows every row. */
  lemma {:induction false} EmptySearchShowsAll(ps: seq<Participant>)
    ensures FilteredData(ps, "", NoFilters) == ps
  {
    forall i | 0 <= i < |ps|
      ensures KeepRow("", NoFilters)(ps[i])
    {
      EmptySearchMatches(ps[i].team);
    }
    FilterAll(ps, KeepRow("", NoFilters));
  }

  /** Approve and Reject are offered only for Submitted or Resubmitted
      rows. */
  predicate ActionsOffered(s: Status)
  {
    s == Submitted || s == Resubmitted
  }

  /** The body of `PUT /api/team/approval`: the reason, or `null` when it is
      missing or empty. */
  datatype ApprovalRequest = ApprovalRequest(teamId: string, approval: string, rejectMessage: Option<string>)

  /** The request `handleTeamApproval` sends for a reason argument. */
  function Request(teamId: string, approval: string, rejectMessage: Option<string>): (r: ApprovalRequest)
    ensures r.teamId == teamId && r.approval == approval
    ensures r.rejectMessage.Some? <==> Given(rejectMessage)
    ensures r.rejectMessage.Some? ==> r.rejectMessage == rejectMessage
  {
    ApprovalRequest(teamId, approval, if Given(rejectMessage) then rejectMessage else None)
  }

  /** The team record after a decision: its status, and its reason or the
      empty text. */
  function WithDecision(t: TeamWithDetails, req: ApprovalRequest): (u: TeamWithDetails)
    ensures u.team.approvalStatus == req.approval && u.team.rejectMessage == Some(req.rejectMessage.GetOr(""))
    ensures u.(team := t.team) == t
    ensures u.team.(approvalStatus := t.team.approvalStatus, rejectMessage := t.team.rejectMessage) == t.team
  {
    t.(team := t.team.(approvalStatus := req.approval, rejectMessage := Some(req.rejectMessage.GetOr(""))))
  }

  /** One row after an accepted decision. */
  function Decided(p: Participant, req: ApprovalRequest): Participant
  {
    if p.id != req.teamId then p
    else p.(status := MapApiStatus(req.approval), reason := req.rejectMessage,
            teamData := if p.teamData.Some? then Some(WithDecision(p.teamData.value, req)) else None)
  }

  /** The rows after an accepted decision: the rows with the team's id get
      the new status and reason (also in their team record); every other
      row, and every other field, is as it was. */
  function ApplyDecision(ps: seq<Participant>, req: ApprovalRequest): (r: seq<Participant>)
    ensures |r| == |ps|
    ensures forall i :: 0 <= i < |ps| && ps[i].id != req.teamId ==> r[i] == ps[i]
    ensures forall i :: 0 <= i < |ps| && ps[i].id == req.teamId ==>
      r[i].status == MapApiStatus(req.approval) && r[i].reason == req.rejectMessage &&
      r[i].teamData.Some? == ps[i].teamData.Some? &&
      (r[i].teamData.Some? ==> r[i].teamData.value == WithDecision(ps[i].teamData.value, req)) &&
      r[i].(status := ps[i].status, reason := ps[i].reason, teamData := ps[i].teamData) == ps[i]
  {
    seq(|ps|, i requires 0 <= i < |ps| => Decided(ps[i], req))
  }

  /** Applying the same decision twice is applying it once. */
  lemma ApplyDecisionIdempotent(ps: seq<Participant>, req: ApprovalRequest)
    ensures ApplyDecision(ApplyDecision(ps, req), req) == ApplyDecision(ps, req)
  {
  }

  /** Once an approval or rejection is applied, the row no longer offers
      the two actions. */
  lemma DecidedRowOffersNoAction(ps: seq<Participant>, req: ApprovalRequest, i: nat)
    requires req.approval == "Accepted" || req.approval == "Rejected"
    requires i < |ps| && ps[i].id == req.teamId
    ensures !ActionsOffered(ApplyDecision(ps, req)[i].status)
  {
  }

  /** `handleExportToExcel` row. `whatsapp` is `None` where the cell is
      "-". */
  datatype ExportRow = ExportRow(no: nat, teamName: string, institution: string, membersCount: int, status: string,
                                 date: Timestamp, leader: string, leaderEmail: string, whatsapp: Option<int>,
                                 rejectionReason: string)

  /** The first member marked as leader, if any. */
  function Leader(p: Participant): (m: Option<TeamMember>)
    ensures m.Some? ==> (p.teamData.Some? &&
      var ms := p.teamData.value.members;
      exists k :: 0 <= k < |ms| && ms[k] == m.value && ms[k].isLeader && forall j :: 0 <= j < k ==> !ms[j].isLeader)
    ensures m.None? && p.teamData.Some? ==> forall j :: 0 <= j < |p.teamData.value.members| ==> !p.teamData.value.members[j].isLeader
  {
    if p.teamData.None? then None else FirstLeader(p.teamData.value.members)
  }

  function Export(rows: seq<Participant>): (r: seq<ExportRow>)
    ensures |r| == |rows|
    ensures forall i :: 0 <= i < |rows| ==>
      r[i].no == i + 1 && r[i].teamName == rows[i].team && r[i].status == StatusText(rows[i].status) &&
      r[i].rejectionReason == OrDash(rows[i].reason)
    ensures forall i :: 0 <= i < |rows| ==>
      r[i].institution == rows[i].institution && r[i].membersCount == rows[i].members && r[i].date == rows[i].date
    ensures forall i :: 0 <= i < |rows| ==>
      var l := Leader(rows[i]);
      r[i].leader == OrDash(if l.Some? then Some(l.value.name) else None) &&
      r[i].leaderEmail == OrDash(if l.Some? then Some(l.value.email) else None)
    ensures forall i :: 0 <= i < |rows| ==>
      (r[i].whatsapp.Some? <==> rows[i].teamData.Some? && rows[i].teamData.value.team.whatsappNumber != 0)
    ensures forall i :: 0 <= i < |rows| && r[i].whatsapp.Some? ==>
      r[i].whatsapp.value == rows[i].teamData.value.team.whatsappNumber
  {
    seq(|rows|, i requires 0 <= i < |rows| =>
      var p := rows[i];
      var l := Leader(p);
      ExportRow(i + 1, p.team, p.institution, p.members, StatusText(p.status), p.date,
                OrDash(if l.Some? then Some(l.value.name) else None),
                OrDash(if l.Some? then Some(l.value.email) else None),
                if p.teamData.Some? && p.teamData.value.team.whatsappNumber != 0
                then Some(p.teamData.value.team.whatsappNumber) else None,
                OrDash(p.reason)))
  }

  class RegistrationTable {
    var participants: seq<Participant>
    var search: string
    var filters: Filters
    /** The position chosen by a row's Approve or Reject button, or -1. */
    var selected: int
    var reason: string
    var showReason: bool

    predicate Valid()
      reads this
    {
      -1 <= selected < |participants|
    }

    /** The rows on screen. */
    function Visible(): seq<Participant>
      reads this
    {
      FilteredData(participants, search, filters)
    }

    /** The table once the teams are fetched. */
    constructor (teams: seq<TeamWithDetails>)
      ensures Valid()
      ensures participants == TransformAll(teams) && search == "" && filters == NoFilters
      ensures selected == -1 && reason == "" && !showReason
    {
      participants := TransformAll(teams);
      search := "";
      filters := NoFilters;
      selected := -1;
      reason := "";
      showReason := false;
    }

    method SetSearch(text: string)
      modifies this
      ensures search == text
      ensures participants == old(participants) && filters == old(filters) && selected == old(selected)
      ensures reason == old(reason) && showReason == old(showReason)
    {
      search := text;
    }

    method SetFilters(f: Filters)
      modifies this
      ensures filters == f
      ensures participants == old(participants) && search == old(search) && selected == old(selected)
      ensures reason == old(reason) && showReason == old(showReason)
    {
      filters := f;
    }

    /** `handleSelectAll`: every box checked. */
    method SelectAll()
      modifies this
      ensures filters == AllFilters
      ensures participants == old(participants) && search == old(search) && selected == old(selected)
      ensures reason == old(reason) && showReason == old(showReason)
      ensures Visible() == Filter(participants, SearchRow(search))
    {
      filters := AllFilters;
      SelectAllKeepsSearchMatches(participants, search);
    }

    method SetReason(text: string)
      modifies this
      ensures reason == text
      ensures participants == old(participants) && search == old(search) && filters == old(filters)
      ensures selected == old(selected) && showReason == old(showReason)
    {
      reason := text;
    }

    /** A row's Approve or Reject button, as written: it records the row's
        position on screen, which the handlers then use as a position in
        the whole list. */
    method Select(idx: nat)
      requires Valid() && idx < |Visible()|
      modifies this
      ensures Valid() && selected == idx
      ensures participants == old(participants) && search == old(search) && filters == old(filters)
      ensures reason == old(reason) && showReason == old(showReason)
    {
      selected := idx;
    }

    /** The button as intended: it records where the row on screen sits in
        the whole list. */
    method SelectRow(idx: nat)
      requires Valid() && idx < |Visible()|
      modifies this
      ensures Valid() && 0 <= selected < |participants| && idx < |Visible()| && participants[selected] == Visible()[idx]
      ensures participants == old(participants) && search == old(search) && filters == old(filters)
      ensures reason == old(reason) && showReason == old(showReason)
    {
      var positions := Positions(participants, KeepRow(search, filters));
      selected := positions[idx];
    }

    /** `handleTeamApprove`: with a row chosen, the acceptance of
        `participants[selected]` is requested and the choice cleared. */
    method ApproveSelected() returns (request: Option<ApprovalRequest>)
      requires Valid()
      modifies this
      ensures Valid()
      ensures old(selected) == -1 ==> request.None? && selected == -1
      ensures old(selected) != -1 ==>
        request == Some(Request(old(participants)[old(selected)].id, "Accepted", None)) && selected == -1
      ensures participants == old(participants) && search == old(search) && filters == old(filters)
      ensures reason == old(reason) && showReason == old(showReason)
    {
      if selected == -1 {
        return None;
      }
      request := Some(Request(participants[selected].id, "Accepted", None));
      selected := -1;
    }

    /** `handleTeamSubmitReason`: with a row chosen and a reason that is not
        blank, the rejection is requested with the reason as typed
        (untrimmed), and the dialog is reset; otherwise nothing happens. */
    method SubmitReason() returns (request: Option<ApprovalRequest>)
      requires Valid()
      modifies this
      ensures Valid()
      ensures request.Some? <==> old(selected) != -1 && !IsBlank(old(reason))
      ensures request.Some? ==>
        request.value == ApprovalRequest(old(participants)[old(selected)].id, "Rejected", Some(old(reason))) &&
        selected == -1 && reason == "" && !showReason
      ensures request.None? ==> selected == old(selected) && reason == old(reason) && showReason == old(showReason)
      ensures participants == old(participants) && search == old(search) && filters == old(filters)
    {
      TrimEmptyIffBlank(reason);
      if selected == -1 || Trim(reason) == "" {
        return None;
      }
      assert reason != "";
      request := Some(Request(participants[selected].id, "Rejected", Some(reason)));
      showReason := false;
      reason := "";
      selected := -1;
    }

    /** The server's answer to a decision: on success the rows are updated
        as `ApplyDecision` says; on failure nothing changes. */
    method Answer(req: ApprovalRequest, ok: bool)
      requires Valid()
      modifies this
      ensures Valid()
      ensures ok ==> participants == ApplyDecision(old(participants), req)
      ensures !ok ==> participants == old(participants)
      ensures search == old(search) && filters == old(filters) && selected == old(selected)
      ensures reason == old(reason) && showReason == old(showReason)
    {
      if ok {
        participants := ApplyDecision(participants, req);
      }
    }
  }

  /** Two teams, "Alpha" then "Beta", both submitted. */
  function AlphaBeta(): seq<TeamWithDetails>
  {
    var creator := User("u", "u@x.id", "u", "user", true, 0, 0);
    var alpha := Team("a", "u", "Alpha", "X", 0, "", 0, 0, "Submitted", None);
    var beta := Team("b", "u", "Beta", "X", 0, "", 0, 0, "Submitted", None);
    [TeamWithDetails(alpha, creator, [], 0), TeamWithDetails(beta, creator, [], 0)]
  }

  /** With "beta" in the search box the only row on screen is Beta, but
      approving that row requests the acceptance of Alpha. */
  method WrongTeamApproved() returns (shown: string, request: Option<ApprovalRequest>)
    ensures shown == "b" && request == Some(Request("a", "Accepted", None))
  {
    var table := new RegistrationTable(AlphaBeta());
    table.SetSearch("beta");
    AlphaBetaRows(table.participants);
    OnlyBetaShown(table.participants);
    shown := table.Visible()[0].id;
    table.Select(0);
    request := table.ApproveSelected();
  }

  /** With the intended selection the row on screen is the one approved. */
  method RightTeamApproved() returns (shown: string, request: Option<ApprovalRequest>)
    ensures shown == "b" && request == Some(Request("b", "Accepted", None))
  {
    var table := new RegistrationTable(AlphaBeta());
    table.SetSearch("beta");
    AlphaBetaRows(table.participants);
    OnlyBetaShown(table.participants);
    shown := table.Visible()[0].id;
    table.SelectRow(0);
    request := table.ApproveSelected();
  }

  lemma AlphaBetaRows(ps: seq<Participant>)
    requires ps == TransformAll(AlphaBeta())
    ensures |ps| == 2 && ps[0].id == "a" && ps[0].team == "Alpha" && ps[1].id == "b" && ps[1].team == "Beta"
  {
  }

  lemma OnlyBetaShown(ps: seq<Participant>)
    requires |ps| == 2 && ps[0].team == "Alpha" && ps[1].team == "Beta"
    ensures FilteredData(ps, "beta", NoFilters) == [ps[1]]
  {
    AlphaHidden(ps[0]);
    BetaKept(ps[1]);
    assert ps == [ps[0], ps[1]];
    FilterPair(ps[0], ps[1], KeepRow("beta", NoFilters));
  }

  lemma AlphaHidden(p: Participant)
    requires p.team == "Alpha"
    ensures !Keep(p, "beta", NoFilters)
  {
    assert ToLower("beta") == "beta";
    assert ToLower("Alpha") == "alpha";
    MissingCharExcludes("alpha", "beta", 'b');
  }

  lemma BetaKept(p: Participant)
    requires p.team == "Beta"
    ensures Keep(p, "beta", NoFilters)
  {
    assert ToLower("beta") == "beta";
    assert ToLower("Beta") == "beta";
    assert MatchAt("beta", "beta", 0);
    IncludesIffMatch("beta", "beta");
  }

}
