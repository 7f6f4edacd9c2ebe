/** The submission progress table of the dashboard: one row per team with
    whether it has a submission, a search on the team name, two status
    filters, and the spreadsheet export with the leader and the other
    members of each team. */
module SubmissionTable {
  import opened Wrappers
  import opened Text
  import opened Seqs
  import opened Records
  import StatusBadge

  datatype Status = Submitted | NotSubmitted

  function StatusText(s: Status): string
  {
    match s
    case Submitted => "Submitted"
    case NotSubmitted => "Not Submitted"
  }

  /** One team as the submission listing returns it
      (`TeamWithSubmissionStatus`); the team name may be missing. */
  datatype TeamWithSubmissionStatus = TeamWithSubmissionStatus(
    id: string,
    teamName: Option<string>,
    institution: string,
    createdAt: Timestamp,
    teamMembers: seq<TeamMember>,
    hasSubmission: bool,
    submissionId: Option<string>,
    proposalUrl: Option<string>,
    submissionStatus: Option<string>)

  datatype Participant = Participant(
    id: string,
    team: Option<string>,
    institution: string,
    members: nat,
    status: Status,
    date: Timestamp,
    teamMembers: seq<TeamMember>,
    submissionId: Option<string>,
    proposalUrl: Option<string>,
    submissionStatus: Option<string>)

  /** The row of one team: Submitted exactly when the team has a
      submission, and the member count is the number of members listed. */
  function Transform(t: TeamWithSubmissionStatus): (p: Participant)
    ensures p.status == Submitted <==> t.hasSubmission
    ensures p.members == |t.teamMembers| && p.teamMembers == t.teamMembers
    ensures p.id == t.id && p.team == t.teamName && p.institution == t.institution && p.date == t.createdAt
    ensures p.submissionId == t.submissionId && p.proposalUrl == t.proposalUrl && p.submissionStatus == t.submissionStatus
  {
    Participant(t.id, t.teamName, t.institution, |t.teamMembers|,
                if t.hasSubmission then Submitted else NotSubmitted,
                t.createdAt, t.teamMembers, t.submissionId, t.proposalUrl, t.submissionStatus)
  }

  function TransformAll(ts: seq<TeamWithSubmissionStatus>): (ps: seq<Participant>)
    ensures |ps| == |ts| && forall i :: 0 <= i < |ts| ==> ps[i] == Transform(ts[i])
  {
    seq(|ts|, i requires 0 <= i < |ts| => Transform(ts[i]))
  }

  function HasSubmission(t: TeamWithSubmissionStatus): bool
  {
    t.hasSubmission
  }

  function IsSubmitted(p: Participant): bool
  {
    p.status == Submitted
  }

  lemma TransformAllAppend(a: seq<TeamWithSubmissionStatus>, b: seq<TeamWithSubmissionStatus>)
    ensures TransformAll(a + b) == TransformAll(a) + TransformAll(b)
  {
    assert forall i :: 0 <= i < |a| ==> (a + b)[i] == a[i];
    assert forall i :: |a| <= i < |a + b| ==> (a + b)[i] == b[i - |a|];
  }

  /** The rows marked Submitted are exactly the teams with a submission,
      in the same order. */
  lemma {:induction false} SubmittedRowsAreSubmittingTeams(ts: seq<TeamWithSubmissionStatus>)
    ensures Filter(TransformAll(ts), IsSubmitted) == TransformAll(Filter(ts, HasSubmission))
  {
    if ts != [] {
      var rows := TransformAll(ts);
      var kept := Filter(ts[1..], HasSubmission);
      SubmittedRowsAreSubmittingTeams(ts[1..]);
      assert rows[1..] == TransformAll(ts[1..]);
      assert Filter(rows, IsSubmitted) == (if ts[0].hasSubmission then [rows[0]] else []) + TransformAll(kept);
      if ts[0].hasSubmission {
        assert Filter(ts, HasSubmission) == [ts[0]] + kept;
        TransformAllAppend([ts[0]], kept);
      } else {
        assert Filter(ts, HasSubmission) == kept;
      }
    }
  }

  /** Neither status text contains a status word of the badge, so the
      badge shows the text as it is. */
  lemma RowBadgeShowsStatus(p: Participant)
    ensures StatusBadge.Classify(StatusText(p.status)) == StatusBadge.PlainBadge(StatusText(p.status))
  {
    match p.status
    case Submitted => StatusBadge.SubmittedShownVerbatim(StatusText(p.status));
    case NotSubmitted => StatusBadge.NotSubmittedShownVerbatim(StatusText(p.status));
  }

  /** The search: case-insensitive on the team name; a row without a team
      name never matches, whatever the search. */
  predicate MatchesSearch(p: Participant, search: string)
  {
    p.team.Some? && ContainsIgnoringCase(p.team.value, search)
  }

  /** The status filter: a row passes when the filter for its status is on,
      or when neither filter is on. */
  function MatchesFilter(p: Participant, filterSubmitted: bool, filterNotSubmitted: bool): (keep: bool)
    ensures keep <==> filterSubmitted == filterNotSubmitted ||
                      (filterSubmitted && p.status == Submitted) || (filterNotSubmitted && p.status == NotSubmitted)
  {
    (filterSubmitted && p.status == Submitted) ||
    (filterNotSubmitted && p.status == NotSubmitted) ||
    (!filterSubmitted && !filterNotSubmitted)
  }

  function KeepRow(search: string, filterSubmitted: bool, filterNotSubmitted: bool): Participant -> bool
  {
    (p: Participant) => MatchesSearch(p, search) && MatchesFilter(p, filterSubmitted, filterNotSubmitted)
  }

  /** `filteredData`: the rows that match both the search and the filter,
      in their order. */
  function FilteredData(ps: seq<Participant>, search: string, filterSubmitted: bool, filterNotSubmitted: bool)
    : (r: seq<Participant>)
    ensures |r| <= |ps|
    ensures forall i :: 0 <= i < |r| ==>
      r[i] in ps && r[i].team.Some? && ContainsIgnoringCase(r[i].team.value, search) &&
      MatchesFilter(r[i], filterSubmitted, filterNotSubmitted)
    ensures forall i :: 0 <= i < |ps| && MatchesSearch(ps[i], search) && MatchesFilter(ps[i], filterSubmitted, filterNotSubmitted) ==>
      ps[i] in r
  {
    Filter(ps, KeepRow(search, filterSubmitted, filterNotSubmitted))
  }

  /** Both filters on shows what no filter shows. */
  lemma BothFiltersAsNone(ps: seq<Participant>, search: string)
    ensures FilteredData(ps, search, true, true) == FilteredData(ps, search, false, false)
  {
    FilterSame(ps, KeepRow(search, true, true), KeepRow(search, false, false));
  }

  /** With only the Submitted filter on, the rows shown are the submitted
      rows that match the search. */
  lemma {:induction false} SubmittedFilterShowsSubmitted(ps: seq<Participant>, search: string)
    ensures FilteredData(ps, search, true, false) == Filter(FilteredData(ps, search, false, false), IsSubmitted)
  {
    if ps != [] {
      SubmittedFilterShowsSubmitted(ps[1..], search);
      assert ps == [ps[0]] + ps[1..];
      FilterAppend([ps[0]], ps[1..], KeepRow(search, true, false));
      FilterAppend([ps[0]], ps[1..], KeepRow(search, false, false));
      FilterAppend(FilteredData([ps[0]], search, false, false), FilteredData(ps[1..], search, false, false), IsSubmitted);
    }
  }

  /** The names of the members not marked as leader, in order. */
  function NonLeaderNames(ms: seq<TeamMember>): (names: seq<string>)
    ensures |names| <= |ms|
    ensures forall k :: 0 <= k < |names| ==> exists j :: 0 <= j < |ms| && !ms[j].isLeader && ms[j].name == names[k]
    ensures forall j :: 0 <= j < |ms| && !ms[j].isLeader ==> ms[j].name in names
  {
    if ms == [] then []
    else (if ms[0].isLeader then [] else [ms[0].name]) + NonLeaderNames(ms[1..])
  }

  predicate NotLeader(m: TeamMember)
  {
    !m.isLeader
  }

  /** The names of a concatenation are the names of each part, in turn. */
  lemma {:induction false} NonLeaderNamesAppend(a: seq<TeamMember>, b: seq<TeamMember>)
    ensures NonLeaderNames(a + b) == NonLeaderNames(a) + NonLeaderNames(b)
  {
    if a == [] {
      assert a + b == b;
    } else {
      assert (a + b)[0] == a[0];
      assert (a + b)[1..] == a[1..] + b;
      NonLeaderNamesAppend(a[1..], b);
    }
  }

  /** `filter(m => !m.isLeader).map(m => m.name)`: one name per non-leader,
      in member order, repeats kept. */
  lemma {:induction false} NonLeaderNamesFilterThenMap(ms: seq<TeamMember>)
    ensures var f := Filter(ms, NotLeader);
      |NonLeaderNames(ms)| == |f| && forall k :: 0 <= k < |f| ==> NonLeaderNames(ms)[k] == f[k].name
  {
    if ms != [] {
      NonLeaderNamesFilterThenMap(ms[1..]);
    }
  }

  /** The Team Members column: the non-leader names joined with ", ", or
      "-" when that join is empty. Every non-empty name appears in it. */
  function MembersColumn(ms: seq<TeamMember>): (column: string)
    ensures NonLeaderNames(ms) == [] ==> column == "-"
    ensures |NonLeaderNames(ms)| >= 2 ==> column == Join(NonLeaderNames(ms), ", ")
    ensures column == "-" || column == Join(NonLeaderNames(ms), ", ")
    ensures Join(NonLeaderNames(ms), ", ") == "" ==> column == "-"
    ensures Join(NonLeaderNames(ms), ", ") != "" ==> column == Join(NonLeaderNames(ms), ", ")
    ensures forall j :: 0 <= j < |ms| && !ms[j].isLeader && ms[j].name != "" ==> Includes(column, ms[j].name)
  {
    var names := NonLeaderNames(ms);
    var joined := Join(names, ", ");
    JoinEmpty(names, ", ");
    JoinIncludesParts(names, ", ");
    if joined == "" then "-" else joined
  }

  /** One spreadsheet line of the export. */
  datatype ExportRow = ExportRow(
    no: nat,
    teamName: Option<string>,
    institution: string,
    membersCount: nat,
    submissionStatus: string,
    submissionDate: Timestamp,
    leader: string,
    leaderEmail: string,
    teamMembers: string,
    submissionUrl: string)

  /** The export of the rows shown: numbered from 1; the leader columns
      from the first member marked leader, "-" when there is none or the
      field is empty; the members column as above; the submission URL, or
      "-". */
  function Export(rows: seq<Participant>): (r: seq<ExportRow>)
    ensures |r| == |rows|
    ensures forall i :: 0 <= i < |rows| ==>
      r[i].no == i + 1 && r[i].teamName == rows[i].team && r[i].institution == rows[i].institution &&
      r[i].membersCount == rows[i].members && r[i].submissionDate == rows[i].date &&
      r[i].submissionStatus == StatusText(rows[i].status) && r[i].submissionUrl == OrDash(rows[i].proposalUrl)
    ensures forall i :: 0 <= i < |rows| ==>
      var l := FirstLeader(rows[i].teamMembers);
      r[i].leader == OrDash(if l.Some? then Some(l.value.name) else None) &&
      r[i].leaderEmail == OrDash(if l.Some? then Some(l.value.email) else None)
    ensures forall i :: 0 <= i < |rows| ==> r[i].teamMembers == MembersColumn(rows[i].teamMembers)
  {
    seq(|rows|, i requires 0 <= i < |rows| =>
      var p := rows[i];
      var l := FirstLeader(p.teamMembers);
      ExportRow(i + 1, p.team, p.institution, p.members, StatusText(p.status), p.date,
                OrDash(if l.Some? then Some(l.value.name) else None),
                OrDash(if l.Some? then Some(l.value.email) else None),
                MembersColumn(p.teamMembers),
                OrDash(p.proposalUrl)))
  }

  /** A team without a leader exports "-" in both leader columns. */
  lemma NoLeaderExportsDash(rows: seq<Participant>, i: nat)
    requires i < |rows| && forall j :: 0 <= j < |rows[i].teamMembers| ==> !rows[i].teamMembers[j].isLeader
    ensures Export(rows)[i].leader == "-" && Export(rows)[i].leaderEmail == "-"
  {
    var l := FirstLeader(rows[i].teamMembers);
    if l.Some? {
      assert false;
    }
  }

  /** The key of a row's status history: the submission id when there is
      one, else the team id. */
  function HistoryKey(p: Participant): (key: string)
    ensures Given(p.submissionId) ==> key == p.submissionId.value
    ensures !Given(p.submissionId) ==> key == p.id
  {
    if Given(p.submissionId) then p.submissionId.value else p.id
  }

  /** A team without a submission keys its history by the team id. */
  lemma NoSubmissionKeyedByTeam(t: TeamWithSubmissionStatus)
    requires t.submissionId.None?
    ensures HistoryKey(Transform(t)) == t.id
  {
  }

  class SubmissionAdminTable {
    var participants: seq<Participant>
    var search: string
    var filterSubmitted: bool
    var filterNotSubmitted: bool

    /** The table once the listing has been fetched: one row per team,
        no search and no filter. */
    constructor (teams: seq<TeamWithSubmissionStatus>)
      ensures participants == TransformAll(teams)
      ensures search == "" && !filterSubmitted && !filterNotSubmitted
    {
      participants := TransformAll(teams);
      search := "";
      filterSubmitted := false;
      filterNotSubmitted := false;
    }

    function Visible(): seq<Participant>
      reads this
    {
      FilteredData(participants, search, filterSubmitted, filterNotSubmitted)
    }

    method SetSearch(s: string)
      modifies this
      ensures search == s
      ensures participants == old(participants) && filterSubmitted == old(filterSubmitted) &&
              filterNotSubmitted == old(filterNotSubmitted)
    {
      search := s;
    }

    method SetFilterSubmitted(checked: bool)
      modifies this
      ensures filterSubmitted == checked
      ensures participants == old(participants) && search == old(search) && filterNotSubmitted == old(filterNotSubmitted)
    {
      filterSubmitted := checked;
    }

    method SetFilterNotSubmitted(checked: bool)
      modifies this
      ensures filterNotSubmitted == checked
      ensures participants == old(participants) && search == old(search) && filterSubmitted == old(filterSubmitted)
    {
      filterNotSubmitted := checked;
    }

    /** Select All turns both filters on, which shows every row that
        matches the search, as no filter does. */
    method SelectAll()
      modifies this
      ensures filterSubmitted && filterNotSubmitted
      ensures participants == old(participants) && search == old(search)
      ensures Visible() == FilteredData(participants, search, false, false)
    {
      filterSubmitted := true;
      filterNotSubmitted := true;
      BothFiltersAsNone(participants, search);
    }
  }
}
