/** The dashboard counters: submission, workshop and team statistics, and
    the team-statistics service. Each endpoint asks the store for an exact
    row count (which may come back null) and for one column of every row;
    the answers, and whether each query failed, are parameters. */
module Stats {
  import opened Wrappers
  import opened Seqs
  import opened Records

  const InternalError: string := "Internal server error"

  /** `count || 0`. */
  function CountOrZero(count: Option<nat>): (n: nat)
    ensures count.Some? ==> n == count.value
    ensures count.None? ==> n == 0
  {
    count.GetOr(0)
  }

  /** One row of `select("team_id, status")` on `Submission`. */
  datatype SubmissionStatusRow = SubmissionStatusRow(team_id: string, status: string)

  datatype SubmissionStats = SubmissionStats(total: nat, valid: nat, invalid: nat, submitted: nat, notSubmitted: int)

  datatype StatsReply<T> = StatsOk(data: T) | StatsError(status: nat, error: string)

  /** `new Set(submissions.map(s => s.team_id))`. */
  function SubmittedTeams(rows: seq<SubmissionStatusRow>): (teams: set<string>)
    ensures forall i :: 0 <= i < |rows| ==> rows[i].team_id in teams
    ensures forall t :: t in teams ==> exists i :: 0 <= i < |rows| && rows[i].team_id == t
  {
    set i | 0 <= i < |rows| :: rows[i].team_id
  }

  /** No more teams have submitted than there are submissions. */
  lemma {:induction false} SubmittedTeamsBound(rows: seq<SubmissionStatusRow>)
    ensures |SubmittedTeams(rows)| <= |rows|
  {
    if rows != [] {
      var rest := rows[1..];
      SubmittedTeamsBound(rest);
      assert SubmittedTeams(rows) <= SubmittedTeams(rest) + {rows[0].team_id} by {
        forall t | t in SubmittedTeams(rows)
          ensures t in SubmittedTeams(rest) + {rows[0].team_id}
        {
          var i :| 0 <= i < |rows| && rows[i].team_id == t;
          if i > 0 {
            assert rest[i - 1].team_id == t;
          }
        }
      }
      SubsetCardinality(SubmittedTeams(rows), SubmittedTeams(rest) + {rows[0].team_id});
    }
  }

  lemma {:induction false} SubsetCardinality<T>(a: set<T>, b: set<T>)
    requires a <= b
    ensures |a| <= |b|
    decreases b
  {
    if a != {} {
      var x :| x in a;
      SubsetCardinality(a - {x}, b - {x});
    }
  }

  function StatusIs(status: string): SubmissionStatusRow -> bool
  {
    (row: SubmissionStatusRow) => row.status == status
  }

  /** `GET /api/team/submission/stats`. */
  function SubmissionStatsGet(teamCount: Option<nat>, countQuery: StoreOutcome, rows: seq<SubmissionStatusRow>,
                              rowsQuery: StoreOutcome): (r: StatsReply<SubmissionStats>)
    ensures countQuery == StoreError ==> r == StatsError(500, "Failed to count teams")
    ensures countQuery == StoreOk && rowsQuery == StoreError ==> r == StatsError(500, "Failed to fetch submissions")
    ensures (countQuery == StoreThrows || (countQuery == StoreOk && rowsQuery == StoreThrows)) ==>
      r == StatsError(500, InternalError)
    ensures r.StatsOk? <==> countQuery == StoreOk && rowsQuery == StoreOk
    ensures r.StatsOk? ==>
      r.data.total == CountOrZero(teamCount) &&
      r.data.submitted == |SubmittedTeams(rows)| <= |rows| &&
      r.data.valid == Count(rows, StatusIs("Valid")) &&
      r.data.invalid == Count(rows, StatusIs("Invalid")) &&
      r.data.valid + r.data.invalid <= |rows| &&
      r.data.notSubmitted == r.data.total - r.data.submitted
  {
    if countQuery == StoreError then StatsError(500, "Failed to count teams")
    else if countQuery == StoreThrows then StatsError(500, InternalError)
    else if rowsQuery == StoreError then StatsError(500, "Failed to fetch submissions")
    else if rowsQuery == StoreThrows then StatsError(500, InternalError)
    else
      assert countQuery == StoreOk && rowsQuery == StoreOk;
      var total := CountOrZero(teamCount);
      var submitted := |SubmittedTeams(rows)|;
      SubmittedTeamsBound(rows);
      CountThreeBound(rows, StatusIs("Valid"), StatusIs("Invalid"), StatusIs("Pending"));
      StatsOk(SubmissionStats(total, Count(rows, StatusIs("Valid")), Count(rows, StatusIs("Invalid")),
                              submitted, total - submitted))
  }

  /** `notSubmitted` is not clamped: a submission from a team the count
      misses makes it negative. */
  lemma NotSubmittedCanBeNegative(teamId: string)
    ensures var r := SubmissionStatsGet(Some(0), StoreOk, [SubmissionStatusRow(teamId, "Pending")], StoreOk);
      r.StatsOk? && r.data.notSubmitted == -1
  {
    var rows := [SubmissionStatusRow(teamId, "Pending")];
    assert rows[0].team_id == teamId;
    assert SubmittedTeams(rows) == {teamId};
  }

  datatype WorkshopStats = WorkshopStats(total: nat, pending: nat, approved: nat, rejected: nat)

  function ApprovalIs(status: string): string -> bool
  {
    (approval: string) => approval == status
  }

  /** `GET /api/workshop/stats`: counts by exact approval text; any store
      error is thrown and answered with 500. */
  function WorkshopStatsGet(count: Option<nat>, countQuery: StoreOutcome, approvals: seq<string>, rowsQuery: StoreOutcome)
    : (r: StatsReply<WorkshopStats>)
    ensures r.StatsOk? <==> countQuery == StoreOk && rowsQuery == StoreOk
    ensures r.StatsError? ==> r == StatsError(500, InternalError)
    ensures r.StatsOk? ==>
      r.data.total == CountOrZero(count) &&
      r.data.pending == Count(approvals, ApprovalIs("Pending")) &&
      r.data.approved == Count(approvals, ApprovalIs("Approved")) &&
      r.data.rejected == Count(approvals, ApprovalIs("Rejected")) &&
      r.data.pending + r.data.approved + r.data.rejected <= |approvals|
  {
    if countQuery != StoreOk || rowsQuery != StoreOk then StatsError(500, InternalError)
    else
      CountThreeBound(approvals, ApprovalIs("Pending"), ApprovalIs("Approved"), ApprovalIs("Rejected"));
      StatsOk(WorkshopStats(CountOrZero(count), Count(approvals, ApprovalIs("Pending")),
                            Count(approvals, ApprovalIs("Approved")), Count(approvals, ApprovalIs("Rejected"))))
  }

  /** The team counters; the route reports the Accepted count under
      `approved`. */
  datatype TeamStats = TeamStats(total: nat, pending: nat, approved: nat, rejected: nat)

  /** `GET /api/team/stats`. */
  function TeamStatsGet(count: Option<nat>, countQuery: StoreOutcome, statuses: seq<string>, rowsQuery: StoreOutcome)
    : (r: StatsReply<TeamStats>)
    ensures r.StatsOk? <==> countQuery == StoreOk && rowsQuery == StoreOk
    ensures r.StatsError? ==> r == StatsError(500, InternalError)
    ensures r.StatsOk? ==>
      r.data.total == CountOrZero(count) &&
      r.data.pending == Count(statuses, ApprovalIs("Pending")) &&
      r.data.approved == Count(statuses, ApprovalIs("Accepted")) &&
      r.data.rejected == Count(statuses, ApprovalIs("Rejected")) &&
      r.data.pending + r.data.approved + r.data.rejected <= |statuses|
  {
    if countQuery != StoreOk || rowsQuery != StoreOk then StatsError(500, InternalError)
    else
      CountThreeBound(statuses, ApprovalIs("Pending"), ApprovalIs("Accepted"), ApprovalIs("Rejected"));
      StatsOk(TeamStats(CountOrZero(count), Count(statuses, ApprovalIs("Pending")),
                        Count(statuses, ApprovalIs("Accepted")), Count(statuses, ApprovalIs("Rejected"))))
  }

  /** A Submitted or Resubmitted team moves none of the three counters:
      adding one changes only the total. */
  lemma {:induction false} InReviewTeamsUncounted(count: Option<nat>, statuses: seq<string>, extra: string)
    requires extra == "Submitted" || extra == "Resubmitted"
    ensures var before := TeamStatsGet(count, StoreOk, statuses, StoreOk).data;
      var after := TeamStatsGet(count, StoreOk, statuses + [extra], StoreOk).data;
      after.pending == before.pending && after.approved == before.approved && after.rejected == before.rejected
  {
    FilterAppend(statuses, [extra], ApprovalIs("Pending"));
    FilterAppend(statuses, [extra], ApprovalIs("Accepted"));
    FilterAppend(statuses, [extra], ApprovalIs("Rejected"));
    assert Filter([extra], ApprovalIs("Pending")) == [];
    assert Filter([extra], ApprovalIs("Accepted")) == [];
    assert Filter([extra], ApprovalIs("Rejected")) == [];
  }

  /** The service's counters, keyed `accepted`. */
  datatype TeamCounts = TeamCounts(total: nat, pending: nat, accepted: nat, rejected: nat)

  /** What the service caught: an `Error` with its message, or any other
      value. */
  datatype Fault = ErrorObject(message: string) | OtherValue

  datatype ServiceResponse = ServiceResponse(success: bool, message: string, data: Option<TeamCounts>, error: Option<string>)

  /** `fetchTeamStats`: the same counts as the route, under `accepted`; a
      failure is caught and reported with the error's message, or
      "Unknown error" for a thrown value that is not an `Error`. */
  function FetchTeamStats(count: Option<nat>, countQuery: StoreOutcome, statuses: seq<string>, rowsQuery: StoreOutcome,
                          fault: Fault): (r: ServiceResponse)
    ensures r.success <==> countQuery == StoreOk && rowsQuery == StoreOk
    ensures r.success ==>
      r.message == "Team statistics fetched successfully" && r.error.None? &&
      var route := TeamStatsGet(count, countQuery, statuses, rowsQuery).data;
      r.data == Some(TeamCounts(route.total, route.pending, route.approved, route.rejected))
    ensures !r.success ==>
      r.message == "Failed to fetch team statistics" && r.data.None? &&
      r.error == Some(if fault.ErrorObject? then fault.message else "Unknown error")
  {
    if countQuery != StoreOk || rowsQuery != StoreOk then
      ServiceResponse(false, "Failed to fetch team statistics", None,
                      Some(match fault case ErrorObject(m) => m case OtherValue => "Unknown error"))
    else
      var data := TeamCounts(CountOrZero(count), Count(statuses, ApprovalIs("Pending")),
                             Count(statuses, ApprovalIs("Accepted")), Count(statuses, ApprovalIs("Rejected")));
      ServiceResponse(true, "Team statistics fetched successfully", Some(data), None)
  }
}
