/** The team registration listing: every team joined with the user who
    created it and with its members. The three tables are fetched in the
    order teams, users, members; each fetch's failure is a parameter. */
module Registration {
  import opened Wrappers
  import opened Seqs
  import opened Records

  /** `TeamWithDetails`. */
  datatype TeamWithDetails = TeamWithDetails(team: Team, creator: User, members: seq<TeamMember>, memberCount: nat)

  /** `usersData.find(user => user.id === created_by)`, converted. */
  function Creator(users: seq<UserDB>, createdBy: string): (r: Option<User>)
    ensures r.Some? <==> exists k :: 0 <= k < |users| && users[k].id == createdBy
    ensures r.Some? ==>
      var k := FirstIndex(users, (u: UserDB) => u.id == createdBy);
      k < |users| && r.value == ConvertUser(users[k]) && r.value.id == createdBy &&
      forall j :: 0 <= j < k ==> users[j].id != createdBy
  {
    var k := FirstIndex(users, (u: UserDB) => u.id == createdBy);
    if k < |users| then Some(ConvertUser(users[k])) else None
  }

  /** `membersData.filter(m => m.team_id === teamId).map(convert)`. */
  function TeamMembers(members: seq<TeamMemberDB>, teamId: string): (r: seq<TeamMember>)
    ensures |r| <= |members|
    ensures forall i :: 0 <= i < |r| ==> r[i].teamId == teamId && TeamMemberRow(r[i]) in members
    ensures forall m :: m in members && m.team_id == teamId ==> ConvertTeamMember(m) in r
  {
    if members == [] then []
    else
      var rest := TeamMembers(members[1..], teamId);
      if members[0].team_id == teamId then [ConvertTeamMember(members[0])] + rest else rest
  }

  /** `m => m.team_id === teamId`. */
  function OnTeam(teamId: string): TeamMemberDB -> bool
  {
    (m: TeamMemberDB) => m.team_id == teamId
  }

  /** The members of a concatenation are those of each part, in turn. */
  lemma {:induction false} TeamMembersAppend(a: seq<TeamMemberDB>, b: seq<TeamMemberDB>, teamId: string)
    ensures TeamMembers(a + b, teamId) == TeamMembers(a, teamId) + TeamMembers(b, teamId)
  {
    if a == [] {
      assert a + b == b;
    } else {
      assert (a + b)[0] == a[0];
      assert (a + b)[1..] == a[1..] + b;
      TeamMembersAppend(a[1..], b, teamId);
    }
  }

  /** The filter then the conversion: one member per matching row, in row
      order, repeats kept. */
  lemma {:induction false} TeamMembersFilterThenConvert(members: seq<TeamMemberDB>, teamId: string)
    ensures var f := Filter(members, OnTeam(teamId));
      |TeamMembers(members, teamId)| == |f| &&
      forall k :: 0 <= k < |f| ==> TeamMembers(members, teamId)[k] == ConvertTeamMember(f[k])
  {
    if members != [] {
      TeamMembersFilterThenConvert(members[1..], teamId);
      var f, r := Filter(members, OnTeam(teamId)), TeamMembers(members, teamId);
      var f', r' := Filter(members[1..], OnTeam(teamId)), TeamMembers(members[1..], teamId);
      if members[0].team_id == teamId {
        assert f == [members[0]] + f' && r == [ConvertTeamMember(members[0])] + r';
        forall k | 0 <= k < |f|
          ensures r[k] == ConvertTeamMember(f[k])
        {
          if k > 0 {
            assert f[k] == f'[k - 1] && r[k] == r'[k - 1];
          }
        }
      } else {
        assert f == f' && r == r';
      }
    }
  }

  /** One team's entry: present exactly when its creator is known. */
  function Details(t: TeamDB, users: seq<UserDB>, members: seq<TeamMemberDB>): (d: Option<TeamWithDetails>)
    ensures d.Some? <==> Creator(users, t.created_by).Some?
    ensures d.Some? ==>
      d.value.team == ConvertTeam(t) && Creator(users, t.created_by) == Some(d.value.creator) &&
      d.value.members == TeamMembers(members, t.id) && d.value.memberCount == |d.value.members|
  {
    match Creator(users, t.created_by)
    case None => None
    case Some(creator) =>
      var ms := TeamMembers(members, t.id);
      Some(TeamWithDetails(ConvertTeam(t), creator, ms, |ms|))
  }

  /** The entry of each team, as a function of the team row. */
  function DetailsOf(users: seq<UserDB>, members: seq<TeamMemberDB>): TeamDB -> Option<TeamWithDetails>
  {
    (t: TeamDB) => Details(t, users, members)
  }

  /** The teams with a known creator, in team-row order, each with its
      creator and members; the others are left out. */
  function Join(teams: seq<TeamDB>, users: seq<UserDB>, members: seq<TeamMemberDB>): (r: seq<TeamWithDetails>)
    ensures |r| <= |teams|
  {
    FilterMap(teams, DetailsOf(users, members))
  }

  /** Every entry is the entry of some team. */
  lemma JoinSound(teams: seq<TeamDB>, users: seq<UserDB>, members: seq<TeamMemberDB>)
    ensures forall i :: 0 <= i < |Join(teams, users, members)| ==>
      exists j :: 0 <= j < |teams| && Details(teams[j], users, members) == Some(Join(teams, users, members)[i])
  {
    var r := Join(teams, users, members);
    forall i | 0 <= i < |r|
      ensures exists j :: 0 <= j < |teams| && Details(teams[j], users, members) == Some(r[i])
    {
      FilterMapSound(teams, DetailsOf(users, members), r[i]);
    }
  }

  /** Every team whose creator is known has its entry. */
  lemma JoinComplete(teams: seq<TeamDB>, users: seq<UserDB>, members: seq<TeamMemberDB>)
    ensures forall j :: 0 <= j < |teams| && Creator(users, teams[j].created_by).Some? ==>
      Details(teams[j], users, members).value in Join(teams, users, members)
  {
    FilterMapComplete(teams, DetailsOf(users, members));
  }

  /** The join keeps team-row order: joining two lists of teams is joining
      each and concatenating. */
  lemma JoinAppend(a: seq<TeamDB>, b: seq<TeamDB>, users: seq<UserDB>, members: seq<TeamMemberDB>)
    ensures Join(a + b, users, members) == Join(a, users, members) + Join(b, users, members)
  {
    FilterMapAppend(a, b, DetailsOf(users, members));
  }

  /** When every team's creator is known, nothing is dropped and the i-th
      entry is the i-th team. */
  lemma JoinKeepsAll(teams: seq<TeamDB>, users: seq<UserDB>, members: seq<TeamMemberDB>)
    requires forall j :: 0 <= j < |teams| ==> Creator(users, teams[j].created_by).Some?
    ensures |Join(teams, users, members)| == |teams|
    ensures forall i :: 0 <= i < |teams| ==> Some(Join(teams, users, members)[i]) == Details(teams[i], users, members)
  {
    FilterMapKeepsAll(teams, DetailsOf(users, members));
  }

  datatype RegistrationReply = RegistrationData(data: seq<TeamWithDetails>) | RegistrationError(status: nat, error: string)

  /** `GET /api/team/registration`: the first failing fetch decides the
      error text; with all three fetched, the join. */
  function RegistrationGet(teams: seq<TeamDB>, teamsQuery: StoreOutcome, users: seq<UserDB>, usersQuery: StoreOutcome,
                           members: seq<TeamMemberDB>, membersQuery: StoreOutcome): (r: RegistrationReply)
    ensures teamsQuery == StoreError ==> r == RegistrationError(500, "Failed to fetch teams")
    ensures teamsQuery == StoreOk && usersQuery == StoreError ==> r == RegistrationError(500, "Failed to fetch users")
    ensures teamsQuery == StoreOk && usersQuery == StoreOk && membersQuery == StoreError ==>
      r == RegistrationError(500, "Failed to fetch team members")
    ensures r.RegistrationError? && r.error != "Failed to fetch teams" && r.error != "Failed to fetch users" &&
            r.error != "Failed to fetch team members" ==>
      r.error == "Internal server error"
    ensures r.RegistrationData? <==> teamsQuery == StoreOk && usersQuery == StoreOk && membersQuery == StoreOk
    ensures r.RegistrationData? ==> r.data == Join(teams, users, members)
  {
    if teamsQuery == StoreError then RegistrationError(500, "Failed to fetch teams")
    else if teamsQuery == StoreThrows then RegistrationError(500, "Internal server error")
    else if usersQuery == StoreError then RegistrationError(500, "Failed to fetch users")
    else if usersQuery == StoreThrows then RegistrationError(500, "Internal server error")
    else if membersQuery == StoreError then RegistrationError(500, "Failed to fetch team members")
    else if membersQuery == StoreThrows then RegistrationError(500, "Internal server error")
    else
      assert teamsQuery == StoreOk && usersQuery == StoreOk && membersQuery == StoreOk;
      RegistrationData(Join(teams, users, members))
  }
}
