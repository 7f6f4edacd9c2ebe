/** Database rows and the application records they convert to. Column
    names are kept on the row types; every converter copies field for field
    and is proved invertible, so no column is lost or swapped. Timestamps
    are milliseconds since the epoch. */
module Records {
  import opened Wrappers

  type Timestamp = int

  /** What the store did with an insert, an update or a select: it
      succeeded, answered with an error, or threw. */
  datatype StoreOutcome = StoreOk | StoreError | StoreThrows

  datatype UserDB = UserDB(id: string, email: string, username: string, role: string, onboarded: bool,
                           created_at: Timestamp, updated_at: Timestamp)

  datatype User = User(id: string, email: string, username: string, role: string, onboarded: bool,
                       createdAt: Timestamp, updatedAt: Timestamp)

  function UserRow(u: User): UserDB
  {
    UserDB(u.id, u.email, u.username, u.role, u.onboarded, u.createdAt, u.updatedAt)
  }

  /** `convertUserDBToUser`: all seven fields copied, id preserved. */
  function ConvertUser(row: UserDB): (u: User)
    ensures UserRow(u) == row
    ensures u.id == row.id
  {
    User(row.id, row.email, row.username, row.role, row.onboarded, row.created_at, row.updated_at)
  }

  datatype TeamDB = TeamDB(id: string, created_by: string, team_name: string, institution: string,
                           whatsapp_number: int, paymentproof_url: string, created_at: Timestamp,
                           updated_at: Timestamp, approvalstatus: string, reject_message: Option<string>)

  datatype Team = Team(id: string, createdBy: string, teamName: string, institution: string,
                       whatsappNumber: int, paymentProofUrl: string, createdAt: Timestamp,
                       updatedAt: Timestamp, approvalStatus: string, rejectMessage: Option<string>)

  function TeamRow(t: Team): TeamDB
  {
    TeamDB(t.id, t.createdBy, t.teamName, t.institution, t.whatsappNumber, t.paymentProofUrl,
           t.createdAt, t.updatedAt, t.approvalStatus, t.rejectMessage)
  }

  /** `convertTeamDBToTeam`: the payment URL under `paymentProofUrl`, the
      status under `approvalStatus`, the reason under `rejectMessage`. */
  function ConvertTeam(row: TeamDB): (t: Team)
    ensures TeamRow(t) == row
  {
    Team(row.id, row.created_by, row.team_name, row.institution, row.whatsapp_number, row.paymentproof_url,
         row.created_at, row.updated_at, row.approvalstatus, row.reject_message)
  }

  datatype TeamMemberDB = TeamMemberDB(id: string, team_id: string, name: string, email: string,
                                       github_url: string, data_url: string, is_leader: bool,
                                       created_at: Timestamp, updated_at: Timestamp,
                                       member_role: string, member_approval: string)

  datatype TeamMember = TeamMember(id: string, teamId: string, name: string, email: string,
                                   githubUrl: string, dataUrl: string, isLeader: bool,
                                   createdAt: Timestamp, updatedAt: Timestamp,
                                   memberRole: string, memberApproval: string)

  function TeamMemberRow(m: TeamMember): TeamMemberDB
  {
    TeamMemberDB(m.id, m.teamId, m.name, m.email, m.githubUrl, m.dataUrl, m.isLeader,
                 m.createdAt, m.updatedAt, m.memberRole, m.memberApproval)
  }

  /** `convertTeamMemberDBToTeamMember`: `dataUrl` from `data_url`, the
      other fields copied. */
  function ConvertTeamMember(row: TeamMemberDB): (m: TeamMember)
    ensures TeamMemberRow(m) == row
  {
    TeamMember(row.id, row.team_id, row.name, row.email, row.github_url, row.data_url, row.is_leader,
               row.created_at, row.updated_at, row.member_role, row.member_approval)
  }

  /** `members.find(m => m.isLeader === true)`: the first member marked as
      leader, if any. */
  function FirstLeader(ms: seq<TeamMember>): (m: Option<TeamMember>)
    ensures m.Some? ==>
      exists k :: 0 <= k < |ms| && ms[k] == m.value && ms[k].isLeader && forall j :: 0 <= j < k ==> !ms[j].isLeader
    ensures m.None? ==> forall j :: 0 <= j < |ms| ==> !ms[j].isLeader
  {
    if ms == [] then None
    else if ms[0].isLeader then Some(ms[0])
    else
      var rest := FirstLeader(ms[1..]);
      if rest.Some? then
        var k :| 0 <= k < |ms[1..]| && ms[1..][k] == rest.value && ms[1..][k].isLeader &&
                 forall j :: 0 <= j < k ==> !ms[1..][j].isLeader;
        assert ms[k + 1] == rest.value && forall j :: 0 <= j < k + 1 ==> !ms[j].isLeader;
        rest
      else
        rest
  }

  datatype WorkshopDB = WorkshopDB(id: string, created_at: Timestamp, full_name: string, email: string,
                                   institution: string, whatsapp_number: string, workshop: string,
                                   payment_proof_link: string, approval: string,
                                   rejection_message: Option<string>)

  datatype Workshop = Workshop(id: string, createdAt: Timestamp, fullName: string, email: string,
                               institution: string, whatsappNumber: string, workshop: string,
                               paymentProofLink: string, approval: string,
                               rejectionMessage: Option<string>)

  function WorkshopRow(w: Workshop): WorkshopDB
  {
    WorkshopDB(w.id, w.createdAt, w.fullName, w.email, w.institution, w.whatsappNumber, w.workshop,
               w.paymentProofLink, w.approval, w.rejectionMessage)
  }

  /** `convertWorkshopDBToWorkshop`: all ten fields copied. */
  function ConvertWorkshop(row: WorkshopDB): (w: Workshop)
    ensures WorkshopRow(w) == row
  {
    Workshop(row.id, row.created_at, row.full_name, row.email, row.institution, row.whatsapp_number,
             row.workshop, row.payment_proof_link, row.approval, row.rejection_message)
  }

  datatype HistoryDB = HistoryDB(id: string, admin_email: string, action: string, old_status: string,
                                 new_status: string, entity_type: string, entity_id: string,
                                 created_at: Timestamp)

  datatype History = History(id: string, adminEmail: string, action: string, oldStatus: string,
                             newStatus: string, entityType: string, entityId: string,
                             createdAt: Timestamp)

  function HistoryRow(h: History): HistoryDB
  {
    HistoryDB(h.id, h.adminEmail, h.action, h.oldStatus, h.newStatus, h.entityType, h.entityId, h.createdAt)
  }

  /** `convertHistoryDBToHistory`: all eight fields copied. */
  function ConvertHistory(row: HistoryDB): (h: History)
    ensures HistoryRow(h) == row
  {
    History(row.id, row.admin_email, row.action, row.old_status, row.new_status, row.entity_type,
            row.entity_id, row.created_at)
  }
}
