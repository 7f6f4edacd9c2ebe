/** The workshop registration endpoint: the list, newest first, and the
    approval change, which writes the status, appends one audit record and
    then makes two best-effort side effects (an e-mail and a notification).
    The `Workshop` table is a map from row id to row, the session table a map
    from session token to session; the answers of the store, the mail
    transport and the notification call are parameters. */
module Workshops {
  import opened Wrappers
  import opened Text
  import opened Seqs
  import opened Records
  import History
  import EmailConfig
  import EmailService
  import Auth

  const InternalError: string := "Internal server error"
  const FetchFailed: string := "Failed to fetch workshop data"
  const MissingFields: string := "Missing required fields: id and status"
  const ReasonRequired: string := "Reject message is required when rejecting a workshop registration"
  const NotFound: string := "Workshop registration not found"
  const UpdateFailed: string := "Failed to update workshop status"

  /** `data.map(convertWorkshopDBToWorkshop)`. */
  function ConvertWorkshops(rows: seq<WorkshopDB>): (r: seq<Workshop>)
    ensures |r| == |rows|
    ensures forall i :: 0 <= i < |rows| ==> r[i] == ConvertWorkshop(rows[i])
  {
    if rows == [] then [] else [ConvertWorkshop(rows[0])] + ConvertWorkshops(rows[1..])
  }

  /** The rows a list of records came from. */
  function RowsOf(ws: seq<Workshop>): (rows: seq<WorkshopDB>)
    ensures |rows| == |ws|
  {
    if ws == [] then [] else [WorkshopRow(ws[0])] + RowsOf(ws[1..])
  }

  /** Converting a list loses and reorders nothing. */
  lemma {:induction false} ConvertWorkshopsInvertible(rows: seq<WorkshopDB>)
    ensures RowsOf(ConvertWorkshops(rows)) == rows
  {
    if rows != [] {
      ConvertWorkshopsInvertible(rows[1..]);
      assert ConvertWorkshops(rows)[1..] == ConvertWorkshops(rows[1..]);
    }
  }

  datatype ListReply =
    | WorkshopList(data: seq<Workshop>, total: nat)
    | ListError(status: nat, error: string)

  ghost predicate NewestFirst(ws: seq<Workshop>)
  {
    forall i, j :: 0 <= i < j < |ws| ==> ws[i].createdAt >= ws[j].createdAt
  }

  /** `GET /api/workshop`: every row, converted, newest first, with the
      count; a store error or an exception gives 500. */
  function ListWorkshops(rows: seq<WorkshopDB>, select: StoreOutcome): (r: ListReply)
    ensures select == StoreError ==> r == ListError(500, FetchFailed)
    ensures select == StoreThrows ==> r == ListError(500, InternalError)
    ensures select == StoreOk ==>
      r.WorkshopList? && r.total == |r.data| == |rows| &&
      NewestFirst(r.data) && multiset(RowsOf(r.data)) == multiset(rows)
  {
    match select
    case StoreError => ListError(500, FetchFailed)
    case StoreThrows => ListError(500, InternalError)
    case StoreOk =>
      var sorted := SortDesc(rows, (row: WorkshopDB) => row.created_at);
      var data := ConvertWorkshops(sorted);
      ConvertWorkshopsInvertible(sorted);
      WorkshopList(data, |data|)
  }

  /** The audit action for a new status. */
  function ActionFor(status: string): (action: string)
    ensures action in {"approve", "reject", "reset"}
    ensures action == "approve" <==> status == "Approved"
    ensures action == "reject" <==> status == "Rejected"
  {
    if status == "Approved" then "approve"
    else if status == "Rejected" then "reject"
    else "reset"
  }

  /** The parsed body of the PATCH; `None` when `request.json()` throws. */
  datatype PatchBody = PatchBody(id: Option<string>, status: Option<string>, rejectMessage: Option<string>)

  datatype PatchReply =
    | NoUser
    | PatchError(status: nat, error: string)
    | PatchDone(data: Workshop, emailSent: bool, notificationSent: bool)

  datatype PatchOutcome = PatchOutcome(reply: PatchReply, workshops: map<string, WorkshopDB>, log: seq<HistoryDB>)

  /** What the side effects after the write see and do. */
  datatype SideEffects = SideEffects(
    templates: EmailConfig.Templates,
    mailEnv: EmailConfig.MailEnv,
    transportOk: bool,
    historyId: string,
    historyInsert: StoreOutcome,
    notification: Option<bool>)

  /** The e-mail step: `true` once the helper for an Approved or Rejected
      status has returned without throwing. */
  function EmailStep(fx: SideEffects, row: WorkshopDB, status: string, rejectMessage: Option<string>): (sent: bool)
    ensures sent <==> status == "Approved" || (status == "Rejected" && rejectMessage.GetOr("") != "")
  {
    if status == "Approved" then
      EmailService.SendWorkshopSuccessEmail(fx.templates, fx.mailEnv, row.email, row.full_name, row.workshop,
                                            row.institution, fx.transportOk).Ok?
    else if status == "Rejected" then
      EmailService.SendWorkshopRejectionEmail(fx.templates, fx.mailEnv, row.email, row.full_name, row.workshop,
                                              row.institution, rejectMessage.GetOr(""), fx.transportOk).Ok?
    else false
  }

  /** A rejection needs a reason that is neither missing nor blank. */
  predicate ReasonMissing(rejectMessage: Option<string>)
  {
    !Given(rejectMessage) || Trim(rejectMessage.value) == ""
  }

  /** The answers of the two selects before the write: the session row and
      the current registration row. */
  datatype PatchReads = PatchReads(session: StoreOutcome, current: StoreOutcome)

  const ReadsOk: PatchReads := PatchReads(StoreOk, StoreOk)

  /** A cookie whose session row the select returned. */
  predicate Authorised(cookie: Option<string>, sessions: map<string, Auth.Session>, selects: PatchReads)
  {
    Given(cookie) && selects.session == StoreOk && cookie.value in sessions
  }

  predicate FieldsValid(b: PatchBody)
  {
    Given(b.id) && Given(b.status) && !(b.status.value == "Rejected" && ReasonMissing(b.rejectMessage))
  }

  /** `PATCH /api/workshop`. The session is looked up but its expiry is
      never compared; the body's status is written as given and the reason
      is never stored. A failed request changes nothing; what a successful
      one writes is stated by `PatchWorkshopDone`, and each error reply by
      `PatchWorkshopErrors`. */
  function PatchWorkshop(body: Option<PatchBody>, cookie: Option<string>, sessions: map<string, Auth.Session>,
                         selects: PatchReads, now: Timestamp, workshops: map<string, WorkshopDB>, update: StoreOutcome,
                         log: seq<HistoryDB>, fx: SideEffects)
    : (o: PatchOutcome)
    ensures !o.reply.PatchDone? ==> o.workshops == workshops && o.log == log
  {
    match body
    case None => PatchOutcome(PatchError(500, InternalError), workshops, log)
    case Some(b) =>
      if !Given(cookie) then PatchOutcome(NoUser, workshops, log)
      else if selects.session == StoreThrows then PatchOutcome(PatchError(500, InternalError), workshops, log)
      else if selects.session == StoreError || cookie.value !in sessions then PatchOutcome(NoUser, workshops, log)
      else if !Given(b.id) || !Given(b.status) then
        PatchOutcome(PatchError(400, MissingFields), workshops, log)
      else if b.status.value == "Rejected" && ReasonMissing(b.rejectMessage) then
        PatchOutcome(PatchError(400, ReasonRequired), workshops, log)
      else if selects.current == StoreThrows then
        PatchOutcome(PatchError(500, InternalError), workshops, log)
      else if selects.current == StoreError || b.id.value !in workshops then
        PatchOutcome(PatchError(404, NotFound), workshops, log)
      else if update == StoreError then
        PatchOutcome(PatchError(500, UpdateFailed), workshops, log)
      else if update == StoreThrows then
        PatchOutcome(PatchError(500, InternalError), workshops, log)
      else
        ApplyPatch(b, sessions[cookie.value].adminEmail, now, workshops, log, fx)
  }

  /** The PATCH succeeds exactly when the body parses, the session select
      returns the cookie's session, the fields are valid, the current row is
      fetched and the update succeeds; it then writes the new status of that
      row only, appends the audit record of the session's admin, and reports
      the e-mail and the notification. */
  lemma PatchWorkshopDone(body: Option<PatchBody>, cookie: Option<string>, sessions: map<string, Auth.Session>,
                          selects: PatchReads, now: Timestamp, workshops: map<string, WorkshopDB>, update: StoreOutcome,
                          log: seq<HistoryDB>, fx: SideEffects, o: PatchOutcome)
    requires o == PatchWorkshop(body, cookie, sessions, selects, now, workshops, update, log, fx)
    ensures o.reply.PatchDone? <==>
      body.Some? && Authorised(cookie, sessions, selects) && FieldsValid(body.value) && selects.current == StoreOk &&
      body.value.id.value in workshops && update == StoreOk
    ensures o.reply.PatchDone? ==>
      var id := body.value.id.value;
      var status := body.value.status.value;
      var before := workshops[id];
      o.workshops == workshops[id := before.(approval := status)] &&
      o.reply.data == ConvertWorkshop(o.workshops[id]) &&
      o.log == History.RecordAction(log, sessions[cookie.value].adminEmail, ActionFor(status), before.approval, status,
                                    "workshop", id, fx.historyId, now, fx.historyInsert) &&
      (o.reply.emailSent <==> status == "Approved" || status == "Rejected") &&
      (o.reply.notificationSent <==> fx.notification == Some(true))
  {
  }

  /** The PATCH once every check has passed and the update succeeded: the
      status written, the audit record, then the e-mail and the
      notification. */
  function ApplyPatch(b: PatchBody, adminEmail: string, now: Timestamp, workshops: map<string, WorkshopDB>,
                      log: seq<HistoryDB>, fx: SideEffects): (o: PatchOutcome)
    requires FieldsValid(b) && b.id.value in workshops
    ensures o.reply.PatchDone?
    ensures var id := b.id.value;
      var status := b.status.value;
      var before := workshops[id];
      o.workshops == workshops[id := before.(approval := status)] &&
      o.reply.data == ConvertWorkshop(o.workshops[id]) &&
      o.log == History.RecordAction(log, adminEmail, ActionFor(status), before.approval, status,
                                    "workshop", id, fx.historyId, now, fx.historyInsert) &&
      (o.reply.emailSent <==> status == "Approved" || status == "Rejected") &&
      (o.reply.notificationSent <==> fx.notification == Some(true))
  {
    assert b.status.value == "Rejected" ==> b.rejectMessage.GetOr("") != "";
    var id := b.id.value;
    var status := b.status.value;
    var before := workshops[id];
    var after := before.(approval := status);
    var log' := History.RecordAction(log, adminEmail, ActionFor(status), before.approval,
                                     status, "workshop", id, fx.historyId, now, fx.historyInsert);
    var emailSent := EmailStep(fx, before, status, b.rejectMessage);
    var notificationSent := fx.notification == Some(true);
    PatchOutcome(PatchDone(ConvertWorkshop(after), emailSent, notificationSent), workshops[id := after], log')
  }

  /** The error replies of `PATCH /api/workshop`, in the order of its
      checks. */
  lemma PatchWorkshopErrors(body: Option<PatchBody>, cookie: Option<string>, sessions: map<string, Auth.Session>,
                            selects: PatchReads, now: Timestamp, workshops: map<string, WorkshopDB>, update: StoreOutcome,
                            log: seq<HistoryDB>, fx: SideEffects, o: PatchOutcome)
    requires o == PatchWorkshop(body, cookie, sessions, selects, now, workshops, update, log, fx)
    ensures body.None? ==> o.reply == PatchError(500, InternalError)
    ensures body.Some? && !Given(cookie) ==> o.reply == NoUser
    ensures body.Some? && Given(cookie) && selects.session == StoreThrows ==> o.reply == PatchError(500, InternalError)
    ensures body.Some? && Given(cookie) && selects.session != StoreThrows && !Authorised(cookie, sessions, selects) ==>
      o.reply == NoUser
    ensures body.Some? && Authorised(cookie, sessions, selects) && !(Given(body.value.id) && Given(body.value.status)) ==>
      o.reply == PatchError(400, MissingFields)
    ensures body.Some? && Authorised(cookie, sessions, selects) && Given(body.value.id) &&
            body.value.status == Some("Rejected") && ReasonMissing(body.value.rejectMessage) ==>
      o.reply == PatchError(400, ReasonRequired)
    ensures body.Some? && Authorised(cookie, sessions, selects) && FieldsValid(body.value) ==>
      (selects.current == StoreThrows ==> o.reply == PatchError(500, InternalError)) &&
      (selects.current == StoreError ==> o.reply == PatchError(404, NotFound)) &&
      (selects.current == StoreOk && body.value.id.value !in workshops ==> o.reply == PatchError(404, NotFound))
    ensures body.Some? && Authorised(cookie, sessions, selects) && FieldsValid(body.value) && selects.current == StoreOk &&
            body.value.id.value in workshops ==>
      (update == StoreError ==> o.reply == PatchError(500, UpdateFailed)) &&
      (update == StoreThrows ==> o.reply == PatchError(500, InternalError))
  {
  }

  /** The session's expiry plays no part: an expired session authorises the
      same change as a fresh one. */
  lemma ExpiredSessionStillAuthorises(body: Option<PatchBody>, token: string, adminEmail: string, expiresAt: int,
                                      selects: PatchReads, now: Timestamp, workshops: map<string, WorkshopDB>, update: StoreOutcome,
                                      log: seq<HistoryDB>, fx: SideEffects)
    requires token != "" && now > expiresAt
    ensures PatchWorkshop(body, Some(token), map[token := Auth.Session(adminEmail, expiresAt)], selects, now, workshops, update, log, fx)
         == PatchWorkshop(body, Some(token), map[token := Auth.Session(adminEmail, now)], selects, now, workshops, update, log, fx)
  {
  }

  /** A rejection changes only the status: the reason given in the request
      is not written to `rejection_message`. */
  lemma RejectionReasonNotStored(body: Option<PatchBody>, cookie: Option<string>, sessions: map<string, Auth.Session>, selects: PatchReads,
                                 now: Timestamp, workshops: map<string, WorkshopDB>, log: seq<HistoryDB>, fx: SideEffects)
    requires body.Some? && body.value.status == Some("Rejected")
    ensures var o := PatchWorkshop(body, cookie, sessions, selects, now, workshops, StoreOk, log, fx);
      forall id :: id in workshops ==> id in o.workshops && o.workshops[id].rejection_message == workshops[id].rejection_message
  {
    var o := PatchWorkshop(body, cookie, sessions, selects, now, workshops, StoreOk, log, fx);
    PatchWorkshopDone(body, cookie, sessions, selects, now, workshops, StoreOk, log, fx, o);
  }

  /** A successful change records exactly one audit entry when the insert
      succeeds, and that entry shows the old and new status under the
      workshop's id. */
  lemma PatchRecordsHistory(body: Option<PatchBody>, cookie: Option<string>, sessions: map<string, Auth.Session>, selects: PatchReads,
                            now: Timestamp, workshops: map<string, WorkshopDB>, log: seq<HistoryDB>, fx: SideEffects)
    requires fx.historyInsert == StoreOk
    ensures var o := PatchWorkshop(body, cookie, sessions, selects, now, workshops, StoreOk, log, fx);
      o.reply.PatchDone? ==>
        var id := body.value.id.value;
        |o.log| == |log| + 1 &&
        o.log[|log|].entity_type == "workshop" && o.log[|log|].entity_id == id &&
        o.log[|log|].old_status == workshops[id].approval && o.log[|log|].new_status == body.value.status.value &&
        Records.ConvertHistory(o.log[|log|]) in History.GetEntityHistory(o.log, id, StoreOk)
  {
    var o := PatchWorkshop(body, cookie, sessions, selects, now, workshops, StoreOk, log, fx);
    if o.reply.PatchDone? {
      assert o.log[|log|] in o.log;
    }
  }

  /** The e-mail flag reports that the helper returned, not that the mail
      went out: it is set even when the transport fails. */
  lemma EmailSentDespiteTransportFailure(body: Option<PatchBody>, cookie: Option<string>, sessions: map<string, Auth.Session>,
                                         now: Timestamp, workshops: map<string, WorkshopDB>, log: seq<HistoryDB>,
                                         fx: SideEffects)
    requires !fx.transportOk
    requires body.Some? && body.value.status == Some("Approved") && Given(body.value.id)
    requires Authorised(cookie, sessions, ReadsOk) && body.value.id.value in workshops
    ensures PatchWorkshop(body, cookie, sessions, ReadsOk, now, workshops, StoreOk, log, fx).reply.emailSent
  {
  }

  /** A notification call that throws leaves the flag false, and the reply
      is still a success. */
  lemma NotificationFailureHarmless(body: Option<PatchBody>, cookie: Option<string>, sessions: map<string, Auth.Session>,
                                    now: Timestamp, workshops: map<string, WorkshopDB>, log: seq<HistoryDB>,
                                    fx: SideEffects)
    requires fx.notification.None?
    requires body.Some? && Authorised(cookie, sessions, ReadsOk) && FieldsValid(body.value) && body.value.id.value in workshops
    ensures var o := PatchWorkshop(body, cookie, sessions, ReadsOk, now, workshops, StoreOk, log, fx);
      o.reply.PatchDone? && !o.reply.notificationSent
  {
  }
}
