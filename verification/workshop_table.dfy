/** The workshop participants table of the dashboard: the fetched
    registrations as rows, a search over name, e-mail and institution, three
    approval filters, and the approve and reject handlers, which change the
    chosen row in place once the server accepts the decision. */
module WorkshopTable {
  import opened Wrappers
  import opened Text
  import opened Seqs
  import opened Records
  import Workshops

  /** One row (`WorkshopParticipant`). */
  datatype Row = Row(
    id: string,
    name: string,
    email: string,
    institution: string,
    whatsappNumber: string,
    workshop: string,
    paymentProofLink: string,
    approval: string,
    date: Timestamp,
    rejectreason: Option<string>)

  /** The row built from a fetched registration; the stored rejection
      message is not carried over. */
  function Transform(w: Workshop): (r: Row)
    ensures r.id == w.id && r.name == w.fullName && r.email == w.email && r.institution == w.institution
    ensures r.approval == w.approval && r.date == w.createdAt && r.rejectreason.None?
    ensures r.whatsappNumber == w.whatsappNumber && r.workshop == w.workshop && r.paymentProofLink == w.paymentProofLink
  {
    Row(w.id, w.fullName, w.email, w.institution, w.whatsappNumber, w.workshop, w.paymentProofLink, w.approval,
        w.createdAt, None)
  }

  /** The three filter check boxes. */
  datatype Filters = Filters(pending: bool, approved: bool, rejected: bool)

  const NoFilters: Filters := Filters(false, false, false)
  const AllFilters: Filters := Filters(true, true, true)

  /** The search box matches the name, the e-mail or the institution,
      ignoring case. */
  predicate MatchesSearch(r: Row, search: string)
  {
    ContainsIgnoringCase(r.name, search) || ContainsIgnoringCase(r.email, search) ||
    ContainsIgnoringCase(r.institution, search)
  }

  /** The approval's box is checked, or no box is. */
  predicate MatchesFilter(r: Row, f: Filters)
  {
    (f.pending && r.approval == "Pending") || (f.approved && r.approval == "Approved") ||
    (f.rejected && r.approval == "Rejected") || (!f.approved && !f.pending && !f.rejected)
  }

  function KeepRow(search: string, f: Filters): Row -> bool
  {
    (r: Row) => MatchesSearch(r, search) && MatchesFilter(r, f)
  }

  /** `filteredData`: the rows passing both tests, in fetch order. */
  function FilteredData(rows: seq<Row>, search: string, f: Filters): (r: seq<Row>)
    ensures |r| <= |rows|
    ensures forall i :: 0 <= i < |r| ==> r[i] in rows && MatchesSearch(r[i], search) && MatchesFilter(r[i], f)
    ensures forall i :: 0 <= i < |rows| && MatchesSearch(rows[i], search) && MatchesFilter(rows[i], f) ==> rows[i] in r
  {
    Filter(rows, KeepRow(search, f))
  }

  /** With every approval one of the three values, Select All shows the
      same rows as no filter at all. */
  lemma {:induction false} SelectAllIsNoFilter(rows: seq<Row>, search: string)
    requires forall i :: 0 <= i < |rows| ==>
      rows[i].approval == "Pending" || rows[i].approval == "Approved" || rows[i].approval == "Rejected"
    ensures FilteredData(rows, search, AllFilters) == FilteredData(rows, search, NoFilters)
  {
    FilterSame(rows, KeepRow(search, AllFilters), KeepRow(search, NoFilters));
  }

  /** An approval outside the three values is hidden by every filter
      selection except none. */
  lemma UnknownApprovalOnlyUnfiltered(r: Row, f: Filters)
    requires r.approval != "Pending" && r.approval != "Approved" && r.approval != "Rejected"
    ensures MatchesFilter(r, f) <==> f == NoFilters
  {
  }

  /** The institution column: "telkom" is Telkom University, anything else
      is Non Telkom. */
  function InstitutionLabel(institution: string): (shown: string)
    ensures shown == "Telkom University" <==> institution == "telkom"
    ensures shown != "Telkom University" ==> shown == "Non Telkom"
  {
    if institution == "telkom" then "Telkom University" else "Non Telkom"
  }

  /** The workshop column: "workshop1" is Workshop 1, anything else, even
      an unknown value, is Workshop 2. */
  function WorkshopLabel(workshop: string): (shown: string)
    ensures shown == "Workshop 1" <==> workshop == "workshop1"
    ensures shown != "Workshop 1" ==> shown == "Workshop 2"
  {
    if workshop == "workshop1" then "Workshop 1" else "Workshop 2"
  }

  /** Approve and Reject are shown only for Pending rows. */
  predicate ActionsShown(r: Row)
  {
    r.approval == "Pending"
  }

  /** `handleExportToExcel` row. */
  datatype ExportRow = ExportRow(no: nat, name: string, email: string, institution: string, whatsappNumber: string,
                                 workshop: string, status: string, date: Timestamp, paymentProof: string,
                                 rejectionReason: string)

  /** The export of the rows on screen: numbered from 1, the reason or "-". */
  function Export(rows: seq<Row>): (r: seq<ExportRow>)
    ensures |r| == |rows|
    ensures forall i :: 0 <= i < |rows| ==>
      r[i].no == i + 1 && r[i].name == rows[i].name && r[i].email == rows[i].email && r[i].status == rows[i].approval &&
      (Given(rows[i].rejectreason) ==> r[i].rejectionReason == rows[i].rejectreason.value) &&
      (!Given(rows[i].rejectreason) ==> r[i].rejectionReason == "-")
    ensures forall i :: 0 <= i < |rows| ==>
      r[i].institution == rows[i].institution && r[i].whatsappNumber == rows[i].whatsappNumber &&
      r[i].workshop == rows[i].workshop && r[i].date == rows[i].date && r[i].paymentProof == rows[i].paymentProofLink
  {
    seq(|rows|, i requires 0 <= i < |rows| =>
      var p := rows[i];
      ExportRow(i + 1, p.name, p.email, p.institution, p.whatsappNumber, p.workshop, p.approval, p.date,
                p.paymentProofLink, OrDash(p.rejectreason)))
  }

  /** Rows fresh from the server export "-" as their reason, whatever was
      stored. */
  lemma FetchedRowsExportNoReason(ws: seq<Workshop>)
    ensures var rows := seq(|ws|, i requires 0 <= i < |ws| => Transform(ws[i]));
      forall i :: 0 <= i < |ws| ==> Export(rows)[i].rejectionReason == "-"
  {
  }

  class WorkshopAdminTable {
    var participants: array<Row>
    var search: string
    var filters: Filters
    /** The position chosen by a row's button, or -1. */
    var selected: int
    var rejectReason: string
    var showReason: bool
    var showSuccess: bool

    predicate Valid()
      reads this
    {
      -1 <= selected < participants.Length
    }

    function Visible(): seq<Row>
      reads this, participants
    {
      FilteredData(participants[..], search, filters)
    }

    constructor (ws: seq<Workshop>)
      ensures Valid() && fresh(participants)
      ensures participants[..] == seq(|ws|, i requires 0 <= i < |ws| => Transform(ws[i]))
      ensures search == "" && filters == NoFilters && selected == -1 && rejectReason == "" && !showReason && !showSuccess
    {
      participants := new Row[|ws|](i requires 0 <= i < |ws| => Transform(ws[i]));
      search := "";
      filters := NoFilters;
      selected := -1;
      rejectReason := "";
      showReason := false;
      showSuccess := false;
    }

    method SetSearch(text: string)
      modifies this
      ensures search == text && participants == old(participants) && filters == old(filters)
      ensures selected == old(selected) && rejectReason == old(rejectReason)
      ensures showReason == old(showReason) && showSuccess == old(showSuccess)
    {
      search := text;
    }

    method SetRejectReason(text: string)
      modifies this
      ensures rejectReason == text && participants == old(participants) && filters == old(filters)
      ensures selected == old(selected) && search == old(search)
      ensures showReason == old(showReason) && showSuccess == old(showSuccess)
    {
      rejectReason := text;
    }

    /** `handleSelectAll`. */
    method SelectAll()
      modifies this
      ensures filters == AllFilters && participants == old(participants) && search == old(search)
      ensures selected == old(selected) && rejectReason == old(rejectReason)
      ensures showReason == old(showReason) && showSuccess == old(showSuccess)
    {
      filters := AllFilters;
    }

    /** A row's button, as written: the row's position on screen is kept
        and later used as a position in the whole array. */
    method Select(idx: nat)
      requires Valid() && idx < |Visible()|
      modifies this
      ensures Valid() && selected == idx
      ensures participants == old(participants) && search == old(search) && filters == old(filters)
      ensures rejectReason == old(rejectReason) && showReason == old(showReason) && showSuccess == old(showSuccess)
    {
      selected := idx;
    }

    /** The button as intended: the position of the row on screen within the
        whole array is kept. */
    method SelectRow(idx: nat)
      requires Valid() && idx < |Visible()|
      modifies this
      ensures Valid() && 0 <= selected < participants.Length && idx < |Visible()|
      ensures participants[selected] == Visible()[idx]
      ensures participants == old(participants) && search == old(search) && filters == old(filters)
      ensures rejectReason == old(rejectReason) && showReason == old(showReason) && showSuccess == old(showSuccess)
    {
      var positions := Positions(participants[..], KeepRow(search, filters));
      selected := positions[idx];
    }

    /** `handleApprove`: with a row chosen, its approval is requested; when
        the server reports success that row, and no other, becomes
        Approved and the choice is cleared. */
    method Approve(success: bool) returns (request: Option<Workshops.PatchBody>)
      requires Valid()
      modifies this, participants
      ensures Valid() && participants == old(participants)
      ensures old(selected) == -1 ==> request.None? && participants[..] == old(participants[..]) && selected == -1
      ensures old(selected) != -1 ==>
        request == Some(Workshops.PatchBody(Some(old(participants[selected]).id), Some("Approved"), None))
      ensures old(selected) != -1 && success ==>
        participants[..] == old(participants[..])[old(selected) := old(participants[selected]).(approval := "Approved")] &&
        selected == -1 && showSuccess
      ensures old(selected) != -1 && !success ==>
        participants[..] == old(participants[..]) && selected == old(selected) && showSuccess == old(showSuccess)
      ensures old(selected) == -1 ==> showSuccess == old(showSuccess)
      ensures search == old(search) && filters == old(filters)
      ensures rejectReason == old(rejectReason) && showReason == old(showReason)
    {
      if selected == -1 {
        return None;
      }
      var p := participants[selected];
      request := Some(Workshops.PatchBody(Some(p.id), Some("Approved"), None));
      if success {
        participants[selected] := p.(approval := "Approved");
        selected := -1;
        showSuccess := true;
      }
    }

    /** `handleSubmitReason`: with a row chosen and a reason that is not
        blank, the rejection is requested with the trimmed reason; on
        success that row becomes Rejected with the trimmed reason, and the
        dialog is reset. */
    method SubmitReason(success: bool) returns (request: Option<Workshops.PatchBody>)
      requires Valid()
      modifies this, participants
      ensures Valid() && participants == old(participants)
      ensures request.Some? <==> old(selected) != -1 && !IsBlank(old(rejectReason))
      ensures request.Some? ==>
        request.value == Workshops.PatchBody(Some(old(participants[selected]).id), Some("Rejected"), Some(Trim(old(rejectReason)))) &&
        Trim(old(rejectReason)) != ""
      ensures request.Some? && success ==>
        participants[..] == old(participants[..])[old(selected) :=
          old(participants[selected]).(approval := "Rejected", rejectreason := Some(Trim(old(rejectReason))))] &&
        selected == -1 && rejectReason == "" && !showReason && showSuccess
      ensures !(request.Some? && success) ==>
        participants[..] == old(participants[..]) && selected == old(selected) && rejectReason == old(rejectReason) &&
        showReason == old(showReason) && showSuccess == old(showSuccess)
      ensures search == old(search) && filters == old(filters)
    {
      TrimEmptyIffBlank(rejectReason);
      if selected == -1 || Trim(rejectReason) == "" {
        return None;
      }
      var p := participants[selected];
      var trimmed := Trim(rejectReason);
      request := Some(Workshops.PatchBody(Some(p.id), Some("Rejected"), Some(trimmed)));
      if success {
        participants[selected] := p.(approval := "Rejected", rejectreason := Some(trimmed));
        selected := -1;
        showReason := false;
        rejectReason := "";
        showSuccess := true;
      }
    }
  }

  /** Two registrations where the search finds only the second. */
  lemma OnlySecondShown(rows: seq<Row>, search: string)
    requires |rows| == 2 && !MatchesSearch(rows[0], search) && MatchesSearch(rows[1], search)
    ensures FilteredData(rows, search, NoFilters) == [rows[1]]
  {
    var keep := KeepRow(search, NoFilters);
    assert Filter([rows[0]], keep) == [] && Filter([rows[1]], keep) == [rows[1]];
    assert rows == [rows[0]] + [rows[1]];
    FilterAppend([rows[0]], [rows[1]], keep);
  }

  /** Two pending registrations, `a` then `b`, and a search that finds only
      `b`: the only row on screen is `b`, but approving it marks `a` as
      Approved. */
  method WrongRowApproved(a: Workshop, b: Workshop, search: string)
    returns (shown: string, request: Option<Workshops.PatchBody>, first: string, second: string)
    requires a.id != b.id && a.approval == "Pending" && b.approval == "Pending"
    requires !MatchesSearch(Transform(a), search) && MatchesSearch(Transform(b), search)
    ensures shown == b.id && request == Some(Workshops.PatchBody(Some(a.id), Some("Approved"), None))
    ensures first == "Approved" && second == "Pending"
  {
    var table := new WorkshopAdminTable([a, b]);
    table.SetSearch(search);
    OnlySecondShown(table.participants[..], search);
    shown := table.Visible()[0].id;
    table.Select(0);
    request := table.Approve(true);
    first := table.participants[0].approval;
    second := table.participants[1].approval;
  }

  /** With the intended selection `b` is the one approved. */
  method RightRowApproved(a: Workshop, b: Workshop, search: string)
    returns (shown: string, request: Option<Workshops.PatchBody>, first: string, second: string)
    requires a.id != b.id && a.approval == "Pending" && b.approval == "Pending"
    requires !MatchesSearch(Transform(a), search) && MatchesSearch(Transform(b), search)
    ensures shown == b.id && request == Some(Workshops.PatchBody(Some(b.id), Some("Approved"), None))
    ensures first == "Pending" && second == "Approved"
  {
    var table := new WorkshopAdminTable([a, b]);
    table.SetSearch(search);
    OnlySecondShown(table.participants[..], search);
    shown := table.Visible()[0].id;
    table.SelectRow(0);
    request := table.Approve(true);
    first := table.participants[0].approval;
    second := table.participants[1].approval;
  }
}
