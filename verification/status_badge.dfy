/** The hoverable status badge: the classifier that picks a badge from a
    status text by substring tests on its lower-case form, and the history
    popover that loads an entity's action history when the badge is
    hovered. */
module StatusBadge {
  import opened Wrappers
  import opened Text
  import opened Records

  /** The four badges: three fixed labels, or the status text itself. */
  datatype Badge = PendingBadge | ApprovedBadge | RejectedBadge | PlainBadge(text: string)

  predicate PendingLike(n: string)
  {
    Includes(n, "pending") || Includes(n, "waiting")
  }

  predicate ApprovedLike(n: string)
  {
    Includes(n, "approved") || Includes(n, "accepted") || Includes(n, "valid")
  }

  predicate RejectedLike(n: string)
  {
    Includes(n, "rejected") || Includes(n, "invalid")
  }

  /** Whatever includes "invalid" includes "valid". */
  lemma InvalidIncludesValid(n: string)
    requires Includes(n, "invalid")
    ensures Includes(n, "valid")
  {
    IncludesIffMatch(n, "invalid");
    var i :| MatchAt(n, "invalid", i);
    assert n[i + 2..i + 7] == n[i..i + 7][2..];
    assert MatchAt(n, "valid", i + 2);
    IncludesIffMatch(n, "valid");
  }

  /** `getStatusBadge` as written: the pending words first, then the
      approval words (among them "valid"), then the rejection words. */
  function Classify(status: string): (b: Badge)
    ensures b == PendingBadge <==> PendingLike(ToLower(status))
    ensures b == ApprovedBadge <==> !PendingLike(ToLower(status)) && ApprovedLike(ToLower(status))
    ensures b == RejectedBadge ==> Includes(ToLower(status), "rejected") && !Includes(ToLower(status), "invalid")
    ensures b.PlainBadge? <==> !PendingLike(ToLower(status)) && !ApprovedLike(ToLower(status)) && !RejectedLike(ToLower(status))
    ensures b.PlainBadge? ==> b.text == status
  {
    var n := ToLower(status);
    if PendingLike(n) then PendingBadge
    else if ApprovedLike(n) then ApprovedBadge
    else if RejectedLike(n) then
      if Includes(n, "invalid") then
        InvalidIncludesValid(n);
        assert false;
        RejectedBadge
      else RejectedBadge
    else PlainBadge(status)
  }

  /** The submission status "Invalid" gets the Approved badge. */
  lemma InvalidShownApproved(status: string)
    requires status == "Invalid"
    ensures Classify(status) == ApprovedBadge
  {
    LowerInvalid(status);
    InvalidWords(ToLower(status));
  }

  lemma LowerInvalid(status: string)
    requires status == "Invalid"
    ensures ToLower(status) == "invalid"
  {
    assert ToLower(status) == "invalid";
  }

  /** "invalid" has no pending word, and both the approval word "valid"
      and the rejection word "invalid". */
  lemma InvalidWords(n: string)
    requires n == "invalid"
    ensures !PendingLike(n)
    ensures Includes(n, "valid") && Includes(n, "invalid")
  {
    InvalidChars(n);
    MissingCharExcludes(n, "pending", 'p');
    MissingCharExcludes(n, "waiting", 'w');
    assert MatchAt(n, "valid", 2);
    IncludesIffMatch(n, "valid");
    assert MatchAt(n, "invalid", 0);
    IncludesIffMatch(n, "invalid");
  }

  /** The intended classifier: the rejection words are checked before the
      approval words, so "invalid" is not caught by "valid". */
  function ClassifyIntended(status: string): (b: Badge)
    ensures b == PendingBadge <==> PendingLike(ToLower(status))
    ensures b == RejectedBadge <==> !PendingLike(ToLower(status)) && RejectedLike(ToLower(status))
    ensures b == ApprovedBadge <==> !PendingLike(ToLower(status)) && !RejectedLike(ToLower(status)) && ApprovedLike(ToLower(status))
    ensures b.PlainBadge? ==> b.text == status
  {
    var n := ToLower(status);
    if PendingLike(n) then PendingBadge
    else if RejectedLike(n) then RejectedBadge
    else if ApprovedLike(n) then ApprovedBadge
    else PlainBadge(status)
  }

  /** The two classifiers differ only on texts carrying a rejection word. */
  lemma IntendedAgreesWithoutRejection(status: string)
    requires !RejectedLike(ToLower(status))
    ensures ClassifyIntended(status) == Classify(status)
  {
  }

  /** "invalid" holds neither a `p` nor a `w`. */
  lemma InvalidChars(n: string)
    requires n == "invalid"
    ensures 'p' !in n && 'w' !in n
  {
  }

  /** With the intended order the three submission statuses get their own
      badges. */
  lemma IntendedSubmissionBadges(valid: string, invalid: string, pending: string)
    requires valid == "Valid" && invalid == "Invalid" && pending == "Pending"
    ensures ClassifyIntended(valid) == ApprovedBadge
    ensures ClassifyIntended(invalid) == RejectedBadge
    ensures ClassifyIntended(pending) == PendingBadge
  {
    IntendedValid(valid);
    IntendedInvalid(invalid);
    LowerPending(pending);
    PendingWords(ToLower(pending));
  }

  lemma LowerPending(status: string)
    requires status == "Pending"
    ensures ToLower(status) == "pending"
  {
    assert ToLower(status) == "pending";
  }

  lemma PendingWords(n: string)
    requires n == "pending"
    ensures PendingLike(n)
  {
    assert MatchAt(n, "pending", 0);
    IncludesIffMatch(n, "pending");
  }

  lemma IntendedValid(status: string)
    requires status == "Valid"
    ensures ClassifyIntended(status) == ApprovedBadge
  {
    LowerValid(status);
    ValidWords(ToLower(status));
  }

  lemma LowerValid(status: string)
    requires status == "Valid"
    ensures ToLower(status) == "valid"
  {
    assert ToLower(status) == "valid";
  }

  /** "valid" has the approval word "valid" and no other status word. */
  lemma ValidWords(n: string)
    requires n == "valid"
    ensures !PendingLike(n) && !RejectedLike(n)
    ensures Includes(n, "valid")
  {
    ValidChars(n);
    MissingCharExcludes(n, "pending", 'p');
    MissingCharExcludes(n, "waiting", 'w');
    MissingCharExcludes(n, "rejected", 'r');
    MissingCharExcludes(n, "invalid", 'n');
    assert MatchAt(n, "valid", 0);
    IncludesIffMatch(n, "valid");
  }

  lemma ValidChars(n: string)
    requires n == "valid"
    ensures 'p' !in n && 'w' !in n && 'r' !in n && 'n' !in n
  {
  }

  lemma IntendedInvalid(status: string)
    requires status == "Invalid"
    ensures ClassifyIntended(status) == RejectedBadge
  {
    LowerInvalid(status);
    InvalidWords(ToLower(status));
  }

  /** A lower-case text that lacks, for each of the seven words, one of
      its characters contains none of them. */
  lemma NoStatusWord(n: string, p: char, w: char, ap: char, ac: char, v: char, r: char, i: char)
    requires p in "pending" && w in "waiting" && ap in "approved" && ac in "accepted"
    requires v in "valid" && r in "rejected" && i in "invalid"
    requires p !in n && w !in n && ap !in n && ac !in n && v !in n && r !in n && i !in n
    ensures !PendingLike(n) && !ApprovedLike(n) && !RejectedLike(n)
  {
    MissingCharExcludes(n, "pending", p);
    MissingCharExcludes(n, "waiting", w);
    MissingCharExcludes(n, "approved", ap);
    MissingCharExcludes(n, "accepted", ac);
    MissingCharExcludes(n, "valid", v);
    MissingCharExcludes(n, "rejected", r);
    MissingCharExcludes(n, "invalid", i);
  }

  /** Texts with none of the words are shown as they are: the team table's
      "Approve" (no "d"), and the submission table's two statuses. */
  lemma ApproveShownVerbatim(status: string)
    requires status == "Approve"
    ensures Classify(status) == PlainBadge(status)
  {
    LowerApprove(status);
    ApproveWords(ToLower(status));
  }

  lemma ApproveWords(n: string)
    requires n == "approve"
    ensures !PendingLike(n) && !ApprovedLike(n) && !RejectedLike(n)
  {
    ApproveChars(n);
    NoStatusWord(n, 'n', 'w', 'd', 'c', 'l', 'j', 'i');
  }

  lemma ApproveChars(n: string)
    requires n == "approve"
    ensures 'n' !in n && 'w' !in n && 'd' !in n && 'c' !in n && 'l' !in n && 'j' !in n && 'i' !in n
  {
  }

  lemma LowerApprove(status: string)
    requires status == "Approve"
    ensures ToLower(status) == "approve"
  {
    assert ToLower(status) == "approve";
  }

  lemma SubmittedShownVerbatim(status: string)
    requires status == "Submitted"
    ensures Classify(status) == PlainBadge(status)
  {
    LowerSubmitted(status);
    SubmittedWords(ToLower(status));
  }

  lemma SubmittedWords(n: string)
    requires n == "submitted"
    ensures !PendingLike(n) && !ApprovedLike(n) && !RejectedLike(n)
  {
    SubmittedChars(n);
    NoStatusWord(n, 'p', 'w', 'a', 'a', 'a', 'r', 'n');
  }

  lemma SubmittedChars(n: string)
    requires n == "submitted"
    ensures 'p' !in n && 'w' !in n && 'a' !in n && 'r' !in n && 'n' !in n
  {
  }

  lemma LowerSubmitted(status: string)
    requires status == "Submitted"
    ensures ToLower(status) == "submitted"
  {
    assert ToLower(status) == "submitted";
  }

  lemma NotSubmittedShownVerbatim(status: string)
    requires status == "Not Submitted"
    ensures Classify(status) == PlainBadge(status)
  {
    LowerNotSubmitted(status);
    NotSubmittedWords(ToLower(status));
  }

  lemma NotSubmittedWords(n: string)
    requires n == "not submitted"
    ensures !PendingLike(n) && !ApprovedLike(n) && !RejectedLike(n)
  {
    NotSubmittedChars(n);
    NoStatusWord(n, 'p', 'w', 'a', 'a', 'v', 'r', 'v');
  }

  lemma NotSubmittedChars(n: string)
    requires n == "not submitted"
    ensures 'p' !in n && 'w' !in n && 'a' !in n && 'v' !in n && 'r' !in n
  {
  }

  lemma LowerNotSubmitted(status: string)
    requires status == "Not Submitted"
    ensures ToLower(status) == "not submitted"
  {
    assert ToLower(status) == "not submitted";
  }

  /** The answer to `GET /api/history/{entityId}`: not OK, OK with a body
      whose `history` may be missing, or a failed fetch or parse. */
  datatype HistoryResponse = NotOk | OkBody(history: Option<seq<History>>) | FetchFailed

  /** The popover state of one badge. A hover starts a fetch unless one is
      in flight; its answer completes it. */
  class HistoryPopover {
    const entityId: string
    var history: seq<History>
    var loading: bool

    constructor (entityId: string)
      ensures this.entityId == entityId && history == [] && !loading
    {
      this.entityId := entityId;
      history := [];
      loading := false;
    }

    /** The start of `fetchHistory`: nothing while a fetch is in flight;
        otherwise `loading` is set and the path fetched is returned. */
    method StartFetch() returns (path: Option<string>)
      modifies this
      ensures old(loading) ==> path.None? && loading && history == old(history)
      ensures !old(loading) ==> path == Some("/api/history/" + entityId) && loading && history == old(history)
    {
      if loading {
        return None;
      }
      loading := true;
      path := Some("/api/history/" + entityId);
    }

    /** The end of `fetchHistory`: an OK answer replaces the history by its
        `history` field, or by the empty list when that is missing; any
        other answer keeps it; `loading` is cleared either way. */
    method FinishFetch(response: HistoryResponse)
      modifies this
      ensures !loading
      ensures response.OkBody? ==> history == response.history.GetOr([])
      ensures !response.OkBody? ==> history == old(history)
    {
      if response.OkBody? {
        history := response.history.GetOr([]);
      }
      loading := false;
    }
  }

  /** Hovering again before the first answer arrives starts no second
      fetch; after the answer a hover fetches again. */
  method HoverWhileLoading(entityId: string, response: HistoryResponse)
    returns (first: Option<string>, second: Option<string>, third: Option<string>)
    ensures first.Some? && second.None? && third.Some?
  {
    var popover := new HistoryPopover(entityId);
    first := popover.StartFetch();
    second := popover.StartFetch();
    popover.FinishFetch(response);
    third := popover.StartFetch();
  }
}
