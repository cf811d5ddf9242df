// The content-approval page of the operations console: the list filters,
// the status counts and tabs, the priority colours and the review dialog
// (enterprise-ai-strategy/operational-layer/web-ui/src/components/ApprovalsPage.tsx).

module ApprovalsPage {
  import opened Common

  datatype Status = Pending | Approved | Rejected | RequiresChanges

  function StatusName(s: Status): string
  {
    match s
    case Pending => "pending"
    case Approved => "approved"
    case Rejected => "rejected"
    case RequiresChanges => "requires_changes"
  }

  /** The status names are distinct, so a status is known from its name. */
  lemma StatusNameInjective(s: Status, t: Status)
    ensures StatusName(s) == StatusName(t) <==> s == t
  {
  }

  /** A content item waiting for review. Priority and content type are kept
      as the text that arrives, so that values outside the declared unions
      take the colour switch's default branch. */
  datatype Approval = Approval(
    id: string, jobId: string, agentName: string, contentType: string,
    title: string, status: Status, priority: string, tags: seq<string>)

  // ---------------------------------------------------------------------
  // Colours

  /** `getPriorityColor`. */
  function PriorityColor(priority: string): (r: string)
    ensures priority == "urgent" ==> r == "#d32f2f"
    ensures priority == "high" ==> r == "#f57c00"
    ensures priority == "medium" ==> r == "#1976d2"
    ensures priority == "low" ==> r == "#388e3c"
    ensures priority !in {"urgent", "high", "medium", "low"} ==> r == "#757575"
  {
    match priority
    case "urgent" => "#d32f2f"
    case "high" => "#f57c00"
    case "medium" => "#1976d2"
    case "low" => "#388e3c"
    case _ => "#757575"
  }

  /** Each known priority has a colour of its own, none of them the grey
      that an unknown priority gets. */
  lemma PriorityColorsDistinct(p: string, q: string)
    requires p in {"urgent", "high", "medium", "low"}
    ensures PriorityColor(p) != "#757575"
    ensures PriorityColor(p) == PriorityColor(q) <==> p == q
  {
  }

  /** `getStatusColor`. */
  function StatusColor(s: Status): (r: string)
    ensures s == Approved <==> r == "success"
    ensures s == Rejected <==> r == "error"
    ensures s == RequiresChanges <==> r == "warning"
    ensures s == Pending <==> r == "default"
  {
    match s
    case Approved => "success"
    case Rejected => "error"
    case RequiresChanges => "warning"
    case Pending => "default"
  }

  // ---------------------------------------------------------------------
  // The list

  /** The three select boxes; "all" switches a filter off. */
  datatype Filters = Filters(priority: string, contentType: string, agent: string)

  const DefaultFilters := Filters("all", "all", "all")

  function HasPriority(p: string): Approval -> bool
  {
    (a: Approval) => a.priority == p
  }

  function HasContentType(t: string): Approval -> bool
  {
    (a: Approval) => a.contentType == t
  }

  function FromAgent(agent: string): Approval -> bool
  {
    (a: Approval) => a.agentName == agent
  }

  predicate MatchesFilters(f: Filters, a: Approval)
  {
    (f.priority == "all" || a.priority == f.priority)
    && (f.contentType == "all" || a.contentType == f.contentType)
    && (f.agent == "all" || a.agentName == f.agent)
  }

  function Matching(f: Filters): Approval -> bool
  {
    (a: Approval) => MatchesFilters(f, a)
  }

  function FilterIf(approvals: seq<Approval>, on: bool, p: Approval -> bool): seq<Approval>
  {
    if on then Filter(approvals, p) else approvals
  }

  /** `loadApprovals`: the priority, content-type and agent filters in turn. */
  function LoadApprovals(approvals: seq<Approval>, f: Filters): seq<Approval>
  {
    var byPriority := FilterIf(approvals, f.priority != "all", HasPriority(f.priority));
    var byType := FilterIf(byPriority, f.contentType != "all", HasContentType(f.contentType));
    FilterIf(byType, f.agent != "all", FromAgent(f.agent))
  }

  function PriorityAndType(f: Filters): Approval -> bool
  {
    (a: Approval) => (f.priority == "all" || a.priority == f.priority) && (f.contentType == "all" || a.contentType == f.contentType)
  }

  lemma {:induction false} FilterIfStep(approvals: seq<Approval>, on: bool, p: Approval -> bool, before: Approval -> bool, after: Approval -> bool)
    requires forall a :: after(a) == (before(a) && (!on || p(a)))
    ensures FilterIf(Filter(approvals, before), on, p) == Filter(approvals, after)
  {
    if on {
      FilterFilter(approvals, before, p, after);
    } else {
      FilterCongruent(approvals, before, after);
    }
  }

  /** The listed approvals are exactly those all three filters accept, in
      their original order. */
  lemma LoadApprovalsKeepsMatching(approvals: seq<Approval>, f: Filters)
    ensures LoadApprovals(approvals, f) == Filter(approvals, Matching(f))
  {
    var everything := (a: Approval) => true;
    FilterAll(approvals, everything);
    FilterIfStep(approvals, f.priority != "all", HasPriority(f.priority), everything,
      (a: Approval) => f.priority == "all" || a.priority == f.priority);
    FilterIfStep(approvals, f.contentType != "all", HasContentType(f.contentType),
      (a: Approval) => f.priority == "all" || a.priority == f.priority, PriorityAndType(f));
    FilterIfStep(approvals, f.agent != "all", FromAgent(f.agent), PriorityAndType(f), Matching(f));
  }

  /** With every filter on "all" the whole list is shown. */
  lemma DefaultFiltersKeepAll(approvals: seq<Approval>)
    ensures LoadApprovals(approvals, DefaultFilters) == approvals
  {
  }

  // ---------------------------------------------------------------------
  // Counts and tabs

  function HasStatus(s: Status): Approval -> bool
  {
    (a: Approval) => a.status == s
  }

  datatype ApprovalCounts = ApprovalCounts(
    all: nat, pending: nat, approved: nat, rejected: nat, requiresChanges: nat)

  /** `approvalCounts`. */
  function CountApprovals(approvals: seq<Approval>): (r: ApprovalCounts)
    ensures r.all == |approvals|
  {
    ApprovalCounts(|approvals|, Count(approvals, HasStatus(Pending)), Count(approvals, HasStatus(Approved)),
      Count(approvals, HasStatus(Rejected)), Count(approvals, HasStatus(RequiresChanges)))
  }

  /** Every approval has exactly one of the four statuses, so the four
      status counts add up to the count of all approvals. */
  lemma {:induction false} CountsAccount(approvals: seq<Approval>)
    ensures var c := CountApprovals(approvals);
      c.pending + c.approved + c.rejected + c.requiresChanges == c.all
  {
    if approvals != [] {
      CountsAccount(approvals[1..]);
    }
  }

  /** The values of the five tabs, in order; tab 0 is "all". */
  const TabStatuses: seq<Option<Status>> := [None, Some(Pending), Some(Approved), Some(Rejected), Some(RequiresChanges)]

  /** The rows under tab `tab`: all of them under tab 0, those whose status
      is the tab's value otherwise. */
  predicate TabShows(tab: nat, a: Approval)
    requires tab < |TabStatuses|
  {
    tab == 0 || Some(a.status) == TabStatuses[tab]
  }

  function InTab(tab: nat): Approval -> bool
    requires tab < |TabStatuses|
  {
    (a: Approval) => TabShows(tab, a)
  }

  function TabRows(approvals: seq<Approval>, tab: nat): seq<Approval>
    requires tab < |TabStatuses|
  {
    Filter(approvals, InTab(tab))
  }

  /** Each tab shows as many rows as its label counts. */
  lemma TabRowsAgreeWithLabels(approvals: seq<Approval>)
    ensures |TabRows(approvals, 0)| == CountApprovals(approvals).all
    ensures |TabRows(approvals, 1)| == CountApprovals(approvals).pending
    ensures |TabRows(approvals, 2)| == CountApprovals(approvals).approved
    ensures |TabRows(approvals, 3)| == CountApprovals(approvals).rejected
    ensures |TabRows(approvals, 4)| == CountApprovals(approvals).requiresChanges
  {
    FilterAll(approvals, InTab(0));
    FilterCongruent(approvals, InTab(1), HasStatus(Pending));
    FilterCongruent(approvals, InTab(2), HasStatus(Approved));
    FilterCongruent(approvals, InTab(3), HasStatus(Rejected));
    FilterCongruent(approvals, InTab(4), HasStatus(RequiresChanges));
  }

  /** "No approvals found" is shown. */
  predicate ShowsEmptyMessage(approvals: seq<Approval>, tab: nat)
    requires tab < |TabStatuses|
  {
    |TabRows(approvals, tab)| == 0
  }

  /** The empty message appears exactly when no loaded approval belongs to
      the tab: under tab 0 when nothing is loaded, under another tab when no
      approval has that tab's status. */
  lemma EmptyMessageIffNoneInTab(approvals: seq<Approval>, tab: nat)
    requires tab < |TabStatuses|
    ensures ShowsEmptyMessage(approvals, tab) <==> forall i :: 0 <= i < |approvals| ==> !TabShows(tab, approvals[i])
    ensures tab == 0 ==> (ShowsEmptyMessage(approvals, tab) <==> approvals == [])
  {
    var rows := TabRows(approvals, tab);
    if rows != [] {
      assert rows[0] in approvals && InTab(tab)(rows[0]);
    }
  }

  /** The approve and reject buttons are on a card. */
  predicate HasReviewButtons(a: Approval)
  {
    a.status == Pending
  }

  // ---------------------------------------------------------------------
  // The review dialog

  datatype ReviewAction = Approve | Reject

  function ActionName(act: ReviewAction): string
  {
    match act
    case Approve => "approve"
    case Reject => "reject"
  }

  /** The status the back end gives an item (api/main.py:456-482). */
  function ReviewedStatus(act: ReviewAction): (r: Status)
    ensures r != Pending && r != RequiresChanges
  {
    match act
    case Approve => Approved
    case Reject => Rejected
  }

  /** The submit button is enabled: a rejection needs a comment that is not
      blank after trimming. */
  predicate SubmitEnabled(act: Option<ReviewAction>, comments: string)
  {
    !(act == Some(Reject) && IsBlank(comments))
  }

  /** Approval never needs a comment; rejection needs a comment holding at
      least one character that is not white space. */
  lemma RejectNeedsComment(act: Option<ReviewAction>, comments: string)
    ensures act != Some(Reject) ==> SubmitEnabled(act, comments)
    ensures SubmitEnabled(Some(Reject), comments) <==> exists i :: 0 <= i < |comments| && !IsJsSpace(comments[i])
  {
    BlankIffAllSpace(comments);
  }

  /** The success notification as written: the action with a "d" appended. */
  function SubmitMessageAsWritten(act: ReviewAction): string
  {
    "Content " + ActionName(act) + "d successfully"
  }

  /** For a rejection, appending "d" does not give the past tense. */
  lemma RejectMessageMisspelt()
    ensures SubmitMessageAsWritten(Approve) == "Content approved successfully"
    ensures SubmitMessageAsWritten(Reject) == "Content rejectd successfully"
    ensures SubmitMessageAsWritten(Reject) != "Content " + StatusName(ReviewedStatus(Reject)) + " successfully"
  {
    assert SubmitMessageAsWritten(Reject)[14] == 'd';
    assert ("Content " + StatusName(ReviewedStatus(Reject)) + " successfully")[14] == 'e';
  }

  /** The success notification, naming the status the review gives. */
  function SubmitMessage(act: ReviewAction): (r: string)
    ensures r == "Content " + StatusName(ReviewedStatus(act)) + " successfully"
  {
    match act
    case Approve => "Content approved successfully"
    case Reject => "Content rejected successfully"
  }

  /** The corrected notification agrees with the written one for approvals. */
  lemma SubmitMessageAgreesOnApprove()
    ensures SubmitMessage(Approve) == SubmitMessageAsWritten(Approve)
    ensures SubmitMessage(Reject) != SubmitMessageAsWritten(Reject)
  {
    RejectMessageMisspelt();
  }

  /** A submitted review: the item's id, the action and the comments the
      handler would pass to `ApiService.reviewApproval` (the page leaves that
      call as a comment), and the notification it shows. */
  datatype Submission = Submission(approvalId: string, action: ReviewAction, comments: string, message: string)

  /** The page's review and preview dialog state. */
  class ReviewDialog {
    var selected: Option<Approval>
    var action: Option<ReviewAction>
    var reviewOpen: bool
    var previewOpen: bool
    var comments: string

    /** The initial state: nothing selected, both dialogs closed. */
    constructor ()
      ensures selected.None? && action.None? && !reviewOpen && !previewOpen && comments == ""
    {
      selected := None;
      action := None;
      reviewOpen := false;
      previewOpen := false;
      comments := "";
    }

    /** The dialog's submit button is enabled. */
    predicate CanSubmit()
      reads this
    {
      SubmitEnabled(action, comments)
    }

    /** `handleReview`: selects the item, records the action, opens the
        review dialog and clears the comments. */
    method HandleReview(a: Approval, act: ReviewAction)
      modifies this
      ensures selected == Some(a) && action == Some(act) && reviewOpen && comments == ""
      ensures previewOpen == old(previewOpen)
      ensures CanSubmit() <==> act == Approve
    {
      selected := Some(a);
      action := Some(act);
      reviewOpen := true;
      comments := "";
    }

    /** `handlePreview`: selects the item and opens the preview. */
    method HandlePreview(a: Approval)
      modifies this
      ensures selected == Some(a) && previewOpen
      ensures action == old(action) && reviewOpen == old(reviewOpen) && comments == old(comments)
    {
      selected := Some(a);
      previewOpen := true;
    }

    /** Typing in the comment field. */
    method SetComments(text: string)
      modifies this
      ensures comments == text
      ensures selected == old(selected) && action == old(action) && reviewOpen == old(reviewOpen) && previewOpen == old(previewOpen)
    {
      comments := text;
    }

    /** Cancel, or closing the review dialog: only the dialog closes; the
        selection, action and comments stay. */
    method CancelReview()
      modifies this
      ensures !reviewOpen
      ensures selected == old(selected) && action == old(action) && comments == old(comments) && previewOpen == old(previewOpen)
    {
      reviewOpen := false;
    }

    /** `handleSubmitReview`: without a selected item or an action nothing
        happens; otherwise it yields the review request it would send with
        the comments typed, shows the notification as written, and the
        dialog closes with selection, action and comments cleared. */
    method HandleSubmitReview() returns (sent: Option<Submission>)
      modifies this
      ensures old(selected).None? || old(action).None? ==>
        sent.None? && selected == old(selected) && action == old(action) && reviewOpen == old(reviewOpen) && comments == old(comments)
      ensures old(selected).Some? && old(action).Some? ==>
        sent == Some(Submission(old(selected).value.id, old(action).value, old(comments), SubmitMessageAsWritten(old(action).value)))
        && !reviewOpen && selected.None? && action.None? && comments == ""
      ensures previewOpen == old(previewOpen)
    {
      if selected.None? || action.None? {
        return None;
      }
      sent := Some(Submission(selected.value.id, action.value, comments, SubmitMessageAsWritten(action.value)));
      reviewOpen := false;
      selected := None;
      action := None;
      comments := "";
    }
  }

  /** Reviewing an item and submitting yields the request for that item's
      id and the chosen action, and leaves the dialog closed and cleared. */
  method ReviewThenSubmit(d: ReviewDialog, a: Approval, act: ReviewAction, text: string) returns (sent: Option<Submission>)
    modifies d
    ensures sent == Some(Submission(a.id, act, text, SubmitMessageAsWritten(act)))
    ensures !d.reviewOpen && d.selected.None? && d.action.None? && d.comments == ""
  {
    d.HandleReview(a, act);
    d.SetComments(text);
    sent := d.HandleSubmitReview();
  }
}
