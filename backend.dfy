// The command center's backend (enterprise-ai-strategy/operational-layer/api/main.py):
// the role guard, the job and approval tables and the handlers that
// change them, the listings and the dashboard figures. The database
// becomes a class holding the two tables as maps keyed by id; a listing
// reads a table in the order the database scans it, given as a sequence.
// Clocks and fresh ids are parameters.

module Backend {
  import opened Common
  import opened AuthService
  import opened ApiService
  import opened App
  import ApprovalsPage

  // ---------------------------------------------------------------------
  // Roles

  datatype Requester = Requester(email: string, role: string)

  datatype Guard = Admitted(user: Requester) | Forbidden(status: int, detail: string)

  /** `require_role`: the exact role, or an administrator. */
  function RequireRole(user: Requester, required: string): (r: Guard)
    ensures r.Admitted? <==> user.role == required || user.role == "admin"
    ensures r.Admitted? ==> r.user == user
    ensures r.Forbidden? ==> r.status == 403 && r.detail == "Insufficient permissions"
  {
    if user.role != required && user.role != "admin" then Forbidden(403, "Insufficient permissions")
    else Admitted(user)
  }

  function RequesterOf(u: User): Requester
  {
    Requester(u.email, u.role)
  }

  /** The console's `hasRole` admits exactly whom the backend's guard
      admits. */
  lemma ConsoleRoleCheckAgrees(s: Session, required: string)
    requires s.CurrentUser().Some?
    ensures s.HasRole(required) <==> RequireRole(RequesterOf(s.CurrentUser().value), required).Admitted?
  {
    HasRoleIff(s, required);
  }

  /** The console's drawer shows Users to a manager, but the user routes
      need an administrator, so a manager's request there is refused. */
  lemma ManagerSeesUsersButIsRefused(u: User)
    requires u.role == "manager"
    ensures NavigationItems[4] in FilteredNavigation(NavigationItems, Some(u))
    ensures RequireRole(RequesterOf(u), "admin") == Forbidden(403, "Insufficient permissions")
  {
    ConsoleNavigation(Some(u));
  }

  // ---------------------------------------------------------------------
  // Tables

  datatype JobStatus = JobPending | JobRunning | JobCompleted | JobFailed | JobCancelled

  function JobStatusName(s: JobStatus): string
  {
    match s
    case JobPending => "pending"
    case JobRunning => "running"
    case JobCompleted => "completed"
    case JobFailed => "failed"
    case JobCancelled => "cancelled"
  }

  datatype ApprovalState = AwaitingReview | ReviewApproved | ReviewRejected

  datatype JobRow = JobRow(jobType: string, agentName: string, status: JobStatus, createdAt: int,
                           startedAt: Option<int>, completedAt: Option<int>, createdBy: string,
                           parameters: map<string, string>, result: Option<string>,
                           errorMessage: Option<string>, approvalStatus: ApprovalState,
                           approvedBy: Option<string>, approvedAt: Option<int>)

  datatype ApprovalRow = ApprovalRow(jobId: string, contentType: string, title: string, content: string,
                                     status: ApprovalState, createdAt: int, createdBy: string,
                                     approvedBy: Option<string>, approvedAt: Option<int>,
                                     rejectionReason: Option<string>)

  /** `AGENT_REGISTRY`'s names. */
  const AgentRegistry: set<string> := {
    "tool_discovery", "deep_evaluation", "risk_assessment", "competitive_intelligence",
    "curriculum_architect", "technical_writer", "assessment_creator", "resource_curator",
    "license_optimizer", "integration_validator", "community_pulse", "executive_briefing"
  }

  // ---------------------------------------------------------------------
  // Request bodies, as the backend reads them

  /** `AgentExecutionRequest` once its defaults are filled in. */
  datatype ExecutionOrder = ExecutionOrder(agentName: string, task: string, parameters: map<string, string>,
                                           priority: string, requiresApproval: bool)

  /** Reading an execute body: agent_name and task are required texts;
      parameters default to {}, priority to "medium" and requires_approval
      to true. A body of the wrong shape is refused (None). */
  function ReadExecutionOrder(body: map<string, JsonValue>): (r: Option<ExecutionOrder>)
    ensures r.Some? ==> "agent_name" in body && body["agent_name"] == JText(r.value.agentName)
    ensures r.Some? ==> "task" in body && body["task"] == JText(r.value.task)
    ensures r.Some? && "requires_approval" !in body ==> r.value.requiresApproval
  {
    if "agent_name" !in body || !body["agent_name"].JText? || "task" !in body || !body["task"].JText? then None
    else if "parameters" in body && !body["parameters"].JObject? then None
    else if "priority" in body && !body["priority"].JText? then None
    else if "requires_approval" in body && !body["requires_approval"].JFlag? then None
    else
      Some(ExecutionOrder(
        body["agent_name"].text,
        body["task"].text,
        if "parameters" in body then body["parameters"].fields else map[],
        if "priority" in body then body["priority"].text else "medium",
        if "requires_approval" in body then body["requires_approval"].flag else true))
  }

  /** What the backend reads from the console's execute body: the console's
      fields, and the defaults for those it left out. */
  lemma ConsoleExecuteBodyReads(agentName: string, req: ExecutionRequest)
    ensures ReadExecutionOrder(ExecuteBody(agentName, req)) == Some(ExecutionOrder(
      agentName, req.task,
      if req.parameters.Some? then req.parameters.value else map[],
      if req.priority.Some? then req.priority.value else "medium",
      if req.requiresApproval.Some? then req.requiresApproval.value else true))
  {
  }

  /** `ApprovalRequest`. */
  datatype ReviewOrder = ReviewOrder(action: string, reason: Option<string>)

  /** The console always sends a reason, so the backend always gets one. */
  function ReadReviewBody(body: ReviewBody): (r: ReviewOrder)
    ensures r.action == body.action && r.reason == Some(body.reason)
  {
    ReviewOrder(body.action, Some(body.reason))
  }

  // ---------------------------------------------------------------------
  // Handler results

  datatype ExecuteReply = AgentMissing(status: int, detail: string) | Started(jobId: string, state: string, message: string)

  datatype ReviewReply = ApprovalMissing(status: int, detail: string)
                       | InvalidAction(status: int, detail: string)
                       | Reviewed(message: string, approvalId: string)

  /** What an agent's `process_task` did: raised, or produced a response
      with this content, serialised as this record. */
  datatype AgentOutcome = Raised(error: string) | Produced(content: string, record: string)

  /** The job row `execute_agent` creates. */
  function NewJob(agentName: string, order: ExecutionOrder, user: Requester, now: int): (r: JobRow)
    ensures r.status == JobPending && r.createdBy == user.email && r.agentName == agentName
    ensures r.approvalStatus == AwaitingReview <==> order.requiresApproval
    ensures r.approvalStatus == ReviewApproved <==> !order.requiresApproval
  {
    JobRow("agent_execution", agentName, JobPending, now, None, None, user.email, order.parameters,
           None, None, if order.requiresApproval then AwaitingReview else ReviewApproved, None, None)
  }

  /** A job row after `execute_agent_task` has run it, started at `started`
      and finished at `finished`. */
  function FinishedJob(job: JobRow, agentName: string, outcome: AgentOutcome, started: int, finished: int): (r: JobRow)
    ensures r.status == JobCompleted <==> agentName in AgentRegistry && outcome.Produced?
    ensures r.status == JobFailed <==> !(agentName in AgentRegistry && outcome.Produced?)
    ensures r.startedAt == Some(started) && r.completedAt == Some(finished)
    ensures r.status == JobCompleted ==> r.result == Some(outcome.record) && r.errorMessage == job.errorMessage
    ensures agentName !in AgentRegistry ==> r.errorMessage == Some("Agent '" + agentName + "' not found")
    ensures agentName in AgentRegistry && outcome.Raised? ==> r.errorMessage == Some(outcome.error)
    ensures r.status == JobFailed ==> r.result == job.result
    ensures r.approvalStatus == job.approvalStatus && r.createdBy == job.createdBy && r.createdAt == job.createdAt
  {
    var running := job.(status := JobRunning, startedAt := Some(started));
    if agentName !in AgentRegistry then
      running.(status := JobFailed, errorMessage := Some("Agent '" + agentName + "' not found"), completedAt := Some(finished))
    else if outcome.Raised? then
      running.(status := JobFailed, errorMessage := Some(outcome.error), completedAt := Some(finished))
    else
      running.(status := JobCompleted, result := Some(outcome.record), completedAt := Some(finished))
  }

  /** Whether the run opens an approval: a completed job still awaiting
      review. */
  predicate OpensApproval(job: JobRow, agentName: string, outcome: AgentOutcome)
  {
    agentName in AgentRegistry && outcome.Produced? && job.approvalStatus == AwaitingReview
  }

  /** The approval record a completed job awaiting review opens. */
  function NewApproval(jobId: string, job: JobRow, agentName: string, task: string, content: string, now: int): (r: ApprovalRow)
    ensures r.status == AwaitingReview && r.jobId == jobId && r.content == content
    ensures r.contentType == "agent_output" && r.createdBy == job.createdBy
    ensures r.approvedBy.None? && r.rejectionReason.None?
  {
    ApprovalRow(jobId, "agent_output", agentName + " - " + Take(task, 50), content, AwaitingReview, now,
                job.createdBy, None, None, None)
  }

  /** An approval row after a review by `reviewer` at `now`. */
  function ReviewedApproval(a: ApprovalRow, approve: bool, reason: Option<string>, reviewer: string, now: int): (r: ApprovalRow)
    ensures r.status == (if approve then ReviewApproved else ReviewRejected)
    ensures r.approvedBy == Some(reviewer) && r.approvedAt == Some(now)
    ensures r.rejectionReason == (if approve then a.rejectionReason else reason)
    ensures r.jobId == a.jobId && r.content == a.content && r.title == a.title && r.createdAt == a.createdAt
  {
    if approve then a.(status := ReviewApproved, approvedBy := Some(reviewer), approvedAt := Some(now))
    else a.(status := ReviewRejected, approvedBy := Some(reviewer), approvedAt := Some(now), rejectionReason := reason)
  }

  /** A job row after its approval was reviewed. */
  function ReviewedJob(j: JobRow, approve: bool, reviewer: string, now: int): (r: JobRow)
    ensures r.approvalStatus == (if approve then ReviewApproved else ReviewRejected)
    ensures r.approvedBy == Some(reviewer) && r.approvedAt == Some(now)
    ensures r.status == j.status && r.result == j.result && r.createdBy == j.createdBy
  {
    j.(approvalStatus := if approve then ReviewApproved else ReviewRejected, approvedBy := Some(reviewer), approvedAt := Some(now))
  }

  /** The latest review decides the status; an approval after a rejection
      keeps the earlier rejection reason beside the approved status. */
  lemma ReviewAgain(a: ApprovalRow, reason: Option<string>, reviewer: string, t1: int, t2: int, second: bool)
    ensures ReviewedApproval(ReviewedApproval(a, true, None, reviewer, t1), second, reason, reviewer, t2)
      == ReviewedApproval(a, second, reason, reviewer, t2)
    ensures var twice := ReviewedApproval(ReviewedApproval(a, false, reason, reviewer, t1), true, None, reviewer, t2);
      twice.status == ReviewApproved && twice.rejectionReason == reason
  {
  }

  // ---------------------------------------------------------------------
  // The database

  class Database {
    var jobs: map<string, JobRow>
    var approvals: map<string, ApprovalRow>

    constructor (jobs0: map<string, JobRow>, approvals0: map<string, ApprovalRow>)
      ensures jobs == jobs0 && approvals == approvals0
    {
      jobs := jobs0;
      approvals := approvals0;
    }

    /** `execute_agent`: an unknown agent is refused with 404 before anything
        is written; otherwise a pending job is created under `newId`. */
    method ExecuteAgent(agentName: string, order: ExecutionOrder, user: Requester, newId: string, now: int)
        returns (r: ExecuteReply)
      requires newId !in jobs
      modifies this
      ensures agentName !in AgentRegistry ==>
        r == AgentMissing(404, "Agent '" + agentName + "' not found") && jobs == old(jobs)
      ensures agentName in AgentRegistry ==>
        r == Started(newId, "started", "Agent execution started")
        && jobs == old(jobs)[newId := NewJob(agentName, order, user, now)]
      ensures approvals == old(approvals)
    {
      if agentName !in AgentRegistry {
        return AgentMissing(404, "Agent '" + agentName + "' not found");
      }
      var job := NewJob(agentName, order, user, now);
      jobs := jobs[newId := job];
      r := Started(newId, "started", "Agent execution started");
    }

    /** `execute_agent_task`, run as a background task. `commits` lists the
        statuses the job was committed with, in order: first running, then
        the final one. A missing job is left alone. */
    method ExecuteAgentTask(jobId: string, agentName: string, task: string, outcome: AgentOutcome,
                            approvalId: string, started: int, finished: int)
        returns (commits: seq<JobStatus>)
      requires approvalId !in approvals
      modifies this
      ensures jobId !in old(jobs) ==> commits == [] && jobs == old(jobs) && approvals == old(approvals)
      ensures jobId in old(jobs) ==>
        jobs == old(jobs)[jobId := FinishedJob(old(jobs)[jobId], agentName, outcome, started, finished)]
        && commits == [JobRunning, jobs[jobId].status]
      ensures jobId in old(jobs) && OpensApproval(old(jobs)[jobId], agentName, outcome) ==>
        approvals == old(approvals)[approvalId := NewApproval(jobId, old(jobs)[jobId], agentName, task, outcome.content, finished)]
      ensures jobId in old(jobs) && !OpensApproval(old(jobs)[jobId], agentName, outcome) ==>
        approvals == old(approvals)
    {
      if jobId !in jobs {
        return [];
      }
      var job := jobs[jobId];
      var running := job.(status := JobRunning, startedAt := Some(started));
      jobs := jobs[jobId := running];
      commits := [JobRunning];
      if agentName !in AgentRegistry {
        var failed := running.(status := JobFailed, errorMessage := Some("Agent '" + agentName + "' not found"),
                               completedAt := Some(finished));
        jobs := jobs[jobId := failed];
        commits := commits + [JobFailed];
        return;
      }
      match outcome {
        case Raised(e) =>
          var failed := running.(status := JobFailed, errorMessage := Some(e), completedAt := Some(finished));
          jobs := jobs[jobId := failed];
          commits := commits + [JobFailed];
        case Produced(content, record) =>
          var done := running.(status := JobCompleted, result := Some(record), completedAt := Some(finished));
          jobs := jobs[jobId := done];
          commits := commits + [JobCompleted];
          if done.approvalStatus == AwaitingReview {
            approvals := approvals[approvalId := NewApproval(jobId, job, agentName, task, content, finished)];
          }
      }
    }

    /** `review_approval`: 404 for an unknown approval, 400 for an action
        other than approve or reject, neither changing anything. Otherwise
        the approval and, when it exists, its job record the decision. The
        approval need not be pending: a decided one is reviewed again. */
    method ReviewApproval(approvalId: string, order: ReviewOrder, reviewer: Requester, now: int)
        returns (r: ReviewReply)
      modifies this
      ensures approvalId !in old(approvals) ==>
        r == ApprovalMissing(404, "Approval not found") && jobs == old(jobs) && approvals == old(approvals)
      ensures approvalId in old(approvals) && order.action != "approve" && order.action != "reject" ==>
        r == InvalidAction(400, "Invalid action. Use 'approve' or 'reject'")
        && jobs == old(jobs) && approvals == old(approvals)
      ensures approvalId in old(approvals) && (order.action == "approve" || order.action == "reject") ==>
        var approve := order.action == "approve";
        var a := old(approvals)[approvalId];
        approvals == old(approvals)[approvalId := ReviewedApproval(a, approve, order.reason, reviewer.email, now)]
        && (a.jobId in old(jobs) ==>
              jobs == old(jobs)[a.jobId := ReviewedJob(old(jobs)[a.jobId], approve, reviewer.email, now)])
        && (a.jobId !in old(jobs) ==> jobs == old(jobs))
        && r == Reviewed(if approve then "Content approved successfully" else "Content rejected", approvalId)
    {
      if approvalId !in approvals {
        return ApprovalMissing(404, "Approval not found");
      }
      var a := approvals[approvalId];
      if order.action == "approve" {
        approvals := approvals[approvalId := a.(status := ReviewApproved, approvedBy := Some(reviewer.email), approvedAt := Some(now))];
        if a.jobId in jobs {
          jobs := jobs[a.jobId := ReviewedJob(jobs[a.jobId], true, reviewer.email, now)];
        }
        r := Reviewed("Content approved successfully", approvalId);
      } else if order.action == "reject" {
        approvals := approvals[approvalId := a.(status := ReviewRejected, approvedBy := Some(reviewer.email),
                                                approvedAt := Some(now), rejectionReason := order.reason)];
        if a.jobId in jobs {
          jobs := jobs[a.jobId := ReviewedJob(jobs[a.jobId], false, reviewer.email, now)];
        }
        r := Reviewed("Content rejected", approvalId);
      } else {
        r := InvalidAction(400, "Invalid action. Use 'approve' or 'reject'");
      }
    }
  }

  /** How a run ends: completed exactly with a known agent that produced a
      response, failed (with a message) otherwise; never left running. */
  lemma RunEnds(job: JobRow, agentName: string, outcome: AgentOutcome, started: int, finished: int)
    ensures var r := FinishedJob(job, agentName, outcome, started, finished);
      (r.status == JobCompleted || r.status == JobFailed)
      && (r.status == JobFailed ==> r.errorMessage.Some?)
      && (r.status == JobCompleted ==> r.result.Some?)
      && (OpensApproval(job, agentName, outcome) ==> r.status == JobCompleted)
  {
  }

  /** A job submitted without approval is never put up for review; one
      submitted from the console without saying otherwise is, once its
      agent produces a response. */
  lemma ApprovalFollowsRequest(agentName: string, req: ExecutionRequest, user: Requester, now: int, outcome: AgentOutcome)
    requires agentName in AgentRegistry && outcome.Produced?
    ensures var order := ReadExecutionOrder(ExecuteBody(agentName, req)).value;
      OpensApproval(NewJob(agentName, order, user, now), agentName, outcome)
      <==> req.requiresApproval != Some(false)
  {
    ConsoleExecuteBodyReads(agentName, req);
  }

  /** A rejection sent from the console without a comment stores the empty
      reason, not a missing one. */
  lemma ConsoleRejectStoresReason(a: ApprovalRow, id: string, reason: Option<string>, reviewer: string, now: int)
    ensures var order := ReadReviewBody(ReviewApprovalRequest(id, ApprovalsPage.Reject, reason).body);
      order.action == "reject"
      && ReviewedApproval(a, false, order.reason, reviewer, now).rejectionReason
         == Some(if Truthy(reason) then reason.value else "")
  {
  }

  // ---------------------------------------------------------------------
  // Listings

  /** `list_jobs`' status filter: only when a non-empty status is given. */
  function HasJobStatus(status: Option<string>): ((string, JobRow)) -> bool
  {
    (e: (string, JobRow)) => !Truthy(status) || JobStatusName(e.1.status) == status.value
  }

  /** Non-administrators see only the jobs they created. */
  function VisibleJob(user: Requester): ((string, JobRow)) -> bool
  {
    (e: (string, JobRow)) => user.role == "admin" || e.1.createdBy == user.email
  }

  function JobCreated(): ((string, JobRow)) -> real
  {
    (e: (string, JobRow)) => e.1.createdAt as real
  }

  /** The jobs a listing selects, newest first, before paging. */
  function SelectedJobs(table: seq<(string, JobRow)>, status: Option<string>, user: Requester): (r: seq<(string, JobRow)>)
    ensures SortedDesc(r, JobCreated())
    ensures multiset(r) == multiset(Filter(Filter(table, HasJobStatus(status)), VisibleJob(user)))
  {
    SortDesc(Filter(Filter(table, HasJobStatus(status)), VisibleJob(user)), JobCreated())
  }

  /** The page of jobs `list_jobs` returns for a non-negative offset and
      limit: filter, order newest first, then skip and limit. */
  function PageOfJobs(table: seq<(string, JobRow)>, status: Option<string>, user: Requester, skip: nat, limit: nat): (r: seq<(string, JobRow)>)
    ensures |r| <= limit
    ensures forall i :: 0 <= i < |r| ==> r[i] in table && HasJobStatus(status)(r[i]) && VisibleJob(user)(r[i])
    ensures forall i, j :: 0 <= i < j < |r| ==> r[i].1.createdAt >= r[j].1.createdAt
  {
    var s := SelectedJobs(table, status, user);
    var r := Take(Drop(s, skip), limit);
    assert forall i :: 0 <= i < |r| ==> r[i] == s[skip + i];
    forall i | 0 <= i < |r|
      ensures r[i] in table && HasJobStatus(status)(r[i]) && VisibleJob(user)(r[i])
    {
      var x := s[skip + i];
      assert x in multiset(s);
      var f1 := Filter(table, HasJobStatus(status));
      assert x in Filter(f1, VisibleJob(user));
      assert x in f1;
    }
    r
  }

  /** What `list_jobs` answers: the page, or the server error of a query
      the database refuses. */
  datatype Listing = DatabaseRefused | Listed(jobs: seq<(string, JobRow)>)

  /** `list_jobs` over the table's rows in scan order. The route accepts
      any int for `skip` and `limit`; PostgreSQL refuses a negative OFFSET
      or LIMIT, so the request fails with a server error; otherwise the
      answer is the page. */
  function ListJobs(table: seq<(string, JobRow)>, status: Option<string>, user: Requester, skip: int, limit: int): (r: Listing)
    ensures r.DatabaseRefused? <==> skip < 0 || limit < 0
    ensures r.Listed? ==> skip >= 0 && limit >= 0 && r.jobs == PageOfJobs(table, status, user, skip, limit)
  {
    if skip < 0 || limit < 0 then DatabaseRefused else Listed(PageOfJobs(table, status, user, skip, limit))
  }

  lemma {:induction false} TakeDropSplit<T>(s: seq<T>, skip: nat, a: nat, b: nat)
    ensures Take(Drop(s, skip), a) + Take(Drop(s, skip + a), b) == Take(Drop(s, skip), a + b)
  {
    var x, y, z := Take(Drop(s, skip), a), Take(Drop(s, skip + a), b), Take(Drop(s, skip), a + b);
    if skip + a < |s| {
      assert |x| == a;
      assert |x + y| == |z|;
      forall i | 0 <= i < |z|
        ensures (x + y)[i] == z[i]
      {
        if i >= a {
          assert (x + y)[i] == y[i - a];
        }
      }
    } else {
      assert y == [];
      assert x + y == x;
    }
  }

  /** Paging: two consecutive pages together are the page spanning both,
      so paging through skips and repeats nothing. */
  lemma PagesJoin(table: seq<(string, JobRow)>, status: Option<string>, user: Requester, skip: nat, a: nat, b: nat)
    ensures PageOfJobs(table, status, user, skip, a) + PageOfJobs(table, status, user, skip + a, b)
      == PageOfJobs(table, status, user, skip, a + b)
  {
    TakeDropSplit(SelectedJobs(table, status, user), skip, a, b);
  }

  /** One page large enough holds every selected job: for an administrator
      without a status filter, every job of the table. */
  lemma {:induction false} WholeListing(table: seq<(string, JobRow)>, status: Option<string>, user: Requester)
    ensures multiset(PageOfJobs(table, status, user, 0, |table|))
      == multiset(Filter(Filter(table, HasJobStatus(status)), VisibleJob(user)))
    ensures user.role == "admin" && !Truthy(status) ==> multiset(PageOfJobs(table, status, user, 0, |table|)) == multiset(table)
  {
    var f1 := Filter(table, HasJobStatus(status));
    var f2 := Filter(f1, VisibleJob(user));
    var s := SelectedJobs(table, status, user);
    assert |s| == |f2| by {
      assert |multiset(s)| == |multiset(f2)|;
    }
    assert Drop(s, 0) == s;
    assert Take(s, |table|) == s;
    if user.role == "admin" && !Truthy(status) {
      FilterAll(table, HasJobStatus(status));
      FilterAll(f1, VisibleJob(user));
    }
  }

  /** The approval content shown in a listing: cut to 500 characters with
      "..." after it. */
  function Preview(content: string): (r: string)
    ensures |content| <= 500 ==> r == content
    ensures |content| > 500 ==> |r| == 503 && r[..500] == content[..500] && r[500..] == "..."
  {
    if |content| > 500 then content[..500] + "..." else content
  }

  /** Shortening a preview again changes nothing. */
  lemma PreviewIdempotent(content: string)
    ensures Preview(Preview(content)) == Preview(content)
    ensures |Preview(content)| <= 503
  {
    if |content| > 500 {
      var p := Preview(content);
      assert p[..500] == content[..500];
    }
  }

  datatype ApprovalSummary = ApprovalSummary(id: string, jobId: string, title: string, contentType: string,
                                             createdAt: int, createdBy: string, content: string)

  function IsAwaiting(): ((string, ApprovalRow)) -> bool
  {
    (e: (string, ApprovalRow)) => e.1.status == AwaitingReview
  }

  function ApprovalCreated(): ((string, ApprovalRow)) -> real
  {
    (e: (string, ApprovalRow)) => e.1.createdAt as real
  }

  function Summary(e: (string, ApprovalRow)): ApprovalSummary
  {
    ApprovalSummary(e.0, e.1.jobId, e.1.title, e.1.contentType, e.1.createdAt, e.1.createdBy, Preview(e.1.content))
  }

  /** The pending approvals in review order: all of them, each from the
      table and awaiting review, newest first. */
  lemma PendingInOrder(table: seq<(string, ApprovalRow)>)
    ensures var sorted := SortDesc(Filter(table, IsAwaiting()), ApprovalCreated());
      |sorted| == Count(table, IsAwaiting())
      && (forall i :: 0 <= i < |sorted| ==> sorted[i] in table && sorted[i].1.status == AwaitingReview)
      && (forall i, j :: 0 <= i < j < |sorted| ==> sorted[i].1.createdAt >= sorted[j].1.createdAt)
  {
    var pending := Filter(table, IsAwaiting());
    var sorted := SortDesc(pending, ApprovalCreated());
    SortDescLength(pending, ApprovalCreated());
    forall i | 0 <= i < |sorted|
      ensures sorted[i] in table && sorted[i].1.status == AwaitingReview
    {
      assert sorted[i] in multiset(sorted);
      assert sorted[i] in pending;
    }
    forall i, j | 0 <= i < j < |sorted|
      ensures sorted[i].1.createdAt >= sorted[j].1.createdAt
    {
      assert ApprovalCreated()(sorted[i]) >= ApprovalCreated()(sorted[j]);
    }
  }

  function Summaries(rows: seq<(string, ApprovalRow)>): (r: seq<ApprovalSummary>)
    ensures |r| == |rows|
    ensures forall i :: 0 <= i < |rows| ==> r[i] == Summary(rows[i]) && |r[i].content| <= 503
  {
    seq(|rows|, i requires 0 <= i < |rows| => Summary(rows[i]))
  }

  lemma SummariesConcat(a: seq<(string, ApprovalRow)>, b: seq<(string, ApprovalRow)>)
    ensures Summaries(a + b) == Summaries(a) + Summaries(b)
  {
    assert forall i :: 0 <= i < |a + b| ==> Summaries(a + b)[i] == (Summaries(a) + Summaries(b))[i];
  }

  /** Summarising two orderings of the same rows gives two orderings of
      the same summaries. */
  lemma {:induction false} SummariesPermutation(a: seq<(string, ApprovalRow)>, b: seq<(string, ApprovalRow)>)
    requires multiset(a) == multiset(b)
    ensures multiset(Summaries(a)) == multiset(Summaries(b))
    decreases |a|
  {
    if a == [] {
      assert |multiset(b)| == 0;
    } else {
      assert a[0] in multiset(b);
      var k :| 0 <= k < |b| && b[k] == a[0];
      var rest := b[..k] + b[k + 1..];
      assert b == b[..k] + [b[k]] + b[k + 1..];
      assert a == [a[0]] + a[1..];
      assert multiset(b) == multiset(rest) + multiset{a[0]};
      assert multiset(a) == multiset(a[1..]) + multiset{a[0]};
      assert multiset(rest) == multiset(b) - multiset{a[0]};
      assert multiset(a[1..]) == multiset(a) - multiset{a[0]};
      SummariesPermutation(a[1..], rest);
      SummariesConcat([a[0]], a[1..]);
      SummariesConcat(b[..k], b[k + 1..]);
      SummariesConcat(b[..k] + [b[k]], b[k + 1..]);
      SummariesConcat(b[..k], [b[k]]);
    }
  }

  /** `list_pending_approvals`: the approvals awaiting review, newest
      first, each with its content previewed. */
  function PendingApprovals(table: seq<(string, ApprovalRow)>): (r: seq<ApprovalSummary>)
    ensures |r| == Count(table, IsAwaiting())
    ensures forall i :: 0 <= i < |r| ==> exists e :: e in table && e.1.status == AwaitingReview && r[i] == Summary(e)
    ensures forall i, j :: 0 <= i < j < |r| ==> r[i].createdAt >= r[j].createdAt
    ensures forall i :: 0 <= i < |r| ==> |r[i].content| <= 503
    ensures multiset(r) == multiset(Summaries(Filter(table, IsAwaiting())))
  {
    var sorted := SortDesc(Filter(table, IsAwaiting()), ApprovalCreated());
    PendingInOrder(table);
    SummariesPermutation(sorted, Filter(table, IsAwaiting()));
    var r := Summaries(sorted);
    assert forall i :: 0 <= i < |r| ==> sorted[i] in table && sorted[i].1.status == AwaitingReview && r[i] == Summary(sorted[i]);
    r
  }

  // ---------------------------------------------------------------------
  // Dashboard

  datatype DashboardStats = DashboardStats(totalJobs: nat, runningJobs: nat, pendingApprovals: nat,
                                           completedJobs: nat, successRate: real)

  function HasStatusOf(s: JobStatus): JobRow -> bool
  {
    (j: JobRow) => j.status == s
  }

  function Pending(): ApprovalRow -> bool
  {
    (a: ApprovalRow) => a.status == AwaitingReview
  }

  /** `completed / total * 100`, or 0 without jobs. */
  function SuccessRate(completed: nat, total: nat): (r: real)
    requires completed <= total
    ensures 0.0 <= r <= 100.0
    ensures r == 0.0 <==> total == 0 || completed == 0
    ensures r == 100.0 <==> total > 0 && completed == total
  {
    if total > 0 then completed as real / total as real * 100.0 else 0.0
  }

  /** `get_dashboard_stats` over all rows of both tables. */
  function Dashboard(jobs: seq<JobRow>, approvals: seq<ApprovalRow>): (r: DashboardStats)
    ensures r.totalJobs == |jobs|
    ensures r.completedJobs == Count(jobs, HasStatusOf(JobCompleted))
    ensures r.runningJobs == Count(jobs, HasStatusOf(JobRunning))
    ensures r.pendingApprovals == Count(approvals, Pending())
    ensures r.completedJobs + r.runningJobs <= r.totalJobs
    ensures r.successRate == SuccessRate(r.completedJobs, r.totalJobs)
    ensures 0.0 <= r.successRate <= 100.0
    ensures r.successRate == 100.0 <==> |jobs| > 0 && forall i :: 0 <= i < |jobs| ==> jobs[i].status == JobCompleted
  {
    var completed := Count(jobs, HasStatusOf(JobCompleted));
    var running := Count(jobs, HasStatusOf(JobRunning));
    DisjointCounts(jobs, JobCompleted, JobRunning);
    AllCompleted(jobs);
    DashboardStats(|jobs|, running, Count(approvals, Pending()), completed, SuccessRate(completed, |jobs|))
  }

  lemma {:induction false} DisjointCounts(jobs: seq<JobRow>, a: JobStatus, b: JobStatus)
    requires a != b
    ensures Count(jobs, HasStatusOf(a)) + Count(jobs, HasStatusOf(b)) <= |jobs|
  {
    if jobs != [] {
      DisjointCounts(jobs[1..], a, b);
    }
  }

  lemma {:induction false} AllCompleted(jobs: seq<JobRow>)
    ensures Count(jobs, HasStatusOf(JobCompleted)) <= |jobs|
    ensures Count(jobs, HasStatusOf(JobCompleted)) == |jobs| <==> forall i :: 0 <= i < |jobs| ==> jobs[i].status == JobCompleted
  {
    if jobs != [] {
      AllCompleted(jobs[1..]);
      assert forall i :: 1 <= i < |jobs| ==> jobs[i] == jobs[1..][i - 1];
    }
  }
}
