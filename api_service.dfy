// The console's HTTP client
// (enterprise-ai-strategy/operational-layer/web-ui/src/services/apiService.ts):
// how a reply is classified, the query string of the job listing, the
// bodies of the review and execute requests, and the CSV export of jobs.
// `fetch` becomes a parameter holding what the request met.

module ApiService {
  import opened Common
  import opened UriEncoding
  import opened AuthService
  import opened ApprovalsPage

  // ---------------------------------------------------------------------
  // Classifying a reply

  /** The JSON body of a reply, as far as the client looks into it, or the
      message of the parse error `response.json()` raised. */
  datatype Body = Unparsable(parseError: string) | Json(detail: Option<string>, message: Option<string>)

  /** What `fetch` met: it raised (with that message), or a reply came back. */
  datatype Reply = NetworkError(message: string) | HttpReply(status: int, body: Body)

  datatype ApiResponse = Succeeded(data: Body) | Failed(error: string)

  /** `response.ok`. */
  predicate Ok(status: int)
  {
    200 <= status <= 299
  }

  /** `data.detail || data.message || 'Request failed'`. */
  function ErrorText(detail: Option<string>, message: Option<string>): (r: string)
    ensures r != ""
    ensures Truthy(detail) ==> r == detail.value
    ensures !Truthy(detail) && Truthy(message) ==> r == message.value
    ensures !Truthy(detail) && !Truthy(message) ==> r == "Request failed"
  {
    if Truthy(detail) then detail.value else if Truthy(message) then message.value else "Request failed"
  }

  /** The outcome `makeRequest` returns for a reply. A 401 throws
      'Authentication required', which the surrounding catch turns into a
      failure, as it does with a network error or a body that is not JSON. */
  function Classify(reply: Reply): (r: ApiResponse)
  {
    match reply
    case NetworkError(m) => Failed(m)
    case HttpReply(status, body) =>
      if status == 401 then Failed("Authentication required")
      else if body.Unparsable? then Failed(body.parseError)
      else if !Ok(status) then Failed(ErrorText(body.detail, body.message))
      else Succeeded(body)
  }

  /** A reply succeeds exactly when it is a 2xx reply with a JSON body, and
      then carries that body; every failure says why. */
  lemma ClassifyCases(reply: Reply)
    ensures Classify(reply).Succeeded? <==>
      reply.HttpReply? && Ok(reply.status) && reply.body.Json?
    ensures Classify(reply).Succeeded? ==> Classify(reply).data == reply.body
    ensures reply.HttpReply? && reply.status == 401 ==> Classify(reply) == Failed("Authentication required")
    ensures reply.HttpReply? && reply.status != 401 && !Ok(reply.status) && reply.body.Json? ==>
      Classify(reply) == Failed(ErrorText(reply.body.detail, reply.body.message)) && Classify(reply).error != ""
    ensures reply.NetworkError? ==> Classify(reply) == Failed(reply.message)
  {
  }

  /** The headers sent: the JSON content type, then the bearer header, then
      the caller's own headers, later ones overriding earlier ones. */
  function RequestHeaders(token: Option<string>, extra: map<string, string>): (r: map<string, string>)
    ensures r.Keys == {"Content-Type"} + AuthHeaders(token).Keys + extra.Keys
    ensures forall k :: k in extra ==> r[k] == extra[k]
  {
    map["Content-Type" := "application/json"] + AuthHeaders(token) + extra
  }

  /** Unless the caller overrides them, a request carries the JSON content
      type, and the bearer header exactly when there is a token. */
  lemma HeadersCarryToken(token: Option<string>, extra: map<string, string>)
    requires "Content-Type" !in extra && "Authorization" !in extra
    ensures RequestHeaders(token, extra)["Content-Type"] == "application/json"
    ensures "Authorization" in RequestHeaders(token, extra) <==> Truthy(token)
    ensures Truthy(token) ==> RequestHeaders(token, extra)["Authorization"] == "Bearer " + token.value
  {
  }

  /** `makeRequest`: the headers it sends and what it returns for the
      reply; a 401 logs the session out first. */
  method MakeRequest(session: Session, extra: map<string, string>, reply: Reply)
      returns (sent: map<string, string>, r: ApiResponse)
    modifies session
    ensures sent == RequestHeaders(old(session.Token()), extra)
    ensures r == Classify(reply)
    ensures reply.HttpReply? && reply.status == 401 ==>
      session.storage == old(session.storage) - {TokenKey, UserKey} && !session.IsAuthenticated()
    ensures !(reply.HttpReply? && reply.status == 401) ==> session.storage == old(session.storage)
  {
    sent := RequestHeaders(session.Token(), extra);
    if reply.HttpReply? && reply.status == 401 {
      session.Logout();
    }
    r := Classify(reply);
  }

  // ---------------------------------------------------------------------
  // The job listing's query string

  datatype JobsFilter = JobsFilter(skip: Option<int>, limit: Option<int>, status: Option<string>)

  /** The position each parameter name takes in the query. */
  function ParamRank(name: string): nat
  {
    if name == "skip" then 0 else if name == "limit" then 1 else if name == "status" then 2 else 3
  }

  /** `URLSearchParams`: the name/value pairs appended so far. */
  class SearchParams {
    var pairs: seq<(string, string)>

    constructor ()
      ensures pairs == []
    {
      pairs := [];
    }

    method Append(name: string, value: string)
      modifies this
      ensures pairs == old(pairs) + [(name, value)]
    {
      pairs := pairs + [(name, value)];
    }
  }

  /** One `name=value` piece of the query, both sides form-encoded
      (a space as '+', other reserved characters as %XX). */
  function QueryPiece(p: (string, string)): string
  {
    FormEncode(p.0) + "=" + FormEncode(p.1)
  }

  function QueryPieces(pairs: seq<(string, string)>): (r: seq<string>)
    ensures |r| == |pairs|
    ensures forall i :: 0 <= i < |r| ==> r[i] == QueryPiece(pairs[i])
  {
    seq(|pairs|, i requires 0 <= i < |pairs| => QueryPiece(pairs[i]))
  }

  /** `searchParams.toString()`: the pieces joined by '&'; empty exactly
      when there are no pairs. */
  function QueryString(pairs: seq<(string, string)>): (r: string)
    ensures r == "" <==> pairs == []
  {
    QueryStringEmpty(pairs);
    Join(QueryPieces(pairs), "&")
  }

  /** Reading a query string back into its pairs. */
  function ParsePiece(piece: string): Option<(string, string)>
  {
    var sides := Split(piece, '=');
    if |sides| != 2 then None
    else
      var name, value := FormDecode(sides[0]), FormDecode(sides[1]);
      if name.Some? && value.Some? then Some((name.value, value.value)) else None
  }

  function ParsePieces(pieces: seq<string>): (r: Option<seq<(string, string)>>)
    ensures r.Some? ==> |r.value| == |pieces|
  {
    if pieces == [] then Some([])
    else
      var first, rest := ParsePiece(pieces[0]), ParsePieces(pieces[1..]);
      if first.Some? && rest.Some? then Some([first.value] + rest.value) else None
  }

  function ParseQuery(q: string): Option<seq<(string, string)>>
  {
    if q == "" then Some([]) else ParsePieces(Split(q, '&'))
  }

  lemma {:induction false} EncodedAvoids(s: string, c: char)
    requires !InFormAlphabet(c)
    ensures c !in FormEncode(s)
  {
    FormEncodeAlphabet(s);
  }

  lemma PieceHasNoSeparators(p: (string, string))
    ensures '&' !in QueryPiece(p)
    ensures Split(QueryPiece(p), '=') == [FormEncode(p.0), FormEncode(p.1)]
  {
    var a, b := FormEncode(p.0), FormEncode(p.1);
    EncodedAvoids(p.0, '&');
    EncodedAvoids(p.1, '&');
    EncodedAvoids(p.0, '=');
    EncodedAvoids(p.1, '=');
    assert QueryPiece(p) == a + "=" + b;
    assert Join([a, b], ['=']) == QueryPiece(p);
    SplitJoinChar([a, b], '=');
  }

  lemma {:induction false} ParsePiecesOf(pairs: seq<(string, string)>)
    ensures ParsePieces(QueryPieces(pairs)) == Some(pairs)
  {
    if pairs != [] {
      var ps := QueryPieces(pairs);
      assert ps[1..] == QueryPieces(pairs[1..]);
      PieceHasNoSeparators(pairs[0]);
      FormDecodeEncode(pairs[0].0);
      FormDecodeEncode(pairs[0].1);
      ParsePiecesOf(pairs[1..]);
      assert [pairs[0]] + pairs[1..] == pairs;
    }
  }

  lemma {:induction false} JoinStartsWith(xs: seq<string>, sep: string)
    requires |xs| >= 1
    ensures |Join(xs, sep)| >= |xs[0]|
  {
  }

  /** The joined pieces are empty exactly when there are no pairs. */
  lemma {:induction false} QueryStringEmpty(pairs: seq<(string, string)>)
    ensures Join(QueryPieces(pairs), "&") == "" <==> pairs == []
  {
    if pairs != [] {
      JoinStartsWith(QueryPieces(pairs), "&");
      assert |QueryPiece(pairs[0])| >= 1;
    }
  }

  /** A query string reads back as the pairs that made it. */
  lemma {:induction false} ParseQueryString(pairs: seq<(string, string)>)
    ensures ParseQuery(QueryString(pairs)) == Some(pairs)
  {
    var ps := QueryPieces(pairs);
    if pairs == [] {
      assert QueryString(pairs) == "";
    } else {
      forall k | 0 <= k < |ps|
        ensures '&' !in ps[k]
      {
        PieceHasNoSeparators(pairs[k]);
      }
      assert "&" == ['&'];
      SplitJoinChar(ps, '&');
      ParsePiecesOf(pairs);
    }
  }

  /** The pairs `getJobs` appends: skip, limit and status, in that order,
      each only when given (an empty status counts as not given). */
  function JobsQueryPairs(f: JobsFilter): seq<(string, string)>
  {
    SkipPair(f) + LimitPair(f) + StatusPair(f)
  }

  /** Skip, limit and status appear in that order, each exactly when it is
      given, with its value, and nothing else appears. */
  lemma JobsQueryPairsOrder(f: JobsFilter)
    ensures var r := JobsQueryPairs(f);
      && |r| <= 3
      && (forall i, j :: 0 <= i < j < |r| ==> ParamRank(r[i].0) < ParamRank(r[j].0))
      && (forall v :: ("skip", v) in r <==> f.skip.Some? && v == IntToString(f.skip.value))
      && (forall v :: ("limit", v) in r <==> f.limit.Some? && v == IntToString(f.limit.value))
      && (forall v :: ("status", v) in r <==> Truthy(f.status) && v == f.status.value)
      && (forall i :: 0 <= i < |r| ==> r[i].0 in {"skip", "limit", "status"})
  {
  }

  function SkipPair(f: JobsFilter): seq<(string, string)>
  {
    if f.skip.Some? then [("skip", IntToString(f.skip.value))] else []
  }

  function LimitPair(f: JobsFilter): seq<(string, string)>
  {
    if f.limit.Some? then [("limit", IntToString(f.limit.value))] else []
  }

  function StatusPair(f: JobsFilter): seq<(string, string)>
  {
    if Truthy(f.status) then [("status", f.status.value)] else []
  }

  /** The path `getJobs` requests: '?' and the query only when the query
      is not empty. */
  function JobsPathOf(pairs: seq<(string, string)>): string
  {
    var q := QueryString(pairs);
    "/jobs" + (if q != "" then "?" + q else "")
  }

  /** `getJobs`: builds the search parameters step by step. */
  method GetJobsPath(f: JobsFilter) returns (path: string)
    ensures path == JobsPathOf(JobsQueryPairs(f))
  {
    var search := new SearchParams();
    if f.skip.Some? {
      search.Append("skip", IntToString(f.skip.value));
    }
    assert search.pairs == SkipPair(f);
    if f.limit.Some? {
      search.Append("limit", IntToString(f.limit.value));
    }
    assert search.pairs == SkipPair(f) + LimitPair(f);
    if f.status.Some? && f.status.value != "" {
      search.Append("status", f.status.value);
    }
    assert search.pairs == SkipPair(f) + LimitPair(f) + StatusPair(f);
    var query := QueryString(search.pairs);
    path := "/jobs" + (if query != "" then "?" + query else "");
  }

  /** With no filter the path is bare; otherwise it is "/jobs?" followed by
      a query that reads back as exactly the appended pairs. */
  lemma JobsPathReadsBack(f: JobsFilter)
    ensures JobsQueryPairs(f) == [] <==> f.skip.None? && f.limit.None? && !Truthy(f.status)
    ensures JobsQueryPairs(f) == [] ==> JobsPathOf(JobsQueryPairs(f)) == "/jobs"
    ensures JobsQueryPairs(f) != [] ==>
      var q := QueryString(JobsQueryPairs(f));
      JobsPathOf(JobsQueryPairs(f)) == "/jobs?" + q && ParseQuery(q) == Some(JobsQueryPairs(f))
  {
    var pairs := JobsQueryPairs(f);
    ParseQueryString(pairs);
  }

  // ---------------------------------------------------------------------
  // Request bodies

  /** The body of a review: `{action, reason: reason || ''}`. */
  datatype ReviewBody = ReviewBody(action: string, reason: string)

  datatype Request<B> = Request(verb: string, path: string, body: B)

  /** `reviewApproval`: always sends a reason, the empty text when none
      is given. */
  function ReviewApprovalRequest(approvalId: string, act: ReviewAction, reason: Option<string>): (r: Request<ReviewBody>)
    ensures r.verb == "POST" && r.path == "/approvals/" + approvalId + "/review"
    ensures r.body.action == ActionName(act)
    ensures r.body.reason == "" <==> !Truthy(reason)
    ensures Truthy(reason) ==> r.body.reason == reason.value
  {
    Request("POST", "/approvals/" + approvalId + "/review", ReviewBody(ActionName(act), if Truthy(reason) then reason.value else ""))
  }

  /** A value of the execute body. */
  datatype JsonValue = JText(text: string) | JFlag(flag: bool) | JObject(fields: map<string, string>)

  /** What the caller passes to `executeAgent`, everything but the agent's
      name; a field left out is undefined. */
  datatype ExecutionRequest = ExecutionRequest(task: string, parameters: Option<map<string, string>>,
                                               priority: Option<string>, requiresApproval: Option<bool>)

  /** The fields of `{agent_name, ...request}` once `JSON.stringify` has
      dropped the undefined ones. */
  function ExecuteBody(agentName: string, req: ExecutionRequest): (r: map<string, JsonValue>)
    ensures "agent_name" in r && r["agent_name"] == JText(agentName)
    ensures "task" in r && r["task"] == JText(req.task)
    ensures "parameters" in r <==> req.parameters.Some?
    ensures "priority" in r <==> req.priority.Some?
    ensures "requires_approval" in r <==> req.requiresApproval.Some?
    ensures req.parameters.Some? ==> r["parameters"] == JObject(req.parameters.value)
    ensures req.priority.Some? ==> r["priority"] == JText(req.priority.value)
    ensures req.requiresApproval.Some? ==> r["requires_approval"] == JFlag(req.requiresApproval.value)
    ensures r.Keys <= {"agent_name", "task", "parameters", "priority", "requires_approval"}
  {
    var base := map["agent_name" := JText(agentName), "task" := JText(req.task)];
    var withParams := if req.parameters.Some? then base["parameters" := JObject(req.parameters.value)] else base;
    var withPriority := if req.priority.Some? then withParams["priority" := JText(req.priority.value)] else withParams;
    if req.requiresApproval.Some? then withPriority["requires_approval" := JFlag(req.requiresApproval.value)] else withPriority
  }

  /** `executeAgent`. */
  function ExecuteAgentRequest(agentName: string, req: ExecutionRequest): (r: Request<map<string, JsonValue>>)
    ensures r.verb == "POST" && r.path == "/agents/" + agentName + "/execute"
    ensures "agent_name" in r.body && r.body["agent_name"] == JText(agentName)
  {
    Request("POST", "/agents/" + agentName + "/execute", ExecuteBody(agentName, req))
  }

  // ---------------------------------------------------------------------
  // CSV export

  datatype Job = Job(jobId: string, status: string, createdAt: string, startedAt: Option<string>,
                     completedAt: Option<string>, result: Option<string>, errorMessage: Option<string>,
                     approvalStatus: string, approvedBy: Option<string>, agentName: Option<string>)

  const CsvHeaders: seq<string> := ["Job ID", "Status", "Agent Name", "Created At", "Started At",
                                    "Completed At", "Approval Status", "Approved By"]

  /** `x || ''` on an optional text. */
  function OrEmpty(o: Option<string>): (r: string)
    ensures o.None? ==> r == ""
    ensures o.Some? ==> r == o.value
  {
    if o.Some? then o.value else ""
  }

  /** The eight exported columns of a job, missing ones as empty text. */
  function JobFields(job: Job): (r: seq<string>)
    ensures |r| == |CsvHeaders|
  {
    [job.jobId, job.status, OrEmpty(job.agentName), job.createdAt,
     OrEmpty(job.startedAt), OrEmpty(job.completedAt), job.approvalStatus, OrEmpty(job.approvedBy)]
  }

  /** A field between double quotes, with each quote inside written twice
      (section 2, rule 7 of RFC 4180). */
  function DoubleQuotes(s: string): (r: string)
    ensures |r| >= |s|
  {
    if s == [] then []
    else (if s[0] == '"' then "\"\"" else [s[0]]) + DoubleQuotes(s[1..])
  }

  function QuoteField(field: string): string
  {
    "\"" + DoubleQuotes(field) + "\""
  }

  function QuoteAll(fields: seq<string>): (r: seq<string>)
    ensures |r| == |fields|
    ensures forall i :: 0 <= i < |r| ==> r[i] == QuoteField(fields[i])
  {
    seq(|fields|, i requires 0 <= i < |fields| => QuoteField(fields[i]))
  }

  /** One CSV record: the quoted fields joined by commas. */
  function CsvRecord(fields: seq<string>): string
  {
    Join(QuoteAll(fields), ",")
  }

  function JobRecords(jobs: seq<Job>): (r: seq<string>)
    ensures |r| == |jobs|
    ensures forall i :: 0 <= i < |r| ==> r[i] == CsvRecord(JobFields(jobs[i]))
  {
    seq(|jobs|, i requires 0 <= i < |jobs| => CsvRecord(JobFields(jobs[i])))
  }

  /** `convertJobsToCSV`, with embedded quotes doubled: the header record
      and one record per job, separated by newlines. */
  function JobsToCsv(jobs: seq<Job>): string
  {
    CsvText(CsvHeaders, jobs)
  }

  function CsvText(header: seq<string>, jobs: seq<Job>): string
  {
    Join([CsvRecord(header)] + JobRecords(jobs), "\n")
  }

  // The export as the source writes it: quotes around each field, nothing
  // done about quotes inside it.

  function QuoteFieldAsWritten(field: string): string
  {
    "\"" + field + "\""
  }

  function QuoteAllAsWritten(fields: seq<string>): (r: seq<string>)
    ensures |r| == |fields|
    ensures forall i :: 0 <= i < |r| ==> r[i] == QuoteFieldAsWritten(fields[i])
  {
    seq(|fields|, i requires 0 <= i < |fields| => QuoteFieldAsWritten(fields[i]))
  }

  function CsvRecordAsWritten(fields: seq<string>): string
  {
    Join(QuoteAllAsWritten(fields), ",")
  }

  /** Reading a CSV record as section 2 of RFC 4180 defines it. The rest of
      a quoted field after its opening quote: a doubled quote stands for one
      quote, a single quote closes the field. */
  function ReadQuoted(s: string): (r: Option<(string, string)>)
    ensures r.Some? ==> |r.value.1| < |s|
  {
    if s == [] then None
    else if s[0] == '"' then
      if |s| >= 2 && s[1] == '"' then
        match ReadQuoted(s[2..])
        case None => None
        case Some((f, rest)) => Some(("\"" + f, rest))
      else Some(("", s[1..]))
    else
      match ReadQuoted(s[1..])
      case None => None
      case Some((f, rest)) => Some(([s[0]] + f, rest))
  }

  /** A record of quoted fields separated by commas; None when the text is
      not one. */
  function ReadRecord(s: string): (r: Option<seq<string>>)
    ensures r.Some? ==> |r.value| >= 1
    decreases |s|
  {
    if s == [] || s[0] != '"' then None
    else
      match ReadQuoted(s[1..])
      case None => None
      case Some((f, rest)) =>
        if rest == [] then Some([f])
        else if rest[0] != ',' then None
        else
          match ReadRecord(rest[1..])
          case None => None
          case Some(fs) => Some([f] + fs)
  }

  lemma {:induction false} ReadQuotedField(field: string, tail: string)
    requires tail == [] || tail[0] != '"'
    ensures ReadQuoted(DoubleQuotes(field) + "\"" + tail) == Some((field, tail))
  {
    if field != [] {
      var c, f := field[0], field[1..];
      ReadQuotedField(f, tail);
      var s := DoubleQuotes(field) + "\"" + tail;
      if c == '"' {
        assert s == "\"\"" + (DoubleQuotes(f) + "\"" + tail);
        assert s[2..] == DoubleQuotes(f) + "\"" + tail;
        assert "\"" + f == field;
      } else {
        assert s == [c] + (DoubleQuotes(f) + "\"" + tail);
        assert s[1..] == DoubleQuotes(f) + "\"" + tail;
        assert [c] + f == field;
      }
    } else {
      var s := DoubleQuotes(field) + "\"" + tail;
      assert s == "\"" + tail;
    }
  }

  /** A record reads back as its fields, whatever they hold. */
  lemma {:induction false} ReadCsvRecord(fields: seq<string>)
    requires |fields| >= 1
    ensures ReadRecord(CsvRecord(fields)) == Some(fields)
  {
    var q := QuoteAll(fields);
    if |fields| == 1 {
      var s := CsvRecord(fields);
      assert s == "\"" + (DoubleQuotes(fields[0]) + "\"" + "");
      assert s[1..] == DoubleQuotes(fields[0]) + "\"" + "";
      assert s[0] == '"';
      ReadQuotedField(fields[0], "");
      assert fields == [fields[0]];
    } else {
      var rest := CsvRecord(fields[1..]);
      assert q[1..] == QuoteAll(fields[1..]);
      assert CsvRecord(fields) == q[0] + "," + rest;
      assert CsvRecord(fields) == "\"" + (DoubleQuotes(fields[0]) + "\"" + ("," + rest));
      var s := CsvRecord(fields);
      assert s[1..] == DoubleQuotes(fields[0]) + "\"" + ("," + rest);
      ReadQuotedField(fields[0], "," + rest);
      ReadCsvRecord(fields[1..]);
      assert [fields[0]] + fields[1..] == fields;
    }
  }

  lemma {:induction false} DoubleQuotesKeeps(s: string, c: char)
    requires c != '"'
    ensures c in DoubleQuotes(s) <==> c in s
  {
    if s != [] {
      DoubleQuotesKeeps(s[1..], c);
      assert s == [s[0]] + s[1..];
    }
  }

  lemma {:induction false} DoubleQuotesIdentity(s: string)
    requires '"' !in s
    ensures DoubleQuotes(s) == s
  {
    if s != [] {
      DoubleQuotesIdentity(s[1..]);
      assert s == [s[0]] + s[1..];
    }
  }

  lemma {:induction false} JoinAvoids(xs: seq<string>, sep: string, c: char)
    requires c !in sep
    requires forall k :: 0 <= k < |xs| ==> c !in xs[k]
    ensures c !in Join(xs, sep)
  {
    if |xs| > 1 {
      JoinAvoids(xs[1..], sep, c);
    }
  }

  lemma {:induction false} RecordAvoids(fields: seq<string>, c: char)
    requires c != '"' && c != ','
    requires forall k :: 0 <= k < |fields| ==> c !in fields[k]
    ensures c !in CsvRecord(fields)
  {
    var q := QuoteAll(fields);
    forall k | 0 <= k < |q|
      ensures c !in q[k]
    {
      DoubleQuotesKeeps(fields[k], c);
    }
    JoinAvoids(q, ",", c);
  }

  /** A job whose columns hold no line break. */
  predicate SingleLine(job: Job)
  {
    forall k :: 0 <= k < |JobFields(job)| ==> '\n' !in JobFields(job)[k]
  }

  lemma HeaderSingleLine()
    ensures '\n' !in CsvRecord(CsvHeaders)
  {
    var h := CsvHeaders;
    assert forall k :: 0 <= k < |h| ==> '\n' !in h[k] by {
      assert '\n' !in h[0] && '\n' !in h[1] && '\n' !in h[2] && '\n' !in h[3];
      assert '\n' !in h[4] && '\n' !in h[5] && '\n' !in h[6] && '\n' !in h[7];
    }
    RecordAvoids(h, '\n');
  }

  lemma JobLineAvoids(job: Job)
    requires SingleLine(job)
    ensures '\n' !in CsvRecord(JobFields(job))
  {
    RecordAvoids(JobFields(job), '\n');
  }

  lemma {:induction false} CsvLines(header: seq<string>, jobs: seq<Job>)
    requires '\n' !in CsvRecord(header)
    requires forall i :: 0 <= i < |jobs| ==> SingleLine(jobs[i])
    ensures Split(CsvText(header, jobs), '\n') == [CsvRecord(header)] + JobRecords(jobs)
  {
    var lines := [CsvRecord(header)] + JobRecords(jobs);
    forall k | 1 <= k < |lines|
      ensures '\n' !in lines[k]
    {
      JobLineAvoids(jobs[k - 1]);
    }
    SplitJoinLines(lines);
  }

  /** The export has the header line and then one line per job, in order;
      each line reads back as the header or as that job's eight columns. */
  lemma {:induction false} CsvReadsBack(jobs: seq<Job>)
    requires forall i :: 0 <= i < |jobs| ==> SingleLine(jobs[i])
    ensures |Split(JobsToCsv(jobs), '\n')| == |jobs| + 1
    ensures ReadRecord(Split(JobsToCsv(jobs), '\n')[0]) == Some(CsvHeaders)
    ensures forall i :: 0 <= i < |jobs| ==>
      ReadRecord(Split(JobsToCsv(jobs), '\n')[i + 1]) == Some(JobFields(jobs[i]))
  {
    var lines := [CsvRecord(CsvHeaders)] + JobRecords(jobs);
    HeaderSingleLine();
    CsvLines(CsvHeaders, jobs);
    assert Split(JobsToCsv(jobs), '\n') == lines;
    ReadCsvRecord(CsvHeaders);
    forall i | 0 <= i < |jobs|
      ensures ReadRecord(lines[i + 1]) == Some(JobFields(jobs[i]))
    {
      assert lines[i + 1] == CsvRecord(JobFields(jobs[i]));
      ReadCsvRecord(JobFields(jobs[i]));
    }
  }

  /** Without quotes in the fields the record as written is the escaped
      one, so it reads back too. */
  lemma {:induction false} AsWrittenAgreesWithoutQuotes(fields: seq<string>)
    requires forall k :: 0 <= k < |fields| ==> '"' !in fields[k]
    ensures CsvRecordAsWritten(fields) == CsvRecord(fields)
  {
    var a := QuoteAllAsWritten(fields);
    forall k | 0 <= k < |fields|
      ensures a[k] == QuoteAll(fields)[k]
    {
      DoubleQuotesIdentity(fields[k]);
    }
    assert a == QuoteAll(fields);
  }

  /** A job id holding a quote: the record as written is not a CSV record,
      as the closing quote comes after the field's own quote. */
  lemma EmbeddedQuoteBreaksRecord()
    ensures CsvRecordAsWritten(["a\"b"]) == "\"a\"b\""
    ensures ReadRecord(CsvRecordAsWritten(["a\"b"])) == None
    ensures ReadRecord(CsvRecord(["a\"b"])) == Some(["a\"b"])
  {
    var a := QuoteAllAsWritten(["a\"b"]);
    assert a[0] == "\"a\"b\"";
    assert a == ["\"a\"b\""];
    var s := "\"a\"b\"";
    var t := s[1..];
    assert t == "a\"b\"" && t[0] == 'a';
    var u := t[1..];
    assert u == "\"b\"" && u[0] == '"' && u[1] == 'b';
    assert ReadQuoted(u) == Some(("", u[1..]));
    assert u[1..] == "b\"";
    assert [t[0]] + "" == "a";
    assert ReadQuoted(t) == Some(("a", "b\""));
    ReadCsvRecord(["a\"b"]);
  }
}
