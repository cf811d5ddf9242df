// The job-management page of the operations console: the status and
// agent filters, pagination, the per-status counts behind the tabs, the
// row actions, the elapsed-time text and the auto-refresh rule
// (enterprise-ai-strategy/operational-layer/web-ui/src/components/JobsPage.tsx).

module JobsPage {
  import opened Common

  datatype JobStatus = Pending | Running | Completed | Failed | Cancelled

  function StatusName(s: JobStatus): string
  {
    match s
    case Pending => "pending"
    case Running => "running"
    case Completed => "completed"
    case Failed => "failed"
    case Cancelled => "cancelled"
  }

  /** The fields of a job that the page logic reads; times are in
      milliseconds. */
  datatype Job = Job(
    id: string, agentName: string, status: JobStatus,
    startedAt: Option<int>, completedAt: Option<int>, progress: Option<int>)

  /** The two select boxes; "all" switches a filter off. */
  datatype Filters = Filters(status: string, agent: string)

  const DefaultFilters := Filters("all", "all")

  // ---------------------------------------------------------------------
  // Filtering and pagination

  function HasStatusName(name: string): Job -> bool
  {
    (j: Job) => StatusName(j.status) == name
  }

  function HasAgent(agent: string): Job -> bool
  {
    (j: Job) => j.agentName == agent
  }

  /** A job the filters let through. */
  predicate MatchesFilters(f: Filters, j: Job)
  {
    (f.status == "all" || StatusName(j.status) == f.status)
    && (f.agent == "all" || j.agentName == f.agent)
  }

  function Matching(f: Filters): Job -> bool
  {
    (j: Job) => MatchesFilters(f, j)
  }

  /** `loadJobs`: the status filter, then the agent filter, each skipped
      when set to "all". */
  function LoadJobs(jobs: seq<Job>, f: Filters): (r: seq<Job>)
  {
    var byStatus := if f.status != "all" then Filter(jobs, HasStatusName(f.status)) else jobs;
    if f.agent != "all" then Filter(byStatus, HasAgent(f.agent)) else byStatus
  }

  /** The loaded list is exactly the jobs both filters accept, in their
      original order. */
  lemma LoadJobsKeepsMatching(jobs: seq<Job>, f: Filters)
    ensures LoadJobs(jobs, f) == Filter(jobs, Matching(f))
  {
    if f.status != "all" && f.agent != "all" {
      FilterFilter(jobs, HasStatusName(f.status), HasAgent(f.agent), Matching(f));
    } else if f.status != "all" {
      FilterCongruent(jobs, HasStatusName(f.status), Matching(f));
    } else if f.agent != "all" {
      FilterCongruent(jobs, HasAgent(f.agent), Matching(f));
    } else {
      FilterAll(jobs, Matching(f));
    }
  }

  /** With both filters at "all" every job is listed. */
  lemma DefaultFiltersKeepAll(jobs: seq<Job>)
    ensures LoadJobs(jobs, DefaultFilters) == jobs
  {
  }

  // ---------------------------------------------------------------------
  // Counts and tabs

  function HasStatus(s: JobStatus): Job -> bool
  {
    (j: Job) => j.status == s
  }

  datatype JobCounts = JobCounts(all: nat, running: nat, completed: nat, failed: nat, pending: nat)

  /** `jobCounts`. */
  function CountJobs(jobs: seq<Job>): (r: JobCounts)
    ensures r.all == |jobs|
  {
    JobCounts(|jobs|, Count(jobs, HasStatus(Running)), Count(jobs, HasStatus(Completed)),
              Count(jobs, HasStatus(Failed)), Count(jobs, HasStatus(Pending)))
  }

  /** The four status counts leave out only the cancelled jobs. */
  lemma {:induction false} CountsAccount(jobs: seq<Job>)
    ensures var c := CountJobs(jobs);
      c.running + c.completed + c.failed + c.pending + Count(jobs, HasStatus(Cancelled)) == c.all
  {
    if jobs != [] {
      CountsAccount(jobs[1..]);
    }
  }

  const TabValues := ["all", "running", "completed", "failed", "pending"]

  function InTab(tab: nat): Job -> bool
    requires tab < |TabValues|
  {
    (j: Job) => tab == 0 || StatusName(j.status) == TabValues[tab]
  }

  /** The rows shown under tab `tab`. */
  function TabRows(jobs: seq<Job>, tab: nat): (r: seq<Job>)
    requires tab < |TabValues|
  {
    Filter(jobs, InTab(tab))
  }

  /** The number shown in the label of tab `tab`. */
  function TabCount(c: JobCounts, tab: nat): nat
    requires tab < |TabValues|
  {
    match tab
    case 0 => c.all
    case 1 => c.running
    case 2 => c.completed
    case 3 => c.failed
    case _ => c.pending
  }

  /** Tab 0 lists every job; any other tab lists exactly the jobs of its
      status, and as many of them as its label says. */
  lemma TabRowsAgreeWithLabels(jobs: seq<Job>, tab: nat)
    requires tab < |TabValues|
    ensures tab == 0 ==> TabRows(jobs, tab) == jobs
    ensures tab > 0 ==> forall j :: j in TabRows(jobs, tab) <==> j in jobs && StatusName(j.status) == TabValues[tab]
    ensures |TabRows(jobs, tab)| == TabCount(CountJobs(jobs), tab)
  {
    var st := match tab
      case 0 => Running
      case 1 => Running
      case 2 => Completed
      case 3 => Failed
      case _ => Pending;
    if tab == 0 {
      FilterAll(jobs, InTab(tab));
    } else {
      FilterCongruent(jobs, InTab(tab), HasStatus(st));
    }
  }

  // ---------------------------------------------------------------------
  // Row actions

  /** The cancel button. */
  predicate CanCancel(j: Job) { j.status == Running }

  /** The retry button. */
  predicate CanRetry(j: Job) { j.status == Failed }

  /** The progress bar. */
  predicate ShowsProgress(j: Job) { j.status == Running && j.progress.Some? }

  /** The duration cell is filled only for a started job. */
  predicate ShowsDuration(j: Job) { j.startedAt.Some? }

  /** No row offers both cancel and retry, and a progress bar appears only
      beside a cancel button. */
  lemma RowActionsExclusive(j: Job)
    ensures !(CanCancel(j) && CanRetry(j))
    ensures ShowsProgress(j) ==> CanCancel(j)
  {
  }

  // ---------------------------------------------------------------------
  // formatDuration

  /** Whole hours, minutes and seconds of an elapsed time, with the
      JavaScript integer operations the page uses. */
  function Hours(elapsedMs: int): int { (elapsedMs / 1000) / 3600 }
  function Minutes(elapsedMs: int): int { JsRem(elapsedMs / 1000, 3600) / 60 }
  function Seconds(elapsedMs: int): int { JsRem(elapsedMs / 1000, 60) }

  /** A forward elapsed time splits into hours, minutes under 60 and
      seconds under 60 that add back up to its whole seconds. */
  lemma DurationParts(elapsedMs: int)
    requires elapsedMs >= 0
    ensures Hours(elapsedMs) * 3600 + Minutes(elapsedMs) * 60 + Seconds(elapsedMs) == elapsedMs / 1000
    ensures 0 <= Minutes(elapsedMs) < 60 && 0 <= Seconds(elapsedMs) < 60 && Hours(elapsedMs) >= 0
  {
    var d := elapsedMs / 1000;
    assert Minutes(elapsedMs) == (d % 3600) / 60 && Seconds(elapsedMs) == d % 60;
    SecondsSplit(d);
  }

  /** Whole seconds as hours, minutes and seconds. */
  lemma SecondsSplit(d: nat)
    ensures (d / 3600) * 3600 + ((d % 3600) / 60) * 60 + d % 60 == d
    ensures 0 <= (d % 3600) / 60 < 60 && 0 <= d % 60 < 60
  {
    var h, r := d / 3600, d % 3600;
    assert d == h * 3600 + r;
    var m, s := r / 60, r % 60;
    assert r == m * 60 + s;
    assert d == (h * 60 + m) * 60 + s;
    RemainderOfSixties(h * 60 + m, s);
  }

  lemma RemainderOfSixties(k: nat, s: nat)
    requires s < 60
    ensures (k * 60 + s) % 60 == s
  {
    var q, r := (k * 60 + s) / 60, (k * 60 + s) % 60;
    assert (q - k) * 60 == s - r && -60 < s - r < 60;
    assert q == k;
  }

  /** The text for given hours, minutes and seconds: the leading units
      that are zero are left out. */
  function DurationText(h: int, m: int, s: int): string
  {
    if h > 0 then IntToString(h) + "h " + (IntToString(m) + "m " + IntToString(s) + "s")
    else if m > 0 then IntToString(m) + "m " + IntToString(s) + "s"
    else IntToString(s) + "s"
  }

  /** `formatDuration` for the elapsed time `elapsedMs` (the end, or now,
      minus the start). */
  function FormatDuration(elapsedMs: int): string
  {
    DurationText(Hours(elapsedMs), Minutes(elapsedMs), Seconds(elapsedMs))
  }

  /** Seconds per unit letter. */
  function UnitSeconds(c: char): Option<nat>
  {
    if c == 'h' then Some(3600) else if c == 'm' then Some(60) else if c == 's' then Some(1) else None
  }

  predicate AllDigits(s: string)
  {
    forall i :: 0 <= i < |s| ==> '0' <= s[i] <= '9'
  }

  /** The seconds one part such as "12m" stands for. */
  function PartSeconds(p: string): Option<nat>
  {
    if |p| >= 2 && AllDigits(p[..|p| - 1]) && UnitSeconds(p[|p| - 1]).Some? then
      Some(DigitsValue(p[..|p| - 1]) * UnitSeconds(p[|p| - 1]).value)
    else None
  }

  function PartsSeconds(parts: seq<string>): Option<nat>
  {
    if parts == [] then Some(0)
    else
      var first, rest := PartSeconds(parts[0]), PartsSeconds(parts[1..]);
      if first.Some? && rest.Some? then Some(first.value + rest.value) else None
  }

  /** Reads a duration text back into whole seconds. */
  function ReadDuration(text: string): Option<nat>
  {
    PartsSeconds(Split(text, ' '))
  }

  /** "<digits><u>" for a unit letter `u` is one part worth the digits'
      value in that unit. */
  lemma DigitsPart(ds: string, u: char)
    requires ds != [] && AllDigits(ds) && UnitSeconds(u).Some?
    ensures PartSeconds(ds + [u]) == Some(DigitsValue(ds) * UnitSeconds(u).value)
    ensures ' ' !in ds + [u]
  {
    var p := ds + [u];
    assert p[..|p| - 1] == ds;
    forall i | 0 <= i < |p|
      ensures p[i] != ' '
    {
      if i < |p| - 1 {
        assert p[i] == ds[i];
      }
    }
  }

  /** A single part reads as its own seconds. */
  lemma ReadOnePart(p: string, a: nat)
    requires PartSeconds(p) == Some(a) && ' ' !in p
    ensures ReadDuration(p) == Some(a)
  {
    SplitNoSeparator(p, ' ');
    assert ReadDuration(p) == PartsSeconds([p]);
    assert [p][1..] == [];
    assert PartsSeconds([p][1..]) == Some(0);
    assert [p][0] == p;
  }

  /** A part, a space and a readable rest read as the sum. */
  lemma ReadPartThen(p: string, rest: string, a: nat, b: nat)
    requires PartSeconds(p) == Some(a) && ' ' !in p
    requires ReadDuration(rest) == Some(b)
    ensures ReadDuration(p + [' '] + rest) == Some(a + b)
  {
    SplitAtSeparator(p, rest, ' ');
    var parts := [p] + Split(rest, ' ');
    assert ReadDuration(p + [' '] + rest) == PartsSeconds(parts);
    assert parts[0] == p;
    assert parts[1..] == Split(rest, ' ');
  }

  /** "<s>s" reads as `s` seconds. */
  lemma ReadSeconds(ss: string, s: nat)
    requires ss != [] && AllDigits(ss) && DigitsValue(ss) == s
    ensures ReadDuration(ss + "s") == Some(s)
  {
    DigitsPart(ss, 's');
    ReadOnePart(ss + ['s'], s);
  }

  /** "<m>m <s>s" reads as `m` minutes and `s` seconds. */
  lemma ReadMinutes(ms: string, ss: string, m: nat, s: nat)
    requires ms != [] && AllDigits(ms) && DigitsValue(ms) == m
    requires ss != [] && AllDigits(ss) && DigitsValue(ss) == s
    ensures ReadDuration(ms + "m " + ss + "s") == Some(m * 60 + s)
  {
    DigitsPart(ms, 'm');
    ReadSeconds(ss, s);
    assert ms + "m " + ss + "s" == (ms + ['m']) + [' '] + (ss + "s");
    ReadPartThen(ms + ['m'], ss + "s", m * 60, s);
  }

  /** "<h>h <m>m <s>s" reads as `h` hours, `m` minutes and `s` seconds. */
  lemma ReadHours(hs: string, ms: string, ss: string, h: nat, m: nat, s: nat)
    requires hs != [] && AllDigits(hs) && DigitsValue(hs) == h
    requires ms != [] && AllDigits(ms) && DigitsValue(ms) == m
    requires ss != [] && AllDigits(ss) && DigitsValue(ss) == s
    ensures ReadDuration(hs + "h " + (ms + "m " + ss + "s")) == Some(h * 3600 + m * 60 + s)
  {
    var rest := ms + "m " + ss + "s";
    DigitsPart(hs, 'h');
    ReadMinutes(ms, ss, m, s);
    assert hs + "h " + rest == (hs + ['h']) + [' '] + rest;
    ReadPartThen(hs + ['h'], rest, h * 3600, m * 60 + s);
  }

  lemma DurationTextReads(h: nat, m: nat, s: nat)
    ensures ReadDuration(DurationText(h, m, s)) == Some(if h > 0 then h * 3600 + m * 60 + s else if m > 0 then m * 60 + s else s)
  {
    var hs, ms, ss := NatToString(h), NatToString(m), NatToString(s);
    NatToStringValue(h);
    NatToStringValue(m);
    NatToStringValue(s);
    if h > 0 {
      ReadHours(hs, ms, ss, h, m, s);
    } else if m > 0 {
      ReadMinutes(ms, ss, m, s);
    } else {
      ReadSeconds(ss, s);
    }
  }

  /** The text `formatDuration` writes for a forward elapsed time reads
      back as its whole seconds: no unit is lost or misread. */
  lemma FormatDurationReadsBack(elapsedMs: int)
    requires elapsedMs >= 0
    ensures ReadDuration(FormatDuration(elapsedMs)) == Some(elapsedMs / 1000)
  {
    DurationParts(elapsedMs);
    DurationTextReads(Hours(elapsedMs), Minutes(elapsedMs), Seconds(elapsedMs));
  }

  /** An hours text shows both the hours and the minutes letter. */
  lemma HoursTextLetters(hs: string, ms: string, ss: string)
    ensures 'h' in hs + "h " + (ms + "m " + ss + "s")
    ensures 'm' in hs + "h " + (ms + "m " + ss + "s")
  {
    var t := hs + "h " + (ms + "m " + ss + "s");
    assert t[|hs|] == 'h';
    assert t[|hs| + 2 + |ms|] == 'm';
  }

  /** The three shapes: hours, minutes and seconds once an hour has passed;
      minutes and seconds once a minute has; seconds alone before that. */
  lemma FormatDurationShape(elapsedMs: int)
    requires elapsedMs >= 0
    ensures elapsedMs >= 3600000 ==> 'h' in FormatDuration(elapsedMs) && 'm' in FormatDuration(elapsedMs)
    ensures elapsedMs < 60000 ==> FormatDuration(elapsedMs) == NatToString(elapsedMs / 1000) + "s"
  {
    DurationParts(elapsedMs);
    var h, m, s := Hours(elapsedMs), Minutes(elapsedMs), Seconds(elapsedMs);
    if elapsedMs >= 3600000 {
      assert h > 0;
      HoursTextLetters(IntToString(h), IntToString(m), IntToString(s));
    } else if elapsedMs < 60000 {
      assert h == 0 && m == 0 && s == elapsedMs / 1000;
    }
  }

  // ---------------------------------------------------------------------
  // Auto-refresh

  /** The refresh rule: reload while some job is still running or queued. */
  predicate ShouldRefresh(jobs: seq<Job>)
  {
    exists i :: 0 <= i < |jobs| && (jobs[i].status == Running || jobs[i].status == Pending)
  }

  /** The page's state. `timerJobs` is the job list the refresh timer's
      closure captured when the effect that installed it last ran, on the
      first render and on every change of filters or page. */
  datatype PageState = PageState(jobs: seq<Job>, filters: Filters, totalPages: nat, timerJobs: seq<Job>)

  /** The first render: no jobs yet, and the timer installed over them. */
  const Mounted := PageState([], DefaultFilters, 1, [])

  /** The timer of a state re-installed by the effect. */
  function Reinstall(s: PageState): (r: PageState)
    ensures r.timerJobs == s.jobs && r.jobs == s.jobs
  {
    s.(timerJobs := s.jobs)
  }

  /** A finished `loadJobs` over the jobs the service returned. */
  function Loaded(s: PageState, all: seq<Job>): (r: PageState)
    ensures r.jobs == Filter(all, Matching(s.filters))
    ensures r.totalPages == TotalPages(|r.jobs|)
    ensures r.filters == s.filters && r.timerJobs == s.timerJobs
  {
    LoadJobsKeepsMatching(all, s.filters);
    var listed := LoadJobs(all, s.filters);
    s.(jobs := listed, totalPages := TotalPages(|listed|))
  }

  /** The timer tick as written: it tests the list its closure captured. */
  predicate TickReloadsAsWritten(s: PageState)
  {
    ShouldRefresh(s.timerJobs)
  }

  /** As written, a page opened over a running job never refreshes itself:
      the timer still sees the empty list of the first render. */
  lemma StaleRefreshTimer(running: Job)
    requires running.status == Running
    ensures var s := Loaded(Mounted, [running]);
      ShouldRefresh(s.jobs) && !TickReloadsAsWritten(s)
  {
    var s := Loaded(Mounted, [running]);
    LoadJobsKeepsMatching([running], DefaultFilters);
    assert s.jobs == [running];
    assert s.jobs[0].status == Running;
  }

  /** The timer tick reading the current job list. */
  predicate TickReloads(s: PageState)
  {
    ShouldRefresh(s.jobs)
  }

  /** The corrected tick reloads exactly while a listed job is running or
      pending, whatever list the timer was installed over. */
  lemma TickReloadsIff(s: PageState)
    ensures TickReloads(s) <==> exists j :: j in s.jobs && (j.status == Running || j.status == Pending)
  {
    if TickReloads(s) {
      var i :| 0 <= i < |s.jobs| && (s.jobs[i].status == Running || s.jobs[i].status == Pending);
      assert s.jobs[i] in s.jobs;
    }
  }

  /** After a load, the corrected tick reloads exactly when the loaded list
      still holds unfinished work. */
  lemma TickAfterLoad(s: PageState, all: seq<Job>)
    ensures TickReloads(Loaded(s, all)) <==> ShouldRefresh(Filter(all, Matching(s.filters)))
  {
  }
}
