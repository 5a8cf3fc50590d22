/** Console-URL analysis and workflow lookup by id (td_mcp_server/url_tools.py). The
    workflow list the client returns is a parameter (`Err` standing for an exception while
    fetching), and `lookup` stands for `get_project`. */
module UrlTools {
  import opened Wrappers
  import opened Text
  import opened Api

  const WorkflowPrefix := "/app/workflows/"
  const ProjectPrefix := "/app/projects/"
  const JobPrefix := "/app/jobs/"

  /** At most this many sessions are reported. */
  const MaxReportedSessions := 5

  const ConsoleHost := "https://console.treasuredata.com"
  const ConsoleWorkflows := ConsoleHost + WorkflowPrefix

  // ---------------------------------------------------------------------------
  // `re.search(prefix + r"(\d+)", url)`

  /** The prefix occurs at `i` and a digit follows it. */
  predicate IdAt(url: string, prefix: string, i: int) {
    OccursAt(url, prefix, i) && i + |prefix| < |url| && IsDigit(url[i + |prefix|])
  }

  /** The length of the run of digits that `s` starts with. */
  function DigitRun(s: string): (n: nat)
    ensures n <= |s|
    ensures forall k :: 0 <= k < n ==> IsDigit(s[k])
    ensures n < |s| ==> !IsDigit(s[n])
  {
    if s == [] || !IsDigit(s[0]) then 0 else 1 + DigitRun(s[1..])
  }

  /** The leftmost match position at or after `i`. */
  function FirstIdAt(url: string, prefix: string, i: nat): (r: Option<nat>)
    ensures r.Some? ==> i <= r.value && IdAt(url, prefix, r.value)
    ensures r.Some? ==> forall j :: i <= j < r.value ==> !IdAt(url, prefix, j)
    ensures r.None? ==> forall j :: i <= j ==> !IdAt(url, prefix, j)
    decreases |url| - i
  {
    if i >= |url| then None
    else if IdAt(url, prefix, i) then Some(i)
    else FirstIdAt(url, prefix, i + 1)
  }

  /** The group of the leftmost match: the maximal run of digits after the first
      occurrence of the prefix that a digit follows. */
  function ExtractId(url: string, prefix: string): (r: Option<string>)
    ensures r.Some? ==> r.value != [] && AllDigits(r.value)
    ensures r.None? <==> forall j :: 0 <= j ==> !IdAt(url, prefix, j)
  {
    match FirstIdAt(url, prefix, 0)
    case None => None
    case Some(k) =>
      var start := k + |prefix|;
      var n := DigitRun(url[start..]);
      assert forall t :: 0 <= t < n ==> url[start..start + n][t] == url[start..][t];
      Some(url[start..start + n])
  }

  /** A found id sits at the leftmost match, and no digit follows it. */
  lemma ExtractIdIsLeftmostMaximal(url: string, prefix: string)
    requires ExtractId(url, prefix).Some?
    ensures var id := ExtractId(url, prefix).value;
      exists k :: IdAt(url, prefix, k)
        && (forall j :: 0 <= j < k ==> !IdAt(url, prefix, j))
        && url[k + |prefix|..k + |prefix| + |id|] == id
        && (k + |prefix| + |id| == |url| || !IsDigit(url[k + |prefix| + |id|]))
  {
    var k := FirstIdAt(url, prefix, 0).value;
    var start := k + |prefix|;
    var n := DigitRun(url[start..]);
    assert start + n < |url| ==> url[start + n] == url[start..][n];
  }

  // ---------------------------------------------------------------------------
  // td_get_workflow

  /** `re.match(r"^\d+$", id)`: one or more digits, where Python's `$` also accepts a
      single final newline. */
  predicate ValidWorkflowId(s: string) {
    (s != [] && AllDigits(s)) || (|s| >= 2 && s[|s| - 1] == '\n' && AllDigits(s[..|s| - 1]))
  }

  /** An id taken from a console URL always passes the numeric check and is never blank. */
  lemma ExtractedIdIsValid(url: string, prefix: string)
    requires ExtractId(url, prefix).Some?
    ensures ValidWorkflowId(ExtractId(url, prefix).value)
    ensures !IsBlank(ExtractId(url, prefix).value)
  {
    var id := ExtractId(url, prefix).value;
    assert IsDigit(id[0]);
  }

  datatype SessionRow = SessionRow(sessionTime: string, status: string, success: bool)

  /** The `"workflow"` dictionary: `schedule` and `latestSessions` are `None` when the key
      is absent. */
  datatype WorkflowInfo = WorkflowInfo(
    id: string,
    name: string,
    projectId: string,
    projectName: string,
    timezone: string,
    scheduled: bool,
    schedule: Option<map<string, string>>,
    latestSessions: Option<seq<SessionRow>>)

  datatype WorkflowReport = WorkflowReport(workflow: WorkflowInfo, consoleUrl: string)

  function RowOf(s: Session): SessionRow {
    SessionRow(s.sessionTime, s.lastAttempt.status, s.lastAttempt.success)
  }

  /** The rows of the first five sessions, in order. */
  function RowsOf(ss: seq<Session>): (r: seq<SessionRow>)
    ensures |r| == Min(|ss|, MaxReportedSessions)
    ensures forall k :: 0 <= k < |r| ==> r[k] == RowOf(ss[k])
  {
    var first := ss[..Min(|ss|, MaxReportedSessions)];
    seq(|first|, k requires 0 <= k < |first| => RowOf(first[k]))
  }

  function ConsoleUrl(workflowId: string): string {
    ConsoleWorkflows + workflowId + "/info"
  }

  /** The result for the workflow found. */
  function ReportOf(w: Workflow, workflowId: string): (r: WorkflowReport)
    ensures r.workflow.scheduled <==> w.schedule.Some?
    ensures r.workflow.schedule.Some? <==> w.schedule.Some? && w.schedule.value != map[]
    ensures r.workflow.schedule.Some? ==> r.workflow.schedule == w.schedule
    ensures r.workflow.latestSessions.Some? <==> w.latestSessions != []
    ensures r.workflow.latestSessions.Some? ==>
      var rows := r.workflow.latestSessions.value;
      |rows| == Min(|w.latestSessions|, MaxReportedSessions) && |rows| <= 5
      && forall k :: 0 <= k < |rows| ==> rows[k] == RowOf(w.latestSessions[k])
  {
    WorkflowReport(
      WorkflowInfo(w.id, w.name, w.project.id, w.project.name, w.timezone, w.schedule.Some?,
        if w.schedule.Some? && w.schedule.value != map[] then w.schedule else None,
        if w.latestSessions != [] then Some(RowsOf(w.latestSessions)) else None),
      ConsoleUrl(workflowId))
  }

  /** The index of the first workflow with this id. */
  function FirstWithId(ws: seq<Workflow>, workflowId: string, i: nat): (r: Option<nat>)
    requires i <= |ws|
    ensures r.Some? ==> i <= r.value < |ws| && ws[r.value].id == workflowId
    ensures r.Some? ==> forall j :: i <= j < r.value ==> ws[j].id != workflowId
    ensures r.None? ==> forall j :: i <= j < |ws| ==> ws[j].id != workflowId
    decreases |ws| - i
  {
    if i == |ws| then None
    else if ws[i].id == workflowId then Some(i)
    else FirstWithId(ws, workflowId, i + 1)
  }

  /** What `td_get_workflow` returns. */
  function GetWorkflowOutcome(workflowId: string, workflows: Result<seq<Workflow>, string>)
    : Result<WorkflowReport, string>
  {
    if IsBlank(workflowId) then Err("Workflow ID cannot be empty")
    else if !ValidWorkflowId(workflowId) then Err("Invalid workflow ID format. Must be numeric.")
    else if workflows.Err? then Err("Failed to get workflow: " + workflows.error)
    else match FirstWithId(workflows.value, workflowId, 0)
      case Some(i) => Ok(ReportOf(workflows.value[i], workflowId))
      case None => Err("Workflow with ID '" + workflowId + "' not found")
  }

  /** `td_get_workflow`: the checks on the id, then a scan that returns the first
      workflow with that id, building its report key by key. */
  method GetWorkflow(workflowId: string, workflows: Result<seq<Workflow>, string>)
    returns (r: Result<WorkflowReport, string>)
    ensures r == GetWorkflowOutcome(workflowId, workflows)
  {
    if IsBlank(workflowId) {
      return Err("Workflow ID cannot be empty");
    }
    if !ValidWorkflowId(workflowId) {
      return Err("Invalid workflow ID format. Must be numeric.");
    }
    if workflows.Err? {
      return Err("Failed to get workflow: " + workflows.error);
    }
    var ws := workflows.value;
    for i := 0 to |ws|
      invariant FirstWithId(ws, workflowId, 0) == FirstWithId(ws, workflowId, i)
    {
      var workflow := ws[i];
      if workflow.id == workflowId {
        var info := WorkflowInfo(workflow.id, workflow.name, workflow.project.id, workflow.project.name,
                                 workflow.timezone, workflow.schedule.Some?, None, None);
        if workflow.schedule.Some? && workflow.schedule.value != map[] {
          info := info.(schedule := workflow.schedule);
        }
        if workflow.latestSessions != [] {
          var latestSessions := CollectSessions(workflow.latestSessions);
          info := info.(latestSessions := Some(latestSessions));
        }
        return Ok(WorkflowReport(info, ConsoleWorkflows + workflowId + "/info"));
      }
    }
    return Err("Workflow with ID '" + workflowId + "' not found");
  }

  /** The loop over `latest_sessions[:5]` that appends one row per session. */
  method CollectSessions(sessions: seq<Session>) returns (rows: seq<SessionRow>)
    ensures rows == RowsOf(sessions)
  {
    var first := sessions[..Min(|sessions|, MaxReportedSessions)];
    rows := [];
    for k := 0 to |first|
      invariant |rows| == k
      invariant forall t :: 0 <= t < k ==> rows[t] == RowOf(first[t])
    {
      rows := rows + [RowOf(first[k])];
    }
  }

  /** A report is returned exactly when some workflow carries the id, and it describes the
      first such workflow. */
  lemma GetWorkflowFindsFirst(workflowId: string, ws: seq<Workflow>)
    requires !IsBlank(workflowId) && ValidWorkflowId(workflowId)
    ensures GetWorkflowOutcome(workflowId, Ok(ws)).Ok? <==> exists i :: 0 <= i < |ws| && ws[i].id == workflowId
    ensures GetWorkflowOutcome(workflowId, Ok(ws)).Ok? ==>
      exists i :: 0 <= i < |ws| && ws[i].id == workflowId
        && (forall j :: 0 <= j < i ==> ws[j].id != workflowId)
        && GetWorkflowOutcome(workflowId, Ok(ws)).value == ReportOf(ws[i], workflowId)
    ensures GetWorkflowOutcome(workflowId, Ok(ws)).Err? ==>
      GetWorkflowOutcome(workflowId, Ok(ws)).error == "Workflow with ID '" + workflowId + "' not found"
  {
    match FirstWithId(ws, workflowId, 0)
    case Some(i) =>
    case None =>
  }

  /** The console host holds no match of the workflow pattern. */
  lemma HostHasNoWorkflowId(rest: string)
    ensures forall j :: 0 <= j < |ConsoleHost| ==> !IdAt(ConsoleHost + rest, WorkflowPrefix, j)
  {
    var url := ConsoleHost + rest;
    forall j | 0 <= j < |ConsoleHost|
      ensures !OccursAt(url, WorkflowPrefix, j)
    {
      if j + |WorkflowPrefix| <= |url| {
        var slice := url[j..j + |WorkflowPrefix|];
        assert slice[0] == url[j] && slice[1] == url[j + 1];
        assert url[j] == ConsoleHost[j];
        if j == 6 || j == 7 {
          assert url[j + 1] == ConsoleHost[j + 1];
          assert slice[1] != WorkflowPrefix[1];
        } else {
          assert slice[0] != WorkflowPrefix[0];
        }
      }
    }
  }

  /** The console URL of a workflow leads back to the same id. */
  lemma ConsoleUrlRoundTrip(workflowId: string)
    requires workflowId != [] && AllDigits(workflowId)
    ensures ExtractId(ConsoleUrl(workflowId), WorkflowPrefix) == Some(workflowId)
  {
    var rest := WorkflowPrefix + workflowId + "/info";
    var url := ConsoleUrl(workflowId);
    assert url == ConsoleHost + rest;
    var k := |ConsoleHost|;
    HostHasNoWorkflowId(rest);
    assert url[k..k + |WorkflowPrefix|] == WorkflowPrefix;
    assert url[k + |WorkflowPrefix|] == workflowId[0];
    FirstIdAtIs(url, WorkflowPrefix, 0, k);
    var start := k + |WorkflowPrefix|;
    assert url[start..] == workflowId + "/info";
    DigitRunOf(workflowId, "/info");
    assert url[start..start + |workflowId|] == workflowId;
  }

  lemma {:induction false} FirstIdAtIs(url: string, prefix: string, i: nat, k: nat)
    requires i <= k && IdAt(url, prefix, k)
    requires forall j :: i <= j < k ==> !IdAt(url, prefix, j)
    ensures FirstIdAt(url, prefix, i) == Some(k)
    decreases k - i
  {
    if i < k {
      FirstIdAtIs(url, prefix, i + 1, k);
    }
  }

  lemma {:induction false} DigitRunOf(digits: string, tail: string)
    requires AllDigits(digits)
    requires tail == [] || !IsDigit(tail[0])
    ensures DigitRun(digits + tail) == |digits|
    decreases |digits|
  {
    if digits == [] {
      assert digits + tail == tail;
    } else {
      assert (digits + tail)[1..] == digits[1..] + tail;
      DigitRunOf(digits[1..], tail);
    }
  }

  // ---------------------------------------------------------------------------
  // td_analyze_url

  const JobMessage := "Job information retrieval not yet implemented"
  const UnrecognizedUrl := "Unrecognized URL format. Supported: /app/workflows/ID, /app/projects/ID"

  datatype UrlReport =
    | WorkflowResource(report: WorkflowReport)
    | ProjectResource(project: Project)
    | JobResource(jobId: string, message: string)

  /** `td_analyze_url`: workflow URLs first, then project URLs, then job URLs. */
  function AnalyzeUrl(url: string, workflows: Result<seq<Workflow>, string>, lookup: string -> Lookup<Project>)
    : Result<UrlReport, string>
  {
    if IsBlank(url) then Err("URL cannot be empty")
    else match ExtractId(url, WorkflowPrefix)
      case Some(workflowId) =>
        (match GetWorkflowOutcome(workflowId, workflows)
         case Ok(report) => Ok(WorkflowResource(report))
         case Err(e) => Err(e))
      case None =>
        match ExtractId(url, ProjectPrefix)
        case Some(projectId) =>
          (match lookup(projectId)
           case Fetched(p) => Ok(ProjectResource(p))
           case Missing => Err("Project with ID '" + projectId + "' not found")
           case Raised(msg) => Err("Failed to get project: " + msg))
        case None =>
          match ExtractId(url, JobPrefix)
          case Some(jobId) => Ok(JobResource(jobId, JobMessage))
          case None => Err(UnrecognizedUrl)
  }

  /** The dispatch order: a workflow id anywhere wins and is answered by the workflow
      lookup; a project is looked up only when there is no workflow id; a job record comes
      only when there is neither, and it consults no client; with none of the three the
      URL is unrecognised. */
  lemma AnalyzeUrlDispatch(url: string, workflows: Result<seq<Workflow>, string>, lookup: string -> Lookup<Project>,
                           workflows': Result<seq<Workflow>, string>, lookup': string -> Lookup<Project>)
    requires !IsBlank(url)
    ensures var r, wid := AnalyzeUrl(url, workflows, lookup), ExtractId(url, WorkflowPrefix);
      wid.Some? ==>
        && (r.Ok? <==> GetWorkflowOutcome(wid.value, workflows).Ok?)
        && (r.Ok? ==> r.value == WorkflowResource(GetWorkflowOutcome(wid.value, workflows).value))
        && (r.Err? ==> r.error == GetWorkflowOutcome(wid.value, workflows).error)
    ensures var r, pid := AnalyzeUrl(url, workflows, lookup), ExtractId(url, ProjectPrefix);
      ExtractId(url, WorkflowPrefix).None? && pid.Some? ==>
        && (lookup(pid.value).Fetched? ==> r == Ok(ProjectResource(lookup(pid.value).value)))
        && (lookup(pid.value).Missing? ==> r == Err("Project with ID '" + pid.value + "' not found"))
        && (lookup(pid.value).Raised? ==> r == Err("Failed to get project: " + lookup(pid.value).message))
    ensures var r, jid := AnalyzeUrl(url, workflows, lookup), ExtractId(url, JobPrefix);
      ExtractId(url, WorkflowPrefix).None? && ExtractId(url, ProjectPrefix).None? && jid.Some? ==>
        r == Ok(JobResource(jid.value, JobMessage)) && AnalyzeUrl(url, workflows', lookup') == r
    ensures (ExtractId(url, WorkflowPrefix).None? && ExtractId(url, ProjectPrefix).None? && ExtractId(url, JobPrefix).None?)
         ==> AnalyzeUrl(url, workflows, lookup) == Err(UnrecognizedUrl)
  {
    var wid := ExtractId(url, WorkflowPrefix);
    if wid.Some? {
      ExtractedIdIsValid(url, WorkflowPrefix);
    }
  }

  /** A console workflow URL is answered by the workflow lookup of its own id. */
  lemma ConsoleUrlAnalysed(workflowId: string, workflows: Result<seq<Workflow>, string>,
                           lookup: string -> Lookup<Project>)
    requires workflowId != [] && AllDigits(workflowId)
    ensures var r := AnalyzeUrl(ConsoleUrl(workflowId), workflows, lookup);
      && (r.Ok? <==> GetWorkflowOutcome(workflowId, workflows).Ok?)
      && (r.Ok? ==> r.value == WorkflowResource(GetWorkflowOutcome(workflowId, workflows).value))
  {
    var url := ConsoleUrl(workflowId);
    ConsoleUrlRoundTrip(workflowId);
    assert !IsSpace(url[0]) by {
      assert url[0] == 'h';
    }
  }
}
