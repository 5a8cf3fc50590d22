/** The list and download tools of td_mcp_server/mcp_impl.py that post-process what the
    client returned: `td_list_projects` (system-project filter), `td_download_project_archive`
    (id check and archive location) and `td_list_workflows` (system, status and search
    filters, then the result shape). */
module McpTools {
  import opened Wrappers
  import opened Text
  import opened Seqs
  import opened Api
  import opened SafePaths

  // ---------------------------------------------------------------------------
  // td_list_projects

  /** A project carrying a metadata entry with key "sys". */
  predicate IsSystemProject(p: Project) {
    exists k :: 0 <= k < |p.metadata| && p.metadata[k].key == "sys"
  }

  predicate UserProject(p: Project) {
    !IsSystemProject(p)
  }

  /** The projects `td_list_projects` reports when `get_projects` returned `fetched` (the
      whole list, or the message of what it raised): the requested page, sliced as
      `get_projects` slices it, without system projects unless `includeSystem` is set. */
  function ListProjects(fetched: Result<seq<Project>, string>, limit: int, offset: int, allResults: bool,
                        includeSystem: bool): (r: Result<seq<Project>, string>)
    ensures fetched.Err? ==> r == Err("Failed to retrieve projects: " + fetched.error)
    ensures fetched.Ok? && includeSystem ==> r == Ok(PageAsWritten(fetched.value, limit, offset, allResults))
    ensures fetched.Ok? && !includeSystem ==>
      var page := PageAsWritten(fetched.value, limit, offset, allResults);
      && r == Ok(Filter(UserProject, page))
      && (forall i :: 0 <= i < |r.value| ==> r.value[i] in page && !IsSystemProject(r.value[i]))
      && (forall i :: 0 <= i < |page| && !IsSystemProject(page[i]) ==> page[i] in r.value)
  {
    match fetched
    case Err(e) => Err("Failed to retrieve projects: " + e)
    case Ok(all) =>
      var projects := PageAsWritten(all, limit, offset, allResults);
      Ok(if includeSystem then projects else Filter(UserProject, projects))
  }

  /** The system filter keeps the page's order: when the page is made of two runs, the
      reply is the user projects of the first run followed by those of the second. */
  lemma ListProjectsKeepsOrder(all: seq<Project>, limit: int, offset: int, allResults: bool,
                               a: seq<Project>, b: seq<Project>)
    requires PageAsWritten(all, limit, offset, allResults) == a + b
    ensures ListProjects(Ok(all), limit, offset, allResults, false).value
         == ListProjects(Ok(a), 0, 0, true, false).value + ListProjects(Ok(b), 0, 0, true, false).value
  {
    FilterConcat(UserProject, a, b);
  }

  /** For a non-negative limit, or whenever `offset + limit` is not negative, the projects
      reported come from the corrected page. */
  lemma ListProjectsFromCorrectedPage(all: seq<Project>, limit: int, offset: int, allResults: bool,
                                      includeSystem: bool)
    requires limit >= 0 || offset + limit >= 0
    ensures var page := Page(all, limit, offset, allResults);
      ListProjects(Ok(all), limit, offset, allResults, includeSystem)
        == Ok(if includeSystem then page else Filter(UserProject, page))
  {
    PageAsWrittenAgainstPage(all, limit, offset, allResults);
  }

  /** The non-verbose reply: id and name of each project. */
  datatype ProjectRef = ProjectRef(id: string, name: string)

  function ProjectRefs(ps: seq<Project>): (r: seq<ProjectRef>)
    ensures |r| == |ps|
    ensures forall i :: 0 <= i < |ps| ==> r[i] == ProjectRef(ps[i].id, ps[i].name)
  {
    if ps == [] then [] else [ProjectRef(ps[0].id, ps[0].name)] + ProjectRefs(ps[1..])
  }

  // ---------------------------------------------------------------------------
  // td_download_project_archive

  datatype Download = Download(
    projectId: string,
    projectName: string,
    archivePath: string,
    tempDir: string,
    message: string)

  /** `td_download_project_archive`. `tempDir` is the directory `mkdtemp` created,
      `project` the outcome of `get_project`, and `download` the outcome of
      `download_project_archive` (its boolean, or the message of what it raised). */
  function DownloadProjectArchive(projectId: string, tempDir: string, project: Lookup<Project>,
                                  download: Result<bool, string>): (r: Result<Download, string>)
    ensures !ValidProjectId(projectId) ==> r == Err("Invalid project ID format")
    ensures ValidProjectId(projectId) && project.Missing? ==>
      r == Err("Project with ID '" + projectId + "' not found")
    ensures ValidProjectId(projectId) && project.Raised? ==>
      r == Err("Failed to download project archive: " + project.message)
    ensures ValidProjectId(projectId) && project.Fetched? && download == Ok(false) ==>
      r == Err("Failed to download archive for project '" + projectId + "'")
    ensures ValidProjectId(projectId) && project.Fetched? && download.Err? ==>
      r == Err("Failed to download project archive: " + download.error)
    ensures r.Ok? <==> ValidProjectId(projectId) && project.Fetched? && download == Ok(true)
    ensures r.Ok? ==>
      && r.value.archivePath == DownloadPath(tempDir, projectId)
      && r.value.projectId == projectId && r.value.tempDir == tempDir
      && r.value.projectName == project.value.name
      && r.value.message == "Successfully downloaded archive for project '" + project.value.name + "'"
  {
    if !ValidProjectId(projectId) then Err("Invalid project ID format")
    else
      var outputPath := DownloadPath(tempDir, projectId);
      match project
      case Missing => Err("Project with ID '" + projectId + "' not found")
      case Raised(msg) => Err("Failed to download project archive: " + msg)
      case Fetched(p) =>
        match download
        case Err(msg) => Err("Failed to download project archive: " + msg)
        case Ok(success) =>
          if !success then Err("Failed to download archive for project '" + projectId + "'")
          else Ok(Download(projectId, p.name, outputPath, tempDir,
                           "Successfully downloaded archive for project '" + p.name + "'"))
  }

  /** A downloaded archive sits directly in the temporary directory under the name
      "project_<id>.tar.gz" (a trailing newline of the id becoming '_'). */
  lemma DownloadLandsInTempDir(projectId: string, tempDir: string, project: Lookup<Project>,
                               download: Result<bool, string>)
    requires tempDir != [] && !EndsWith(tempDir, "/")
    requires DownloadProjectArchive(projectId, tempDir, project, download).Ok?
    ensures var path := DownloadProjectArchive(projectId, tempDir, project, download).value.archivePath;
      && (IdWord(projectId) ==> path == tempDir + "/project_" + projectId + ".tar.gz")
      && (!IdWord(projectId) ==> path == tempDir + "/project_" + projectId[..|projectId| - 1] + "_.tar.gz")
  {
    var r := DownloadProjectArchive(projectId, tempDir, project, download);
    assert ValidProjectId(projectId) && r.value.archivePath == DownloadPath(tempDir, projectId);
    AcceptedIdDownloadPath(tempDir, projectId);
  }

  /** The download path of an accepted id, with and without its trailing newline. */
  lemma AcceptedIdDownloadPath(tempDir: string, projectId: string)
    requires tempDir != [] && !EndsWith(tempDir, "/")
    requires ValidProjectId(projectId)
    ensures IdWord(projectId) ==> DownloadPath(tempDir, projectId) == tempDir + "/project_" + projectId + ".tar.gz"
    ensures !IdWord(projectId) ==>
      DownloadPath(tempDir, projectId) == tempDir + "/project_" + projectId[..|projectId| - 1] + "_.tar.gz"
  {
    if IdWord(projectId) {
      DownloadPathShape(tempDir, projectId);
    } else {
      var stem := projectId[..|projectId| - 1];
      calc {
        DownloadPath(tempDir, projectId);
        { DownloadPathShape(tempDir, projectId); }
        tempDir + "/" + ArchiveFileName(projectId);
        tempDir + "/" + ("project_" + Sanitize(projectId) + ".tar.gz");
        { SanitizeValidId(projectId); }
        tempDir + "/" + ("project_" + (stem + "_") + ".tar.gz");
        { assert "/" + "project_" == "/project_" && "_" + ".tar.gz" == "_.tar.gz"; }
        tempDir + "/project_" + stem + "_.tar.gz";
      }
    }
  }

  // ---------------------------------------------------------------------------
  // td_list_workflows

  /** Python truthiness of an optional string parameter. */
  predicate Truthy(o: Option<string>) {
    o.Some? && o.value != ""
  }

  /** The status filter: the workflow has a session and the first one's last attempt
      has this status. */
  predicate HasStatus(w: Workflow, status: string) {
    w.latestSessions != [] && w.latestSessions[0].lastAttempt.status == status
  }

  /** The search filter: the lower-cased term occurs in the lower-cased workflow name or
      project name. */
  predicate MentionsTerm(w: Workflow, term: string) {
    Contains(Lower(w.name), Lower(term)) || Contains(Lower(w.project.name), Lower(term))
  }

  function NotSystem(isSystem: Workflow -> bool): Workflow -> bool {
    w => !isSystem(w)
  }

  function StatusIs(status: string): Workflow -> bool {
    w => HasStatus(w, status)
  }

  function Mentions(term: string): Workflow -> bool {
    w => MentionsTerm(w, term)
  }

  /** The workflows that survive the three filters, applied in the code's order.
      `isSystem` stands for the metadata test on the workflow's project. */
  function SelectedWorkflows(fetched: seq<Workflow>, isSystem: Workflow -> bool, includeSystem: bool,
                             statusFilter: Option<string>, search: Option<string>): seq<Workflow>
  {
    var afterSystem := if includeSystem then fetched else Filter(NotSystem(isSystem), fetched);
    var afterStatus := if Truthy(statusFilter) then Filter(StatusIs(statusFilter.value), afterSystem) else afterSystem;
    if Truthy(search) then Filter(Mentions(search.value), afterStatus) else afterStatus
  }

  /** The condition a single workflow must meet, all filters at once. */
  predicate Selected(w: Workflow, isSystem: Workflow -> bool, includeSystem: bool,
                     statusFilter: Option<string>, search: Option<string>) {
    && (includeSystem || !isSystem(w))
    && (!Truthy(statusFilter) || HasStatus(w, statusFilter.value))
    && (!Truthy(search) || MentionsTerm(w, search.value))
  }

  function Selector(isSystem: Workflow -> bool, includeSystem: bool, statusFilter: Option<string>,
                    search: Option<string>): Workflow -> bool {
    w => Selected(w, isSystem, includeSystem, statusFilter, search)
  }

  function SystemGate(isSystem: Workflow -> bool, includeSystem: bool): Workflow -> bool {
    w => includeSystem || !isSystem(w)
  }

  function StatusGate(statusFilter: Option<string>): Workflow -> bool {
    w => !Truthy(statusFilter) || HasStatus(w, statusFilter.value)
  }

  function SearchGate(search: Option<string>): Workflow -> bool {
    w => !Truthy(search) || MentionsTerm(w, search.value)
  }

  function SystemAndStatus(isSystem: Workflow -> bool, includeSystem: bool, statusFilter: Option<string>): Workflow -> bool {
    w => (includeSystem || !isSystem(w)) && (!Truthy(statusFilter) || HasStatus(w, statusFilter.value))
  }

  lemma SystemStage(fetched: seq<Workflow>, isSystem: Workflow -> bool, includeSystem: bool)
    ensures (if includeSystem then fetched else Filter(NotSystem(isSystem), fetched))
         == Filter(SystemGate(isSystem, includeSystem), fetched)
  {
    if includeSystem {
      FilterAll(SystemGate(isSystem, includeSystem), fetched);
    } else {
      FilterCongruent(NotSystem(isSystem), SystemGate(isSystem, includeSystem), fetched);
    }
  }

  lemma StatusStage(ws: seq<Workflow>, statusFilter: Option<string>)
    ensures (if Truthy(statusFilter) then Filter(StatusIs(statusFilter.value), ws) else ws)
         == Filter(StatusGate(statusFilter), ws)
  {
    if Truthy(statusFilter) {
      FilterCongruent(StatusIs(statusFilter.value), StatusGate(statusFilter), ws);
    } else {
      FilterAll(StatusGate(statusFilter), ws);
    }
  }

  lemma SearchStage(ws: seq<Workflow>, search: Option<string>)
    ensures (if Truthy(search) then Filter(Mentions(search.value), ws) else ws)
         == Filter(SearchGate(search), ws)
  {
    if Truthy(search) {
      FilterCongruent(Mentions(search.value), SearchGate(search), ws);
    } else {
      FilterAll(SearchGate(search), ws);
    }
  }

  /** The three filters in a row are one order-preserving filter by their conjunction:
      a workflow is reported exactly when it meets every active condition, and the
      reported workflows keep the fetched order. */
  lemma SelectedIsOneFilter(fetched: seq<Workflow>, isSystem: Workflow -> bool, includeSystem: bool,
                            statusFilter: Option<string>, search: Option<string>)
    ensures SelectedWorkflows(fetched, isSystem, includeSystem, statusFilter, search)
         == Filter(Selector(isSystem, includeSystem, statusFilter, search), fetched)
  {
    var sys := SystemGate(isSystem, includeSystem);
    var st := StatusGate(statusFilter);
    var both := SystemAndStatus(isSystem, includeSystem, statusFilter);
    var afterSystem := if includeSystem then fetched else Filter(NotSystem(isSystem), fetched);
    SystemStage(fetched, isSystem, includeSystem);
    var afterStatus := if Truthy(statusFilter) then Filter(StatusIs(statusFilter.value), afterSystem) else afterSystem;
    StatusStage(afterSystem, statusFilter);
    SearchStage(afterStatus, search);
    FilterCompose(sys, st, both, fetched);
    FilterCompose(both, SearchGate(search), Selector(isSystem, includeSystem, statusFilter, search), fetched);
  }

  /** One row of the summary reply. */
  datatype WorkflowSummary = WorkflowSummary(
    id: string,
    name: string,
    project: string,
    lastStatus: string,
    scheduled: bool)

  /** One session of the verbose reply; `duration` is always None and is not kept. */
  datatype SessionView = SessionView(sessionTime: string, status: string, success: bool)

  datatype WorkflowDetail = WorkflowDetail(
    id: string,
    name: string,
    projectId: string,
    projectName: string,
    timezone: string,
    schedule: Option<map<string, string>>,
    latestSessions: seq<SessionView>)

  datatype WorkflowListing =
    | Summaries(workflows: seq<WorkflowSummary>, totalCount: int)
    | Details(details: seq<WorkflowDetail>)

  function Summarize(w: Workflow): (s: WorkflowSummary)
    ensures s.lastStatus == if w.latestSessions == [] then "no_runs" else w.latestSessions[0].lastAttempt.status
    ensures s.scheduled <==> w.schedule.Some?
  {
    WorkflowSummary(w.id, w.name, w.project.name,
      if w.latestSessions != [] then w.latestSessions[0].lastAttempt.status else "no_runs",
      w.schedule.Some?)
  }

  function SessionViews(ss: seq<Session>): (r: seq<SessionView>)
    ensures |r| == |ss|
    ensures forall i :: 0 <= i < |ss| ==>
      r[i] == SessionView(ss[i].sessionTime, ss[i].lastAttempt.status, ss[i].lastAttempt.success)
  {
    if ss == [] then []
    else [SessionView(ss[0].sessionTime, ss[0].lastAttempt.status, ss[0].lastAttempt.success)] + SessionViews(ss[1..])
  }

  /** The verbose row: at most the first three sessions, in order. */
  function Detail(w: Workflow): (d: WorkflowDetail)
    ensures d.id == w.id && d.name == w.name
    ensures d.projectId == w.project.id && d.projectName == w.project.name
    ensures d.timezone == w.timezone && d.schedule == w.schedule
    ensures |d.latestSessions| == if |w.latestSessions| < 3 then |w.latestSessions| else 3
    ensures forall i :: 0 <= i < |d.latestSessions| ==>
      && d.latestSessions[i].sessionTime == w.latestSessions[i].sessionTime
      && d.latestSessions[i].status == w.latestSessions[i].lastAttempt.status
      && d.latestSessions[i].success == w.latestSessions[i].lastAttempt.success
  {
    var shown := if |w.latestSessions| <= 3 then w.latestSessions else w.latestSessions[..3];
    WorkflowDetail(w.id, w.name, w.project.id, w.project.name, w.timezone, w.schedule, SessionViews(shown))
  }

  function SummaryRows(ws: seq<Workflow>): (r: seq<WorkflowSummary>)
    ensures |r| == |ws|
    ensures forall i :: 0 <= i < |ws| ==> r[i] == Summarize(ws[i])
  {
    if ws == [] then [] else [Summarize(ws[0])] + SummaryRows(ws[1..])
  }

  function DetailRows(ws: seq<Workflow>): (r: seq<WorkflowDetail>)
    ensures |r| == |ws|
    ensures forall i :: 0 <= i < |ws| ==> r[i] == Detail(ws[i])
  {
    if ws == [] then [] else [Detail(ws[0])] + DetailRows(ws[1..])
  }

  /** The status loop of `td_list_workflows`: keep the workflows whose first session has
      the given status. */
  method FilterByStatus(workflows: seq<Workflow>, status: string) returns (filtered: seq<Workflow>)
    ensures filtered == Filter(StatusIs(status), workflows)
  {
    filtered := [];
    for i := 0 to |workflows|
      invariant filtered == Filter(StatusIs(status), workflows[..i])
    {
      FilterStep(StatusIs(status), workflows, i);
      var workflow := workflows[i];
      if workflow.latestSessions != [] {
        var lastStatus := workflow.latestSessions[0].lastAttempt.status;
        if lastStatus == status {
          filtered := filtered + [workflow];
        }
      }
    }
    assert workflows[..|workflows|] == workflows;
  }

  /** The search loop of `td_list_workflows`: keep the workflows whose name or project
      name contains the term, ignoring case. */
  method FilterBySearch(workflows: seq<Workflow>, term: string) returns (filtered: seq<Workflow>)
    ensures filtered == Filter(Mentions(term), workflows)
  {
    var searchLower := Lower(term);
    filtered := [];
    for i := 0 to |workflows|
      invariant filtered == Filter(Mentions(term), workflows[..i])
    {
      FilterStep(Mentions(term), workflows, i);
      var workflowName := Lower(workflows[i].name);
      var projectName := Lower(workflows[i].project.name);
      if Contains(workflowName, searchLower) || Contains(projectName, searchLower) {
        filtered := filtered + [workflows[i]];
      }
    }
    assert workflows[..|workflows|] == workflows;
  }

  /** `td_list_workflows` after `get_workflows` returned `fetched` (the list, or the message
      of what it raised). */
  method ListWorkflows(fetched: Result<seq<Workflow>, string>, isSystem: Workflow -> bool, includeSystem: bool,
                       statusFilter: Option<string>, search: Option<string>, verbose: bool)
    returns (r: Result<WorkflowListing, string>)
    ensures fetched.Err? ==> r == Err("Failed to retrieve workflows: " + fetched.error)
    ensures fetched.Ok? ==>
      var selected := SelectedWorkflows(fetched.value, isSystem, includeSystem, statusFilter, search);
      r == Ok(if verbose then Details(DetailRows(selected)) else Summaries(SummaryRows(selected), |selected|))
  {
    if fetched.Err? {
      return Err("Failed to retrieve workflows: " + fetched.error);
    }
    var workflows := fetched.value;
    if !includeSystem {
      workflows := Filter(NotSystem(isSystem), workflows);
    }
    if statusFilter.Some? && statusFilter.value != "" {
      workflows := FilterByStatus(workflows, statusFilter.value);
    }
    if search.Some? && search.value != "" {
      workflows := FilterBySearch(workflows, search.value);
    }
    if verbose {
      r := Ok(Details(DetailRows(workflows)));
    } else {
      r := Ok(Summaries(SummaryRows(workflows), |workflows|));
    }
  }
}
