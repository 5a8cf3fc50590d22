/** Name search over projects and workflows (td_mcp_server/search_tools.py). The lists the
    client returns are parameters (`Err` standing for an exception while fetching), and
    `lookup` stands for `get_project`. */
module SearchTools {
  import opened Wrappers
  import opened Text
  import opened Seqs
  import opened Api
  import opened McpTools

  const EmptySearchTerm := "Search term cannot be empty"

  /** Case-insensitive name test: equality in exact mode, containment otherwise. */
  predicate NameMatches(name: string, term: string, exact: bool) {
    if exact then Lower(name) == Lower(term) else Contains(Lower(name), Lower(term))
  }

  function ProjectNamed(term: string, exact: bool): Project -> bool {
    (p: Project) => NameMatches(p.name, term, exact)
  }

  function InProjectNamed(term: string, exact: bool): Workflow -> bool {
    (w: Workflow) => NameMatches(w.project.name, term, exact)
  }

  // ---------------------------------------------------------------------------
  // Results of td_find_project

  datatype ProjectHit =
    | DirectHit(id: string, name: string, createdAt: string, updatedAt: string)
    | DetailedHit(id: string, name: string, createdAt: string, updatedAt: string, workflowCount: int)
    | BasicHit(id: string, name: string, workflowCount: int)

  /** `fromWorkflows` is the `"source": "workflows"` tag of the fallback stage. */
  datatype FindProjectReply =
    | ProjectsFound(count: int, projects: seq<ProjectHit>, fromWorkflows: bool)
    | NoProjects(message: string)

  function DirectHits(ps: seq<Project>): (r: seq<ProjectHit>)
    ensures |r| == |ps|
    ensures forall i :: 0 <= i < |ps| ==>
      r[i] == DirectHit(ps[i].id, ps[i].name, ps[i].createdAt, ps[i].updatedAt)
  {
    if ps == [] then []
    else [DirectHit(ps[0].id, ps[0].name, ps[0].createdAt, ps[0].updatedAt)] + DirectHits(ps[1..])
  }

  // ---------------------------------------------------------------------------
  // The project map of the workflow fallback

  datatype MapEntry = MapEntry(id: string, name: string, workflowCount: int)

  /** A Python dict: its keys in insertion order, and the entries. */
  datatype ProjectMap = ProjectMap(order: seq<string>, entries: map<string, MapEntry>)

  /** One turn of the fallback loop for a matching workflow: insert the project with
      count 0 if it is new, then add one to its count. */
  function AddWorkflow(m: ProjectMap, w: Workflow): ProjectMap {
    var id := w.project.id;
    var m1 := if id in m.entries then m
              else ProjectMap(m.order + [id], m.entries[id := MapEntry(id, w.project.name, 0)]);
    ProjectMap(m1.order, m1.entries[id := m1.entries[id].(workflowCount := m1.entries[id].workflowCount + 1)])
  }

  /** The map built from the matching workflows, in order. */
  function Tally(ws: seq<Workflow>): ProjectMap
    decreases |ws|
  {
    if ws == [] then ProjectMap([], map[])
    else AddWorkflow(Tally(ws[..|ws| - 1]), ws[|ws| - 1])
  }

  /** The number of workflows of project `id`. */
  function CountIn(ws: seq<Workflow>, id: string): nat
    decreases |ws|
  {
    if ws == [] then 0
    else CountIn(ws[..|ws| - 1], id) + (if ws[|ws| - 1].project.id == id then 1 else 0)
  }

  /** The index of the first workflow of project `id`, or `|ws|` when there is none. */
  function FirstIndex(ws: seq<Workflow>, id: string): (r: nat)
    ensures r <= |ws|
    ensures r < |ws| ==> ws[r].project.id == id
    ensures forall i :: 0 <= i < r ==> ws[i].project.id != id
    decreases |ws|
  {
    if ws == [] then 0
    else if ws[0].project.id == id then 0
    else 1 + FirstIndex(ws[1..], id)
  }

  /** Keys listed once each, exactly the keys of the entries, each entry under its id. */
  ghost predicate WellFormed(m: ProjectMap) {
    && (forall i, j :: 0 <= i < j < |m.order| ==> m.order[i] != m.order[j])
    && (forall id :: id in m.entries <==> id in m.order)
    && (forall id :: id in m.entries ==> m.entries[id].id == id)
  }

  /** The sum of the counts, over the keys in order. */
  function CountSum(order: seq<string>, entries: map<string, MapEntry>): int
    decreases |order|
  {
    if order == [] then 0
    else
      var id := order[|order| - 1];
      CountSum(order[..|order| - 1], entries) + (if id in entries then entries[id].workflowCount else 0)
  }

  lemma {:induction false} FirstIndexAppend(ws: seq<Workflow>, w: Workflow, id: string)
    ensures FirstIndex(ws + [w], id)
         == if FirstIndex(ws, id) < |ws| then FirstIndex(ws, id)
            else if w.project.id == id then |ws| else |ws| + 1
    decreases |ws|
  {
    if ws != [] {
      assert (ws + [w])[1..] == ws[1..] + [w];
      FirstIndexAppend(ws[1..], w, id);
    }
  }

  lemma {:induction false} CountPositive(ws: seq<Workflow>, id: string)
    ensures CountIn(ws, id) > 0 <==> FirstIndex(ws, id) < |ws|
    decreases |ws|
  {
    if ws != [] {
      var init := ws[..|ws| - 1];
      CountPositive(init, id);
      assert ws == init + [ws[|ws| - 1]];
      FirstIndexAppend(init, ws[|ws| - 1], id);
    }
  }

  /** One turn of the fallback loop over the fetched workflows. */
  lemma TallyStep(keep: Workflow -> bool, ws: seq<Workflow>, i: int)
    requires 0 <= i < |ws|
    ensures Tally(Filter(keep, ws[..i + 1]))
         == if keep(ws[i]) then AddWorkflow(Tally(Filter(keep, ws[..i])), ws[i]) else Tally(Filter(keep, ws[..i]))
  {
    FilterStep(keep, ws, i);
    var prefix := Filter(keep, ws[..i]);
    if keep(ws[i]) {
      TallyAppend(prefix, ws[i]);
    } else {
      assert prefix + [] == prefix;
    }
  }

  lemma TallyAppend(ws: seq<Workflow>, w: Workflow)
    ensures Tally(ws + [w]) == AddWorkflow(Tally(ws), w)
  {
    var longer := ws + [w];
    assert longer[..|longer| - 1] == ws;
  }

  /** What one turn of the fallback loop does to the map. */
  lemma AddWorkflowFacts(m: ProjectMap, w: Workflow)
    ensures var id, r := w.project.id, AddWorkflow(m, w);
      && (id in m.entries ==>
            && r.order == m.order
            && r.entries == m.entries[id := m.entries[id].(workflowCount := m.entries[id].workflowCount + 1)])
      && (id !in m.entries ==>
            && r.order == m.order + [id]
            && r.entries == m.entries[id := MapEntry(id, w.project.name, 1)])
  {
  }

  /** The keys of the project map are the project ids of the workflows. */
  lemma {:induction false} TallyKeys(ws: seq<Workflow>)
    ensures forall id :: id in Tally(ws).entries <==> FirstIndex(ws, id) < |ws|
    decreases |ws|
  {
    if ws != [] {
      var init, w := ws[..|ws| - 1], ws[|ws| - 1];
      assert ws == init + [w];
      TallyKeys(init);
      AddWorkflowFacts(Tally(init), w);
      forall x
        ensures FirstIndex(ws, x)
             == if FirstIndex(init, x) < |init| then FirstIndex(init, x)
                else if w.project.id == x then |init| else |init| + 1
      {
        FirstIndexAppend(init, w, x);
      }
    }
  }

  /** Each turn of the fallback loop keeps the dictionary well formed. */
  lemma AddWorkflowWellFormed(m: ProjectMap, w: Workflow)
    requires WellFormed(m)
    ensures WellFormed(AddWorkflow(m, w))
  {
    AddWorkflowFacts(m, w);
    var id := w.project.id;
    if id !in m.entries {
      var order := m.order + [id];
      forall i, j | 0 <= i < j < |order|
        ensures order[i] != order[j]
      {
        if j == |m.order| {
          assert order[i] == m.order[i];
        } else {
          assert order[i] == m.order[i] && order[j] == m.order[j];
        }
      }
    }
  }

  lemma {:induction false} TallyWellFormed(ws: seq<Workflow>)
    ensures WellFormed(Tally(ws))
    decreases |ws|
  {
    if ws != [] {
      TallyWellFormed(ws[..|ws| - 1]);
      AddWorkflowWellFormed(Tally(ws[..|ws| - 1]), ws[|ws| - 1]);
    }
  }

  /** The project map holds one key per distinct project id of the workflows, listed
      once each. */
  lemma TallyShape(ws: seq<Workflow>)
    ensures WellFormed(Tally(ws))
    ensures forall id :: id in Tally(ws).entries <==> FirstIndex(ws, id) < |ws|
  {
    TallyWellFormed(ws);
    TallyKeys(ws);
  }

  /** Each entry counts the workflows of its project. */
  lemma {:induction false} TallyCounts(ws: seq<Workflow>)
    ensures forall id :: id in Tally(ws).entries <==> CountIn(ws, id) > 0
    ensures forall id :: id in Tally(ws).entries ==> Tally(ws).entries[id].workflowCount == CountIn(ws, id)
    decreases |ws|
  {
    if ws != [] {
      var init, w := ws[..|ws| - 1], ws[|ws| - 1];
      TallyCounts(init);
      AddWorkflowFacts(Tally(init), w);
    }
  }

  /** Each entry is named after the first workflow of its project. */
  lemma {:induction false} TallyNames(ws: seq<Workflow>)
    ensures forall id :: id in Tally(ws).entries ==>
      FirstIndex(ws, id) < |ws| && Tally(ws).entries[id].name == ws[FirstIndex(ws, id)].project.name
    decreases |ws|
  {
    if ws != [] {
      var init, w := ws[..|ws| - 1], ws[|ws| - 1];
      assert ws == init + [w];
      TallyNames(init);
      TallyShape(init);
      AddWorkflowFacts(Tally(init), w);
      forall x | x in Tally(ws).entries
        ensures FirstIndex(ws, x) < |ws| && Tally(ws).entries[x].name == ws[FirstIndex(ws, x)].project.name
      {
        FirstIndexAppend(init, w, x);
        if x in Tally(init).entries {
          assert ws[FirstIndex(init, x)] == init[FirstIndex(init, x)];
        }
      }
    }
  }

  /** The keys are in the order their ids are first seen. */
  lemma {:induction false} TallyOrder(ws: seq<Workflow>)
    ensures forall k, l :: 0 <= k < l < |Tally(ws).order| ==>
      FirstIndex(ws, Tally(ws).order[k]) < FirstIndex(ws, Tally(ws).order[l])
    decreases |ws|
  {
    if ws != [] {
      var init, w := ws[..|ws| - 1], ws[|ws| - 1];
      assert ws == init + [w];
      TallyOrder(init);
      TallyShape(init);
      var m0, m := Tally(init), Tally(ws);
      AddWorkflowFacts(m0, w);
      forall k, l | 0 <= k < l < |m.order|
        ensures FirstIndex(ws, m.order[k]) < FirstIndex(ws, m.order[l])
      {
        FirstIndexAppend(init, w, m.order[k]);
        FirstIndexAppend(init, w, m.order[l]);
        assert m.order[k] == m0.order[k] && m0.order[k] in m0.entries;
        if l < |m0.order| {
          assert m.order[l] == m0.order[l] && m0.order[l] in m0.entries;
        }
      }
    }
  }

  /** The map is empty exactly when no workflow matched. */
  lemma TallyEmpty(ws: seq<Workflow>)
    ensures Tally(ws).entries == map[] <==> ws == []
  {
    if ws != [] {
      TallyShape(ws);
      assert FirstIndex(ws, ws[0].project.id) == 0;
      assert ws[0].project.id in Tally(ws).entries;
    }
  }

  lemma {:induction false} CountSumUnaffected(order: seq<string>, entries: map<string, MapEntry>, id: string, e: MapEntry)
    requires id !in order
    ensures CountSum(order, entries[id := e]) == CountSum(order, entries)
    decreases |order|
  {
    if order != [] {
      CountSumUnaffected(order[..|order| - 1], entries, id, e);
    }
  }

  lemma {:induction false} CountSumBump(order: seq<string>, entries: map<string, MapEntry>, id: string)
    requires forall i, j :: 0 <= i < j < |order| ==> order[i] != order[j]
    requires id in order && id in entries
    ensures CountSum(order, entries[id := entries[id].(workflowCount := entries[id].workflowCount + 1)])
         == CountSum(order, entries) + 1
    decreases |order|
  {
    var init := order[..|order| - 1];
    var bumped := entries[id := entries[id].(workflowCount := entries[id].workflowCount + 1)];
    if order[|order| - 1] == id {
      assert id !in init;
      CountSumUnaffected(init, entries, id, bumped[id]);
    } else {
      assert id in init;
      CountSumBump(init, entries, id);
    }
  }

  /** Each turn of the fallback loop adds one to the total count. */
  lemma AddWorkflowCountSum(m: ProjectMap, w: Workflow)
    requires WellFormed(m)
    ensures CountSum(AddWorkflow(m, w).order, AddWorkflow(m, w).entries) == CountSum(m.order, m.entries) + 1
  {
    var id := w.project.id;
    AddWorkflowFacts(m, w);
    if id in m.entries {
      CountSumBump(m.order, m.entries, id);
    } else {
      var order := m.order + [id];
      var e := MapEntry(id, w.project.name, 1);
      calc {
        CountSum(order, m.entries[id := e]);
      == { assert order[..|order| - 1] == m.order; }
        CountSum(m.order, m.entries[id := e]) + 1;
      == { CountSumUnaffected(m.order, m.entries, id, e); }
        CountSum(m.order, m.entries) + 1;
      }
    }
  }

  /** The counts of the project map add up to the number of matching workflows. */
  lemma {:induction false} TallyCountsAll(ws: seq<Workflow>)
    ensures CountSum(Tally(ws).order, Tally(ws).entries) == |ws|
    decreases |ws|
  {
    if ws != [] {
      var init := ws[..|ws| - 1];
      TallyCountsAll(init);
      TallyWellFormed(init);
      AddWorkflowCountSum(Tally(init), ws[|ws| - 1]);
    }
  }

  // ---------------------------------------------------------------------------
  // Project details for the fallback

  /** What one key of the map contributes: the fetched project with its count, nothing
      when the project is gone, or the map entry itself when the lookup raised. */
  function HitFor(id: string, entries: map<string, MapEntry>, lookup: string -> Lookup<Project>): seq<ProjectHit> {
    var info := if id in entries then entries[id] else MapEntry(id, "", 0);
    match lookup(id)
    case Fetched(p) => [DetailedHit(p.id, p.name, p.createdAt, p.updatedAt, info.workflowCount)]
    case Missing => []
    case Raised(_) => [BasicHit(info.id, info.name, info.workflowCount)]
  }

  function DetailsOf(order: seq<string>, entries: map<string, MapEntry>, lookup: string -> Lookup<Project>): seq<ProjectHit>
    decreases |order|
  {
    if order == [] then []
    else DetailsOf(order[..|order| - 1], entries, lookup) + HitFor(order[|order| - 1], entries, lookup)
  }

  function Resolvable(lookup: string -> Lookup<Project>): string -> bool {
    (id: string) => !lookup(id).Missing?
  }

  /** One hit per key whose lookup did not come back empty, so never more hits than
      distinct matching projects. */
  lemma {:induction false} DetailsCount(order: seq<string>, entries: map<string, MapEntry>, lookup: string -> Lookup<Project>)
    ensures |DetailsOf(order, entries, lookup)| == |Filter(Resolvable(lookup), order)| <= |order|
    decreases |order|
  {
    if order != [] {
      DetailsCount(order[..|order| - 1], entries, lookup);
    }
  }

  // ---------------------------------------------------------------------------
  // td_find_project

  function NoProjectsMessage(term: string): string {
    "No projects found matching '" + term + "'"
  }

  /** What `td_find_project` returns. */
  function FindProjectOutcome(searchTerm: string, exactMatch: bool, projects: Result<seq<Project>, string>,
                              workflows: Result<seq<Workflow>, string>,
                              lookup: string -> Lookup<Project>): Result<FindProjectReply, string>
  {
    if IsBlank(searchTerm) then Err(EmptySearchTerm)
    else if projects.Err? then Err("Failed to search projects: " + projects.error)
    else
      var direct := Filter(ProjectNamed(searchTerm, exactMatch), projects.value);
      if direct != [] then Ok(ProjectsFound(|direct|, DirectHits(direct), false))
      else if workflows.Err? then Err("Failed to search projects: " + workflows.error)
      else
        var m := Tally(Filter(InProjectNamed(searchTerm, exactMatch), workflows.value));
        if m.entries != map[] then
          var hits := DetailsOf(m.order, m.entries, lookup);
          Ok(ProjectsFound(|hits|, hits, true))
        else Ok(NoProjects(NoProjectsMessage(searchTerm)))
  }

  /** The direct stage: the projects whose name matches, in order. */
  method MatchProjects(ps: seq<Project>, searchTerm: string, exactMatch: bool) returns (found: seq<Project>)
    ensures found == Filter(ProjectNamed(searchTerm, exactMatch), ps)
  {
    var searchLower := Lower(searchTerm);
    found := [];
    for i := 0 to |ps|
      invariant found == Filter(ProjectNamed(searchTerm, exactMatch), ps[..i])
    {
      FilterStep(ProjectNamed(searchTerm, exactMatch), ps, i);
      var projectName := Lower(ps[i].name);
      if exactMatch {
        if projectName == searchLower {
          found := found + [ps[i]];
        }
      } else {
        if Contains(projectName, searchLower) {
          found := found + [ps[i]];
        }
      }
    }
    assert ps[..|ps|] == ps;
  }

  /** The body of the fallback's first loop for a matching workflow. */
  method CountWorkflow(order: seq<string>, projectMap: map<string, MapEntry>, w: Workflow)
    returns (order': seq<string>, projectMap': map<string, MapEntry>)
    ensures ProjectMap(order', projectMap') == AddWorkflow(ProjectMap(order, projectMap), w)
  {
    var projectId := w.project.id;
    order', projectMap' := order, projectMap;
    if projectId !in projectMap' {
      projectMap' := projectMap'[projectId := MapEntry(projectId, w.project.name, 0)];
      order' := order' + [projectId];
    }
    projectMap' := projectMap'[projectId := projectMap'[projectId].(workflowCount := projectMap'[projectId].workflowCount + 1)];
  }

  /** The fallback's first loop: the project map of the workflows whose project name
      matches. */
  method MapProjects(ws: seq<Workflow>, searchTerm: string, exactMatch: bool)
    returns (order: seq<string>, projectMap: map<string, MapEntry>)
    ensures ProjectMap(order, projectMap) == Tally(Filter(InProjectNamed(searchTerm, exactMatch), ws))
  {
    var searchLower := Lower(searchTerm);
    order, projectMap := [], map[];
    for i := 0 to |ws|
      invariant ProjectMap(order, projectMap) == Tally(Filter(InProjectNamed(searchTerm, exactMatch), ws[..i]))
    {
      TallyStep(InProjectNamed(searchTerm, exactMatch), ws, i);
      var projectName := ws[i].project.name;
      var matched := if exactMatch then Lower(projectName) == searchLower
                     else Contains(Lower(projectName), searchLower);
      assert matched == InProjectNamed(searchTerm, exactMatch)(ws[i]);
      if matched {
        order, projectMap := CountWorkflow(order, projectMap, ws[i]);
      }
    }
    assert ws[..|ws|] == ws;
  }

  /** The fallback's second loop: one lookup per key, in key order. */
  method DetailProjects(order: seq<string>, projectMap: map<string, MapEntry>, lookup: string -> Lookup<Project>)
    returns (details: seq<ProjectHit>)
    requires WellFormed(ProjectMap(order, projectMap))
    ensures details == DetailsOf(order, projectMap, lookup)
  {
    details := [];
    for k := 0 to |order|
      invariant details == DetailsOf(order[..k], projectMap, lookup)
    {
      assert order[..k + 1][..k] == order[..k];
      var projectId := order[k];
      var projectInfo := projectMap[projectId];
      match lookup(projectId)
      case Fetched(project) =>
        details := details + [DetailedHit(project.id, project.name, project.createdAt, project.updatedAt,
                                          projectInfo.workflowCount)];
      case Missing =>
      case Raised(_) =>
        details := details + [BasicHit(projectInfo.id, projectInfo.name, projectInfo.workflowCount)];
    }
    assert order[..|order|] == order;
  }

  /** `td_find_project`: the direct stage over the projects, then, only when it found
      nothing, the project map over the workflows and a lookup per mapped project. */
  method FindProject(searchTerm: string, exactMatch: bool, projects: Result<seq<Project>, string>,
                     workflows: Result<seq<Workflow>, string>, lookup: string -> Lookup<Project>)
    returns (r: Result<FindProjectReply, string>)
    ensures r == FindProjectOutcome(searchTerm, exactMatch, projects, workflows, lookup)
  {
    if IsBlank(searchTerm) {
      return Err(EmptySearchTerm);
    }
    if projects.Err? {
      return Err("Failed to search projects: " + projects.error);
    }
    var foundProjects := MatchProjects(projects.value, searchTerm, exactMatch);
    if foundProjects != [] {
      return Ok(ProjectsFound(|foundProjects|, DirectHits(foundProjects), false));
    }
    if workflows.Err? {
      return Err("Failed to search projects: " + workflows.error);
    }
    var order, projectMap := MapProjects(workflows.value, searchTerm, exactMatch);
    if projectMap != map[] {
      TallyShape(Filter(InProjectNamed(searchTerm, exactMatch), workflows.value));
      var details := DetailProjects(order, projectMap, lookup);
      return Ok(ProjectsFound(|details|, details, true));
    }
    return Ok(NoProjects(NoProjectsMessage(searchTerm)));
  }

  /** The direct stage reports exactly the projects whose name matches, in order, and
      its count is their number. */
  lemma DirectStageMatches(searchTerm: string, exactMatch: bool, ps: seq<Project>,
                           workflows: Result<seq<Workflow>, string>, lookup: string -> Lookup<Project>)
    requires !IsBlank(searchTerm)
    requires exists i :: 0 <= i < |ps| && NameMatches(ps[i].name, searchTerm, exactMatch)
    ensures var r := FindProjectOutcome(searchTerm, exactMatch, Ok(ps), workflows, lookup);
      && r.Ok? && r.value.ProjectsFound? && !r.value.fromWorkflows
      && r.value.count == |r.value.projects|
      && r.value.projects == DirectHits(Filter(ProjectNamed(searchTerm, exactMatch), ps))
  {
    var i :| 0 <= i < |ps| && NameMatches(ps[i].name, searchTerm, exactMatch);
    assert ProjectNamed(searchTerm, exactMatch)(ps[i]);
  }

  /** The fallback runs only when no project name matched; its hits number at most the
      distinct project ids of the matching workflows, exactly those whose lookup did
      not come back empty. */
  lemma FallbackStage(searchTerm: string, exactMatch: bool, projects: Result<seq<Project>, string>,
                      workflows: Result<seq<Workflow>, string>, lookup: string -> Lookup<Project>)
    requires FindProjectOutcome(searchTerm, exactMatch, projects, workflows, lookup).Ok?
    requires FindProjectOutcome(searchTerm, exactMatch, projects, workflows, lookup).value.ProjectsFound?
    requires FindProjectOutcome(searchTerm, exactMatch, projects, workflows, lookup).value.fromWorkflows
    ensures projects.Ok? && workflows.Ok?
    ensures forall i :: 0 <= i < |projects.value| ==> !NameMatches(projects.value[i].name, searchTerm, exactMatch)
    ensures var m := Tally(Filter(InProjectNamed(searchTerm, exactMatch), workflows.value));
      var r := FindProjectOutcome(searchTerm, exactMatch, projects, workflows, lookup).value;
      && r.count == |r.projects| == |Filter(Resolvable(lookup), m.order)| <= |m.order|
      && m.order != []
  {
    var r := FindProjectOutcome(searchTerm, exactMatch, projects, workflows, lookup).value;
    assert !IsBlank(searchTerm) && projects.Ok?;
    assert Filter(ProjectNamed(searchTerm, exactMatch), projects.value) == [];
    FilterEmpty(ProjectNamed(searchTerm, exactMatch), projects.value);
    assert workflows.Ok?;
    var matching := Filter(InProjectNamed(searchTerm, exactMatch), workflows.value);
    var m := Tally(matching);
    assert m.entries != map[];
    var hits := DetailsOf(m.order, m.entries, lookup);
    assert r == ProjectsFound(|hits|, hits, true);
    TallyWellFormed(matching);
    DetailsCount(m.order, m.entries, lookup);
    var id :| id in m.entries;
    assert id in m.order;
  }

  /** "Not found" means no project name matched and no workflow belongs to a project
      whose name matched. */
  lemma NotFoundMeansNoMatch(searchTerm: string, exactMatch: bool, projects: Result<seq<Project>, string>,
                             workflows: Result<seq<Workflow>, string>, lookup: string -> Lookup<Project>)
    requires FindProjectOutcome(searchTerm, exactMatch, projects, workflows, lookup).Ok?
    requires FindProjectOutcome(searchTerm, exactMatch, projects, workflows, lookup).value.NoProjects?
    ensures projects.Ok? && workflows.Ok?
    ensures forall i :: 0 <= i < |projects.value| ==> !NameMatches(projects.value[i].name, searchTerm, exactMatch)
    ensures forall i :: 0 <= i < |workflows.value| ==>
      !NameMatches(workflows.value[i].project.name, searchTerm, exactMatch)
    ensures FindProjectOutcome(searchTerm, exactMatch, projects, workflows, lookup).value.message
         == "No projects found matching '" + searchTerm + "'"
  {
    FilterEmpty(ProjectNamed(searchTerm, exactMatch), projects.value);
    var matching := Filter(InProjectNamed(searchTerm, exactMatch), workflows.value);
    TallyEmpty(matching);
    FilterEmpty(InProjectNamed(searchTerm, exactMatch), workflows.value);
  }

  // ---------------------------------------------------------------------------
  // td_find_workflow

  /** The three conditions of the search loop: name, optional project name, optional
      status of the first session. */
  predicate WorkflowMatches(w: Workflow, term: string, projectName: Option<string>, exact: bool,
                            statusFilter: Option<string>) {
    && NameMatches(w.name, term, exact)
    && (!Truthy(projectName) || Contains(Lower(w.project.name), Lower(projectName.value)))
    && (!Truthy(statusFilter) || HasStatus(w, statusFilter.value))
  }

  function WorkflowMatcher(term: string, projectName: Option<string>, exact: bool,
                           statusFilter: Option<string>): Workflow -> bool {
    (w: Workflow) => WorkflowMatches(w, term, projectName, exact, statusFilter)
  }

  datatype LatestSession = LatestSession(sessionTime: string, status: string, success: bool)

  datatype WorkflowHit = WorkflowHit(
    id: string,
    name: string,
    projectId: string,
    projectName: string,
    timezone: string,
    scheduled: bool,
    latestSession: Option<LatestSession>)

  datatype FindWorkflowReply =
    | WorkflowsFound(count: int, workflows: seq<WorkflowHit>)
    | NoWorkflows(message: string)

  /** The `workflow_info` dictionary of one match. */
  function HitOf(w: Workflow): WorkflowHit {
    WorkflowHit(w.id, w.name, w.project.id, w.project.name, w.timezone, w.schedule.Some?,
      if w.latestSessions != [] then
        Some(LatestSession(w.latestSessions[0].sessionTime, w.latestSessions[0].lastAttempt.status,
                           w.latestSessions[0].lastAttempt.success))
      else None)
  }

  function HitsOf(ws: seq<Workflow>): (r: seq<WorkflowHit>)
    ensures |r| == |ws|
    ensures forall i :: 0 <= i < |ws| ==> r[i] == HitOf(ws[i])
    decreases |ws|
  {
    if ws == [] then [] else HitsOf(ws[..|ws| - 1]) + [HitOf(ws[|ws| - 1])]
  }

  function NoWorkflowsMessage(term: string, projectName: Option<string>, statusFilter: Option<string>): string {
    "No workflows found matching '" + term + "'"
    + (if Truthy(projectName) then " in project '" + projectName.value + "'" else "")
    + (if Truthy(statusFilter) then " with status '" + statusFilter.value + "'" else "")
  }

  /** The message names the term, then the project if one was given, then the status if
      one was given. */
  lemma NoWorkflowsMessageParts(term: string, projectName: Option<string>, statusFilter: Option<string>)
    ensures var msg := NoWorkflowsMessage(term, projectName, statusFilter);
      && StartsWith(msg, "No workflows found matching '" + term + "'")
      && (Truthy(statusFilter) ==> EndsWith(msg, " with status '" + statusFilter.value + "'"))
      && (!Truthy(statusFilter) && Truthy(projectName) ==> EndsWith(msg, " in project '" + projectName.value + "'"))
      && (!Truthy(statusFilter) && !Truthy(projectName) ==> msg == "No workflows found matching '" + term + "'")
      && (Truthy(projectName) && Truthy(statusFilter) ==>
            msg == "No workflows found matching '" + term + "'" + " in project '" + projectName.value + "'"
                   + " with status '" + statusFilter.value + "'")
  {
    var base := "No workflows found matching '" + term + "'";
    var p := if Truthy(projectName) then " in project '" + projectName.value + "'" else "";
    var s := if Truthy(statusFilter) then " with status '" + statusFilter.value + "'" else "";
    var msg := NoWorkflowsMessage(term, projectName, statusFilter);
    assert msg == base + p + s;
    assert (base + p + s)[..|base|] == base;
    assert (base + p + s)[|base + p + s| - |s|..] == s;
    if s == [] {
      assert (base + p)[|base + p| - |p|..] == p;
      assert base + p + s == base + p;
    }
  }

  /** What `td_find_workflow` returns. */
  function FindWorkflowOutcome(searchTerm: string, projectName: Option<string>, exactMatch: bool,
                               statusFilter: Option<string>, workflows: Result<seq<Workflow>, string>)
    : Result<FindWorkflowReply, string>
  {
    if IsBlank(searchTerm) then Err(EmptySearchTerm)
    else if workflows.Err? then Err("Failed to search workflows: " + workflows.error)
    else
      var found := Filter(WorkflowMatcher(searchTerm, projectName, exactMatch, statusFilter), workflows.value);
      if found != [] then Ok(WorkflowsFound(|found|, HitsOf(found)))
      else Ok(NoWorkflows(NoWorkflowsMessage(searchTerm, projectName, statusFilter)))
  }

  /** One turn of the search loop: the hits so far, extended by `ws[i]` when it passes. */
  lemma HitsStep(keep: Workflow -> bool, ws: seq<Workflow>, i: int, found: seq<WorkflowHit>, passes: bool)
    requires 0 <= i < |ws|
    requires found == HitsOf(Filter(keep, ws[..i]))
    requires passes == keep(ws[i])
    ensures HitsOf(Filter(keep, ws[..i + 1])) == if passes then found + [HitOf(ws[i])] else found
  {
    FilterStep(keep, ws, i);
    var kept := Filter(keep, ws[..i]);
    assert (kept + [ws[i]])[..|kept|] == kept;
  }

  /** The body of the search loop for one workflow: false at the first condition it fails
      (where the loop says `continue`), with the term and project name lowered up front. */
  method PassesSearch(workflow: Workflow, searchTerm: string, projectName: Option<string>, exactMatch: bool,
                      statusFilter: Option<string>, searchLower: string, projectLower: Option<string>)
    returns (keep: bool)
    requires searchLower == Lower(searchTerm)
    requires projectLower == if Truthy(projectName) then Some(Lower(projectName.value)) else None
    ensures keep == WorkflowMatches(workflow, searchTerm, projectName, exactMatch, statusFilter)
  {
    var workflowName := Lower(workflow.name);
    var workflowProject := Lower(workflow.project.name);
    var nameMatch := if exactMatch then workflowName == searchLower else Contains(workflowName, searchLower);
    if !nameMatch {
      return false;
    }
    if projectLower.Some? && projectLower.value != "" {
      if !Contains(workflowProject, projectLower.value) {
        return false;
      }
    }
    if statusFilter.Some? && statusFilter.value != "" {
      if workflow.latestSessions != [] {
        var lastStatus := workflow.latestSessions[0].lastAttempt.status;
        if lastStatus != statusFilter.value {
          return false;
        }
      } else {
        return false;
      }
    }
    return true;
  }

  /** The search loop: a workflow is skipped at the first condition it fails (the
      `continue`s, which `PassesSearch` takes as early returns). */
  method MatchWorkflows(ws: seq<Workflow>, searchTerm: string, projectName: Option<string>, exactMatch: bool,
                        statusFilter: Option<string>) returns (foundWorkflows: seq<WorkflowHit>)
    ensures foundWorkflows == HitsOf(Filter(WorkflowMatcher(searchTerm, projectName, exactMatch, statusFilter), ws))
  {
    var matcher := WorkflowMatcher(searchTerm, projectName, exactMatch, statusFilter);
    foundWorkflows := [];
    var searchLower := Lower(searchTerm);
    var projectLower := if projectName.Some? && projectName.value != "" then Some(Lower(projectName.value)) else None;
    for i := 0 to |ws|
      invariant foundWorkflows == HitsOf(Filter(matcher, ws[..i]))
    {
      var workflow := ws[i];
      var keep := PassesSearch(workflow, searchTerm, projectName, exactMatch, statusFilter, searchLower, projectLower);
      HitsStep(matcher, ws, i, foundWorkflows, keep);
      if keep {
        foundWorkflows := foundWorkflows + [HitOf(workflow)];
      }
    }
    assert ws[..|ws|] == ws;
  }

  /** `td_find_workflow`: one pass over the workflows that skips a workflow at the first
      condition it fails. */
  method FindWorkflow(searchTerm: string, projectName: Option<string>, exactMatch: bool,
                      statusFilter: Option<string>, workflows: Result<seq<Workflow>, string>)
    returns (r: Result<FindWorkflowReply, string>)
    ensures r == FindWorkflowOutcome(searchTerm, projectName, exactMatch, statusFilter, workflows)
  {
    if IsBlank(searchTerm) {
      return Err(EmptySearchTerm);
    }
    if workflows.Err? {
      return Err("Failed to search workflows: " + workflows.error);
    }
    var foundWorkflows := MatchWorkflows(workflows.value, searchTerm, projectName, exactMatch, statusFilter);
    if foundWorkflows != [] {
      return Ok(WorkflowsFound(|foundWorkflows|, foundWorkflows));
    }
    return Ok(NoWorkflows(NoWorkflowsMessage(searchTerm, projectName, statusFilter)));
  }

  /** A workflow is reported exactly when it meets all three conditions; reports keep the
      fetched order and the count is their number. */
  lemma FoundWorkflowsMatch(searchTerm: string, projectName: Option<string>, exactMatch: bool,
                            statusFilter: Option<string>, ws: seq<Workflow>)
    requires !IsBlank(searchTerm)
    ensures var r := FindWorkflowOutcome(searchTerm, projectName, exactMatch, statusFilter, Ok(ws));
      && r.Ok?
      && (r.value.WorkflowsFound? ==>
            && r.value.count == |r.value.workflows|
            && (forall k :: 0 <= k < |r.value.workflows| ==>
                  exists i :: 0 <= i < |ws| && r.value.workflows[k] == HitOf(ws[i])
                    && WorkflowMatches(ws[i], searchTerm, projectName, exactMatch, statusFilter)))
      && (r.value.NoWorkflows? <==>
            forall i :: 0 <= i < |ws| ==> !WorkflowMatches(ws[i], searchTerm, projectName, exactMatch, statusFilter))
  {
    var matcher := WorkflowMatcher(searchTerm, projectName, exactMatch, statusFilter);
    var found := Filter(matcher, ws);
    assert forall w :: matcher(w) == WorkflowMatches(w, searchTerm, projectName, exactMatch, statusFilter);
    FilterEmpty(matcher, ws);
    forall k | 0 <= k < |found|
      ensures exists i :: 0 <= i < |ws| && HitsOf(found)[k] == HitOf(ws[i])
                && WorkflowMatches(ws[i], searchTerm, projectName, exactMatch, statusFilter)
    {
      var i :| 0 <= i < |ws| && ws[i] == found[k];
      assert matcher(found[k]);
    }
  }

  // ---------------------------------------------------------------------------
  // td_get_project_by_name

  /** `td_get_project_by_name`: an exact search, then the full record of its first hit. */
  function GetProjectByName(projectName: string, projects: Result<seq<Project>, string>,
                            workflows: Result<seq<Workflow>, string>,
                            lookup: string -> Lookup<Project>): (r: Result<Project, string>)
    ensures IsBlank(projectName) ==> r == Err("Project name cannot be empty")
    ensures !IsBlank(projectName) ==>
      var search := FindProjectOutcome(projectName, true, projects, workflows, lookup);
      if search.Ok? && search.value.ProjectsFound? && search.value.projects != [] then
        var id := search.value.projects[0].id;
        && (lookup(id).Fetched? ==> r == Ok(lookup(id).value))
        && (lookup(id).Missing? ==> r == Err("Could not retrieve details for project '" + projectName + "'"))
        && (lookup(id).Raised? ==> r == Err("Failed to get project details: " + lookup(id).message))
      else r == Err("Project '" + projectName + "' not found")
  {
    if IsBlank(projectName) then Err("Project name cannot be empty")
    else
      var search := FindProjectOutcome(projectName, true, projects, workflows, lookup);
      if search.Ok? && search.value.ProjectsFound? && search.value.projects != [] then
        var id := search.value.projects[0].id;
        match lookup(id)
        case Fetched(p) => Ok(p)
        case Missing => Err("Could not retrieve details for project '" + projectName + "'")
        case Raised(msg) => Err("Failed to get project details: " + msg)
      else Err("Project '" + projectName + "' not found")
  }

  /** When some project's name equals the requested name up to case, the answer is the
      full record of the first such project. */
  lemma ProjectByNameFindsFirstExact(projectName: string, ps: seq<Project>,
                                     workflows: Result<seq<Workflow>, string>,
                                     lookup: string -> Lookup<Project>, i: int)
    requires !IsBlank(projectName)
    requires 0 <= i < |ps| && Lower(ps[i].name) == Lower(projectName)
    requires forall j :: 0 <= j < i ==> Lower(ps[j].name) != Lower(projectName)
    requires lookup(ps[i].id).Fetched?
    ensures GetProjectByName(projectName, Ok(ps), workflows, lookup) == Ok(lookup(ps[i].id).value)
  {
    var keep := ProjectNamed(projectName, true);
    FilterFirst(keep, ps, i);
    var direct := Filter(keep, ps);
    assert FindProjectOutcome(projectName, true, Ok(ps), workflows, lookup)
        == Ok(ProjectsFound(|direct|, DirectHits(direct), false));
    assert DirectHits(direct)[0].id == ps[i].id;
  }
}
