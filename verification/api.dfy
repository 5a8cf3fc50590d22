/** The Treasure Data REST client of td_mcp_server/api.py: the records it parses, the
    client-side paging shared by its list calls, the first-match database lookup, and
    the derivation of its endpoints and headers. The HTTP calls themselves are not
    modelled: every operation takes the list the endpoint returned as a parameter. */
module Api {
  import opened Wrappers
  import opened Text

  // ---------------------------------------------------------------------------
  // Records

  datatype Database = Database(
    name: string,
    createdAt: string,
    updatedAt: string,
    count: int,
    organization: Option<string>,
    permission: string,
    deleteProtected: bool)

  datatype Table = Table(
    id: int,
    name: string,
    estimatedStorageSize: int,
    counterUpdatedAt: string,
    lastLogTimestamp: Option<string>,
    deleteProtected: bool,
    createdAt: string,
    updatedAt: string,
    tableType: string,
    includeV: bool,
    count: int,
    tableSchema: Option<string>,
    expireDays: Option<int>)

  datatype Metadata = Metadata(key: string, value: string)

  datatype Project = Project(
    id: string,
    name: string,
    revision: string,
    createdAt: string,
    updatedAt: string,
    deletedAt: Option<string>,
    archiveType: string,
    archiveMd5: string,
    metadata: seq<Metadata>)

  /** Workflow records, as the tools read them: the owning project, the schedule
      (a JSON object, absent when unscheduled) and the most recent sessions. */
  datatype ProjectInfo = ProjectInfo(id: string, name: string)

  datatype Attempt = Attempt(status: string, success: bool)

  datatype Session = Session(sessionTime: string, lastAttempt: Attempt)

  datatype Workflow = Workflow(
    id: string,
    name: string,
    project: ProjectInfo,
    timezone: string,
    schedule: Option<map<string, string>>,
    latestSessions: seq<Session>)

  // ---------------------------------------------------------------------------
  // Paging

  function Min(a: int, b: int): int {
    if a <= b then a else b
  }

  function Clamp(i: int, n: nat): (r: nat)
    ensures r <= n
  {
    if i < 0 then 0 else if i > n then n else i
  }

  /** Python's slice `s[start:stop]` for any integers: a negative bound counts from the
      end, and both bounds are then clamped to the sequence. */
  function PySlice<T>(s: seq<T>, start: int, stop: int): seq<T> {
    var lo := Clamp(if start < 0 then start + |s| else start, |s|);
    var hi := Clamp(if stop < 0 then stop + |s| else stop, |s|);
    if lo < hi then s[lo..hi] else []
  }

  /** The paging of `get_databases`, `get_tables` and `get_projects` exactly as written:
      `end_index` is `offset + limit` unless that passes the end of the list, and the page
      is the Python slice `all[offset:end_index]`. */
  function PageAsWritten<T>(all: seq<T>, limit: int, offset: int, allResults: bool): seq<T> {
    if allResults then all
    else
      var endIndex := if offset + limit <= |all| then offset + limit else |all|;
      PySlice(all, offset, endIndex)
  }

  /** With a negative limit whose sum with the offset is negative, `end_index` becomes a
      negative slice bound, which Python counts from the end: three databases, `limit=-1`,
      `offset=0` give the first two instead of an empty page. */
  lemma NegativeLimitCounterexample()
    ensures PageAsWritten([1, 2, 3], -1, 0, false) == [1, 2]
  {
    assert PySlice([1, 2, 3], 0, -1) == [1, 2, 3][0..2];
  }

  /** `r` is the run of `all` starting at index `lo`. */
  ghost predicate SliceAt<T>(all: seq<T>, r: seq<T>, lo: int) {
    0 <= lo <= |all| - |r| && r == all[lo..lo + |r|]
  }

  /** The paging the list calls evidently intend: `all_results` returns everything; a
      limit of zero or less returns an empty page; otherwise the Python slice from
      `offset` to `min(offset + limit, len(all))`. */
  function Page<T>(all: seq<T>, limit: int, offset: int, allResults: bool): (r: seq<T>)
    ensures allResults ==> r == all
    ensures !allResults && 0 <= offset && 0 <= limit ==>
      r == all[Min(offset, |all|)..Min(offset + limit, |all|)]
    ensures !allResults && (limit <= 0 || offset >= |all|) ==> r == []
    ensures !allResults ==> |r| <= |all| && (limit <= 0 || |r| <= limit)
    ensures exists lo :: SliceAt(all, r, lo)
  {
    if allResults then
      assert SliceAt(all, all, 0);
      all
    else if limit <= 0 then
      assert SliceAt(all, [], 0);
      []
    else
      var endIndex := if offset + limit <= |all| then offset + limit else |all|;
      var r := PySlice(all, offset, endIndex);
      var lo := Clamp(if offset < 0 then offset + |all| else offset, |all|);
      assert SliceAt(all, r, if r == [] then 0 else lo);
      r
  }

  /** The corrected paging differs from the code only for negative limits. */
  lemma PageAgreesForNonNegativeLimit<T>(all: seq<T>, limit: int, offset: int, allResults: bool)
    requires limit >= 0
    ensures Page(all, limit, offset, allResults) == PageAsWritten(all, limit, offset, allResults)
  {
  }

  /** Where the code's paging and the corrected one part: they agree unless `offset + limit`
      is negative, and then the code slices up to that negative stop, which Python counts
      from the end of the list. */
  lemma {:induction false} PageAsWrittenAgainstPage<T>(all: seq<T>, limit: int, offset: int, allResults: bool)
    ensures limit >= 0 || offset + limit >= 0 ==>
      PageAsWritten(all, limit, offset, allResults) == Page(all, limit, offset, allResults)
    ensures !allResults && offset + limit < 0 ==>
      PageAsWritten(all, limit, offset, allResults) == PySlice(all, offset, offset + limit)
  {
    if !allResults && limit < 0 && offset + limit >= 0 {
      var endIndex := if offset + limit <= |all| then offset + limit else |all|;
      assert Clamp(endIndex, |all|) <= Clamp(offset, |all|);
    }
  }

  // ---------------------------------------------------------------------------
  // Endpoint derivation

  /** `endpoint.replace("api.", "api-workflow.")` */
  function WorkflowEndpointFor(endpoint: string): string {
    ReplaceAll(endpoint, "api.", "api-workflow.")
  }

  /** A prefix free of "api." is copied unchanged when an "api." follows it: no proper
      prefix of "api." is also a suffix of it, so no occurrence straddles the two. */
  lemma {:induction false} SkipFreePrefix(a: string, s: string)
    requires !Contains(a, "api.") && StartsWith(s, "api.")
    ensures WorkflowEndpointFor(a + s) == a + WorkflowEndpointFor(s)
    decreases |a|
  {
    if a == [] {
      assert a + s == s;
    } else {
      var t := a + s;
      assert t[0] == a[0] && t[1..] == a[1..] + s;
      assert !StartsWith(a, "api.") by {
        if |a| >= 4 {
          assert !OccursAt(a, "api.", 0);
        }
      }
      assert t[..4] != "api." by {
        if |a| >= 4 {
          assert t[..4] == a[..4];
        } else {
          assert t[..4][|a|] == s[0] == 'a';
          assert "api."[1] == 'p' && "api."[2] == 'i' && "api."[3] == '.';
        }
      }
      ContainsShift(a, "api.");
      SkipFreePrefix(a[1..], s);
      calc {
        WorkflowEndpointFor(t);
        [t[0]] + WorkflowEndpointFor(t[1..]);
        [a[0]] + (a[1..] + WorkflowEndpointFor(s));
        a + WorkflowEndpointFor(s);
      }
    }
  }

  /** An "api." between text that holds no "api." is rewritten where it stands, and
      nothing else changes: the default US endpoint `api.treasuredata.com` and the Tokyo
      endpoint `api.treasuredata.co.jp` both take this form with an empty `a`. */
  lemma ApiDotRewrittenInPlace(a: string, d: string)
    requires !Contains(a, "api.") && !Contains(d, "api.")
    ensures WorkflowEndpointFor(a + ("api." + d)) == a + ("api-workflow." + d)
  {
    ReplaceAbsent(d, "api.", "api-workflow.");
    ReplaceFront(d, "api.", "api-workflow.");
    SkipFreePrefix(a, "api." + d);
  }

  /** The domain of the Tokyo region. */
  const TokyoDomain := "treasuredata.co.jp"

  /** The Tokyo region: `api.treasuredata.co.jp` derives `api-workflow.treasuredata.co.jp`. */
  lemma TokyoWorkflowEndpoint()
    ensures WorkflowEndpointFor("api." + TokyoDomain) == "api-workflow." + TokyoDomain
  {
    assert !Contains(TokyoDomain, "api.") by {
      assert TokyoDomain == "treasure" + "data" + ".co.jp";
      assert 'i' !in "treasure" && 'i' !in "data" && 'i' !in ".co.jp";
      MissingCharNotContained(TokyoDomain, "api.", 2);
    }
    ApiDotRewrittenInPlace([], TokyoDomain);
    assert [] + ("api." + TokyoDomain) == "api." + TokyoDomain;
    assert [] + ("api-workflow." + TokyoDomain) == "api-workflow." + TokyoDomain;
  }

  /** Rewriting one character that does not begin "api.". */
  lemma DeriveSkip(s: string)
    requires s != [] && !StartsWith(s, "api.")
    ensures WorkflowEndpointFor(s) == [s[0]] + WorkflowEndpointFor(s[1..])
  {
  }

  /** If the derived endpoint does not start with 'a', neither does the input, and the
      derivation moved past exactly one character. */
  lemma DeriveHead(t: string)
    requires WorkflowEndpointFor(t) != [] && WorkflowEndpointFor(t)[0] != 'a'
    ensures t != [] && t[0] == WorkflowEndpointFor(t)[0]
    ensures WorkflowEndpointFor(t) == [t[0]] + WorkflowEndpointFor(t[1..])
  {
    if |t| < 4 {
      assert WorkflowEndpointFor(t) == t;
      assert WorkflowEndpointFor(t[1..]) == t[1..];
    }
  }

  /** A derived endpoint starting with "pi." comes from an input starting with "pi.". */
  lemma DerivedPiDot(t: string)
    requires StartsWith(WorkflowEndpointFor(t), "pi.")
    ensures StartsWith(t, "pi.")
  {
    var r := WorkflowEndpointFor(t);
    assert r[0] == 'p' && r[1] == 'i' && r[2] == '.';
    DeriveHead(t);
    var r1 := WorkflowEndpointFor(t[1..]);
    assert r1[0] == r[1];
    DeriveHead(t[1..]);
    var r2 := WorkflowEndpointFor(t[2..]);
    assert r2[0] == r1[1] == r[2];
    DeriveHead(t[2..]);
    assert t[..3] == [t[0], t[1], t[2]];
  }

  /** "api-workflow." contributes no occurrence of "api.". */
  lemma ReplacementAddsNone(x: string)
    requires !Contains(x, "api.")
    ensures !Contains("api-workflow." + x, "api.")
  {
    var r := "api-workflow." + x;
    forall i | 0 <= i <= |r| - 4
      ensures !OccursAt(r, "api.", i)
    {
      if i >= 13 {
        assert r[i..i + 4] == x[i - 13..i - 13 + 4];
        assert !OccursAt(x, "api.", i - 13);
      } else if i == 0 {
        assert r[3] == '-';
      } else {
        assert r[i] == "api-workflow."[i] != 'a';
      }
    }
  }

  /** One character in front of a text without "api." creates an occurrence only at the front. */
  lemma OneCharAddsOnlyAtFront(c: char, x: string)
    requires !Contains(x, "api.")
    ensures Contains([c] + x, "api.") ==> StartsWith([c] + x, "api.")
  {
    var r := [c] + x;
    if Contains(r, "api.") {
      var i :| 0 <= i <= |r| - 4 && OccursAt(r, "api.", i);
      if i >= 1 {
        assert x[i - 1..i - 1 + 4] == r[i..i + 4];
        assert OccursAt(x, "api.", i - 1);
      }
    }
  }

  /** The derived workflow endpoint never contains "api.": every occurrence is replaced
      and no replacement creates a new one. */
  lemma {:induction false} WorkflowEndpointHasNoApiDot(s: string)
    ensures !Contains(WorkflowEndpointFor(s), "api.")
    decreases |s|
  {
    if |s| < 4 {
      assert WorkflowEndpointFor(s) == s;
    } else if s[..4] == "api." {
      WorkflowEndpointHasNoApiDot(s[4..]);
      ReplacementAddsNone(WorkflowEndpointFor(s[4..]));
    } else {
      var rest := WorkflowEndpointFor(s[1..]);
      WorkflowEndpointHasNoApiDot(s[1..]);
      DeriveSkip(s);
      OneCharAddsOnlyAtFront(s[0], rest);
      if StartsWith([s[0]] + rest, "api.") {
        assert rest[..3] == ([s[0]] + rest)[1..4] == "pi.";
        DerivedPiDot(s[1..]);
      }
    }
  }

  // ---------------------------------------------------------------------------
  // The client

  /** `api_key or os.environ.get("TD_API_KEY")`: the argument when it is a non-empty
      string, otherwise the environment value (which may itself be absent or empty). */
  function ResolveApiKey(apiKey: Option<string>, envApiKey: Option<string>): Option<string> {
    if apiKey.Some? && apiKey.value != "" then apiKey else envApiKey
  }

  const MissingKeyMessage := "API key must be provided via parameter or TD_API_KEY env var"

  class TreasureDataClient {
    var apiKey: string
    var endpoint: string
    var apiVersion: string
    var baseUrl: string
    var workflowEndpoint: string
    var workflowBaseUrl: string
    var headers: map<string, string>

    /** The field assignments of `__init__` once the key is known to be present. */
    constructor (apiKey: string, endpoint: string, apiVersion: string, workflowEndpoint: Option<string>)
      requires apiKey != ""
      ensures this.apiKey == apiKey && this.endpoint == endpoint && this.apiVersion == apiVersion
      ensures baseUrl == "https://" + endpoint + "/" + apiVersion
      ensures this.workflowEndpoint ==
        if workflowEndpoint.None? then WorkflowEndpointFor(endpoint) else workflowEndpoint.value
      ensures workflowBaseUrl == "https://" + this.workflowEndpoint + "/api"
      ensures headers == map["Authorization" := "TD1 " + apiKey, "Content-Type" := "application/json"]
    {
      this.apiKey := apiKey;
      this.endpoint := endpoint;
      this.apiVersion := apiVersion;
      baseUrl := "https://" + endpoint + "/" + apiVersion;
      this.workflowEndpoint :=
        if workflowEndpoint.None? then WorkflowEndpointFor(endpoint) else workflowEndpoint.value;
      workflowBaseUrl := "https://" + this.workflowEndpoint + "/api";
      headers := map["Authorization" := "TD1 " + apiKey, "Content-Type" := "application/json"];
    }

    /** `TreasureDataClient(api_key, endpoint, api_version, workflow_endpoint)`: fails with the
        ValueError message when neither the argument nor the environment gives a non-empty key. */
    static method Create(apiKey: Option<string>, envApiKey: Option<string>, endpoint: string,
                         apiVersion: string, workflowEndpoint: Option<string>)
      returns (r: Result<TreasureDataClient, string>)
      ensures var key := ResolveApiKey(apiKey, envApiKey);
        r.Err? <==> key.None? || key.value == ""
      ensures r.Err? ==> r.error == MissingKeyMessage
      ensures r.Ok? ==>
        && fresh(r.value)
        && r.value.apiKey == ResolveApiKey(apiKey, envApiKey).value
        && r.value.endpoint == endpoint
        && r.value.baseUrl == "https://" + endpoint + "/" + apiVersion
        && r.value.workflowEndpoint ==
             (if workflowEndpoint.None? then WorkflowEndpointFor(endpoint) else workflowEndpoint.value)
        && r.value.workflowBaseUrl == "https://" + r.value.workflowEndpoint + "/api"
        && r.value.headers == map["Authorization" := "TD1 " + r.value.apiKey,
                                  "Content-Type" := "application/json"]
    {
      var key := ResolveApiKey(apiKey, envApiKey);
      if key.None? || key.value == "" {
        return Err(MissingKeyMessage);
      }
      var c := new TreasureDataClient(key.value, endpoint, apiVersion, workflowEndpoint);
      return Ok(c);
    }

    /** `get_databases`: the page of the database list, sliced as the code does. */
    method GetDatabases(all: seq<Database>, limit: int, offset: int, allResults: bool)
      returns (r: seq<Database>)
      ensures allResults ==> r == all
      ensures limit >= 0 || offset + limit >= 0 ==> r == Page(all, limit, offset, allResults)
      ensures !allResults && offset + limit < 0 ==> r == PySlice(all, offset, offset + limit)
    {
      r := PageAsWritten(all, limit, offset, allResults);
      PageAsWrittenAgainstPage(all, limit, offset, allResults);
    }

    /** `get_tables`: the page of the table list of one database, sliced as the code does. */
    method GetTables(all: seq<Table>, limit: int, offset: int, allResults: bool)
      returns (r: seq<Table>)
      ensures allResults ==> r == all
      ensures limit >= 0 || offset + limit >= 0 ==> r == Page(all, limit, offset, allResults)
      ensures !allResults && offset + limit < 0 ==> r == PySlice(all, offset, offset + limit)
    {
      r := PageAsWritten(all, limit, offset, allResults);
      PageAsWrittenAgainstPage(all, limit, offset, allResults);
    }

    /** `get_projects`: the page of the workflow project list, sliced as the code does. */
    method GetProjects(all: seq<Project>, limit: int, offset: int, allResults: bool)
      returns (r: seq<Project>)
      ensures allResults ==> r == all
      ensures limit >= 0 || offset + limit >= 0 ==> r == Page(all, limit, offset, allResults)
      ensures !allResults && offset + limit < 0 ==> r == PySlice(all, offset, offset + limit)
    {
      r := PageAsWritten(all, limit, offset, allResults);
      PageAsWrittenAgainstPage(all, limit, offset, allResults);
    }

    /** `get_database`: the first database, in list order, whose name equals `name`. */
    method GetDatabase(all: seq<Database>, name: string) returns (r: Option<Database>)
      ensures r.None? <==> forall i :: 0 <= i < |all| ==> all[i].name != name
      ensures r.Some? ==> r.value.name == name
      ensures r.Some? ==> exists i :: 0 <= i < |all| && all[i] == r.value && (forall j :: 0 <= j < i ==> all[j].name != name)
    {
      var databases := GetDatabases(all, 30, 0, true);
      for i := 0 to |databases|
        invariant forall j :: 0 <= j < i ==> databases[j].name != name
      {
        if databases[i].name == name {
          return Some(databases[i]);
        }
      }
      return None;
    }
  }
}
