/** The path guards of td_mcp_server/mcp_impl.py: project ids, file paths inside an
    archive, archive locations, and the per-member check applied before a tar member is
    listed or read. */
module SafePaths {
  import opened Text
  import opened PosixPath

  /** Members larger than this are refused (100 MiB). */
  const MaxFileSize: int := 100 * 1024 * 1024

  /** The extraction root the member guard is evaluated against. */
  const ExtractionRoot: string := "/tmp/validation"

  // ---------------------------------------------------------------------------
  // Project ids

  /** The character class `[a-zA-Z0-9_-]`. */
  predicate IdChar(c: char) {
    'a' <= c <= 'z' || 'A' <= c <= 'Z' || '0' <= c <= '9' || c == '_' || c == '-'
  }

  /** One or more characters of the class. */
  predicate IdWord(s: string) {
    s != [] && forall i :: 0 <= i < |s| ==> IdChar(s[i])
  }

  /** `re.match(r"^[a-zA-Z0-9_-]+$", s)`: Python's `$` also matches just before a final
      newline, so one trailing "\n" after the word is accepted. */
  predicate MatchesIdPattern(s: string) {
    IdWord(s) || (|s| >= 2 && s[|s| - 1] == '\n' && IdWord(s[..|s| - 1]))
  }

  /** `_validate_project_id`: non-empty, matching the pattern, and free of "..", '/'
      and '\'. */
  predicate ValidProjectId(s: string) {
    && s != []
    && MatchesIdPattern(s)
    && !Contains(s, "..")
    && !HasChar(s, '/')
    && !HasChar(s, '\\')
  }

  /** The traversal checks after the pattern can never reject: the pattern already
      excludes '.', '/' and '\'. So the accepted ids are exactly the words of the
      character class, each possibly followed by one newline. */
  lemma ValidProjectIdExactly(s: string)
    ensures ValidProjectId(s) <==>
      IdWord(s) || (|s| >= 2 && s[|s| - 1] == '\n' && IdWord(s[..|s| - 1]))
  {
    if MatchesIdPattern(s) {
      var w := if IdWord(s) then s else s[..|s| - 1];
      assert forall i :: 0 <= i < |w| ==> s[i] == w[i] && IdChar(s[i]);
      assert forall i :: 0 <= i < |s| ==> s[i] != '/' && s[i] != '\\' by {
        forall i | 0 <= i < |s|
          ensures s[i] != '/' && s[i] != '\\'
        {
          if i < |w| { assert IdChar(s[i]); } else { assert s[i] == '\n'; }
        }
      }
      forall i | 0 <= i <= |s| - 2
        ensures !OccursAt(s, "..", i)
      {
        assert IdChar(s[i]);
        assert s[i..i + 2][0] == s[i];
      }
    }
  }

  /** `re.sub(r"[^a-zA-Z0-9_-]", "_", s)`: every character outside the class becomes '_'. */
  function Sanitize(s: string): (r: string)
    ensures |r| == |s|
    ensures forall i :: 0 <= i < |s| ==> IdChar(r[i])
    ensures forall i :: 0 <= i < |s| && IdChar(s[i]) ==> r[i] == s[i]
    ensures forall i :: 0 <= i < |s| && !IdChar(s[i]) ==> r[i] == '_'
  {
    if s == [] then []
    else [if IdChar(s[0]) then s[0] else '_'] + Sanitize(s[1..])
  }

  /** On an accepted id, sanitising changes nothing except that a trailing newline
      becomes '_'. */
  lemma SanitizeValidId(s: string)
    requires ValidProjectId(s)
    ensures IdWord(s) ==> Sanitize(s) == s
    ensures !IdWord(s) ==> Sanitize(s) == s[..|s| - 1] + "_"
  {
    ValidProjectIdExactly(s);
    var r := Sanitize(s);
    if !IdWord(s) {
      assert forall i :: 0 <= i < |s| - 1 ==> s[i] == s[..|s| - 1][i];
      assert !IdChar(s[|s| - 1]);
    }
  }

  /** The name `td_download_project_archive` gives the downloaded archive. */
  function ArchiveFileName(projectId: string): string {
    "project_" + Sanitize(projectId) + ".tar.gz"
  }

  /** `os.path.join(temp_dir, f"project_{safe_filename}.tar.gz")`. */
  function DownloadPath(tempDir: string, projectId: string): string {
    JoinPath(tempDir, ArchiveFileName(projectId))
  }

  /** The archive lands directly inside the temporary directory: for an accepted id
      without a trailing newline the path is the directory, '/', "project_", the id
      itself and ".tar.gz"; for any id the file name holds no separator. */
  lemma DownloadPathShape(tempDir: string, projectId: string)
    requires tempDir != [] && !EndsWith(tempDir, "/")
    ensures DownloadPath(tempDir, projectId) == tempDir + "/" + ArchiveFileName(projectId)
    ensures '/' !in ArchiveFileName(projectId)
    ensures ValidProjectId(projectId) && IdWord(projectId) ==>
      DownloadPath(tempDir, projectId) == tempDir + "/project_" + projectId + ".tar.gz"
  {
    var name := ArchiveFileName(projectId);
    var mid := Sanitize(projectId);
    assert name == "project_" + mid + ".tar.gz";
    assert forall i :: 0 <= i < |mid| ==> name[8 + i] == mid[i];
    assert forall i :: 0 <= i < |name| ==> name[i] != '/' by {
      forall i | 0 <= i < |name|
        ensures name[i] != '/'
      {
        if 8 <= i < 8 + |mid| {
          assert IdChar(mid[i - 8]);
        }
      }
    }
    assert !StartsWith(name, "/") by { assert name[0] == 'p'; }
    if ValidProjectId(projectId) && IdWord(projectId) {
      SanitizeValidId(projectId);
      assert tempDir + "/" + ("project_" + projectId + ".tar.gz")
          == tempDir + "/project_" + projectId + ".tar.gz";
    }
  }

  // ---------------------------------------------------------------------------
  // File paths inside an archive

  /** `_validate_file_path`: non-empty, and its normalisation neither starts with '/'
      or '\' nor contains "..". */
  predicate ValidFilePath(p: string) {
    var n := Normpath(p);
    p != [] && !StartsWith(n, "/") && !StartsWith(n, "\\") && !Contains(n, "..")
  }

  /** An accepted file path is relative, and normalises to "." or to plain components
      (no "", ".", ".." or separator inside one) joined by '/'. */
  lemma ValidFilePathIsRelative(p: string)
    requires ValidFilePath(p)
    ensures !StartsWith(p, "/")
    ensures Normpath(p) == "." || Normpath(p) == Join(NormComps(p))
    ensures forall k :: 0 <= k < |NormComps(p)| ==> Kept(NormComps(p)[k]) && NormComps(p)[k] != ".."
  {
    NormpathRooted(p);
    RelativeNormpath(p);
  }

  // ---------------------------------------------------------------------------
  // Archive locations

  /** `_validate_archive_path`, with `tempfile.gettempdir()` as `tempPrefix`: non-empty,
      the normalised path begins (as plain text) with the temp directory or "/tmp" and
      holds no "..", and the path as given ends with ".tar.gz". */
  predicate ValidArchivePath(path: string, tempPrefix: string) {
    var n := Normpath(path);
    && path != []
    && (StartsWith(n, tempPrefix) || StartsWith(n, "/tmp"))
    && !Contains(n, "..")
    && EndsWith(path, ".tar.gz")
  }

  /** With an absolute temp directory, only absolute paths are accepted. */
  lemma AcceptedArchivePathIsAbsolute(path: string, tempPrefix: string)
    requires StartsWith(tempPrefix, "/")
    requires ValidArchivePath(path, tempPrefix)
    ensures StartsWith(path, "/")
  {
    var n := Normpath(path);
    if StartsWith(n, tempPrefix) {
      assert n[0] == tempPrefix[0];
    } else {
      assert n[0] == "/tmp"[0];
    }
    assert n[..1] == [n[0]];
    NormpathRooted(path);
  }

  // ---------------------------------------------------------------------------
  // The member guard

  /** `_safe_extract_member(member, root)` for a member with this name and size. */
  predicate SafeMember(name: string, size: int, root: string) {
    var n := Normpath(name);
    && !StartsWith(n, "/")
    && !StartsWith(n, "\\")
    && !Contains(n, "..")
    && StartsWith(JoinPath(root, n), root)
    && size <= MaxFileSize
  }

  /** The joined-path check never rejects: once the normalised name is relative, joining
      it under the root yields a path that starts with the root. So the guard is exactly
      the three name checks and the size limit. */
  lemma SafeMemberWithoutJoinCheck(name: string, size: int, root: string)
    ensures SafeMember(name, size, root) <==>
      var n := Normpath(name);
      !StartsWith(n, "/") && !StartsWith(n, "\\") && !Contains(n, "..") && size <= MaxFileSize
  {
    var n := Normpath(name);
    if !StartsWith(n, "/") {
      JoinPathUnder(root, n);
    }
  }

  /** A member that passes the guard names the root itself or a path strictly below it
      made of plain components. */
  lemma SafeMemberStaysBelowRoot(name: string, size: int, root: string)
    requires SafeMember(name, size, root)
    ensures !StartsWith(name, "/") && size <= MaxFileSize
    ensures Normpath(name) == "." || Normpath(name) == Join(NormComps(name))
    ensures forall k :: 0 <= k < |NormComps(name)| ==>
      Kept(NormComps(name)[k]) && NormComps(name)[k] != ".."
  {
    NormpathRooted(name);
    RelativeNormpath(name);
  }

  /** Absolute member names are refused. */
  lemma AbsoluteMemberRefused(name: string, size: int, root: string)
    requires StartsWith(name, "/")
    ensures !SafeMember(name, size, root)
  {
    NormpathRooted(name);
  }

  /** Names climbing out with a leading "../", such as "../../etc/passwd", are refused. */
  lemma ParentTraversalRefused(rest: string, size: int, root: string)
    ensures !SafeMember("../" + rest, size, root)
  {
    var name := "../" + rest;
    assert name == ".." + "/" + rest;
    SplitAround("..", rest);
    NoSeparatorSplit("..");
    assert !StartsWith(name, "/") by { assert name[0] == '.'; }
    ParentPrefixSurvives(name);
    var n := Normpath(name);
    assert OccursAt(n, "..", 0);
  }

  /** A single-component name is its own normalisation. */
  lemma PlainNameNormal(name: string)
    requires name != [] && name != "." && '/' !in name
    ensures Normpath(name) == name
  {
    NoSeparatorSplit(name);
    assert !StartsWith(name, "/") by { assert name[0] != '/'; }
    assert Push([], name, false) == [name];
    assert Fold([], [name], false) == Fold([name], [], false);
    assert Join([name]) == name;
  }

  /** Any ".." in a single-component name is refused, even a harmless one such as
      "a..b.sql". */
  lemma DoubleDotNameRefused(name: string, size: int, root: string)
    requires '/' !in name && Contains(name, "..")
    ensures !SafeMember(name, size, root)
  {
    assert |name| >= 2;
    assert name != "." by { assert |"."| == 1; }
    PlainNameNormal(name);
  }

  /** Members over 100 MiB are refused whatever their name. */
  lemma OversizedMemberRefused(name: string, size: int, root: string)
    requires size > MaxFileSize
    ensures !SafeMember(name, size, root)
  {
  }
}
