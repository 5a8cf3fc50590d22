/** Listing and reading a downloaded project archive (`td_list_project_files` and
    `td_read_project_file` in td_mcp_server/mcp_impl.py). The tar file is given as the
    sequence of its members; opening it either yields that sequence or fails. */
module ProjectArchive {
  import opened Wrappers
  import opened Text
  import opened PosixPath
  import opened Seqs
  import opened SafePaths

  /** Files larger than this are not read (10 MiB). */
  const MaxReadSize: int := 10 * 1024 * 1024

  newtype byte = x: int | 0 <= x < 256

  /** What the code sees of a member's type: `isdir()`, a regular file that
      `extractfile` opens, or anything else, for which `extractfile` gives None. */
  datatype MemberKind = Directory | RegularFile | Special

  datatype Member = Member(name: string, kind: MemberKind, size: int, data: seq<byte>)

  /** The result of `tarfile.open(archive_path, "r:gz")`. */
  datatype Archive = Unreadable(reason: string) | Readable(members: seq<Member>)

  // ---------------------------------------------------------------------------
  // Entries of a listing

  datatype FileType = DigdagWorkflow | SqlQuery | PythonScript | YamlConfiguration | OtherFile

  function FileTypeLabel(t: FileType): string {
    match t
    case DigdagWorkflow => "Digdag workflow"
    case SqlQuery => "SQL query"
    case PythonScript => "Python script"
    case YamlConfiguration => "YAML configuration"
    case OtherFile => "Other"
  }

  /** The file type an extension is reported as. */
  function Classify(ext: string): FileType {
    if ext == ".dig" then DigdagWorkflow
    else if ext == ".sql" then SqlQuery
    else if ext == ".py" then PythonScript
    else if ext == ".yml" || ext == ".yaml" then YamlConfiguration
    else OtherFile
  }

  /** `Path(name).suffix.lower()` */
  function Extension(name: string): string {
    Lower(Suffix(name))
  }

  /** Directories carry neither an extension nor a file type. */
  datatype EntryKind = DirectoryEntry | FileEntry(extension: string, fileType: FileType)

  datatype Entry = Entry(name: string, kind: EntryKind, size: int)

  /** The `file_info` dictionary built for one member. */
  function EntryOf(m: Member): Entry {
    if m.kind == Directory then Entry(m.name, DirectoryEntry, m.size)
    else Entry(m.name, FileEntry(Extension(m.name), Classify(Extension(m.name))), m.size)
  }

  function Entries(ms: seq<Member>): seq<Entry> {
    seq(|ms|, i requires 0 <= i < |ms| => EntryOf(ms[i]))
  }

  lemma EntriesConcat(a: seq<Member>, b: seq<Member>)
    ensures Entries(a + b) == Entries(a) + Entries(b)
  {
  }

  /** A member the listing keeps: it passes the guard against the validation root. */
  predicate Listed(m: Member) {
    SafeMember(m.name, m.size, ExtractionRoot)
  }

  /** The entries the listing loop collects, in archive order. */
  function KeptEntries(ms: seq<Member>): seq<Entry> {
    Entries(Filter(Listed, ms))
  }

  /** An extension is empty or a dot followed by one or more characters, none of them
      a dot or a separator. */
  lemma ExtensionShape(name: string)
    ensures var x := Extension(name);
      x == [] || (|x| >= 2 && x[0] == '.' && '.' !in x[1..] && '/' !in x)
  {
    var s := Suffix(name);
    SuffixShape(name);
    var x := Lower(s);
    if x != [] {
      assert x[0] == '.' by { assert x[0] == LowerChar(s[0]); }
      assert x[1..] == Lower(s[1..]);
      LowerKeepsMember(s[1..], '.');
      LowerKeepsMember(s, '/');
    }
  }

  // ---------------------------------------------------------------------------
  // The sort key `(0 if directory else 1, name)`

  /** Python's `<` on strings: code point by code point, a proper prefix first. */
  predicate StrLt(a: string, b: string)
    decreases |a|
  {
    if b == [] then false
    else if a == [] then true
    else if a[0] != b[0] then a[0] < b[0]
    else StrLt(a[1..], b[1..])
  }

  lemma {:induction false} StrLtIrreflexive(a: string)
    ensures !StrLt(a, a)
    decreases |a|
  {
    if a != [] {
      StrLtIrreflexive(a[1..]);
    }
  }

  lemma {:induction false} StrLtAsymmetric(a: string, b: string)
    requires StrLt(a, b)
    ensures !StrLt(b, a)
    decreases |a|
  {
    if a != [] && a[0] == b[0] {
      StrLtAsymmetric(a[1..], b[1..]);
    }
  }

  lemma {:induction false} StrLtTransitive(a: string, b: string, c: string)
    requires StrLt(a, b) && StrLt(b, c)
    ensures StrLt(a, c)
    decreases |a|
  {
    if a != [] && a[0] == b[0] && b[0] == c[0] {
      StrLtTransitive(a[1..], b[1..], c[1..]);
    }
  }

  lemma {:induction false} StrLtTotal(a: string, b: string)
    requires a != b
    ensures StrLt(a, b) || StrLt(b, a)
    decreases |a|
  {
    if a != [] && b != [] && a[0] == b[0] {
      assert a == [a[0]] + a[1..] && b == [b[0]] + b[1..];
      StrLtTotal(a[1..], b[1..]);
    }
  }

  function Rank(e: Entry): int {
    if e.kind.DirectoryEntry? then 0 else 1
  }

  /** The key of `x` sorts strictly before the key of `y`. */
  predicate KeyLt(x: Entry, y: Entry) {
    Rank(x) < Rank(y) || (Rank(x) == Rank(y) && StrLt(x.name, y.name))
  }

  predicate SameKey(x: Entry, y: Entry) {
    Rank(x) == Rank(y) && x.name == y.name
  }

  lemma KeyLtNotSame(x: Entry, y: Entry)
    requires KeyLt(x, y)
    ensures !SameKey(x, y) && !KeyLt(y, x)
  {
    StrLtIrreflexive(x.name);
    if Rank(x) == Rank(y) {
      StrLtAsymmetric(x.name, y.name);
    }
  }

  lemma KeyLtIrreflexive(x: Entry)
    ensures !KeyLt(x, x)
  {
    StrLtIrreflexive(x.name);
  }

  /** `x < y <= z` on keys gives `x < z`. */
  lemma KeyLtLe(x: Entry, y: Entry, z: Entry)
    requires KeyLt(x, y) && !KeyLt(z, y)
    ensures KeyLt(x, z)
  {
    if Rank(x) == Rank(y) && Rank(y) == Rank(z) && y.name != z.name {
      StrLtTotal(y.name, z.name);
      StrLtTransitive(x.name, y.name, z.name);
    }
  }

  predicate SortedByKey(s: seq<Entry>) {
    forall i, j :: 0 <= i < j < |s| ==> !KeyLt(s[j], s[i])
  }

  /** Place `x` after every entry whose key is not greater than its own. */
  function Insert(s: seq<Entry>, x: Entry): (r: seq<Entry>)
    ensures |r| == |s| + 1
    ensures multiset(r) == multiset(s) + multiset{x}
  {
    if s == [] || KeyLt(x, s[0]) then [x] + s
    else
      assert s == [s[0]] + s[1..];
      [s[0]] + Insert(s[1..], x)
  }

  lemma {:induction false} InsertSorted(s: seq<Entry>, x: Entry)
    requires SortedByKey(s)
    ensures SortedByKey(Insert(s, x))
  {
    if s == [] {
    } else if KeyLt(x, s[0]) {
      var r := [x] + s;
      forall i, j | 0 <= i < j < |r|
        ensures !KeyLt(r[j], r[i])
      {
        if i == 0 {
          KeyLtIrreflexive(s[0]);
          KeyLtLe(x, s[0], s[j - 1]);
          KeyLtNotSame(x, s[j - 1]);
        } else {
          assert r[i] == s[i - 1] && r[j] == s[j - 1];
        }
      }
    } else {
      InsertSorted(s[1..], x);
      var t := Insert(s[1..], x);
      var r := [s[0]] + t;
      forall i, j | 0 <= i < j < |r|
        ensures !KeyLt(r[j], r[i])
      {
        if i == 0 {
          var y := t[j - 1];
          assert y in multiset(t);
          if y != x {
            assert y in multiset(s[1..]);
            var k :| 0 <= k < |s[1..]| && s[1..][k] == y;
            assert s[k + 1] == y;
          }
        } else {
          assert r[i] == t[i - 1] && r[j] == t[j - 1];
        }
      }
    }
  }

  /** `file_list.sort(key=...)`: a stable insertion sort on the key. */
  function SortEntries(s: seq<Entry>): (r: seq<Entry>)
    ensures multiset(r) == multiset(s)
    ensures SortedByKey(r)
    decreases |s|
  {
    if s == [] then []
    else
      var init := s[..|s| - 1];
      assert s == init + [s[|s| - 1]];
      InsertSorted(SortEntries(init), s[|s| - 1]);
      Insert(SortEntries(init), s[|s| - 1])
  }

  /** The entries sharing a key with `e`, as a filter predicate. */
  function SameKeyAs(e: Entry): Entry -> bool {
    y => SameKey(y, e)
  }

  /** Inserting in front of a sorted list whose head is strictly greater. */
  lemma InsertStableFront(s: seq<Entry>, x: Entry, e: Entry)
    requires SortedByKey(s) && s != [] && KeyLt(x, s[0])
    ensures Filter(SameKeyAs(e), [x] + s) == Filter(SameKeyAs(e), s) + (if SameKey(x, e) then [x] else [])
  {
    var keep := SameKeyAs(e);
    FilterConcat(keep, [x], s);
    FilterSingle(keep, x);
    if SameKey(x, e) {
      forall i | 0 <= i < |s|
        ensures !keep(s[i])
      {
        KeyLtIrreflexive(s[0]);
        KeyLtLe(x, s[0], s[i]);
        KeyLtNotSame(x, s[i]);
      }
      FilterEmpty(keep, s);
    }
  }

  /** Moving past a head that is not greater than `x`. */
  lemma InsertStablePast(s: seq<Entry>, x: Entry, e: Entry, tail: seq<Entry>)
    requires s != []
    requires Filter(SameKeyAs(e), tail) == Filter(SameKeyAs(e), s[1..]) + (if SameKey(x, e) then [x] else [])
    ensures Filter(SameKeyAs(e), [s[0]] + tail) == Filter(SameKeyAs(e), s) + (if SameKey(x, e) then [x] else [])
  {
    var keep := SameKeyAs(e);
    var extra := if SameKey(x, e) then [x] else [];
    FilterConcat(keep, [s[0]], tail);
    FilterConcat(keep, [s[0]], s[1..]);
    assert [s[0]] + s[1..] == s;
    calc {
      Filter(keep, [s[0]] + tail);
      Filter(keep, [s[0]]) + Filter(keep, tail);
      Filter(keep, [s[0]]) + (Filter(keep, s[1..]) + extra);
      (Filter(keep, [s[0]]) + Filter(keep, s[1..])) + extra;
      Filter(keep, s) + extra;
    }
  }

  lemma {:induction false} InsertStable(s: seq<Entry>, x: Entry, e: Entry)
    requires SortedByKey(s)
    ensures Filter(SameKeyAs(e), Insert(s, x)) ==
      Filter(SameKeyAs(e), s) + (if SameKey(x, e) then [x] else [])
  {
    if s == [] {
      FilterSingle(SameKeyAs(e), x);
    } else if KeyLt(x, s[0]) {
      InsertStableFront(s, x, e);
    } else {
      InsertStable(s[1..], x, e);
      InsertStablePast(s, x, e, Insert(s[1..], x));
    }
  }

  /** Entries with equal keys keep their relative order, as in Python's stable sort;
      together with sortedness and the permutation this fixes the result. */
  lemma {:induction false} SortStable(s: seq<Entry>, e: Entry)
    ensures Filter(SameKeyAs(e), SortEntries(s)) == Filter(SameKeyAs(e), s)
    decreases |s|
  {
    if s != [] {
      var init := s[..|s| - 1];
      SortStable(init, e);
      InsertStable(SortEntries(init), s[|s| - 1], e);
    }
  }

  // ---------------------------------------------------------------------------
  // td_list_project_files

  datatype Listing = Listing(archivePath: string, fileCount: int, files: seq<Entry>)

  /** `td_list_project_files`, with `os.path.exists(archive_path)` as `exists` and
      `tempfile.gettempdir()` as `tempPrefix`. */
  method ListProjectFiles(archivePath: string, tempPrefix: string, archiveExists: bool, archive: Archive)
    returns (r: Result<Listing, string>)
    ensures !ValidArchivePath(archivePath, tempPrefix) ==> r == Err("Invalid archive path")
    ensures ValidArchivePath(archivePath, tempPrefix) && !archiveExists ==> r == Err("Archive file not found")
    ensures ValidArchivePath(archivePath, tempPrefix) && archiveExists && archive.Unreadable? ==>
      r == Err("Failed to list project files: " + archive.reason)
    ensures ValidArchivePath(archivePath, tempPrefix) && archiveExists && archive.Readable? ==>
      var files := SortEntries(KeptEntries(archive.members));
      r == Ok(Listing(archivePath, |files|, files))
  {
    if !ValidArchivePath(archivePath, tempPrefix) {
      return Err("Invalid archive path");
    }
    if !archiveExists {
      return Err("Archive file not found");
    }
    if archive.Unreadable? {
      return Err("Failed to list project files: " + archive.reason);
    }
    var fileList := CollectEntries(archive.members);
    var files := SortEntries(fileList);
    return Ok(Listing(archivePath, |files|, files));
  }

  /** One more member seen by the listing loop. */
  lemma KeptEntriesStep(ms: seq<Member>, i: int)
    requires 0 <= i < |ms|
    ensures KeptEntries(ms[..i + 1])
         == KeptEntries(ms[..i]) + (if Listed(ms[i]) then [EntryOf(ms[i])] else [])
  {
    FilterStep(Listed, ms, i);
    EntriesConcat(Filter(Listed, ms[..i]), if Listed(ms[i]) then [ms[i]] else []);
  }

  /** The loop of `td_list_project_files`: unsafe members are skipped, the others
      appended as their `file_info`. */
  method CollectEntries(members: seq<Member>) returns (fileList: seq<Entry>)
    ensures fileList == KeptEntries(members)
  {
    fileList := [];
    for i := 0 to |members|
      invariant fileList == KeptEntries(members[..i])
    {
      var member := members[i];
      KeptEntriesStep(members, i);
      if !SafeMember(member.name, member.size, ExtractionRoot) {
        continue;
      }
      var info := if member.kind == Directory then Entry(member.name, DirectoryEntry, member.size)
        else
          var ext := Lower(Suffix(member.name));
          Entry(member.name, FileEntry(ext, Classify(ext)), member.size);
      assert info == EntryOf(member);
      fileList := fileList + [info];
    }
    assert members[..|members|] == members;
  }

  /** Every entry the listing loop collects comes from a member that passes the guard. */
  lemma KeptEntriesAreSafe(ms: seq<Member>, e: Entry)
    requires e in multiset(KeptEntries(ms))
    ensures SafeMember(e.name, e.size, ExtractionRoot)
  {
    var kept := Filter(Listed, ms);
    var j :| 0 <= j < |kept| && Entries(kept)[j] == e;
    assert Listed(kept[j]);
  }

  /** Every member that passes the guard has its entry collected. */
  lemma SafeMemberCollected(ms: seq<Member>, i: int)
    requires 0 <= i < |ms| && Listed(ms[i])
    ensures EntryOf(ms[i]) in multiset(KeptEntries(ms))
  {
    var kept := Filter(Listed, ms);
    var j :| 0 <= j < |kept| && kept[j] == ms[i];
    assert Entries(kept)[j] == EntryOf(ms[i]);
  }

  /** The listing holds exactly the entries of the members that pass the guard, each as
      often as such members produce it: unsafe members are skipped, nothing is added. */
  lemma ListingIsPermutationOfSafeMembers(ms: seq<Member>)
    ensures multiset(SortEntries(KeptEntries(ms))) == multiset(Entries(Filter(Listed, ms)))
    ensures forall k :: 0 <= k < |SortEntries(KeptEntries(ms))| ==>
      SafeMember(SortEntries(KeptEntries(ms))[k].name, SortEntries(KeptEntries(ms))[k].size, ExtractionRoot)
    ensures forall i :: 0 <= i < |ms| && Listed(ms[i]) ==> EntryOf(ms[i]) in SortEntries(KeptEntries(ms))
  {
    var files := SortEntries(KeptEntries(ms));
    forall k | 0 <= k < |files|
      ensures SafeMember(files[k].name, files[k].size, ExtractionRoot)
    {
      assert files[k] in multiset(files);
      KeptEntriesAreSafe(ms, files[k]);
    }
    forall i | 0 <= i < |ms| && Listed(ms[i])
      ensures EntryOf(ms[i]) in files
    {
      SafeMemberCollected(ms, i);
      assert EntryOf(ms[i]) in multiset(files);
    }
  }

  /** All directories come before all files, and names ascend within each group. */
  lemma ListingOrder(ms: seq<Member>, i: int, j: int)
    requires 0 <= i < j < |SortEntries(KeptEntries(ms))|
    ensures var files := SortEntries(KeptEntries(ms));
      && (files[j].kind.DirectoryEntry? ==> files[i].kind.DirectoryEntry?)
      && (files[i].kind.DirectoryEntry? == files[j].kind.DirectoryEntry? ==>
            !StrLt(files[j].name, files[i].name))
  {
  }

  /** A member whose name climbs out with "../" never shows up in a listing. */
  lemma TraversalNeverListed(ms: seq<Member>, rest: string)
    ensures forall k :: 0 <= k < |SortEntries(KeptEntries(ms))| ==>
      SortEntries(KeptEntries(ms))[k].name != "../" + rest
  {
    ListingIsPermutationOfSafeMembers(ms);
    forall k | 0 <= k < |SortEntries(KeptEntries(ms))|
      ensures SortEntries(KeptEntries(ms))[k].name != "../" + rest
    {
      ParentTraversalRefused(rest, SortEntries(KeptEntries(ms))[k].size, ExtractionRoot);
    }
  }

  /** Each file entry carries the lower-cased suffix of its name and the type that suffix
      maps to; directories carry neither. */
  lemma EntryClassification(m: Member)
    ensures EntryOf(m).name == m.name && EntryOf(m).size == m.size
    ensures m.kind == Directory <==> EntryOf(m).kind == DirectoryEntry
    ensures m.kind != Directory ==>
      && EntryOf(m).kind.extension == Extension(m.name)
      && (EntryOf(m).kind.fileType == DigdagWorkflow <==> Extension(m.name) == ".dig")
      && (EntryOf(m).kind.fileType == SqlQuery <==> Extension(m.name) == ".sql")
      && (EntryOf(m).kind.fileType == PythonScript <==> Extension(m.name) == ".py")
      && (EntryOf(m).kind.fileType == YamlConfiguration <==>
            Extension(m.name) == ".yml" || Extension(m.name) == ".yaml")
  {
  }

  // ---------------------------------------------------------------------------
  // td_read_project_file

  datatype ReadError =
    | InvalidArchivePath
    | InvalidFilePath
    | ArchiveNotFound
    | CorruptArchive
    | NotInArchive
    | AccessDenied
    | DirectoryNotReadable
    | ExtractFailed
    | TooLarge
    | NotText

  function ErrorMessage(e: ReadError): string {
    match e
    case InvalidArchivePath => "Invalid archive path"
    case InvalidFilePath => "Invalid file path"
    case ArchiveNotFound => "Archive file not found"
    case CorruptArchive => "Invalid or corrupted archive file"
    case NotInArchive => "File not found in archive"
    case AccessDenied => "File access denied for security reasons"
    case DirectoryNotReadable => "Cannot read directory contents"
    case ExtractFailed => "Failed to extract file"
    case TooLarge => "File too large to read"
    case NotText => "File is not readable as text"
  }

  datatype FileContent = FileContent(filePath: string, content: string, size: int, extension: string)

  /** `s.rstrip('/')` */
  function RStripSlash(s: string): (r: string)
    ensures |r| <= |s| && r == s[..|r|]
    ensures r == [] || r[|r| - 1] != '/'
    ensures forall i :: |r| <= i < |s| ==> s[i] == '/'
  {
    if s != [] && s[|s| - 1] == '/' then RStripSlash(s[..|s| - 1]) else s
  }

  /** `tar.getmember(name)`: the last member with that exact name, after trailing
      slashes are stripped from the name asked for. */
  function LastMember(ms: seq<Member>, name: string): (r: Option<Member>)
    ensures r.None? <==> forall i :: 0 <= i < |ms| ==> ms[i].name != name
    ensures r.Some? ==> r.value.name == name
    ensures r.Some? ==> exists i :: 0 <= i < |ms| && ms[i] == r.value && (forall j :: i < j < |ms| ==> ms[j].name != name)
  {
    var k := LastIndexBelow(ms, name, |ms|);
    if k < 0 then None else Some(ms[k])
  }

  /** The index of the last member before `n` with that name, or -1 when none has it. */
  function LastIndexBelow(ms: seq<Member>, name: string, n: int): (k: int)
    requires 0 <= n <= |ms|
    ensures -1 <= k < n
    ensures k == -1 <==> forall i :: 0 <= i < n ==> ms[i].name != name
    ensures k >= 0 ==> ms[k].name == name && forall j :: k < j < n ==> ms[j].name != name
    decreases n
  {
    if n == 0 then -1
    else if ms[n - 1].name == name then n - 1
    else LastIndexBelow(ms, name, n - 1)
  }

  /** `bytes.decode("latin-1")`: every byte is the code point of the same value. */
  function Latin1(b: seq<byte>): (r: string)
    ensures |r| == |b|
    ensures forall i :: 0 <= i < |b| ==> r[i] as int == b[i] as int
  {
    if b == [] then [] else [b[0] as int as char] + Latin1(b[1..])
  }

  /** UTF-8 first, latin-1 when that fails; `utf8` stands for `bytes.decode("utf-8")`. */
  function Decode(data: seq<byte>, utf8: seq<byte> -> Option<string>): string {
    match utf8(data)
    case Some(text) => text
    case None => Latin1(data)
  }

  /** `td_read_project_file`: the checks run in this order and the first that fails
      decides the error. */
  function ReadProjectFile(archivePath: string, filePath: string, tempPrefix: string, archiveExists: bool,
                           archive: Archive, utf8: seq<byte> -> Option<string>): (r: Result<FileContent, ReadError>)
    ensures r == Err(InvalidArchivePath) <==> !ValidArchivePath(archivePath, tempPrefix)
    ensures r == Err(InvalidFilePath) <==>
      ValidArchivePath(archivePath, tempPrefix) && !ValidFilePath(filePath)
    ensures r == Err(ArchiveNotFound) <==>
      ValidArchivePath(archivePath, tempPrefix) && ValidFilePath(filePath) && !archiveExists
    ensures r == Err(CorruptArchive) <==>
      ValidArchivePath(archivePath, tempPrefix) && ValidFilePath(filePath) && archiveExists && archive.Unreadable?
    ensures ValidArchivePath(archivePath, tempPrefix) && ValidFilePath(filePath) && archiveExists && archive.Readable? ==>
      var found := LastMember(archive.members, RStripSlash(filePath));
      && (r == Err(NotInArchive) <==> found.None?)
      && (r == Err(AccessDenied) <==> found.Some? && !SafeMember(found.value.name, found.value.size, ExtractionRoot))
      && (r == Err(DirectoryNotReadable) <==>
            found.Some? && SafeMember(found.value.name, found.value.size, ExtractionRoot) && found.value.kind == Directory)
      && (r == Err(ExtractFailed) <==>
            found.Some? && SafeMember(found.value.name, found.value.size, ExtractionRoot) && found.value.kind == Special)
      && (r == Err(TooLarge) <==>
            found.Some? && SafeMember(found.value.name, found.value.size, ExtractionRoot)
            && found.value.kind == RegularFile && found.value.size > MaxReadSize)
    ensures r != Err(NotText)
    ensures r.Ok? ==>
      && archive.Readable? && LastMember(archive.members, RStripSlash(filePath)).Some?
      && var m := LastMember(archive.members, RStripSlash(filePath)).value;
      && m.kind == RegularFile && m.size <= MaxReadSize
      && r.value == FileContent(filePath, Decode(m.data, utf8), m.size, Extension(filePath))
  {
    if !ValidArchivePath(archivePath, tempPrefix) then Err(InvalidArchivePath)
    else if !ValidFilePath(filePath) then Err(InvalidFilePath)
    else if !archiveExists then Err(ArchiveNotFound)
    else if archive.Unreadable? then Err(CorruptArchive)
    else
      match LastMember(archive.members, RStripSlash(filePath))
      case None => Err(NotInArchive)
      case Some(m) =>
        if !SafeMember(m.name, m.size, ExtractionRoot) then Err(AccessDenied)
        else if m.kind == Directory then Err(DirectoryNotReadable)
        else if m.kind == Special then Err(ExtractFailed)
        else if m.size > MaxReadSize then Err(TooLarge)
        else Ok(FileContent(filePath, Decode(m.data, utf8), m.size, Extension(filePath)))
  }

  /** A file that is read passed every guard: the archive path and file path are valid,
      the file path is relative, the member is safe and at most 10 MiB. Conversely every
      regular member within the limits that the name finds is read successfully. */
  lemma ReadSucceedsExactlyOnSafeFiles(archivePath: string, filePath: string, tempPrefix: string,
                                       archiveExists: bool, archive: Archive, utf8: seq<byte> -> Option<string>)
    ensures var r := ReadProjectFile(archivePath, filePath, tempPrefix, archiveExists, archive, utf8);
      r.Ok? <==>
        && ValidArchivePath(archivePath, tempPrefix) && ValidFilePath(filePath) && archiveExists
        && archive.Readable? && LastMember(archive.members, RStripSlash(filePath)).Some?
        && var m := LastMember(archive.members, RStripSlash(filePath)).value;
        && SafeMember(m.name, m.size, ExtractionRoot) && m.kind == RegularFile && m.size <= MaxReadSize
    ensures var r := ReadProjectFile(archivePath, filePath, tempPrefix, archiveExists, archive, utf8);
      r.Ok? ==> !StartsWith(filePath, "/") && r.value.size <= MaxReadSize && r.value.filePath == filePath
  {
    var r := ReadProjectFile(archivePath, filePath, tempPrefix, archiveExists, archive, utf8);
    if r.Ok? {
      ValidFilePathIsRelative(filePath);
    }
  }
}
