/** The POSIX path operations the archive guards rely on, as pure string functions:
    `str.split('/')`, `'/'.join`, `os.path.normpath`, `os.path.join` and pathlib's
    `PurePosixPath(p).suffix`. */
module PosixPath {
  import opened Text

  /** `s.split('/')`: never empty, and no piece holds a separator. */
  function Split(s: string): (r: seq<string>)
    ensures |r| >= 1
    ensures forall k :: 0 <= k < |r| ==> '/' !in r[k]
  {
    if s == [] then [[]]
    else
      var t := Split(s[1..]);
      if s[0] == '/' then [[]] + t else [[s[0]] + t[0]] + t[1..]
  }

  /** `'/'.join(cs)` */
  function Join(cs: seq<string>): string {
    if |cs| == 0 then []
    else if |cs| == 1 then cs[0]
    else cs[0] + "/" + Join(cs[1..])
  }

  /** Splitting on '/' and joining again gives back the original string. */
  lemma {:induction false} JoinSplit(s: string)
    ensures Join(Split(s)) == s
  {
    if s != [] {
      var t := Split(s[1..]);
      JoinSplit(s[1..]);
      if s[0] == '/' {
        assert Split(s) == [[]] + t;
        assert ([[]] + t)[1..] == t;
      } else {
        assert Split(s) == [[s[0]] + t[0]] + t[1..];
        if |t| > 1 {
          assert ([[s[0]] + t[0]] + t[1..])[1..] == t[1..];
        }
      }
    }
  }

  /** One step of the split: a separator starts a new piece, any other character joins
      the first piece of the rest. */
  lemma {:induction false} SplitCons(c: char, rest: string)
    ensures Split([c] + rest) ==
      if c == '/' then [[]] + Split(rest) else [[c] + Split(rest)[0]] + Split(rest)[1..]
  {
    assert ([c] + rest)[1..] == rest;
  }

  /** `t + u` with a non-empty `t`, seen from its first piece. */
  lemma {:induction false} ConcatHead(t: seq<string>, u: seq<string>)
    requires |t| >= 1
    ensures (t + u)[0] == t[0] && (t + u)[1..] == t[1..] + u
  {
  }

  /** The step of `SplitAround` for a separator in front. */
  lemma {:induction false} SplitAroundSlash(x: string, b: string)
    requires Split(x + "/" + b) == Split(x) + Split(b)
    ensures Split(['/'] + (x + "/" + b)) == Split(['/'] + x) + Split(b)
  {
    var t, u := Split(x), Split(b);
    calc {
      Split(['/'] + (x + "/" + b));
    == { SplitCons('/', x + "/" + b); }
      [[]] + (t + u);
    ==
      ([[]] + t) + u;
    == { SplitCons('/', x); }
      Split(['/'] + x) + u;
    }
  }

  /** The step of `SplitAround` for another character in front. */
  lemma {:induction false} SplitAroundChar(c: char, x: string, b: string)
    requires c != '/'
    requires Split(x + "/" + b) == Split(x) + Split(b)
    ensures Split([c] + (x + "/" + b)) == Split([c] + x) + Split(b)
  {
    var t, u := Split(x), Split(b);
    calc {
      Split([c] + (x + "/" + b));
    == { SplitCons(c, x + "/" + b); }
      [[c] + Split(x + "/" + b)[0]] + Split(x + "/" + b)[1..];
    == { ConcatHead(t, u); }
      [[c] + t[0]] + (t[1..] + u);
    ==
      ([[c] + t[0]] + t[1..]) + u;
    == { SplitCons(c, x); }
      Split([c] + x) + u;
    }
  }

  /** Splitting `a + "/" + b` splits `a` and `b` separately. */
  lemma {:induction false} SplitAround(a: string, b: string)
    ensures Split(a + "/" + b) == Split(a) + Split(b)
  {
    if a == [] {
      calc {
        Split(a + "/" + b);
      == { assert a + "/" + b == ['/'] + b; }
        Split(['/'] + b);
      == { SplitCons('/', b); }
        [[]] + Split(b);
      }
    } else {
      var x := a[1..];
      calc {
        Split(a + "/" + b);
      == { assert a + "/" + b == [a[0]] + (x + "/" + b); }
        Split([a[0]] + (x + "/" + b));
      == { SplitAround(x, b);
           if a[0] == '/' { SplitAroundSlash(x, b); } else { SplitAroundChar(a[0], x, b); } }
        Split([a[0]] + x) + Split(b);
      == { assert [a[0]] + x == a; }
        Split(a) + Split(b);
      }
    }
  }

  // ---------------------------------------------------------------------------
  // os.path.normpath

  /** A component that normalisation can keep: not empty, not "." and without a separator. */
  predicate Kept(c: string) {
    c != "" && c != "." && '/' !in c
  }

  /** One turn of normpath's component loop over the stack `new_comps`. */
  function Push(stack: seq<string>, comp: string, rooted: bool): seq<string> {
    if comp == "" || comp == "." then stack
    else if comp != ".." || (!rooted && stack == []) || (stack != [] && stack[|stack| - 1] == "..") then
      stack + [comp]
    else if stack != [] then stack[..|stack| - 1]
    else stack
  }

  /** The component loop over all components, left to right. */
  function Fold(stack: seq<string>, comps: seq<string>, rooted: bool): seq<string>
    decreases |comps|
  {
    if comps == [] then stack else Fold(Push(stack, comps[0], rooted), comps[1..], rooted)
  }

  /** The number of slashes normpath keeps in front: two exactly when the path starts
      with "//" but not "///", one for any other absolute path, none otherwise. */
  function LeadingSlashes(p: string): nat {
    if !StartsWith(p, "/") then 0
    else if StartsWith(p, "//") && !StartsWith(p, "///") then 2
    else 1
  }

  function Slashes(n: nat): (r: string)
    ensures |r| == n && forall i :: 0 <= i < n ==> r[i] == '/'
  {
    if n == 0 then [] else "/" + Slashes(n - 1)
  }

  /** The components normpath keeps, in order. */
  function NormComps(p: string): seq<string> {
    Fold([], Split(p), LeadingSlashes(p) > 0)
  }

  /** `os.path.normpath(p)` on POSIX. */
  function Normpath(p: string): (r: string)
    ensures r != []
  {
    if p == [] then "."
    else
      var body := Slashes(LeadingSlashes(p)) + Join(NormComps(p));
      if body == [] then "." else body
  }

  /** What the stack holds at every step: only kept components, no ".." under a root,
      and the ".." components only as a leading run. */
  predicate Normal(stack: seq<string>, rooted: bool) {
    && (forall k :: 0 <= k < |stack| ==> Kept(stack[k]))
    && (rooted ==> forall k :: 0 <= k < |stack| ==> stack[k] != "..")
    && (forall j, k :: 0 <= j < k < |stack| && stack[k] == ".." ==> stack[j] == "..")
  }

  lemma PushNormal(stack: seq<string>, comp: string, rooted: bool)
    requires Normal(stack, rooted) && '/' !in comp
    ensures Normal(Push(stack, comp, rooted), rooted)
  {
    if comp != "" && comp != "." && comp == ".." && stack != [] && stack[|stack| - 1] == ".." {
      assert forall j :: 0 <= j < |stack| ==> stack[j] == "..";
    }
  }

  lemma {:induction false} FoldNormal(stack: seq<string>, comps: seq<string>, rooted: bool)
    requires Normal(stack, rooted)
    requires forall k :: 0 <= k < |comps| ==> '/' !in comps[k]
    ensures Normal(Fold(stack, comps, rooted), rooted)
    decreases |comps|
  {
    if comps != [] {
      PushNormal(stack, comps[0], rooted);
      FoldNormal(Push(stack, comps[0], rooted), comps[1..], rooted);
    }
  }

  /** normpath keeps only plain components and leading "..", and none at all under a root. */
  lemma NormCompsNormal(p: string)
    ensures Normal(NormComps(p), LeadingSlashes(p) > 0)
  {
    FoldNormal([], Split(p), LeadingSlashes(p) > 0);
  }

  /** A leading ".." of a relative path is never cancelled. */
  lemma {:induction false} FoldKeepsLeadingParent(stack: seq<string>, comps: seq<string>)
    requires stack != [] && stack[0] == ".."
    ensures Fold(stack, comps, false) != [] && Fold(stack, comps, false)[0] == ".."
    decreases |comps|
  {
    if comps != [] {
      FoldKeepsLeadingParent(Push(stack, comps[0], false), comps[1..]);
    }
  }

  lemma JoinHead(cs: seq<string>)
    requires cs != []
    ensures StartsWith(Join(cs), cs[0])
  {
  }

  lemma {:induction false} JoinHasComponent(cs: seq<string>, k: int)
    requires 0 <= k < |cs|
    ensures Contains(Join(cs), cs[k])
    decreases |cs|
  {
    if k == 0 {
      JoinHead(cs);
      assert OccursAt(Join(cs), cs[0], 0);
    } else {
      JoinHasComponent(cs[1..], k - 1);
      var t := cs[k];
      var i :| 0 <= i <= |Join(cs[1..])| - |t| && OccursAt(Join(cs[1..]), t, i);
      var off := |cs[0]| + 1;
      assert Join(cs) == (cs[0] + "/") + Join(cs[1..]);
      assert Join(cs)[off + i..off + i + |t|] == Join(cs[1..])[i..i + |t|];
      assert OccursAt(Join(cs), t, off + i);
    }
  }

  /** normpath makes a path absolute exactly when it was absolute. */
  lemma NormpathRooted(p: string)
    ensures StartsWith(Normpath(p), "/") <==> StartsWith(p, "/")
  {
    var cs := NormComps(p);
    NormCompsNormal(p);
    if !StartsWith(p, "/") && p != [] && Join(cs) != [] {
      assert cs != [];
      JoinHead(cs);
      assert Kept(cs[0]);
      assert Join(cs)[0] == cs[0][0];
      assert Normpath(p) == Join(cs);
    } else if StartsWith(p, "/") {
      var body := Slashes(LeadingSlashes(p)) + Join(cs);
      assert body[0] == '/';
      assert Normpath(p) == body;
      assert Normpath(p)[..1] == "/";
    } else {
      assert Normpath(p) == ".";
      assert "."[..1] != "/" by { assert "."[..1][0] == '.'; }
    }
  }

  /** The guard shared by `_validate_file_path` and `_safe_extract_member`: a name whose
      normalisation is relative and has no ".." in it normalises to "." or to plain
      components joined by '/', so it names the extraction root or something below it. */
  lemma RelativeNormpath(p: string)
    requires !StartsWith(Normpath(p), "/") && !Contains(Normpath(p), "..")
    ensures LeadingSlashes(p) == 0
    ensures Normpath(p) == "." || Normpath(p) == Join(NormComps(p))
    ensures forall k :: 0 <= k < |NormComps(p)| ==> Kept(NormComps(p)[k]) && NormComps(p)[k] != ".."
  {
    NormpathRooted(p);
    NormCompsNormal(p);
    var cs := NormComps(p);
    forall k | 0 <= k < |cs|
      ensures cs[k] != ".."
    {
      JoinHasComponent(cs, k);
      assert Normpath(p) == Join(cs);
      assert Contains(Normpath(p), cs[k]);
    }
  }

  /** A relative name whose first component is ".." keeps ".." in front after normalising. */
  lemma ParentPrefixSurvives(p: string)
    requires !StartsWith(p, "/") && Split(p)[0] == ".."
    ensures StartsWith(Normpath(p), "..")
  {
    var comps := Split(p);
    assert p != [];
    assert LeadingSlashes(p) == 0;
    assert Push([], comps[0], false) == [".."];
    assert Fold([], comps, false) == Fold([".."], comps[1..], false);
    FoldKeepsLeadingParent([".."], comps[1..]);
    var cs := NormComps(p);
    JoinHead(cs);
    assert Normpath(p) == Join(cs);
  }

  /** `os.path.join(a, b)` for two arguments. */
  function JoinPath(a: string, b: string): string {
    if StartsWith(b, "/") then b
    else if a == [] || EndsWith(a, "/") then a + b
    else a + "/" + b
  }

  /** Joining a relative path under a directory always gives a path that starts with
      that directory. */
  lemma JoinPathUnder(a: string, b: string)
    requires !StartsWith(b, "/")
    ensures StartsWith(JoinPath(a, b), a)
  {
    if a != [] && !EndsWith(a, "/") {
      assert (a + "/" + b)[..|a|] == a;
    } else {
      assert (a + b)[..|a|] == a;
    }
  }

  // ---------------------------------------------------------------------------
  // pathlib suffix

  /** The components pathlib keeps: every piece of the split except "" and ".". */
  function NameParts(cs: seq<string>): (r: seq<string>)
    ensures forall k :: 0 <= k < |r| ==> r[k] != "" && r[k] != "."
  {
    if cs == [] then []
    else
      var last := cs[|cs| - 1];
      NameParts(cs[..|cs| - 1]) + (if last == "" || last == "." then [] else [last])
  }

  /** `PurePosixPath(p).name`: the last kept component, or "" when there is none. */
  function BaseName(p: string): string {
    var parts := NameParts(Split(p));
    if parts == [] then [] else parts[|parts| - 1]
  }

  /** `s.rfind(c)`: the last index holding `c`, or -1. */
  function RFind(s: string, c: char): (r: int)
    ensures -1 <= r < |s|
    ensures r >= 0 ==> s[r] == c
    ensures forall j :: r < j < |s| ==> s[j] != c
  {
    if s == [] then -1
    else if s[|s| - 1] == c then |s| - 1
    else RFind(s[..|s| - 1], c)
  }

  /** `PurePosixPath(p).suffix`: the last component's text from its last '.', provided
      that dot is neither its first nor its last character. */
  function Suffix(p: string): string {
    var name := BaseName(p);
    var i := RFind(name, '.');
    if 0 < i < |name| - 1 then name[i..] else []
  }

  /** A suffix is empty or is one dot followed by at least one character that is
      neither a dot nor a separator. */
  lemma SuffixShape(p: string)
    ensures var x := Suffix(p);
      x == [] || (|x| >= 2 && x[0] == '.' && '.' !in x[1..] && '/' !in x)
  {
    var parts := NameParts(Split(p));
    var x := Suffix(p);
    if x != [] {
      var name := BaseName(p);
      var i := RFind(name, '.');
      assert parts != [] && name == parts[|parts| - 1];
      NamePartsIn(Split(p), |parts| - 1);
      assert x == name[i..];
      assert forall j :: 0 <= j < |x| ==> x[j] == name[i + j];
    }
  }

  lemma {:induction false} NamePartsIn(cs: seq<string>, k: int)
    requires 0 <= k < |NameParts(cs)|
    ensures NameParts(cs)[k] in cs
    decreases |cs|
  {
    var init := cs[..|cs| - 1];
    if k < |NameParts(init)| {
      NamePartsIn(init, k);
    }
  }

  /** The base name of `dir + name`, where `dir` is empty or ends in '/', is `name`. */
  lemma BaseNameAfterDir(dir: string, name: string)
    requires dir == [] || EndsWith(dir, "/")
    requires Kept(name)
    ensures BaseName(dir + name) == name
  {
    NoSeparatorSplit(name);
    var cs: seq<string>;
    if dir == [] {
      assert dir + name == name;
      cs := [name];
    } else {
      var d := dir[..|dir| - 1];
      assert dir == d + "/";
      assert dir + name == d + "/" + name;
      SplitAround(d, name);
      cs := Split(d) + [name];
    }
    assert Split(dir + name) == cs;
    assert cs[..|cs| - 1] + [name] == cs;
    assert NameParts(cs) == NameParts(cs[..|cs| - 1]) + [name];
  }

  /** The last dot of `stem + "." + ext`, when `ext` has none, is the one after `stem`. */
  lemma {:induction false} LastDot(stem: string, ext: string)
    requires '.' !in ext
    ensures RFind(stem + "." + ext, '.') == |stem|
    decreases |ext|
  {
    var name := stem + "." + ext;
    if ext == [] {
      assert name == stem + ".";
    } else {
      var init := ext[..|ext| - 1];
      assert name[|name| - 1] == ext[|ext| - 1];
      assert name[..|name| - 1] == stem + "." + init;
      assert ext == init + [ext[|ext| - 1]];
      LastDot(stem, init);
    }
  }

  /** The suffix of `dir + stem + "." + ext`, where `dir` is empty or ends in '/',
      is `"." + ext`: what the listing reports for a member such as "queries/a.sql". */
  lemma SuffixOfFileName(dir: string, stem: string, ext: string)
    requires dir == [] || EndsWith(dir, "/")
    requires stem != [] && '/' !in stem
    requires ext != [] && '.' !in ext && '/' !in ext
    ensures Suffix(dir + stem + "." + ext) == "." + ext
  {
    var name := stem + "." + ext;
    FileNameKept(stem, ext);
    assert dir + stem + "." + ext == dir + name;
    BaseNameAfterDir(dir, name);
    LastDot(stem, ext);
    assert name[|stem|..] == "." + ext;
  }

  /** `stem.ext` is a name the path keeps: not empty, not ".", no separator. */
  lemma FileNameKept(stem: string, ext: string)
    requires stem != [] && '/' !in stem
    requires '/' !in ext
    ensures Kept(stem + "." + ext)
  {
    var name := stem + "." + ext;
    assert |name| >= 2;
    assert forall k :: 0 <= k < |name| ==> name[k] != '/' by {
      forall k | 0 <= k < |name| ensures name[k] != '/' {
        if k < |stem| { assert name[k] == stem[k]; }
        else if k > |stem| { assert name[k] == ext[k - |stem| - 1]; }
      }
    }
  }

  /** A string without a separator splits into itself. */
  lemma {:induction false} NoSeparatorSplit(s: string)
    requires '/' !in s
    ensures Split(s) == [s]
  {
    if s != [] {
      assert s[0] != '/';
      assert '/' !in s[1..];
      NoSeparatorSplit(s[1..]);
      assert [s[0]] + s[1..] == s;
    }
  }
}
