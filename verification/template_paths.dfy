/**
  `construct_relative_path` of `django/template/loader_tags.py`, which turns
  a quoted `./` or `../` template name in `{% extends %}` or `{% include %}`
  into a name relative to the loader root, together with the parts of
  Python's `posixpath` and `str` it relies on.
 */
module TemplatePaths {
  import opened Common

  /** `s.lstrip(c)` for one character. */
  function LStrip(s: string, c: char): (r: string)
    ensures |r| <= |s| && s[|s| - |r|..] == r
    ensures |r| > 0 ==> r[0] != c
    ensures forall i :: 0 <= i < |s| - |r| ==> s[i] == c
  {
    if |s| > 0 && s[0] == c then LStrip(s[1..], c) else s
  }

  /** `s.rstrip(chars)` */
  function RStrip(s: string, chars: set<char>): (r: string)
    ensures StartsWith(s, r)
    ensures |r| > 0 ==> r[|r| - 1] !in chars
    ensures forall i :: |r| <= i < |s| ==> s[i] in chars
  {
    if |s| > 0 && s[|s| - 1] in chars then RStrip(s[..|s| - 1], chars) else s
  }

  /** `s.lstrip(chars)` */
  function LStripSet(s: string, chars: set<char>): (r: string)
    ensures |r| <= |s| && s[|s| - |r|..] == r
    ensures |r| > 0 ==> r[0] !in chars
    ensures forall i :: 0 <= i < |s| - |r| ==> s[i] in chars
  {
    if |s| > 0 && s[0] in chars then LStripSet(s[1..], chars) else s
  }

  /** `s.strip(chars)` */
  function Strip(s: string, chars: set<char>): string {
    RStrip(LStripSet(s, chars), chars)
  }

  /** The position just after the last `/`, as `p.rfind('/') + 1`. */
  function AfterLastSlash(p: string): (i: nat)
    ensures i <= |p|
    ensures i > 0 ==> p[i - 1] == '/'
    ensures forall j :: i <= j < |p| ==> p[j] != '/'
  {
    if |p| == 0 then 0
    else if p[|p| - 1] == '/' then |p|
    else AfterLastSlash(p[..|p| - 1])
  }

  predicate AllSlashes(s: string) {
    forall j :: 0 <= j < |s| ==> s[j] == '/'
  }

  /** `posixpath.dirname` */
  function DirName(p: string): (r: string)
    ensures StartsWith(p, r)
  {
    var head := p[..AfterLastSlash(p)];
    if head != "" && !AllSlashes(head) then RStrip(head, {'/'}) else head
  }

  /** `posixpath.join(a, b)` */
  function PathJoin(a: string, b: string): string {
    if StartsWith(b, "/") then b
    else if a == "" || EndsWith(a, "/") then a + b
    else a + "/" + b
  }

  predicate NoDotDot(acc: seq<string>) {
    forall i :: 0 <= i < |acc| ==> acc[i] != ".."
  }

  /** `..` components occur only as a prefix. */
  predicate DotsFirst(acc: seq<string>) {
    forall i, j :: 0 <= i < j < |acc| && acc[j] == ".." ==> acc[i] == ".."
  }

  predicate SlashFree(acc: seq<string>) {
    forall i, j :: 0 <= i < |acc| && 0 <= j < |acc[i]| ==> acc[i][j] != '/'
  }

  /** One iteration of the component loop of `posixpath.normpath`. */
  function NormStep(acc: seq<string>, comp: string, rooted: bool): seq<string> {
    if comp == "" || comp == "." then acc
    else if comp != ".." || (!rooted && acc == []) || (acc != [] && acc[|acc| - 1] == "..") then acc + [comp]
    else if acc != [] then acc[..|acc| - 1]
    else acc
  }

  /** The component loop of `posixpath.normpath`. */
  function NormComps(acc: seq<string>, comps: seq<string>, rooted: bool): (r: seq<string>)
    ensures SlashFree(acc) && SlashFree(comps) ==> SlashFree(r)
    ensures !rooted && DotsFirst(acc) ==> DotsFirst(r)
    ensures rooted && NoDotDot(acc) ==> NoDotDot(r)
    decreases |comps|
  {
    if |comps| == 0 then acc
    else
      var next := NormStep(acc, comps[0], rooted);
      assert SlashFree(acc) && SlashFree(comps) ==> SlashFree(next) && SlashFree(comps[1..]) by {
        if SlashFree(acc) && SlashFree(comps) {
          assert forall i :: 0 <= i < |next| ==> next[i] in acc || next[i] == comps[0];
        }
      }
      NormComps(next, comps[1..], rooted)
  }

  /** How many leading slashes `normpath` keeps: two exactly, else at most one. */
  function InitialSlashes(path: string): (k: nat)
    ensures k <= 2
  {
    if StartsWith(path, "/") then (if StartsWith(path, "//") && !StartsWith(path, "///") then 2 else 1) else 0
  }

  function Assemble(initial: nat, comps: seq<string>): string {
    (if initial == 2 then "//" else if initial == 1 then "/" else "") + Join(comps, "/")
  }

  /** `posixpath.normpath` */
  function NormPath(path: string): string {
    if path == "" then "."
    else
      var initial := InitialSlashes(path);
      var p := Assemble(initial, NormComps([], SplitOn(path, {'/'}), initial > 0));
      if p == "" then "." else p
  }

  function Components(p: string): seq<string> {
    SplitOn(p, {'/'})
  }

  lemma JoinComponents(comps: seq<string>)
    requires SlashFree(comps)
    ensures Components(Join(comps, "/")) == if comps == [] then [""] else comps
  {
    if comps != [] {
      SplitJoin(comps, '/', {'/'});
    }
  }

  lemma SlashComponents(rest: string)
    ensures Components("/" + rest) == [""] + Components(rest)
  {
    assert "/" + rest == "" + ['/'] + rest;
    SplitOnAfterPiece("", '/', rest, {'/'});
  }

  lemma RootedComponents(initial: nat, comps: seq<string>)
    requires 1 <= initial <= 2 && SlashFree(comps) && NoDotDot(comps)
    ensures NoDotDot(Components(Assemble(initial, comps)))
  {
    var joined := Join(comps, "/");
    JoinComponents(comps);
    SlashComponents(joined);
    if initial == 2 {
      assert Assemble(initial, comps) == "/" + ("/" + joined);
      SlashComponents("/" + joined);
    } else {
      assert Assemble(initial, comps) == "/" + joined;
    }
  }

  lemma DotComponents()
    ensures Components(".") == ["."]
  {
    SplitOnNoSep(".", {'/'});
  }

  /**
    The invariant of `normpath` the containment check relies on: in the
    normalised path, `..` components can only form a prefix.
   */
  lemma NormPathDotsFirst(path: string)
    ensures DotsFirst(Components(NormPath(path)))
  {
    DotComponents();
    if path != "" {
      var initial := InitialSlashes(path);
      assert SlashFree(SplitOn(path, {'/'}));
      var comps := NormComps([], SplitOn(path, {'/'}), initial > 0);
      var p := Assemble(initial, comps);
      if p != "" {
        if initial == 0 {
          assert p == Join(comps, "/");
          JoinComponents(comps);
        } else {
          RootedComponents(initial, comps);
        }
      }
    }
  }

  /** A name written as a quoted `./` or `../` path. */
  predicate IsRelativeName(relative: string) {
    StartsWith(relative, "'./") || StartsWith(relative, "'../")
    || StartsWith(relative, "\"./") || StartsWith(relative, "\"../")
  }

  /** The normalised name the relative argument designates. */
  function ResolvedName(name: string, relative: string): string {
    NormPath(PathJoin(DirName(LStrip(name, '/')), Strip(relative, {'\'', '"'})))
  }

  function MsgTooManyParents(relative: string, name: string): string {
    "Relative name '" + relative + "' has more parent folders, then the template name " + name
      + " in which the tag appears"
  }

  function MsgCircular(relative: string, name: string): string {
    "Circular dependencies: relative path '" + relative + "' was translated to template name '" + name + "'"
  }

  /** The two checks `construct_relative_path` makes on the resolved name, as written. */
  function CheckResolvedAsWritten(name: string, relative: string, newName: string): (r: Result<string, string>)
    ensures r.Err? <==> StartsWith(newName, "../") || LStrip(name, '/') == newName
    ensures r.Ok? ==> r.value == "\"" + newName + "\""
  {
    if StartsWith(newName, "../") then Err(MsgTooManyParents(relative, name))
    else if LStrip(name, '/') == newName then Err(MsgCircular(relative, name))
    else Ok("\"" + newName + "\"")
  }

  /**
    `construct_relative_path` as written: the containment test only looks for
    a leading `../`.
   */
  function ConstructRelativePathAsWritten(name: string, relative: string): (r: Result<string, string>)
    ensures !IsRelativeName(relative) ==> r == Ok(relative)
    ensures IsRelativeName(relative) ==> r == CheckResolvedAsWritten(name, relative, ResolvedName(name, relative))
  {
    if !IsRelativeName(relative) then Ok(relative)
    else CheckResolvedAsWritten(name, relative, ResolvedName(name, relative))
  }

  lemma StripQuotedParent()
    ensures Strip("'../'", {'\'', '"'}) == "../"
  {
    var q := {'\'', '"'};
    var s := "'../'";
    assert s[0] in q;
    assert s[1..] == "../'";
    var t := "../'";
    assert t[0] !in q;
    assert LStripSet(t, q) == t;
    assert LStripSet(s, q) == t;
    assert t[|t| - 1] in q;
    assert t[..|t| - 1] == "../";
    var u := "../";
    assert u[|u| - 1] !in q;
    assert RStrip(u, q) == u;
    assert RStrip(t, q) == u;
  }

  lemma NormParent()
    ensures NormPath("../") == ".."
  {
    var p := "../";
    assert p == ".." + ['/'] + "";
    SplitOnAfterPiece("..", '/', "", {'/'});
    SplitOnNoSep("..", {'/'});
    assert Components(p) == ["..", ""];
    assert !StartsWith(p, "/") by {
      assert p[0] != '/';
    }
    assert InitialSlashes(p) == 0;
    var acc := NormStep([], "..", false);
    assert acc == [".."];
    assert NormStep(acc, "", false) == [".."];
    assert NormComps([".."], [""], false) == [".."];
    assert NormComps([], ["..", ""], false) == [".."] by {
      assert ["..", ""][1..] == [""];
    }
    assert Assemble(0, [".."]) == "..";
  }

  lemma ResolvesToParent()
    ensures ResolvedName("index.html", "'../'") == ".."
    ensures IsRelativeName("'../'") && LStrip("index.html", '/') == "index.html"
  {
    assert StartsWith("'../'", "'../") by {
      assert "'../'"[..4] == "'../";
    }
    var name := "index.html";
    assert name[0] != '/';
    assert LStrip(name, '/') == name;
    var i := AfterLastSlash(name);
    assert forall j :: 0 <= j < |name| ==> name[j] != '/';
    assert i == 0;
    assert DirName(name) == "";
    StripQuotedParent();
    assert !StartsWith("../", "/") by {
      assert "../"[0] != '/';
    }
    assert PathJoin("", "../") == "../";
    NormParent();
  }

  /**
    A top-level template including `'../'` resolves to the parent directory
    itself, `..`, which does not start with `../` and is let through.
   */
  lemma AsWrittenAcceptsParentDirectory(name: string, relative: string)
    requires name == "index.html" && relative == "'../'"
    ensures ConstructRelativePathAsWritten(name, relative) == Ok("\"..\"")
  {
    ResolvesToParent();
    ChecksLetParentThrough(name, relative);
  }

  lemma ChecksLetParentThrough(name: string, relative: string)
    requires name == "index.html"
    ensures CheckResolvedAsWritten(name, relative, "..") == Ok("\"..\"")
  {
    assert !StartsWith("..", "../");
    assert LStrip(name, '/') == name;
    assert "\"" + ".." + "\"" == "\"..\"";
  }

  /**
    The checks with the containment test they evidently intend: a resolved
    name that is `..` itself escapes the loader root as surely as one
    starting with `../`.
   */
  function CheckResolved(name: string, relative: string, newName: string): (r: Result<string, string>)
    ensures r.Err? <==> newName == ".." || StartsWith(newName, "../") || LStrip(name, '/') == newName
    ensures r.Ok? ==> r.value == "\"" + newName + "\""
  {
    if newName == ".." || StartsWith(newName, "../") then Err(MsgTooManyParents(relative, name))
    else if LStrip(name, '/') == newName then Err(MsgCircular(relative, name))
    else Ok("\"" + newName + "\"")
  }

  /**
    `construct_relative_path` with the corrected containment test: an
    accepted relative name never climbs out of the loader root, and it
    rejects everything the code as written rejects.
   */
  function ConstructRelativePath(name: string, relative: string): (r: Result<string, string>)
    ensures !IsRelativeName(relative) ==> r == Ok(relative)
    ensures IsRelativeName(relative) && r.Ok? ==>
      var n := ResolvedName(name, relative);
      && r.value == "\"" + n + "\""
      && NoDotDot(Components(n))
      && n != LStrip(name, '/')
    ensures ConstructRelativePathAsWritten(name, relative).Err? ==> r.Err?
  {
    if !IsRelativeName(relative) then Ok(relative)
    else
      var joined := PathJoin(DirName(LStrip(name, '/')), Strip(relative, {'\'', '"'}));
      EscapesOnlyThroughLeadingDots(joined);
      CheckResolved(name, relative, NormPath(joined))
  }

  lemma FirstComponentDots(s: string)
    requires Components(s)[0] == ".."
    ensures s == ".." || StartsWith(s, "../")
  {
    var cs := Components(s);
    if |cs| > 1 {
      assert s[..2] == "..";
      assert s[2] == '/';
      assert s[..3] == s[..2] + [s[2]];
    }
  }

  /**
    The corrected test is exact: a normalised path has a `..` component iff it
    is `..` or starts with `../`.
   */
  lemma EscapesOnlyThroughLeadingDots(path: string)
    ensures var n := NormPath(path);
      !NoDotDot(Components(n)) <==> n == ".." || StartsWith(n, "../")
  {
    var n := NormPath(path);
    var cs := Components(n);
    if n == ".." {
      SplitOnNoSep("..", {'/'});
    } else if StartsWith(n, "../") {
      assert n == ".." + ['/'] + n[3..];
      SplitOnAfterPiece("..", '/', n[3..], {'/'});
    } else if !NoDotDot(cs) {
      NormPathDotsFirst(path);
      assert cs[0] == "..";
      FirstComponentDots(n);
    }
  }
}
