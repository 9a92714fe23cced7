/**
  The argument checks of the `{% block %}`, `{% extends %}` and
  `{% include %}` tags in `django/template/loader_tags.py`. A tag arrives
  as its list of bits (the tag name first); what the parser reads after the
  tag (the closing `endblock`, the rest of an extending template) is an
  input.
 */
module TemplateTags {
  import opened Common
  import opened TemplatePaths

  /**
    `TemplateSyntaxError` with its message, or the error `invalid_block_tag`
    raises, which names the command and the closing tags it expected.
   */
  datatype TagError = SyntaxError(msg: string) | InvalidBlockTag(command: string, expected: seq<string>)

  // ---- {% block %} ----

  /** The block name and the names the parser has loaded so far. */
  datatype BlockStart = BlockStart(name: string, loaded: seq<string>)

  function AcceptableEndblocks(name: string): seq<string> {
    ["endblock", "endblock " + name]
  }

  function MsgBlockArguments(tag: string): string {
    "'" + tag + "' tag takes only one argument"
  }

  function MsgBlockTwice(tag: string, name: string): string {
    "'" + tag + "' tag with name '" + name + "' appears more than once"
  }

  /**
    `do_block`: one argument, a name not yet loaded by this parser, and a
    closing tag that is `endblock` or `endblock <name>`. The tag name is
    always the first bit.
   */
  function DoBlock(bits: seq<string>, loaded: seq<string>, endblock: string): (r: Result<BlockStart, TagError>)
    requires |bits| >= 1
    ensures r.Ok? <==> |bits| == 2 && bits[1] !in loaded && endblock in AcceptableEndblocks(bits[1])
    ensures r.Ok? ==> r.value == BlockStart(bits[1], loaded + [bits[1]])
    ensures |bits| != 2 ==> r == Err(SyntaxError(MsgBlockArguments(bits[0])))
    ensures |bits| == 2 && bits[1] in loaded ==> r == Err(SyntaxError(MsgBlockTwice(bits[0], bits[1])))
    ensures |bits| == 2 && bits[1] !in loaded && r.Err? ==>
      r == Err(InvalidBlockTag("endblock", AcceptableEndblocks(bits[1])))
  {
    if |bits| != 2 then Err(SyntaxError(MsgBlockArguments(bits[0])))
    else
      var name := bits[1];
      if name in loaded then Err(SyntaxError(MsgBlockTwice(bits[0], name)))
      else if endblock !in AcceptableEndblocks(name) then Err(InvalidBlockTag("endblock", AcceptableEndblocks(name)))
      else Ok(BlockStart(name, loaded + [name]))
  }

  predicate Distinct(names: seq<string>) {
    forall i, j :: 0 <= i < j < |names| ==> names[i] != names[j]
  }

  /** The names a parser has loaded stay distinct across every accepted block tag. */
  lemma LoadedStayDistinct(bits: seq<string>, loaded: seq<string>, endblock: string)
    requires |bits| >= 1 && Distinct(loaded)
    requires DoBlock(bits, loaded, endblock).Ok?
    ensures Distinct(DoBlock(bits, loaded, endblock).value.loaded)
  {
  }

  /** Once a block name is accepted, the same parser rejects it whatever follows. */
  lemma SecondBlockRejected(tag: string, name: string, loaded: seq<string>, end1: string, end2: string)
    requires DoBlock([tag, name], loaded, end1).Ok?
    ensures var again := DoBlock([tag, name], DoBlock([tag, name], loaded, end1).value.loaded, end2);
      again == Err(SyntaxError(MsgBlockTwice(tag, name)))
  {
    var l := DoBlock([tag, name], loaded, end1).value.loaded;
    assert l[|loaded|] == name;
  }

  // ---- {% extends %} ----

  function MsgExtendsArguments(tag: string): string {
    "'" + tag + "' takes one argument"
  }

  function MsgExtendsTwice(tag: string): string {
    "'" + tag + "' cannot appear more than once in the same template"
  }

  /**
    `do_extends`: exactly one argument, resolved against the template's own
    name by `construct_relative_path` as written, and no second `extends`
    in the rest of the template. The path is resolved before the rest is
    parsed, so its error comes first. The result is the parent-name
    expression handed to `ExtendsNode`.
   */
  function DoExtends(bits: seq<string>, templateName: string, restHasExtends: bool): (r: Result<string, TagError>)
    requires |bits| >= 1
    ensures |bits| != 2 ==> r == Err(SyntaxError(MsgExtendsArguments(bits[0])))
    ensures |bits| == 2 ==>
      var p := ConstructRelativePathAsWritten(templateName, bits[1]);
      && (r.Ok? <==> p.Ok? && !restHasExtends)
      && (p.Err? ==> r == Err(SyntaxError(p.error)))
      && (r.Ok? ==> r.value == p.value)
      && (p.Ok? && restHasExtends ==> r == Err(SyntaxError(MsgExtendsTwice(bits[0]))))
  {
    if |bits| != 2 then Err(SyntaxError(MsgExtendsArguments(bits[0])))
    else
      match ConstructRelativePathAsWritten(templateName, bits[1])
      case Err(m) => Err(SyntaxError(m))
      case Ok(parent) =>
        if restHasExtends then Err(SyntaxError(MsgExtendsTwice(bits[0]))) else Ok(parent)
  }

  /**
    A plain parent name passes through. A relative one is quoted, is not the
    template itself, and stays below the loader root unless it is the root's
    parent `..` itself, which the containment test as written lets through.
   */
  lemma ExtendsParentName(bits: seq<string>, templateName: string)
    requires |bits| == 2
    requires DoExtends(bits, templateName, false).Ok?
    ensures var p := DoExtends(bits, templateName, false).value;
      && (!IsRelativeName(bits[1]) ==> p == bits[1])
      && (IsRelativeName(bits[1]) ==>
            var n := ResolvedName(templateName, bits[1]);
            p == "\"" + n + "\"" && (NoDotDot(Components(n)) || n == "..") && n != LStrip(templateName, '/'))
  {
    if IsRelativeName(bits[1]) {
      EscapesOnlyThroughLeadingDots(PathJoin(DirName(LStrip(templateName, '/')), Strip(bits[1], {'\'', '"'})));
    }
  }

  /** `{% extends '../' %}` in a top-level template names the loader root's parent, `".."`. */
  lemma ExtendsAcceptsParentDirectory()
    ensures DoExtends(["extends", "'../'"], "index.html", false) == Ok("\"..\"")
  {
    AsWrittenAcceptsParentDirectory("index.html", "'../'");
  }

  // ---- {% include %} ----

  /** A character `\w` matches, restricted to ASCII. */
  predicate WordChar(c: char) {
    'a' <= c <= 'z' || 'A' <= c <= 'Z' || '0' <= c <= '9' || c == '_'
  }

  /** The length of the leading run of word characters. */
  function WordRun(s: string): (k: nat)
    ensures k <= |s|
    ensures forall i :: 0 <= i < k ==> WordChar(s[i])
    ensures k < |s| ==> !WordChar(s[k])
  {
    if |s| == 0 || !WordChar(s[0]) then 0 else 1 + WordRun(s[1..])
  }

  /**
    A bit `token_kwargs` reads as `name=value`: a word, `=`, and at least
    one more character. Tag text never spans lines, so the regular
    expression's refusal of newlines never matters.
   */
  predicate IsKwargBit(s: string) {
    var k := WordRun(s);
    k >= 1 && k + 1 < |s| && s[k] == '='
  }

  /** How many leading bits `token_kwargs` consumes. */
  function KwargRun(bits: seq<string>): (n: nat)
    ensures n <= |bits|
    ensures forall i :: 0 <= i < n ==> IsKwargBit(bits[i])
    ensures n < |bits| ==> !IsKwargBit(bits[n])
  {
    if |bits| == 0 || !IsKwargBit(bits[0]) then 0 else 1 + KwargRun(bits[1..])
  }

  /** The `{name: value}` mapping of a run of kwarg bits; a later name wins. */
  function Kwargs(run: seq<string>): (m: map<string, string>)
    requires forall i :: 0 <= i < |run| ==> IsKwargBit(run[i])
    ensures forall i :: 0 <= i < |run| ==> KwargName(run[i]) in m
    ensures |run| > 0 ==> m[KwargName(run[|run| - 1])] == KwargValue(run[|run| - 1])
  {
    if |run| == 0 then map[]
    else
      var init, b := run[..|run| - 1], run[|run| - 1];
      assert forall i :: 0 <= i < |init| ==> init[i] == run[i];
      Kwargs(init)[KwargName(b) := KwargValue(b)]
  }

  /** Every key of the mapping is the name of one of the bits. */
  lemma {:induction false} KwargsKeysFromBits(run: seq<string>)
    requires forall i :: 0 <= i < |run| ==> IsKwargBit(run[i])
    ensures forall k :: k in Kwargs(run) ==> exists i :: 0 <= i < |run| && KwargName(run[i]) == k
    decreases |run|
  {
    if |run| > 0 {
      var init, b := run[..|run| - 1], run[|run| - 1];
      assert forall i :: 0 <= i < |init| ==> init[i] == run[i];
      KwargsKeysFromBits(init);
      assert Kwargs(run) == Kwargs(init)[KwargName(b) := KwargValue(b)];
      forall k | k in Kwargs(run) ensures exists i :: 0 <= i < |run| && KwargName(run[i]) == k {
        if k != KwargName(b) {
          assert k in Kwargs(init);
          var i :| 0 <= i < |init| && KwargName(init[i]) == k;
          assert KwargName(run[i]) == k;
        } else {
          assert KwargName(run[|run| - 1]) == k;
        }
      }
    }
  }

  /** `token_kwargs`: the mapping read from the kwarg bits at the front of `bits`. */
  function TokenKwargs(bits: seq<string>): map<string, string> {
    Kwargs(bits[..KwargRun(bits)])
  }

  function KwargName(b: string): string
    requires IsKwargBit(b)
  {
    b[..WordRun(b)]
  }

  function KwargValue(b: string): string
    requires IsKwargBit(b)
  {
    b[WordRun(b) + 1..]
  }

  /** The `options` dictionary: the names seen, the `with` mapping and the `only` flag. */
  datatype Options = Options(seen: set<string>, with: map<string, string>, only: bool)

  function MsgIncludeArguments(tag: string): string {
    Repr(tag) + " tag takes at least one argument: the name of the template to be included."
  }

  function MsgOptionTwice(option: string): string {
    "The " + Repr(option) + " option was specified more than once."
  }

  function MsgWithNeedsKwargs(tag: string): string {
    "\"with\" in " + Repr(tag) + " tag needs at least one keyword argument."
  }

  function MsgUnknownOption(tag: string, option: string): string {
    "Unknown argument for " + Repr(tag) + " tag: " + Repr(option) + "."
  }

  /** The option loop of `do_include`, over the bits after the template name. */
  function ParseOptions(tag: string, rest: seq<string>, opts: Options): (r: Result<Options, TagError>)
    decreases |rest|
  {
    if |rest| == 0 then Ok(opts)
    else
      var option := rest[0];
      if option in opts.seen then Err(SyntaxError(MsgOptionTwice(option)))
      else if option == "with" then
        var n := KwargRun(rest[1..]);
        if n == 0 then Err(SyntaxError(MsgWithNeedsKwargs(tag)))
        else ParseOptions(tag, rest[1 + n..], opts.(seen := opts.seen + {"with"}, with := TokenKwargs(rest[1..])))
      else if option == "only" then ParseOptions(tag, rest[1..], opts.(seen := opts.seen + {"only"}, only := true))
      else Err(SyntaxError(MsgUnknownOption(tag, option)))
  }

  /**
    The option list `do_include` accepts, described bit by bit: every bit is
    `with`, `only` or a kwarg; a kwarg follows `with` or another kwarg;
    `with` is followed by a kwarg; and neither option name appears twice.
   */
  predicate BitFits(rest: seq<string>, i: int)
    requires 0 <= i < |rest|
  {
    && (rest[i] == "with" || rest[i] == "only" || IsKwargBit(rest[i]))
    && (IsKwargBit(rest[i]) ==> i > 0 && (rest[i - 1] == "with" || IsKwargBit(rest[i - 1])))
    && (rest[i] == "with" ==> i + 1 < |rest| && IsKwargBit(rest[i + 1]))
  }

  predicate WellShaped(rest: seq<string>) {
    forall i :: 0 <= i < |rest| ==> BitFits(rest, i)
  }

  predicate ValidOptions(rest: seq<string>, seen: set<string>) {
    && WellShaped(rest)
    && multiset(rest)["with"] <= (if "with" in seen then 0 else 1)
    && multiset(rest)["only"] <= (if "only" in seen then 0 else 1)
  }

  /** `do_include` returns the template expression, the extra context and the isolation flag. */
  datatype Include = Include(template: string, extraContext: map<string, string>, isolatedContext: bool)

  /**
    `do_include`: at least the template name, a valid option list, and a
    template name that `construct_relative_path`, as written, resolves. The
    options are parsed first, so their error comes first.
    `isolated_context` defaults to false and the extra context to empty.
   */
  function DoInclude(bits: seq<string>, templateName: string): (r: Result<Include, TagError>)
    requires |bits| >= 1
    ensures |bits| < 2 ==> r == Err(SyntaxError(MsgIncludeArguments(bits[0])))
    ensures |bits| >= 2 && ParseOptions(bits[0], bits[2..], Options({}, map[], false)).Err? ==>
      r == Err(ParseOptions(bits[0], bits[2..], Options({}, map[], false)).error)
    ensures (|bits| >= 2 && ParseOptions(bits[0], bits[2..], Options({}, map[], false)).Ok?
             && ConstructRelativePathAsWritten(templateName, bits[1]).Err?) ==>
      r == Err(SyntaxError(ConstructRelativePathAsWritten(templateName, bits[1]).error))
    ensures r.Ok? ==> (|bits| >= 2 && ConstructRelativePathAsWritten(templateName, bits[1]).Ok?
      && r.value.template == ConstructRelativePathAsWritten(templateName, bits[1]).value)
  {
    if |bits| < 2 then Err(SyntaxError(MsgIncludeArguments(bits[0])))
    else
      var opts :- ParseOptions(bits[0], bits[2..], Options({}, map[], false));
      match ConstructRelativePathAsWritten(templateName, bits[1])
      case Err(m) => Err(SyntaxError(m))
      case Ok(t) => Ok(Include(t, opts.with, opts.only))
  }

  /** `{% include '../' %}` in a top-level template includes the loader root's parent, `".."`. */
  lemma IncludeAcceptsParentDirectory()
    ensures DoInclude(["include", "'../'"], "index.html") == Ok(Include("\"..\"", map[], false))
  {
    AsWrittenAcceptsParentDirectory("index.html", "'../'");
  }

  // The option grammar, one step at a time.

  lemma OnlyStep(rest: seq<string>)
    requires |rest| >= 1 && rest[0] == "only"
    ensures WellShaped(rest) <==> WellShaped(rest[1..])
  {
    var tail := rest[1..];
    if WellShaped(rest) {
      forall i | 0 <= i < |tail| ensures BitFits(tail, i) {
        assert BitFits(rest, i + 1);
      }
    }
    if WellShaped(tail) {
      forall i | 0 <= i < |rest| ensures BitFits(rest, i) {
        if i > 0 {
          assert BitFits(tail, i - 1);
        }
      }
    }
  }

  lemma WithStep(rest: seq<string>, n: nat)
    requires |rest| >= 1 && rest[0] == "with"
    requires n >= 1 && n == KwargRun(rest[1..])
    ensures WellShaped(rest) <==> WellShaped(rest[1 + n..])
  {
    var tail := rest[1 + n..];
    assert forall i :: 1 <= i <= n ==> IsKwargBit(rest[i]) by {
      forall i | 1 <= i <= n ensures IsKwargBit(rest[i]) {
        assert rest[1..][i - 1] == rest[i];
      }
    }
    assert 1 + n < |rest| ==> !IsKwargBit(rest[1 + n]) by {
      if 1 + n < |rest| {
        assert rest[1..][n] == rest[1 + n];
      }
    }
    if WellShaped(rest) {
      forall i | 0 <= i < |tail| ensures BitFits(tail, i) {
        assert BitFits(rest, i + 1 + n);
      }
    }
    if WellShaped(tail) {
      forall i | 0 <= i < |rest| ensures BitFits(rest, i) {
        if i > n {
          assert BitFits(tail, i - 1 - n);
        }
      }
    }
  }

  lemma WithCount(rest: seq<string>, n: nat)
    requires 1 + n <= |rest|
    requires forall i :: 1 <= i <= n ==> IsKwargBit(rest[i])
    ensures multiset(rest)["with"] == multiset(rest[1 + n..])["with"] + (if rest[0] == "with" then 1 else 0)
    ensures multiset(rest)["only"] == multiset(rest[1 + n..])["only"] + (if rest[0] == "only" then 1 else 0)
  {
    var run := rest[1..1 + n];
    assert rest == [rest[0]] + run + rest[1 + n..];
    assert !IsKwargBit("with") by { assert WordRun("with") == 4; }
    assert !IsKwargBit("only") by { assert WordRun("only") == 4; }
    assert "with" !in run && "only" !in run by {
      forall i | 0 <= i < |run| ensures run[i] != "with" && run[i] != "only" {
        assert IsKwargBit(rest[1 + i]);
      }
    }
  }

  lemma OptionNamesAreNotKwargs()
    ensures !IsKwargBit("with") && !IsKwargBit("only")
  {
    assert WordRun("with") == 4;
    assert WordRun("only") == 4;
  }

  /** The bits `token_kwargs` consumed after a `with` at the head of the list. */
  lemma RunAfterWith(rest: seq<string>, n: nat)
    requires |rest| >= 1 && n == KwargRun(rest[1..])
    ensures forall i :: 1 <= i <= n ==> IsKwargBit(rest[i])
  {
    forall i | 1 <= i <= n ensures IsKwargBit(rest[i]) {
      assert rest[1..][i - 1] == rest[i];
    }
  }

  lemma WithValidStep(rest: seq<string>, seen: set<string>, n: nat)
    requires |rest| >= 1 && rest[0] == "with" && "with" !in seen
    requires n >= 1 && n == KwargRun(rest[1..])
    ensures ValidOptions(rest, seen) <==> ValidOptions(rest[1 + n..], seen + {"with"})
  {
    RunAfterWith(rest, n);
    WithStep(rest, n);
    WithCount(rest, n);
  }

  lemma OnlyValidStep(rest: seq<string>, seen: set<string>)
    requires |rest| >= 1 && rest[0] == "only" && "only" !in seen
    ensures ValidOptions(rest, seen) <==> ValidOptions(rest[1..], seen + {"only"})
  {
    OnlyStep(rest);
    WithCount(rest, 0);
  }

  lemma SeenIsInvalid(rest: seq<string>, seen: set<string>)
    requires |rest| >= 1 && rest[0] in seen && seen <= {"with", "only"}
    ensures !ValidOptions(rest, seen)
  {
    assert rest == [rest[0]] + rest[1..];
    assert multiset(rest)[rest[0]] >= 1;
  }

  lemma BareWithIsInvalid(rest: seq<string>)
    requires |rest| >= 1 && rest[0] == "with" && KwargRun(rest[1..]) == 0
    ensures !WellShaped(rest)
  {
    if 1 < |rest| {
      assert rest[1..][0] == rest[1];
    }
    assert !BitFits(rest, 0);
  }

  lemma UnknownIsInvalid(rest: seq<string>)
    requires |rest| >= 1 && rest[0] != "with" && rest[0] != "only"
    ensures !WellShaped(rest)
  {
    assert !BitFits(rest, 0);
  }

  /**
    The option loop accepts exactly the option lists of the grammar above,
    given the options already seen.
   */
  lemma {:induction false} ParseOptionsAcceptsValid(tag: string, rest: seq<string>, opts: Options)
    requires opts.seen <= {"with", "only"}
    ensures ParseOptions(tag, rest, opts).Ok? <==> ValidOptions(rest, opts.seen)
    decreases |rest|
  {
    if |rest| > 0 {
      var option := rest[0];
      if option in opts.seen {
        SeenIsInvalid(rest, opts.seen);
      } else if option == "with" {
        var n := KwargRun(rest[1..]);
        if n == 0 {
          BareWithIsInvalid(rest);
        } else {
          WithValidStep(rest, opts.seen, n);
          ParseOptionsAcceptsValid(tag, rest[1 + n..],
            opts.(seen := opts.seen + {"with"}, with := TokenKwargs(rest[1..])));
        }
      } else if option == "only" {
        OnlyValidStep(rest, opts.seen);
        ParseOptionsAcceptsValid(tag, rest[1..], opts.(seen := opts.seen + {"only"}, only := true));
      } else {
        UnknownIsInvalid(rest);
      }
    }
  }

  /**
    What an accepted option list means: `only` is set iff it is listed, and
    the `with` mapping is the one read after a listed `with`.
   */
  predicate OptionsMeaning(rest: seq<string>, opts: Options, o: Options) {
    && (o.only <==> opts.only || "only" in rest)
    && ("with" !in rest ==> o.with == opts.with)
    && (forall i :: 0 <= i < |rest| && rest[i] == "with" ==> o.with == TokenKwargs(rest[i + 1..]))
  }

  lemma WithHeadMeaning(rest: seq<string>, opts: Options, o: Options, n: nat)
    requires |rest| >= 1 && rest[0] == "with" && n == KwargRun(rest[1..])
    requires "with" !in rest[1 + n..]
    requires OptionsMeaning(rest[1 + n..], opts.(with := TokenKwargs(rest[1..])), o)
    ensures OptionsMeaning(rest, opts, o)
  {
    var tail := rest[1 + n..];
    OptionNamesAreNotKwargs();
    RunAfterWith(rest, n);
    forall i | 1 <= i < |rest| ensures rest[i] != "with" && (rest[i] == "only" <==> i > n && tail[i - 1 - n] == "only") {
      if i > n {
        assert rest[i] == tail[i - 1 - n];
      }
    }
    if "only" in tail {
      var j :| 0 <= j < |tail| && tail[j] == "only";
      assert rest[1 + n + j] == "only";
    }
  }

  lemma OnlyHeadMeaning(rest: seq<string>, opts: Options, o: Options)
    requires |rest| >= 1 && rest[0] == "only"
    requires OptionsMeaning(rest[1..], opts.(only := true), o)
    ensures OptionsMeaning(rest, opts, o)
  {
    var tail := rest[1..];
    assert rest == [rest[0]] + tail;
    forall i | 0 <= i < |rest| && rest[i] == "with" ensures o.with == TokenKwargs(rest[i + 1..]) {
      assert tail[i - 1] == "with";
      assert tail[i..] == rest[i + 1..];
    }
  }

  /** An accepted option list means what `OptionsMeaning` says. */
  lemma {:induction false} ParsedOptionsMeaning(tag: string, rest: seq<string>, opts: Options)
    requires opts.seen <= {"with", "only"}
    requires ParseOptions(tag, rest, opts).Ok?
    ensures OptionsMeaning(rest, opts, ParseOptions(tag, rest, opts).value)
    decreases |rest|
  {
    if |rest| > 0 {
      var o := ParseOptions(tag, rest, opts).value;
      if rest[0] == "with" {
        var n := KwargRun(rest[1..]);
        var tail := rest[1 + n..];
        var opts' := opts.(seen := opts.seen + {"with"}, with := TokenKwargs(rest[1..]));
        ParsedOptionsMeaning(tag, tail, opts');
        ParseOptionsAcceptsValid(tag, tail, opts');
        assert multiset(tail)["with"] == 0;
        WithHeadMeaning(rest, opts.(seen := opts'.seen), o, n);
      } else {
        var opts' := opts.(seen := opts.seen + {"only"}, only := true);
        ParsedOptionsMeaning(tag, rest[1..], opts');
        OnlyHeadMeaning(rest, opts.(seen := opts'.seen), o);
      }
    }
  }

  /**
    `do_include` as a whole: it accepts exactly a template name that resolves
    followed by a valid option list, isolates the context iff `only` is
    listed, and passes on the mapping that follows `with`.
   */
  lemma IncludeAcceptedIff(bits: seq<string>, templateName: string)
    requires |bits| >= 1
    ensures DoInclude(bits, templateName).Ok? <==>
      |bits| >= 2 && ValidOptions(bits[2..], {}) && ConstructRelativePathAsWritten(templateName, bits[1]).Ok?
  {
    if |bits| >= 2 {
      ParseOptionsAcceptsValid(bits[0], bits[2..], Options({}, map[], false));
    }
  }

  lemma IncludeOptionsMeaning(bits: seq<string>, templateName: string)
    requires |bits| >= 2
    requires DoInclude(bits, templateName).Ok?
    ensures var inc := DoInclude(bits, templateName).value; var rest := bits[2..];
      && (inc.isolatedContext <==> "only" in rest)
      && ("with" !in rest ==> inc.extraContext == map[])
      && (forall i :: 0 <= i < |rest| && rest[i] == "with" ==> inc.extraContext == TokenKwargs(rest[i + 1..]))
  {
    ParsedOptionsMeaning(bits[0], bits[2..], Options({}, map[], false));
  }
}
