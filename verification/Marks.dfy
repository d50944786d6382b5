/** ProseMirror text runs: marks shared by adjacent runs stay open across them. */
module Marks {
  import opened HtmlCore
  import opened Common
  import L = Layout

  // ---------------------------------------------------------------- a run's wrappers

  /** Everything that can wrap a run. */
  datatype Layer =
    | Custom(name: string) | Link | Style | Bold | Italic | Strike | Underline | Highlight | Sub | Sup | Code

  /** Stored marks by name, each with its value. */
  type MarkSet = map<string, string>

  /** Registered custom marks in alphabetical order, and how values become tags.  A link or style
      value that is not a map, or a style with no text, has no tag. */
  datatype MarkRules = MarkRules(
    names: seq<string>, custom: (string, string) -> Tag, link: string -> Option<Tag>, style: string -> Option<Tag>)

  /** Outermost first: custom marks in reverse alphabetical order, then the built-in wraps. */
  function Order(rules: MarkRules): seq<Layer> {
    Customs(rules.names) + [Link, Style, Bold, Italic, Strike, Underline, Highlight, Sup, Sub, Code]
  }

  function Builtins(): seq<Layer> { [Link, Style, Bold, Italic, Strike, Underline, Highlight, Sup, Sub, Code] }

  function Customs(names: seq<string>): seq<Layer> {
    if names == [] then [] else Customs(names[1..]) + [Custom(names[0])]
  }

  /** A mark is on the run under one of its names, and no rule claims that name. */
  predicate Has(marks: MarkSet, a: string, b: string, rules: MarkRules) {
    (a in marks && a !in rules.names) || (b in marks && b !in rules.names)
  }

  /** The tag a layer puts on a run, if it is active there.  Code excludes every formatting mark but
      links and the marks that claim the names `code` and `link`. */
  function LayerTag(layer: Layer, marks: MarkSet, rules: MarkRules): Option<Tag> {
    var plain := "code" !in marks;
    match layer
    case Custom(name) =>
      if name in marks && (plain || name == "code" || name == "link") then Some(rules.custom(name, marks[name])) else None
    case Link => if "link" in marks && "link" !in rules.names then rules.link(marks["link"]) else None
    case Style =>
      if plain && "textStyle" in marks && "textStyle" !in rules.names then rules.style(marks["textStyle"]) else None
    case Bold => if plain && Has(marks, "bold", "strong", rules) then Some(Tag("strong", "")) else None
    case Italic => if plain && Has(marks, "italic", "em", rules) then Some(Tag("em", "")) else None
    case Strike => if plain && Has(marks, "strike", "s", rules) then Some(Tag("s", "")) else None
    case Underline => if plain && Has(marks, "underline", "u", rules) then Some(Tag("u", "")) else None
    case Highlight => if plain && Has(marks, "highlight", "highlight", rules) then Some(Tag("mark", "")) else None
    case Sub => if plain && Has(marks, "subscript", "sub", rules) then Some(Tag("sub", "")) else None
    case Sup =>
      if plain && !Has(marks, "subscript", "sub", rules) && Has(marks, "superscript", "sup", rules) then Some(Tag("sup", ""))
      else None
    case Code => if Has(marks, "code", "code", rules) then Some(Tag("code", "")) else None
  }

  /** The wrappers of a run: the active layers, in the fixed order. */
  function Select(layers: seq<Layer>, marks: MarkSet, rules: MarkRules): seq<Tag> {
    if layers == [] then []
    else OneLayer(layers[0], marks, rules) + Select(layers[1..], marks, rules)
  }

  function OneLayer(layer: Layer, marks: MarkSet, rules: MarkRules): seq<Tag> {
    var tag := LayerTag(layer, marks, rules);
    if tag.Some? then [tag.value] else []
  }

  lemma {:induction false} SelectConcat(a: seq<Layer>, b: seq<Layer>, marks: MarkSet, rules: MarkRules)
    ensures Select(a + b, marks, rules) == Select(a, marks, rules) + Select(b, marks, rules)
    decreases |a|
  {
    if a == [] {
      assert a + b == b;
    } else {
      assert (a + b)[1..] == a[1..] + b;
      SelectConcat(a[1..], b, marks, rules);
    }
  }

  /** The formatting layers a run without code may carry, outermost first. */
  function Plain(): seq<Layer> { [Style, Bold, Italic, Strike, Underline, Highlight, Sup, Sub] }

  lemma {:induction false} AllInactive(layers: seq<Layer>, marks: MarkSet, rules: MarkRules)
    requires forall i :: 0 <= i < |layers| ==> LayerTag(layers[i], marks, rules).None?
    ensures Select(layers, marks, rules) == []
    decreases |layers|
  {
    if layers != [] { AllInactive(layers[1..], marks, rules); }
  }

  lemma SelectOutside(layer: Layer, rest: seq<Layer>, marks: MarkSet, rules: MarkRules)
    ensures Select([layer] + rest, marks, rules) == OneLayer(layer, marks, rules) + Select(rest, marks, rules)
  {
    assert ([layer] + rest)[1..] == rest;
  }

  /** Put a wrapper outside those built so far, if its layer is active. */
  method PushIf(on: bool, tag: Tag, stack: seq<Tag>, ghost layer: Layer, ghost layers: seq<Layer>, ghost marks: MarkSet, ghost rules: MarkRules)
    returns (stack': seq<Tag>, ghost layers': seq<Layer>)
    requires stack == Select(layers, marks, rules)
    requires LayerTag(layer, marks, rules) == if on then Some(tag) else None
    ensures layers' == [layer] + layers && stack' == Select(layers', marks, rules)
  {
    layers' := [layer] + layers;
    SelectOutside(layer, layers, marks, rules);
    stack' := stack;
    if on { stack' := [tag] + stack; }
  }

  /** Subscript or else superscript, innermost. */
  method ScriptWraps(marks: MarkSet, rules: MarkRules) returns (stack: seq<Tag>, ghost layers: seq<Layer>)
    requires "code" !in marks
    ensures layers == [Sup, Sub] && stack == Select(layers, marks, rules)
  {
    stack, layers := [], [];
    var sub := Has(marks, "subscript", "sub", rules);
    stack, layers := PushIf(sub, Tag("sub", ""), stack, Sub, layers, marks, rules);
    stack, layers := PushIf(!sub && Has(marks, "superscript", "sup", rules), Tag("sup", ""), stack, Sup, layers, marks, rules);
  }

  /** Then highlight, underline and strike. */
  method InnerWraps(marks: MarkSet, rules: MarkRules) returns (stack: seq<Tag>, ghost layers: seq<Layer>)
    requires "code" !in marks
    ensures layers == [Strike, Underline, Highlight, Sup, Sub] && stack == Select(layers, marks, rules)
  {
    stack, layers := ScriptWraps(marks, rules);
    stack, layers := PushIf(Has(marks, "highlight", "highlight", rules), Tag("mark", ""), stack, Highlight, layers, marks, rules);
    stack, layers := PushIf(Has(marks, "underline", "u", rules), Tag("u", ""), stack, Underline, layers, marks, rules);
    stack, layers := PushIf(Has(marks, "strike", "s", rules), Tag("s", ""), stack, Strike, layers, marks, rules);
  }

  method PlainWraps(marks: MarkSet, rules: MarkRules) returns (stack: seq<Tag>)
    requires "code" !in marks
    ensures stack == Select(Plain(), marks, rules)
  {
    ghost var layers;
    stack, layers := InnerWraps(marks, rules);
    stack, layers := PushIf(Has(marks, "italic", "em", rules), Tag("em", ""), stack, Italic, layers, marks, rules);
    stack, layers := PushIf(Has(marks, "bold", "strong", rules), Tag("strong", ""), stack, Bold, layers, marks, rules);
    var style := StyleTag(marks, rules);
    stack, layers := PushIf(style.Some?, if style.Some? then style.value else Tag("", ""), stack, Style, layers, marks, rules);
    assert layers == Plain();
  }

  /** The span of a textStyle mark no rule claims. */
  function StyleTag(marks: MarkSet, rules: MarkRules): Option<Tag> {
    if "textStyle" !in rules.names && "textStyle" in marks then rules.style(marks["textStyle"]) else None
  }

  /** Code alone, or the formatting wraps, or neither when a rule claims `code`. */
  method FormattingWraps(marks: MarkSet, rules: MarkRules) returns (stack: seq<Tag>)
    ensures stack == Select(Plain() + [Code], marks, rules)
  {
    stack := [];
    if Has(marks, "code", "code", rules) {
      stack := [Tag("code", "")];
    } else if "code" !in marks {
      stack := PlainWraps(marks, rules);
    }
    SelectConcat(Plain(), [Code], marks, rules);
    if "code" in marks { AllInactive(Plain(), marks, rules); }
    assert [Code][1..] == [];
  }

  /** The run's wrappers, outermost first; a rule that claims `code` keeps its exclusivity. */
  method RunStack(marks: MarkSet, rules: MarkRules) returns (stack: seq<Tag>)
    ensures stack == Select(Order(rules), marks, rules)
  {
    stack := FormattingWraps(marks, rules);
    stack := LinkWrap(marks, rules, stack);
    stack := CustomWraps(marks, rules, Builtins(), stack);
    assert Order(rules) == Customs(rules.names) + Builtins();
  }

  method LinkWrap(marks: MarkSet, rules: MarkRules, stack: seq<Tag>) returns (stack': seq<Tag>)
    requires stack == Select(Plain() + [Code], marks, rules)
    ensures stack' == Select(Builtins(), marks, rules)
  {
    stack' := stack;
    if "link" !in rules.names && "link" in marks {
      var tag := rules.link(marks["link"]);
      if tag.Some? { stack' := [tag.value] + stack'; }
    }
    SelectOutside(Link, Plain() + [Code], marks, rules);
    assert Builtins() == [Link] + (Plain() + [Code]);
  }

  lemma CustomStep(names: seq<string>, i: nat, base: seq<Layer>, marks: MarkSet, rules: MarkRules)
    requires i < |names|
    ensures Select(Customs(names[..i + 1]) + base, marks, rules)
         == OneLayer(Custom(names[i]), marks, rules) + Select(Customs(names[..i]) + base, marks, rules)
  {
    var rest := Customs(names[..i]) + base;
    CustomsSnoc(names[..i], names[i]);
    assert names[..i + 1] == names[..i] + [names[i]];
    assert Customs(names[..i + 1]) + base == [Custom(names[i])] + rest;
    SelectOutside(Custom(names[i]), rest, marks, rules);
  }

  /** Alphabetical order, each name outside the one before. */
  method CustomWraps(marks: MarkSet, rules: MarkRules, ghost base: seq<Layer>, stack: seq<Tag>) returns (stack': seq<Tag>)
    requires stack == Select(base, marks, rules)
    ensures stack' == Select(Customs(rules.names) + base, marks, rules)
  {
    stack' := stack;
    var names, i := rules.names, 0;
    assert Customs(names[..0]) + base == base;
    while i < |names|
      invariant 0 <= i <= |names|
      invariant stack' == Select(Customs(names[..i]) + base, marks, rules)
    {
      CustomStep(names, i, base, marks, rules);
      if names[i] in marks && ("code" !in marks || names[i] == "code" || names[i] == "link") {
        stack' := [rules.custom(names[i], marks[names[i]])] + stack';
      }
      i := i + 1;
    }
    assert names[..i] == names;
  }

  lemma {:induction false} CustomsSnoc(names: seq<string>, name: string)
    ensures Customs(names + [name]) == [Custom(name)] + Customs(names)
    decreases |names|
  {
    if names == [] {
      assert (names + [name])[1..] == [];
    } else {
      assert (names + [name])[1..] == names[1..] + [name];
      CustomsSnoc(names[1..], name);
    }
  }

  /** A layer that may wrap code. */
  predicate AroundCode(layer: Layer) {
    layer == Code || layer == Link || layer == Custom("code") || layer == Custom("link")
  }

  /** Code is exclusive: the wrappers of a code run are what its four permitted layers alone give. */
  lemma {:induction false} CodeIsExclusive(layers: seq<Layer>, marks: MarkSet, rules: MarkRules)
    requires "code" in marks
    ensures Select(layers, marks, rules) == Select(Permitted(layers), marks, rules)
    decreases |layers|
  {
    if layers != [] {
      CodeIsExclusive(layers[1..], marks, rules);
      var rest := Permitted(layers[1..]);
      if AroundCode(layers[0]) {
        SelectOutside(layers[0], rest, marks, rules);
      } else {
        CodeShutsOut(layers[0], marks, rules);
        assert [] + rest == rest && [] + Select(rest, marks, rules) == Select(rest, marks, rules);
      }
    }
  }

  lemma CodeShutsOut(layer: Layer, marks: MarkSet, rules: MarkRules)
    requires "code" in marks && !AroundCode(layer)
    ensures OneLayer(layer, marks, rules) == []
  {
  }

  function Permitted(layers: seq<Layer>): seq<Layer> {
    if layers == [] then []
    else (if AroundCode(layers[0]) then [layers[0]] else []) + Permitted(layers[1..])
  }

  /** A wrapper that is there or not. */
  function Maybe(on: bool, name: string): seq<Tag> { if on then [Tag(name, "")] else [] }

  /** The run carries one of two names, and no rule claims that name. */
  predicate Unclaimed(marks: MarkSet, rules: MarkRules, a: string, b: string) {
    exists name :: name in {a, b} && name in marks && name !in rules.names
  }

  function LinkTags(marks: MarkSet, rules: MarkRules): seq<Tag> {
    if "link" in marks && "link" !in rules.names && rules.link(marks["link"]).Some? then [rules.link(marks["link"]).value] else []
  }

  function StyleTags(marks: MarkSet, rules: MarkRules): seq<Tag> {
    if "textStyle" in marks && "textStyle" !in rules.names && rules.style(marks["textStyle"]).Some?
    then [rules.style(marks["textStyle"]).value] else []
  }

  function Flat(parts: seq<seq<Tag>>): seq<Tag> {
    if parts == [] then [] else parts[0] + Flat(parts[1..])
  }

  function Parts(layers: seq<Layer>, marks: MarkSet, rules: MarkRules): seq<seq<Tag>> {
    seq(|layers|, i requires 0 <= i < |layers| => OneLayer(layers[i], marks, rules))
  }

  lemma {:induction false} SelectIsFlat(layers: seq<Layer>, marks: MarkSet, rules: MarkRules)
    ensures Select(layers, marks, rules) == Flat(Parts(layers, marks, rules))
    decreases |layers|
  {
    if layers != [] {
      assert Parts(layers, marks, rules)[1..] == Parts(layers[1..], marks, rules);
      SelectIsFlat(layers[1..], marks, rules);
    }
  }

  lemma HasIsUnclaimed(marks: MarkSet, rules: MarkRules, a: string, b: string)
    ensures Has(marks, a, b, rules) <==> Unclaimed(marks, rules, a, b)
  {
    if Has(marks, a, b, rules) {
      var name := if a in marks && a !in rules.names then a else b;
      assert name in {a, b} && name in marks && name !in rules.names;
    }
  }

  lemma UpperLayers(marks: MarkSet, rules: MarkRules)
    requires "code" !in marks
    ensures OneLayer(Link, marks, rules) == LinkTags(marks, rules) && OneLayer(Style, marks, rules) == StyleTags(marks, rules)
    ensures OneLayer(Bold, marks, rules) == Maybe(Unclaimed(marks, rules, "bold", "strong"), "strong")
    ensures OneLayer(Italic, marks, rules) == Maybe(Unclaimed(marks, rules, "italic", "em"), "em")
    ensures OneLayer(Strike, marks, rules) == Maybe(Unclaimed(marks, rules, "strike", "s"), "s")
  {
    HasIsUnclaimed(marks, rules, "bold", "strong");
    HasIsUnclaimed(marks, rules, "italic", "em");
    HasIsUnclaimed(marks, rules, "strike", "s");
  }

  lemma LowerLayers(marks: MarkSet, rules: MarkRules)
    requires "code" !in marks
    ensures OneLayer(Underline, marks, rules) == Maybe(Unclaimed(marks, rules, "underline", "u"), "u")
    ensures OneLayer(Highlight, marks, rules) == Maybe(Unclaimed(marks, rules, "highlight", "highlight"), "mark")
    ensures OneLayer(Sub, marks, rules) == Maybe(Unclaimed(marks, rules, "subscript", "sub"), "sub")
    ensures OneLayer(Sup, marks, rules)
         == Maybe(!Unclaimed(marks, rules, "subscript", "sub") && Unclaimed(marks, rules, "superscript", "sup"), "sup")
    ensures OneLayer(Code, marks, rules) == []
  {
    HasIsUnclaimed(marks, rules, "underline", "u");
    HasIsUnclaimed(marks, rules, "highlight", "highlight");
    HasIsUnclaimed(marks, rules, "subscript", "sub");
    HasIsUnclaimed(marks, rules, "superscript", "sup");
  }

  /** The built-in wrappers of a run without code, by its mark names, outermost first. */
  function PlainParts(marks: MarkSet, rules: MarkRules): seq<seq<Tag>> {
    [ LinkTags(marks, rules),
      StyleTags(marks, rules),
      Maybe(Unclaimed(marks, rules, "bold", "strong"), "strong"),
      Maybe(Unclaimed(marks, rules, "italic", "em"), "em"),
      Maybe(Unclaimed(marks, rules, "strike", "s"), "s"),
      Maybe(Unclaimed(marks, rules, "underline", "u"), "u"),
      Maybe(Unclaimed(marks, rules, "highlight", "highlight"), "mark"),
      Maybe(!Unclaimed(marks, rules, "subscript", "sub") && Unclaimed(marks, rules, "superscript", "sup"), "sup"),
      Maybe(Unclaimed(marks, rules, "subscript", "sub"), "sub"),
      [] ]
  }

  lemma PartsArePlain(marks: MarkSet, rules: MarkRules)
    requires "code" !in marks
    ensures Parts(Builtins(), marks, rules) == PlainParts(marks, rules)
  {
    UpperLayers(marks, rules);
    LowerLayers(marks, rules);
    var parts, plain := Parts(Builtins(), marks, rules), PlainParts(marks, rules);
    assert parts[0] == plain[0] && parts[1] == plain[1] && parts[2] == plain[2] && parts[3] == plain[3] && parts[4] == plain[4];
    assert parts[5] == plain[5] && parts[6] == plain[6] && parts[7] == plain[7] && parts[8] == plain[8] && parts[9] == plain[9];
  }

  /** A run without code: its custom marks, then link, style, strong, em, s, u, mark, and innermost sub, or
      sup where there is no sub. */
  lemma PlainRunStack(marks: MarkSet, rules: MarkRules)
    requires "code" !in marks
    ensures Select(Order(rules), marks, rules)
         == Select(Customs(rules.names), marks, rules) + Flat(PlainParts(marks, rules))
  {
    assert Order(rules) == Customs(rules.names) + Builtins();
    SelectConcat(Customs(rules.names), Builtins(), marks, rules);
    SelectIsFlat(Builtins(), marks, rules);
    PartsArePlain(marks, rules);
  }

  /** A code run: its custom marks, the link, and code unless a rule claims it. */
  lemma CodeRunStack(marks: MarkSet, rules: MarkRules)
    requires "code" in marks
    ensures Select(Order(rules), marks, rules) == Select(Customs(rules.names), marks, rules)
      + (LinkTags(marks, rules) + Maybe("code" !in rules.names, "code"))
  {
    assert Order(rules) == Customs(rules.names) + Builtins();
    SelectConcat(Customs(rules.names), Builtins(), marks, rules);
    assert Builtins() == [Link] + (Plain() + [Code]);
    SelectOutside(Link, Plain() + [Code], marks, rules);
    CodeAlone(marks, rules);
  }

  lemma CodeAlone(marks: MarkSet, rules: MarkRules)
    requires "code" in marks
    ensures Select(Plain() + [Code], marks, rules) == Maybe("code" !in rules.names, "code")
  {
    SelectConcat(Plain(), [Code], marks, rules);
    AllInactive(Plain(), marks, rules);
    SelectOutside(Code, [], marks, rules);
    assert [Code] + [] == [Code];
  }

  /** Custom marks: each registered name on the run wraps it, a later name outside an earlier one; on a
      code run only the names `code` and `link`. */
  lemma CustomStack(names: seq<string>, name: string, marks: MarkSet, rules: MarkRules)
    ensures Select(Customs(names + [name]), marks, rules)
      == (if name in marks && ("code" !in marks || name in {"code", "link"}) then [rules.custom(name, marks[name])] else [])
       + Select(Customs(names), marks, rules)
  {
    CustomsSnoc(names, name);
    SelectOutside(Custom(name), Customs(names), marks, rules);
  }

  // ---------------------------------------------------------------- emitting runs

  /** A piece of a text's diff: a formatted string, or an embed, which renders nothing here. */
  datatype Diff = Str(chars: string, marks: MarkSet) | Embed

  /** A character and the elements around it, outermost first. */
  datatype Shown = Shown(ch: char, within: seq<Tag>)

  function Chars(chars: string, within: seq<Tag>): seq<Shown> {
    seq(|chars|, i requires 0 <= i < |chars| => Shown(chars[i], within))
  }

  function Wrappers(d: Diff, rules: MarkRules): seq<Tag>
    requires d.Str?
  {
    Select(Order(rules), d.marks, rules)
  }

  /** What a text means: every character under its own run's wrappers. */
  function Meaning(diffs: seq<Diff>, rules: MarkRules): seq<Shown> {
    if diffs == [] then []
    else
      (if diffs[0].Str? then Chars(diffs[0].chars, Wrappers(diffs[0], rules)) else [])
      + Meaning(diffs[1..], rules)
  }

  function Letters(shown: seq<Shown>): string { seq(|shown|, i requires 0 <= i < |shown| => shown[i].ch) }

  function Strings(diffs: seq<Diff>): string {
    if diffs == [] then "" else (if diffs[0].Str? then diffs[0].chars else "") + Strings(diffs[1..])
  }

  /** A text's meaning has its strings' characters, in order. */
  lemma {:induction false} MeaningSpells(diffs: seq<Diff>, rules: MarkRules)
    ensures Letters(Meaning(diffs, rules)) == Strings(diffs)
    decreases |diffs|
  {
    if diffs != [] {
      MeaningSpells(diffs[1..], rules);
      if diffs[0].Str? {
        LettersFirst(diffs[0].chars, Wrappers(diffs[0], rules), Meaning(diffs[1..], rules));
      } else {
        assert [] + Meaning(diffs[1..], rules) == Meaning(diffs[1..], rules);
      }
    }
  }

  lemma LettersFirst(chars: string, within: seq<Tag>, rest: seq<Shown>)
    ensures Letters(Chars(chars, within) + rest) == chars + Letters(rest)
  {
  }

  /** How many leading wrappers two stacks share. */
  function Shared(a: seq<Tag>, b: seq<Tag>): (k: nat)
    ensures k <= |a| && k <= |b| && a[..k] == b[..k]
    ensures k < |a| && k < |b| ==> a[k] != b[k]
  {
    if a == [] || b == [] || a[0] != b[0] then 0
    else
      var k := Shared(a[1..], b[1..]);
      assert a[..k + 1] == [a[0]] + a[1..][..k] && b[..k + 1] == [b[0]] + b[1..][..k];
      k + 1
  }

  function TextTok(chars: string): seq<Tok> { if chars == "" then [] else [Text(chars)] }

  /** Tags from one stack to the next: close what is not shared, then open what is new. */
  function Between(from: seq<Tag>, to: seq<Tag>): seq<Tok> {
    L.Closes(from[Shared(from, to)..]) + L.Opens(to[Shared(from, to)..])
  }

  /** What is still to be emitted for `diffs` with `open` open. */
  function Emitted(diffs: seq<Diff>, open: seq<Tag>, rules: MarkRules): seq<Tok> {
    if diffs == [] then L.Closes(open)
    else if diffs[0].Embed? then Emitted(diffs[1..], open, rules)
    else
      var stack := Wrappers(diffs[0], rules);
      Between(open, stack) + TextTok(diffs[0].chars) + Emitted(diffs[1..], stack, rules)
  }

  /** The runs as they are rendered: shared wrappers stay open from one run to the next. */
  method RenderTextRuns(diffs: seq<Diff>, rules: MarkRules, em: Emitter)
    requires em.Valid()
    modifies em
    ensures em.Valid() && em.Out() == Put(old(em.Out()), Tokens(Emitted(diffs, [], rules)))
  {
    var open: seq<Tag> := [];
    var i := 0;
    assert diffs[0..] == diffs;
    while i < |diffs|
      invariant 0 <= i <= |diffs| && em.Valid()
      invariant Put(em.Out(), Tokens(Emitted(diffs[i..], open, rules))) == Put(old(em.Out()), Tokens(Emitted(diffs, [], rules)))
    {
      assert diffs[i..][1..] == diffs[i + 1..];
      if diffs[i].Str? {
        var stack := RunStack(diffs[i].marks, rules);
        EmitStep(em.Out(), Between(open, stack), TextTok(diffs[i].chars), Emitted(diffs[i + 1..], stack, rules));
        PushBetween(open, stack, em);
        open := stack;
        em.PushStr(TextTok(diffs[i].chars));
      }
      i := i + 1;
    }
    assert diffs[i..] == [];
    PushCloses(open, em);
  }

  lemma EmitStep(frames: seq<seq<Piece>>, a: seq<Tok>, b: seq<Tok>, c: seq<Tok>)
    requires frames != []
    ensures Put(Put(Put(frames, Tokens(a)), Tokens(b)), Tokens(c)) == Put(frames, Tokens(a + b + c))
  {
    PutPut(frames, Tokens(a), Tokens(b));
    TokensConcat(a, b);
    PutPut(frames, Tokens(a + b), Tokens(c));
    TokensConcat(a + b, c);
  }

  method PushBetween(open: seq<Tag>, stack: seq<Tag>, em: Emitter)
    requires em.Valid()
    modifies em
    ensures em.Valid() && em.Out() == Put(old(em.Out()), Tokens(Between(open, stack)))
  {
    var shared := Shared(open, stack);
    ghost var before := em.Out();
    PutPut(before, Tokens(L.Closes(open[shared..])), Tokens(L.Opens(stack[shared..])));
    TokensConcat(L.Closes(open[shared..]), L.Opens(stack[shared..]));
    PushCloses(open[shared..], em);
    PushOpens(stack[shared..], em);
  }

  method PushCloses(tags: seq<Tag>, em: Emitter)
    requires em.Valid()
    modifies em
    ensures em.Valid() && em.Out() == Put(old(em.Out()), Tokens(L.Closes(tags)))
  {
    var i := |tags|;
    ghost var done := [];
    assert Tokens(done) == [];
    PutNothing(em.Out());
    while i > 0
      invariant 0 <= i <= |tags| && em.Valid()
      invariant done == L.Closes(tags[i..])
      invariant em.Out() == Put(old(em.Out()), Tokens(done))
    {
      i := i - 1;
      assert tags[i..][1..] == tags[i + 1..];
      PutPut(old(em.Out()), Tokens(done), Tokens([Close(tags[i].name)]));
      TokensConcat(done, [Close(tags[i].name)]);
      em.PushStr([Close(tags[i].name)]);
      done := done + [Close(tags[i].name)];
    }
    assert tags[0..] == tags;
  }

  method PushOpens(tags: seq<Tag>, em: Emitter)
    requires em.Valid()
    modifies em
    ensures em.Valid() && em.Out() == Put(old(em.Out()), Tokens(L.Opens(tags)))
  {
    var i := 0;
    ghost var left := L.Opens(tags);
    assert tags[0..] == tags;
    while i < |tags|
      invariant 0 <= i <= |tags| && em.Valid()
      invariant left == L.Opens(tags[i..])
      invariant Put(em.Out(), Tokens(left)) == Put(old(em.Out()), Tokens(L.Opens(tags)))
    {
      ghost var rest := L.Opens(tags[i + 1..]);
      assert tags[i..][1..] == tags[i + 1..];
      PutPut(em.Out(), Tokens([Open(tags[i])]), Tokens(rest));
      TokensConcat([Open(tags[i])], rest);
      em.PushStr([Open(tags[i])]);
      left := rest;
      i := i + 1;
    }
    assert Tokens(left) == [];
    PutNothing(em.Out());
  }

  // ---------------------------------------------------------------- reading the markup back

  datatype Seen = Seen(shown: seq<Shown>, open: seq<Tag>)

  /** An HTML reader: every character with the elements open around it; None at a stray end tag. */
  function Read(toks: seq<Tok>, open: seq<Tag>): Option<Seen> {
    if toks == [] then Some(Seen([], open))
    else
      match toks[0]
      case Open(tag) => Read(toks[1..], open + [tag])
      case Close(name) =>
        if open != [] && open[|open| - 1].name == name then Read(toks[1..], open[..|open| - 1]) else None
      case Void(_) => Read(toks[1..], open)
      case Text(chars) =>
        var rest := Read(toks[1..], open);
        if rest.None? then None else Some(Seen(Chars(chars, open) + rest.value.shown, rest.value.open))
  }

  function Then(first: Option<Seen>, toks: seq<Tok>): Option<Seen> {
    if first.None? then None
    else
      var rest := Read(toks, first.value.open);
      if rest.None? then None else Some(Seen(first.value.shown + rest.value.shown, rest.value.open))
  }

  lemma ThenNothingYet(toks: seq<Tok>, open: seq<Tag>)
    ensures Then(Some(Seen([], open)), toks) == Read(toks, open)
  {
    var rest := Read(toks, open);
    assert rest.Some? ==> [] + rest.value.shown == rest.value.shown;
  }

  lemma {:induction false} ReadConcat(a: seq<Tok>, b: seq<Tok>, open: seq<Tag>)
    ensures Read(a + b, open) == Then(Read(a, open), b)
    decreases |a|
  {
    if a == [] {
      assert a + b == b;
      ThenNothingYet(b, open);
    } else {
      assert (a + b)[1..] == a[1..] + b;
      match a[0]
      case Open(tag) => ReadConcat(a[1..], b, open + [tag]);
      case Close(name) => if open != [] { ReadConcat(a[1..], b, open[..|open| - 1]); }
      case Void(_) => ReadConcat(a[1..], b, open);
      case Text(chars) =>
        ReadConcat(a[1..], b, open);
        var mid := Read(a[1..], open);
        if mid.Some? && Read(b, mid.value.open).Some? {
          var rest := Read(b, mid.value.open).value.shown;
          assert Chars(chars, open) + (mid.value.shown + rest) == (Chars(chars, open) + mid.value.shown) + rest;
        }
    }
  }

  lemma ReadOpen(tag: Tag, rest: seq<Tok>, open: seq<Tag>)
    ensures Read([Open(tag)] + rest, open) == Read(rest, open + [tag])
  {
    assert ([Open(tag)] + rest)[1..] == rest;
  }

  lemma {:induction false} ReadOpens(tags: seq<Tag>, open: seq<Tag>)
    ensures Read(L.Opens(tags), open) == Some(Seen([], open + tags))
    decreases |tags|
  {
    if tags == [] {
      assert open + tags == open;
    } else {
      ReadOpen(tags[0], L.Opens(tags[1..]), open);
      ReadOpens(tags[1..], open + [tags[0]]);
      assert open + [tags[0]] + tags[1..] == open + tags;
    }
  }

  lemma {:induction false} ReadCloses(tags: seq<Tag>, open: seq<Tag>)
    ensures Read(L.Closes(tags), open + tags) == Some(Seen([], open))
    decreases |tags|
  {
    if tags == [] {
      assert open + tags == open;
    } else {
      var last := [Close(tags[0].name)];
      assert open + tags == (open + [tags[0]]) + tags[1..];
      ReadConcat(L.Closes(tags[1..]), last, open + tags);
      ReadCloses(tags[1..], open + [tags[0]]);
      ThenNothingYet(last, open + [tags[0]]);
      assert last[1..] == [];
      assert (open + [tags[0]])[..|open|] == open;
    }
  }

  lemma ReadBetween(from: seq<Tag>, to: seq<Tag>)
    ensures Read(Between(from, to), from) == Some(Seen([], to))
  {
    var k := Shared(from, to);
    assert from == from[..k] + from[k..] && to == from[..k] + to[k..];
    ReadConcat(L.Closes(from[k..]), L.Opens(to[k..]), from);
    ReadCloses(from[k..], from[..k]);
    ReadOpens(to[k..], from[..k]);
    ThenNothingYet(L.Opens(to[k..]), from[..k]);
  }

  lemma ReadText(chars: string, open: seq<Tag>)
    ensures Read(TextTok(chars), open) == Some(Seen(Chars(chars, open), open))
  {
    if chars == "" {
      assert Chars(chars, open) == [];
    } else {
      assert TextTok(chars)[1..] == [];
      assert Chars(chars, open) + [] == Chars(chars, open);
    }
  }

  /** Keeping marks open preserves meaning: read back, the output gives every character under exactly
      the wrappers its own run was assigned, and leaves nothing open. */
  lemma {:induction false} MarksPreserveMeaning(diffs: seq<Diff>, open: seq<Tag>, rules: MarkRules)
    ensures Read(Emitted(diffs, open, rules), open) == Some(Seen(Meaning(diffs, rules), []))
    decreases |diffs|
  {
    if diffs == [] {
      ReadCloses(open, []);
      assert [] + open == open;
    } else if diffs[0].Embed? {
      MarksPreserveMeaning(diffs[1..], open, rules);
      assert [] + Meaning(diffs[1..], rules) == Meaning(diffs[1..], rules);
    } else {
      var stack, chars := Wrappers(diffs[0], rules), diffs[0].chars;
      var rest := Emitted(diffs[1..], stack, rules);
      MarksPreserveMeaning(diffs[1..], stack, rules);
      ReadConcat(Between(open, stack) + TextTok(chars), rest, open);
      ReadConcat(Between(open, stack), TextTok(chars), open);
      ReadBetween(open, stack);
      ThenNothingYet(TextTok(chars), stack);
      ReadText(chars, stack);
    }
  }

  lemma {:induction false} NamesConcat(a: seq<Tag>, b: seq<Tag>)
    ensures L.Names(a + b) == L.Names(a) + L.Names(b)
    decreases |a|
  {
    if a == [] {
      assert a + b == b;
    } else {
      assert (a + b)[1..] == a[1..] + b;
      NamesConcat(a[1..], b);
    }
  }

  /** What the reader accepts is well nested, whatever surrounds it. */
  lemma {:induction false} ReadIsNested(toks: seq<Tok>, open: seq<Tag>, around: seq<string>)
    requires Read(toks, open).Some?
    ensures Scan(Tokens(toks), around + L.Names(open)) == Some(around + L.Names(Read(toks, open).value.open))
    decreases |toks|
  {
    if toks != [] {
      assert Tokens(toks)[1..] == Tokens(toks[1..]);
      match toks[0]
      case Open(tag) =>
        NamesConcat(open, [tag]);
        assert [tag][1..] == [];
        assert around + L.Names(open) + [tag.name] == around + L.Names(open + [tag]);
        ReadIsNested(toks[1..], open + [tag], around);
      case Close(name) =>
        var init, last := open[..|open| - 1], open[|open| - 1];
        assert open == init + [last] && [last][1..] == [];
        NamesConcat(init, [last]);
        assert around + L.Names(open) == (around + L.Names(init)) + [name];
        ReadIsNested(toks[1..], init, around);
      case _ => ReadIsNested(toks[1..], open, around);
    }
  }

  lemma RunsAreBalanced(diffs: seq<Diff>, rules: MarkRules)
    ensures Balanced(Tokens(Emitted(diffs, [], rules)))
  {
    forall around ensures Scan(Tokens(Emitted(diffs, [], rules)), around) == Some(around) {
      MarksPreserveMeaning(diffs, [], rules);
      ReadIsNested(Emitted(diffs, [], rules), [], around);
      assert around + [] == around;
    }
  }

  // ---------------------------------------------------------------- as few tags as possible

  function TagCount(toks: seq<Tok>): nat {
    if toks == [] then 0 else (if toks[0].Open? || toks[0].Close? then 1 else 0) + TagCount(toks[1..])
  }

  /** Tags needed to go from one stack of open elements to another. */
  function Distance(a: seq<Tag>, b: seq<Tag>): nat { |a| + |b| - 2 * Shared(a, b) }

  /** Tags needed to show these characters and then close everything. */
  function Needed(shown: seq<Shown>, open: seq<Tag>): nat {
    if shown == [] then |open| else Distance(open, shown[0].within) + Needed(shown[1..], shown[0].within)
  }

  lemma SharedIsLongest(a: seq<Tag>, b: seq<Tag>, k: nat)
    requires k <= |a| && k <= |b| && a[..k] == b[..k]
    ensures k <= Shared(a, b)
  {
    assert forall j :: 0 <= j < k ==> a[j] == a[..k][j] == b[j];
  }

  /** One tag brings no stack more than one step closer. */
  lemma OneTagOneStep(a: seq<Tag>, t: Tag, c: seq<Tag>)
    ensures Distance(a, c) <= 1 + Distance(a + [t], c) && Distance(a + [t], c) <= 1 + Distance(a, c)
  {
    var b := a + [t];
    var s, r := Shared(b, c), Shared(a, c);
    var m := if s <= |a| then s else |a|;
    assert a[..m] == b[..s][..m] == c[..s][..m] == c[..m];
    SharedIsLongest(a, c, m);
    assert b[..r] == a[..r];
    SharedIsLongest(b, c, r);
  }

  lemma OneTagOneStepNeeded(shown: seq<Shown>, a: seq<Tag>, t: Tag)
    ensures Needed(shown, a) <= 1 + Needed(shown, a + [t]) && Needed(shown, a + [t]) <= 1 + Needed(shown, a)
  {
    if shown != [] { OneTagOneStep(a, t, shown[0].within); }
  }

  lemma {:induction false} NeededInPlace(chars: string, open: seq<Tag>, rest: seq<Shown>)
    ensures Needed(Chars(chars, open) + rest, open) == Needed(rest, open)
    decreases |chars|
  {
    if chars == "" {
      assert Chars(chars, open) + rest == rest;
    } else {
      assert (Chars(chars, open) + rest)[1..] == Chars(chars[1..], open) + rest;
      SharedIsLongest(open, open, |open|);
      NeededInPlace(chars[1..], open, rest);
    }
  }

  lemma NeededAfter(chars: string, from: seq<Tag>, to: seq<Tag>, rest: seq<Shown>)
    requires chars != ""
    ensures Needed(Chars(chars, to) + rest, from) == Distance(from, to) + Needed(rest, to)
  {
    var shown := Chars(chars, to) + rest;
    assert shown[0] == Shown(chars[0], to) && shown[1..] == Chars(chars[1..], to) + rest;
    NeededInPlace(chars[1..], to, rest);
  }

  lemma {:induction false} NoFewer(toks: seq<Tok>, open: seq<Tag>, shown: seq<Shown>)
    requires Read(toks, open) == Some(Seen(shown, []))
    ensures TagCount(toks) >= Needed(shown, open)
    decreases |toks|
  {
    if toks != [] {
      match toks[0]
      case Open(tag) =>
        NoFewer(toks[1..], open + [tag], shown);
        OneTagOneStepNeeded(shown, open, tag);
      case Close(name) =>
        var init := open[..|open| - 1];
        assert open == init + [open[|open| - 1]];
        NoFewer(toks[1..], init, shown);
        OneTagOneStepNeeded(shown, init, open[|open| - 1]);
      case Void(_) => NoFewer(toks[1..], open, shown);
      case Text(chars) =>
        var rest := Read(toks[1..], open).value.shown;
        NoFewer(toks[1..], open, rest);
        NeededInPlace(chars, open, rest);
    }
  }

  lemma {:induction false} CountConcat(a: seq<Tok>, b: seq<Tok>)
    ensures TagCount(a + b) == TagCount(a) + TagCount(b)
    decreases |a|
  {
    if a == [] {
      assert a + b == b;
    } else {
      assert (a + b)[1..] == a[1..] + b;
      CountConcat(a[1..], b);
    }
  }

  lemma {:induction false} CountTags(tags: seq<Tag>)
    ensures TagCount(L.Opens(tags)) == |tags| && TagCount(L.Closes(tags)) == |tags|
    decreases |tags|
  {
    if tags != [] {
      CountTags(tags[1..]);
      var last := [Close(tags[0].name)];
      assert L.Opens(tags)[1..] == L.Opens(tags[1..]);
      assert last[1..] == [];
      CountConcat(L.Closes(tags[1..]), last);
    }
  }

  lemma CountBetween(from: seq<Tag>, to: seq<Tag>)
    ensures TagCount(Between(from, to)) == Distance(from, to)
  {
    var k := Shared(from, to);
    CountConcat(L.Closes(from[k..]), L.Opens(to[k..]));
    CountTags(from[k..]);
    CountTags(to[k..]);
  }

  /** A shared text diff has no empty string. */
  predicate NoEmptyRuns(diffs: seq<Diff>) { forall i :: 0 <= i < |diffs| && diffs[i].Str? ==> diffs[i].chars != "" }

  lemma {:induction false} EmittedCount(diffs: seq<Diff>, open: seq<Tag>, rules: MarkRules)
    requires NoEmptyRuns(diffs)
    ensures TagCount(Emitted(diffs, open, rules)) == Needed(Meaning(diffs, rules), open)
    decreases |diffs|
  {
    if diffs == [] {
      CountTags(open);
    } else if diffs[0].Embed? {
      EmittedCount(diffs[1..], open, rules);
      assert [] + Meaning(diffs[1..], rules) == Meaning(diffs[1..], rules);
    } else {
      var stack, chars := Wrappers(diffs[0], rules), diffs[0].chars;
      var rest := Meaning(diffs[1..], rules);
      EmittedCount(diffs[1..], stack, rules);
      CountConcat(Between(open, stack) + TextTok(chars), Emitted(diffs[1..], stack, rules));
      CountConcat(Between(open, stack), TextTok(chars));
      CountBetween(open, stack);
      assert TextTok(chars)[1..] == [];
      NeededAfter(chars, open, stack, rest);
    }
  }

  /** No markup that reads back the same has fewer tags. */
  lemma FewestTags(diffs: seq<Diff>, rules: MarkRules, toks: seq<Tok>)
    requires NoEmptyRuns(diffs) && Read(toks, []) == Some(Seen(Meaning(diffs, rules), []))
    ensures TagCount(Emitted(diffs, [], rules)) <= TagCount(toks)
  {
    NoFewer(toks, [], Meaning(diffs, rules));
    EmittedCount(diffs, [], rules);
  }
}
