/** For a document in which every child has a pass that renders it, the text of the output is the text of
    the document: every stored string, once, in document order, a tab shown as a tab. */
module TextOrder {
  import opened Common
  import opened HtmlCore
  import opened Layout
  import opened Reading
  import opened Meaning

  /** The characters shown, in order. */
  function Letters(seen: seq<Seen>): string {
    if seen == [] then ""
    else (if seen[0].what.Glyph? then [seen[0].what.ch] else "") + Letters(seen[1..])
  }

  lemma {:induction false} LettersConcat(a: seq<Seen>, b: seq<Seen>)
    ensures Letters(a + b) == Letters(a) + Letters(b)
    decreases |a|
  {
    if a == [] {
      assert a + b == b;
    } else {
      assert (a + b)[1..] == a[1..] + b;
      LettersConcat(a[1..], b);
    }
  }

  lemma {:induction false} LettersOfGlyphs(chars: string, within: seq<Around>)
    ensures Letters(Glyphs(chars, within)) == chars
    decreases |chars|
  {
    if chars != "" {
      assert Glyphs(chars, within)[1..] == Glyphs(chars[1..], within);
      LettersOfGlyphs(chars[1..], within);
    }
  }

  lemma LettersOfOne(seen: Seen)
    ensures Letters([seen]) == if seen.what.Glyph? then [seen.what.ch] else ""
  {
    assert [seen][1..] == [];
  }

  // ---------------------------------------------------------------- the document's own text

  function TextOf(n: Node): string decreases n, 1, 0 { TextBetween(n.items, 0, |n.items|) }

  /** The strings of items `i` to `k` and of their descendants, in document order. */
  function TextBetween(items: seq<Item>, i: nat, k: nat): string
    requires i <= k <= |items|
    decreases items, 0, k - i
  {
    if i == k then "" else ItemText(items[i], TabAt(items, i)) + TextBetween(items, i + 1, k)
  }

  function ItemText(item: Item, tab: bool): string
    decreases item, 2, 0
  {
    match item
    case Str(chars) => if tab then "\t" else chars
    case Child(n) => TextOf(n)
    case _ => ""
  }

  lemma {:induction false} TextSplits(items: seq<Item>, i: nat, k: nat, m: nat)
    requires i <= k <= m <= |items|
    ensures TextBetween(items, i, m) == TextBetween(items, i, k) + TextBetween(items, k, m)
    decreases k - i
  {
    if i < k { TextSplits(items, i + 1, k, m); }
  }

  // ---------------------------------------------------------------- every child has a pass

  /** A rule that renders its node's content and writes no text of its own. */
  ghost predicate RuleCarries(rule: NodeRule, attrs: string) {
    rule.content != NoContent && (rule.Declarative? ==> !rule.void && rule.text(attrs) == "")
  }

  /** The inline pass renders the item, all the way down. */
  ghost predicate InlineCarries(rules: Rules, item: Item, depth: nat, ruled: bool)
    decreases item, 2, 0
  {
    match item
    case Meta(_, _) => true
    case Str(_) => true
    case Decorator(ty, attrs) =>
      ty in rules.nodes && rules.nodes[ty].Declarative? && !rules.nodes[ty].void ==> rules.nodes[ty].text(attrs) == ""
    case Child(n) =>
      && AmongText(rules, n, ruled) && depth < rules.maxInlineDepth
      && (n.ty in rules.nodes ==> RuleCarries(rules.nodes[n.ty], n.attrs))
      && AllCarry(rules, n.items, depth + 1, ruled || n.ty in rules.nodes || IsInlineType(n.ty))
  }

  ghost predicate AllCarry(rules: Rules, items: seq<Item>, depth: nat, ruled: bool)
    decreases items, 0, 0
  {
    forall i :: 0 <= i < |items| ==> InlineCarries(rules, items[i], depth, ruled)
  }

  /** Inline content first, then children that only the block walk renders. */
  ghost predicate SplitsAt(rules: Rules, items: seq<Item>, k: nat, ruled: bool, onlyLists: bool, depth: nat)
    decreases rules.maxBlockDepth - depth, 0
  {
    && k <= |items|
    && (forall i :: 0 <= i < k ==> InlineCarries(rules, items[i], 0, ruled) && !Walked(items[i], onlyLists))
    && (forall i :: k <= i < |items| ==>
         || (items[i].Meta? && items[i].ty != "linebreak")
         || (Walked(items[i], onlyLists) && !AmongText(rules, items[i].node, ruled) && depth < rules.maxBlockDepth
             && BlockCarries(rules, items[i].node, depth + 1)))
  }

  /** How a block's children are passed over: whether custom ones are let in among the text, and which
      the block walk takes. */
  datatype Passes = Passes(ruled: bool, walks: bool, onlyLists: bool)

  ghost function PassesOf(rules: Rules, n: Node): Passes {
    if n.ty in rules.nodes then Passes(rules.nodes[n.ty].content == Inline, rules.nodes[n.ty].content == Blocks, false)
    else if n.ty in rules.blocks then
      match rules.blocks[n.ty]
      case TextBlock(_) => Passes(true, false, false)
      case Paragraph(_) => Passes(true, false, false)
      case Container(_, onlyLists, ruledInline) => Passes(ruledInline, true, onlyLists)
    else
      var walks := exists j :: 0 <= j < |n.items| && Walked(n.items[j], false);
      Passes(!walks, walks, false)
  }

  /** The block renders every string below it. */
  ghost predicate BlockCarries(rules: Rules, n: Node, depth: nat)
    decreases rules.maxBlockDepth - depth, 1
  {
    var p := PassesOf(rules, n);
    && (n.ty in rules.nodes ==> RuleCarries(rules.nodes[n.ty], n.attrs))
    && (if p.walks then exists k :: SplitsAt(rules, n.items, k, p.ruled, p.onlyLists, depth) else AllCarry(rules, n.items, 0, p.ruled))
  }

  // ---------------------------------------------------------------- inline

  lemma {:induction false} FromSpells(rules: Rules, items: seq<Item>, i: nat, k: nat, depth: nat, ruled: bool, open: seq<Around>)
    requires i <= k <= |items| && forall j :: i <= j < k ==> InlineCarries(rules, items[j], depth, ruled)
    ensures Letters(SaysFrom(rules, items, i, depth, ruled, open))
         == TextBetween(items, i, k) + Letters(SaysFrom(rules, items, k, depth, ruled, open))
    decreases items, 0, k - i
  {
    if i < k {
      ItemSpells(rules, items[i], FormatAt(items, i), TabAt(items, i), depth, ruled, open);
      FromSpells(rules, items, i + 1, k, depth, ruled, open);
      FirstSpells(SaysItem(rules, items[i], FormatAt(items, i), TabAt(items, i), depth, ruled, open),
                  SaysFrom(rules, items, i + 1, depth, ruled, open), ItemText(items[i], TabAt(items, i)),
                  TextBetween(items, i + 1, k), Letters(SaysFrom(rules, items, k, depth, ruled, open)));
    }
  }

  lemma FirstSpells(first: seq<Seen>, rest: seq<Seen>, a: string, b: string, c: string)
    requires Letters(first) == a && Letters(rest) == b + c
    ensures Letters(first + rest) == (a + b) + c
  {
    LettersConcat(first, rest);
    assert a + (b + c) == (a + b) + c;
  }

  lemma {:induction false} ItemSpells(rules: Rules, item: Item, format: string, tab: bool, depth: nat, ruled: bool, open: seq<Around>)
    requires InlineCarries(rules, item, depth, ruled)
    ensures Letters(SaysItem(rules, item, format, tab, depth, ruled, open)) == ItemText(item, tab)
    decreases item, 3, 0
  {
    match item
    case Meta(ty, _) => LettersOfOne(Seen(Leaf(Tag("br", "")), open));
    case Str(chars) =>
      LettersOfOne(Seen(Glyph('\t'), open + [In(Tag("span", ""))]));
      LettersOfGlyphs(chars, open + Ins(rules.marks(format)));
    case Decorator(ty, attrs) => DecoratorIsSilent(rules, ty, attrs, open);
    case Child(n) => ChildSpells(rules, n, depth, ruled, open);
  }

  lemma DecoratorIsSilent(rules: Rules, ty: string, attrs: string, open: seq<Around>)
    requires ty in rules.nodes && rules.nodes[ty].Declarative? && !rules.nodes[ty].void ==> rules.nodes[ty].text(attrs) == ""
    ensures Letters(SaysDecorator(rules, ty, attrs, open)) == ""
  {
    var says := SaysDecorator(rules, ty, attrs, open);
    if says != [] {
      assert |says| == 1 && says == [says[0]];
      LettersOfOne(says[0]);
    }
  }

  lemma {:induction false} BodySpells(rules: Rules, n: Node, depth: nat, ruled: bool, open: seq<Around>)
    requires AllCarry(rules, n.items, depth, ruled)
    ensures Letters(SaysFrom(rules, n.items, 0, depth, ruled, open)) == TextOf(n)
    decreases n, 1, 0
  {
    FromSpells(rules, n.items, 0, |n.items|, depth, ruled, open);
  }

  lemma {:induction false} ChildSpells(rules: Rules, n: Node, depth: nat, ruled: bool, open: seq<Around>)
    requires InlineCarries(rules, Child(n), depth, ruled)
    ensures Letters(SaysChild(rules, n, depth, ruled, open)) == TextOf(n)
    decreases n, 2, 0
  {
    if n.ty in rules.nodes {
      match rules.nodes[n.ty]
      case CallbackRule(content) =>
        var first, within := Seen(Asked(n.ty, n.attrs, TypesOf(n.items)), open), open + [Slot(n.ty)];
        BodySpells(rules, n, depth + 1, true, within);
        LettersConcat([first], SaysBody(rules, n, content, depth, within));
        LettersOfOne(first);
      case Declarative(tag, void, text, content) =>
        var within := open + [In(tag(n.attrs))];
        BodySpells(rules, n, depth + 1, true, within);
        LettersConcat(Glyphs(text(n.attrs), within), SaysBody(rules, n, content, depth, within));
        LettersOfGlyphs(text(n.attrs), within);
    } else if IsInlineType(n.ty) {
      BodySpells(rules, n, depth + 1, true, open + [In(rules.link(n.attrs))]);
    } else {
      BodySpells(rules, n, depth + 1, ruled, open);
    }
  }

  // ---------------------------------------------------------------- blocks

  /** Past the split the inline pass says nothing. */
  lemma {:induction false} TailIsSilent(rules: Rules, items: seq<Item>, i: nat, k: nat, ruled: bool, onlyLists: bool, depth: nat, open: seq<Around>)
    requires SplitsAt(rules, items, k, ruled, onlyLists, depth) && k <= i <= |items|
    ensures SaysFrom(rules, items, i, 0, ruled, open) == []
    decreases |items| - i
  {
    if i < |items| { TailIsSilent(rules, items, i + 1, k, ruled, onlyLists, depth, open); }
  }

  /** Before the split the walk goes nowhere. */
  lemma {:induction false} HeadHasNoKids(rules: Rules, items: seq<Item>, j: nat, k: nat, ruled: bool, onlyLists: bool, depth: nat, open: seq<Around>)
    requires SplitsAt(rules, items, k, ruled, onlyLists, depth) && j <= k
    ensures SaysKids(rules, items, j, onlyLists, depth, open) == SaysKids(rules, items, k, onlyLists, depth, open)
    decreases k - j
  {
    if j < k { HeadHasNoKids(rules, items, j + 1, k, ruled, onlyLists, depth, open); }
  }

  lemma {:induction false} KidsSpell(rules: Rules, items: seq<Item>, j: nat, k: nat, ruled: bool, onlyLists: bool, depth: nat, open: seq<Around>)
    requires SplitsAt(rules, items, k, ruled, onlyLists, depth) && k <= j <= |items|
    ensures Letters(SaysKids(rules, items, j, onlyLists, depth, open)) == TextBetween(items, j, |items|)
    decreases rules.maxBlockDepth - depth, 0, |items| - j
  {
    if j < |items| {
      KidsSpell(rules, items, j + 1, k, ruled, onlyLists, depth, open);
      if Walked(items[j], onlyLists) { BlockSpells(rules, items[j].node, depth + 1, open); }
      KidSpells(rules, items, j, onlyLists, depth, open);
    }
  }

  lemma KidSpells(rules: Rules, items: seq<Item>, j: nat, onlyLists: bool, depth: nat, open: seq<Around>)
    requires j < |items| && Letters(SaysKids(rules, items, j + 1, onlyLists, depth, open)) == TextBetween(items, j + 1, |items|)
    requires if Walked(items[j], onlyLists)
      then depth < rules.maxBlockDepth && Letters(SaysBlock(rules, items[j].node, depth + 1, open)) == TextOf(items[j].node)
      else items[j].Meta?
    ensures Letters(SaysKids(rules, items, j, onlyLists, depth, open)) == TextBetween(items, j, |items|)
  {
    var rest := SaysKids(rules, items, j + 1, onlyLists, depth, open);
    if Walked(items[j], onlyLists) {
      LettersConcat(SaysBlock(rules, items[j].node, depth + 1, open), rest);
    } else {
      assert [] + rest == rest && "" + TextBetween(items, j + 1, |items|) == TextBetween(items, j + 1, |items|);
    }
  }

  lemma {:induction false} PassesSpell(rules: Rules, n: Node, k: nat, ruled: bool, onlyLists: bool, depth: nat, open: seq<Around>)
    requires SplitsAt(rules, n.items, k, ruled, onlyLists, depth)
    ensures Letters(SaysFrom(rules, n.items, 0, 0, ruled, open) + SaysKids(rules, n.items, 0, onlyLists, depth, open)) == TextOf(n)
    decreases rules.maxBlockDepth - depth, 1, 0
  {
    var items := n.items;
    FromSpells(rules, items, 0, k, 0, ruled, open);
    TailIsSilent(rules, items, k, k, ruled, onlyLists, depth, open);
    HeadHasNoKids(rules, items, 0, k, ruled, onlyLists, depth, open);
    KidsSpell(rules, items, k, k, ruled, onlyLists, depth, open);
    TextSplits(items, 0, k, |items|);
    TwoPasses(SaysFrom(rules, items, 0, 0, ruled, open), SaysKids(rules, items, 0, onlyLists, depth, open),
              TextBetween(items, 0, k), TextBetween(items, k, |items|));
  }

  lemma TwoPasses(first: seq<Seen>, second: seq<Seen>, a: string, b: string)
    requires Letters(first) == a + Letters([]) && Letters(second) == b
    ensures Letters(first + second) == a + b
  {
    LettersConcat(first, second);
    assert a + "" == a;
  }

  lemma {:induction false} SlotSpells(rules: Rules, n: Node, depth: nat, open: seq<Around>)
    requires n.ty in rules.nodes && BlockCarries(rules, n, depth)
    ensures Letters(SaysSlot(rules, n, rules.nodes[n.ty].content, depth, open)) == TextOf(n)
    decreases rules.maxBlockDepth - depth, 2, 0
  {
    if rules.nodes[n.ty].content == Inline {
      BodySpells(rules, n, 0, true, open);
    } else {
      var k :| SplitsAt(rules, n.items, k, false, false, depth);
      PassesSpell(rules, n, k, false, false, depth, open);
    }
  }

  lemma {:induction false} RuleBlockSpells(rules: Rules, n: Node, depth: nat, open: seq<Around>)
    requires n.ty in rules.nodes && BlockCarries(rules, n, depth)
    ensures Letters(SaysBlock(rules, n, depth, open)) == TextOf(n)
    decreases rules.maxBlockDepth - depth, 3, 0
  {
    match rules.nodes[n.ty]
    case CallbackRule(content) =>
      var first, within := Seen(Asked(n.ty, n.attrs, TypesOf(n.items)), open), open + [Slot(n.ty)];
      SlotSpells(rules, n, depth, within);
      LettersConcat([first], SaysSlot(rules, n, content, depth, within));
      LettersOfOne(first);
    case Declarative(tag, void, text, content) =>
      var within := open + [In(tag(n.attrs))];
      SlotSpells(rules, n, depth, within);
      LettersConcat(Glyphs(text(n.attrs), within), SaysSlot(rules, n, content, depth, within));
      LettersOfGlyphs(text(n.attrs), within);
  }

  /** A block with nothing to write has no text. */
  lemma {:induction false} SilentHasNoText(rules: Rules, items: seq<Item>, i: nat, depth: nat, ruled: bool, open: seq<Around>)
    requires i <= |items| && !WritesFrom(rules, items, i, depth, ruled)
    ensures SaysFrom(rules, items, i, depth, ruled, open) == []
    decreases items, 0, |items| - i
  {
    if i < |items| {
      SilentItem(rules, items[i], FormatAt(items, i), TabAt(items, i), depth, ruled, open);
      SilentHasNoText(rules, items, i + 1, depth, ruled, open);
    }
  }

  lemma {:induction false} SilentItem(rules: Rules, item: Item, format: string, tab: bool, depth: nat, ruled: bool, open: seq<Around>)
    requires !WritesItem(rules, item, format, tab, depth, ruled)
    ensures SaysItem(rules, item, format, tab, depth, ruled, open) == []
    decreases item, 3, 0
  {
    if item.Child? && AmongText(rules, item.node, ruled) && depth < rules.maxInlineDepth {
      SilentHasNoText(rules, item.node.items, 0, depth + 1, ruled, open);
    }
  }

  lemma ProbedSpells(rules: Rules, n: Node, tags: seq<Tag>, otherwise: seq<Seen>, open: seq<Around>)
    requires AllCarry(rules, n.items, 0, true) && Letters(otherwise) == ""
    ensures Letters(SaysProbed(rules, n, tags, otherwise, open)) == TextOf(n)
  {
    BodySpells(rules, n, 0, true, open + Ins(tags));
    if !WritesFrom(rules, n.items, 0, 0, true) { SilentHasNoText(rules, n.items, 0, 0, true, open + Ins(tags)); }
  }

  lemma {:induction false} BlockSpells(rules: Rules, n: Node, depth: nat, open: seq<Around>)
    requires BlockCarries(rules, n, depth)
    ensures Letters(SaysBlock(rules, n, depth, open)) == TextOf(n)
    decreases rules.maxBlockDepth - depth, 4, 0
  {
    var p := PassesOf(rules, n);
    if n.ty in rules.nodes {
      RuleBlockSpells(rules, n, depth, open);
    } else if n.ty in rules.blocks {
      match rules.blocks[n.ty]
      case TextBlock(tags) => BodySpells(rules, n, 0, true, open + Ins(tags(n.attrs)));
      case Paragraph(tags) =>
        var br := Seen(Leaf(Tag("br", "")), open + Ins(tags(n.attrs)));
        LettersOfOne(br);
        ProbedSpells(rules, n, tags(n.attrs), [br], open);
      case Container(tags, onlyLists, ruledInline) =>
        var k :| SplitsAt(rules, n.items, k, ruledInline, onlyLists, depth);
        PassesSpell(rules, n, k, ruledInline, onlyLists, depth, open + Ins(tags(n.attrs)));
    } else if p.walks {
      var k :| SplitsAt(rules, n.items, k, false, false, depth);
      PassesSpell(rules, n, k, false, false, depth, open);
    } else {
      ProbedSpells(rules, n, [Tag("p", "")], [], open);
    }
  }

  // ---------------------------------------------------------------- whole documents

  function RootsText(roots: seq<Root>): string {
    if roots == [] then ""
    else
      (match roots[0]
       case RootBlock(node, _) => TextOf(node)
       case RootElement(_, _, _) => ""
       case RootText(chars) => chars)
      + RootsText(roots[1..])
  }

  ghost predicate RootCarries(rules: Rules, root: Root) {
    match root
    case RootBlock(node, _) => BlockCarries(rules, node, 0)
    case RootElement(ty, attrs, _) => InlineCarries(rules, Decorator(ty, attrs), 0, true)
    case RootText(_) => true
  }

  lemma {:induction false} RootsSpell(rules: Rules, roots: seq<Root>)
    requires forall i :: 0 <= i < |roots| ==> RootCarries(rules, roots[i])
    ensures Letters(SaysRoots(rules, roots)) == RootsText(roots)
    decreases |roots|
  {
    if roots != [] {
      RootsSpell(rules, roots[1..]);
      match roots[0]
      case RootBlock(node, _) =>
        BlockSpells(rules, node, 0, []);
        LettersConcat(SaysBlock(rules, node, 0, []), SaysRoots(rules, roots[1..]));
      case RootElement(ty, attrs, _) =>
        DecoratorIsSilent(rules, ty, attrs, []);
        LettersConcat(SaysDecorator(rules, ty, attrs, []), SaysRoots(rules, roots[1..]));
      case RootText(chars) =>
        LettersOfGlyphs(chars, []);
        LettersConcat(Glyphs(chars, []), SaysRoots(rules, roots[1..]));
    }
  }

  /** The output's text, read back, is the document's text. */
  lemma OutputSpellsTheDocument(rules: Rules, roots: seq<Root>)
    requires forall i :: 0 <= i < |roots| ==> RootCarries(rules, roots[i])
    ensures var r := Read(Pieces(DocumentLayout(rules, roots)), []);
      r.Some? && r.value.open == [] && Letters(r.value.seen) == RootsText(roots)
  {
    OutputSaysTheDocument(rules, roots);
    RootsSpell(rules, roots);
  }
}
