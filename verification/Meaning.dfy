/** What a Lexical document says, told from its items alone: each character under the elements of its
    block, of its links and of the format last set before it.  The renderer's output reads back as this. */
module Meaning {
  import opened Common
  import opened HtmlCore
  import opened Layout
  import opened Reading

  // ---------------------------------------------------------------- looking back

  /** The format in force at an item: that of the last metadata map before it, line breaks aside. */
  function FormatAt(items: seq<Item>, i: nat): string
    requires i <= |items|
  {
    if i == 0 then ""
    else if items[i - 1].Meta? && items[i - 1].ty != "linebreak" then
      (if items[i - 1].ty == "tab" then "" else items[i - 1].format)
    else FormatAt(items, i - 1)
  }

  /** Whether the next string stands for a tab: a tab map came since the last string. */
  function TabAt(items: seq<Item>, i: nat): bool
    requires i <= |items|
  {
    if i == 0 || items[i - 1].Str? then false
    else if items[i - 1].Meta? && items[i - 1].ty != "linebreak" then items[i - 1].ty == "tab"
    else TabAt(items, i - 1)
  }

  /** Everything the strings of an item list hold, last string last. */
  function Strings(items: seq<Item>): string {
    if items == [] then ""
    else
      var last := items[|items| - 1];
      Strings(items[..|items| - 1]) + if last.Str? then last.chars else ""
  }

  function TypesOf(items: seq<Item>): seq<string> {
    if items == [] then []
    else
      var last := items[|items| - 1];
      TypesOf(items[..|items| - 1]) + if last.Child? then [last.node.ty] else if last.Decorator? then [last.ty] else []
  }

  /** A child among text: a link, or a custom node where those are let in. */
  predicate AmongText(rules: Rules, n: Node, ruled: bool) {
    n.ty in {"link", "autolink"} || (ruled && n.ty !in rules.builtin)
  }

  /** The last map before an item that is not a line break decides its format. */
  lemma {:induction false} LastMapDecides(items: seq<Item>, j: nat, i: nat)
    requires j < i <= |items| && items[j].Meta? && items[j].ty != "linebreak"
    requires forall m :: j < m < i && items[m].Meta? ==> items[m].ty == "linebreak"
    ensures FormatAt(items, i) == if items[j].ty == "tab" then "" else items[j].format
    decreases i
  {
    if j < i - 1 { LastMapDecides(items, j, i - 1); }
  }

  // ---------------------------------------------------------------- among text

  function SaysDecorator(rules: Rules, ty: string, attrs: string, open: seq<Around>): seq<Seen> {
    if ty in rules.nodes then
      match rules.nodes[ty]
      case CallbackRule(_) => [Seen(Asked(ty, attrs, []), open)]
      case Declarative(tag, void, text, _) =>
        if void then [Seen(Leaf(tag(attrs)), open)] else Glyphs(text(attrs), open + [In(tag(attrs))])
    else if ty == "horizontalrule" then [Seen(Leaf(Tag("hr", "")), open)]
    else []
  }

  function SaysItem(rules: Rules, item: Item, format: string, tab: bool, depth: nat, ruled: bool, open: seq<Around>): seq<Seen>
    decreases item, 3, 0
  {
    match item
    case Meta(ty, _) => if ty == "linebreak" then [Seen(Leaf(Tag("br", "")), open)] else []
    case Str(chars) =>
      if tab then [Seen(Glyph('\t'), open + [In(Tag("span", ""))])] else Glyphs(chars, open + Ins(rules.marks(format)))
    case Decorator(ty, attrs) => SaysDecorator(rules, ty, attrs, open)
    case Child(n) => if AmongText(rules, n, ruled) then SaysChild(rules, n, depth, ruled, open) else []
  }

  function SaysChild(rules: Rules, n: Node, depth: nat, ruled: bool, open: seq<Around>): seq<Seen>
    decreases n, 2, 0
  {
    if n.ty in rules.nodes then
      match rules.nodes[n.ty]
      case CallbackRule(content) =>
        [Seen(Asked(n.ty, n.attrs, TypesOf(n.items)), open)] + SaysBody(rules, n, content, depth, open + [Slot(n.ty)])
      case Declarative(tag, void, text, content) =>
        if void then [Seen(Leaf(tag(n.attrs)), open)]
        else
          Glyphs(text(n.attrs), open + [In(tag(n.attrs))]) + SaysBody(rules, n, content, depth, open + [In(tag(n.attrs))])
    else if n.ty in {"link", "autolink"} then
      if depth < rules.maxInlineDepth then SaysFrom(rules, n.items, 0, depth + 1, true, open + [In(rules.link(n.attrs))])
      else Glyphs(Strings(n.items), open + [In(rules.link(n.attrs))])
    else if depth < rules.maxInlineDepth then SaysFrom(rules, n.items, 0, depth + 1, ruled, open)
    else []
  }

  function SaysBody(rules: Rules, n: Node, content: Content, depth: nat, open: seq<Around>): seq<Seen>
    decreases n, 1, 0
  {
    if content == NoContent || depth >= rules.maxInlineDepth then [] else SaysFrom(rules, n.items, 0, depth + 1, true, open)
  }

  /** The items from `i` on, as the inline pass says them. */
  function SaysFrom(rules: Rules, items: seq<Item>, i: nat, depth: nat, ruled: bool, open: seq<Around>): seq<Seen>
    requires i <= |items|
    decreases items, 0, |items| - i
  {
    if i == |items| then []
    else
      SaysItem(rules, items[i], FormatAt(items, i), TabAt(items, i), depth, ruled, open)
      + SaysFrom(rules, items, i + 1, depth, ruled, open)
  }

  /** Whether the inline pass writes anything at all, be it an empty element. */
  function WritesItem(rules: Rules, item: Item, format: string, tab: bool, depth: nat, ruled: bool): bool
    decreases item, 3, 0
  {
    match item
    case Meta(ty, _) => ty == "linebreak"
    case Str(chars) => tab || chars != "" || rules.marks(format) != []
    case Decorator(ty, _) => ty in rules.nodes || ty == "horizontalrule"
    case Child(n) =>
      && AmongText(rules, n, ruled)
      && (n.ty in rules.nodes || n.ty in {"link", "autolink"}
          || (depth < rules.maxInlineDepth && WritesFrom(rules, n.items, 0, depth + 1, ruled)))
  }

  function WritesFrom(rules: Rules, items: seq<Item>, i: nat, depth: nat, ruled: bool): bool
    requires i <= |items|
    decreases items, 0, |items| - i
  {
    i < |items| && (WritesItem(rules, items[i], FormatAt(items, i), TabAt(items, i), depth, ruled)
                    || WritesFrom(rules, items, i + 1, depth, ruled))
  }

  // ---------------------------------------------------------------- blocks

  /** A child the block walk goes to. */
  predicate Walked(item: Item, onlyLists: bool) {
    item.Child? && item.node.ty !in {"link", "autolink"} && (onlyLists ==> item.node.ty == "list")
  }

  function SaysKids(rules: Rules, items: seq<Item>, j: nat, onlyLists: bool, depth: nat, open: seq<Around>): seq<Seen>
    requires j <= |items|
    decreases rules.maxBlockDepth - depth, 0, |items| - j
  {
    if j == |items| || depth >= rules.maxBlockDepth then []
    else
      (if Walked(items[j], onlyLists) then SaysBlock(rules, items[j].node, depth + 1, open) else [])
      + SaysKids(rules, items, j + 1, onlyLists, depth, open)
  }

  function SaysSlot(rules: Rules, n: Node, content: Content, depth: nat, open: seq<Around>): seq<Seen>
    decreases rules.maxBlockDepth - depth, 1, 0
  {
    match content
    case NoContent => []
    case Inline => SaysFrom(rules, n.items, 0, 0, true, open)
    case Blocks => SaysFrom(rules, n.items, 0, 0, false, open) + SaysKids(rules, n.items, 0, false, depth, open)
  }

  function SaysProbed(rules: Rules, n: Node, tags: seq<Tag>, otherwise: seq<Seen>, open: seq<Around>): seq<Seen> {
    if WritesFrom(rules, n.items, 0, 0, true) then SaysFrom(rules, n.items, 0, 0, true, open + Ins(tags)) else otherwise
  }

  function SaysBlock(rules: Rules, n: Node, depth: nat, open: seq<Around>): seq<Seen>
    decreases rules.maxBlockDepth - depth, 2, 0
  {
    if n.ty in rules.nodes then
      match rules.nodes[n.ty]
      case CallbackRule(content) =>
        [Seen(Asked(n.ty, n.attrs, TypesOf(n.items)), open)] + SaysSlot(rules, n, content, depth, open + [Slot(n.ty)])
      case Declarative(tag, void, text, content) =>
        if void then [Seen(Leaf(tag(n.attrs)), open)]
        else
          Glyphs(text(n.attrs), open + [In(tag(n.attrs))]) + SaysSlot(rules, n, content, depth, open + [In(tag(n.attrs))])
    else if n.ty in rules.blocks then
      match rules.blocks[n.ty]
      case TextBlock(tags) => SaysFrom(rules, n.items, 0, 0, true, open + Ins(tags(n.attrs)))
      case Paragraph(tags) =>
        SaysProbed(rules, n, tags(n.attrs), [Seen(Leaf(Tag("br", "")), open + Ins(tags(n.attrs)))], open)
      case Container(tags, onlyLists, ruledInline) =>
        SaysFrom(rules, n.items, 0, 0, ruledInline, open + Ins(tags(n.attrs)))
        + SaysKids(rules, n.items, 0, onlyLists, depth, open + Ins(tags(n.attrs)))
    else if exists j :: 0 <= j < |n.items| && Walked(n.items[j], false) then
      SaysFrom(rules, n.items, 0, 0, false, open) + SaysKids(rules, n.items, 0, false, depth, open)
    else SaysProbed(rules, n, [Tag("p", "")], [], open)
  }

  function SaysRoots(rules: Rules, roots: seq<Root>): seq<Seen> {
    if roots == [] then []
    else
      (match roots[0]
       case RootBlock(node, _) => SaysBlock(rules, node, 0, [])
       case RootElement(ty, attrs, _) => SaysDecorator(rules, ty, attrs, [])
       case RootText(chars) => Glyphs(chars, []))
      + SaysRoots(rules, roots[1..])
  }

  // ---------------------------------------------------------------- the layout shows it: helpers

  lemma {:induction false} StringsIsPlainText(items: seq<Item>)
    ensures Strings(items) == PlainText(items)
    decreases |items|
  {
    if items != [] {
      var init, last := items[..|items| - 1], items[|items| - 1];
      StringsIsPlainText(init);
      PlainTextSnoc(init, last);
      assert items == init + [last];
    }
  }

  lemma Reassociate(a: string, b: string, c: string)
    ensures a + (b + c) == (a + b) + c
  {
  }

  lemma {:induction false} PlainTextSnoc(items: seq<Item>, last: Item)
    ensures PlainText(items + [last]) == PlainText(items) + if last.Str? then last.chars else ""
    decreases |items|
  {
    if items == [] {
      assert (items + [last])[1..] == [];
    } else {
      assert (items + [last])[1..] == items[1..] + [last] && (items + [last])[0] == items[0];
      PlainTextSnoc(items[1..], last);
      Reassociate(if items[0].Str? then items[0].chars else "", PlainText(items[1..]), if last.Str? then last.chars else "");
    }
  }

  lemma {:induction false} TypesOfIsChildTypes(items: seq<Item>)
    ensures TypesOf(items) == ChildTypes(items)
    decreases |items|
  {
    if items != [] {
      var init, last := items[..|items| - 1], items[|items| - 1];
      TypesOfIsChildTypes(init);
      ChildTypesSnoc(init, last);
      assert items == init + [last];
    }
  }

  lemma {:induction false} ChildTypesSnoc(items: seq<Item>, last: Item)
    ensures ChildTypes(items + [last])
         == ChildTypes(items) + if last.Child? then [last.node.ty] else if last.Decorator? then [last.ty] else []
    decreases |items|
  {
    if items == [] {
      assert (items + [last])[1..] == [];
    } else {
      assert (items + [last])[1..] == items[1..] + [last];
      ChildTypesSnoc(items[1..], last);
    }
  }

  /** What the forward loop carries is what looking back finds. */
  lemma CarryStep(items: seq<Item>, i: nat)
    requires i < |items|
    ensures Carried(Carry(FormatAt(items, i), TabAt(items, i)), items[i]) == Carry(FormatAt(items, i + 1), TabAt(items, i + 1))
  {
  }

  // ---------------------------------------------------------------- the layout shows it: inline

  lemma InsOne(tag: Tag)
    ensures Ins([tag]) == [In(tag)]
  {
  }

  lemma DecoratorSays(rules: Rules, ty: string, attrs: string, open: seq<Around>)
    ensures Shows(DecoratorLayout(rules, ty, attrs), open) == SaysDecorator(rules, ty, attrs, open)
  {
    if ty in rules.nodes {
      var rule := rules.nodes[ty];
      if rule.Declarative? {
        InsOne(rule.tag(attrs));
        assert rule.void || Shows(Chars(rule.text(attrs)), open + [In(rule.tag(attrs))]) == Glyphs(rule.text(attrs), open + [In(rule.tag(attrs))]);
      } else {
        assert Shows(Blank, open + [Slot(ty)]) == [];
      }
    }
  }

  lemma RunSays(tags: seq<Tag>, chars: string, open: seq<Around>)
    ensures Shows(Wrap(tags, Chars(chars)), open) == Glyphs(chars, open + Ins(tags))
  {
    assert Shows(Chars(chars), open + Ins(tags)) == Glyphs(chars, open + Ins(tags));
  }

  lemma {:induction false} RunsSay(rules: Rules, items: seq<Item>, i: nat, depth: nat, ruled: bool, open: seq<Around>)
    requires i <= |items|
    ensures Shows(RunsLayout(rules, items[i..], depth, ruled, Carry(FormatAt(items, i), TabAt(items, i))), open)
         == SaysFrom(rules, items, i, depth, ruled, open)
    decreases items, 0, |items| - i
  {
    if i < |items| {
      assert items[i..][0] == items[i] && items[i..][1..] == items[i + 1..];
      CarryStep(items, i);
      ItemSays(rules, items[i], FormatAt(items, i), TabAt(items, i), depth, ruled, open);
      RunsSay(rules, items, i + 1, depth, ruled, open);
    }
  }

  lemma {:induction false} ItemSays(rules: Rules, item: Item, format: string, tab: bool, depth: nat, ruled: bool, open: seq<Around>)
    ensures Shows(ItemLayout(rules, item, depth, ruled, Carry(format, tab)), open)
         == SaysItem(rules, item, format, tab, depth, ruled, open)
    decreases item, 3, 0
  {
    match item
    case Meta(_, _) =>
    case Str(chars) =>
      if tab {
        RunSays([Tag("span", "")], "\t", open);
        InsOne(Tag("span", ""));
      } else {
        RunSays(rules.marks(format), chars, open);
      }
    case Decorator(ty, attrs) => DecoratorSays(rules, ty, attrs, open);
    case Child(n) => if AmongText(rules, n, ruled) { ChildSays(rules, n, depth, ruled, open); }
  }

  /** What the inline pass makes of a child it lets in. */
  function ChildLayout(rules: Rules, n: Node, depth: nat, ruled: bool): Layout {
    if n.ty in rules.nodes then RuleInline(rules, n, rules.nodes[n.ty], depth)
    else if IsInlineType(n.ty) then LinkLayout(rules, n, depth)
    else if depth < rules.maxInlineDepth then InlineLayout(rules, n.items, depth + 1, ruled)
    else Blank
  }

  lemma {:induction false} ChildSays(rules: Rules, n: Node, depth: nat, ruled: bool, open: seq<Around>)
    ensures Shows(ChildLayout(rules, n, depth, ruled), open) == SaysChild(rules, n, depth, ruled, open)
    decreases n, 2, 0
  {
    if n.ty in rules.nodes {
      RuleSays(rules, n, rules.nodes[n.ty], depth, ruled, open);
    } else if IsInlineType(n.ty) {
      var within := open + [In(rules.link(n.attrs))];
      InsOne(rules.link(n.attrs));
      StringsIsPlainText(n.items);
      InlineSays(rules, n, depth + 1, true, within);
      assert Shows(Chars(PlainText(n.items)), within) == Glyphs(Strings(n.items), within);
    } else {
      InlineSays(rules, n, depth + 1, ruled, open);
    }
  }

  lemma {:induction false} InlineSays(rules: Rules, n: Node, depth: nat, ruled: bool, open: seq<Around>)
    ensures Shows(InlineLayout(rules, n.items, depth, ruled), open) == SaysFrom(rules, n.items, 0, depth, ruled, open)
    decreases n, 1, 0
  {
    assert n.items[0..] == n.items;
    RunsSay(rules, n.items, 0, depth, ruled, open);
  }

  lemma {:induction false} RuleSays(rules: Rules, n: Node, rule: NodeRule, depth: nat, ruled: bool, open: seq<Around>)
    requires n.ty in rules.nodes && rule == rules.nodes[n.ty]
    ensures Shows(RuleInline(rules, n, rule, depth), open) == SaysChild(rules, n, depth, ruled, open)
    decreases n, 1, 1
  {
    var body := RuleContent(rules, n, rule, depth);
    TypesOfIsChildTypes(n.items);
    match rule
    case CallbackRule(content) =>
      InlineSays(rules, n, depth + 1, true, open + [Slot(n.ty)]);
      assert Shows(body, open + [Slot(n.ty)]) == SaysBody(rules, n, content, depth, open + [Slot(n.ty)]);
    case Declarative(tag, void, text, content) =>
      var within := open + [In(tag(n.attrs))];
      InsOne(tag(n.attrs));
      InlineSays(rules, n, depth + 1, true, within);
      assert Shows(body, within) == SaysBody(rules, n, content, depth, within);
      assert Shows(Both(Chars(text(n.attrs)), body), within) == Glyphs(text(n.attrs), within) + Shows(body, within);
  }

  // ---------------------------------------------------------------- the layout shows it: does it write

  lemma WrapWrites(tags: seq<Tag>, body: Layout)
    ensures Pieces(Wrap(tags, body)) != [] <==> tags != [] || Pieces(body) != []
  {
    if tags != [] { assert Tokens(Opens(tags))[0] == T(Open(tags[0])); }
    assert |Pieces(Wrap(tags, body))| >= |Tokens(Opens(tags))| + |Pieces(body)|;
  }

  lemma {:induction false} RunsWrite(rules: Rules, items: seq<Item>, i: nat, depth: nat, ruled: bool)
    requires i <= |items|
    ensures Pieces(RunsLayout(rules, items[i..], depth, ruled, Carry(FormatAt(items, i), TabAt(items, i)))) != []
       <==> WritesFrom(rules, items, i, depth, ruled)
    decreases items, 0, |items| - i
  {
    if i < |items| {
      assert items[i..][0] == items[i] && items[i..][1..] == items[i + 1..];
      CarryStep(items, i);
      ItemWrites(rules, items[i], FormatAt(items, i), TabAt(items, i), depth, ruled);
      RunsWrite(rules, items, i + 1, depth, ruled);
    }
  }

  lemma {:induction false} ItemWrites(rules: Rules, item: Item, format: string, tab: bool, depth: nat, ruled: bool)
    ensures Pieces(ItemLayout(rules, item, depth, ruled, Carry(format, tab))) != []
       <==> WritesItem(rules, item, format, tab, depth, ruled)
    decreases item, 3, 0
  {
    match item
    case Meta(_, _) =>
    case Str(chars) => WrapWrites(if tab then [Tag("span", "")] else rules.marks(format), Chars(if tab then "\t" else chars));
    case Decorator(ty, attrs) =>
      if ty in rules.nodes && rules.nodes[ty].Declarative? {
        WrapWrites([rules.nodes[ty].tag(attrs)], Chars(rules.nodes[ty].text(attrs)));
      }
    case Child(n) => ChildWrites(rules, n, depth, ruled);
  }

  lemma {:induction false} ChildWrites(rules: Rules, n: Node, depth: nat, ruled: bool)
    ensures Pieces(ChildLayout(rules, n, depth, ruled)) != [] <==>
      n.ty in rules.nodes || IsInlineType(n.ty) || (depth < rules.maxInlineDepth && WritesFrom(rules, n.items, 0, depth + 1, ruled))
    decreases n, 2, 0
  {
    if n.ty in rules.nodes {
      var rule := rules.nodes[n.ty];
      if rule.Declarative? { WrapWrites([rule.tag(n.attrs)], Both(Chars(rule.text(n.attrs)), RuleContent(rules, n, rule, depth))); }
    } else if IsInlineType(n.ty) {
      WrapWrites([rules.link(n.attrs)], LinkLayout(rules, n, depth).body);
    } else {
      assert n.items[0..] == n.items;
      RunsWrite(rules, n.items, 0, depth + 1, ruled);
    }
  }

  // ---------------------------------------------------------------- the layout shows it: blocks

  /** The children a walk keeps, as the layout lists them. */
  function Kids(items: seq<Item>, onlyLists: bool): seq<Node> {
    if onlyLists then OnlyLists(BlockChildren(items)) else BlockChildren(items)
  }

  lemma KidsStep(items: seq<Item>, j: nat, onlyLists: bool)
    requires j < |items|
    ensures Kids(items[j..], onlyLists)
         == (if Walked(items[j], onlyLists) then [items[j].node] else []) + Kids(items[j + 1..], onlyLists)
  {
    var rest := BlockChildren(items[j + 1..]);
    assert items[j..][0] == items[j] && items[j..][1..] == items[j + 1..];
    if items[j].Child? && !IsInlineType(items[j].node.ty) {
      assert ([items[j].node] + rest)[1..] == rest;
    } else {
      assert [] + rest == rest && [] + OnlyLists(rest) == OnlyLists(rest);
    }
  }

  lemma {:induction false} KidsSay(rules: Rules, items: seq<Item>, j: nat, onlyLists: bool, depth: nat, open: seq<Around>)
    requires j <= |items|
    ensures Shows(KidsLayout(rules, Kids(items[j..], onlyLists), depth), open) == SaysKids(rules, items, j, onlyLists, depth, open)
    decreases rules.maxBlockDepth - depth, 0, |items| - j
  {
    if depth < rules.maxBlockDepth {
      if j == |items| {
        NoKidsLeft(rules, items, onlyLists, depth, open);
      } else {
        KidsStep(items, j, onlyLists);
        KidsSay(rules, items, j + 1, onlyLists, depth, open);
        if Walked(items[j], onlyLists) { BlockSays(rules, items[j].node, depth + 1, open); }
        KidSays(rules, items, j, onlyLists, depth, open);
      }
    }
  }

  lemma NoKidsLeft(rules: Rules, items: seq<Item>, onlyLists: bool, depth: nat, open: seq<Around>)
    ensures Shows(KidsLayout(rules, Kids(items[|items|..], onlyLists), depth), open) == SaysKids(rules, items, |items|, onlyLists, depth, open)
  {
    assert items[|items|..] == [];
  }

  lemma KidSays(rules: Rules, items: seq<Item>, j: nat, onlyLists: bool, depth: nat, open: seq<Around>)
    requires j < |items| && depth < rules.maxBlockDepth
    requires Kids(items[j..], onlyLists)
          == (if Walked(items[j], onlyLists) then [items[j].node] else []) + Kids(items[j + 1..], onlyLists)
    requires Shows(KidsLayout(rules, Kids(items[j + 1..], onlyLists), depth), open) == SaysKids(rules, items, j + 1, onlyLists, depth, open)
    requires Walked(items[j], onlyLists) ==>
      Shows(BlockLayout(rules, items[j].node, depth + 1), open) == SaysBlock(rules, items[j].node, depth + 1, open)
    ensures Shows(KidsLayout(rules, Kids(items[j..], onlyLists), depth), open) == SaysKids(rules, items, j, onlyLists, depth, open)
  {
    var first := if Walked(items[j], onlyLists) then [items[j].node] else [];
    OneKid(rules, first, Kids(items[j + 1..], onlyLists), depth, open);
  }

  lemma OneKid(rules: Rules, first: seq<Node>, rest: seq<Node>, depth: nat, open: seq<Around>)
    requires |first| <= 1 && depth < rules.maxBlockDepth
    ensures Shows(KidsLayout(rules, first + rest, depth), open)
         == (if first != [] then Shows(BlockLayout(rules, first[0], depth + 1), open) else []) + Shows(KidsLayout(rules, rest, depth), open)
  {
    if first == [] {
      assert first + rest == rest;
    } else {
      assert (first + rest)[1..] == rest && (first + rest)[0] == first[0];
    }
  }

  lemma {:induction false} AllKidsSay(rules: Rules, items: seq<Item>, onlyLists: bool, depth: nat, open: seq<Around>)
    ensures Shows(KidsLayout(rules, Kids(items, onlyLists), depth), open) == SaysKids(rules, items, 0, onlyLists, depth, open)
    decreases rules.maxBlockDepth - depth, 0, |items| + 1
  {
    assert items[0..] == items;
    KidsSay(rules, items, 0, onlyLists, depth, open);
  }

  lemma {:induction false} SlotSays(rules: Rules, n: Node, content: Content, depth: nat, open: seq<Around>)
    ensures Shows(RuleBlockBody(rules, n, content, depth), open) == SaysSlot(rules, n, content, depth, open)
    decreases rules.maxBlockDepth - depth, 1, 0
  {
    InlineSays(rules, n, 0, true, open);
    InlineSays(rules, n, 0, false, open);
    AllKidsSay(rules, n.items, false, depth, open);
  }

  lemma {:induction false} RuleBlockSays(rules: Rules, n: Node, rule: NodeRule, depth: nat, open: seq<Around>)
    requires n.ty in rules.nodes && rule == rules.nodes[n.ty]
    ensures Shows(RuleBlock(rules, n, rule, depth), open) == SaysBlock(rules, n, depth, open)
    decreases rules.maxBlockDepth - depth, 1, 1
  {
    var body := RuleBlockBody(rules, n, rule.content, depth);
    TypesOfIsChildTypes(n.items);
    match rule
    case CallbackRule(content) => SlotSays(rules, n, content, depth, open + [Slot(n.ty)]);
    case Declarative(tag, void, text, content) =>
      var within := open + [In(tag(n.attrs))];
      InsOne(tag(n.attrs));
      SlotSays(rules, n, content, depth, within);
      assert Shows(Both(Chars(text(n.attrs)), body), within) == Glyphs(text(n.attrs), within) + Shows(body, within);
  }

  lemma ProbedSays(rules: Rules, n: Node, tags: seq<Tag>, otherwise: Layout, open: seq<Around>)
    ensures Shows(IfAny(tags, InlineLayout(rules, n.items, 0, true), otherwise), open)
         == SaysProbed(rules, n, tags, Shows(otherwise, open), open)
  {
    assert n.items[0..] == n.items;
    RunsWrite(rules, n.items, 0, 0, true);
    InlineSays(rules, n, 0, true, open + Ins(tags));
  }

  lemma {:induction false} ContainerSays(rules: Rules, n: Node, tags: seq<Tag>, onlyLists: bool, ruledInline: bool, depth: nat, open: seq<Around>)
    ensures Shows(Wrap(tags, Both(InlineLayout(rules, n.items, 0, ruledInline), KidsLayout(rules, Kids(n.items, onlyLists), depth))), open)
         == SaysFrom(rules, n.items, 0, 0, ruledInline, open + Ins(tags)) + SaysKids(rules, n.items, 0, onlyLists, depth, open + Ins(tags))
    decreases rules.maxBlockDepth - depth, 1, 0
  {
    var within := open + Ins(tags);
    InlineSays(rules, n, 0, ruledInline, within);
    AllKidsSay(rules, n.items, onlyLists, depth, within);
    assert Shows(Both(InlineLayout(rules, n.items, 0, ruledInline), KidsLayout(rules, Kids(n.items, onlyLists), depth)), within)
        == SaysFrom(rules, n.items, 0, 0, ruledInline, within) + SaysKids(rules, n.items, 0, onlyLists, depth, within);
  }

  lemma {:induction false} HasKids(items: seq<Item>)
    ensures BlockChildren(items) != [] <==> exists j :: 0 <= j < |items| && Walked(items[j], false)
    decreases |items|
  {
    if items != [] {
      HasKids(items[1..]);
      if j :| 0 <= j < |items[1..]| && Walked(items[1..][j], false) { assert Walked(items[j + 1], false); }
      if j :| 0 <= j < |items| && Walked(items[j], false) { assert j > 0 ==> items[1..][j - 1] == items[j]; }
    }
  }

  /** Every block's layout shows what the block says. */
  lemma {:induction false} BlockSays(rules: Rules, n: Node, depth: nat, open: seq<Around>)
    ensures Shows(BlockLayout(rules, n, depth), open) == SaysBlock(rules, n, depth, open)
    decreases rules.maxBlockDepth - depth, 2, 0
  {
    if n.ty in rules.nodes {
      RuleBlockSays(rules, n, rules.nodes[n.ty], depth, open);
    } else if n.ty in rules.blocks {
      match rules.blocks[n.ty]
      case TextBlock(tags) => InlineSays(rules, n, 0, true, open + Ins(tags(n.attrs)));
      case Paragraph(tags) =>
        var empty := Wrap(tags(n.attrs), Hole(Tag("br", "")));
        assert Shows(empty, open) == Shows(Hole(Tag("br", "")), open + Ins(tags(n.attrs)));
        ProbedSays(rules, n, tags(n.attrs), empty, open);
      case Container(tags, onlyLists, ruledInline) => ContainerSays(rules, n, tags(n.attrs), onlyLists, ruledInline, depth, open);
    } else {
      HasKids(n.items);
      if BlockChildren(n.items) != [] {
        assert open + Ins([]) == open;
        ContainerSays(rules, n, [], false, false, depth, open);
      } else {
        ProbedSays(rules, n, [Tag("p", "")], Blank, open);
      }
    }
  }

  lemma {:induction false} DocumentSays(rules: Rules, roots: seq<Root>)
    ensures Shows(DocumentLayout(rules, roots), []) == SaysRoots(rules, roots)
    decreases |roots|
  {
    if roots != [] {
      DocumentSays(rules, roots[1..]);
      match roots[0]
      case RootBlock(node, _) => BlockSays(rules, node, 0, []);
      case RootElement(ty, attrs, _) => DecoratorSays(rules, ty, attrs, []);
      case RootText(_) =>
    }
  }

  /** For every document and rule set: the output reads back as exactly what the document says, and
      nothing stays open. */
  lemma OutputSaysTheDocument(rules: Rules, roots: seq<Root>)
    ensures Read(Pieces(DocumentLayout(rules, roots)), []) == Some(Reader(SaysRoots(rules, roots), []))
  {
    ReadsBack(DocumentLayout(rules, roots), []);
    DocumentSays(rules, roots);
  }
}
