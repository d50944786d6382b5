/** What a Lexical document means as HTML, by plain recursion: the rule set decides each node's
    shape, the depth caps decide where the recursion stops. */
module Layout {
  import opened HtmlCore
  import opened Common

  // ---------------------------------------------------------------- documents and rules

  /** A block or inline `Y.XmlText`, its stored attributes, and its content in order. */
  datatype Node = Node(ty: string, attrs: string, items: seq<Item>)

  datatype Item =
    | Meta(ty: string, format: string)          // a metadata map: a line break, a tab, or the format of what follows
    | Str(chars: string)
    | Child(node: Node)
    | Decorator(ty: string, attrs: string)

  /** What the metadata maps seen so far say about the next string; "" is no format. */
  datatype Carry = Carry(format: string, tab: bool)

  datatype Content = Blocks | Inline | NoContent

  /** Markup as data, its attribute and text templates resolved against the node; or a deferral. */
  datatype NodeRule =
    | Declarative(tag: string -> Tag, void: bool, text: string -> string, content: Content)
    | CallbackRule(content: Content)

  /** The built-in block arms: the tags they put around the node, chosen from its attributes. */
  datatype Shape =
    | TextBlock(tags: string -> seq<Tag>)
    | Paragraph(tags: string -> seq<Tag>)
    | Container(tags: string -> seq<Tag>, onlyLists: bool, ruledInline: bool)

  datatype Rules = Rules(
    nodes: map<string, NodeRule>, blocks: map<string, Shape>, builtin: set<string>,
    link: string -> Tag, marks: string -> seq<Tag>, maxBlockDepth: nat, maxInlineDepth: nat)

  predicate IsInlineType(ty: string) { ty == "link" || ty == "autolink" }

  /** The block children: every child that is not an inline type. */
  function BlockChildren(items: seq<Item>): seq<Node> {
    if items == [] then []
    else
      (if items[0].Child? && !IsInlineType(items[0].node.ty) then [items[0].node] else [])
      + BlockChildren(items[1..])
  }

  function OnlyLists(nodes: seq<Node>): seq<Node> {
    if nodes == [] then []
    else (if nodes[0].ty == "list" then [nodes[0]] else []) + OnlyLists(nodes[1..])
  }

  function ChildTypes(items: seq<Item>): seq<string> {
    if items == [] then []
    else
      (match items[0]
       case Child(node) => [node.ty]
       case Decorator(ty, _) => [ty]
       case _ => [])
      + ChildTypes(items[1..])
  }

  function PlainText(items: seq<Item>): string {
    if items == [] then ""
    else (if items[0].Str? then items[0].chars else "") + PlainText(items[1..])
  }

  // ---------------------------------------------------------------- meaning

  /** `IfAny` is the "did this render anything?" probe. */
  datatype Layout =
    | Blank
    | Chars(chars: string)
    | Hole(tag: Tag)
    | Wrap(tags: seq<Tag>, body: Layout)
    | Both(first: Layout, second: Layout)
    | Defer(ty: string, attrs: string, childTypes: seq<string>, content: Layout)
    | IfAny(tags: seq<Tag>, probe: Layout, otherwise: Layout)

  function Opens(tags: seq<Tag>): seq<Tok> {
    if tags == [] then [] else [Open(tags[0])] + Opens(tags[1..])
  }

  function Closes(tags: seq<Tag>): seq<Tok> {
    if tags == [] then [] else Closes(tags[1..]) + [Close(tags[0].name)]
  }

  /** The output of a layout, callback nodes left in place. */
  function Pieces(l: Layout): seq<Piece> {
    match l
    case Blank => []
    case Chars(chars) => if chars == "" then [] else [T(Text(chars))]
    case Hole(tag) => [T(Void(tag))]
    case Wrap(tags, body) => Tokens(Opens(tags)) + Pieces(body) + Tokens(Closes(tags))
    case Both(first, second) => Pieces(first) + Pieces(second)
    case Defer(ty, attrs, childTypes, content) => [Call(ty, attrs, childTypes, Pieces(content))]
    case IfAny(tags, probe, otherwise) =>
      if Pieces(probe) == [] then Pieces(otherwise)
      else Tokens(Opens(tags)) + Pieces(probe) + Tokens(Closes(tags))
  }

  /** What a rule's content renders to when the node stands among text. */
  function RuleContent(rules: Rules, n: Node, rule: NodeRule, depth: nat): Layout
    decreases n, 1
  {
    if rule.content != NoContent && depth < rules.maxInlineDepth then InlineLayout(rules, n.items, depth + 1, true)
    else Blank
  }

  function RuleInline(rules: Rules, n: Node, rule: NodeRule, depth: nat): Layout
    decreases n, 2
  {
    var body := RuleContent(rules, n, rule, depth);
    match rule
    case CallbackRule(_) => Defer(n.ty, n.attrs, ChildTypes(n.items), body)
    case Declarative(tag, void, text, _) =>
      if void then Hole(tag(n.attrs)) else Wrap([tag(n.attrs)], Both(Chars(text(n.attrs)), body))
  }

  function LinkLayout(rules: Rules, n: Node, depth: nat): Layout
    decreases n, 1
  {
    Wrap([rules.link(n.attrs)],
      if depth < rules.maxInlineDepth then InlineLayout(rules, n.items, depth + 1, true)
      else Chars(PlainText(n.items)))
  }

  function RuleElement(ty: string, attrs: string, rule: NodeRule): Layout {
    match rule
    case CallbackRule(_) => Defer(ty, attrs, [], Blank)
    case Declarative(tag, void, text, _) =>
      if void then Hole(tag(attrs)) else Wrap([tag(attrs)], Chars(text(attrs)))
  }

  function DecoratorLayout(rules: Rules, ty: string, attrs: string): Layout {
    if ty in rules.nodes then RuleElement(ty, attrs, rules.nodes[ty])
    else if ty == "horizontalrule" then Hole(Tag("hr", ""))
    else Blank
  }

  function Carried(carry: Carry, item: Item): Carry {
    match item
    case Meta(ty, format) =>
      if ty == "linebreak" then carry else if ty == "tab" then Carry("", true) else Carry(format, false)
    case Str(_) => carry.(tab := false)
    case _ => carry
  }

  function ItemLayout(rules: Rules, item: Item, depth: nat, ruled: bool, carry: Carry): Layout
    decreases item, 3
  {
    match item
    case Meta(ty, _) => if ty == "linebreak" then Hole(Tag("br", "")) else Blank
    case Str(chars) =>
      if carry.tab then Wrap([Tag("span", "")], Chars("\t")) else Wrap(rules.marks(carry.format), Chars(chars))
    case Decorator(ty, attrs) => DecoratorLayout(rules, ty, attrs)
    case Child(n) =>
      if IsInlineType(n.ty) then
        if n.ty in rules.nodes then RuleInline(rules, n, rules.nodes[n.ty], depth) else LinkLayout(rules, n, depth)
      else if ruled && n.ty !in rules.builtin then
        if n.ty in rules.nodes then RuleInline(rules, n, rules.nodes[n.ty], depth)
        else if depth < rules.maxInlineDepth then InlineLayout(rules, n.items, depth + 1, ruled)
        else Blank
      else Blank
  }

  function RunsLayout(rules: Rules, items: seq<Item>, depth: nat, ruled: bool, carry: Carry): Layout
    decreases items, 0
  {
    if items == [] then Blank
    else
      Both(ItemLayout(rules, items[0], depth, ruled, carry),
           RunsLayout(rules, items[1..], depth, ruled, Carried(carry, items[0])))
  }

  function InlineLayout(rules: Rules, items: seq<Item>, depth: nat, ruled: bool): Layout
    decreases items, 1
  {
    RunsLayout(rules, items, depth, ruled, Carry("", false))
  }

  /** Blocks under a container, unless the cap cuts them off. */
  function KidsLayout(rules: Rules, kids: seq<Node>, depth: nat): Layout
    decreases rules.maxBlockDepth - depth, 0
  {
    if depth >= rules.maxBlockDepth then Blank else BlocksLayout(rules, kids, depth + 1)
  }

  function BlocksLayout(rules: Rules, nodes: seq<Node>, depth: nat): Layout
    decreases rules.maxBlockDepth - depth, 2, |nodes|
  {
    if nodes == [] then Blank
    else Both(BlockLayout(rules, nodes[0], depth), BlocksLayout(rules, nodes[1..], depth))
  }

  function RuleHead(rules: Rules, n: Node, content: Content): Layout {
    match content
    case Inline => InlineLayout(rules, n.items, 0, true)
    case Blocks => InlineLayout(rules, n.items, 0, false)
    case NoContent => Blank
  }

  function RuleBlockBody(rules: Rules, n: Node, content: Content, depth: nat): Layout
    decreases rules.maxBlockDepth - depth, 1, 0
  {
    var head := RuleHead(rules, n, content);
    if content == Blocks then Both(head, KidsLayout(rules, BlockChildren(n.items), depth)) else head
  }

  function RuleBlock(rules: Rules, n: Node, rule: NodeRule, depth: nat): Layout
    decreases rules.maxBlockDepth - depth, 1, 1
  {
    var body := RuleBlockBody(rules, n, rule.content, depth);
    match rule
    case CallbackRule(_) => Defer(n.ty, n.attrs, ChildTypes(n.items), body)
    case Declarative(tag, void, text, _) =>
      if void then Hole(tag(n.attrs)) else Wrap([tag(n.attrs)], Both(Chars(text(n.attrs)), body))
  }

  function BlockLayout(rules: Rules, n: Node, depth: nat): Layout
    decreases rules.maxBlockDepth - depth, 1, 2
  {
    if n.ty in rules.nodes then RuleBlock(rules, n, rules.nodes[n.ty], depth)
    else if n.ty in rules.blocks then
      match rules.blocks[n.ty]
      case TextBlock(tags) => Wrap(tags(n.attrs), InlineLayout(rules, n.items, 0, true))
      case Paragraph(tags) =>
        IfAny(tags(n.attrs), InlineLayout(rules, n.items, 0, true), Wrap(tags(n.attrs), Hole(Tag("br", ""))))
      case Container(tags, onlyLists, ruledInline) =>
        var kids := if onlyLists then OnlyLists(BlockChildren(n.items)) else BlockChildren(n.items);
        Wrap(tags(n.attrs), Both(InlineLayout(rules, n.items, 0, ruledInline), KidsLayout(rules, kids, depth)))
    else if BlockChildren(n.items) != [] then
      Wrap([], Both(InlineLayout(rules, n.items, 0, false), KidsLayout(rules, BlockChildren(n.items), depth)))
    else IfAny([Tag("p", "")], InlineLayout(rules, n.items, 0, true), Blank)
  }

  /** A child of the rendered root, and whether it carries a `__type`. */
  datatype Root =
    | RootBlock(node: Node, typed: bool)
    | RootElement(ty: string, attrs: string, typed: bool)
    | RootText(chars: string)

  function RootLayout(rules: Rules, root: Root): Layout {
    match root
    case RootBlock(node, _) => BlockLayout(rules, node, 0)
    case RootElement(ty, attrs, _) => DecoratorLayout(rules, ty, attrs)
    case RootText(chars) => Chars(chars)
  }

  function DocumentLayout(rules: Rules, roots: seq<Root>): Layout {
    if roots == [] then Blank else Both(RootLayout(rules, roots[0]), DocumentLayout(rules, roots[1..]))
  }

  // ---------------------------------------------------------------- calling callbacks in place

  /** Render with every callback called where it stands; also whether anything was written. */
  function InPlace(l: Layout, cb: Callback): (seq<Tok>, bool) {
    match l
    case Blank => ([], false)
    case Chars(chars) => if chars == "" then ([], false) else ([Text(chars)], true)
    case Hole(tag) => ([Void(tag)], true)
    case Wrap(tags, body) =>
      var (toks, wrote) := InPlace(body, cb);
      (Opens(tags) + toks + Closes(tags), wrote || tags != [])
    case Both(first, second) =>
      var (a, wroteA) := InPlace(first, cb);
      var (b, wroteB) := InPlace(second, cb);
      (a + b, wroteA || wroteB)
    case Defer(ty, attrs, childTypes, content) => (cb(ty, attrs, childTypes, InPlace(content, cb).0), true)
    case IfAny(tags, probe, otherwise) =>
      var (toks, wrote) := InPlace(probe, cb);
      if wrote then (Opens(tags) + toks + Closes(tags), true) else InPlace(otherwise, cb)
  }

  lemma ResolveWrapped(tags: seq<Tag>, body: seq<Piece>, cb: Callback)
    ensures Resolve(Tokens(Opens(tags)) + body + Tokens(Closes(tags)), cb) == Opens(tags) + Resolve(body, cb) + Closes(tags)
  {
    ResolveConcat(Tokens(Opens(tags)) + body, Tokens(Closes(tags)), cb);
    ResolveConcat(Tokens(Opens(tags)), body, cb);
    ResolveTokens(Opens(tags), cb);
    ResolveTokens(Closes(tags), cb);
  }

  /** Deferring callbacks and splicing afterwards is the same as calling them in place, for every
      layout, every nesting and every callback. */
  lemma {:induction false} DeferringIsInPlace(l: Layout, cb: Callback)
    ensures Resolve(Pieces(l), cb) == InPlace(l, cb).0
    ensures Pieces(l) != [] <==> InPlace(l, cb).1
  {
    match l
    case Blank =>
    case Chars(chars) => ResolveTokens([Text(chars)], cb); assert Tokens([Text(chars)]) == [T(Text(chars))];
    case Hole(tag) => ResolveTokens([Void(tag)], cb); assert Tokens([Void(tag)]) == [T(Void(tag))];
    case Wrap(tags, body) =>
      DeferringIsInPlace(body, cb);
      ResolveWrapped(tags, Pieces(body), cb);
    case Both(first, second) =>
      DeferringIsInPlace(first, cb);
      DeferringIsInPlace(second, cb);
      ResolveConcat(Pieces(first), Pieces(second), cb);
    case Defer(ty, attrs, childTypes, content) =>
      DeferringIsInPlace(content, cb);
      var call := [Call(ty, attrs, childTypes, Pieces(content))];
      assert Resolve(call[1..], cb) == [];
    case IfAny(tags, probe, otherwise) =>
      DeferringIsInPlace(probe, cb);
      DeferringIsInPlace(otherwise, cb);
      ResolveWrapped(tags, Pieces(probe), cb);
      if Pieces(probe) != [] { assert |Tokens(Opens(tags)) + Pieces(probe) + Tokens(Closes(tags))| > 0; }
  }

  // ---------------------------------------------------------------- balance

  lemma {:induction false} ScanOpens(tags: seq<Tag>, open: seq<string>)
    ensures Scan(Tokens(Opens(tags)), open) == Some(open + Names(tags))
    decreases |tags|
  {
    if tags == [] {
      assert open + Names(tags) == open;
    } else {
      assert Tokens(Opens(tags))[1..] == Tokens(Opens(tags[1..]));
      ScanOpens(tags[1..], open + [tags[0].name]);
      assert open + [tags[0].name] + Names(tags[1..]) == open + Names(tags);
    }
  }

  lemma {:induction false} ScanCloses(tags: seq<Tag>, open: seq<string>)
    ensures Scan(Tokens(Closes(tags)), open + Names(tags)) == Some(open)
    decreases |tags|
  {
    if tags == [] {
      assert open + Names(tags) == open;
    } else {
      var rest, last := Closes(tags[1..]), [Close(tags[0].name)];
      assert Tokens(rest + last) == Tokens(rest) + Tokens(last);
      assert open + Names(tags) == (open + [tags[0].name]) + Names(tags[1..]);
      ScanConcat(Tokens(rest), Tokens(last), open + Names(tags));
      ScanCloses(tags[1..], open + [tags[0].name]);
      assert Tokens(last)[1..] == [];
      assert (open + [tags[0].name])[..|open|] == open;
    }
  }

  function Names(tags: seq<Tag>): seq<string> {
    if tags == [] then [] else [tags[0].name] + Names(tags[1..])
  }

  lemma WrappedIsBalanced(tags: seq<Tag>, body: seq<Piece>)
    requires Balanced(body)
    ensures Balanced(Tokens(Opens(tags)) + body + Tokens(Closes(tags)))
  {
    forall open ensures Scan(Tokens(Opens(tags)) + body + Tokens(Closes(tags)), open) == Some(open) {
      ScanConcat(Tokens(Opens(tags)) + body, Tokens(Closes(tags)), open);
      ScanConcat(Tokens(Opens(tags)), body, open);
      ScanOpens(tags, open);
      ScanCloses(tags, open);
    }
  }

  /** Every layout's output is balanced, at every level of deferral, so a subtree cut at the depth
      cap never leaves a tag open. */
  lemma {:induction false} OutputIsBalanced(l: Layout)
    ensures Balanced(Pieces(l))
  {
    match l
    case Blank =>
    case Chars(chars) => assert Pieces(l) != [] ==> Pieces(l)[1..] == [];
    case Hole(tag) => assert Pieces(l)[1..] == [];
    case Wrap(tags, body) =>
      OutputIsBalanced(body);
      WrappedIsBalanced(tags, Pieces(body));
    case Both(first, second) =>
      OutputIsBalanced(first);
      OutputIsBalanced(second);
      forall open ensures Scan(Pieces(l), open) == Some(open) {
        ScanConcat(Pieces(first), Pieces(second), open);
      }
    case Defer(ty, attrs, childTypes, content) =>
      OutputIsBalanced(content);
      assert Pieces(l)[1..] == [];
    case IfAny(tags, probe, otherwise) =>
      OutputIsBalanced(probe);
      OutputIsBalanced(otherwise);
      WrappedIsBalanced(tags, Pieces(probe));
  }

  // ---------------------------------------------------------------- when nothing is deferred

  predicate HasCall(pieces: seq<Piece>) { exists i :: 0 <= i < |pieces| && pieces[i].Call? }

  /** Whether rendering reaches a node with a callback rule outside another one's content. */
  predicate MeetsCallback(l: Layout) {
    match l
    case Wrap(_, body) => MeetsCallback(body)
    case Both(first, second) => MeetsCallback(first) || MeetsCallback(second)
    case Defer(_, _, _, _) => true
    case IfAny(_, probe, otherwise) => MeetsCallback(probe) || (Pieces(probe) == [] && MeetsCallback(otherwise))
    case _ => false
  }

  lemma CallConcat(a: seq<Piece>, b: seq<Piece>)
    ensures HasCall(a + b) <==> HasCall(a) || HasCall(b)
  {
    assert forall i :: 0 <= i < |a| ==> (a + b)[i] == a[i];
    assert forall i :: 0 <= i < |b| ==> (a + b)[|a| + i] == b[i];
  }

  lemma CallWrapped(tags: seq<Tag>, body: seq<Piece>)
    ensures HasCall(Tokens(Opens(tags)) + body + Tokens(Closes(tags))) <==> HasCall(body)
  {
    CallConcat(Tokens(Opens(tags)) + body, Tokens(Closes(tags)));
    CallConcat(Tokens(Opens(tags)), body);
  }

  lemma {:induction false} MeetsCallbackIffCall(l: Layout)
    ensures MeetsCallback(l) <==> HasCall(Pieces(l))
  {
    match l
    case Wrap(tags, body) =>
      MeetsCallbackIffCall(body);
      CallWrapped(tags, Pieces(body));
    case Both(first, second) =>
      MeetsCallbackIffCall(first);
      MeetsCallbackIffCall(second);
      CallConcat(Pieces(first), Pieces(second));
    case Defer(_, _, _, _) => assert Pieces(l)[0].Call?;
    case IfAny(tags, probe, otherwise) =>
      MeetsCallbackIffCall(probe);
      MeetsCallbackIffCall(otherwise);
      CallWrapped(tags, Pieces(probe));
    case _ =>
  }

  /** No rule of the set is a callback. */
  predicate CallbackFree(rules: Rules) { forall ty :: ty in rules.nodes ==> rules.nodes[ty].Declarative? }

  lemma {:induction false} InlineMeetsNone(rules: Rules, items: seq<Item>, depth: nat, ruled: bool, carry: Carry)
    requires CallbackFree(rules)
    ensures !MeetsCallback(RunsLayout(rules, items, depth, ruled, carry))
    decreases items, 0
  {
    if items != [] {
      ItemMeetsNone(rules, items[0], depth, ruled, carry);
      InlineMeetsNone(rules, items[1..], depth, ruled, Carried(carry, items[0]));
    }
  }

  lemma WrapMeets(tags: seq<Tag>, first: Layout, second: Layout)
    requires !MeetsCallback(first) && !MeetsCallback(second)
    ensures !MeetsCallback(Wrap(tags, Both(first, second)))
  {
    assert !MeetsCallback(Both(first, second));
  }

  lemma {:induction false} ItemMeetsNone(rules: Rules, item: Item, depth: nat, ruled: bool, carry: Carry)
    requires CallbackFree(rules)
    ensures !MeetsCallback(ItemLayout(rules, item, depth, ruled, carry))
    decreases item, 3
  {
    if item.Child? {
      ChildMeetsNone(rules, item.node, depth + 1);
      if item.node.ty in rules.nodes {
        var rule := rules.nodes[item.node.ty];
        WrapMeets([rule.tag(item.node.attrs)], Chars(rule.text(item.node.attrs)), RuleContent(rules, item.node, rule, depth));
      }
    }
  }

  lemma {:induction false} ChildMeetsNone(rules: Rules, n: Node, depth: nat)
    requires CallbackFree(rules)
    ensures !MeetsCallback(InlineLayout(rules, n.items, depth, true))
    ensures !MeetsCallback(InlineLayout(rules, n.items, depth, false))
    decreases n, 1
  {
    InlineMeetsNone(rules, n.items, depth, true, Carry("", false));
    InlineMeetsNone(rules, n.items, depth, false, Carry("", false));
  }

  lemma {:induction false} BlockMeetsNone(rules: Rules, n: Node, depth: nat)
    requires CallbackFree(rules)
    ensures !MeetsCallback(BlockLayout(rules, n, depth))
    decreases rules.maxBlockDepth - depth, 1
  {
    ChildMeetsNone(rules, n, 0);
    var kids := BlockChildren(n.items);
    if depth < rules.maxBlockDepth {
      BlocksMeetNone(rules, kids, depth + 1);
      BlocksMeetNone(rules, OnlyLists(kids), depth + 1);
    }
    assert !MeetsCallback(KidsLayout(rules, kids, depth)) && !MeetsCallback(KidsLayout(rules, OnlyLists(kids), depth));
    if n.ty in rules.nodes {
      var rule := rules.nodes[n.ty];
      WrapMeets([rule.tag(n.attrs)], Chars(rule.text(n.attrs)), RuleBlockBody(rules, n, rule.content, depth));
    } else {
      var shape := if n.ty in rules.blocks then rules.blocks[n.ty] else Container(a => [], false, false);
      assert shape.Paragraph? ==> !MeetsCallback(Wrap(shape.tags(n.attrs), Hole(Tag("br", ""))));
      if shape.Container? {
        WrapMeets(shape.tags(n.attrs), InlineLayout(rules, n.items, 0, shape.ruledInline),
                  KidsLayout(rules, if shape.onlyLists then OnlyLists(kids) else kids, depth));
      }
    }
  }

  lemma {:induction false} BlocksMeetNone(rules: Rules, nodes: seq<Node>, depth: nat)
    requires CallbackFree(rules)
    ensures !MeetsCallback(BlocksLayout(rules, nodes, depth))
    decreases rules.maxBlockDepth - depth, 2, |nodes|
  {
    if nodes != [] {
      BlockMeetsNone(rules, nodes[0], depth);
      BlocksMeetNone(rules, nodes[1..], depth);
    }
  }

  /** With no callback rule registered, a document always renders to plain markup. */
  lemma {:induction false} RuleFreeAlwaysFlattens(rules: Rules, roots: seq<Root>)
    requires CallbackFree(rules)
    ensures !MeetsCallback(DocumentLayout(rules, roots))
    decreases |roots|
  {
    if roots != [] {
      if roots[0].RootBlock? { BlockMeetsNone(rules, roots[0].node, 0); }
      assert !MeetsCallback(RootLayout(rules, roots[0]));
      RuleFreeAlwaysFlattens(rules, roots[1..]);
    }
  }
}
