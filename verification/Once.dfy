/** A list item's text does not come out again with its nested list: nothing a Lexical document stores
    is rendered twice. */
module Once {
  import opened Common
  import opened HtmlCore
  import opened Layout

  // ---------------------------------------------------------------- counting a character

  function Occurrences(chars: string, ch: char): nat { multiset(chars)[ch] }

  /** How often a character is stored in a node's strings, its descendants' included. */
  function Stored(n: Node, ch: char): nat decreases n, 1 { StoredIn(n.items, ch) }

  function StoredIn(items: seq<Item>, ch: char): nat
    decreases items, 0
  {
    if items == [] then 0 else StoredItem(items[0], ch) + StoredIn(items[1..], ch)
  }

  function StoredItem(item: Item, ch: char): nat
    decreases item, 2
  {
    match item
    case Str(chars) => Occurrences(chars, ch)
    case Child(node) => Stored(node, ch)
    case _ => 0
  }

  function StoredNodes(nodes: seq<Node>, ch: char): nat {
    if nodes == [] then 0 else Stored(nodes[0], ch) + StoredNodes(nodes[1..], ch)
  }

  /** How often a character comes out as text, deferred content included. */
  function Shows(pieces: seq<Piece>, ch: char): nat {
    if pieces == [] then 0
    else
      (match pieces[0]
       case T(Text(chars)) => Occurrences(chars, ch)
       case T(_) => 0
       case Call(_, _, _, content) => Shows(content, ch))
      + Shows(pieces[1..], ch)
  }

  lemma {:induction false} ShowsConcat(a: seq<Piece>, b: seq<Piece>, ch: char)
    ensures Shows(a + b, ch) == Shows(a, ch) + Shows(b, ch)
    decreases |a|
  {
    if a == [] {
      assert a + b == b;
    } else {
      assert (a + b)[1..] == a[1..] + b;
      ShowsConcat(a[1..], b, ch);
    }
  }

  lemma {:induction false} TagsShowNothing(toks: seq<Tok>, ch: char)
    requires forall i :: 0 <= i < |toks| ==> !toks[i].Text?
    ensures Shows(Tokens(toks), ch) == 0
    decreases |toks|
  {
    if toks != [] {
      assert Tokens(toks)[1..] == Tokens(toks[1..]);
      TagsShowNothing(toks[1..], ch);
    }
  }

  lemma {:induction false} OpensAreTags(tags: seq<Tag>)
    ensures forall i :: 0 <= i < |Opens(tags)| ==> !Opens(tags)[i].Text?
    ensures forall i :: 0 <= i < |Closes(tags)| ==> !Closes(tags)[i].Text?
    decreases |tags|
  {
    if tags != [] { OpensAreTags(tags[1..]); }
  }

  lemma ShowsWrapped(tags: seq<Tag>, body: seq<Piece>, ch: char)
    ensures Shows(Tokens(Opens(tags)) + body + Tokens(Closes(tags)), ch) == Shows(body, ch)
  {
    OpensAreTags(tags);
    TagsShowNothing(Opens(tags), ch);
    TagsShowNothing(Closes(tags), ch);
    ShowsConcat(Tokens(Opens(tags)) + body, Tokens(Closes(tags)), ch);
    ShowsConcat(Tokens(Opens(tags)), body, ch);
  }

  /** The same of a layout. */
  function Emits(l: Layout, ch: char): nat {
    match l
    case Blank => 0
    case Chars(chars) => Occurrences(chars, ch)
    case Hole(_) => 0
    case Wrap(_, body) => Emits(body, ch)
    case Both(first, second) => Emits(first, ch) + Emits(second, ch)
    case Defer(_, _, _, content) => Emits(content, ch)
    case IfAny(_, probe, otherwise) => if Pieces(probe) == [] then Emits(otherwise, ch) else Emits(probe, ch)
  }

  lemma {:induction false} ShowsWhatIsEmitted(l: Layout, ch: char)
    ensures Shows(Pieces(l), ch) == Emits(l, ch)
  {
    match l
    case Blank =>
    case Chars(chars) => assert chars != "" ==> Pieces(l)[1..] == [];
    case Hole(_) => assert Pieces(l)[1..] == [];
    case Wrap(tags, body) =>
      ShowsWhatIsEmitted(body, ch);
      ShowsWrapped(tags, Pieces(body), ch);
    case Both(first, second) =>
      ShowsWhatIsEmitted(first, ch);
      ShowsWhatIsEmitted(second, ch);
      ShowsConcat(Pieces(first), Pieces(second), ch);
    case Defer(_, _, _, content) =>
      ShowsWhatIsEmitted(content, ch);
      assert Pieces(l)[1..] == [];
    case IfAny(tags, probe, otherwise) =>
      ShowsWhatIsEmitted(probe, ch);
      ShowsWhatIsEmitted(otherwise, ch);
      ShowsWrapped(tags, Pieces(probe), ch);
  }

  // ---------------------------------------------------------------- who renders which child

  /** What the renderer's own table guarantees: a list is a built-in type, and a block whose inline pass
      renders custom children walks only its lists as blocks. */
  predicate CoreTable(rules: Rules) {
    && "list" in rules.builtin
    && forall ty :: ty in rules.blocks && rules.blocks[ty].Container? && rules.blocks[ty].ruledInline ==> rules.blocks[ty].onlyLists
  }

  /** A character no template of the rule set writes. */
  ghost predicate Foreign(rules: Rules, ch: char) {
    && ch != '\t'
    && forall ty, attrs :: ty in rules.nodes && rules.nodes[ty].Declarative? ==> ch !in rules.nodes[ty].text(attrs)
  }

  /** The part of the items that the inline pass is responsible for. */
  function InlineShare(items: seq<Item>, ruled: bool, builtin: set<string>, ch: char): nat {
    if items == [] then 0
    else
      (if items[0].Child? && !IsInlineType(items[0].node.ty) && !(ruled && items[0].node.ty !in builtin) then 0
       else StoredItem(items[0], ch))
      + InlineShare(items[1..], ruled, builtin, ch)
  }

  /** The inline pass and the block walk share the children out, none twice. */
  lemma {:induction false} SharesAreDisjoint(items: seq<Item>, builtin: set<string>, ch: char)
    requires "list" in builtin
    ensures InlineShare(items, false, builtin, ch) + StoredNodes(BlockChildren(items), ch) <= StoredIn(items, ch)
    ensures forall ruled ::
      InlineShare(items, ruled, builtin, ch) + StoredNodes(OnlyLists(BlockChildren(items)), ch) <= StoredIn(items, ch)
    decreases |items|
  {
    if items != [] {
      SharesAreDisjoint(items[1..], builtin, ch);
      var rest := BlockChildren(items[1..]);
      if items[0].Child? && !IsInlineType(items[0].node.ty) {
        var n := items[0].node;
        assert ([n] + rest)[1..] == rest;
        if n.ty == "list" {
          assert ([n] + OnlyLists(rest))[1..] == OnlyLists(rest);
        } else {
          assert [] + OnlyLists(rest) == OnlyLists(rest);
        }
      } else {
        assert [] + rest == rest;
      }
    }
  }

  lemma {:induction false} InlineShareIsStored(items: seq<Item>, ruled: bool, builtin: set<string>, ch: char)
    ensures InlineShare(items, ruled, builtin, ch) <= StoredIn(items, ch)
    decreases |items|
  {
    if items != [] { InlineShareIsStored(items[1..], ruled, builtin, ch); }
  }

  // ---------------------------------------------------------------- inline content

  lemma {:induction false} PlainTextIsStored(items: seq<Item>, ch: char)
    ensures Occurrences(PlainText(items), ch) <= StoredIn(items, ch)
    decreases |items|
  {
    if items != [] {
      PlainTextIsStored(items[1..], ch);
      var head := if items[0].Str? then items[0].chars else "";
      assert multiset(head + PlainText(items[1..])) == multiset(head) + multiset(PlainText(items[1..]));
    }
  }

  lemma {:induction false} RunsOnce(rules: Rules, items: seq<Item>, depth: nat, ruled: bool, carry: Carry, ch: char)
    requires Foreign(rules, ch)
    ensures Emits(RunsLayout(rules, items, depth, ruled, carry), ch) <= InlineShare(items, ruled, rules.builtin, ch)
    decreases items, 0
  {
    if items != [] {
      ItemOnce(rules, items[0], depth, ruled, carry, ch);
      RunsOnce(rules, items[1..], depth, ruled, Carried(carry, items[0]), ch);
    }
  }

  lemma {:induction false} ItemOnce(rules: Rules, item: Item, depth: nat, ruled: bool, carry: Carry, ch: char)
    requires Foreign(rules, ch)
    ensures Emits(ItemLayout(rules, item, depth, ruled, carry), ch)
         <= if item.Child? && !IsInlineType(item.node.ty) && !(ruled && item.node.ty !in rules.builtin) then 0 else StoredItem(item, ch)
    decreases item, 3
  {
    match item
    case Meta(_, _) =>
    case Str(chars) => assert Emits(Chars(if carry.tab then "\t" else chars), ch) <= Occurrences(chars, ch);
    case Decorator(ty, attrs) => DecoratorOnce(rules, ty, attrs, ch);
    case Child(n) =>
      InlineOnce(rules, n, depth + 1, true, ch);
      InlineOnce(rules, n, depth + 1, ruled, ch);
      PlainTextIsStored(n.items, ch);
      if n.ty in rules.nodes {
        RuleInlineOnce(rules, n, rules.nodes[n.ty], depth, ch);
      } else {
        LinkOnce(rules, n, depth, ch);
      }
  }

  lemma {:induction false} InlineOnce(rules: Rules, n: Node, depth: nat, ruled: bool, ch: char)
    requires Foreign(rules, ch)
    ensures Emits(InlineLayout(rules, n.items, depth, ruled), ch) <= InlineShare(n.items, ruled, rules.builtin, ch) <= Stored(n, ch)
    decreases n, 1
  {
    RunsOnce(rules, n.items, depth, ruled, Carry("", false), ch);
    InlineShareIsStored(n.items, ruled, rules.builtin, ch);
  }

  lemma LinkOnce(rules: Rules, n: Node, depth: nat, ch: char)
    requires Emits(InlineLayout(rules, n.items, depth + 1, true), ch) <= Stored(n, ch)
    requires Occurrences(PlainText(n.items), ch) <= Stored(n, ch)
    ensures Emits(LinkLayout(rules, n, depth), ch) <= Stored(n, ch)
  {
  }

  lemma RuleInlineOnce(rules: Rules, n: Node, rule: NodeRule, depth: nat, ch: char)
    requires rule.Declarative? ==> ch !in rule.text(n.attrs)
    requires Emits(InlineLayout(rules, n.items, depth + 1, true), ch) <= Stored(n, ch)
    ensures Emits(RuleInline(rules, n, rule, depth), ch) <= Stored(n, ch)
  {
    var body := RuleContent(rules, n, rule, depth);
    assert Emits(body, ch) <= Stored(n, ch);
    if rule.Declarative? && !rule.void {
      assert Emits(Both(Chars(rule.text(n.attrs)), body), ch) == Emits(body, ch);
    }
  }

  lemma DecoratorOnce(rules: Rules, ty: string, attrs: string, ch: char)
    requires Foreign(rules, ch)
    ensures Emits(DecoratorLayout(rules, ty, attrs), ch) == 0
  {
  }

  // ---------------------------------------------------------------- blocks

  lemma {:induction false} BlockOnce(rules: Rules, n: Node, depth: nat, ch: char)
    requires CoreTable(rules) && Foreign(rules, ch)
    ensures Emits(BlockLayout(rules, n, depth), ch) <= Stored(n, ch)
    decreases rules.maxBlockDepth - depth, 1
  {
    var kids := BlockChildren(n.items);
    InlineOnce(rules, n, 0, true, ch);
    InlineOnce(rules, n, 0, false, ch);
    SharesAreDisjoint(n.items, rules.builtin, ch);
    KidsOnce(rules, kids, depth, ch);
    KidsOnce(rules, OnlyLists(kids), depth, ch);
    if n.ty in rules.nodes {
      RuleBlockOnce(rules, n, rules.nodes[n.ty], depth, ch);
    } else {
      PlainBlockOnce(rules, n, depth, ch);
    }
  }

  lemma {:induction false} KidsOnce(rules: Rules, nodes: seq<Node>, depth: nat, ch: char)
    requires CoreTable(rules) && Foreign(rules, ch)
    ensures Emits(KidsLayout(rules, nodes, depth), ch) <= StoredNodes(nodes, ch)
    decreases rules.maxBlockDepth - depth, 0
  {
    if depth < rules.maxBlockDepth { BlocksOnce(rules, nodes, depth + 1, ch); }
  }

  lemma {:induction false} BlocksOnce(rules: Rules, nodes: seq<Node>, depth: nat, ch: char)
    requires CoreTable(rules) && Foreign(rules, ch)
    ensures Emits(BlocksLayout(rules, nodes, depth), ch) <= StoredNodes(nodes, ch)
    decreases rules.maxBlockDepth - depth, 2, |nodes|
  {
    if nodes != [] {
      BlockOnce(rules, nodes[0], depth, ch);
      BlocksOnce(rules, nodes[1..], depth, ch);
    }
  }

  /** Each pass within its share, and the shares within the node. */
  ghost predicate Shared(rules: Rules, n: Node, depth: nat, ch: char) {
    var kids := BlockChildren(n.items);
    && Emits(InlineLayout(rules, n.items, 0, true), ch) <= Stored(n, ch)
    && Emits(InlineLayout(rules, n.items, 0, false), ch) + Emits(KidsLayout(rules, kids, depth), ch) <= Stored(n, ch)
    && Emits(InlineLayout(rules, n.items, 0, true), ch) + Emits(KidsLayout(rules, OnlyLists(kids), depth), ch) <= Stored(n, ch)
    && Emits(InlineLayout(rules, n.items, 0, false), ch) + Emits(KidsLayout(rules, OnlyLists(kids), depth), ch) <= Stored(n, ch)
  }

  lemma RuleBlockOnce(rules: Rules, n: Node, rule: NodeRule, depth: nat, ch: char)
    requires Shared(rules, n, depth, ch) && (rule.Declarative? ==> ch !in rule.text(n.attrs))
    ensures Emits(RuleBlock(rules, n, rule, depth), ch) <= Stored(n, ch)
  {
    var body := RuleBlockBody(rules, n, rule.content, depth);
    assert Emits(body, ch) <= Stored(n, ch);
    if rule.Declarative? && !rule.void {
      assert Emits(Both(Chars(rule.text(n.attrs)), body), ch) == Emits(body, ch);
    }
  }

  lemma PlainBlockOnce(rules: Rules, n: Node, depth: nat, ch: char)
    requires CoreTable(rules) && Shared(rules, n, depth, ch) && n.ty !in rules.nodes
    ensures Emits(BlockLayout(rules, n, depth), ch) <= Stored(n, ch)
  {
    var inlined, plain := InlineLayout(rules, n.items, 0, true), InlineLayout(rules, n.items, 0, false);
    var kids := BlockChildren(n.items);
    var all, lists := KidsLayout(rules, kids, depth), KidsLayout(rules, OnlyLists(kids), depth);
    assert Emits(Both(plain, all), ch) <= Stored(n, ch) && Emits(Both(inlined, lists), ch) <= Stored(n, ch);
    assert Emits(Both(plain, lists), ch) <= Stored(n, ch);
    assert forall tags :: Emits(Wrap(tags, Hole(Tag("br", ""))), ch) == Emits(Hole(Tag("br", "")), ch) == 0;
    if n.ty in rules.blocks && rules.blocks[n.ty].Container? {
      var shape := rules.blocks[n.ty];
      var body := Both(InlineLayout(rules, n.items, 0, shape.ruledInline), KidsLayout(rules, if shape.onlyLists then OnlyLists(kids) else kids, depth));
      assert Emits(body, ch) <= Stored(n, ch);
    }
  }

  function StoredRoots(roots: seq<Root>, ch: char): nat {
    if roots == [] then 0
    else
      (match roots[0]
       case RootBlock(node, _) => Stored(node, ch)
       case RootElement(_, _, _) => 0
       case RootText(chars) => Occurrences(chars, ch))
      + StoredRoots(roots[1..], ch)
  }

  /** For every document, rule set and depth: a character that no template writes comes out at most as
      often as it is stored.  So no stored string is rendered twice. */
  lemma {:induction false} NothingIsRenderedTwice(rules: Rules, roots: seq<Root>, ch: char)
    requires CoreTable(rules) && Foreign(rules, ch)
    ensures Shows(Pieces(DocumentLayout(rules, roots)), ch) <= StoredRoots(roots, ch)
    decreases |roots|
  {
    ShowsWhatIsEmitted(DocumentLayout(rules, roots), ch);
    if roots != [] {
      ShowsWhatIsEmitted(DocumentLayout(rules, roots[1..]), ch);
      NothingIsRenderedTwice(rules, roots[1..], ch);
      match roots[0]
      case RootBlock(node, _) => BlockOnce(rules, node, 0, ch);
      case RootElement(ty, attrs, _) => DecoratorOnce(rules, ty, attrs, ch);
      case RootText(_) =>
    }
  }
}
