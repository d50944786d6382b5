/** The Lexical renderer as it runs: an explicit work stack, an emitter with frames, callback nodes
    deferred to segments. */
module Render {
  import opened HtmlCore
  import opened Common
  import opened Layout
  import D = Reading
  import M = Meaning

  datatype Work =
    | OpenBlock(node: Node, depth: nat)
    | CloseTags(toks: seq<Tok>)
    | EndDeferred(ty: string, attrs: string, childTypes: seq<string>)

  // ---------------------------------------------------------------- what a work stack still has to do

  /** The frames once everything on the stack is done, by the recursive definition. */
  function Finish(rules: Rules, stack: seq<Work>, frames: seq<seq<Piece>>): seq<seq<Piece>>
    decreases |stack|
  {
    if stack == [] || frames == [] then frames
    else
      var rest, k := stack[..|stack| - 1], |frames| - 1;
      match stack[|stack| - 1]
      case OpenBlock(n, depth) => Finish(rules, rest, Put(frames, Pieces(BlockLayout(rules, n, depth))))
      case CloseTags(toks) => Finish(rules, rest, Put(frames, Tokens(toks)))
      case EndDeferred(ty, attrs, childTypes) =>
        if k == 0 then frames
        else Finish(rules, rest, Put(frames[..k], [Call(ty, attrs, childTypes, frames[k])]))
  }

  /** How many callback nodes are waiting to be sealed. */
  function Ends(stack: seq<Work>): nat {
    if stack == [] then 0 else (if stack[0].EndDeferred? then 1 else 0) + Ends(stack[1..])
  }

  function Size(n: Node): nat decreases n, 1 { 1 + SizeItems(n.items) }

  function SizeItems(items: seq<Item>): nat decreases items, 0 {
    if items == [] then 0
    else SizeItem(items[0]) + SizeItems(items[1..])
  }

  function SizeItem(item: Item): nat decreases item, 0 {
    if item.Child? then Size(item.node) else 0
  }

  function SizeNodes(nodes: seq<Node>): nat {
    if nodes == [] then 0 else Size(nodes[0]) + SizeNodes(nodes[1..])
  }

  /** An upper bound on the pops left, which every pop lowers. */
  function Cost(stack: seq<Work>): nat {
    if stack == [] then 0
    else (if stack[0].OpenBlock? then 2 * Size(stack[0].node) else 1) + Cost(stack[1..])
  }

  lemma {:induction false} StackConcat(a: seq<Work>, b: seq<Work>)
    ensures Ends(a + b) == Ends(a) + Ends(b) && Cost(a + b) == Cost(a) + Cost(b)
    decreases |a|
  {
    if a == [] {
      assert a + b == b;
    } else {
      assert (a + b)[1..] == a[1..] + b;
      StackConcat(a[1..], b);
    }
  }

  lemma StackPush(stack: seq<Work>, w: Work)
    ensures Ends(stack + [w]) == Ends(stack) + (if w.EndDeferred? then 1 else 0)
    ensures Cost(stack + [w]) == Cost(stack) + (if w.OpenBlock? then 2 * Size(w.node) else 1)
  {
    StackConcat(stack, [w]);
    assert [w][1..] == [];
  }

  /** Children pushed last to first, so that the first is on top. */
  function Opened(nodes: seq<Node>, depth: nat): seq<Work> {
    if nodes == [] then [] else Opened(nodes[1..], depth) + [OpenBlock(nodes[0], depth)]
  }

  lemma {:induction false} OpenedCost(nodes: seq<Node>, depth: nat)
    ensures Ends(Opened(nodes, depth)) == 0 && Cost(Opened(nodes, depth)) == 2 * SizeNodes(nodes)
    decreases |nodes|
  {
    if nodes != [] {
      OpenedCost(nodes[1..], depth);
      StackPush(Opened(nodes[1..], depth), OpenBlock(nodes[0], depth));
    }
  }

  lemma {:induction false} BlockChildrenSmall(items: seq<Item>)
    ensures SizeNodes(BlockChildren(items)) <= SizeItems(items)
    decreases |items|
  {
    if items != [] {
      BlockChildrenSmall(items[1..]);
      var tail := BlockChildren(items[1..]);
      if items[0].Child? && !IsInlineType(items[0].node.ty) {
        assert ([items[0].node] + tail)[1..] == tail;
      } else {
        assert [] + tail == tail;
      }
    }
  }

  lemma {:induction false} OnlyListsSmall(nodes: seq<Node>)
    ensures SizeNodes(OnlyLists(nodes)) <= SizeNodes(nodes)
    decreases |nodes|
  {
    if nodes != [] {
      OnlyListsSmall(nodes[1..]);
      var tail := OnlyLists(nodes[1..]);
      if nodes[0].ty == "list" {
        assert ([nodes[0]] + tail)[1..] == tail;
      } else {
        assert [] + tail == tail;
      }
    }
  }

  lemma FinishPush(rules: Rules, stack: seq<Work>, w: Work, frames: seq<seq<Piece>>)
    requires frames != []
    ensures w.OpenBlock? ==>
      Finish(rules, stack + [w], frames) == Finish(rules, stack, Put(frames, Pieces(BlockLayout(rules, w.node, w.depth))))
    ensures w.CloseTags? ==> Finish(rules, stack + [w], frames) == Finish(rules, stack, Put(frames, Tokens(w.toks)))
    ensures w.EndDeferred? && |frames| > 1 ==>
      Finish(rules, stack + [w], frames) ==
      Finish(rules, stack, Put(frames[..|frames| - 1], [Call(w.ty, w.attrs, w.childTypes, frames[|frames| - 1])]))
  {
    assert (stack + [w])[..|stack|] == stack;
  }

  /** Working off pushed children appends exactly their recursive rendering. */
  lemma {:induction false} FinishOpened(rules: Rules, stack: seq<Work>, nodes: seq<Node>, depth: nat, frames: seq<seq<Piece>>)
    requires frames != []
    ensures Finish(rules, stack + Opened(nodes, depth), frames)
         == Finish(rules, stack, Put(frames, Pieces(BlocksLayout(rules, nodes, depth))))
    decreases |nodes|
  {
    if nodes == [] {
      assert stack + Opened(nodes, depth) == stack;
      PutNothing(frames);
    } else {
      var first := Pieces(BlockLayout(rules, nodes[0], depth));
      var under := stack + Opened(nodes[1..], depth);
      assert stack + Opened(nodes, depth) == under + [OpenBlock(nodes[0], depth)];
      FinishPush(rules, under, OpenBlock(nodes[0], depth), frames);
      FinishOpened(rules, stack, nodes[1..], depth, Put(frames, first));
      PutPut(frames, first, Pieces(BlocksLayout(rules, nodes[1..], depth)));
    }
  }

  /** The children a container pushes: none at the cap. */
  function Pushed(rules: Rules, kids: seq<Node>, depth: nat): seq<Work> {
    if depth >= rules.maxBlockDepth then [] else Opened(kids, depth + 1)
  }

  lemma FinishPushed(rules: Rules, stack: seq<Work>, kids: seq<Node>, depth: nat, frames: seq<seq<Piece>>)
    requires frames != []
    ensures Finish(rules, stack + Pushed(rules, kids, depth), frames)
         == Finish(rules, stack, Put(frames, Pieces(KidsLayout(rules, kids, depth))))
  {
    if depth >= rules.maxBlockDepth {
      assert stack + [] == stack;
      PutNothing(frames);
    } else {
      FinishOpened(rules, stack, kids, depth + 1, frames);
    }
  }

  lemma PushedCost(rules: Rules, stack: seq<Work>, w: Work, kids: seq<Node>, depth: nat, n: Node)
    requires !w.OpenBlock? && SizeNodes(kids) <= SizeItems(n.items)
    ensures Ends(stack + [w] + Pushed(rules, kids, depth)) == Ends(stack) + (if w.EndDeferred? then 1 else 0)
    ensures Cost(stack + [w] + Pushed(rules, kids, depth)) < Cost(stack) + 2 * Size(n)
  {
    StackPush(stack, w);
    StackConcat(stack + [w], Pushed(rules, kids, depth));
    OpenedCost(kids, depth + 1);
  }

  // ---------------------------------------------------------------- inline content

  method RenderInline(rules: Rules, items: seq<Item>, depth: nat, ruled: bool, em: Emitter)
    requires em.Valid()
    modifies em
    ensures em.Valid() && em.Out() == Put(old(em.Out()), Pieces(InlineLayout(rules, items, depth, ruled)))
    decreases items, 1
  {
    var i := 0;
    var carry := Carry("", false);
    assert items[0..] == items;
    while i < |items|
      invariant 0 <= i <= |items| && em.Valid()
      invariant Put(em.Out(), Pieces(RunsLayout(rules, items[i..], depth, ruled, carry)))
             == Put(old(em.Out()), Pieces(InlineLayout(rules, items, depth, ruled)))
    {
      ghost var before := em.Out();
      RenderItem(rules, items[i], depth, ruled, carry, em);
      assert items[i..][1..] == items[i + 1..];
      PutPut(before, Pieces(ItemLayout(rules, items[i], depth, ruled, carry)),
             Pieces(RunsLayout(rules, items[i + 1..], depth, ruled, Carried(carry, items[i]))));
      carry := Carried(carry, items[i]);
      i := i + 1;
    }
    assert items[i..] == [];
    PutNothing(em.Out());
  }

  method PushRun(tags: seq<Tag>, chars: string, em: Emitter)
    requires em.Valid()
    modifies em
    ensures em.Valid() && em.Out() == Put(old(em.Out()), Pieces(Wrap(tags, Chars(chars))))
  {
    var text := if chars == "" then [] else [Text(chars)];
    em.PushStr(Opens(tags) + text + Closes(tags));
    assert Tokens(Opens(tags) + text + Closes(tags)) == Tokens(Opens(tags)) + Tokens(text) + Tokens(Closes(tags));
    assert Tokens(text) == Pieces(Chars(chars));
  }

  method RenderItem(rules: Rules, item: Item, depth: nat, ruled: bool, carry: Carry, em: Emitter)
    requires em.Valid()
    modifies em
    ensures em.Valid() && em.Out() == Put(old(em.Out()), Pieces(ItemLayout(rules, item, depth, ruled, carry)))
    decreases item, 3
  {
    ghost var before := em.Out();
    PutNothing(before);
    match item
    case Meta(ty, _) =>
      if ty == "linebreak" {
        em.PushStr([Void(Tag("br", ""))]);
        assert Tokens([Void(Tag("br", ""))]) == [T(Void(Tag("br", "")))];
      }
    case Str(chars) =>
      if carry.tab { PushRun([Tag("span", "")], "\t", em); } else { PushRun(rules.marks(carry.format), chars, em); }
    case Decorator(ty, attrs) => RenderDecorator(rules, ty, attrs, em);
    case Child(n) =>
      if IsInlineType(n.ty) {
        if n.ty in rules.nodes { RenderRuleInline(rules, n, rules.nodes[n.ty], depth, em); }
        else { RenderLink(rules, n, depth, em); }
      } else if ruled && n.ty !in rules.builtin {
        if n.ty in rules.nodes { RenderRuleInline(rules, n, rules.nodes[n.ty], depth, em); }
        else if depth < rules.maxInlineDepth { RenderInline(rules, n.items, depth + 1, ruled, em); }
      }
  }

  method PushText(chars: string, em: Emitter)
    requires em.Valid()
    modifies em
    ensures em.Valid() && em.Out() == Put(old(em.Out()), Pieces(Chars(chars)))
  {
    PutNothing(em.Out());
    if chars != "" {
      em.PushStr([Text(chars)]);
      assert Tokens([Text(chars)]) == [T(Text(chars))];
    }
  }

  method RenderRuleElement(ty: string, attrs: string, rule: NodeRule, em: Emitter)
    requires em.Valid()
    modifies em
    ensures em.Valid() && em.Out() == Put(old(em.Out()), Pieces(RuleElement(ty, attrs, rule)))
  {
    if rule.CallbackRule? {
      em.EmitDeferred(ty, attrs, [], []);
    } else {
      var t := rule.tag(attrs);
      if rule.void {
        em.PushStr([Void(t)]);
        assert Tokens([Void(t)]) == [T(Void(t))];
      } else {
        Wrapped(em.Out(), [t], Pieces(Chars(rule.text(attrs))));
        em.PushStr([Open(t)]);
        PushText(rule.text(attrs), em);
        em.PushStr([Close(t.name)]);
      }
    }
  }

  method RenderDecorator(rules: Rules, ty: string, attrs: string, em: Emitter)
    requires em.Valid()
    modifies em
    ensures em.Valid() && em.Out() == Put(old(em.Out()), Pieces(DecoratorLayout(rules, ty, attrs)))
  {
    PutNothing(em.Out());
    if ty in rules.nodes {
      RenderRuleElement(ty, attrs, rules.nodes[ty], em);
    } else if ty == "horizontalrule" {
      var hr := [Void(Tag("hr", ""))];
      assert Tokens(hr) == [T(hr[0])];
      em.PushStr(hr);
    }
  }

  lemma OneTag(t: Tag)
    ensures Opens([t]) == [Open(t)] && Closes([t]) == [Close(t.name)]
  {
    assert [t][1..] == [];
  }

  /** Open tags, then a body, then close tags. */
  lemma Wrapped(frames: seq<seq<Piece>>, tags: seq<Tag>, body: seq<Piece>)
    requires frames != []
    ensures Put(Put(Put(frames, Tokens(Opens(tags))), body), Tokens(Closes(tags)))
         == Put(frames, Tokens(Opens(tags)) + body + Tokens(Closes(tags)))
    ensures |tags| == 1 ==> Opens(tags) == [Open(tags[0])] && Closes(tags) == [Close(tags[0].name)]
  {
    PutPut(frames, Tokens(Opens(tags)), body);
    PutPut(frames, Tokens(Opens(tags)) + body, Tokens(Closes(tags)));
    if |tags| == 1 {
      assert tags == [tags[0]];
      OneTag(tags[0]);
    }
  }

  method RenderLink(rules: Rules, n: Node, depth: nat, em: Emitter)
    requires em.Valid()
    modifies em
    ensures em.Valid() && em.Out() == Put(old(em.Out()), Pieces(LinkLayout(rules, n, depth)))
    decreases n, 1
  {
    ghost var before := em.Out();
    var t := rules.link(n.attrs);
    em.PushStr([Open(t)]);
    if depth < rules.maxInlineDepth {
      RenderInline(rules, n.items, depth + 1, true, em);
      Wrapped(before, [t], Pieces(InlineLayout(rules, n.items, depth + 1, true)));
    } else {
      PushText(PlainText(n.items), em);
      Wrapped(before, [t], Pieces(Chars(PlainText(n.items))));
    }
    em.PushStr([Close(t.name)]);
  }

  /** Any deferral: capture what was written into a fresh frame as a callback node. */
  lemma Sealed(before: seq<seq<Piece>>, body: seq<Piece>)
    ensures Put(before + [[]], body) == before + [body]
  {
    assert [] + body == body;
  }

  /** A rule's content inside a link or a custom inline node. */
  method RenderRuleContent(rules: Rules, n: Node, rule: NodeRule, depth: nat, em: Emitter)
    requires em.Valid()
    modifies em
    ensures em.Valid() && em.Out() == Put(old(em.Out()), Pieces(RuleContent(rules, n, rule, depth)))
    decreases n, 1
  {
    PutNothing(em.Out());
    if rule.content != NoContent && depth < rules.maxInlineDepth {
      RenderInline(rules, n.items, depth + 1, true, em);
    }
  }

  /** A callback node: its content rendered into a frame of its own, then sealed. */
  method DeferRuleInline(rules: Rules, n: Node, rule: NodeRule, depth: nat, em: Emitter)
    requires em.Valid() && rule.CallbackRule?
    modifies em
    ensures em.Valid() && em.Out() == Put(old(em.Out()), Pieces(RuleInline(rules, n, rule, depth)))
    decreases n, 2
  {
    ghost var before := em.Out();
    ghost var body := Pieces(RuleContent(rules, n, rule, depth));
    em.BeginFrame();
    RenderRuleContent(rules, n, rule, depth, em);
    Sealed(before, body);
    var captured := em.EndFrame();
    assert em.Out() == before;
    em.EmitDeferred(n.ty, n.attrs, ChildTypes(n.items), captured);
  }

  lemma RuledInline(rules: Rules, n: Node, rule: NodeRule, depth: nat, t: Tag, frames: seq<seq<Piece>>)
    requires frames != [] && rule.Declarative? && t == rule.tag(n.attrs)
    ensures rule.void ==> Pieces(RuleInline(rules, n, rule, depth)) == Tokens([Void(t)])
    ensures !rule.void ==>
      Put(Put(Put(Put(frames, Tokens([Open(t)])), Pieces(Chars(rule.text(n.attrs)))), Pieces(RuleContent(rules, n, rule, depth))),
          Tokens([Close(t.name)]))
      == Put(frames, Pieces(RuleInline(rules, n, rule, depth)))
  {
    var text, body := Pieces(Chars(rule.text(n.attrs))), Pieces(RuleContent(rules, n, rule, depth));
    assert Tokens([Void(t)]) == [T(Void(t))];
    PutPut(Put(frames, Tokens([Open(t)])), text, body);
    Wrapped(frames, [t], text + body);
  }

  method RenderRuleInline(rules: Rules, n: Node, rule: NodeRule, depth: nat, em: Emitter)
    requires em.Valid()
    modifies em
    ensures em.Valid() && em.Out() == Put(old(em.Out()), Pieces(RuleInline(rules, n, rule, depth)))
    decreases n, 3
  {
    if rule.CallbackRule? {
      DeferRuleInline(rules, n, rule, depth, em);
    } else {
      var t := rule.tag(n.attrs);
      RuledInline(rules, n, rule, depth, t, em.Out());
      if rule.void {
        em.PushStr([Void(t)]);
      } else {
        em.PushStr([Open(t)]);
        PushText(rule.text(n.attrs), em);
        RenderRuleContent(rules, n, rule, depth, em);
        em.PushStr([Close(t.name)]);
      }
    }
  }

  // ---------------------------------------------------------------- blocks

  /** Opening block `n` left exactly the rest of its rendering on the stack. */
  ghost predicate Continues(rules: Rules, n: Node, l: Layout, stack: seq<Work>, before: seq<seq<Piece>>,
                            stack': seq<Work>, after: seq<seq<Piece>>)
    requires before != []
  {
    && Finish(rules, stack', after) == Finish(rules, stack, Put(before, Pieces(l)))
    && |after| == |before| + Ends(stack') - Ends(stack)
    && Cost(stack') < Cost(stack) + 2 * Size(n)
    && Ends(stack') >= Ends(stack)
  }

  /** A leaf leaves the stack alone. */
  lemma Leaf(rules: Rules, n: Node, l: Layout, stack: seq<Work>, before: seq<seq<Piece>>)
    requires before != []
    ensures Continues(rules, n, l, stack, before, stack, Put(before, Pieces(l)))
  {
  }

  function Kept(kids: seq<Node>, onlyLists: bool): seq<Node> {
    if onlyLists then OnlyLists(kids) else kids
  }

  lemma KeptStep(kids: seq<Node>, i: nat, onlyLists: bool, depth: nat)
    requires i < |kids|
    ensures Opened(Kept(kids[i..], onlyLists), depth) == Opened(Kept(kids[i + 1..], onlyLists), depth)
      + (if onlyLists && kids[i].ty != "list" then [] else [OpenBlock(kids[i], depth)])
  {
    var rest := Kept(kids[i + 1..], onlyLists);
    assert kids[i..][1..] == kids[i + 1..];
    assert Kept(kids[i..], onlyLists) == (if onlyLists && kids[i].ty != "list" then [] else [kids[i]]) + rest;
    assert ([kids[i]] + rest)[1..] == rest;
    assert [] + rest == rest;
  }

  /** Last to first, since the stack pops the last pushed. */
  method PushOpens(kids: seq<Node>, depth: nat, onlyLists: bool, stack: seq<Work>) returns (stack': seq<Work>)
    ensures stack' == stack + Opened(Kept(kids, onlyLists), depth)
  {
    stack' := stack;
    var i := |kids|;
    assert Opened(Kept(kids[i..], onlyLists), depth) == [];
    while i > 0
      invariant 0 <= i <= |kids|
      invariant stack' == stack + Opened(Kept(kids[i..], onlyLists), depth)
    {
      i := i - 1;
      KeptStep(kids, i, onlyLists, depth);
      if !(onlyLists && kids[i].ty != "list") { stack' := stack' + [OpenBlock(kids[i], depth)]; }
    }
    assert kids[0..] == kids;
  }

  method PushBlockChildren(rules: Rules, n: Node, depth: nat, close: seq<Tok>, onlyLists: bool, stack: seq<Work>)
    returns (stack': seq<Work>)
    ensures stack' == stack + [CloseTags(close)] + Pushed(rules, Kept(BlockChildren(n.items), onlyLists), depth)
  {
    stack' := stack + [CloseTags(close)];
    if depth < rules.maxBlockDepth {
      stack' := PushOpens(BlockChildren(n.items), depth + 1, onlyLists, stack');
    }
  }

  lemma KeptSmall(n: Node, onlyLists: bool)
    ensures SizeNodes(Kept(BlockChildren(n.items), onlyLists)) <= SizeItems(n.items)
  {
    BlockChildrenSmall(n.items);
    OnlyListsSmall(BlockChildren(n.items));
  }

  /** Children above their container's end tag come out inside it. */
  lemma ContainerContinues(rules: Rules, n: Node, head: seq<Piece>, close: seq<Tok>, kids: seq<Node>, depth: nat, l: Layout,
                           stack: seq<Work>, before: seq<seq<Piece>>)
    requires before != [] && SizeNodes(kids) <= SizeItems(n.items)
    requires Pieces(l) == head + Pieces(KidsLayout(rules, kids, depth)) + Tokens(close)
    ensures Continues(rules, n, l, stack, before, stack + [CloseTags(close)] + Pushed(rules, kids, depth), Put(before, head))
  {
    var inside := Pieces(KidsLayout(rules, kids, depth));
    var under := stack + [CloseTags(close)];
    FinishPushed(rules, under, kids, depth, Put(before, head));
    FinishPush(rules, stack, CloseTags(close), Put(Put(before, head), inside));
    PutPut(before, head, inside);
    PutPut(before, head + inside, Tokens(close));
    PushedCost(rules, stack, CloseTags(close), kids, depth, n);
  }

  lemma TaggedContinues(rules: Rules, n: Node, tags: seq<Tag>, inline: Layout, kids: seq<Node>, depth: nat,
                        stack: seq<Work>, before: seq<seq<Piece>>)
    requires before != [] && SizeNodes(kids) <= SizeItems(n.items)
    ensures Continues(rules, n, Wrap(tags, Both(inline, KidsLayout(rules, kids, depth))), stack, before,
      stack + [CloseTags(Closes(tags))] + Pushed(rules, kids, depth), Put(Put(before, Tokens(Opens(tags))), Pieces(inline)))
  {
    var l := Wrap(tags, Both(inline, KidsLayout(rules, kids, depth)));
    var o, i, k, c := Tokens(Opens(tags)), Pieces(inline), Pieces(KidsLayout(rules, kids, depth)), Tokens(Closes(tags));
    assert o + (i + k) + c == (o + i) + k + c;
    PutPut(before, o, i);
    ContainerContinues(rules, n, o + i, Closes(tags), kids, depth, l, stack, before);
  }

  /** Children above the marker that seals a callback node come out as its content. */
  lemma CallbackContinues(rules: Rules, n: Node, head: seq<Piece>, kids: seq<Node>, depth: nat, l: Layout,
                          stack: seq<Work>, before: seq<seq<Piece>>)
    requires before != [] && SizeNodes(kids) <= SizeItems(n.items)
    requires Pieces(l) == [Call(n.ty, n.attrs, ChildTypes(n.items), head + Pieces(KidsLayout(rules, kids, depth)))]
    ensures Continues(rules, n, l, stack, before,
      stack + [EndDeferred(n.ty, n.attrs, ChildTypes(n.items))] + Pushed(rules, kids, depth), before + [head])
  {
    var inside := Pieces(KidsLayout(rules, kids, depth));
    var mark := EndDeferred(n.ty, n.attrs, ChildTypes(n.items));
    FinishPushed(rules, stack + [mark], kids, depth, before + [head]);
    assert Put(before + [head], inside) == before + [head + inside];
    FinishPush(rules, stack, mark, before + [head + inside]);
    assert (before + [head + inside])[..|before|] == before;
    PushedCost(rules, stack, mark, kids, depth, n);
  }

  method OpenContainer(rules: Rules, n: Node, depth: nat, tags: seq<Tag>, onlyLists: bool, ruledInline: bool,
                       stack: seq<Work>, em: Emitter) returns (stack': seq<Work>)
    requires em.Valid()
    modifies em
    ensures em.Valid()
    ensures Continues(rules, n, Wrap(tags, Both(InlineLayout(rules, n.items, 0, ruledInline),
      KidsLayout(rules, Kept(BlockChildren(n.items), onlyLists), depth))), stack, old(em.Out()), stack', em.Out())
  {
    KeptSmall(n, onlyLists);
    TaggedContinues(rules, n, tags, InlineLayout(rules, n.items, 0, ruledInline), Kept(BlockChildren(n.items), onlyLists),
                    depth, stack, em.Out());
    em.PushStr(Opens(tags));
    RenderInline(rules, n.items, 0, ruledInline, em);
    stack' := PushBlockChildren(rules, n, depth, Closes(tags), onlyLists, stack);
  }

  /** Inline content in a frame of its own. */
  method CaptureInline(rules: Rules, n: Node, em: Emitter) returns (inline: seq<Segment>)
    requires em.Valid()
    modifies em
    ensures em.Valid() && em.Out() == old(em.Out())
    ensures Normal(inline) && View(inline) == Pieces(InlineLayout(rules, n.items, 0, true))
  {
    ghost var before := em.Out();
    em.BeginFrame();
    RenderInline(rules, n.items, 0, true, em);
    Sealed(before, Pieces(InlineLayout(rules, n.items, 0, true)));
    inline := em.EndFrame();
  }

  method AppendWrapped(tags: seq<Tag>, segs: seq<Segment>, em: Emitter)
    requires em.Valid()
    modifies em
    ensures em.Valid()
    ensures em.Out() == Put(old(em.Out()), Tokens(Opens(tags)) + View(segs) + Tokens(Closes(tags)))
  {
    Wrapped(em.Out(), tags, View(segs));
    em.PushStr(Opens(tags));
    em.Append(segs);
    em.PushStr(Closes(tags));
  }

  /** A block with no inline output renders differently, whatever its items were. */
  method OpenProbed(rules: Rules, n: Node, tags: seq<Tag>, otherwise: seq<Tok>, ghost fallback: Layout, em: Emitter)
    requires em.Valid() && Pieces(fallback) == Tokens(otherwise)
    modifies em
    ensures em.Valid()
    ensures em.Out() == Put(old(em.Out()), Pieces(IfAny(tags, InlineLayout(rules, n.items, 0, true), fallback)))
  {
    var inline := CaptureInline(rules, n, em);
    EmptyIffNothing(inline);
    if inline == [] {
      em.PushStr(otherwise);
    } else {
      AppendWrapped(tags, inline, em);
    }
  }

  method OpenTextBlock(rules: Rules, n: Node, tags: seq<Tag>, em: Emitter)
    requires em.Valid()
    modifies em
    ensures em.Valid()
    ensures em.Out() == Put(old(em.Out()), Pieces(Wrap(tags, InlineLayout(rules, n.items, 0, true))))
  {
    ghost var before := em.Out();
    em.PushStr(Opens(tags));
    RenderInline(rules, n.items, 0, true, em);
    em.PushStr(Closes(tags));
    Wrapped(before, tags, Pieces(InlineLayout(rules, n.items, 0, true)));
  }

  /** A rule block's inline part: nothing, or its runs, which skip the children that render as blocks. */
  method OpenRuleInline(rules: Rules, n: Node, content: Content, em: Emitter)
    requires em.Valid()
    modifies em
    ensures em.Valid() && em.Out() == Put(old(em.Out()), Pieces(RuleHead(rules, n, content)))
  {
    PutNothing(em.Out());
    match content
    case Inline => RenderInline(rules, n.items, 0, true, em);
    case Blocks => RenderInline(rules, n.items, 0, false, em);
    case NoContent =>
  }

  /** The children a rule block walks as blocks. */
  function RuleKids(n: Node, content: Content): seq<Node> {
    if content == Blocks then BlockChildren(n.items) else []
  }

  lemma NoKids(rules: Rules, depth: nat)
    ensures Pieces(KidsLayout(rules, [], depth)) == [] && Pushed(rules, [], depth) == []
  {
  }

  lemma RuleBody(rules: Rules, n: Node, content: Content, depth: nat)
    ensures Pieces(RuleBlockBody(rules, n, content, depth))
         == Pieces(RuleHead(rules, n, content)) + Pieces(KidsLayout(rules, RuleKids(n, content), depth))
    ensures SizeNodes(RuleKids(n, content)) <= SizeItems(n.items)
  {
    NoKids(rules, depth);
    BlockChildrenSmall(n.items);
  }

  method PushRuleKids(rules: Rules, n: Node, content: Content, depth: nat, stack: seq<Work>) returns (stack': seq<Work>)
    ensures stack' == stack + Pushed(rules, RuleKids(n, content), depth)
  {
    NoKids(rules, depth);
    stack' := stack;
    if content == Blocks && depth < rules.maxBlockDepth {
      stack' := PushOpens(BlockChildren(n.items), depth + 1, false, stack');
    }
  }

  lemma CallbackRuleContinues(rules: Rules, n: Node, content: Content, depth: nat, stack: seq<Work>, before: seq<seq<Piece>>)
    requires before != []
    ensures Continues(rules, n, RuleBlock(rules, n, CallbackRule(content), depth), stack, before,
      stack + [EndDeferred(n.ty, n.attrs, ChildTypes(n.items))] + Pushed(rules, RuleKids(n, content), depth),
      Put(before + [[]], Pieces(RuleHead(rules, n, content))))
  {
    var head := Pieces(RuleHead(rules, n, content));
    Sealed(before, head);
    RuleBody(rules, n, content, depth);
    CallbackContinues(rules, n, head, RuleKids(n, content), depth, RuleBlock(rules, n, CallbackRule(content), depth), stack, before);
  }

  method OpenCallbackBlock(rules: Rules, n: Node, content: Content, depth: nat, stack: seq<Work>, em: Emitter)
    returns (stack': seq<Work>)
    requires em.Valid()
    modifies em
    ensures em.Valid()
    ensures Continues(rules, n, RuleBlock(rules, n, CallbackRule(content), depth), stack, old(em.Out()), stack', em.Out())
  {
    CallbackRuleContinues(rules, n, content, depth, stack, em.Out());
    em.BeginFrame();
    stack' := stack + [EndDeferred(n.ty, n.attrs, ChildTypes(n.items))];
    OpenRuleInline(rules, n, content, em);
    stack' := PushRuleKids(rules, n, content, depth, stack');
  }

  /** A declarative rule's tag, its template text and its inline part. */
  method OpenRuleHead(rules: Rules, n: Node, t: Tag, text: string, content: Content, em: Emitter)
    requires em.Valid()
    modifies em
    ensures em.Valid()
    ensures em.Out() == Put(old(em.Out()), Tokens([Open(t)]) + Pieces(Chars(text)) + Pieces(RuleHead(rules, n, content)))
  {
    ghost var before := em.Out();
    em.PushStr([Open(t)]);
    PushText(text, em);
    OpenRuleInline(rules, n, content, em);
    PutPut(before, Tokens([Open(t)]), Pieces(Chars(text)));
    PutPut(before, Tokens([Open(t)]) + Pieces(Chars(text)), Pieces(RuleHead(rules, n, content)));
  }

  lemma DeclarativePieces(rules: Rules, n: Node, rule: NodeRule, depth: nat, t: Tag, chars: string)
    requires rule.Declarative? && !rule.void && t == rule.tag(n.attrs) && chars == rule.text(n.attrs)
    ensures Pieces(RuleBlock(rules, n, rule, depth))
         == (Tokens([Open(t)]) + Pieces(Chars(chars)) + Pieces(RuleHead(rules, n, rule.content)))
            + Pieces(KidsLayout(rules, RuleKids(n, rule.content), depth)) + Tokens([Close(t.name)])
  {
    RuleBody(rules, n, rule.content, depth);
    OneTag(t);
    var o, x, h, k := Tokens([Open(t)]), Pieces(Chars(chars)), Pieces(RuleHead(rules, n, rule.content)),
                      Pieces(KidsLayout(rules, RuleKids(n, rule.content), depth));
    assert o + (x + (h + k)) == (o + x + h) + k;
  }

  /** A declarative rule with a blocks slot defers its end tag below its children; any other closes now. */
  method OpenDeclarativeBlock(rules: Rules, n: Node, rule: NodeRule, depth: nat, stack: seq<Work>, em: Emitter)
    returns (stack': seq<Work>)
    requires em.Valid() && rule.Declarative?
    modifies em
    ensures em.Valid()
    ensures Continues(rules, n, RuleBlock(rules, n, rule, depth), stack, old(em.Out()), stack', em.Out())
  {
    ghost var before, l := em.Out(), RuleBlock(rules, n, rule, depth);
    var t := rule.tag(n.attrs);
    stack' := stack;
    if rule.void {
      em.PushStr([Void(t)]);
      assert Tokens([Void(t)]) == [T(Void(t))];
      Leaf(rules, n, l, stack, before);
      return;
    }
    ghost var head := Tokens([Open(t)]) + Pieces(Chars(rule.text(n.attrs))) + Pieces(RuleHead(rules, n, rule.content));
    DeclarativePieces(rules, n, rule, depth, t, rule.text(n.attrs));
    OpenRuleHead(rules, n, t, rule.text(n.attrs), rule.content, em);
    if rule.content == Blocks {
      stack' := PushRuleKids(rules, n, rule.content, depth, stack + [CloseTags([Close(t.name)])]);
      RuleBody(rules, n, rule.content, depth);
      ContainerContinues(rules, n, head, [Close(t.name)], RuleKids(n, rule.content), depth, l, stack, before);
    } else {
      em.PushStr([Close(t.name)]);
      NoKids(rules, depth);
      assert Pieces(l) == head + Tokens([Close(t.name)]);
      PutPut(before, head, Tokens([Close(t.name)]));
      Leaf(rules, n, l, stack, before);
    }
  }

  /** Rules are consulted first, then the built-in shapes; a type neither knows loses its wrapper but
      not its content. */
  method OpenBlockNode(rules: Rules, n: Node, depth: nat, stack: seq<Work>, em: Emitter) returns (stack': seq<Work>)
    requires em.Valid()
    modifies em
    ensures em.Valid()
    ensures Continues(rules, n, BlockLayout(rules, n, depth), stack, old(em.Out()), stack', em.Out())
  {
    ghost var before, l := em.Out(), BlockLayout(rules, n, depth);
    stack' := stack;
    if n.ty in rules.nodes {
      var rule := rules.nodes[n.ty];
      if rule.CallbackRule? { stack' := OpenCallbackBlock(rules, n, rule.content, depth, stack, em); }
      else { stack' := OpenDeclarativeBlock(rules, n, rule, depth, stack, em); }
    } else if n.ty in rules.blocks {
      match rules.blocks[n.ty]
      case TextBlock(tags) =>
        OpenTextBlock(rules, n, tags(n.attrs), em);
        Leaf(rules, n, l, stack, before);
      case Paragraph(tags) =>
        var t := tags(n.attrs);
        EmptyParagraph(t);
        OpenProbed(rules, n, t, Opens(t) + [Void(Tag("br", ""))] + Closes(t), Wrap(t, Hole(Tag("br", ""))), em);
        Leaf(rules, n, l, stack, before);
      case Container(tags, onlyLists, ruledInline) =>
        stack' := OpenContainer(rules, n, depth, tags(n.attrs), onlyLists, ruledInline, stack, em);
    } else if BlockChildren(n.items) != [] {
      stack' := OpenContainer(rules, n, depth, [], false, false, stack, em);
    } else {
      OpenProbed(rules, n, [Tag("p", "")], [], Blank, em);
      Leaf(rules, n, l, stack, before);
    }
  }

  lemma EmptyParagraph(t: seq<Tag>)
    ensures Pieces(Wrap(t, Hole(Tag("br", "")))) == Tokens(Opens(t) + [Void(Tag("br", ""))] + Closes(t))
  {
    var v := [Void(Tag("br", ""))];
    assert Tokens(v) == [T(v[0])];
    assert Tokens(Opens(t) + v + Closes(t)) == Tokens(Opens(t)) + Tokens(v) + Tokens(Closes(t));
  }

  // ---------------------------------------------------------------- the walk

  /** One pop from the work stack. */
  method Pop(rules: Rules, stack: seq<Work>, em: Emitter) returns (stack': seq<Work>)
    requires em.Valid() && stack != [] && |em.frames| > Ends(stack)
    modifies em
    ensures em.Valid()
    ensures Finish(rules, stack', em.Out()) == Finish(rules, stack, old(em.Out()))
    ensures |em.frames| - Ends(stack') == |old(em.frames)| - Ends(stack)
    ensures Cost(stack') < Cost(stack)
  {
    var w, rest := stack[|stack| - 1], stack[..|stack| - 1];
    assert rest + [w] == stack;
    stack' := rest;
    FinishPush(rules, rest, w, em.Out());
    StackPush(rest, w);
    match w
    case CloseTags(toks) => em.PushStr(toks);
    case EndDeferred(ty, attrs, childTypes) =>
      var content := em.EndFrame();
      em.EmitDeferred(ty, attrs, childTypes, content);
    case OpenBlock(n, depth) => stack' := OpenBlockNode(rules, n, depth, rest, em);
  }

  lemma OneBlock(rules: Rules, root: Node, depth: nat, frames: seq<seq<Piece>>)
    requires frames != []
    ensures Ends([OpenBlock(root, depth)]) == 0
    ensures Finish(rules, [OpenBlock(root, depth)], frames) == Put(frames, Pieces(BlockLayout(rules, root, depth)))
  {
    var stack := [OpenBlock(root, depth)];
    assert [] + stack == stack;
    StackPush([], stack[0]);
    FinishPush(rules, [], stack[0], frames);
  }

  /** The work-stack walk terminates and emits exactly the recursive rendering; throughout, the open
      frames are the caller's plus one for each callback node on the stack. */
  method RenderBlockTree(rules: Rules, root: Node, em: Emitter)
    requires em.Valid()
    modifies em
    ensures em.Valid() && em.Out() == Put(old(em.Out()), Pieces(BlockLayout(rules, root, 0)))
  {
    var stack := [OpenBlock(root, 0)];
    OneBlock(rules, root, 0, em.Out());
    ghost var target := Finish(rules, stack, em.Out());
    while stack != []
      invariant em.Valid() && |em.frames| == |old(em.frames)| + Ends(stack)
      invariant Finish(rules, stack, em.Out()) == target
      decreases Cost(stack)
    {
      stack := Pop(rules, stack, em);
    }
  }

  // ---------------------------------------------------------------- whole documents

  /** A root this renderer accepts: without children, or with a typed one among them. */
  predicate LexicalShaped(roots: seq<Root>) {
    roots == [] || exists i :: 0 <= i < |roots| && !roots[i].RootText? && roots[i].typed
  }

  method RenderRoots(rules: Rules, roots: seq<Root>, em: Emitter)
    requires em.Valid()
    modifies em
    ensures em.Valid() && em.Out() == Put(old(em.Out()), Pieces(DocumentLayout(rules, roots)))
  {
    var i := 0;
    assert roots[0..] == roots;
    while i < |roots|
      invariant 0 <= i <= |roots| && em.Valid()
      invariant Put(em.Out(), Pieces(DocumentLayout(rules, roots[i..])))
             == Put(old(em.Out()), Pieces(DocumentLayout(rules, roots)))
    {
      ghost var before := em.Out();
      match roots[i] {
        case RootBlock(node, _) => RenderBlockTree(rules, node, em);
        case RootElement(ty, attrs, _) => RenderDecorator(rules, ty, attrs, em);
        case RootText(chars) => PushText(chars, em);
      }
      assert roots[i..][1..] == roots[i + 1..];
      PutPut(before, Pieces(RootLayout(rules, roots[i])), Pieces(DocumentLayout(rules, roots[i + 1..])));
      i := i + 1;
    }
    assert roots[i..] == [];
    PutNothing(em.Out());
  }

  /** What `render_segments` returns: None for a foreign schema, else the whole document's output. */
  method RenderSegments(rules: Rules, roots: seq<Root>) returns (r: Option<seq<Segment>>)
    ensures r.Some? <==> LexicalShaped(roots)
    ensures r.Some? ==> View(r.value) == Pieces(DocumentLayout(rules, roots))
    ensures r.Some? ==> Balanced(View(r.value))
    ensures r.Some? ==> D.Read(View(r.value), []) == Some(D.Reader(M.SaysRoots(rules, roots), []))
    ensures r.Some? ==> forall cb: Callback :: Splice(r.value, cb) == InPlace(DocumentLayout(rules, roots), cb).0
  {
    if !LexicalShaped(roots) { return None; }
    var em := new Emitter();
    RenderRoots(rules, roots, em);
    var segs := em.frames[0];
    ghost var l := DocumentLayout(rules, roots);
    assert View(segs) == em.Out()[0] == [] + Pieces(l) == Pieces(l);
    OutputIsBalanced(l);
    M.OutputSaysTheDocument(rules, roots);
    forall cb: Callback ensures Splice(segs, cb) == InPlace(l, cb).0 {
      SpliceIsResolve(segs, cb);
      DeferringIsInPlace(l, cb);
    }
    return Some(segs);
  }

  /** `to_html` before the splice: plain markup exactly when no callback node was met, and then the
      markup every callback assignment would have given. */
  method RenderFlat(rules: Rules, roots: seq<Root>) returns (r: Option<Flattened>)
    ensures r.Some? <==> LexicalShaped(roots)
    ensures r.Some? ==> (r.value.Finished? <==> !MeetsCallback(DocumentLayout(rules, roots)))
    ensures r.Some? && r.value.Finished? ==> forall cb: Callback :: r.value.toks == InPlace(DocumentLayout(rules, roots), cb).0
  {
    var segs := RenderSegments(rules, roots);
    if segs.None? { return None; }
    var flat := Flatten(segs.value);
    MeetsCallbackIffCall(DocumentLayout(rules, roots));
    FinishedIffNoCall(segs.value);
    if flat.Finished? {
      forall cb: Callback ensures flat.toks == InPlace(DocumentLayout(rules, roots), cb).0 {
        ResolveTokens(flat.toks, cb);
        DeferringIsInPlace(DocumentLayout(rules, roots), cb);
      }
    }
    return Some(flat);
  }

  lemma {:induction false} FinishedIffNoCall(segs: seq<Segment>)
    ensures (forall i :: 0 <= i < |segs| ==> segs[i].Html?) <==> !HasCall(View(segs))
    decreases |segs|
  {
    if segs != [] {
      FinishedIffNoCall(segs[1..]);
      assert segs == [segs[0]] + segs[1..];
      var head := View([segs[0]]);
      ViewOne(segs[0]);
      assert segs[0].Deferred? ==> head[0].Call?;
      ViewConcat([segs[0]], segs[1..]);
      CallConcat(head, View(segs[1..]));
    }
  }
}
