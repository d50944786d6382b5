/** A rendered Lexical document read back: every character, line break, rule and callback node of the
    document, in order, under exactly the elements it belongs to. */
module Reading {
  import opened Common
  import opened HtmlCore
  import opened Layout

  // ---------------------------------------------------------------- a reader of the output

  /** What surrounds something shown: an element, or the content slot of a callback node. */
  datatype Around = In(tag: Tag) | Slot(ty: string)

  datatype What = Glyph(ch: char) | Leaf(tag: Tag) | Asked(ty: string, attrs: string, childTypes: seq<string>)

  datatype Seen = Seen(what: What, within: seq<Around>)

  datatype Reader = Reader(seen: seq<Seen>, open: seq<Around>)

  function Glyphs(chars: string, within: seq<Around>): seq<Seen> {
    seq(|chars|, i requires 0 <= i < |chars| => Seen(Glyph(chars[i]), within))
  }

  /** Read output from a stack of open elements; None at a stray end tag. */
  function Read(pieces: seq<Piece>, open: seq<Around>): Option<Reader> {
    if pieces == [] then Some(Reader([], open))
    else
      match pieces[0]
      case T(Open(tag)) => Read(pieces[1..], open + [In(tag)])
      case T(Close(name)) =>
        if open != [] && open[|open| - 1].In? && open[|open| - 1].tag.name == name then Read(pieces[1..], open[..|open| - 1])
        else None
      case T(Void(tag)) => Seeing([Seen(Leaf(tag), open)], Read(pieces[1..], open))
      case T(Text(chars)) => Seeing(Glyphs(chars, open), Read(pieces[1..], open))
      case Call(ty, attrs, childTypes, content) =>
        var inside := Read(content, open + [Slot(ty)]);
        if inside.None? || inside.value.open != open + [Slot(ty)] then None
        else Seeing([Seen(Asked(ty, attrs, childTypes), open)] + inside.value.seen, Read(pieces[1..], open))
  }

  function Seeing(first: seq<Seen>, rest: Option<Reader>): Option<Reader> {
    if rest.None? then None else Some(Reader(first + rest.value.seen, rest.value.open))
  }

  function Then(first: Option<Reader>, pieces: seq<Piece>): Option<Reader> {
    if first.None? then None else Seeing(first.value.seen, Read(pieces, first.value.open))
  }

  lemma SeeingSeeing(a: seq<Seen>, b: seq<Seen>, rest: Option<Reader>)
    ensures Seeing(a, Seeing(b, rest)) == Seeing(a + b, rest)
  {
    if rest.Some? { assert a + (b + rest.value.seen) == (a + b) + rest.value.seen; }
  }

  lemma SeeingNothing(rest: Option<Reader>)
    ensures Seeing([], rest) == rest
  {
    if rest.Some? { assert [] + rest.value.seen == rest.value.seen; }
  }

  lemma ThenSeeing(first: seq<Seen>, mid: Option<Reader>, pieces: seq<Piece>)
    ensures Then(Seeing(first, mid), pieces) == Seeing(first, Then(mid, pieces))
  {
    if mid.Some? { SeeingSeeing(first, mid.value.seen, Read(pieces, mid.value.open)); }
  }

  lemma {:induction false} ReadConcat(a: seq<Piece>, b: seq<Piece>, open: seq<Around>)
    ensures Read(a + b, open) == Then(Read(a, open), b)
    decreases |a|
  {
    if a == [] {
      assert a + b == b;
      SeeingNothing(Read(b, open));
    } else {
      assert (a + b)[1..] == a[1..] + b;
      match a[0]
      case T(Open(tag)) => ReadConcat(a[1..], b, open + [In(tag)]);
      case T(Close(name)) => if open != [] { ReadConcat(a[1..], b, open[..|open| - 1]); }
      case T(Void(tag)) =>
        ReadConcat(a[1..], b, open);
        ThenSeeing([Seen(Leaf(tag), open)], Read(a[1..], open), b);
      case T(Text(chars)) =>
        ReadConcat(a[1..], b, open);
        ThenSeeing(Glyphs(chars, open), Read(a[1..], open), b);
      case Call(ty, attrs, childTypes, content) =>
        ReadConcat(a[1..], b, open);
        var inside := Read(content, open + [Slot(ty)]);
        if inside.Some? { ThenSeeing([Seen(Asked(ty, attrs, childTypes), open)] + inside.value.seen, Read(a[1..], open), b); }
    }
  }

  function Ins(tags: seq<Tag>): seq<Around> {
    seq(|tags|, i requires 0 <= i < |tags| => In(tags[i]))
  }

  lemma ReadOne(p: Piece, rest: seq<Piece>, open: seq<Around>)
    requires p.T? && p.tok.Open?
    ensures Read([p] + rest, open) == Read(rest, open + [In(p.tok.tag)])
  {
    assert ([p] + rest)[1..] == rest;
  }

  lemma {:induction false} ReadOpens(tags: seq<Tag>, open: seq<Around>)
    ensures Read(Tokens(Opens(tags)), open) == Some(Reader([], open + Ins(tags)))
    decreases |tags|
  {
    if tags == [] {
      assert open + Ins(tags) == open;
    } else {
      assert Tokens(Opens(tags)) == [T(Open(tags[0]))] + Tokens(Opens(tags[1..]));
      ReadOne(T(Open(tags[0])), Tokens(Opens(tags[1..])), open);
      ReadOpens(tags[1..], open + [In(tags[0])]);
      assert open + [In(tags[0])] + Ins(tags[1..]) == open + Ins(tags);
    }
  }

  lemma ReadClose(tag: Tag, open: seq<Around>)
    ensures Read([T(Close(tag.name))], open + [In(tag)]) == Some(Reader([], open))
  {
    assert [T(Close(tag.name))][1..] == [];
    assert (open + [In(tag)])[..|open|] == open;
  }

  lemma {:induction false} ReadCloses(tags: seq<Tag>, open: seq<Around>)
    ensures Read(Tokens(Closes(tags)), open + Ins(tags)) == Some(Reader([], open))
    decreases |tags|
  {
    if tags == [] {
      assert open + Ins(tags) == open;
    } else {
      var rest, last := Tokens(Closes(tags[1..])), [T(Close(tags[0].name))];
      assert Tokens(Closes(tags)) == rest + last;
      assert open + Ins(tags) == (open + [In(tags[0])]) + Ins(tags[1..]);
      ReadConcat(rest, last, open + Ins(tags));
      ReadCloses(tags[1..], open + [In(tags[0])]);
      ReadClose(tags[0], open);
      SeeingNothing(Read(last, open + [In(tags[0])]));
    }
  }

  // ---------------------------------------------------------------- what a layout shows

  function Shows(l: Layout, open: seq<Around>): seq<Seen> {
    match l
    case Blank => []
    case Chars(chars) => Glyphs(chars, open)
    case Hole(tag) => [Seen(Leaf(tag), open)]
    case Wrap(tags, body) => Shows(body, open + Ins(tags))
    case Both(first, second) => Shows(first, open) + Shows(second, open)
    case Defer(ty, attrs, childTypes, content) =>
      [Seen(Asked(ty, attrs, childTypes), open)] + Shows(content, open + [Slot(ty)])
    case IfAny(tags, probe, otherwise) =>
      if Pieces(probe) == [] then Shows(otherwise, open) else Shows(probe, open + Ins(tags))
  }

  lemma ReadWrapped(tags: seq<Tag>, body: seq<Piece>, open: seq<Around>, seen: seq<Seen>)
    requires Read(body, open + Ins(tags)) == Some(Reader(seen, open + Ins(tags)))
    ensures Read(Tokens(Opens(tags)) + body + Tokens(Closes(tags)), open) == Some(Reader(seen, open))
  {
    var o, c := Tokens(Opens(tags)), Tokens(Closes(tags));
    ReadConcat(o + body, c, open);
    ReadConcat(o, body, open);
    ReadOpens(tags, open);
    SeeingNothing(Read(body, open + Ins(tags)));
    ReadCloses(tags, open);
    assert seen + [] == seen;
  }

  lemma ReadSingle(p: Piece, open: seq<Around>)
    ensures p.T? && p.tok.Text? ==> Read([p], open) == Some(Reader(Glyphs(p.tok.chars, open), open))
    ensures p.T? && p.tok.Void? ==> Read([p], open) == Some(Reader([Seen(Leaf(p.tok.tag), open)], open))
  {
    assert [p][1..] == [];
    if p.T? && p.tok.Text? { assert Glyphs(p.tok.chars, open) + [] == Glyphs(p.tok.chars, open); }
    if p.T? && p.tok.Void? { assert [Seen(Leaf(p.tok.tag), open)] + [] == [Seen(Leaf(p.tok.tag), open)]; }
  }

  /** Reading a layout's output shows what the layout shows, and ends where it began. */
  lemma {:induction false} ReadsBack(l: Layout, open: seq<Around>)
    ensures Read(Pieces(l), open) == Some(Reader(Shows(l, open), open))
  {
    match l
    case Blank =>
    case Chars(chars) =>
      if chars != "" { ReadSingle(T(Text(chars)), open); } else { assert Glyphs(chars, open) == []; }
    case Hole(tag) => ReadSingle(T(Void(tag)), open);
    case Wrap(tags, body) =>
      ReadsBack(body, open + Ins(tags));
      ReadWrapped(tags, Pieces(body), open, Shows(body, open + Ins(tags)));
    case Both(first, second) =>
      ReadsBack(first, open);
      ReadsBack(second, open);
      ReadConcat(Pieces(first), Pieces(second), open);
    case Defer(ty, attrs, childTypes, content) =>
      ReadsBack(content, open + [Slot(ty)]);
      ReadCall(ty, attrs, childTypes, Pieces(content), open, Shows(content, open + [Slot(ty)]));
    case IfAny(tags, probe, otherwise) =>
      ReadsBack(otherwise, open);
      ReadsBack(probe, open + Ins(tags));
      ReadWrapped(tags, Pieces(probe), open, Shows(probe, open + Ins(tags)));
  }

  lemma ReadCall(ty: string, attrs: string, childTypes: seq<string>, content: seq<Piece>, open: seq<Around>, seen: seq<Seen>)
    requires Read(content, open + [Slot(ty)]) == Some(Reader(seen, open + [Slot(ty)]))
    ensures Read([Call(ty, attrs, childTypes, content)], open) == Some(Reader([Seen(Asked(ty, attrs, childTypes), open)] + seen, open))
  {
    assert [Call(ty, attrs, childTypes, content)][1..] == [];
    var first := [Seen(Asked(ty, attrs, childTypes), open)] + seen;
    assert first + [] == first;
  }
}
