/** Segmented renderer output: finished markup, and callback nodes the caller fills in later. */
module HtmlCore {
  import opened Common

  datatype Tag = Tag(name: string, attrs: string)

  datatype Tok =
    | Open(tag: Tag)
    | Close(name: string)
    | Void(tag: Tag)
    | Text(chars: string)

  datatype Segment =
    | Html(toks: seq<Tok>)
    | Deferred(ty: string, attrs: string, childTypes: seq<string>, content: seq<Segment>)

  /** Output with the grouping into segments forgotten: tokens, and callback nodes. */
  datatype Piece =
    | T(tok: Tok)
    | Call(ty: string, attrs: string, childTypes: seq<string>, content: seq<Piece>)

  function Tokens(toks: seq<Tok>): seq<Piece> {
    seq(|toks|, i requires 0 <= i < |toks| => T(toks[i]))
  }

  lemma TokensConcat(a: seq<Tok>, b: seq<Tok>)
    ensures Tokens(a + b) == Tokens(a) + Tokens(b)
  {
  }

  function View(segs: seq<Segment>): seq<Piece> {
    if segs == [] then []
    else
      (match segs[0]
       case Html(toks) => Tokens(toks)
       case Deferred(ty, attrs, childTypes, content) => [Call(ty, attrs, childTypes, View(content))])
      + View(segs[1..])
  }

  /** The emitter's merge invariant: no empty markup and no two pieces of markup side by side. */
  ghost predicate Normal(segs: seq<Segment>) {
    && (forall i :: 0 <= i < |segs| && segs[i].Html? ==> segs[i].toks != [])
    && forall i :: 0 <= i < |segs| - 1 ==> !(segs[i].Html? && segs[i + 1].Html?)
  }

  lemma {:induction false} ViewConcat(a: seq<Segment>, b: seq<Segment>)
    ensures View(a + b) == View(a) + View(b)
    decreases |a|
  {
    if a == [] {
      assert a + b == b;
    } else {
      assert (a + b)[1..] == a[1..] + b;
      ViewConcat(a[1..], b);
    }
  }

  lemma ViewOne(s: Segment)
    ensures View([s]) == match s
      case Html(toks) => Tokens(toks)
      case Deferred(ty, attrs, childTypes, content) => [Call(ty, attrs, childTypes, View(content))]
  {
    assert View([s][1..]) == [];
  }

  /** "Did this render anything?" asked of the segments is asked of the output. */
  lemma EmptyIffNothing(segs: seq<Segment>)
    requires Normal(segs)
    ensures segs == [] <==> View(segs) == []
  {
  }

  // ---------------------------------------------------------------- splicing

  /** What the caller's blocks make of a callback node: type, attributes, child types, content. */
  type Callback = (string, string, seq<string>, seq<Tok>) -> seq<Tok>

  /** `RenderRules.splice`: resolve callback nodes depth first. */
  function Splice(segs: seq<Segment>, cb: Callback): seq<Tok> {
    if segs == [] then []
    else
      (match segs[0]
       case Html(toks) => toks
       case Deferred(ty, attrs, childTypes, content) => cb(ty, attrs, childTypes, Splice(content, cb)))
      + Splice(segs[1..], cb)
  }

  /** The same over pieces. */
  function Resolve(pieces: seq<Piece>, cb: Callback): seq<Tok> {
    if pieces == [] then []
    else
      (match pieces[0]
       case T(tok) => [tok]
       case Call(ty, attrs, childTypes, content) => cb(ty, attrs, childTypes, Resolve(content, cb)))
      + Resolve(pieces[1..], cb)
  }

  lemma {:induction false} ResolveConcat(a: seq<Piece>, b: seq<Piece>, cb: Callback)
    ensures Resolve(a + b, cb) == Resolve(a, cb) + Resolve(b, cb)
    decreases |a|
  {
    if a == [] {
      assert a + b == b;
    } else {
      assert (a + b)[1..] == a[1..] + b;
      ResolveConcat(a[1..], b, cb);
    }
  }

  lemma {:induction false} ResolveTokens(toks: seq<Tok>, cb: Callback)
    ensures Resolve(Tokens(toks), cb) == toks
    decreases |toks|
  {
    if toks != [] {
      assert Tokens(toks)[1..] == Tokens(toks[1..]);
      ResolveTokens(toks[1..], cb);
    }
  }

  /** How output is grouped into segments makes no difference to the splice. */
  lemma {:induction false} SpliceIsResolve(segs: seq<Segment>, cb: Callback)
    ensures Splice(segs, cb) == Resolve(View(segs), cb)
  {
    if segs != [] {
      SpliceIsResolve(segs[1..], cb);
      match segs[0]
      case Html(toks) =>
        ResolveTokens(toks, cb);
        ResolveConcat(Tokens(toks), View(segs[1..]), cb);
      case Deferred(ty, attrs, childTypes, content) =>
        SpliceIsResolve(content, cb);
        ResolveConcat([Call(ty, attrs, childTypes, View(content))], View(segs[1..]), cb);
    }
  }

  // ---------------------------------------------------------------- balance

  /** Read tags against the stack of open elements; None at a tag that does not match.  A callback
      node's content must be balanced on its own. */
  function Scan(pieces: seq<Piece>, open: seq<string>): Option<seq<string>> {
    if pieces == [] then Some(open)
    else
      match pieces[0]
      case T(Open(tag)) => Scan(pieces[1..], open + [tag.name])
      case T(Close(name)) =>
        if open != [] && open[|open| - 1] == name then Scan(pieces[1..], open[..|open| - 1]) else None
      case T(_) => Scan(pieces[1..], open)
      case Call(_, _, _, content) => if Scan(content, []) == Some([]) then Scan(pieces[1..], open) else None
  }

  /** Every element opened is closed, in order, whatever is open around it. */
  ghost predicate Balanced(pieces: seq<Piece>) {
    forall open :: Scan(pieces, open) == Some(open)
  }

  lemma {:induction false} ScanConcat(a: seq<Piece>, b: seq<Piece>, open: seq<string>)
    ensures Scan(a + b, open) == if Scan(a, open).None? then None else Scan(b, Scan(a, open).value)
    decreases |a|
  {
    if a == [] {
      assert a + b == b;
    } else {
      assert (a + b)[1..] == a[1..] + b;
      match a[0]
      case T(Open(tag)) => ScanConcat(a[1..], b, open + [tag.name]);
      case T(Close(name)) =>
        if open != [] && open[|open| - 1] == name { ScanConcat(a[1..], b, open[..|open| - 1]); }
      case T(_) => ScanConcat(a[1..], b, open);
      case Call(_, _, _, _) => ScanConcat(a[1..], b, open);
    }
  }

  // ---------------------------------------------------------------- flatten

  datatype Flattened = Finished(toks: seq<Tok>) | Segments(segs: seq<Segment>)

  lemma FlattenStep(segs: seq<Segment>, i: nat, out: seq<Tok>)
    requires i < |segs| && segs[i].Html?
    ensures Tokens(out + segs[i].toks) + View(segs[i + 1..]) == Tokens(out) + View(segs[i..])
  {
    var toks := segs[i].toks;
    assert segs[i..][1..] == segs[i + 1..];
    assert View(segs[i..]) == Tokens(toks) + View(segs[i + 1..]);
    TokensConcat(out, toks);
  }

  /** One stretch of markup if nothing is deferred, and otherwise the segments as they came. */
  method Flatten(segs: seq<Segment>) returns (r: Flattened)
    ensures r.Finished? <==> forall i :: 0 <= i < |segs| ==> segs[i].Html?
    ensures r.Finished? ==> Tokens(r.toks) == View(segs)
    ensures r.Segments? ==> r.segs == segs
  {
    var i := 0;
    while i < |segs|
      invariant 0 <= i <= |segs|
      invariant forall j :: 0 <= j < i ==> segs[j].Html?
    {
      if segs[i].Deferred? { return Segments(segs); }
      i := i + 1;
    }
    var out := [];
    i := 0;
    while i < |segs|
      invariant 0 <= i <= |segs|
      invariant Tokens(out) + View(segs[i..]) == View(segs)
    {
      FlattenStep(segs, i, out);
      out := out + segs[i].toks;
      i := i + 1;
    }
    assert segs[i..] == [];
    return Finished(out);
  }

  // ---------------------------------------------------------------- the emitter

  /** Append to the innermost frame. */
  function Put(frames: seq<seq<Piece>>, pieces: seq<Piece>): (r: seq<seq<Piece>>)
    requires frames != []
    ensures |r| == |frames|
  {
    frames[..|frames| - 1] + [frames[|frames| - 1] + pieces]
  }

  lemma PutPut(frames: seq<seq<Piece>>, a: seq<Piece>, b: seq<Piece>)
    requires frames != []
    ensures Put(Put(frames, a), b) == Put(frames, a + b)
  {
    var last := frames[|frames| - 1];
    assert (last + a) + b == last + (a + b);
    assert Put(frames, a)[..|frames| - 1] == frames[..|frames| - 1];
  }

  lemma PutNothing(frames: seq<seq<Piece>>)
    requires frames != []
    ensures Put(frames, []) == frames
  {
    assert frames[|frames| - 1] + [] == frames[|frames| - 1];
  }

  function Views(frames: seq<seq<Segment>>): (r: seq<seq<Piece>>)
    ensures |r| == |frames|
  {
    seq(|frames|, i requires 0 <= i < |frames| => View(frames[i]))
  }

  ghost predicate AllNormal(frames: seq<seq<Segment>>) {
    forall i :: 0 <= i < |frames| ==> Normal(frames[i])
  }

  lemma PutView(frames: seq<seq<Segment>>, frame: seq<Segment>, pieces: seq<Piece>)
    requires frames != [] && AllNormal(frames) && Normal(frame)
    requires View(frame) == View(frames[|frames| - 1]) + pieces
    ensures Views(frames[|frames| - 1 := frame]) == Put(Views(frames), pieces)
    ensures AllNormal(frames[|frames| - 1 := frame])
  {
  }

  /** Markup joins the markup before it. */
  lemma Lengthened(front: seq<Segment>, last: seq<Tok>, toks: seq<Tok>)
    requires Normal(front + [Html(last)])
    ensures Normal(front + [Html(last + toks)])
    ensures View(front + [Html(last + toks)]) == View(front + [Html(last)]) + Tokens(toks)
  {
    var was, now := front + [Html(last)], front + [Html(last + toks)];
    assert was[|front|] == Html(last);
    assert forall i :: 0 <= i < |front| ==> was[i] == now[i];
    ViewConcat(front, [Html(last)]);
    ViewConcat(front, [Html(last + toks)]);
    ViewOne(Html(last));
    ViewOne(Html(last + toks));
    TokensConcat(last, toks);
  }

  lemma Added(frame: seq<Segment>, s: Segment)
    requires Normal(frame)
    requires s.Html? ==> s.toks != [] && (frame == [] || frame[|frame| - 1].Deferred?)
    ensures Normal(frame + [s]) && View(frame + [s]) == View(frame) + View([s])
  {
    ViewConcat(frame, [s]);
  }

  /** The renderers' output: a stack of frames, the innermost last. */
  class Emitter {
    var frames: seq<seq<Segment>>

    ghost predicate Valid() reads this { frames != [] && AllNormal(frames) }

    ghost function Out(): (r: seq<seq<Piece>>) reads this
      ensures |r| == |frames|
    {
      Views(frames)
    }

    constructor ()
      ensures Valid() && Out() == [[]]
    {
      frames := [[]];
    }

    method PushStr(toks: seq<Tok>)
      requires Valid()
      modifies this
      ensures Valid() && Out() == Put(old(Out()), Tokens(toks))
    {
      if toks == [] { assert Tokens(toks) == []; PutNothing(Out()); return; }
      var n := |frames| - 1;
      var frame := frames[n];
      if frame != [] && frame[|frame| - 1].Html? {
        var front, last := frame[..|frame| - 1], frame[|frame| - 1].toks;
        assert frame == front + [Html(last)];
        Lengthened(front, last, toks);
        frame := front + [Html(last + toks)];
      } else {
        Added(frame, Html(toks));
        ViewOne(Html(toks));
        frame := frame + [Html(toks)];
      }
      PutView(frames, frame, Tokens(toks));
      frames := frames[n := frame];
    }

    method BeginFrame()
      requires Valid()
      modifies this
      ensures Valid() && Out() == old(Out()) + [[]]
    {
      frames := frames + [[]];
    }

    method EndFrame() returns (captured: seq<Segment>)
      requires Valid() && |frames| > 1
      modifies this
      ensures Valid() && Normal(captured) && |frames| == |old(frames)| - 1
      ensures old(Out()) == Out() + [View(captured)]
      ensures Out() == old(Out())[..|frames|] && View(captured) == old(Out())[|frames|]
    {
      captured := frames[|frames| - 1];
      frames := frames[..|frames| - 1];
    }

    method EmitDeferred(ty: string, attrs: string, childTypes: seq<string>, content: seq<Segment>)
      requires Valid()
      modifies this
      ensures Valid() && Out() == Put(old(Out()), [Call(ty, attrs, childTypes, View(content))])
    {
      var n := |frames| - 1;
      Added(frames[n], Deferred(ty, attrs, childTypes, content));
      ViewOne(Deferred(ty, attrs, childTypes, content));
      PutView(frames, frames[n] + [Deferred(ty, attrs, childTypes, content)], [Call(ty, attrs, childTypes, View(content))]);
      frames := frames[n := frames[n] + [Deferred(ty, attrs, childTypes, content)]];
    }

    /** Append captured segments one by one. */
    method Append(segs: seq<Segment>)
      requires Valid()
      modifies this
      ensures Valid() && Out() == Put(old(Out()), View(segs))
    {
      var i := 0;
      assert segs[0..] == segs;
      while i < |segs|
        invariant 0 <= i <= |segs| && Valid()
        invariant Put(Out(), View(segs[i..])) == Put(old(Out()), View(segs))
      {
        ghost var before := Out();
        ghost var head := View([segs[i]]);
        ViewOne(segs[i]);
        match segs[i] {
          case Html(toks) => PushStr(toks);
          case Deferred(ty, attrs, childTypes, content) => EmitDeferred(ty, attrs, childTypes, content);
        }
        assert segs[i..] == [segs[i]] + segs[i + 1..];
        ViewConcat([segs[i]], segs[i + 1..]);
        PutPut(before, head, View(segs[i + 1..]));
        i := i + 1;
      }
      assert segs[i..] == [];
      PutNothing(Out());
    }
  }
}
