/** Character indexes over a shared text whose own indexes count UTF-16 units, each embed one unit. */
module Indexes {
  import opened Common

  /** A Unicode scalar value. */
  type Scalar = c: nat | c < 0xD800 || 0xE000 <= c < 0x110000

  /** What a caller counts: a character, or an embed. */
  datatype Glyph = Ch(c: Scalar) | Emb(id: nat)

  /** What the document counts. */
  datatype Unit = Code(n: nat) | EmbedUnit(id: nat)

  /** The UTF-16 encoding form, section 3.9 of the Unicode Standard. */
  function Encode(g: Glyph): (r: seq<Unit>)
    ensures |r| == Width(g)
  {
    match g
    case Ch(c) =>
      if c < 0x10000 then [Code(c)] else [Code(0xD800 + (c - 0x10000) / 0x400), Code(0xDC00 + (c - 0x10000) % 0x400)]
    case Emb(id) => [EmbedUnit(id)]
  }

  function Width(g: Glyph): nat { if g.Ch? && g.c >= 0x10000 then 2 else 1 }

  function EncodeAll(glyphs: seq<Glyph>): seq<Unit> {
    if glyphs == [] then [] else Encode(glyphs[0]) + EncodeAll(glyphs[1..])
  }

  predicate IsLow(u: Unit) { u.Code? && 0xDC00 <= u.n < 0xE000 }

  /** A place in the units where no surrogate pair is cut in two. */
  predicate Boundary(units: seq<Unit>, at: nat) { at == |units| || (at < |units| && !IsLow(units[at])) }

  // ---------------------------------------------------------------- encoding

  lemma {:induction false} EncodeConcat(a: seq<Glyph>, b: seq<Glyph>)
    ensures EncodeAll(a + b) == EncodeAll(a) + EncodeAll(b)
    decreases |a|
  {
    if a == [] {
      assert a + b == b;
    } else {
      assert (a + b)[1..] == a[1..] + b;
      EncodeConcat(a[1..], b);
    }
  }

  /** The document index of character `k`. */
  function UnitsAt(glyphs: seq<Glyph>, k: nat): nat
    requires k <= |glyphs|
  {
    |EncodeAll(glyphs[..k])|
  }

  lemma EncodeSplit(glyphs: seq<Glyph>, k: nat)
    requires k <= |glyphs|
    ensures UnitsAt(glyphs, k) <= |EncodeAll(glyphs)|
    ensures EncodeAll(glyphs)[..UnitsAt(glyphs, k)] == EncodeAll(glyphs[..k])
    ensures EncodeAll(glyphs)[UnitsAt(glyphs, k)..] == EncodeAll(glyphs[k..])
  {
    assert glyphs == glyphs[..k] + glyphs[k..];
    EncodeConcat(glyphs[..k], glyphs[k..]);
  }

  lemma UnitsStep(glyphs: seq<Glyph>, k: nat)
    requires k < |glyphs|
    ensures UnitsAt(glyphs, k + 1) == UnitsAt(glyphs, k) + Width(glyphs[k])
  {
    assert glyphs[..k + 1] == glyphs[..k] + [glyphs[k]];
    EncodeConcat(glyphs[..k], [glyphs[k]]);
    assert [glyphs[k]][1..] == [];
  }

  lemma UnitsEnds(glyphs: seq<Glyph>)
    ensures UnitsAt(glyphs, 0) == 0 && UnitsAt(glyphs, |glyphs|) == |EncodeAll(glyphs)|
  {
    assert glyphs[..|glyphs|] == glyphs;
  }

  /** Character indexes map to document indexes strictly monotonically. */
  lemma {:induction false} UnitsAreMonotone(glyphs: seq<Glyph>, j: nat, k: nat)
    requires j < k <= |glyphs|
    ensures UnitsAt(glyphs, j) < UnitsAt(glyphs, k)
    decreases k - j
  {
    UnitsStep(glyphs, k - 1);
    if j < k - 1 { UnitsAreMonotone(glyphs, j, k - 1); }
  }

  lemma FirstUnitIsNotLow(glyphs: seq<Glyph>)
    requires glyphs != []
    ensures EncodeAll(glyphs) != [] && !IsLow(EncodeAll(glyphs)[0])
  {
    assert EncodeAll(glyphs)[0] == Encode(glyphs[0])[0];
    if glyphs[0].Ch? && glyphs[0].c >= 0x10000 { assert (glyphs[0].c - 0x10000) / 0x400 < 0x400; }
  }

  /** A character's document index never lands inside a surrogate pair. */
  lemma CharactersAreBoundaries(glyphs: seq<Glyph>, k: nat)
    requires k <= |glyphs|
    ensures Boundary(EncodeAll(glyphs), UnitsAt(glyphs, k))
  {
    var units, at := EncodeAll(glyphs), UnitsAt(glyphs, k);
    EncodeSplit(glyphs, k);
    if k < |glyphs| {
      FirstUnitIsNotLow(glyphs[k..]);
      assert units[at..][0] == units[at];
    } else {
      UnitsEnds(glyphs);
    }
  }

  /** The two units of a supplementary character: the second is low. */
  lemma InsideIsLow(glyphs: seq<Glyph>, k: nat)
    requires k < |glyphs| && Width(glyphs[k]) == 2
    ensures UnitsAt(glyphs, k) + 1 < |EncodeAll(glyphs)| && IsLow(EncodeAll(glyphs)[UnitsAt(glyphs, k) + 1])
  {
    var units, at := EncodeAll(glyphs), UnitsAt(glyphs, k);
    EncodeSplit(glyphs, k);
    assert glyphs[k..][0] == glyphs[k];
    assert units[at..][1] == Encode(glyphs[k])[1] == units[at + 1];
  }

  // ---------------------------------------------------------------- character index of a document index

  /** The first character whose document index is at least `units`. */
  function CharAt(glyphs: seq<Glyph>, units: nat): (k: nat)
    ensures k <= |glyphs|
  {
    if glyphs == [] || units == 0 then 0
    else 1 + CharAt(glyphs[1..], if units >= Width(glyphs[0]) then units - Width(glyphs[0]) else 0)
  }

  lemma UnitsTail(glyphs: seq<Glyph>, k: nat)
    requires 0 < k <= |glyphs|
    ensures UnitsAt(glyphs, k) == Width(glyphs[0]) + UnitsAt(glyphs[1..], k - 1)
  {
    assert glyphs[..k][1..] == glyphs[1..][..k - 1];
  }

  /** The two index maps are adjoint: a document index is at or before character `k` exactly when
      its own character is. */
  lemma {:induction false} IndexesAreAdjoint(glyphs: seq<Glyph>, units: nat, k: nat)
    requires k <= |glyphs| && units <= |EncodeAll(glyphs)|
    ensures CharAt(glyphs, units) <= k <==> units <= UnitsAt(glyphs, k)
    decreases |glyphs|
  {
    if glyphs != [] && units > 0 {
      if k == 0 {
        UnitsEnds(glyphs);
      } else {
        var w := Width(glyphs[0]);
        UnitsTail(glyphs, k);
        IndexesAreAdjoint(glyphs[1..], if units >= w then units - w else 0, k - 1);
      }
    }
  }

  /** Converting a character index to units and back gives it back. */
  lemma CharsUndoUnits(glyphs: seq<Glyph>, k: nat)
    requires k <= |glyphs|
    ensures CharAt(glyphs, UnitsAt(glyphs, k)) == k
  {
    EncodeSplit(glyphs, k);
    var back := CharAt(glyphs, UnitsAt(glyphs, k));
    IndexesAreAdjoint(glyphs, UnitsAt(glyphs, k), k);
    IndexesAreAdjoint(glyphs, UnitsAt(glyphs, k), back);
    if back < k { UnitsAreMonotone(glyphs, back, k); }
  }

  /** A document index comes back from its character exactly when it cuts no pair; else it moves to
      the end of the pair it was inside. */
  lemma UnitsUndoCharsIffBoundary(glyphs: seq<Glyph>, units: nat)
    requires units <= |EncodeAll(glyphs)|
    ensures UnitsAt(glyphs, CharAt(glyphs, units)) == units <==> Boundary(EncodeAll(glyphs), units)
    ensures !Boundary(EncodeAll(glyphs), units) ==> UnitsAt(glyphs, CharAt(glyphs, units)) == units + 1
  {
    var k := CharAt(glyphs, units);
    IndexesAreAdjoint(glyphs, units, k);
    CharactersAreBoundaries(glyphs, k);
    if UnitsAt(glyphs, k) != units {
      UnitsEnds(glyphs);
      IndexesAreAdjoint(glyphs, units, k - 1);
      UnitsStep(glyphs, k - 1);
      InsideIsLow(glyphs, k - 1);
    }
  }

  lemma GlyphIsDetermined(a: Glyph, b: Glyph)
    requires Encode(a)[0] == Encode(b)[0] && (Width(a) == 2 && Width(b) == 2 ==> Encode(a)[1] == Encode(b)[1])
    ensures a == b
  {
    LeadUnit(a);
    LeadUnit(b);
    if Width(a) == 2 && Width(b) == 2 {
      var x, y := a.c - 0x10000, b.c - 0x10000;
      assert x == 0x400 * (x / 0x400) + x % 0x400 && y == 0x400 * (y / 0x400) + y % 0x400;
    }
  }

  /** Only a pair starts with a high surrogate. */
  lemma LeadUnit(g: Glyph)
    ensures Width(g) == 2 <==> Encode(g)[0].Code? && 0xD800 <= Encode(g)[0].n < 0xDC00
  {
    assert Width(g) == 2 ==> 0 <= (g.c - 0x10000) / 0x400 < 0x400;
  }

  /** The units of a text determine its characters. */
  lemma {:induction false} EncodingIsInjective(a: seq<Glyph>, b: seq<Glyph>)
    requires EncodeAll(a) == EncodeAll(b)
    ensures a == b
    decreases |a|
  {
    if a == [] || b == [] {
      assert a != [] ==> EncodeAll(a) != [];
      assert b != [] ==> EncodeAll(b) != [];
    } else {
      var all := EncodeAll(a);
      assert all[0] == Encode(a[0])[0] == Encode(b[0])[0];
      assert Width(a[0]) == 2 ==> all[1] == Encode(a[0])[1];
      assert Width(b[0]) == 2 ==> all[1] == Encode(b[0])[1];
      GlyphIsDetermined(a[0], b[0]);
      assert all[Width(a[0])..] == EncodeAll(a[1..]) && all[Width(b[0])..] == EncodeAll(b[1..]);
      EncodingIsInjective(a[1..], b[1..]);
    }
  }

  // ---------------------------------------------------------------- Ruby's indexes

  /** Negative counts from the end, -1 being the end itself; clamped. */
  function InsertIndex(index: int, len: nat): (r: nat)
    ensures r <= len
    ensures 0 <= index <= len ==> r == index
    ensures index < 0 <= len + 1 + index ==> r == len + 1 + index
    ensures index > len ==> r == len
    ensures len + 1 + index < 0 ==> r == 0
  {
    var i := if index < 0 then len + index + 1 else index;
    if i < 0 then 0 else if i > len then len else i
  }

  function ElementIndex(index: int, len: nat): (r: Option<nat>)
    ensures r.Some? <==> 0 <= len + index && index < len
    ensures r.Some? ==> r.value < len && (r.value == index || r.value - len == index)
  {
    var i := if index < 0 then len + index else index;
    if 0 <= i < len then Some(i) else None
  }

  function DeleteSpan(index: int, length: int, len: nat): (r: Option<(nat, nat)>)
    ensures r.Some? <==> 0 <= len + index && index <= len
    ensures r.Some? ==> r.value.0 <= r.value.1 <= len && (r.value.0 == index || r.value.0 - len == index)
    ensures r.Some? && length >= 0 ==> r.value.1 == len || r.value.1 - r.value.0 == length
    ensures r.Some? && length >= 0 ==> r.value.1 - r.value.0 <= length
    ensures r.Some? && length < 0 ==> r.value.1 == r.value.0
  {
    var start := if index < 0 then len + index else index;
    if start < 0 || start > len then None
    else
      var count := if length < 0 then 0 else if length > len - start then len - start else length;
      Some((start, start + count))
  }

  // ---------------------------------------------------------------- walking the pieces

  /** A sequence's contents as its diff lists them. */
  datatype Piece = Str(chars: seq<Scalar>) | Embed(id: nat)

  function Chars(chars: seq<Scalar>): seq<Glyph> { seq(|chars|, i requires 0 <= i < |chars| => Ch(chars[i])) }

  function PieceGlyphs(piece: Piece): seq<Glyph> {
    match piece
    case Str(chars) => Chars(chars)
    case Embed(id) => [Emb(id)]
  }

  function Glyphs(pieces: seq<Piece>): seq<Glyph> {
    if pieces == [] then [] else PieceGlyphs(pieces[0]) + Glyphs(pieces[1..])
  }

  lemma GlyphsStep(pieces: seq<Piece>, i: nat)
    requires i < |pieces|
    ensures Glyphs(pieces[i..]) == PieceGlyphs(pieces[i]) + Glyphs(pieces[i + 1..])
  {
    assert pieces[i..][1..] == pieces[i + 1..];
  }

  method CharLen(pieces: seq<Piece>) returns (len: nat)
    ensures len == |Glyphs(pieces)|
  {
    len := 0;
    var i := 0;
    while i < |pieces|
      invariant 0 <= i <= |pieces| && len + |Glyphs(pieces[i..])| == |Glyphs(pieces[0..])|
    {
      GlyphsStep(pieces, i);
      len := len + if pieces[i].Str? then |pieces[i].chars| else 1;
      i := i + 1;
    }
    assert pieces[i..] == [] && pieces[0..] == pieces;
  }

  /** Units of the first `k` of the glyphs, or of all of them. */
  function UnitsOf(glyphs: seq<Glyph>, k: nat): nat { UnitsAt(glyphs, Min(k, |glyphs|)) }

  lemma UnitsOfConcat(a: seq<Glyph>, b: seq<Glyph>, k: nat)
    ensures UnitsOf(a + b, k) == UnitsOf(a, k) + UnitsOf(b, if k > |a| then k - |a| else 0)
  {
    var r := if k > |a| then k - |a| else 0;
    assert (a + b)[..Min(k, |a + b|)] == a[..Min(k, |a|)] + b[..Min(r, |b|)];
    EncodeConcat(a[..Min(k, |a|)], b[..Min(r, |b|)]);
  }

  lemma UnitsOfOne(g: Glyph, k: nat)
    requires k > 0
    ensures UnitsOf([g], k) == Width(g)
  {
    UnitsStep([g], 0);
    UnitsEnds([g]);
  }

  /** Units for up to `left` characters of one string. */
  method StringUnits(chars: seq<Scalar>, left: nat) returns (units: nat, left': nat)
    ensures units == UnitsOf(Chars(chars), left)
    ensures left' == if left > |chars| then left - |chars| else 0
  {
    units, left' := 0, left;
    var i := 0;
    ghost var all := Chars(chars);
    UnitsEnds(all);
    while i < |chars|
      invariant 0 <= i <= |chars| && i <= left && left' == left - i && units == UnitsAt(all, i)
    {
      if left' == 0 { return; }
      UnitsStep(all, i);
      units := units + if chars[i] < 0x10000 then 1 else 2;
      left' := left' - 1;
      i := i + 1;
    }
  }

  method PieceUnits(piece: Piece, left: nat) returns (units: nat, left': nat)
    requires left > 0
    ensures units == UnitsOf(PieceGlyphs(piece), left)
    ensures left' == if left > |PieceGlyphs(piece)| then left - |PieceGlyphs(piece)| else 0
  {
    match piece
    case Str(s) => units, left' := StringUnits(s, left);
    case Embed(id) =>
      UnitsOfOne(Emb(id), left);
      units, left' := 1, left - 1;
  }

  /** The document index of character `chars`. */
  method ToUnits(pieces: seq<Piece>, chars: nat) returns (units: nat)
    ensures units == UnitsOf(Glyphs(pieces), chars)
  {
    var left := chars;
    units := 0;
    var i := 0;
    ghost var target := UnitsOf(Glyphs(pieces), chars);
    assert pieces[0..] == pieces;
    while i < |pieces|
      invariant 0 <= i <= |pieces|
      invariant units + UnitsOf(Glyphs(pieces[i..]), left) == target
    {
      if left == 0 { UnitsEnds(Glyphs(pieces[i..])); return; }
      GlyphsStep(pieces, i);
      UnitsOfConcat(PieceGlyphs(pieces[i]), Glyphs(pieces[i + 1..]), left);
      var more, left' := PieceUnits(pieces[i], left);
      units, left := units + more, left';
      i := i + 1;
    }
    assert pieces[i..] == [];
  }

  /** What a run of glyphs takes off a count of units. */
  function Rest(glyphs: seq<Glyph>, units: nat): nat
    decreases |glyphs|
  {
    if glyphs == [] || units == 0 then units
    else Rest(glyphs[1..], if units >= Width(glyphs[0]) then units - Width(glyphs[0]) else 0)
  }

  lemma {:induction false} CharAtConcat(a: seq<Glyph>, b: seq<Glyph>, units: nat)
    ensures CharAt(a + b, units) == CharAt(a, units) + CharAt(b, Rest(a, units))
    decreases |a|
  {
    if a == [] {
      assert a + b == b;
    } else if units > 0 {
      assert (a + b)[1..] == a[1..] + b;
      CharAtConcat(a[1..], b, if units >= Width(a[0]) then units - Width(a[0]) else 0);
    }
  }

  method StringChars(s: seq<Scalar>, left: nat) returns (chars: nat, left': nat)
    ensures chars == CharAt(Chars(s), left) && left' == Rest(Chars(s), left)
  {
    chars, left' := 0, left;
    var i := 0;
    assert Chars(s)[0..] == Chars(s);
    while i < |s|
      invariant 0 <= i <= |s|
      invariant chars + CharAt(Chars(s)[i..], left') == CharAt(Chars(s), left)
      invariant Rest(Chars(s)[i..], left') == Rest(Chars(s), left)
    {
      if left' == 0 { return; }
      var w := if s[i] < 0x10000 then 1 else 2;
      assert Chars(s)[i..][0] == Ch(s[i]) && Chars(s)[i..][1..] == Chars(s)[i + 1..];
      left' := if left' >= w then left' - w else 0;
      chars := chars + 1;
      i := i + 1;
    }
  }

  lemma CharsStep(pieces: seq<Piece>, i: nat, left: nat)
    requires i < |pieces|
    ensures CharAt(Glyphs(pieces[i..]), left)
         == CharAt(PieceGlyphs(pieces[i]), left) + CharAt(Glyphs(pieces[i + 1..]), Rest(PieceGlyphs(pieces[i]), left))
  {
    GlyphsStep(pieces, i);
    CharAtConcat(PieceGlyphs(pieces[i]), Glyphs(pieces[i + 1..]), left);
  }

  lemma EmbedIsOne(id: nat, left: nat)
    requires left > 0
    ensures CharAt([Emb(id)], left) == 1 && Rest([Emb(id)], left) == left - 1
  {
    assert [Emb(id)][1..] == [];
  }

  method PieceChars(piece: Piece, left: nat) returns (chars: nat, left': nat)
    requires left > 0
    ensures chars == CharAt(PieceGlyphs(piece), left) && left' == Rest(PieceGlyphs(piece), left)
  {
    match piece
    case Str(s) => chars, left' := StringChars(s, left);
    case Embed(id) =>
      EmbedIsOne(id, left);
      chars, left' := 1, left - 1;
  }

  /** The character index of a document index. */
  method ToChars(pieces: seq<Piece>, units: nat) returns (chars: nat)
    ensures chars == CharAt(Glyphs(pieces), units)
  {
    var left := units;
    chars := 0;
    var i := 0;
    ghost var target := CharAt(Glyphs(pieces), units);
    assert pieces[0..] == pieces;
    while i < |pieces|
      invariant 0 <= i <= |pieces|
      invariant chars + CharAt(Glyphs(pieces[i..]), left) == target
    {
      if left == 0 { return; }
      CharsStep(pieces, i, left);
      var more, left' := PieceChars(pieces[i], left);
      chars, left := chars + more, left';
      i := i + 1;
    }
    assert pieces[i..] == [];
  }

  // ---------------------------------------------------------------- the shared text

  lemma InsertThroughUnits(glyphs: seq<Glyph>, k: nat, text: seq<Glyph>)
    requires k <= |glyphs|
    ensures UnitsAt(glyphs, k) <= |EncodeAll(glyphs)|
    ensures EncodeAll(glyphs)[..UnitsAt(glyphs, k)] + EncodeAll(text) + EncodeAll(glyphs)[UnitsAt(glyphs, k)..]
         == EncodeAll(glyphs[..k] + text + glyphs[k..])
  {
    EncodeSplit(glyphs, k);
    EncodeConcat(glyphs[..k], text);
    EncodeConcat(glyphs[..k] + text, glyphs[k..]);
  }

  lemma DeleteThroughUnits(glyphs: seq<Glyph>, from: nat, to: nat)
    requires from <= to <= |glyphs|
    ensures UnitsAt(glyphs, from) <= UnitsAt(glyphs, to) <= |EncodeAll(glyphs)|
    ensures UnitsAt(glyphs, from) == UnitsAt(glyphs, to) <==> from == to
    ensures EncodeAll(glyphs)[..UnitsAt(glyphs, from)] + EncodeAll(glyphs)[UnitsAt(glyphs, to)..]
         == EncodeAll(glyphs[..from] + glyphs[to..])
  {
    EncodeSplit(glyphs, from);
    EncodeSplit(glyphs, to);
    EncodeConcat(glyphs[..from], glyphs[to..]);
    if from < to { UnitsAreMonotone(glyphs, from, to); }
  }

  /** A shared text: the document holds units; a caller sees characters. */
  class SharedText {
    var units: seq<Unit>
    ghost var glyphs: seq<Glyph>

    ghost predicate Valid() reads this { units == EncodeAll(glyphs) }

    constructor ()
      ensures Valid() && glyphs == []
    {
      units, glyphs := [], [];
    }

    /** `pieces` is what the text's diff lists; -1 appends without walking it. */
    method EndOrUnits(index: int, pieces: seq<Piece>) returns (at: nat)
      requires Valid() && EncodeAll(Glyphs(pieces)) == units
      ensures at == UnitsAt(glyphs, InsertIndex(index, |glyphs|))
    {
      EncodingIsInjective(Glyphs(pieces), glyphs);
      UnitsEnds(glyphs);
      if index == -1 {
        at := |units|;
      } else {
        var len := CharLen(pieces);
        at := ToUnits(pieces, InsertIndex(index, len));
      }
    }

    /** A clamped insert on the characters. */
    method InsertAt(index: int, text: seq<Scalar>, pieces: seq<Piece>)
      requires Valid() && EncodeAll(Glyphs(pieces)) == units
      modifies this
      ensures Valid()
      ensures var k := InsertIndex(index, |old(glyphs)|);
        glyphs == old(glyphs)[..k] + Chars(text) + old(glyphs)[k..]
    {
      var at := EndOrUnits(index, pieces);
      ghost var k := InsertIndex(index, |glyphs|);
      InsertThroughUnits(glyphs, k, Chars(text));
      units := units[..at] + EncodeAll(Chars(text)) + units[at..];
      glyphs := glyphs[..k] + Chars(text) + glyphs[k..];
    }

    /** A slice-style delete on the characters; nothing when the index is outside. */
    method Delete(index: int, length: int, pieces: seq<Piece>)
      requires Valid() && EncodeAll(Glyphs(pieces)) == units
      modifies this
      ensures Valid()
      ensures var span := DeleteSpan(index, length, |old(glyphs)|);
        glyphs == if span.None? then old(glyphs) else old(glyphs)[..span.value.0] + old(glyphs)[span.value.1..]
    {
      EncodingIsInjective(Glyphs(pieces), glyphs);
      var len := CharLen(pieces);
      var span := DeleteSpan(index, length, len);
      if span.None? { return; }
      var from := ToUnits(pieces, span.value.0);
      var to := ToUnits(pieces, span.value.1);
      DeleteThroughUnits(glyphs, span.value.0, span.value.1);
      assert span.value.0 == span.value.1 ==> glyphs == glyphs[..span.value.0] + glyphs[span.value.1..];
      if to > from {
        units := units[..from] + units[to..];
        glyphs := glyphs[..span.value.0] + glyphs[span.value.1..];
      }
    }
  }
}
