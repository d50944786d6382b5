/** Which blocks of a root sequence an update touched, as ordinals. */
module Blocks {
  import opened Common

  /** A stretch of the root as a diff or a delta names it: text of some length in UTF-16 units, a
      block, or any other embed. */
  datatype Chunk = Str(units: nat) | Block(id: nat) | Embed

  /** The root, one cell for each document index. */
  datatype Cell = Unit | BlockCell(id: nat) | EmbedCell

  function CellsOf(chunk: Chunk): seq<Cell> {
    match chunk
    case Str(units) => seq(units, i => Unit)
    case Block(id) => [BlockCell(id)]
    case Embed => [EmbedCell]
  }

  function Cells(chunks: seq<Chunk>): seq<Cell> {
    if chunks == [] then [] else CellsOf(chunks[0]) + Cells(chunks[1..])
  }

  /** How many of the cells are blocks. */
  function Count(cells: seq<Cell>): nat {
    if cells == [] then 0 else (if cells[0].BlockCell? then 1 else 0) + Count(cells[1..])
  }

  function Ids(cells: seq<Cell>): set<nat> { set c <- cells | c.BlockCell? :: c.id }

  /** A block is in the root once. */
  ghost predicate Distinct(cells: seq<Cell>) {
    forall i, j :: 0 <= i < j < |cells| && cells[i].BlockCell? && cells[j].BlockCell? ==> cells[i].id != cells[j].id
  }

  lemma {:induction false} CountConcat(a: seq<Cell>, b: seq<Cell>)
    ensures Count(a + b) == Count(a) + Count(b)
    decreases |a|
  {
    if a == [] {
      assert a + b == b;
    } else {
      assert (a + b)[1..] == a[1..] + b;
      CountConcat(a[1..], b);
    }
  }

  // ---------------------------------------------------------------- Children

  /** A child: the document index it starts at, and whether it is a block. */
  datatype Child = Child(at: nat, block: bool)

  /** Children that are blocks and start in `from..to`; with `from` zero, the ordinal at `to`. */
  function BlocksIn(children: seq<Child>, from: nat, to: nat): nat {
    if children == [] then 0
    else (if children[0].block && from <= children[0].at < to then 1 else 0) + BlocksIn(children[1..], from, to)
  }

  lemma {:induction false} BlocksInConcat(a: seq<Child>, b: seq<Child>, from: nat, to: nat)
    ensures BlocksIn(a + b, from, to) == BlocksIn(a, from, to) + BlocksIn(b, from, to)
    decreases |a|
  {
    if a == [] {
      assert a + b == b;
    } else {
      assert (a + b)[1..] == a[1..] + b;
      BlocksInConcat(a[1..], b, from, to);
    }
  }

  /** The listing answers range questions as the cells do. */
  ghost predicate Lists(children: seq<Child>, cells: seq<Cell>) {
    forall from: nat, to: nat :: from <= to ==>
      BlocksIn(children, from, to) == Count(cells[Min(from, |cells|)..Min(to, |cells|)])
  }

  lemma UnitsCount(cells: seq<Cell>)
    requires forall i :: 0 <= i < |cells| ==> !cells[i].BlockCell?
    ensures Count(cells) == 0
  {
  }

  lemma SliceConcat(a: seq<Cell>, b: seq<Cell>, from: nat, to: nat)
    requires from <= to
    ensures (a + b)[Min(from, |a + b|)..Min(to, |a + b|)]
         == a[Min(from, |a|)..Min(to, |a|)] + b[Min(from - Min(from, |a|), |b|)..Min(to - Min(to, |a|), |b|)]
  {
    var all := a + b;
    var f, t := Min(from, |all|), Min(to, |all|);
    if to <= |a| {
      assert all[f..t] == a[f..t] + b[0..0];
    } else if from <= |a| {
      assert all[f..t] == all[f..|a|] + all[|a|..t];
      assert all[f..|a|] == a[f..|a|] && all[|a|..t] == b[0..t - |a|];
    } else {
      assert all[f..t] == b[f - |a|..t - |a|];
      assert a[|a|..|a|] == [];
    }
  }

  lemma ChunkCount(chunk: Chunk, f: nat, t: nat)
    requires f <= t <= |CellsOf(chunk)|
    ensures Count(CellsOf(chunk)[f..t]) == if chunk.Block? then t - f else 0
  {
    var more := CellsOf(chunk);
    if chunk.Block? {
      assert more[f..t] == if f < t then [more[0]] else [];
      assert [more[0]][1..] == [];
    } else {
      UnitsCount(more[f..t]);
    }
  }

  lemma ListsMore(children: seq<Child>, cells: seq<Cell>, chunk: Chunk)
    requires Lists(children, cells)
    ensures Lists(children + [Child(|cells|, chunk.Block?)], cells + CellsOf(chunk))
  {
    var more, all := CellsOf(chunk), cells + CellsOf(chunk);
    var last := [Child(|cells|, chunk.Block?)];
    forall from: nat, to: nat | from <= to
      ensures BlocksIn(children + last, from, to) == Count(all[Min(from, |all|)..Min(to, |all|)])
    {
      BlocksInConcat(children, last, from, to);
      assert last[1..] == [];
      var f, t := Min(from, |cells|), Min(to, |cells|);
      var mf, mt := Min(from - f, |more|), Min(to - t, |more|);
      SliceConcat(cells, more, from, to);
      CountConcat(cells[f..t], more[mf..mt]);
      ChunkCount(chunk, mf, mt);
    }
  }

  lemma CellsStep(chunks: seq<Chunk>, i: nat)
    requires i < |chunks|
    ensures Cells(chunks[i..]) == CellsOf(chunks[i]) + Cells(chunks[i + 1..])
  {
    assert chunks[i..][1..] == chunks[i + 1..];
  }

  method ChildrenOf(chunks: seq<Chunk>) returns (children: seq<Child>)
    ensures Lists(children, Cells(chunks))
  {
    children := [];
    var at, i := 0, 0;
    ghost var seen: seq<Cell> := [];
    CellsUpTo(chunks, 0);
    while i < |chunks|
      invariant 0 <= i <= |chunks| && |seen| == at && seen == Cells(chunks[..i])
      invariant Lists(children, seen)
    {
      ListsMore(children, seen, chunks[i]);
      CellsUpTo(chunks, i);
      children := children + [Child(at, chunks[i].Block?)];
      at := at + if chunks[i].Str? then chunks[i].units else 1;
      seen := seen + CellsOf(chunks[i]);
      i := i + 1;
    }
    assert chunks[..i] == chunks;
  }

  lemma CellsUpTo(chunks: seq<Chunk>, i: nat)
    requires i <= |chunks|
    ensures Cells(chunks[..0]) == []
    ensures i < |chunks| ==> Cells(chunks[..i + 1]) == Cells(chunks[..i]) + CellsOf(chunks[i])
  {
    if i < |chunks| {
      assert chunks[..i + 1] == chunks[..i] + [chunks[i]];
      CellsConcat(chunks[..i], [chunks[i]]);
      assert [chunks[i]][1..] == [];
    }
  }

  lemma {:induction false} CellsConcat(a: seq<Chunk>, b: seq<Chunk>)
    ensures Cells(a + b) == Cells(a) + Cells(b)
    decreases |a|
  {
    if a == [] {
      assert a + b == b;
    } else {
      assert (a + b)[1..] == a[1..] + b;
      CellsConcat(a[1..], b);
    }
  }

  // ---------------------------------------------------------------- deltas

  /** An event on the root itself, as its delta lists it. */
  datatype Delta = Retain(n: nat) | Added(items: seq<Chunk>) | Deleted(n: nat)

  ghost predicate Fits(was: seq<Cell>, delta: seq<Delta>)
    decreases |delta|
  {
    if delta == [] then true
    else if delta[0].Added? then Fits(was, delta[1..])
    else delta[0].n <= |was| && Fits(was[delta[0].n..], delta[1..])
  }

  /** The root a delta leaves; what it does not reach is retained. */
  ghost function After(was: seq<Cell>, delta: seq<Delta>): seq<Cell>
    requires Fits(was, delta)
    decreases |delta|
  {
    if delta == [] then was
    else
      match delta[0]
      case Retain(n) => was[..n] + After(was[n..], delta[1..])
      case Added(items) => Cells(items) + After(was, delta[1..])
      case Deleted(n) => After(was[n..], delta[1..])
  }

  function Fresh(delta: seq<Delta>): set<nat> {
    if delta == [] then {}
    else (if delta[0].Added? then Ids(Cells(delta[0].items)) else {}) + Fresh(delta[1..])
  }

  /** A block of the new root that the old one did not hold. */
  ghost predicate NewAt(was: seq<Cell>, now: seq<Cell>, j: nat, ordinal: nat) {
    j < |now| && now[j].BlockCell? && now[j].id !in Ids(was) && Count(now[..j]) == ordinal
  }

  /** A block of the old root that the new one does not hold. */
  ghost predicate GoneAt(was: seq<Cell>, now: seq<Cell>, i: nat, ordinal: nat) {
    i < |was| && was[i].BlockCell? && was[i].id !in Ids(now) && Count(was[..i]) == ordinal
  }

  /** An ordinal to report: the new one of a block that came, or the old one of a block that went. */
  ghost predicate Touched(was: seq<Cell>, now: seq<Cell>, old': nat, new': nat, ordinal: nat) {
    || (exists j: nat :: j < new' && NewAt(was, now, j, ordinal))
    || (exists i: nat :: i < old' && GoneAt(was, now, i, ordinal))
  }

  ghost predicate Reports(hits: seq<nat>, earlier: seq<nat>, was: seq<Cell>, now: seq<Cell>, old': nat, new': nat) {
    forall o: nat :: o in hits <==> o in earlier || Touched(was, now, old', new', o)
  }

  lemma IdAt(cells: seq<Cell>, i: nat)
    requires i < |cells| && cells[i].BlockCell?
    ensures cells[i].id in Ids(cells)
  {
  }

  /** Retained blocks are in both roots. */
  lemma RetainStep(hits: seq<nat>, earlier: seq<nat>, was: seq<Cell>, now: seq<Cell>, old': nat, new': nat, n: nat)
    requires old' + n <= |was| && new' + n <= |now| && was[old'..old' + n] == now[new'..new' + n]
    requires Reports(hits, earlier, was, now, old', new')
    ensures Reports(hits, earlier, was, now, old' + n, new' + n)
  {
    forall j: nat, o: nat | new' <= j < new' + n ensures !NewAt(was, now, j, o) {
      assert now[j] == now[new'..new' + n][j - new'] == was[old' + (j - new')];
    }
    forall i: nat, o: nat | old' <= i < old' + n ensures !GoneAt(was, now, i, o) {
      assert was[i] == was[old'..old' + n][i - old'] == now[new' + (i - old')];
    }
    forall o: nat ensures Touched(was, now, old' + n, new' + n, o) <==> Touched(was, now, old', new', o) {
    }
  }

  /** An added child reports itself when it is a block, and nothing otherwise. */
  lemma AddStep(hits: seq<nat>, earlier: seq<nat>, was: seq<Cell>, now: seq<Cell>, old': nat, new': nat, item: Chunk, len: nat)
    requires len == |CellsOf(item)| && new' + len <= |now| && now[new'..new' + len] == CellsOf(item)
    requires item.Block? ==> item.id !in Ids(was)
    requires Reports(hits, earlier, was, now, old', new')
    ensures Reports(hits + (if item.Block? then [Count(now[..new'])] else []), earlier, was, now, old', new' + len)
  {
    assert forall k: nat :: k < len ==> now[new' + k] == CellsOf(item)[k];
    forall o: nat
      ensures Touched(was, now, old', new' + len, o) <==>
        Touched(was, now, old', new', o) || (item.Block? && o == Count(now[..new']))
    {
      forall j: nat | new' <= j < new' + len ensures NewAt(was, now, j, o) <==> item.Block? && o == Count(now[..new']) {
        assert now[j] == CellsOf(item)[j - new'];
      }
      assert item.Block? && o == Count(now[..new']) ==> NewAt(was, now, new', o);
    }
  }

  /** The numbers from `first` on. */
  function From(first: nat, n: nat): (r: seq<nat>)
    ensures forall o: nat :: o in r <==> first <= o < first + n
    decreases n
  {
    if n == 0 then [] else [first] + From(first + 1, n - 1)
  }

  /** Consecutive blocks have consecutive ordinals, whatever lies between them. */
  lemma {:induction false} RangeOrdinals(cells: seq<Cell>, from: nat, n: nat, o: nat)
    requires from + n <= |cells|
    ensures Count(cells[..from]) <= o < Count(cells[..from]) + Count(cells[from..from + n]) <==>
      exists i: nat :: from <= i < from + n && cells[i].BlockCell? && Count(cells[..i]) == o
    decreases n
  {
    if n == 0 {
      assert cells[from..from + n] == [];
    } else {
      var first := if cells[from].BlockCell? then 1 else 0;
      assert cells[from..from + n][1..] == cells[from + 1..from + n];
      assert cells[..from + 1] == cells[..from] + [cells[from]];
      CountConcat(cells[..from], [cells[from]]);
      assert [cells[from]][1..] == [];
      assert from + 1 + (n - 1) == from + n;
      RangeOrdinals(cells, from + 1, n - 1, o);
      if cells[from].BlockCell? && Count(cells[..from]) == o { assert from <= from < from + n; }
    }
  }

  lemma DeleteStep(hits: seq<nat>, earlier: seq<nat>, was: seq<Cell>, now: seq<Cell>, old': nat, new': nat, n: nat)
    requires old' + n <= |was| && Ids(was[old'..old' + n]) !! Ids(now)
    requires Reports(hits, earlier, was, now, old', new')
    ensures Reports(hits + From(Count(was[..old']), Count(was[old'..old' + n])), earlier, was, now, old' + n, new')
  {
    var gone := From(Count(was[..old']), Count(was[old'..old' + n]));
    forall i: nat, o: nat | old' <= i < old' + n
      ensures GoneAt(was, now, i, o) <==> was[i].BlockCell? && Count(was[..i]) == o
    {
      assert was[i] == was[old'..old' + n][i - old'];
    }
    forall o: nat ensures Touched(was, now, old' + n, new', o) <==> Touched(was, now, old', new', o) || o in gone {
      RangeOrdinals(was, old', n, o);
      if o in gone {
        var i: nat :| old' <= i < old' + n && was[i].BlockCell? && Count(was[..i]) == o;
        assert GoneAt(was, now, i, o);
      }
    }
  }

  lemma IdsConcat(a: seq<Cell>, b: seq<Cell>)
    ensures Ids(a + b) == Ids(a) + Ids(b)
  {
    forall id ensures id in Ids(a + b) <==> id in Ids(a) || id in Ids(b) {
      assert BlockCell(id) in a + b <==> BlockCell(id) in a || BlockCell(id) in b;
    }
  }

  lemma IdsSplit(cells: seq<Cell>, n: nat)
    requires n <= |cells|
    ensures Ids(cells) == Ids(cells[..n]) + Ids(cells[n..])
  {
    assert cells == cells[..n] + cells[n..];
    IdsConcat(cells[..n], cells[n..]);
  }

  /** A delta brings in no block but the ones it adds. */
  lemma {:induction false} AfterIds(was: seq<Cell>, delta: seq<Delta>)
    requires Fits(was, delta)
    ensures Ids(After(was, delta)) <= Ids(was) + Fresh(delta)
    decreases |delta|
  {
    if delta != [] {
      match delta[0]
      case Retain(n) =>
        AfterIds(was[n..], delta[1..]);
        IdsSplit(was, n);
        IdsConcat(was[..n], After(was[n..], delta[1..]));
      case Added(items) =>
        AfterIds(was, delta[1..]);
        IdsConcat(Cells(items), After(was, delta[1..]));
      case Deleted(n) =>
        AfterIds(was[n..], delta[1..]);
        IdsSplit(was, n);
    }
  }

  lemma DistinctSplit(cells: seq<Cell>, from: nat, n: nat)
    requires Distinct(cells) && from + n <= |cells|
    ensures Ids(cells[from..from + n]) !! Ids(cells[..from])
    ensures Ids(cells[from..from + n]) !! Ids(cells[from + n..])
  {
  }

  /** How far the walk has come. */
  ghost predicate Walked(was: seq<Cell>, now: seq<Cell>, delta: seq<Delta>, rest: seq<Delta>, old': nat, new': nat) {
    && old' <= |was| && new' <= |now| && Fresh(rest) <= Fresh(delta)
    && Fits(was[old'..], rest) && now[new'..] == After(was[old'..], rest)
    && Ids(now[..new']) <= Ids(was[..old']) + Fresh(delta)
  }

  lemma WalkRetain(was: seq<Cell>, now: seq<Cell>, delta: seq<Delta>, rest: seq<Delta>, old': nat, new': nat, n: nat)
    requires Walked(was, now, delta, rest, old', new') && rest != [] && rest[0] == Retain(n)
    ensures old' + n <= |was| && new' + n <= |now| && was[old'..old' + n] == now[new'..new' + n]
    ensures Walked(was, now, delta, rest[1..], old' + n, new' + n)
  {
    var tail := After(was[old'..][n..], rest[1..]);
    assert was[old'..][n..] == was[old' + n..] && was[old'..][..n] == was[old'..old' + n];
    assert now[new'..] == was[old'..old' + n] + tail;
    assert now[new'..new' + n] == now[new'..][..n] && now[new' + n..] == now[new'..][n..];
    assert now[..new' + n] == now[..new'] + now[new'..new' + n];
    assert was[..old' + n] == was[..old'] + was[old'..old' + n];
    IdsConcat(now[..new'], now[new'..new' + n]);
    IdsConcat(was[..old'], was[old'..old' + n]);
  }

  lemma WalkDelete(was: seq<Cell>, now: seq<Cell>, delta: seq<Delta>, rest: seq<Delta>, old': nat, new': nat, n: nat)
    requires Walked(was, now, delta, rest, old', new') && rest != [] && rest[0] == Deleted(n)
    requires Distinct(was) && Fresh(delta) !! Ids(was)
    ensures old' + n <= |was| && Ids(was[old'..old' + n]) !! Ids(now)
    ensures Walked(was, now, delta, rest[1..], old' + n, new')
  {
    assert was[old'..][n..] == was[old' + n..];
    AfterIds(was[old' + n..], rest[1..]);
    DistinctSplit(was, old', n);
    IdsSplit(now, new');
    IdsSplit(was, old' + n);
    assert was[..old' + n] == was[..old'] + was[old'..old' + n];
    IdsConcat(was[..old'], was[old'..old' + n]);
  }

  /** An addition, seen as its children one after another. */
  lemma WalkAdd(was: seq<Cell>, now: seq<Cell>, delta: seq<Delta>, rest: seq<Delta>, old': nat, new': nat, items: seq<Chunk>)
    requires Walked(was, now, delta, rest, old', new') && rest != [] && rest[0] == Added(items)
    requires Fresh(delta) !! Ids(was)
    ensures Ahead(items, was, now, new')
    ensures Walked(was, now, delta, rest[1..], old', new' + |Cells(items)|)
  {
    var m := |Cells(items)|;
    assert now[new'..] == Cells(items) + After(was[old'..], rest[1..]);
    assert now[new'..new' + m] == now[new'..][..m] && now[new' + m..] == now[new'..][m..];
    assert now[..new' + m] == now[..new'] + now[new'..new' + m];
    IdsConcat(now[..new'], now[new'..new' + m]);
  }

  /** The children of one addition. */
  method AddItems(items: seq<Chunk>, after: seq<Child>, hits: seq<nat>, new': nat,
                  ghost earlier: seq<nat>, ghost was: seq<Cell>, ghost now: seq<Cell>, ghost old': nat)
    returns (hits': seq<nat>, end: nat)
    requires Lists(after, now) && Reports(hits, earlier, was, now, old', new')
    requires Ahead(items, was, now, new')
    ensures end == new' + |Cells(items)| && Reports(hits', earlier, was, now, old', end)
  {
    hits', end := hits, new';
    var i := 0;
    assert items[0..] == items;
    while i < |items|
      invariant 0 <= i <= |items| && Ahead(items[i..], was, now, end) && end + |Cells(items[i..])| == new' + |Cells(items)|
      invariant Reports(hits', earlier, was, now, old', end)
    {
      var item := items[i];
      var len := if item.Str? then item.units else 1;
      AddItem(items, i, was, now, end, len);
      AddStep(hits', earlier, was, now, old', end, item, len);
      hits' := AddedHit(item, after, hits', end, now);
      end := end + len;
      i := i + 1;
    }
    assert items[i..] == [];
  }

  method AddedHit(item: Chunk, after: seq<Child>, hits: seq<nat>, at: nat, ghost now: seq<Cell>) returns (hits': seq<nat>)
    requires Lists(after, now) && at <= |now|
    ensures hits' == hits + if item.Block? then [Count(now[..at])] else []
  {
    hits' := hits;
    assert hits + [] == hits && now[0..at] == now[..at];
    if item.Block? { hits' := hits' + [BlocksIn(after, 0, at)]; }
  }

  /** The children still to add are the cells that come next, and new to the root. */
  ghost predicate Ahead(items: seq<Chunk>, was: seq<Cell>, now: seq<Cell>, at: nat) {
    && at + |Cells(items)| <= |now| && now[at..at + |Cells(items)|] == Cells(items)
    && Ids(Cells(items)) !! Ids(was)
  }

  lemma AddItem(items: seq<Chunk>, i: nat, was: seq<Cell>, now: seq<Cell>, at: nat, len: nat)
    requires i < |items| && len == |CellsOf(items[i])| && Ahead(items[i..], was, now, at)
    ensures len + |Cells(items[i + 1..])| == |Cells(items[i..])| && now[at..at + len] == CellsOf(items[i])
    ensures Ahead(items[i + 1..], was, now, at + len) && (items[i].Block? ==> items[i].id !in Ids(was))
  {
    CellsStep(items, i);
    SliceParts(now, at, CellsOf(items[i]), Cells(items[i + 1..]));
    IdsConcat(CellsOf(items[i]), Cells(items[i + 1..]));
    if items[i].Block? { IdAt(CellsOf(items[i]), 0); }
  }

  lemma SliceParts(now: seq<Cell>, at: nat, a: seq<Cell>, b: seq<Cell>)
    requires at + |a + b| <= |now| && now[at..at + |a + b|] == a + b
    ensures now[at..at + |a|] == a && now[at + |a|..at + |a| + |b|] == b
  {
    var all := now[at..at + |a + b|];
    assert now[at..at + |a|] == all[..|a|] && now[at + |a|..at + |a| + |b|] == all[|a|..];
  }

  /** Blocks that start in a removed stretch, under the ordinals they had. */
  method RemoveCells(before: seq<Child>, n: nat, hits: seq<nat>, old': nat,
                     ghost earlier: seq<nat>, ghost was: seq<Cell>, ghost now: seq<Cell>, ghost new': nat)
    returns (hits': seq<nat>)
    requires Lists(before, was) && Reports(hits, earlier, was, now, old', new')
    requires old' + n <= |was| && Ids(was[old'..old' + n]) !! Ids(now)
    ensures Reports(hits', earlier, was, now, old' + n, new')
  {
    DeleteStep(hits, earlier, was, now, old', new', n);
    assert was[0..old'] == was[..old'];
    hits' := hits + From(BlocksIn(before, 0, old'), BlocksIn(before, old', old' + n));
  }

  lemma WalkStart(was: seq<Cell>, now: seq<Cell>, delta: seq<Delta>, hits: seq<nat>)
    requires Fits(was, delta) && now == After(was, delta)
    ensures Walked(was, now, delta, delta, 0, 0) && Reports(hits, hits, was, now, 0, 0)
  {
    assert was[0..] == was && now[0..] == now;
  }

  /** One entry of the delta. */
  method WalkOne(before: seq<Child>, after: seq<Child>, step: Delta, hits: seq<nat>, old': nat, new': nat, ghost earlier: seq<nat>,
                 ghost was: seq<Cell>, ghost now: seq<Cell>, ghost delta: seq<Delta>, ghost rest: seq<Delta>)
    returns (hits': seq<nat>, old'': nat, new'': nat)
    requires Lists(before, was) && Lists(after, now) && Distinct(was) && Fresh(delta) !! Ids(was)
    requires rest != [] && rest[0] == step && Walked(was, now, delta, rest, old', new')
    requires Reports(hits, earlier, was, now, old', new')
    ensures Walked(was, now, delta, rest[1..], old'', new'') && Reports(hits', earlier, was, now, old'', new'')
  {
    hits', old'', new'' := hits, old', new';
    match step
    case Retain(n) =>
      WalkRetain(was, now, delta, rest, old', new', n);
      RetainStep(hits, earlier, was, now, old', new', n);
      old'', new'' := old' + n, new' + n;
    case Added(items) =>
      WalkAdd(was, now, delta, rest, old', new', items);
      hits', new'' := AddItems(items, after, hits, new', earlier, was, now, old');
    case Deleted(n) =>
      WalkDelete(was, now, delta, rest, old', new', n);
      hits' := RemoveCells(before, n, hits, old', earlier, was, now, new');
      old'' := old' + n;
  }

  /** The delta walk reports exactly the new ordinals of blocks that came and the old ordinals of
      blocks that went, for every root and every delta. */
  method RootPositions(before: seq<Child>, after: seq<Child>, delta: seq<Delta>, hits: seq<nat>,
                       ghost was: seq<Cell>, ghost now: seq<Cell>) returns (hits': seq<nat>)
    requires Lists(before, was) && Lists(after, now)
    requires Fits(was, delta) && now == After(was, delta)
    requires Distinct(was) && Fresh(delta) !! Ids(was)
    ensures Reports(hits', hits, was, now, |was|, |now|)
  {
    hits' := hits;
    var old': nat, new': nat, k := 0, 0, 0;
    WalkStart(was, now, delta, hits);
    assert delta[0..] == delta;
    while k < |delta|
      invariant 0 <= k <= |delta| && Walked(was, now, delta, delta[k..], old', new')
      invariant Reports(hits', hits, was, now, old', new')
    {
      assert delta[k..][1..] == delta[k + 1..];
      hits', old', new' := WalkOne(before, after, delta[k], hits', old', new', hits, was, now, delta, delta[k..]);
      k := k + 1;
    }
    WalkEnd(was, now, delta, old', new');
    RetainStep(hits', hits, was, now, old', new', |was| - old');
  }

  lemma WalkEnd(was: seq<Cell>, now: seq<Cell>, delta: seq<Delta>, old': nat, new': nat)
    requires Walked(was, now, delta, [], old', new')
    ensures |was| - old' == |now| - new' && was[old'..|was|] == now[new'..|now|]
  {
    assert was[old'..|was|] == was[old'..] && now[new'..|now|] == now[new'..];
  }

  // ---------------------------------------------------------------- one update

  /** What changed: something inside the child at an index of the new root, something reached by key,
      or the root's own sequence. */
  datatype Event = Inside(index: nat) | ByKey | OnRoot(delta: seq<Delta>)

  ghost predicate Sound(was: seq<Cell>, now: seq<Cell>, e: Event) {
    e.OnRoot? ==> Fits(was, e.delta) && now == After(was, e.delta) && Fresh(e.delta) !! Ids(was)
  }

  /** An ordinal the caller should hear about. */
  ghost predicate Changed(was: seq<Cell>, now: seq<Cell>, e: Event, o: nat) {
    match e
    case Inside(i) => i < |now| && now[i].BlockCell? && Count(now[..i]) == o
    case ByKey => false
    case OnRoot(_) => Touched(was, now, |was|, |now|, o)
  }

  lemma IsBlockAt(children: seq<Child>, cells: seq<Cell>, i: nat)
    requires Lists(children, cells)
    ensures BlocksIn(children, i, i + 1) > 0 <==> i < |cells| && cells[i].BlockCell?
    ensures i < |cells| ==> BlocksIn(children, 0, i) == Count(cells[..i])
  {
    if i < |cells| {
      assert cells[i..i + 1] == [cells[i]] && [cells[i]][1..] == [];
      assert cells[0..i] == cells[..i];
    }
  }

  /** One event of the update. */
  method OneEvent(before: seq<Child>, after: seq<Child>, e: Event, hits: seq<nat>, ghost was: seq<Cell>, ghost now: seq<Cell>)
    returns (hits': seq<nat>)
    requires Lists(before, was) && Lists(after, now) && Distinct(was) && Sound(was, now, e)
    ensures forall o: nat :: o in hits' <==> o in hits || Changed(was, now, e, o)
  {
    hits' := hits;
    match e
    case Inside(i) =>
      IsBlockAt(after, now, i);
      if BlocksIn(after, i, i + 1) > 0 { hits' := hits + [BlocksIn(after, 0, i)]; }
    case ByKey =>
    case OnRoot(delta) => hits' := RootPositions(before, after, delta, hits, was, now);
  }

  /** Some event of a sequence calls for an ordinal. */
  ghost predicate Called(was: seq<Cell>, now: seq<Cell>, events: seq<Event>, o: nat) {
    exists e :: e in events && Changed(was, now, e, o)
  }

  lemma CalledSnoc(was: seq<Cell>, now: seq<Cell>, events: seq<Event>, k: nat, o: nat)
    requires k < |events|
    ensures Called(was, now, events[..k + 1], o) <==> Called(was, now, events[..k], o) || Changed(was, now, events[k], o)
  {
    assert events[..k + 1] == events[..k] + [events[k]];
    assert events[k] in events[..k + 1];
  }

  predicate Ascending(xs: seq<nat>) { forall i, j :: 0 <= i < j < |xs| ==> xs[i] < xs[j] }

  function Insert(xs: seq<nat>, x: nat): (r: seq<nat>)
    requires Ascending(xs)
    ensures Ascending(r) && forall y :: y in r <==> y in xs || y == x
  {
    if xs == [] then [x]
    else if x < xs[0] then AscendingCons(x, xs); [x] + xs
    else if x == xs[0] then xs
    else
      var rest := Insert(xs[1..], x);
      AscendingCons(xs[0], rest);
      [xs[0]] + rest
  }

  lemma AscendingCons(x: nat, xs: seq<nat>)
    requires Ascending(xs) && forall y :: y in xs ==> x < y
    ensures Ascending([x] + xs)
  {
    var all := [x] + xs;
    forall i, j | 0 <= i < j < |all| ensures all[i] < all[j] {
      assert all[j] == xs[j - 1] && xs[j - 1] in xs;
      assert i > 0 ==> all[i] == xs[i - 1];
    }
  }

  /** Sorted, and each ordinal once. */
  method SortedDistinct(hits: seq<nat>) returns (out: seq<nat>)
    ensures Ascending(out) && forall o: nat :: o in out <==> o in hits
  {
    out := [];
    var i := 0;
    while i < |hits|
      invariant 0 <= i <= |hits| && Ascending(out)
      invariant forall o: nat :: o in out <==> o in hits[..i]
    {
      assert hits[..i + 1] == hits[..i] + [hits[i]];
      out := Insert(out, hits[i]);
      i := i + 1;
    }
    assert hits[..i] == hits;
  }

  /** The ordinals one update touched: inside a block, a block added, a block removed. */
  method ApplyUpdateChanges(wasChunks: seq<Chunk>, nowChunks: seq<Chunk>, events: seq<Event>) returns (changed: seq<nat>)
    requires Distinct(Cells(wasChunks))
    requires forall e :: e in events ==> Sound(Cells(wasChunks), Cells(nowChunks), e)
    ensures Ascending(changed) && forall o: nat :: o in changed <==> Called(Cells(wasChunks), Cells(nowChunks), events, o)
  {
    ghost var was, now := Cells(wasChunks), Cells(nowChunks);
    var before := ChildrenOf(wasChunks);
    var after := ChildrenOf(nowChunks);
    var hits: seq<nat> := [];
    var k := 0;
    while k < |events|
      invariant 0 <= k <= |events|
      invariant forall o: nat :: o in hits <==> Called(was, now, events[..k], o)
    {
      forall o: nat
        ensures Called(was, now, events[..k + 1], o) <==> Called(was, now, events[..k], o) || Changed(was, now, events[k], o)
      {
        CalledSnoc(was, now, events, k, o);
      }
      hits := OneEvent(before, after, events[k], hits, was, now);
      k := k + 1;
    }
    assert events[..k] == events;
    changed := SortedDistinct(hits);
  }
}
