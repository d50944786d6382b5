/** The decisions of `protocol.rs`: what a document can serve gap-free, whether an update would
    integrate, and whether it carries anything the document lacks. */
module Protocol {
  import opened Crdt

  predicate HasPending(doc: Doc) { doc.Pending() }

  /** The integrated state diffed against `sv`.  With something parked, the state is rebuilt into a
      throwaway document and pruned there. */
  function IntegratedUpdate(doc: Doc, sv: StateVector): Update
    requires doc.Valid()
  {
    if !HasPending(doc) then Diff(doc.Encode(), sv)
    else
      var clean := EMPTY_DOC.Apply(doc.Encode());
      var pruned := Doc(clean.shown, {});
      Diff(pruned.Encode(), sv)
  }

  /** The document's clocks reach the lowest clock `u` carries, for every client in `u`. */
  predicate LowerCovered(sv: StateVector, u: Update) {
    forall c :: c in Clients(u) ==> exists i :: i in Ids(u) && i.client == c && i.clock <= At(sv, c)
  }

  /** A throwaway document seeded with the gap-free state, then given the update. */
  function ReadinessProbe(doc: Doc, u: Update): (probe: Doc)
    requires doc.Valid()
    ensures probe.Valid() && probe.Known() == doc.shown + u
  {
    IntegratedUpdateIsGapFree(doc, map[]);
    EMPTY_DOC.Apply(IntegratedUpdate(doc, map[])).Apply(u)
  }

  function UpdateIsReady(doc: Doc, u: Update): bool
    requires doc.Valid()
  {
    if !LowerCovered(Vector(doc.shown), u) then false
    else !HasPending(ReadinessProbe(doc, u))
  }

  predicate HasDeletes(u: Update) { exists o :: o in u && o.Delete? }

  /** An insertion past a non-zero cap: a merged update hiding a hole behind a Skip block. */
  predicate PastCap(u: Update) {
    exists i :: i in Ids(u) && 0 < Clock(u, i.client) <= i.clock
  }

  function UpdateAdvances(doc: Doc, u: Update): bool
    requires doc.Valid()
  {
    if PastCap(u) then true
    else if !HasDeletes(u) && !Covers(Vector(doc.shown), Vector(u)) then true
    else
      var probe := EMPTY_DOC.Apply(doc.Encode());
      var after := probe.Apply(u);
      if HasDeletes(u) then probe.Encode() != after.Encode()
      else if Vector(probe.shown) != Vector(after.shown) then true
      else HasPending(after) != HasPending(probe)
  }

  // ---------------------------------------------------------------- shapes of updates

  /** Every block waits for its client's previous clock. */
  ghost predicate Ordinary(ops: set<Op>) {
    forall o :: o in ops && o.Insert? && o.id.clock > 0 ==> Id(o.id.client, o.id.clock - 1) in o.refs
  }

  /** A client's lowest block waits for its previous clock; later ones may sit behind a Skip. */
  ghost predicate LeadOrdinary(u: Update) {
    forall o :: o in u && o.Insert? && o.id.clock > 0 ==>
      || Id(o.id.client, o.id.clock - 1) in o.refs
      || exists i :: i in Ids(u) && i.client == o.id.client && i.clock < o.id.clock
  }

  /** Each client's clocks form one run. */
  ghost predicate Contiguous(u: Update) {
    forall i, j, m: nat :: i in Ids(u) && j in Ids(u) && i.client == j.client && i.clock <= m <= j.clock
      ==> Id(i.client, m) in Ids(u)
  }

  ghost predicate SkipFree(u: Update) { Ordinary(u) && Contiguous(u) }

  /** No client has a hole below a block. */
  ghost predicate Holeless(ops: set<Op>) {
    forall i, m: nat :: i in Ids(ops) && m <= i.clock ==> Id(i.client, m) in Ids(ops)
  }

  ghost predicate BehindHole(o: Op, ops: set<Op>) {
    o.Insert? && exists m: nat :: m < o.id.clock && Id(o.id.client, m) !in Ids(ops)
  }

  lemma {:induction false} HolelessDown(ops: set<Op>, i: Id, m: nat)
    requires Closed(ops) && Ordinary(ops) && i in Ids(ops) && m <= i.clock
    ensures Id(i.client, m) in Ids(ops)
    decreases i.clock
  {
    if m < i.clock {
      var o :| o in ops && o.Insert? && o.id == i;
      ClosedNeeds(ops, o);
      HolelessDown(ops, Id(i.client, i.clock - 1), m);
    }
  }

  lemma OrdinaryIsHoleless(ops: set<Op>)
    requires Closed(ops) && Ordinary(ops)
    ensures Holeless(ops)
  {
    forall i, m: nat | i in Ids(ops) && m <= i.clock ensures Id(i.client, m) in Ids(ops) {
      HolelessDown(ops, i, m);
    }
  }

  // ---------------------------------------------------------------- what a diff leaves out

  /** A diff is part of what the sender knows, with no block the state vector covers and every deletion. */
  lemma DiffIsNoMore(known: set<Op>, sv: StateVector, o: Op)
    ensures o in Diff(known, sv) ==> o in known
    ensures o in Diff(known, sv) && o.Insert? ==> o.id.clock >= At(sv, o.id.client)
    ensures o in known && o.Delete? ==> o in Diff(known, sv)
  {
  }

  /** To a peer that has integrated the same blocks, a document without holes sends deletions only. */
  lemma DiffToAPeerInStep(ops: set<Op>, o: Op)
    requires Holeless(ops) && o in Diff(ops, Vector(ops))
    ensures o.Delete?
  {
    if o.Insert? {
      VectorAt(ops, o.id.client);
      assert o.id in Ids(ops);
      assert Id(o.id.client, Clock(ops, o.id.client)) !in Ids(ops);
    }
  }

  // ---------------------------------------------------------------- what the decisions mean

  lemma SameKnownSameDoc(a: Doc, b: Doc)
    requires a.Valid() && b.Valid() && a.Known() == b.Known()
    ensures a == b
  {
    assert a.parked == a.Known() - a.shown;
    assert b.parked == b.Known() - b.shown;
  }

  /** Both paths serve exactly the shown operations, never a parked one. */
  lemma IntegratedUpdateIsGapFree(doc: Doc, sv: StateVector)
    requires doc.Valid()
    ensures IntegratedUpdate(doc, sv) == Diff(doc.shown, sv)
    ensures IntegratedUpdate(doc, map[]) == doc.shown && Closed(doc.shown)
  {
    IntegratedIsClosed(doc.Known());
    SameKnownSameDoc(EMPTY_DOC.Apply(doc.Encode()), doc);
    assert Diff(doc.shown, map[]) == doc.shown;
  }

  /** For every document and update: "ready" is never said of an update that would park. */
  lemma ReadyIsSound(doc: Doc, u: Update)
    requires doc.Valid()
    ensures UpdateIsReady(doc, u) ==> Closed(doc.shown + u)
  {
    PendingIffGap(ReadinessProbe(doc, u));
  }

  lemma {:induction false} LowestBlock(u: Update, i: Id) returns (low: Id)
    requires i in Ids(u)
    ensures low in Ids(u) && low.client == i.client
    ensures forall j :: j in Ids(u) && j.client == i.client ==> low.clock <= j.clock
    decreases i.clock
  {
    if j :| j in Ids(u) && j.client == i.client && j.clock < i.clock {
      low := LowestBlock(u, j);
    } else {
      low := i;
    }
  }

  /** Every client of `u` has a block there with no hole below it in `ops`. */
  ghost predicate ReachesFrontier(u: Update, ops: set<Op>) {
    forall c :: c in Clients(u) ==> HasFrontBlock(u, c, ops)
  }

  ghost predicate HasFrontBlock(u: Update, c: nat, ops: set<Op>) {
    exists o :: o in u && o.Insert? && o.id.client == c && !BehindHole(o, ops)
  }

  /** What the clock test asks, without clocks. */
  lemma LowerCoveredIffFrontier(shown: set<Op>, u: Update)
    ensures LowerCovered(Vector(shown), u) <==> ReachesFrontier(u, shown + u)
  {
    assert Ids(shown + u) == Ids(shown) + Ids(u);
    forall c | c in Clients(u)
      ensures HasFrontBlock(u, c, shown + u) <==> exists i :: i in Ids(u) && i.client == c && i.clock <= At(Vector(shown), c)
    {
      VectorAt(shown, c);
      var any :| any in Ids(u) && any.client == c;
      var low := LowestBlock(u, any);
      var first :| first in u && first.Insert? && first.id == low;
      if i :| i in Ids(u) && i.client == c && i.clock <= Clock(shown, c) {
        assert !BehindHole(first, shown + u);
      }
      if o :| o in u && o.Insert? && o.id.client == c && !BehindHole(o, shown + u) {
        assert o.id in Ids(u) && low.clock <= o.id.clock;
        assert forall m: nat :: m < low.clock ==> Id(c, m) !in Ids(u);
        assert forall m: nat :: m < low.clock ==> Id(c, m) in Ids(shown);
        assert Id(c, Clock(shown, c)) !in Ids(shown);
        assert low in Ids(u) && low.clock <= Clock(shown, c);
      }
    }
  }

  /** Readiness, for every document and every update: "ready" is said exactly when the integrated
      state with the update is closed and each client of the update reaches the frontier. */
  lemma ReadyExactly(doc: Doc, u: Update)
    requires doc.Valid()
    ensures UpdateIsReady(doc, u) <==> Closed(doc.shown + u) && ReachesFrontier(u, doc.shown + u)
  {
    LowerCoveredIffFrontier(doc.shown, u);
    PendingIffGap(ReadinessProbe(doc, u));
  }

  /** The clock test disagrees with the trial integration exactly when everything would integrate and
      some client's blocks in the update all sit behind a hole. */
  lemma FastRejectDisagreesExactly(doc: Doc, u: Update)
    requires doc.Valid()
    ensures !LowerCovered(Vector(doc.shown), u) && !HasPending(ReadinessProbe(doc, u)) <==>
      Closed(doc.shown + u) && exists c :: c in Clients(u) && !HasFrontBlock(u, c, doc.shown + u)
  {
    LowerCoveredIffFrontier(doc.shown, u);
    PendingIffGap(ReadinessProbe(doc, u));
  }

  /** With no hole in the document and no Skip before a client's lowest block, a clean integration
      always reaches the frontier. */
  lemma CleanReachesFrontier(shown: set<Op>, u: Update)
    requires Holeless(shown) && LeadOrdinary(u) && Closed(shown + u)
    ensures ReachesFrontier(u, shown + u)
  {
    assert Ids(shown + u) == Ids(shown) + Ids(u);
    forall c | c in Clients(u) ensures HasFrontBlock(u, c, shown + u) {
      var any :| any in Ids(u) && any.client == c;
      var low := LowestBlock(u, any);
      var first :| first in u && first.Insert? && first.id == low;
      ClosedNeeds(shown + u, first);
      if low.clock > 0 {
        var before := Id(c, low.clock - 1);
        assert before in Ids(shown);
        assert forall m: nat :: m <= before.clock ==> Id(c, m) in Ids(shown);
      }
      assert !BehindHole(first, shown + u);
    }
  }

  /** The clock test rejects only what the trial integration would reject too. */
  lemma FastRejectAgrees(doc: Doc, u: Update)
    requires doc.Valid() && Holeless(doc.shown) && LeadOrdinary(u)
    requires !LowerCovered(Vector(doc.shown), u)
    ensures !Closed(doc.shown + u)
  {
    LowerCoveredIffFrontier(doc.shown, u);
    if Closed(doc.shown + u) { CleanReachesFrontier(doc.shown, u); }
  }

  /** Away from holes readiness is closure alone, whatever the document already has parked. */
  lemma ReadyIsExact(doc: Doc, u: Update)
    requires doc.Valid() && Holeless(doc.shown) && LeadOrdinary(u)
    ensures UpdateIsReady(doc, u) <==> Closed(doc.shown + u)
  {
    ReadyExactly(doc, u);
    if Closed(doc.shown + u) { CleanReachesFrontier(doc.shown, u); }
  }

  /** A client's blocks in `u` start at clock zero and leave one out below another. */
  ghost predicate HoleAfterStart(u: Update) {
    exists i, m: nat :: i in Ids(u) && Id(i.client, 0) in Ids(u) && m < i.clock && Id(i.client, m) !in Ids(u)
  }

  /** What the guard looks for, without clocks. */
  lemma PastCapIsAHole(u: Update)
    ensures PastCap(u) <==> HoleAfterStart(u)
  {
    if i :| i in Ids(u) && 0 < Clock(u, i.client) <= i.clock {
      var m := Clock(u, i.client);
      assert Id(i.client, i.clock) == i;
      assert Id(i.client, m) !in Ids(u) && Id(i.client, 0) in Ids(u);
    }
    if i, m: nat :| i in Ids(u) && Id(i.client, 0) in Ids(u) && m < i.clock && Id(i.client, m) !in Ids(u) {
      assert Clock(u, i.client) > 0 && Clock(u, i.client) <= m;
    }
  }

  /** The conservative half of the promise: an update that starts at clock zero and hides a hole is
      reported as advancing, to every document. */
  lemma HiddenHoleIsReported(doc: Doc, u: Update)
    requires doc.Valid() && HoleAfterStart(u)
    ensures UpdateAdvances(doc, u)
  {
    PastCapIsAHole(u);
  }

  lemma AdvancesByProbe(doc: Doc, u: Update)
    requires doc.Valid() && !doc.Pending()
    ensures UpdateAdvances(doc, u) <==>
      || PastCap(u)
      || (HasDeletes(u) && !(u <= doc.Known()))
      || (!HasDeletes(u) && !Covers(Vector(doc.shown), Vector(u)))
      || (!HasDeletes(u) && Vector(doc.shown) != Vector(Integrated(doc.shown + u)))
      || (!HasDeletes(u) && !Closed(doc.shown + u))
  {
    var probe := EMPTY_DOC.Apply(doc.Encode());
    SameKnownSameDoc(probe, doc);
    var after := probe.Apply(u);
    PendingIffGap(after);
    assert doc.Known() == doc.shown;
  }

  /** The whole family of updates whose new content is reported as "nothing new": no deletion,
      no block past a non-zero cap, everything integrates, and every new block lands behind a hole. */
  ghost predicate HiddenBehindHole(known: set<Op>, u: Update) {
    && !HasDeletes(u)
    && !PastCap(u)
    && Closed(known + u)
    && !(u <= known)
    && forall o :: o in u && o !in known ==> BehindHole(o, known + u)
  }

  lemma HiddenMovesNoClock(known: set<Op>, u: Update, c: nat)
    requires HiddenBehindHole(known, u)
    ensures Clock(known + u, c) == Clock(known, c)
    ensures Clock(u, c) <= Clock(known, c)
  {
    var k := Clock(known, c);
    ClockMonotone(u, known + u, c);
    forall o | o in u && o.Insert? ensures o.id != Id(c, k) {
      if o !in known {
        var m: nat :| m < o.id.clock && Id(o.id.client, m) !in Ids(known + u);
        assert Id(o.id.client, m) !in Ids(known);
      }
    }
    assert forall m :: 0 <= m < k ==> Id(c, m) in Ids(known);
    assert Ids(known + u) == Ids(known) + Ids(u);
    ClockIs(known + u, c, k);
  }

  lemma EqualClocksEqualVectors(a: set<Op>, b: set<Op>)
    requires forall c :: Clock(a, c) == Clock(b, c)
    ensures Vector(a) == Vector(b)
  {
    forall c ensures At(Vector(a), c) == At(Vector(b), c)
      ensures c in Vector(a) <==> Clock(a, c) > 0
      ensures c in Vector(b) <==> Clock(b, c) > 0
    {
      VectorAt(a, c);
      VectorAt(b, c);
    }
  }

  /** New content answered with "does not advance" is exactly the hidden family. */
  lemma AdvancesMissesExactlyHidden(doc: Doc, u: Update)
    requires doc.Valid() && !doc.Pending() && Coherent(doc.Known() + u)
    ensures !UpdateAdvances(doc, u) && !(u <= doc.Known()) <==> HiddenBehindHole(doc.Known(), u)
  {
    var k := doc.Known();
    assert k == doc.shown;
    AdvancesByProbe(doc, u);
    if HiddenBehindHole(k, u) {
      forall c ensures Clock(k + u, c) == Clock(k, c) && Clock(u, c) <= Clock(k, c) {
        HiddenMovesNoClock(k, u, c);
      }
      EqualClocksEqualVectors(k, k + u);
      forall c | c in Vector(u) ensures At(Vector(k), c) >= Vector(u)[c] {
        VectorAt(k, c);
        VectorAt(u, c);
      }
    }
    if !UpdateAdvances(doc, u) && !(u <= k) {
      forall o | o in u && o !in k ensures BehindHole(o, k + u) {
        NotBehindHoleIsKnown(k, u, o);
      }
    }
  }

  lemma NotBehindHoleIsKnown(k: set<Op>, u: Update, o: Op)
    requires Coherent(k + u) && Vector(k) == Vector(k + u)
    requires o in u && o.Insert?
    ensures o in k || BehindHole(o, k + u)
  {
    var c := o.id.client;
    if !BehindHole(o, k + u) {
      assert Id(c, o.id.clock) == o.id;
      assert forall m: nat :: m <= o.id.clock ==> Id(c, m) in Ids(k + u);
      assert Id(c, Clock(k + u, c)) !in Ids(k + u);
      VectorAt(k, c);
      VectorAt(k + u, c);
      assert o.id in Ids(k);
      var p :| p in k && p.Insert? && p.id == o.id;
      assert p == o;
    }
  }

  /** An update the document already holds is answered by the guard alone. */
  lemma AdvancesOnKnown(doc: Doc, u: Update)
    requires doc.Valid() && !doc.Pending() && u <= doc.Known()
    ensures UpdateAdvances(doc, u) <==> PastCap(u)
  {
    var k := doc.Known();
    assert k == doc.shown && k + u == k;
    AdvancesByProbe(doc, u);
    forall c | c in Vector(u) ensures At(Vector(k), c) >= Vector(u)[c] {
      VectorAt(k, c);
      ClockMonotone(u, k, c);
    }
  }

  /** On a document with nothing pending, for every update: it is said to advance exactly when it
      carries something new outside the hidden family, or is a repeat with a block past its cap. */
  lemma AdvancesExactly(doc: Doc, u: Update)
    requires doc.Valid() && !doc.Pending() && Coherent(doc.Known() + u)
    ensures UpdateAdvances(doc, u) <==>
      if u <= doc.Known() then PastCap(u) else !HiddenBehindHole(doc.Known(), u)
  {
    AdvancesMissesExactlyHidden(doc, u);
    if u <= doc.Known() { AdvancesOnKnown(doc, u); }
  }

  lemma ContiguousIsNotPastCap(u: Update)
    requires Contiguous(u)
    ensures !PastCap(u)
  {
    forall i | i in Ids(u) ensures !(0 < Clock(u, i.client) <= i.clock) {
      assert Id(i.client, Clock(u, i.client)) !in Ids(u);
      assert Clock(u, i.client) > 0 ==> Id(i.client, 0) in Ids(u);
    }
  }

  /** With no Skip in sight the answer is exact: it advances precisely when it carries something new. */
  lemma AdvancesIsExact(doc: Doc, u: Update)
    requires doc.Valid() && !doc.Pending() && Coherent(doc.Known() + u)
    requires Holeless(doc.Known()) && SkipFree(u)
    ensures UpdateAdvances(doc, u) <==> !(u <= doc.Known())
  {
    AdvancesExactly(doc, u);
    ContiguousIsNotPastCap(u);
    if HiddenBehindHole(doc.Known(), u) {
      var o :| o in u && o !in doc.Known();
      SkipFreeLandsWithoutHole(doc.Known(), u, o);
    }
  }

  lemma {:induction false} SkipFreeLandsWithoutHole(k: set<Op>, u: Update, o: Op)
    requires Closed(k + u) && Holeless(k) && Ordinary(u) && o in u && o.Insert?
    ensures !BehindHole(o, k + u)
  {
    forall m: nat | m < o.id.clock ensures Id(o.id.client, m) in Ids(k + u) {
      StepsDown(k, u, o.id, m);
    }
  }

  lemma {:induction false} StepsDown(k: set<Op>, u: Update, i: Id, m: nat)
    requires Closed(k + u) && Holeless(k) && Ordinary(u) && i in Ids(k + u) && m <= i.clock
    ensures Id(i.client, m) in Ids(k + u)
    decreases i.clock
  {
    assert Ids(k + u) == Ids(k) + Ids(u);
    if m < i.clock && i !in Ids(k) {
      var o :| o in u && o.Insert? && o.id == i;
      ClosedNeeds(k + u, o);
      StepsDown(k, u, Id(i.client, i.clock - 1), m);
    }
  }

  lemma ClosedExtend(ops: set<Op>, o: Op)
    requires Closed(ops) && Needs(o) <= Ids(ops)
    ensures Closed(ops + {o})
  {
    var all := ops + {o};
    ClosedPartIsShown(ops, all);
    ReadyMonotone({o}, ops, all, Integrated(all));
    assert o in Ready({o}, ops);
  }

  lemma ThreeBlocksAreClosed(a: Op, b: Op, late: Op)
    requires Needs(a) == {} && a.Insert? && Needs(b) <= {a.id} && b.Insert? && Needs(late) <= {b.id}
    ensures Closed({a, b}) && Closed({a, b, late})
  {
    ClosedExtend({}, a);
    assert {} + {a} == {a};
    ClosedExtend({a}, b);
    assert {a} + {b} == {a, b};
    ClosedExtend({a, b}, late);
    assert {a, b} + {late} == {a, b, late};
  }

  /** A diff that starts above clock 0 and skips clock 2, against a document holding clocks 0 and 1. */
  lemma DiffWithASkip(a: Op, b: Op, late: Op, k: set<Op>, u: Update)
    requires a == Insert(Id(1, 0), {}) && b == Insert(Id(1, 1), {Id(1, 0)})
    requires late == Insert(Id(1, 3), {Id(1, 1)})
    requires k == {a, b} && u == {b, late}
    ensures Closed(k) && Coherent(k + u) && HiddenBehindHole(k, u)
  {
    ThreeBlocksAreClosed(a, b, late);
    assert k + u == {a, b, late};
    assert Ids(u) == {b.id, late.id};
    ClockIs(u, 1, 0);
    assert Ids(k + u) == {a.id, b.id, late.id};
    assert Id(1, 2) !in Ids(k + u);
    assert BehindHole(late, k + u);
  }

  lemma DiffIsCovered(k: set<Op>, u: Update)
    requires Ids(k) == {Id(1, 0), Id(1, 1)} && Ids(u) == {Id(1, 1), Id(1, 3)}
    ensures LowerCovered(Vector(k), u)
  {
    ClockIs(k, 1, 2);
    VectorAt(k, 1);
    assert Id(1, 1) in Ids(u);
  }

  /** The hidden family is inhabited by an update the document is ready for. */
  lemma SkipInsideADiffIsMissed() returns (doc: Doc, u: Update)
    ensures doc.Valid() && !doc.Pending() && Coherent(doc.Known() + u)
    ensures UpdateIsReady(doc, u) && !(u <= doc.Known()) && !UpdateAdvances(doc, u)
  {
    var a, b, late := Insert(Id(1, 0), {}), Insert(Id(1, 1), {Id(1, 0)}), Insert(Id(1, 3), {Id(1, 1)});
    var k := {a, b};
    doc, u := Doc(k, {}), {b, late};
    DiffWithASkip(a, b, late, k, u);
    assert Ids(k) == {a.id, b.id} && Ids(u) == {b.id, late.id};
    DiffIsCovered(k, u);
    assert doc.Known() == k;
    PendingIffGap(ReadinessProbe(doc, u));
    AdvancesMissesExactlyHidden(doc, u);
  }

  /** An ordinary next block on a document with a hole, three clocks of one client. */
  lemma NextBlockPastAHole(a: Op, late: Op, next: Op, k: set<Op>, u: Update)
    requires a == Insert(Id(1, 0), {}) && late == Insert(Id(1, 3), {Id(1, 0)}) && next == Insert(Id(1, 4), {Id(1, 3)})
    requires k == {a, late} && u == {next}
    ensures Closed(k) && Closed(k + u) && Coherent(k + u) && SkipFree(u)
    ensures HiddenBehindHole(k, u) && !ReachesFrontier(u, k + u)
  {
    ThreeBlocksAreClosed(a, late, next);
    assert k + u == {a, late, next};
    assert Ids(u) == {next.id} && 1 in Clients(u);
    ClockIs(u, 1, 0);
    assert Ids(k + u) == {a.id, late.id, next.id};
    assert Id(1, 2) !in Ids(k + u);
    assert BehindHole(next, k + u);
    assert !HasFrontBlock(u, 1, k + u);
  }

  /** Holes cost both decisions their exactness even on a Skip-free update: the document would
      integrate it cleanly and lacks it, and is told that it is neither ready nor an advance. */
  lemma HoledDocumentMisjudgesTheNextBlock() returns (doc: Doc, u: Update)
    ensures doc.Valid() && !doc.Pending() && Coherent(doc.Known() + u) && SkipFree(u)
    ensures Closed(doc.shown + u) && !(u <= doc.Known())
    ensures !UpdateIsReady(doc, u) && !UpdateAdvances(doc, u)
  {
    var a, late, next := Insert(Id(1, 0), {}), Insert(Id(1, 3), {Id(1, 0)}), Insert(Id(1, 4), {Id(1, 3)});
    var k := {a, late};
    doc, u := Doc(k, {}), {next};
    NextBlockPastAHole(a, late, next, k, u);
    assert doc.Known() == k;
    ReadyExactly(doc, u);
    AdvancesExactly(doc, u);
  }
}
