/** `Y::Document`: a merged snapshot plus a tail of update rows, folded together by compactions
    that race with appends and loads. */
module Store {
  import opened Crdt
  import opened Protocol
  import opened Common

  datatype Row = Row(payload: Update, pending: bool)

  /** The two tables of one document; rows are keyed by primary key. */
  datatype Tables = Tables(state: Option<Update>, rows: map<nat, Row>, nextId: nat)

  function Base(state: Option<Update>): Update {
    if state.Some? then state.value else {}
  }

  function Payloads(rows: map<nat, Row>): Update {
    set id, o | id in rows && o in rows[id].payload :: o
  }

  /** Everything the tables hold, whether or not it can be shown yet. */
  function Content(t: Tables): Update {
    Base(t.state) + Payloads(t.rows)
  }

  ghost predicate ValidTables(t: Tables) {
    && Closed(Base(t.state))
    && forall id :: id in t.rows ==> id < t.nextId
  }

  /** The document every order of applying `known` leaves. */
  function DocOf(known: Update): (doc: Doc)
    ensures doc.Valid() && doc.Known() == known
  {
    assert Integrated(known) + (known - Integrated(known)) == known;
    Doc(Integrated(known), known - Integrated(known))
  }

  // ---------------------------------------------------------------- one compaction

  /** What a compaction decides: the new snapshot, the rows it deletes and the rows it quarantines. */
  datatype Plan = Plan(state: Option<Update>, captured: set<nat>, tail: set<nat>)

  /** The judgement on one row of a gapped batch: it stays if the folded state could not integrate
      it cleanly, or would still change. */
  predicate Stays(newState: Update, payload: Update)
    requires Closed(newState)
  {
    !UpdateIsReady(Folded(newState), payload) || UpdateAdvances(Folded(newState), payload)
  }

  /** A throwaway document holding a compacted state. */
  function Folded(state: Update): (doc: Doc)
    requires Closed(state)
    ensures doc.Valid() && doc.Known() == state && doc.shown == state && !doc.Pending()
  {
    assert state + {} == state;
    Doc(state, {})
  }

  function PlanFor(state: Option<Update>, rows: map<nat, Row>): Plan {
    var doc := DocOf(Base(state) + Payloads(rows));
    if !doc.Pending() then
      Plan(Some(doc.Compacted()), rows.Keys, {})
    else
      var newState := doc.Compacted();
      IntegratedIsClosed(doc.Known());
      var tail := set id | id in rows && Stays(newState, rows[id].payload);
      Plan(if newState == Base(state) then state else Some(newState), rows.Keys - tail, tail)
  }

  function MarkPending(rows: map<nat, Row>, ids: set<nat>): map<nat, Row> {
    map id | id in rows :: if id in ids then rows[id].(pending := true) else rows[id]
  }

  function Executed(t: Tables, plan: Plan): Tables {
    Tables(plan.state, MarkPending(t.rows - plan.captured, plan.tail), t.nextId)
  }

  function Compacted(t: Tables): Tables {
    if t.rows == map[] then t else Executed(t, PlanFor(t.state, t.rows))
  }

  function CleanRows(rows: map<nat, Row>): set<nat> {
    set id | id in rows && !rows[id].pending
  }

  function Inserted(t: Tables, payload: Update): Tables {
    Tables(t.state, t.rows[t.nextId := Row(payload, false)], t.nextId + 1)
  }

  function Appended(t: Tables, payload: Update, compactEvery: nat): Tables {
    var t' := Inserted(t, payload);
    if |CleanRows(t'.rows)| >= compactEvery then Compacted(t') else t'
  }

  lemma ReadyRowIsCaptured(known: Update, payload: Update)
    requires payload <= known
    requires Closed(Integrated(known)) && !Stays(Integrated(known), payload)
    ensures payload <= Integrated(known)
  {
    var base := Folded(Integrated(known));
    ReadyIsSound(base, payload);
    ClosedPartIsShown(Integrated(known) + payload, known);
  }

  /** A row found ready lies inside the folded state, and can be said to advance it only for its shape. */
  lemma ReadyRowAddsNothing(known: Update, n: Update, payload: Update)
    requires payload <= known && n == Integrated(known) && Closed(n)
    ensures UpdateIsReady(Folded(n), payload) ==>
      payload <= n && (UpdateAdvances(Folded(n), payload) <==> PastCap(payload))
  {
    var base := Folded(n);
    if UpdateIsReady(base, payload) {
      ReadyIsSound(base, payload);
      ClosedPartIsShown(n + payload, known);
      AdvancesOnKnown(base, payload);
    }
  }

  ghost predicate SafePlan(state: Option<Update>, rows: map<nat, Row>, plan: Plan) {
    && Base(plan.state) == Integrated(Base(state) + Payloads(rows))
    && Closed(Base(plan.state))
    && Base(state) <= Base(plan.state)
    && plan.captured !! plan.tail && plan.captured + plan.tail == rows.Keys
    && forall id :: id in plan.captured ==> rows[id].payload <= Base(plan.state)
  }

  /** A compaction folds exactly what integrates, drops only rows already inside the new snapshot,
      and leaves every other row in the table. */
  lemma PlanIsSafe(state: Option<Update>, rows: map<nat, Row>)
    requires Closed(Base(state))
    ensures SafePlan(state, rows, PlanFor(state, rows))
  {
    var known := Base(state) + Payloads(rows);
    var plan := PlanFor(state, rows);
    IntegratedIsClosed(known);
    ClosedPartIsShown(Base(state), known);
    var doc := DocOf(known);
    forall id | id in plan.captured ensures rows[id].payload <= Base(plan.state) {
      assert rows[id].payload <= Payloads(rows);
      if doc.Pending() {
        ReadyRowIsCaptured(known, rows[id].payload);
      }
    }
  }

  lemma ExecutedConserves(t: Tables, plan: Plan)
    requires ValidTables(t) && SafePlan(t.state, t.rows, plan)
    ensures ValidTables(Executed(t, plan))
    ensures Content(Executed(t, plan)) == Content(t)
    ensures CleanRows(Executed(t, plan).rows) == {}
  {
    var left := t.rows - plan.captured;
    assert Payloads(MarkPending(left, plan.tail)) == Payloads(left) by {
      assert forall id :: id in left ==> MarkPending(left, plan.tail)[id].payload == left[id].payload;
    }
    forall id, o | id in t.rows && o in t.rows[id].payload
      ensures o in Base(plan.state) + Payloads(left)
    {
      if id !in plan.captured { assert id in left && o in left[id].payload; }
    }
  }

  /** Sequentially: content is conserved, the snapshot stays closed and only grows. */
  lemma CompactedConserves(t: Tables)
    requires ValidTables(t)
    ensures ValidTables(Compacted(t))
    ensures Content(Compacted(t)) == Content(t)
    ensures Base(t.state) <= Base(Compacted(t).state)
    ensures CleanRows(Compacted(t).rows) == {}
  {
    PlanIsSafe(t.state, t.rows);
    ExecutedConserves(t, PlanFor(t.state, t.rows));
  }

  /** A row the folded state `n` keeps: it holds something `n` does not, or it is inside `n` and its
      shape misleads one of the two tests. */
  ghost predicate MustStay(n: Update, payload: Update) {
    !(payload <= n) || PastCap(payload) || !ReachesFrontier(payload, n)
  }

  /** The judgement on a row, exactly, for every row of every batch. */
  lemma StaysExactly(known: Update, n: Update, payload: Update)
    requires payload <= known && n == Integrated(known) && Closed(n)
    ensures Stays(n, payload) <==> MustStay(n, payload)
  {
    var base := Folded(n);
    if !Stays(n, payload) { ReadyRowIsCaptured(known, payload); }
    if payload <= n {
      assert n + payload == n;
      ReadyExactly(base, payload);
      AdvancesOnKnown(base, payload);
    }
  }

  lemma TailExactly(state: Option<Update>, rows: map<nat, Row>, n: Update)
    requires n == Integrated(Base(state) + Payloads(rows)) && Closed(n) && !Closed(Base(state) + Payloads(rows))
    ensures PlanFor(state, rows).tail == set id | id in rows && MustStay(n, rows[id].payload)
  {
    PendingIffGap(DocOf(Base(state) + Payloads(rows)));
    forall id | id in rows ensures Stays(n, rows[id].payload) <==> MustStay(n, rows[id].payload) {
      assert rows[id].payload <= Payloads(rows);
      StaysExactly(Base(state) + Payloads(rows), n, rows[id].payload);
    }
  }

  lemma ExecutedKeepsTail(t: Tables, plan: Plan)
    requires SafePlan(t.state, t.rows, plan)
    ensures Executed(t, plan).rows.Keys == plan.tail
    ensures forall id :: id in plan.tail ==> Executed(t, plan).rows[id] == Row(t.rows[id].payload, true)
  {
  }

  /** The rows a compaction leaves, for all tables: none if the store is gap-free, else exactly the
      rows that must stay, with their payloads and marked pending. */
  lemma SurvivorsExactly(t: Tables)
    requires ValidTables(t)
    ensures Compacted(t).rows.Keys
         == set id | id in t.rows && !Closed(Content(t)) && MustStay(Integrated(Content(t)), t.rows[id].payload)
    ensures forall id :: id in Compacted(t).rows ==> Compacted(t).rows[id] == Row(t.rows[id].payload, true)
  {
    PlanIsSafe(t.state, t.rows);
    if Closed(Content(t)) {
      if t.rows != map[] { HealedStoreCompactsClean(t); }
    } else {
      IntegratedIsClosed(Content(t));
      TailExactly(t.state, t.rows, Integrated(Content(t)));
      ExecutedKeepsTail(t, PlanFor(t.state, t.rows));
    }
  }

  /** Inside a state with no hole, a row without a Skip misleads neither test. */
  lemma CapturedRowGoes(n: Update, payload: Update)
    requires Holeless(n) && Contiguous(payload)
    ensures MustStay(n, payload) <==> !(payload <= n)
  {
    ContiguousIsNotPastCap(payload);
    if payload <= n {
      forall c | c in Clients(payload) ensures HasFrontBlock(payload, c, n) {
        var o :| o in payload && o.Insert? && o.id.client == c;
        assert o.id in Ids(n);
      }
    }
  }

  /** Without Skips, quarantine is exact: the survivors are precisely the rows holding an operation
      the store cannot show. */
  lemma QuarantineIsExact(t: Tables)
    requires ValidTables(t) && Holeless(Integrated(Content(t)))
    requires forall id :: id in t.rows ==> Contiguous(t.rows[id].payload)
    ensures Compacted(t).rows.Keys
         == set id | id in t.rows && !(t.rows[id].payload <= Integrated(Content(t)))
    ensures forall id :: id in Compacted(t).rows ==> Compacted(t).rows[id] == Row(t.rows[id].payload, true)
  {
    SurvivorsExactly(t);
    forall id | id in t.rows
      ensures t.rows[id].payload <= Content(t)
      ensures MustStay(Integrated(Content(t)), t.rows[id].payload) <==> !(t.rows[id].payload <= Integrated(Content(t)))
    {
      assert t.rows[id].payload <= Payloads(t.rows);
      CapturedRowGoes(Integrated(Content(t)), t.rows[id].payload);
    }
  }

  /** Beside a row with a gap, a row inside the snapshot that misleads a test is quarantined. */
  lemma MisleadingRowStays(n: Update, inside: Update, stray: Update)
    requires Closed(n) && inside <= n && Integrated(n + stray) == n && !Closed(n + stray) && MustStay(n, inside)
    ensures var t := TwoRows(n, inside, stray); ValidTables(t) && 0 in Compacted(t).rows
  {
    TwoRowsContent(n, inside, stray);
    assert n + inside + stray == n + stray;
    SurvivorsExactly(TwoRows(n, inside, stray));
  }

  lemma StrayIsParked(n: Update, stray: Op)
    requires Closed(n) && stray !in n && !(Needs(stray) <= Ids(n)) && stray.Insert? && stray.id !in Needs(stray)
    ensures Integrated(n + {stray}) == n && !Closed(n + {stray})
  {
    ClosedPartIsShown(n, n + {stray});
    IntegrationIsLeast(n + {stray}, {}, n);
  }

  lemma PastTheHole(a: Op, late: Op, next: Op, n: Update)
    requires a == Insert(Id(1, 0), {}) && late == Insert(Id(1, 3), {Id(1, 0)}) && next == Insert(Id(1, 4), {Id(1, 3)})
    requires n == {a, late, next}
    ensures Closed(n) && Ids(n) == {Id(1, 0), Id(1, 3), Id(1, 4)} && SkipFree({next}) && MustStay(n, {next})
  {
    ThreeBlocksAreClosed(a, late, next);
    assert Ids({next}) == {next.id} && 1 in Clients({next});
    assert Id(1, 2) !in Ids(n) && BehindHole(next, n);
    assert !HasFrontBlock({next}, 1, n);
  }

  /** A snapshot with a hole, a row inside it past the hole, and a row with a gap. */
  lemma HoledSnapshot() returns (n: Update, inside: Update, stray: Update)
    ensures SkipFree(inside) && SkipFree(stray) && inside <= n && Closed(n) && MustStay(n, inside)
    ensures Integrated(n + stray) == n && !Closed(n + stray)
  {
    var a, late, next := Insert(Id(1, 0), {}), Insert(Id(1, 3), {Id(1, 0)}), Insert(Id(1, 4), {Id(1, 3)});
    var lost := Insert(Id(2, 1), {Id(2, 0)});
    n, inside, stray := {a, late, next}, {next}, {lost};
    PastTheHole(a, late, next, n);
    StrayIsParked(n, lost);
    OneBlockIsSkipFree(lost);
  }

  lemma OneBlockIsSkipFree(o: Op)
    requires o.Insert? && (o.id.clock > 0 ==> Id(o.id.client, o.id.clock - 1) in o.refs)
    ensures SkipFree({o})
  {
    assert Ids({o}) == {o.id};
  }

  /** On a snapshot with a hole, a Skip-free row wholly inside the snapshot can be quarantined. */
  lemma CapturedRowCanStay() returns (n: Update, inside: Update, stray: Update)
    ensures SkipFree(inside) && SkipFree(stray) && inside <= n
    ensures var t := TwoRows(n, inside, stray); ValidTables(t) && 0 in Compacted(t).rows
  {
    n, inside, stray := HoledSnapshot();
    MisleadingRowStays(n, inside, stray);
  }

  function TwoRows(state: Update, first: Update, second: Update): Tables {
    Tables(Some(state), map[0 := Row(first, false), 1 := Row(second, false)], 2)
  }

  lemma TwoRowsContent(state: Update, first: Update, second: Update)
    ensures Content(TwoRows(state, first, second)) == state + first + second
  {
    var one := map[0 := Row(first, false)];
    PayloadsGrow(map[], 0, Row(first, false));
    PayloadsGrow(one, 1, Row(second, false));
    assert TwoRows(state, first, second).rows == one[1 := Row(second, false)];
  }

  /** A healed store compacts to a snapshot and nothing else. */
  lemma HealedStoreCompactsClean(t: Tables)
    requires Closed(Content(t)) && t.rows != map[]
    ensures Compacted(t).rows == map[]
    ensures Compacted(t).state == Some(Content(t))
  {
    PendingIffGap(DocOf(Content(t)));
  }

  /** A compaction leaves no clean row, so after an append fewer than `compactEvery` remain. */
  lemma AppendKeepsTailShort(t: Tables, payload: Update, compactEvery: nat)
    requires ValidTables(t) && compactEvery > 0
    ensures |CleanRows(Appended(t, payload, compactEvery).rows)| < compactEvery
    ensures ValidTables(Appended(t, payload, compactEvery))
    ensures Content(Appended(t, payload, compactEvery)) == Content(t) + payload
  {
    var t' := Inserted(t, payload);
    InsertedRow(t, payload);
    if |CleanRows(t'.rows)| >= compactEvery {
      CompactedConserves(t');
    }
  }

  /** Below the threshold an append adds one clean row and touches nothing else; from it on, it compacts. */
  lemma AppendCompactsFromThreshold(t: Tables, payload: Update, compactEvery: nat)
    requires ValidTables(t)
    ensures |CleanRows(t.rows)| + 1 < compactEvery ==>
      Appended(t, payload, compactEvery) == Tables(t.state, t.rows[t.nextId := Row(payload, false)], t.nextId + 1)
    ensures |CleanRows(t.rows)| + 1 >= compactEvery ==>
      CleanRows(Appended(t, payload, compactEvery).rows) == {}
  {
    InsertedIsClean(t, payload);
    if |CleanRows(t.rows)| + 1 >= compactEvery {
      InsertedRow(t, payload);
      CompactedConserves(Inserted(t, payload));
    }
  }

  lemma InsertedIsClean(t: Tables, payload: Update)
    requires ValidTables(t)
    ensures |CleanRows(Inserted(t, payload).rows)| == |CleanRows(t.rows)| + 1
  {
    var clean, more := CleanRows(t.rows), CleanRows(Inserted(t, payload).rows);
    assert t.nextId !in t.rows;
    forall id ensures id in more <==> id in clean || id == t.nextId { }
    assert more == clean + {t.nextId};
  }

  lemma InsertedRow(t: Tables, payload: Update)
    requires ValidTables(t)
    ensures ValidTables(Inserted(t, payload))
    ensures Content(Inserted(t, payload)) == Content(t) + payload
  {
    PayloadsGrow(t.rows, t.nextId, Row(payload, false));
  }

  // ---------------------------------------------------------------- the model class

  class Document {
    var state: Option<Update>
    var rows: map<nat, Row>
    var nextId: nat
    const compactEvery: nat

    ghost predicate Valid() reads this { ValidTables(Value()) }

    ghost function Value(): Tables reads this { Tables(state, rows, nextId) }

    constructor (compactEvery: nat)
      ensures Valid() && Content(Value()) == {} && state.None? && this.compactEvery == compactEvery
    {
      state, rows, nextId := None, map[], 0;
      this.compactEvery := compactEvery;
    }

    method Append(payload: Update)
      requires Valid()
      modifies this
      ensures Valid()
      ensures Value() == Appended(old(Value()), payload, compactEvery)
      ensures Content(Value()) == old(Content(Value())) + payload
    {
      InsertedRow(Value(), payload);
      rows, nextId := rows[nextId := Row(payload, false)], nextId + 1;
      assert Value() == Inserted(old(Value()), payload);
      if |CleanRows(rows)| >= compactEvery {
        CompactedConserves(Value());
        Compact();
      }
    }

    /** The whole document, tail read first, snapshot after it. */
    method LoadState() returns (loaded: Option<Update>)
      requires Valid()
      ensures Base(loaded) == Content(Value())
      ensures loaded.None? <==> state.None? && rows == map[]
    {
      var tail := rows;
      var snapshot := state;
      if tail == map[] { return snapshot; }
      var doc := FoldRows(snapshot, tail);
      loaded := Some(doc.Encode());
    }

    /** Apply the snapshot and every payload, in whatever order the rows come back. */
    method FoldRows(snapshot: Option<Update>, tail: map<nat, Row>) returns (doc: Doc)
      ensures doc == DocOf(Base(snapshot) + Payloads(tail))
    {
      doc := EMPTY_DOC;
      if snapshot.Some? { doc := doc.Apply(snapshot.value); }
      var todo := tail.Keys;
      ghost var done: map<nat, Row> := map[];
      while todo != {}
        invariant done.Keys !! todo && done.Keys + todo == tail.Keys
        invariant forall id :: id in done ==> done[id] == tail[id]
        invariant doc.Valid() && doc.Known() == Base(snapshot) + Payloads(done)
        decreases todo
      {
        var id :| id in todo;
        doc := doc.Apply(tail[id].payload);
        PayloadsGrow(done, id, tail[id]);
        done := done[id := tail[id]];
        todo := todo - {id};
      }
      assert done == tail;
      SameKnownSameDoc(doc, DocOf(Base(snapshot) + Payloads(tail)));
    }

    method Compact()
      requires Valid()
      modifies this
      ensures Value() == Compacted(old(Value()))
    {
      var batch := rows;
      if batch == map[] { return; }
      var done := CompactRows(batch);
      if done { return; }
      CompactAroundGap(batch);
    }

    /** The gap-free path; on a gapped batch, no effect and `false`. */
    method CompactRows(batch: map<nat, Row>) returns (done: bool)
      requires batch == rows && batch != map[]
      modifies this
      ensures done <==> Closed(old(Content(Value())))
      ensures Value() == if done then Compacted(old(Value())) else old(Value())
    {
      var doc := FoldRows(state, batch);
      PendingIffGap(doc);
      if doc.Pending() { return false; }
      state := Some(doc.Compacted());
      rows := rows - batch.Keys;
      return true;
    }

    /** The rows to quarantine, one verdict at a time. */
    method RowsThatStay(newState: Update, batch: map<nat, Row>) returns (tail: set<nat>)
      requires Closed(newState)
      ensures tail == set id | id in batch && Stays(newState, batch[id].payload)
    {
      tail := {};
      var todo := batch.Keys;
      while todo != {}
        invariant todo <= batch.Keys
        invariant tail == set id | id in batch && id !in todo && Stays(newState, batch[id].payload)
        decreases todo
      {
        var id :| id in todo;
        if Stays(newState, batch[id].payload) { tail := tail + {id}; }
        todo := todo - {id};
      }
    }

    method CompactAroundGap(batch: map<nat, Row>)
      requires batch == rows && batch != map[] && !Closed(Content(Value()))
      modifies this
      ensures Value() == Compacted(old(Value()))
    {
      var folded := FoldRows(state, batch);
      PendingIffGap(folded);
      var newState := folded.Compacted();
      IntegratedIsClosed(folded.Known());
      if newState != Base(state) { state := Some(newState); }
      var tail := RowsThatStay(newState, batch);
      rows := rows - (batch.Keys - tail);
      rows := MarkPending(rows, tail);
    }
  }

  lemma PayloadsGrow(rows: map<nat, Row>, id: nat, row: Row)
    requires id !in rows
    ensures Payloads(rows[id := row]) == Payloads(rows) + row.payload
  {
    var more := rows[id := row];
    forall o | o in Payloads(rows) + row.payload ensures o in Payloads(more) {
      if o in row.payload {
        assert id in more && o in more[id].payload;
      } else {
        var k :| k in rows && o in rows[k].payload;
        assert k in more && o in more[k].payload;
      }
    }
  }
}
