/** Compactions running step by step among appends, loads and crashes.  Every effect is visible as
    soon as it happens and a crash keeps whatever was already written, so these runs include all the
    runs a database transaction around `compact!` allows. */
module Compaction {
  import opened Crdt
  import opened Store
  import opened Common

  /** Where the holder of the row lock is.  `base` is the snapshot it re-read under the lock. */
  datatype Phase =
    | Idle
    | Locked(base: Option<Update>)
    | HasRows(base: Option<Update>, rows: map<nat, Row>)
    | Written(plan: Plan)
    | Deleted(plan: Plan)

  datatype Db = Db(t: Tables, phase: Phase)

  datatype Event =
    | Append(payload: Update)
    | Lock | Read | Write | Purge | Mark
    | Crash

  function NextPhaseRead(t: Tables, base: Option<Update>): Phase {
    if t.rows == map[] then Idle else HasRows(base, t.rows)
  }

  /** One step; an event that is not enabled changes nothing. */
  function Step(db: Db, e: Event): Db {
    match (e, db.phase)
    case (Append(payload), _) => Db(Inserted(db.t, payload), db.phase)
    case (Lock, Idle) => Db(db.t, Locked(db.t.state))
    case (Read, Locked(base)) => Db(db.t, NextPhaseRead(db.t, base))
    case (Write, HasRows(base, rows)) =>
      var plan := PlanFor(base, rows);
      Db(db.t.(state := plan.state), Written(plan))
    case (Purge, Written(plan)) => Db(db.t.(rows := db.t.rows - plan.captured), Deleted(plan))
    case (Mark, Deleted(plan)) => Db(db.t.(rows := MarkPending(db.t.rows, plan.tail)), Idle)
    case (Crash, _) => Db(db.t, Idle)
    case _ => db
  }

  function Run(db: Db, events: seq<Event>): Db
    decreases events
  {
    if events == [] then db else Run(Step(db, events[0]), events[1..])
  }

  function AppendedBy(events: seq<Event>): Update {
    if events == [] then {}
    else (if events[0].Append? then events[0].payload else {}) + AppendedBy(events[1..])
  }

  ghost predicate Captures(t: Tables, ids: set<nat>) {
    && (forall id :: id in ids ==> id < t.nextId)
    && forall id :: id in ids && id in t.rows ==> t.rows[id].payload <= Base(t.state)
  }

  ghost predicate Inv(db: Db) {
    && ValidTables(db.t)
    && match db.phase
       case Idle => true
       case Locked(base) => base == db.t.state
       case HasRows(base, rows) => base == db.t.state && forall id :: id in rows ==> id in db.t.rows && db.t.rows[id] == rows[id]
       case Written(plan) => Captures(db.t, plan.captured)
       case Deleted(plan) => true
  }

  /** `t'` holds everything `t` held and `more`; rows keep their payloads, and one that left the
      table is inside the snapshot. */
  ghost predicate Keeps(t: Tables, t': Tables, more: Update) {
    && Content(t') == Content(t) + more
    && Base(t.state) <= Base(t'.state)
    && t.nextId <= t'.nextId
    && (forall id :: id in t'.rows && id < t.nextId ==> id in t.rows)
    && forall id :: id in t.rows ==>
         if id in t'.rows then t'.rows[id].payload == t.rows[id].payload
         else t.rows[id].payload <= Base(t'.state)
  }

  lemma AppendStep(db: Db, payload: Update)
    requires Inv(db)
    ensures Inv(Step(db, Append(payload))) && Keeps(db.t, Step(db, Append(payload)).t, payload)
  {
    InsertedRow(db.t, payload);
  }

  lemma WriteStep(t: Tables, base: Option<Update>, rows: map<nat, Row>, plan: Plan)
    requires ValidTables(t) && base == t.state && SafePlan(base, rows, plan)
    requires forall id :: id in rows ==> id in t.rows && t.rows[id] == rows[id]
    ensures var t' := t.(state := plan.state); ValidTables(t') && Captures(t', plan.captured) && Keeps(t, t', {})
  {
    forall id, o | id in rows && o in rows[id].payload ensures o in Payloads(t.rows) {
      assert id in t.rows && o in t.rows[id].payload;
    }
    assert Payloads(rows) <= Payloads(t.rows);
    assert Base(plan.state) <= Content(t);
  }

  lemma DeleteStep(t: Tables, ids: set<nat>)
    requires ValidTables(t) && Captures(t, ids)
    ensures var t' := t.(rows := t.rows - ids); ValidTables(t') && Keeps(t, t', {})
  {
    var left := t.rows - ids;
    forall id, o | id in t.rows && o in t.rows[id].payload ensures o in Base(t.state) + Payloads(left) {
      if id !in ids { assert id in left && o in left[id].payload; }
    }
  }

  lemma MarkStep(t: Tables, ids: set<nat>)
    requires ValidTables(t)
    ensures var t' := t.(rows := MarkPending(t.rows, ids)); ValidTables(t') && Keeps(t, t', {})
  {
    var marked := MarkPending(t.rows, ids);
    assert forall id :: id in t.rows ==> marked[id].payload == t.rows[id].payload;
    assert Payloads(marked) == Payloads(t.rows);
  }

  lemma StepKeeps(db: Db, e: Event)
    requires Inv(db)
    ensures Inv(Step(db, e))
    ensures Keeps(db.t, Step(db, e).t, if e.Append? then e.payload else {})
  {
    match (e, db.phase)
    case (Append(payload), _) => AppendStep(db, payload);
    case (Write, HasRows(base, rows)) =>
      PlanIsSafe(base, rows);
      WriteStep(db.t, base, rows, PlanFor(base, rows));
    case (Purge, Written(plan)) => DeleteStep(db.t, plan.captured);
    case (Mark, Deleted(plan)) => MarkStep(db.t, plan.tail);
    case _ =>
  }

  lemma KeepsTransitive(a: Tables, b: Tables, c: Tables, x: Update, y: Update)
    requires ValidTables(a) && Keeps(a, b, x) && Keeps(b, c, y)
    ensures Keeps(a, c, x + y)
  {
    forall id | id in a.rows
      ensures if id in c.rows then c.rows[id].payload == a.rows[id].payload
              else a.rows[id].payload <= Base(c.state)
    {
      if id in c.rows { assert id in b.rows; }
    }
  }

  /** In every run: nothing is lost, nothing appears from nowhere, the snapshot stays causally closed
      and never shrinks, and a row leaves the table only once the snapshot holds it. */
  lemma {:induction false} RunKeeps(db: Db, events: seq<Event>)
    requires Inv(db)
    ensures Inv(Run(db, events))
    ensures Keeps(db.t, Run(db, events).t, AppendedBy(events))
    decreases events
  {
    if events != [] {
      StepKeeps(db, events[0]);
      RunKeeps(Step(db, events[0]), events[1..]);
      KeepsTransitive(db.t, Step(db, events[0]).t, Run(db, events).t,
        if events[0].Append? then events[0].payload else {}, AppendedBy(events[1..]));
    }
  }

  lemma RunFive(db: Db, a: Event, b: Event, c: Event, d: Event, e: Event)
    ensures Run(db, [a, b, c, d, e]) == Step(Step(Step(Step(Step(db, a), b), c), d), e)
  {
    assert [a, b, c, d, e][1..] == [b, c, d, e];
    RunFour(Step(db, a), b, c, d, e);
  }

  /** Undisturbed, the steps are one compaction, and let the lock go. */
  lemma StepsCompact(t: Tables)
    requires ValidTables(t) && t.rows != map[]
    ensures Run(Db(t, Idle), [Lock, Read, Write, Purge, Mark]) == Db(Compacted(t), Idle)
  {
    var plan := PlanFor(t.state, t.rows);
    RunFive(Db(t, Idle), Lock, Read, Write, Purge, Mark);
    assert Step(Step(Db(t, Idle), Lock), Read) == Db(t, HasRows(t.state, t.rows));
    assert Step(Db(t, HasRows(t.state, t.rows)), Write) == Db(t.(state := plan.state), Written(plan));
  }

  /** Whatever step a compaction stopped at, the next one, undisturbed, finishes the work. */
  lemma CrashIsRepaired(db: Db)
    requires Inv(db) && db.t.rows != map[]
    ensures Run(Step(db, Crash), [Lock, Read, Write, Purge, Mark]) == Db(Compacted(db.t), Idle)
  {
    StepsCompact(db.t);
  }

  /** What a load returns from a tail read in one state of the tables and a snapshot read in another. */
  function Loaded(tailRead: Tables, snapshotRead: Tables): Option<Update> {
    if tailRead.rows == map[] then snapshotRead.state
    else Some(Base(snapshotRead.state) + Payloads(tailRead.rows))
  }

  /** Tail first, snapshot second: whatever commits in between, the load returns at least everything
      committed at the tail read and at most everything committed at the snapshot read. */
  lemma RacingLoadIsSandwiched(db: Db, between: seq<Event>)
    requires Inv(db)
    ensures Content(db.t) <= Base(Loaded(db.t, Run(db, between).t)) <= Content(Run(db, between).t)
  {
    RunKeeps(db, between);
  }

  /** The other order is wrong on every healthy store with an unfolded tail: a compaction between
      the two reads leaves an old snapshot and an empty tail. */
  lemma SnapshotFirstLosesTheTail(t: Tables)
    requires ValidTables(t) && t.rows != map[] && Closed(Content(t)) && Content(t) != Base(t.state)
    ensures var late := Run(Db(t, Idle), [Lock, Read, Write, Purge]);
      && Inv(late)
      && Base(Loaded(late.t, t)) < Content(t)
  {
    var db := Db(t, Idle);
    RunKeeps(db, [Lock, Read, Write, Purge]);
    RunFour(db, Lock, Read, Write, Purge);
    PlanIsSafe(t.state, t.rows);
    PendingPlan(t);
    assert t.rows - t.rows.Keys == map[];
  }

  lemma RunFour(db: Db, a: Event, b: Event, c: Event, d: Event)
    ensures Run(db, [a, b, c, d]) == Step(Step(Step(Step(db, a), b), c), d)
  {
    calc {
      Run(db, [a, b, c, d]);
      { assert [a, b, c, d][1..] == [b, c, d]; }
      Run(Step(db, a), [b, c, d]);
      { assert [b, c, d][1..] == [c, d]; }
      Run(Step(Step(db, a), b), [c, d]);
      { assert [c, d][1..] == [d]; }
      Run(Step(Step(Step(db, a), b), c), [d]);
      { assert [d][1..] == []; }
      Run(Step(Step(Step(Step(db, a), b), c), d), []);
    }
  }

  lemma PendingPlan(t: Tables)
    requires Closed(Content(t))
    ensures PlanFor(t.state, t.rows).captured == t.rows.Keys
  {
    Crdt.PendingIffGap(DocOf(Content(t)));
  }
}
