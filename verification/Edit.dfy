/** Local writes waiting to be sent: merged a few at a time, taken by edits, put back on failure. */
module Merging {

  /** An update is the writes it carries, in order; merging joins them, so any associative merge of
      updates is an image of this one. */
  type Write = nat
  type Update = seq<Write>

  datatype Result<T> = Ok(value: T) | Err

  const FAN_IN := 16

  function Flatten(updates: seq<Update>): Update {
    if updates == [] then [] else updates[0] + Flatten(updates[1..])
  }

  lemma {:induction false} FlattenConcat(a: seq<Update>, b: seq<Update>)
    ensures Flatten(a + b) == Flatten(a) + Flatten(b)
    decreases |a|
  {
    if a == [] {
      assert a + b == b;
    } else {
      assert (a + b)[1..] == a[1..] + b;
      FlattenConcat(a[1..], b);
    }
  }

  lemma FlattenOne(update: Update)
    ensures Flatten([update]) == update
  {
    assert [update][1..] == [];
  }

  /** Whether merging a chunk fails; a chunk of one is never merged. */
  type Fails = seq<Update> -> bool

  /** No merge of two to sixteen updates fails. */
  ghost predicate NeverFails(fails: Fails) { forall chunk :: 1 < |chunk| <= FAN_IN ==> !fails(chunk) }

  /** One level: consecutive chunks of at most sixteen, each merged into one. */
  method MergeChunks(updates: seq<Update>, fails: Fails) returns (r: Result<seq<Update>>)
    ensures NeverFails(fails) ==> r.Ok?
    ensures r.Ok? ==> Flatten(r.value) == Flatten(updates)
    ensures r.Ok? ==> |r.value| == (|updates| + FAN_IN - 1) / FAN_IN
  {
    var out: seq<Update> := [];
    var i := 0;
    while i < |updates|
      invariant 0 <= i <= |updates| && (i < |updates| ==> i == FAN_IN * |out|)
      invariant |out| == (i + FAN_IN - 1) / FAN_IN
      invariant Flatten(out) == Flatten(updates[..i])
    {
      var n := if i + FAN_IN <= |updates| then FAN_IN else |updates| - i;
      var chunk := updates[i..i + n];
      if n != 1 && fails(chunk) { return Err; }
      assert updates[..i + n] == updates[..i] + chunk;
      FlattenConcat(updates[..i], chunk);
      FlattenConcat(out, [Flatten(chunk)]);
      FlattenOne(Flatten(chunk));
      out := out + [Flatten(chunk)];
      i := i + n;
    }
    assert updates[..i] == updates;
    return Ok(out);
  }

  /** The merge tree terminates and equals one flat merge of everything. */
  method MergeUnsent(updates: seq<Update>, fails: Fails) returns (r: Result<Update>)
    ensures NeverFails(fails) ==> r.Ok?
    ensures r.Ok? ==> r.value == Flatten(updates)
  {
    if |updates| == 1 {
      FlattenOne(updates[0]);
      assert updates == [updates[0]];
      return Ok(updates[0]);
    }
    var merged := MergeChunks(updates, fails);
    if merged.Err? { return Err; }
    var level := merged.value;
    while |level| > 1
      invariant Flatten(level) == Flatten(updates)
      decreases |level|
    {
      merged := MergeChunks(level, fails);
      if merged.Err? { return Err; }
      level := merged.value;
    }
    if level == [] { return Ok([]); }
    FlattenOne(level[0]);
    assert level == [level[0]];
    return Ok(level[0]);
  }
}

/** `Y::Doc#edit` and the list behind it, over every interleaving of threads, nested edits, failing
    merges and interrupts. */
module Edit {
  import opened Merging

  type EditId = nat

  /** Where an edit is.  Between Taking and the end of the masked section interrupts only wait. */
  datatype Phase =
    | InBlock
    | Taking
    | Merge(taken: seq<Update>)      // taken from the list, merging outside the lock
    | Took(update: Update)           // merged, in hand
    | Kept(update: Update)           // nested, and already put back
    | Over

  datatype Ed = Ed(nested: bool, phase: Phase)

  datatype State = State(
    unsent: seq<Update>,
    edits: map<EditId, Ed>,
    returned: map<EditId, Update>,   // by edits that were not nested
    next: Write)                     // writes made so far are those below it

  const INIT := State([], map[], map[], 0)

  datatype Event =
    | Commit                                   // a local transaction commits
    | Begin(id: EditId, context: set<EditId>)  // an edit starts; its fiber inherited these edits
    | BlockEnds(id: EditId, raised: bool)
    | Take(id: EditId)
    | Merged(id: EditId)
    | MergeFailed(id: EditId)                  // or an interrupt came back with it
    | Keep(id: EditId)
    | Return(id: EditId)
    | Interrupt(id: EditId)                    // raised as the masked section ends

  predicate Running(s: State, id: EditId) { id in s.edits && s.edits[id].phase.InBlock? }

  predicate At(s: State, id: EditId, nested: bool) { id in s.edits && s.edits[id].nested == nested }

  predicate Enabled(s: State, e: Event) {
    match e
    case Commit => true
    case Begin(id, _) => id !in s.edits
    case BlockEnds(id, _) => Running(s, id)
    case Take(id) => id in s.edits && s.edits[id].phase.Taking?
    case Merged(id) => id in s.edits && s.edits[id].phase.Merge?
    case MergeFailed(id) => id in s.edits && s.edits[id].phase.Merge?
    case Keep(id) => At(s, id, true) && s.edits[id].phase.Took?
    case Return(id) => id in s.edits && (if s.edits[id].nested then s.edits[id].phase.Kept? else s.edits[id].phase.Took?)
    case Interrupt(id) => id in s.edits && (if s.edits[id].nested then s.edits[id].phase.Kept? else s.edits[id].phase.Took?)
  }

  function Moved(s: State, id: EditId, phase: Phase): State
    requires id in s.edits
  {
    s.(edits := s.edits[id := s.edits[id].(phase := phase)])
  }

  function Step(s: State, e: Event): State
    requires Enabled(s, e)
  {
    match e
    case Commit => s.(unsent := s.unsent + [[s.next]], next := s.next + 1)
    case Begin(id, context) =>
      s.(edits := s.edits[id := Ed(exists outer <- context :: Running(s, outer), InBlock)])
    case BlockEnds(id, raised) => Moved(s, id, if raised then Over else Taking)
    case Take(id) => Moved(s, id, if s.unsent == [] then Over else Merge(s.unsent)).(unsent := [])
    case Merged(id) => Moved(s, id, Took(Flatten(s.edits[id].phase.taken)))
    case MergeFailed(id) => Moved(s, id, Over).(unsent := s.edits[id].phase.taken + s.unsent)
    case Keep(id) => Moved(s, id, Kept(s.edits[id].phase.update)).(unsent := [s.edits[id].phase.update] + s.unsent)
    case Return(id) =>
      if s.edits[id].nested then Moved(s, id, Over)
      else Moved(s, id, Over).(returned := s.returned[id := s.edits[id].phase.update])
    case Interrupt(id) =>
      if s.edits[id].nested then Moved(s, id, Over)
      else Moved(s, id, Over).(unsent := [s.edits[id].phase.update] + s.unsent)
  }

  // ---------------------------------------------------------------- where a write is

  datatype Place = Unsent | InFlight(id: EditId) | Returned(id: EditId)

  function Held(s: State, p: Place): Update {
    match p
    case Unsent => Flatten(s.unsent)
    case InFlight(id) =>
      if id !in s.edits then []
      else if s.edits[id].phase.Merge? then Flatten(s.edits[id].phase.taken)
      else if s.edits[id].phase.Took? then s.edits[id].phase.update
      else []
    case Returned(id) => if id in s.returned then s.returned[id] else []
  }

  /** How often a write occurs in a place. */
  type Counts = (Place, Write) -> nat

  function CountsOf(s: State): Counts { (p, w) => multiset(Held(s, p))[w] }

  ghost predicate OnlyAt(c: Counts, p: Place, w: Write) {
    c(p, w) == 1 && forall q :: q != p ==> c(q, w) == 0
  }

  ghost predicate Somewhere(c: Counts, w: Write) { exists p :: OnlyAt(c, p, w) }

  /** Every write made is in exactly one place, once; a write not yet made is nowhere. */
  ghost predicate Conserved(c: Counts, next: Write) {
    && (forall w :: 0 <= w < next ==> Somewhere(c, w))
    && (forall w, p :: w >= next ==> c(p, w) == 0)
  }

  ghost predicate ReturnedAreOver(s: State) {
    forall id :: id in s.returned ==> id in s.edits && s.edits[id] == Ed(false, Over)
  }

  ghost predicate Inv(s: State) { Conserved(CountsOf(s), s.next) && ReturnedAreOver(s) }

  // ---------------------------------------------------------------- every step conserves

  lemma StillKeeps(s: State, s': State)
    requires Inv(s) && s'.next == s.next && (forall p :: Held(s', p) == Held(s, p)) && ReturnedAreOver(s')
    ensures Inv(s')
  {
    SameCounts(CountsOf(s), CountsOf(s'), s.next);
  }

  lemma SameCounts(c: Counts, c': Counts, next: Write)
    requires Conserved(c, next) && forall p, w :: c'(p, w) == c(p, w)
    ensures Conserved(c', next)
  {
    forall w | 0 <= w < next ensures Somewhere(c', w) {
      assert Somewhere(c, w);
      var p :| OnlyAt(c, p, w);
      assert OnlyAt(c', p, w);
    }
  }

  /** Everything one place held goes to another, which keeps what it had. */
  lemma CountsMove(c: Counts, c': Counts, next: Write, src: Place, dst: Place)
    requires Conserved(c, next) && src != dst
    requires forall w :: c'(src, w) == 0 && c'(dst, w) == c(src, w) + c(dst, w)
    requires forall q, w :: q != src && q != dst ==> c'(q, w) == c(q, w)
    ensures Conserved(c', next)
  {
    forall w | 0 <= w < next ensures Somewhere(c', w) {
      assert Somewhere(c, w);
      var p :| OnlyAt(c, p, w);
      assert OnlyAt(c', if p == src then dst else p, w);
    }
  }

  lemma MoveKeeps(s: State, s': State, src: Place, dst: Place)
    requires Inv(s) && s'.next == s.next && src != dst && ReturnedAreOver(s')
    requires Held(s', src) == []
    requires multiset(Held(s', dst)) == multiset(Held(s, src)) + multiset(Held(s, dst))
    requires forall q :: q != src && q != dst ==> Held(s', q) == Held(s, q)
    ensures Inv(s')
  {
    CountsMove(CountsOf(s), CountsOf(s'), s.next, src, dst);
  }

  lemma CountsGrow(c: Counts, c': Counts, next: Write)
    requires Conserved(c, next)
    requires forall w :: c'(Unsent, w) == c(Unsent, w) + if w == next then 1 else 0
    requires forall q, w :: q != Unsent ==> c'(q, w) == c(q, w)
    ensures Conserved(c', next + 1)
  {
    forall w | 0 <= w < next + 1 ensures Somewhere(c', w) {
      if w == next {
        assert OnlyAt(c', Unsent, w);
      } else {
        assert Somewhere(c, w);
        var p :| OnlyAt(c, p, w);
        assert OnlyAt(c', p, w);
      }
    }
  }

  lemma SnocCount(a: Update, x: Write, w: Write)
    ensures multiset(a + [x])[w] == multiset(a)[w] + if w == x then 1 else 0
  {
    assert multiset(a + [x]) == multiset(a) + multiset{x};
  }

  lemma WriteHeld(s: State)
    ensures Held(Step(s, Commit), Unsent) == Held(s, Unsent) + [s.next]
    ensures forall q :: q != Unsent ==> Held(Step(s, Commit), q) == Held(s, q)
  {
    FlattenConcat(s.unsent, [[s.next]]);
    FlattenOne([s.next]);
  }

  lemma GrowKeeps(s: State, s': State)
    requires Inv(s) && s'.next == s.next + 1 && ReturnedAreOver(s')
    requires Held(s', Unsent) == Held(s, Unsent) + [s.next]
    requires forall q :: q != Unsent ==> Held(s', q) == Held(s, q)
    ensures Inv(s')
  {
    var c, c' := CountsOf(s), CountsOf(s');
    forall w ensures c'(Unsent, w) == c(Unsent, w) + if w == s.next then 1 else 0 {
      SnocCount(Held(s, Unsent), s.next, w);
    }
    forall q, w | q != Unsent ensures c'(q, w) == c(q, w) { }
    CountsGrow(c, c', s.next);
  }

  lemma WriteKeeps(s: State)
    requires Inv(s)
    ensures Inv(Step(s, Commit))
  {
    WriteHeld(s);
    GrowKeeps(s, Step(s, Commit));
  }

  lemma TakeKeeps(s: State, id: EditId)
    requires Inv(s) && Enabled(s, Take(id))
    ensures Inv(Step(s, Take(id)))
  {
    var s' := Step(s, Take(id));
    assert multiset(Held(s', InFlight(id))) == multiset(Held(s, Unsent)) + multiset(Held(s, InFlight(id)));
    assert forall q :: q != Unsent && q != InFlight(id) ==> Held(s', q) == Held(s, q);
    MoveKeeps(s, s', Unsent, InFlight(id));
  }

  lemma HeldElsewhere(s: State, id: EditId, phase: Phase, unsent: seq<Update>)
    requires id in s.edits
    ensures forall q :: q != Unsent && q != InFlight(id) ==> Held(Moved(s, id, phase).(unsent := unsent), q) == Held(s, q)
  {
  }

  /** Back ahead of whatever was written since. */
  lemma PutBackKeeps(s: State, s': State, id: EditId, phase: Phase, back: seq<Update>)
    requires Inv(s) && id in s.edits && Held(s, InFlight(id)) == Flatten(back)
    requires phase.Kept? || phase.Over?
    requires s' == Moved(s, id, phase).(unsent := back + s.unsent)
    requires id !in s.returned
    ensures Inv(s')
  {
    FlattenConcat(back, s.unsent);
    assert Held(s', Unsent) == Held(s, InFlight(id)) + Held(s, Unsent);
    HeldElsewhere(s, id, phase, back + s.unsent);
    MoveKeeps(s, s', InFlight(id), Unsent);
  }

  lemma ReturnKeeps(s: State, id: EditId)
    requires Inv(s) && Enabled(s, Return(id)) && !s.edits[id].nested
    ensures Inv(Step(s, Return(id)))
  {
    var s' := Step(s, Return(id));
    assert Held(s, Returned(id)) == [];
    assert Held(s', Returned(id)) == Held(s, InFlight(id)) + [];
    assert forall q :: q != Returned(id) && q != InFlight(id) ==> Held(s', q) == Held(s, q);
    MoveKeeps(s, s', InFlight(id), Returned(id));
  }

  lemma QuietKeeps(s: State, id: EditId, ed: Ed)
    requires Inv(s) && id !in s.returned
    requires Held(s.(edits := s.edits[id := ed]), InFlight(id)) == Held(s, InFlight(id))
    ensures Inv(s.(edits := s.edits[id := ed]))
  {
    var s' := s.(edits := s.edits[id := ed]);
    assert forall q :: q != InFlight(id) ==> Held(s', q) == Held(s, q);
    StillKeeps(s, s');
  }

  lemma StepKeeps(s: State, e: Event)
    requires Inv(s) && Enabled(s, e)
    ensures Inv(Step(s, e))
  {
    var s' := Step(s, e);
    match e
    case Commit => WriteKeeps(s);
    case Begin(id, _) => QuietKeeps(s, id, s'.edits[id]);
    case BlockEnds(id, _) => QuietKeeps(s, id, s'.edits[id]);
    case Take(id) => TakeKeeps(s, id);
    case Merged(id) => QuietKeeps(s, id, s'.edits[id]);
    case MergeFailed(id) => PutBackKeeps(s, s', id, Over, s.edits[id].phase.taken);
    case Keep(id) =>
      FlattenOne(s.edits[id].phase.update);
      PutBackKeeps(s, s', id, Kept(s.edits[id].phase.update), [s.edits[id].phase.update]);
    case Return(id) => if s.edits[id].nested { QuietKeeps(s, id, s'.edits[id]); } else { ReturnKeeps(s, id); }
    case Interrupt(id) =>
      if s.edits[id].nested {
        QuietKeeps(s, id, s'.edits[id]);
      } else {
        FlattenOne(s.edits[id].phase.update);
        PutBackKeeps(s, s', id, Over, [s.edits[id].phase.update]);
      }
  }

  /** The state after a run, or None at a step that cannot happen. */
  ghost predicate Reaches(s: State, events: seq<Event>, s': State)
    decreases events
  {
    if events == [] then s' == s
    else Enabled(s, events[0]) && Reaches(Step(s, events[0]), events[1..], s')
  }

  lemma {:induction false} RunKeeps(s: State, events: seq<Event>, s': State)
    requires Inv(s) && Reaches(s, events, s')
    ensures Inv(s')
    decreases events
  {
    if events != [] {
      StepKeeps(s, events[0]);
      RunKeeps(Step(s, events[0]), events[1..], s');
    }
  }

  lemma InitKeeps()
    ensures Inv(INIT)
  {
    assert forall p :: Held(INIT, p) == [];
  }

  /** In every run, every local write is in exactly one of the unsent list, one edit's hands, or one
      non-nested edit's returned update, and there once. */
  lemma EveryWriteIsInOnePlace(events: seq<Event>, s: State, w: Write)
    requires Reaches(INIT, events, s)
    ensures w < s.next ==> Somewhere(CountsOf(s), w)
    ensures w >= s.next ==> forall p :: w !in Held(s, p)
  {
    InitKeeps();
    RunKeeps(INIT, events, s);
    forall p | w >= s.next ensures w !in Held(s, p) { assert CountsOf(s)(p, w) == 0; }
  }

  /** What a take takes, in every run: a write made before it is taken exactly if no edit holds it and
      no edit has returned it. */
  lemma TakesExactly(events: seq<Event>, s: State, id: EditId, w: Write)
    requires Reaches(INIT, events, s) && Enabled(s, Take(id)) && w < s.next
    ensures w in Held(Step(s, Take(id)), InFlight(id)) <==>
      forall other :: w !in Held(s, InFlight(other)) && w !in Held(s, Returned(other))
  {
    EveryWriteIsInOnePlace(events, s, w);
    var p :| OnlyAt(CountsOf(s), p, w);
    assert w in Held(s, p);
    assert Held(Step(s, Take(id)), InFlight(id)) == Held(s, Unsent);
    forall q ensures w in Held(s, q) <==> q == p {
      assert q != p ==> CountsOf(s)(q, w) == 0;
    }
  }

  /** With no other edit mid-take, an edit takes every write that no edit has returned. */
  lemma AnEditTakesAllThatIsLeft(events: seq<Event>, s: State, id: EditId, w: Write)
    requires Reaches(INIT, events, s) && Enabled(s, Take(id)) && w < s.next
    requires forall other :: Held(s, InFlight(other)) == []
    requires forall other :: w !in Held(s, Returned(other))
    ensures s.unsent != [] && w in Flatten(Step(s, Take(id)).edits[id].phase.taken)
  {
    TakesExactly(events, s, id, w);
    assert w in Held(Step(s, Take(id)), InFlight(id));
  }

  // ---------------------------------------------------------------- two takes at once

  lemma {:induction false} ReachesSnoc(s: State, events: seq<Event>, mid: State, e: Event)
    requires Reaches(s, events, mid) && Enabled(mid, e)
    ensures Reaches(s, events + [e], Step(mid, e))
    decreases events
  {
    if events == [] {
      assert (events + [e])[1..] == [];
    } else {
      assert (events + [e])[1..] == events[1..] + [e];
      ReachesSnoc(Step(s, events[0]), events[1..], mid, e);
    }
  }

  function Both(unsent: seq<Update>, one: Phase, two: Phase, returned: map<EditId, Update>, next: Write): State {
    State(unsent, map[1 := Ed(false, one), 2 := Ed(false, two)], returned, next)
  }

  lemma TwoBegin() returns (events: seq<Event>)
    ensures Reaches(INIT, events, Both([[0]], InBlock, InBlock, map[], 1))
  {
    var s1 := Step(INIT, Commit);
    var s2 := Step(s1, Begin(1, {}));
    ReachesSnoc(INIT, [], INIT, Commit);
    ReachesSnoc(INIT, [Commit], s1, Begin(1, {}));
    ReachesSnoc(INIT, [Commit] + [Begin(1, {})], s2, Begin(2, {}));
    assert Step(s2, Begin(2, {})) == Both([[0]], InBlock, InBlock, map[], 1);
    events := [] + [Commit] + [Begin(1, {})] + [Begin(2, {})];
    assert events == [Commit] + [Begin(1, {})] + [Begin(2, {})] && [] + [Commit] == [Commit];
  }

  /** The first edit holds write 0, being merged, while the second takes write 1. */
  lemma TwoTake(events: seq<Event>) returns (events': seq<Event>)
    requires Reaches(INIT, events, Both([[0]], InBlock, InBlock, map[], 1))
    ensures Reaches(INIT, events', Both([], Merge([[0]]), Merge([[1]]), map[], 2))
  {
    var s0 := Both([[0]], InBlock, InBlock, map[], 1);
    var s1 := Both([[0]], Taking, InBlock, map[], 1);
    var s2 := Both([], Merge([[0]]), InBlock, map[], 1);
    var s3 := Both([[1]], Merge([[0]]), InBlock, map[], 2);
    var s4 := Both([[1]], Merge([[0]]), Taking, map[], 2);
    assert Step(s0, BlockEnds(1, false)) == s1;
    assert Step(s1, Take(1)) == s2;
    assert Step(s2, Commit) == s3;
    assert Step(s3, BlockEnds(2, false)) == s4;
    assert Step(s4, Take(2)) == Both([], Merge([[0]]), Merge([[1]]), map[], 2);
    var e1 := events + [BlockEnds(1, false)];
    var e2 := e1 + [Take(1)];
    var e3 := e2 + [Commit];
    var e4 := e3 + [BlockEnds(2, false)];
    ReachesSnoc(INIT, events, s0, BlockEnds(1, false));
    ReachesSnoc(INIT, e1, s1, Take(1));
    ReachesSnoc(INIT, e2, s2, Commit);
    ReachesSnoc(INIT, e3, s3, BlockEnds(2, false));
    ReachesSnoc(INIT, e4, s4, Take(2));
    events' := e4 + [Take(2)];
  }

  lemma SecondReturns(events: seq<Event>) returns (events': seq<Event>)
    requires Reaches(INIT, events, Both([], Merge([[0]]), Merge([[1]]), map[], 2))
    ensures Reaches(INIT, events', Both([[0]], Over, Over, map[2 := [1]], 2))
  {
    var s0 := Both([], Merge([[0]]), Merge([[1]]), map[], 2);
    var s1 := Both([], Merge([[0]]), Took([1]), map[], 2);
    var s2 := Both([], Merge([[0]]), Over, map[2 := [1]], 2);
    var s3 := Both([], Took([0]), Over, map[2 := [1]], 2);
    FlattenOne([0]);
    FlattenOne([1]);
    assert Step(s0, Merged(2)) == s1;
    assert Step(s1, Return(2)) == s2;
    assert Step(s2, Merged(1)) == s3;
    assert [[0]] + [] == [[0]];
    assert Step(s3, Interrupt(1)) == Both([[0]], Over, Over, map[2 := [1]], 2);
    var e1 := events + [Merged(2)];
    var e2 := e1 + [Return(2)];
    var e3 := e2 + [Merged(1)];
    ReachesSnoc(INIT, events, s0, Merged(2));
    ReachesSnoc(INIT, e1, s1, Return(2));
    ReachesSnoc(INIT, e2, s2, Merged(1));
    ReachesSnoc(INIT, e3, s3, Interrupt(1));
    events' := e3 + [Interrupt(1)];
  }

  /** Two takes at once can leave a gap: edit 2 returned write 1, and write 0, made before it, goes
      back to the list when edit 1 is interrupted. */
  lemma ConcurrentTakesLeaveAGap() returns (events: seq<Event>, s: State)
    ensures Reaches(INIT, events, s) && s.returned == map[2 := [1]] && s.unsent == [[0]] && s.next == 2
  {
    events := TwoBegin();
    events := TwoTake(events);
    events := SecondReturns(events);
    s := Both([[0]], Over, Over, map[2 := [1]], 2);
  }

  /** A nested edit leaves its update for the outer edit: once kept, its writes are in the list and
      nowhere else. */
  lemma NestedUpdateStays(s: State, id: EditId, w: Write)
    requires Inv(s) && Enabled(s, Keep(id)) && w in s.edits[id].phase.update
    ensures OnlyAt(CountsOf(Step(s, Keep(id))), Unsent, w)
  {
    var s', update := Step(s, Keep(id)), s.edits[id].phase.update;
    StepKeeps(s, Keep(id));
    FlattenOne(update);
    FlattenConcat([update], s.unsent);
    assert w in Held(s', Unsent);
    assert w < s.next by { assert CountsOf(s)(InFlight(id), w) != 0; }
    assert Somewhere(CountsOf(s'), w);
    var p :| OnlyAt(CountsOf(s'), p, w);
    assert CountsOf(s')(Unsent, w) != 0;
  }

  // ---------------------------------------------------------------- one take at a time

  ghost predicate Sent(s: State, w: Write) { exists id :: w in Held(s, Returned(id)) }

  /** No other edit is mid-take when one takes. */
  ghost predicate Solo(s: State, e: Event) { e.Take? ==> forall other :: Held(s, InFlight(other)) == [] }

  ghost predicate ReachesSolo(s: State, events: seq<Event>, s': State)
    decreases events
  {
    if events == [] then s' == s
    else Enabled(s, events[0]) && Solo(s, events[0]) && ReachesSolo(Step(s, events[0]), events[1..], s')
  }

  /** Below a returned write everything is returned; below one in an edit's hands everything is returned
      or in the same hands. */
  ghost predicate Ordered(s: State) {
    && (forall w: Write, w': Write :: w < w' && Sent(s, w') ==> Sent(s, w))
    && (forall id, w: Write, w': Write :: w < w' && w' in Held(s, InFlight(id)) ==> w in Held(s, InFlight(id)) || Sent(s, w))
  }

  /** Nothing was returned, and no edit holds more than it did. */
  lemma OrderedStays(s: State, s': State)
    requires Ordered(s) && forall id :: Held(s', Returned(id)) == Held(s, Returned(id))
    requires forall id :: Held(s', InFlight(id)) == Held(s, InFlight(id)) || Held(s', InFlight(id)) == []
    ensures Ordered(s')
  {
    forall w: Write ensures Sent(s', w) <==> Sent(s, w) { }
  }

  lemma TakeIsOrdered(s: State, id: EditId)
    requires Inv(s) && Ordered(s) && Enabled(s, Take(id)) && Solo(s, Take(id))
    ensures Ordered(Step(s, Take(id)))
  {
    var s' := Step(s, Take(id));
    forall w: Write ensures Sent(s', w) <==> Sent(s, w) { assert forall o :: Held(s', Returned(o)) == Held(s, Returned(o)); }
    assert forall o :: o != id ==> Held(s', InFlight(o)) == Held(s, InFlight(o));
    assert Held(s', InFlight(id)) == Held(s, Unsent);
    forall w: Write, w': Write | w < w' && w' in Held(s, Unsent) ensures w in Held(s, Unsent) || Sent(s, w) {
      assert CountsOf(s)(Unsent, w') != 0;
      assert Somewhere(CountsOf(s), w);
      var p :| OnlyAt(CountsOf(s), p, w);
      assert w in Held(s, p);
    }
  }

  lemma ReturnIsOrdered(s: State, id: EditId)
    requires Inv(s) && Ordered(s) && Enabled(s, Return(id)) && !s.edits[id].nested
    ensures Ordered(Step(s, Return(id)))
  {
    var s' := Step(s, Return(id));
    assert Held(s, Returned(id)) == [] && Held(s', Returned(id)) == Held(s, InFlight(id));
    assert forall o :: o != id ==> Held(s', Returned(o)) == Held(s, Returned(o)) && Held(s', InFlight(o)) == Held(s, InFlight(o));
    forall w: Write ensures Sent(s', w) <==> Sent(s, w) || w in Held(s, InFlight(id)) {
      if w in Held(s, InFlight(id)) { assert w in Held(s', Returned(id)); }
      if o :| w in Held(s, Returned(o)) { assert w in Held(s', Returned(o)); }
    }
  }

  lemma OrderedStep(s: State, e: Event)
    requires Inv(s) && Ordered(s) && Enabled(s, e) && Solo(s, e)
    ensures Ordered(Step(s, e))
  {
    if e.Take? {
      TakeIsOrdered(s, e.id);
    } else if e.Return? && !s.edits[e.id].nested {
      ReturnIsOrdered(s, e.id);
    } else {
      OrderedStays(s, Step(s, e));
    }
  }

  lemma {:induction false} OrderedRun(s: State, events: seq<Event>, s': State)
    requires Inv(s) && Ordered(s) && ReachesSolo(s, events, s')
    ensures Ordered(s')
    decreases events
  {
    if events != [] {
      StepKeeps(s, events[0]);
      OrderedStep(s, events[0]);
      OrderedRun(Step(s, events[0]), events[1..], s');
    }
  }

  /** While takes do not overlap, the updates edits return leave no gap: in every such run, with nested
      edits, failed merges and interrupts, below a returned write every write has been returned. */
  lemma NoGapsWithoutOverlap(events: seq<Event>, s: State)
    requires ReachesSolo(INIT, events, s)
    ensures forall w: Write, w': Write :: w < w' && Sent(s, w') ==> Sent(s, w)
  {
    InitKeeps();
    assert forall p :: Held(INIT, p) == [];
    OrderedRun(INIT, events, s);
  }

  // ---------------------------------------------------------------- nesting

  /** An edit its fiber inherited was still in its block when this one began. */
  ghost predicate BeganInside(s: State, context: set<EditId>) { exists outer :: outer in context && Running(s, outer) }

  /** `s'` comes some time after edit `id` began in state `s` of a run. */
  ghost predicate After(before: seq<Event>, s: State, id: EditId, context: set<EditId>, events: seq<Event>, s': State) {
    Reaches(INIT, before, s) && id !in s.edits && Reaches(Step(s, Begin(id, context)), events, s')
  }

  lemma {:induction false} FlagStays(s: State, id: EditId, events: seq<Event>, s': State)
    requires id in s.edits && Reaches(s, events, s')
    ensures id in s'.edits && s'.edits[id].nested == s.edits[id].nested
    decreases events
  {
    if events != [] { FlagStays(Step(s, events[0]), id, events[1..], s'); }
  }

  lemma FlagIsOrigin(before: seq<Event>, s: State, id: EditId, context: set<EditId>, events: seq<Event>, s': State)
    requires After(before, s, id, context, events, s')
    ensures Inv(s') && id in s'.edits && (s'.edits[id].nested <==> BeganInside(s, context))
  {
    InitKeeps();
    RunKeeps(INIT, before, s);
    StepKeeps(s, Begin(id, context));
    RunKeeps(Step(s, Begin(id, context)), events, s');
    FlagStays(Step(s, Begin(id, context)), id, events, s');
  }

  /** In every run, an edit begun inside a running one never hands writes over for good. */
  lemma InnerNeverHandsOver(before: seq<Event>, s: State, id: EditId, context: set<EditId>, events: seq<Event>, s': State)
    requires After(before, s, id, context, events, s') && BeganInside(s, context)
    ensures id !in s'.returned
  {
    FlagIsOrigin(before, s, id, context, events, s');
  }

  /** Whatever ends an inner edit's hold on a write, the write is then in the list and nowhere else. */
  lemma InnerGivesBack(before: seq<Event>, s: State, id: EditId, context: set<EditId>, events: seq<Event>, s': State, e: Event, w: Write)
    requires After(before, s, id, context, events, s') && BeganInside(s, context) && Enabled(s', e)
    requires w in Held(s', InFlight(id)) && w !in Held(Step(s', e), InFlight(id))
    ensures OnlyAt(CountsOf(Step(s', e)), Unsent, w)
  {
    FlagIsOrigin(before, s, id, context, events, s');
    LetGoIsListed(s', id, e, w);
  }

  lemma LetGoIsListed(s: State, id: EditId, e: Event, w: Write)
    requires Inv(s) && id in s.edits && s.edits[id].nested && Enabled(s, e)
    requires w in Held(s, InFlight(id)) && w !in Held(Step(s, e), InFlight(id))
    ensures OnlyAt(CountsOf(Step(s, e)), Unsent, w)
  {
    var s' := Step(s, e);
    StepKeeps(s, e);
    assert e == MergeFailed(id) || e == Keep(id);
    var back := if e.Keep? then [s.edits[id].phase.update] else s.edits[id].phase.taken;
    assert Held(s', Unsent) == Held(s, InFlight(id)) + Held(s, Unsent) by {
      FlattenConcat(back, s.unsent);
      if e.Keep? { FlattenOne(s.edits[id].phase.update); }
    }
    assert CountsOf(s')(Unsent, w) != 0;
    assert CountsOf(s)(InFlight(id), w) != 0;
    assert w < s'.next && Somewhere(CountsOf(s'), w);
    var p :| OnlyAt(CountsOf(s'), p, w);
  }

  /** The block ends, the edit takes, merges and returns. */
  function Finishing(id: EditId): seq<Event> {
    [] + [BlockEnds(id, false)] + [Take(id)] + [Merged(id)] + [Return(id)]
  }

  lemma FinishesAlone(s: State, id: EditId) returns (s': State)
    requires id in s.edits && s.edits[id] == Ed(false, InBlock) && s.unsent != []
    ensures Reaches(s, Finishing(id), s') && id in s'.returned && s'.returned[id] == Flatten(s.unsent) && s'.unsent == []
  {
    var s1 := Step(s, BlockEnds(id, false));
    var s2 := Step(s1, Take(id));
    var s3 := Step(s2, Merged(id));
    s' := Step(s3, Return(id));
    assert s1.edits[id] == Ed(false, Taking) && s1.unsent == s.unsent;
    assert s2.edits[id] == Ed(false, Merge(s.unsent)) && s2.unsent == [];
    assert s3.edits[id] == Ed(false, Took(Flatten(s.unsent))) && s3.unsent == [];
    ReachesSnoc(s, [], s, BlockEnds(id, false));
    ReachesSnoc(s, [] + [BlockEnds(id, false)], s1, Take(id));
    ReachesSnoc(s, [] + [BlockEnds(id, false)] + [Take(id)], s2, Merged(id));
    ReachesSnoc(s, [] + [BlockEnds(id, false)] + [Take(id)] + [Merged(id)], s3, Return(id));
  }

  /** An edit begun outside every running one, once it completes undisturbed, hands over everything that
      was in the list: its own writes, and those an inner edit left there. */
  lemma OuterHandsOver(before: seq<Event>, s: State, id: EditId, context: set<EditId>, events: seq<Event>, s': State) returns (s'': State)
    requires After(before, s, id, context, events, s') && !BeganInside(s, context) && Running(s', id) && s'.unsent != []
    ensures Reaches(s', Finishing(id), s'') && id in s''.returned && s''.returned[id] == Flatten(s'.unsent) && s''.unsent == []
  {
    FlagIsOrigin(before, s, id, context, events, s');
    s'' := FinishesAlone(s', id);
  }

  lemma {:induction false} OverStaysOver(s: State, id: EditId, events: seq<Event>, s': State)
    requires id in s.edits && s.edits[id].phase.Over? && id !in s.returned && Reaches(s, events, s')
    ensures id in s'.edits && s'.edits[id].phase.Over? && id !in s'.returned
    decreases events
  {
    if events != [] { OverStaysOver(Step(s, events[0]), id, events[1..], s'); }
  }

  /** An edit whose block raised takes nothing, then or later: its writes stay in the list for the next
      edit. */
  lemma RaisedBlockTakesNothing(before: seq<Event>, s: State, id: EditId, events: seq<Event>, s': State)
    requires Reaches(INIT, before, s) && Running(s, id) && Reaches(Step(s, BlockEnds(id, true)), events, s')
    ensures Step(s, BlockEnds(id, true)).unsent == s.unsent
    ensures id !in s'.returned && Held(s', InFlight(id)) == []
  {
    InitKeeps();
    RunKeeps(INIT, before, s);
    OverStaysOver(Step(s, BlockEnds(id, true)), id, events, s');
  }

  /** Hence an inner edit's write goes out with the outer edit: once the inner one lets it go, the outer
      one, completing undisturbed, hands it over. */
  lemma InnerWriteGoesWithOuter(
      b1: seq<Event>, s1: State, outer: EditId, c1: set<EditId>, e1: seq<Event>,
      b2: seq<Event>, s2: State, inner: EditId, c2: set<EditId>, e2: seq<Event>,
      s: State, e: Event, w: Write) returns (s': State)
    requires After(b1, s1, outer, c1, e1, s) && !BeganInside(s1, c1)
    requires After(b2, s2, inner, c2, e2, s) && outer in c2 && Running(s2, outer)
    requires Enabled(s, e) && Running(Step(s, e), outer)
    requires w in Held(s, InFlight(inner)) && w !in Held(Step(s, e), InFlight(inner))
    ensures Reaches(Step(s, e), Finishing(outer), s') && outer in s'.returned && w in s'.returned[outer]
  {
    FlagIsOrigin(b1, s1, outer, c1, e1, s);
    InnerGivesBack(b2, s2, inner, c2, e2, s, e, w);
    var s0 := Step(s, e);
    assert CountsOf(s0)(Unsent, w) == 1;
    assert w in Flatten(s0.unsent);
    s' := FinishesAlone(s0, outer);
  }

  // ---------------------------------------------------------------- one call

  datatype Taken = Nothing | Some(update: Update) | Raised

  /** The document's buffer.  `since` stands for what other threads commit during the call. */
  class Buffer {
    var unsent: seq<Update>

    constructor ()
      ensures unsent == []
    {
      unsent := [];
    }

    /** The native take: the list is emptied first, and put back ahead of `since` if the merge fails. */
    method NativeTake(fails: Fails, since: seq<Update>) returns (r: Taken)
      modifies this
      ensures r.Nothing? <==> old(unsent) == []
      ensures r.Some? ==> r.update == Flatten(old(unsent)) && unsent == since
      ensures r.Nothing? ==> unsent == since
      ensures r.Raised? ==> unsent == old(unsent) + since
      ensures NeverFails(fails) ==> !r.Raised?
    {
      var taken := unsent;
      unsent := [];
      if taken == [] { unsent := unsent + since; return Nothing; }
      var merged := MergeUnsent(taken, fails);
      unsent := unsent + since;
      match merged
      case Ok(update) => return Some(update);
      case Err =>
        unsent := taken + unsent;
        return Raised;
    }

    method NativeKeep(update: Update)
      modifies this
      ensures unsent == [update] + old(unsent)
    {
      unsent := [update] + unsent;
    }

    /** The take of an edit: only a plain return from an edit that is not nested lets anything leave. */
    method TakeUnsent(nested: bool, fails: Fails, since: seq<Update>, interrupted: bool) returns (r: Taken)
      modifies this
      ensures r.Some? ==> r.update == Flatten(old(unsent))
      ensures r.Some? && !nested ==> unsent == since
      ensures nested || !r.Some? ==> Flatten(unsent) == Flatten(old(unsent)) + Flatten(since)
      ensures r.Nothing? ==> old(unsent) == []
      ensures NeverFails(fails) && !interrupted && old(unsent) != [] ==> r.Some?
    {
      FlattenConcat(unsent, since);
      assert [] + since == since;
      r := NativeTake(fails, since);
      if r.Raised? { return; }
      if r.Some? && nested { Restore(r.update); }
      if interrupted {
        if r.Some? && !nested { Restore(r.update); }
        r := Raised;
      }
    }

    method Restore(update: Update)
      modifies this
      ensures Flatten(unsent) == update + Flatten(old(unsent))
    {
      FlattenConcat([update], unsent);
      FlattenOne(update);
      NativeKeep(update);
    }
  }
}
