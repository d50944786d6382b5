/** Gaps in the store: how they arise, why the queue alone never makes one, and how a join heals one. */
module Gaps {
  import opened Common
  import opened Crdt
  import opened Store
  import opened Queue
  import opened Network
  import C = Compaction

  // ---------------------------------------------------------------- without strays

  /** Beside the store, the client's document and its queue each lack nothing, and whatever the client
      knows is stored or queued. */
  ghost predicate WholeClient(c: Client, stored: Update) {
    Closed(stored + c.doc) && Closed(stored + Merged(c.queue)) && c.doc <= stored + Merged(c.queue)
  }

  ghost predicate WholeFrame(m: Msg, stored: Update) { m.Frame? ==> Closed(stored + m.payload) }

  ghost predicate Whole(s: System) {
    && Closed(Stored(s))
    && (forall n :: n in s.clients ==> WholeClient(s.clients[n], Stored(s)))
    && (forall m :: m in s.net ==> WholeFrame(m, Stored(s)))
  }

  lemma ClosedBeside(stored: Update, more: Update, x: Update)
    requires Closed(stored + more) && Closed(stored + x)
    ensures Closed(stored + more + x)
  {
    ClosedUnion(stored + more, stored + x);
    assert (stored + more) + (stored + x) == stored + more + x;
  }

  /** Recording a whole frame keeps everything whole. */
  lemma WholeGrows(s: System, s': System, more: Update)
    requires Whole(s) && Closed(Stored(s) + more) && Stored(s') == Stored(s) + more
    requires s'.clients == s.clients && s'.net == s.net
    ensures Whole(s')
  {
    forall n | n in s'.clients ensures WholeClient(s'.clients[n], Stored(s')) {
      ClosedBeside(Stored(s), more, s.clients[n].doc);
      ClosedBeside(Stored(s), more, Merged(s.clients[n].queue));
    }
    forall m | m in s'.net ensures WholeFrame(m, Stored(s')) {
      if m.Frame? { ClosedBeside(Stored(s), more, m.payload); }
    }
  }

  /** A step that leaves the store's content alone. */
  lemma WholeCarry(s: System, s': System)
    requires Whole(s) && Stored(s') == Stored(s)
    requires forall n :: n in s'.clients && !(n in s.clients && s'.clients[n] == s.clients[n]) ==> WholeClient(s'.clients[n], Stored(s))
    requires forall m :: m in s'.net && m !in s.net ==> WholeFrame(m, Stored(s))
    ensures Whole(s')
  {
  }

  lemma {:induction false} UnionSnoc(updates: seq<Update>, u: Update)
    ensures Union(updates + [u]) == Union(updates) + u
    decreases |updates|
  {
    if updates == [] {
      assert (updates + [u])[1..] == [];
    } else {
      assert (updates + [u])[1..] == updates[1..] + [u];
      UnionSnoc(updates[1..], u);
    }
  }

  /** An edit builds on what is shown, which is stored or queued. */
  lemma EditedIsWhole(c: Client, update: Update, stored: Update)
    requires WholeClient(c, stored) && Closed(Integrated(c.doc) + update)
    ensures WholeClient(Edited(c, update), stored)
  {
    var c' := Edited(c, update);
    assert Updates(c'.queue) == Updates(c.queue) + [update];
    UnionSnoc(Updates(c.queue), update);
    ClosedUnion(stored + c.doc, Integrated(c.doc) + update);
    assert (stored + c.doc) + (Integrated(c.doc) + update) == stored + c'.doc;
    ClosedUnion(stored + Merged(c.queue), Integrated(c.doc) + update);
    assert (stored + Merged(c.queue)) + (Integrated(c.doc) + update) == stored + Merged(c'.queue);
  }

  lemma {:induction false} UnionConcat(a: seq<Update>, b: seq<Update>)
    ensures Union(a + b) == Union(a) + Union(b)
    decreases |a|
  {
    if a == [] {
      assert a + b == b;
    } else {
      assert (a + b)[1..] == a[1..] + b;
      UnionConcat(a[1..], b);
    }
  }

  /** What an acknowledgement drops from the queue is stored. */
  lemma AckedIsWhole(c: Client, id: nat, stored: Update)
    requires WholeClient(c, stored) && QueueOk(c, stored) && Through(c, id, stored)
    ensures WholeClient(Acknowledged(c, id), stored)
  {
    var keep := if |c.log| - id < |c.queue| then |c.log| - id else |c.queue|;
    var left := c.queue[|c.queue| - keep..];
    QueueIsNumbered(c, stored);
    UnackedIsSuffix(c.queue, |c.log|, id);
    DroppedIsStored(c, |c.queue| - keep, stored);
    assert stored + Merged(left) == stored + Merged(c.queue);
    assert Acknowledged(c, id) == c || Acknowledged(c, id) == c.(queue := left);
  }

  lemma DroppedIsStored(c: Client, cut: nat, stored: Update)
    requires QueueOk(c, stored) && cut <= |c.queue| && Through(c, |c.log| - |c.queue| + cut, stored)
    ensures Merged(c.queue) <= stored + Merged(c.queue[cut..]) && Merged(c.queue[cut..]) <= Merged(c.queue)
  {
    var dropped := Updates(c.queue[..cut]);
    assert Updates(c.queue) == dropped + Updates(c.queue[cut..]);
    UnionConcat(dropped, Updates(c.queue[cut..]));
    forall k | 0 <= k < |dropped| ensures dropped[k] <= stored {
      assert dropped[k] == c.log[|c.log| - |c.queue| + k];
    }
    UnionInside(dropped, stored);
  }

  lemma ReceivedIsWhole(c: Client, c': Client, payload: Update, stored: Update)
    requires WholeClient(c, stored) && payload <= stored && c'.doc == c.doc + payload && c'.queue == c.queue
    ensures WholeClient(c', stored)
  {
    assert stored + c'.doc == stored + c.doc;
  }

  /** The reply to a greeting carries all of the client's document that the store lacks. */
  lemma ReplyIsWhole(s: System, m: Msg)
    requires Inv(s) && Whole(s) && Enabled(s, TakeHello(m))
    ensures Closed(Stored(s) + Diff(s.clients[m.client].doc, m.sv))
  {
    assert MsgOk(m, s) && WholeClient(s.clients[m.client], Stored(s)) && s.clients[m.client].doc <= s.world;
    ReplyCovers(s.world, Stored(s), s.clients[m.client].doc, m.sv);
  }

  lemma ReplyCovers(world: Update, stored: Update, doc: Update, sv: StateVector)
    requires Coherent(world) && stored <= world && doc <= world && Backed(sv, stored) && Closed(stored + doc)
    ensures Closed(stored + Diff(doc, sv))
  {
    DiffLeavesOutBacked(doc, sv, stored);
    assert stored + Diff(doc, sv) == stored + doc;
  }

  lemma SetIsWhole(s: System, n: nat, c: Client, world: Update)
    requires Whole(s) && WholeClient(c, Stored(s))
    ensures Whole(SetClient(s, n, c).(world := world)) && Whole(SetClient(s, n, c))
    ensures Stored(SetClient(s, n, c)) == Stored(s)
  {
    var s' := SetClient(s, n, c).(world := world);
    assert s'.db == s.db;
    WholeCarry(s, s');
    WholeCarry(s, SetClient(s, n, c));
  }

  lemma SendIsWhole(s: System, m: Msg)
    requires Whole(s) && WholeFrame(m, Stored(s))
    ensures Whole(Send(s, m))
  {
    assert Send(s, m).db == s.db;
    WholeCarry(s, Send(s, m));
  }

  lemma SendTailIsWhole(s: System, n: nat)
    requires Whole(s) && n in s.clients
    ensures Whole(SendTail(s, n))
  {
    var c := s.clients[n];
    assert WholeClient(c, Stored(s));
    if c.live && c.queue != [] { SendIsWhole(s, TailFrame(n, c)); }
  }

  lemma ResumeIsWhole(s: System, n: nat)
    requires Whole(s) && n in s.clients
    ensures Whole(SendTail(SendAsk(SetClient(s, n, Reopened(s.clients[n], true, Stored(s))), n), n))
  {
    assert WholeClient(s.clients[n], Stored(s));
    ReopenedIsWhole(s, n, true);
    var s1 := SetClient(s, n, Reopened(s.clients[n], true, Stored(s)));
    SendIsWhole(s1, Ask(n, s1.clients[n].cycle, Vector(Integrated(s1.clients[n].doc))));
    SendTailIsWhole(SendAsk(s1, n), n);
  }

  lemma ReopenedIsWhole(s: System, n: nat, live: bool)
    requires Whole(s) && n in s.clients
    ensures Whole(SetClient(s, n, Reopened(s.clients[n], live, Stored(s))))
  {
    assert WholeClient(s.clients[n], Stored(s));
    SetIsWhole(s, n, Reopened(s.clients[n], live, Stored(s)), s.world);
  }

  lemma JoinIsWhole(s: System, n: nat)
    requires Whole(s)
    ensures Whole(SetClient(s, n, Network.Fresh()))
  {
    var c := Network.Fresh();
    assert Stored(s) + {} == Stored(s) && Merged(c.queue) == {};
    SetIsWhole(s, n, c, s.world);
  }

  lemma EditIsWhole(s: System, n: nat, update: Update)
    requires Whole(s) && Writes(s, n, update)
    ensures Whole(SetClient(s, n, Edited(s.clients[n], update)).(world := s.world + update))
  {
    assert WholeClient(s.clients[n], Stored(s));
    EditedIsWhole(s.clients[n], update, Stored(s));
    SetIsWhole(s, n, Edited(s.clients[n], update), s.world + update);
  }

  lemma TakeAckIsWhole(s: System, m: Msg)
    requires Inv(s) && Whole(s) && Enabled(s, TakeAck(m))
    ensures Whole(SetClient(s, m.client, Acknowledged(s.clients[m.client], m.seqNo)))
  {
    assert MsgOk(m, s) && WholeClient(s.clients[m.client], Stored(s)) && ClientOk(s.clients[m.client], Stored(s), s.world);
    AckedIsWhole(s.clients[m.client], m.seqNo, Stored(s));
    SetIsWhole(s, m.client, Acknowledged(s.clients[m.client], m.seqNo), s.world);
  }

  lemma ReceiveIsWhole(s: System, n: nat, c: Client, payload: Update)
    requires Whole(s) && n in s.clients && payload <= Stored(s)
    requires c.doc == s.clients[n].doc + payload && c.queue == s.clients[n].queue
    ensures Whole(SetClient(s, n, c))
  {
    assert WholeClient(s.clients[n], Stored(s));
    ReceivedIsWhole(s.clients[n], c, payload, Stored(s));
    SetIsWhole(s, n, c, s.world);
  }

  /** Steps of the client. */
  lemma LocalIsWhole(s: System, e: Event)
    requires Inv(s) && Whole(s) && Enabled(s, e) && Local(e)
    ensures Whole(Step(s, e))
  {
    match e
    case Join(n) => JoinIsWhole(s, n);
    case Edit(n, update) => EditIsWhole(s, n, update);
    case Resume(n) => ResumeIsWhole(s, n);
    case Pause(n) => ReopenedIsWhole(s, n, false);
    case TakeAck(m) => TakeAckIsWhole(s, m);
    case TakeRelay(n, m) =>
      assert MsgOk(m, s);
      ReceiveIsWhole(s, n, Step(s, e).clients[n], m.payload);
    case TakeAnswer(m) =>
      assert MsgOk(m, s);
      ReceiveIsWhole(s, m.client, Step(s, e).clients[m.client], m.payload);
  }

  lemma RecordIsWhole(s: System, m: Msg)
    requires Inv(s) && Whole(s) && Enabled(s, Record(m))
    ensures Whole(Step(s, Record(m)))
  {
    RecordOk(s, m);
    assert WholeFrame(m, Stored(s));
    WholeGrows(s, Step(s, Record(m)), m.payload);
  }

  lemma StoreStepIsWhole(s: System, e: C.Event)
    requires Inv(s) && Whole(s) && !e.Append?
    ensures Whole(s.(db := C.Step(s.db, e)))
  {
    C.StepKeeps(s.db, e);
    WholeCarry(s, s.(db := C.Step(s.db, e)));
  }

  lemma StepIsWhole(s: System, e: Event)
    requires Inv(s) && Whole(s) && !e.Stray?
    ensures Whole(Step(s, e))
  {
    if Enabled(s, e) {
      if Local(e) {
        LocalIsWhole(s, e);
      } else {
        match e
        case Transmit(n) => SendTailIsWhole(s, n);
        case Record(m) => RecordIsWhole(s, m);
        case TakeHello(m) =>
          ReplyIsWhole(s, m);
          SendIsWhole(s, Frame(m.client, AsStep2, None, Diff(s.clients[m.client].doc, m.sv)));
        case StoreStep(e') => StoreStepIsWhole(s, e');
        case _ => QuietIsWhole(s, e);
      }
    }
  }

  /** Handlers and readers send no frame of a client and store nothing. */
  lemma QuietIsWhole(s: System, e: Event)
    requires Whole(s) && Enabled(s, e)
    requires e.Distribute? || e.SendAck? || e.Abandon? || e.ReadTail? || e.Reply? || e.Subscribe? || e.Greet?
    ensures Whole(Step(s, e))
  {
    WholeCarry(s, Step(s, e));
  }

  /** The tails of the queues, the replies to greetings, and nothing else: in every such run, whatever
      is lost, repeated or reordered, the store never has a gap. */
  lemma {:induction false} TailsLeaveNoGap(s: System, events: seq<Event>)
    requires Inv(s) && Whole(s) && forall e :: e in events ==> !e.Stray?
    ensures Whole(Run(s, events)) && Closed(Stored(Run(s, events)))
    decreases events
  {
    if events != [] {
      StepOk(s, events[0]);
      StepIsWhole(s, events[0]);
      TailsLeaveNoGap(Step(s, events[0]), events[1..]);
    }
  }

  /** The server never sees a gap of the queue's making. */
  lemma NoGapWithoutStrays(events: seq<Event>)
    requires forall e :: e in events ==> !e.Stray?
    ensures Closed(Stored(Run(INIT, events)))
  {
    InitOk();
    assert Content(INIT.db.t) == {};
    TailsLeaveNoGap(INIT, events);
  }

  // ---------------------------------------------------------------- a gap opens

  lemma RunSnoc(s: System, events: seq<Event>, e: Event)
    ensures Run(s, events + [e]) == Step(Run(s, events), e)
  {
    RunConcat(s, events, [e]);
    RunOne(Run(s, events), e);
  }

  /** One client, its document, and nothing stored or written beyond it. */
  ghost predicate Alone(s: System, n: nat, doc: Update) {
    n in s.clients && s.clients[n].doc == doc && s.world == doc && Stored(s) == {}
  }

  lemma FirstSteps(n: nat)
    ensures Alone(Run(INIT, [Join(n)]), n, {})
  {
    RunOne(INIT, Join(n));
    assert Content(INIT.db.t) == {};
  }

  lemma Wrote(s: System, n: nat, doc: Update, o: Op)
    requires Alone(s, n, doc) && Closed(doc) && Coherent(doc + {o}) && Needs(o) <= Ids(doc)
    ensures Alone(Step(s, Edit(n, {o})), n, doc + {o}) && Closed(doc + {o})
  {
    Protocol.ClosedExtend(doc, o);
    assert Writes(s, n, {o});
    var s' := Step(s, Edit(n, {o}));
    assert s'.clients[n] == Edited(s.clients[n], {o}) && s'.db == s.db;
  }

  lemma StrayStored(s: System, n: nat, part: Update)
    requires Inv(s) && n in s.clients && part <= s.clients[n].doc && part != {} && Stored(s) == {}
    ensures var s1 := Step(s, Stray(n, part)); var s2 := Step(s1, Record(Frame(n, AsUpdate, None, part)));
      Stored(s2) == part && s2.clients == s.clients
  {
    var s1 := Step(s, Stray(n, part));
    StepOk(s, Stray(n, part));
    assert s1.db == s.db && Stored(s1) == {};
    RecordOk(s1, Frame(n, AsUpdate, None, part));
  }

  lemma OrphanIsAGap(o: Op)
    requires o.Insert? && !(Needs(o) <= {o.id})
    ensures !Closed({o})
  {
    assert Ids({o}) == {o.id};
    if Closed({o}) { ClosedNeeds({o}, o); }
  }

  /** A client writes two blocks, and only the second arrives, without an id. */
  function OrphanRun(n: nat, a: Op, b: Op): seq<Event> {
    [Join(n)] + [Edit(n, {a})] + [Edit(n, {b})] + [Stray(n, {b})] + [Record(Frame(n, AsUpdate, None, {b}))]
  }

  /** Gaps do open: the store then holds a block whose dependency it lacks. */
  lemma GapsOpen(n: nat, a: Op, b: Op)
    requires a.Insert? && a.refs == {} && b.Insert? && b.refs == {a.id} && a.id != b.id
    ensures var s := Run(INIT, OrphanRun(n, a, b));
      n in s.clients && s.clients[n].doc == {a, b} && Stored(s) == {b} && !Closed(Stored(s))
  {
    var e1 := [Join(n)];
    var e2 := e1 + [Edit(n, {a})];
    var e3 := e2 + [Edit(n, {b})];
    var e4 := e3 + [Stray(n, {b})];
    FirstSteps(n);
    RunSnoc(INIT, e1, Edit(n, {a}));
    Wrote(Run(INIT, e1), n, {}, a);
    assert {} + {a} == {a};
    RunSnoc(INIT, e2, Edit(n, {b}));
    Wrote(Run(INIT, e2), n, {a}, b);
    assert {a} + {b} == {a, b};
    RunSnoc(INIT, e3, Stray(n, {b}));
    RunSnoc(INIT, e4, Record(Frame(n, AsUpdate, None, {b})));
    InitOk();
    RunOk(INIT, e3);
    StrayStored(Run(INIT, e3), n, {b});
    OrphanIsAGap(b);
  }

  // ---------------------------------------------------------------- and heals

  /** A client subscribes, is greeted, and its reply is recorded. */
  ghost function GreetingRound(s: System, n: nat): seq<Event>
    requires n in s.clients
  {
    var job := Greeting(n, s.clients[n].cycle, s.db.t);
    var hello := HelloFor(s, job);
    [Subscribe(n)] + [Greet(job)] + [TakeHello(hello)]
    + [Record(Frame(n, AsStep2, None, Diff(s.clients[n].doc, hello.sv)))]
  }

  lemma RunFour(s: System, a: Event, b: Event, c: Event, d: Event)
    ensures Run(s, [a] + [b] + [c] + [d]) == Step(Step(Step(Step(s, a), b), c), d)
  {
    RunSnoc(s, [a] + [b] + [c], d);
    RunSnoc(s, [a] + [b], c);
    RunSnoc(s, [a], b);
    RunOne(s, a);
  }

  /** A greeting asks for everything beyond the integrated state: the reply carries each block the client
      holds at or past the first clock the server has not integrated, parked there or not, and every
      deletion. */
  lemma ReplyGoesBeyondIntegrated(s: System, j: Job, doc: Update, o: Op)
    requires j.Greeting? && o in doc
    ensures o.Delete? || o.id.clock >= Clock(Integrated(Base(C.Loaded(j.tail, s.db.t))), o.id.client) ==>
      o in Diff(doc, HelloFor(s, j).sv)
  {
    if o.Insert? { VectorAt(Integrated(Base(C.Loaded(j.tail, s.db.t))), o.id.client); }
  }

  lemma Greeted(s: System, n: nat)
    requires n in s.clients
    ensures
      var job := Greeting(n, s.clients[n].cycle, s.db.t);
      var s2 := Step(Step(s, Subscribe(n)), Greet(job));
      s2.clients == s.clients && s2.db == s.db && HelloFor(s, job) in s2.net && Enabled(s2, TakeHello(HelloFor(s, job)))
  {
    var job := Greeting(n, s.clients[n].cycle, s.db.t);
    var s1 := Step(s, Subscribe(n));
    assert job in s1.jobs && s1.db == s.db && s1.clients == s.clients;
    assert HelloFor(s1, job) == HelloFor(s, job);
  }

  /** From every reachable state, gapped or not: if store and client together lack no dependency, one
      greeting the client answers leaves the store gap-free. */
  lemma OneGreetingHeals(events: seq<Event>, n: nat)
    requires n in Run(INIT, events).clients
    requires var s := Run(INIT, events); var held := Stored(s) + s.clients[n].doc;
      forall o :: o in held ==> Needs(o) <= Ids(held)
    ensures var s := Run(INIT, events); Closed(Stored(Run(s, GreetingRound(s, n))))
  {
    InitOk();
    RunOk(INIT, events);
    GreetingHeals(Run(INIT, events), n);
  }

  lemma GreetingHeals(s: System, n: nat)
    requires Inv(s) && n in s.clients
    requires var held := Stored(s) + s.clients[n].doc; forall o :: o in held ==> Needs(o) <= Ids(held)
    ensures Closed(Stored(Run(s, GreetingRound(s, n))))
  {
    var job := Greeting(n, s.clients[n].cycle, s.db.t);
    var hello := HelloFor(s, job);
    var reply := Frame(n, AsStep2, None, Diff(s.clients[n].doc, hello.sv));
    var s1 := Step(s, Subscribe(n));
    var s2 := Step(s1, Greet(job));
    var s3 := Step(s2, TakeHello(hello));
    RunFour(s, Subscribe(n), Greet(job), TakeHello(hello), Record(reply));
    Greeted(s, n);
    StepOk(s, Subscribe(n));
    StepOk(s1, Greet(job));
    StepOk(s2, TakeHello(hello));
    assert s3.db == s2.db && Stored(s3) == Stored(s);
    GrowsItself(s3);
    ReplyHeals(s2, s3, s3, hello);
  }

  lemma GrowsItself(s: System)
    ensures Grows(s, s)
  {
  }

  /** A gap that opened, and the same client's next join closing it. */
  lemma GapOpensAndHeals(n: nat, a: Op, b: Op)
    requires a.Insert? && a.refs == {} && b.Insert? && b.refs == {a.id} && a.id != b.id
    ensures var s := Run(INIT, OrphanRun(n, a, b));
      n in s.clients && !Closed(Stored(s)) && Closed(Stored(Run(s, GreetingRound(s, n))))
  {
    GapsOpen(n, a, b);
    assert Ids({a, b}) == {a.id, b.id};
    assert {b} + {a, b} == {a, b};
    OneGreetingHeals(OrphanRun(n, a, b), n);
  }
}
