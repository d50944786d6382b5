/** Clients, a lossy network, the channel and the store together.  A message stays in `net` once
    sent, so it may arrive never, late, twice or out of order; a handler may stop between any two of
    its effects; compactions step in between. */
module Network {
  import opened Crdt
  import opened Store
  import opened Compaction
  import opened Queue
  import opened Common

  datatype Kind = AsStep2 | AsUpdate

  /** One client session.  `log` is every update it ever queued, in order; `heldAtOpen` is what the store
      held when the current handshake began and `served` what it held when the server read it to
      answer that handshake. */
  datatype Client = Client(
    doc: Update, queue: seq<Entry<Update>>, log: seq<Update>, live: bool,
    cycle: nat, synced: bool, heldAtOpen: Update, served: Option<Update>)

  datatype Msg =
    | Frame(client: nat, kind: Kind, id: Option<nat>, payload: Update)   // client to server
    | Ask(client: nat, cycle: nat, sv: StateVector)                           // the client's SyncStep1
    | Hello(client: nat, cycle: nat, sv: StateVector)                         // the server's SyncStep1
    | Answer(client: nat, cycle: nat, payload: Update, served: Update) // the server's SyncStep2
    | Relay(kind: Kind, payload: Update)                                 // to every subscriber
    | Ack(client: nat, seqNo: nat)

  /** A handler between two of its effects. */
  datatype Job =
    | Recorded(client: nat, kind: Kind, id: Option<nat>, payload: Update)
    | Relayed(client: nat, id: Option<nat>)
    | Answering(client: nat, cycle: nat, sv: StateVector, tail: Tables)
    | Greeting(client: nat, cycle: nat, tail: Tables)

  /** `world` is every operation any client ever wrote. */
  datatype System = System(clients: map<nat, Client>, net: set<Msg>, jobs: set<Job>, db: Db, world: Update)

  datatype Event =
    | Join(client: nat)
    | Edit(client: nat, update: Update)
    | Resume(client: nat)
    | Pause(client: nat)
    | Transmit(client: nat)
    | Stray(client: nat, payload: Update)
    | TakeAck(msg: Msg)
    | TakeRelay(client: nat, msg: Msg)
    | TakeAnswer(msg: Msg)
    | TakeHello(msg: Msg)
    | Record(msg: Msg)
    | Distribute(job: Job)
    | SendAck(job: Job)
    | Abandon(job: Job)
    | ReadTail(msg: Msg)
    | Reply(job: Job)
    | Subscribe(client: nat)
    | Greet(job: Job)
    | StoreStep(event: Compaction.Event)

  function Stored(s: System): Update { Content(s.db.t) }

  function Merged(queue: seq<Entry<Update>>): Update { Union(Updates(queue)) }

  /** What the other subscribers see of a recorded frame: an update as it came, and a client's reply
      to a greeting rewrapped, so that no subscriber takes it for an answer of the server. */
  function RelayKind(kind: Kind): Kind {
    match kind
    case AsStep2 => AsUpdate
    case AsUpdate => kind
  }

  function Fresh(): Client { Client({}, [], [], false, 0, false, {}, None) }

  function Edited(c: Client, update: Update): Client {
    c.(doc := c.doc + update, log := c.log + [update], queue := c.queue + [Entry(|c.log| + 1, update)])
  }

  /** resume() and pause() both start a new cycle. */
  function Reopened(c: Client, live: bool, stored: Update): Client {
    c.(live := live, cycle := c.cycle + 1, synced := false, heldAtOpen := stored, served := None)
  }

  function Acknowledged(c: Client, id: nat): Client {
    if c.queue != [] && id > c.queue[|c.queue| - 1].seqNo then c else c.(queue := Unacked(c.queue, id))
  }

  function SetClient(s: System, n: nat, c: Client): System { s.(clients := s.clients[n := c]) }

  function Send(s: System, m: Msg): System { s.(net := s.net + {m}) }

  function SendTail(s: System, n: nat): System
    requires n in s.clients
  {
    var c := s.clients[n];
    if c.live && c.queue != [] then
      Send(s, Frame(n, AsUpdate, Some(c.queue[|c.queue| - 1].seqNo), Merged(c.queue)))
    else s
  }

  function SendAsk(s: System, n: nat): System
    requires n in s.clients
  {
    Send(s, Ask(n, s.clients[n].cycle, Vector(Integrated(s.clients[n].doc))))
  }

  /** A handler makes its next effect. */
  function Moved(s: System, out: set<Msg>, job: Job, next: set<Job>): System {
    s.(net := s.net + out, jobs := s.jobs - {job} + next)
  }

  /** The answer carries everything loaded that the asking client has not integrated. */
  function AnswerTo(s: System, j: Job): Msg
    requires j.Answering?
  {
    Answer(j.client, j.cycle, Diff(Base(Loaded(j.tail, s.db.t)), j.sv), Content(j.tail))
  }

  /** The greeting asks for everything beyond the integrated state. */
  function HelloFor(s: System, j: Job): Msg
    requires j.Greeting?
  {
    Hello(j.client, j.cycle, Vector(Integrated(Base(Loaded(j.tail, s.db.t)))))
  }

  /** A local edit builds on what the client shows and never reuses a block id. */
  ghost predicate Writes(s: System, n: nat, update: Update) {
    && n in s.clients
    && Closed(Integrated(s.clients[n].doc) + update)
    && Coherent(s.world + update)
  }

  ghost predicate Enabled(s: System, e: Event) {
    match e
    case Join(n) => n !in s.clients
    case Edit(n, update) => Writes(s, n, update)
    case Resume(n) => n in s.clients
    case Pause(n) => n in s.clients
    case Transmit(n) => n in s.clients
    // A frame without an id may carry any part of what its sender holds.
    case Stray(n, payload) => n in s.clients && payload <= s.clients[n].doc
    case TakeAck(m) => m in s.net && m.Ack? && m.client in s.clients
    case TakeRelay(n, m) => m in s.net && m.Relay? && n in s.clients
    // A handshake travels on the connection that opened it.
    case TakeAnswer(m) => m in s.net && m.Answer? && m.client in s.clients && s.clients[m.client].cycle == m.cycle
    case TakeHello(m) => m in s.net && m.Hello? && m.client in s.clients && s.clients[m.client].cycle == m.cycle
    case Record(m) => m in s.net && m.Frame? && m.payload != {}
    case Distribute(j) => j in s.jobs && j.Recorded?
    case SendAck(j) => j in s.jobs && j.Relayed?
    case Abandon(j) => j in s.jobs
    case ReadTail(m) => m in s.net && m.Ask?
    case Reply(j) => j in s.jobs && j.Answering?
    case Subscribe(n) => n in s.clients
    case Greet(j) => j in s.jobs && j.Greeting?
    case StoreStep(e) => !e.Append?
  }

  /** What an enabled event does; a disabled one changes nothing. */
  ghost function Step(s: System, e: Event): System {
    if !Enabled(s, e) then s else
    match e
    case Join(n) => SetClient(s, n, Fresh())
    case Edit(n, update) =>
      SetClient(s, n, Edited(s.clients[n], update)).(world := s.world + update)
    case Resume(n) => SendTail(SendAsk(SetClient(s, n, Reopened(s.clients[n], true, Stored(s))), n), n)
    case Pause(n) =>
      SetClient(s, n, Reopened(s.clients[n], false, Stored(s)))
    case Transmit(n) => SendTail(s, n)
    case Stray(n, payload) => Send(s, Frame(n, AsUpdate, None, payload))
    case TakeAck(m) => SetClient(s, m.client, Acknowledged(s.clients[m.client], m.seqNo))
    case TakeRelay(n, m) =>
      var c := s.clients[n];
      SetClient(s, n, c.(doc := c.doc + m.payload, synced := c.synced || m.kind == AsStep2))
    case TakeAnswer(m) =>
      var c := s.clients[m.client];
      SetClient(s, m.client, c.(doc := c.doc + m.payload, synced := true, served := Some(m.served)))
    case TakeHello(m) => Send(s, Frame(m.client, AsStep2, None, Diff(s.clients[m.client].doc, m.sv)))
    case Record(m) =>
      s.(db := Compaction.Step(s.db, Append(m.payload)), jobs := s.jobs + {Recorded(m.client, m.kind, m.id, m.payload)})
    case Distribute(j) => Moved(s, {Relay(RelayKind(j.kind), j.payload)}, j, {Relayed(j.client, j.id)})
    case SendAck(j) => Moved(s, if j.id.Some? then {Ack(j.client, j.id.value)} else {}, j, {})
    case Abandon(j) => Moved(s, {}, j, {})
    case ReadTail(m) => s.(jobs := s.jobs + {Answering(m.client, m.cycle, m.sv, s.db.t)})
    case Reply(j) => Moved(s, {AnswerTo(s, j)}, j, {})
    case Subscribe(n) => s.(jobs := s.jobs + {Greeting(n, s.clients[n].cycle, s.db.t)})
    case Greet(j) => Moved(s, {HelloFor(s, j)}, j, {})
    case StoreStep(e) => s.(db := Compaction.Step(s.db, e))
  }

  ghost function Run(s: System, events: seq<Event>): System
    decreases events
  {
    if events == [] then s else Run(Step(s, events[0]), events[1..])
  }

  const INIT: System := System(map[], {}, {}, Db(Tables(None, map[], 0), Idle), {})

  // ---------------------------------------------------------------- invariant

  /** Every update the client numbered up to `id` is in `place`. */
  ghost predicate Through(c: Client, id: nat, place: Update) {
    id <= |c.log| && forall k :: 0 <= k < id ==> c.log[k] <= place
  }

  /** The queue is the unconfirmed end of the log; everything before it is durable. */
  ghost predicate QueueOk(c: Client, stored: Update) {
    && |c.queue| <= |c.log|
    && Through(c, |c.log| - |c.queue|, stored)
    && forall k :: 0 <= k < |c.queue| ==>
         c.queue[k] == Entry(|c.log| - |c.queue| + k + 1, c.log[|c.log| - |c.queue| + k])
  }

  ghost predicate ClientOk(c: Client, stored: Update, world: Update) {
    && QueueOk(c, stored)
    && c.doc <= world
    && (forall k :: 0 <= k < |c.log| ==> c.log[k] <= world)
    && c.heldAtOpen <= stored
    && (c.synced ==> c.served.Some?)
    && (c.served.Some? ==> c.heldAtOpen <= c.served.value <= c.doc)
  }

  ghost predicate ThroughOk(s: System, n: nat, id: Option<nat>, place: Update) {
    id.Some? ==> n in s.clients && Through(s.clients[n], id.value, place)
  }

  /** A handshake of the current cycle saw everything durable when the cycle began. */
  ghost predicate CycleOk(s: System, n: nat, cycle: nat, seen: Update) {
    && n in s.clients && cycle <= s.clients[n].cycle
    && (cycle == s.clients[n].cycle ==> s.clients[n].heldAtOpen <= seen)
  }

  ghost predicate MsgOk(m: Msg, s: System) {
    match m
    case Frame(n, _, id, payload) => payload <= s.world && ThroughOk(s, n, id, payload + Stored(s))
    case Ask(n, cycle, sv) => n in s.clients && cycle <= s.clients[n].cycle && Backed(sv, s.clients[n].doc)
    case Hello(n, cycle, sv) => n in s.clients && Backed(sv, Stored(s))
    case Answer(n, cycle, payload, served) =>
      CycleOk(s, n, cycle, served) && payload <= Stored(s) && served <= payload + s.clients[n].doc
    case Relay(kind, payload) => kind == AsUpdate && payload <= Stored(s)
    case Ack(n, id) => ThroughOk(s, n, Some(id), Stored(s))
  }

  ghost predicate TailOk(tail: Tables, s: System) {
    Base(tail.state) <= Base(s.db.t.state) && Content(tail) <= Stored(s)
  }

  ghost predicate JobOk(j: Job, s: System) {
    match j
    case Recorded(n, _, id, payload) => payload <= Stored(s) && ThroughOk(s, n, id, Stored(s))
    case Relayed(n, id) => ThroughOk(s, n, id, Stored(s))
    case Answering(n, cycle, sv, tail) =>
      CycleOk(s, n, cycle, Content(tail)) && Backed(sv, s.clients[n].doc) && TailOk(tail, s)
    case Greeting(n, cycle, tail) => n in s.clients && TailOk(tail, s)
  }

  ghost predicate Inv(s: System) {
    && Compaction.Inv(s.db)
    && Stored(s) <= s.world && Coherent(s.world) && Closed(s.world)
    && (forall n :: n in s.clients ==> ClientOk(s.clients[n], Stored(s), s.world))
    && (forall m :: m in s.net ==> MsgOk(m, s))
    && (forall j :: j in s.jobs ==> JobOk(j, s))
  }

  /** What every step keeps: nothing known, queued or stored is forgotten. */
  ghost predicate Grows(s: System, s': System) {
    && s.net <= s'.net
    && s.world <= s'.world && Stored(s) <= Stored(s') && Base(s.db.t.state) <= Base(s'.db.t.state)
    && forall n :: n in s.clients ==>
         && n in s'.clients
         && s.clients[n].doc <= s'.clients[n].doc
         && s.clients[n].log <= s'.clients[n].log
         && s.clients[n].cycle <= s'.clients[n].cycle
         && (s.clients[n].cycle == s'.clients[n].cycle ==> s.clients[n].heldAtOpen == s'.clients[n].heldAtOpen)
  }

  lemma MsgStaysOk(m: Msg, s: System, s': System)
    requires MsgOk(m, s) && Grows(s, s')
    ensures MsgOk(m, s')
  {
    match m
    case Ask(n, _, sv) => BackedGrows(sv, s.clients[n].doc, s'.clients[n].doc);
    case Hello(_, _, sv) => BackedGrows(sv, Stored(s), Stored(s'));
    case _ =>
  }

  lemma JobStaysOk(j: Job, s: System, s': System)
    requires JobOk(j, s) && Grows(s, s')
    ensures JobOk(j, s')
  {
    match j
    case Answering(n, _, sv, _) => BackedGrows(sv, s.clients[n].doc, s'.clients[n].doc);
    case _ =>
  }

  lemma QueueStaysOk(c: Client, a: Update, b: Update)
    requires QueueOk(c, a) && a <= b
    ensures QueueOk(c, b)
  {
  }

  /** The invariant survives any step that forgets nothing and whose new parts are sound. */
  lemma Carry(s: System, s': System)
    requires Inv(s) && Grows(s, s')
    requires Compaction.Inv(s'.db) && Stored(s') <= s'.world && Coherent(s'.world) && Closed(s'.world)
    requires forall n :: n in s'.clients && !(n in s.clients && s.clients[n] == s'.clients[n]) ==> ClientOk(s'.clients[n], Stored(s'), s'.world)
    requires forall m :: m in s'.net && m !in s.net ==> MsgOk(m, s')
    requires forall j :: j in s'.jobs && j !in s.jobs ==> JobOk(j, s')
    ensures Inv(s')
  {
    forall n | n in s'.clients ensures ClientOk(s'.clients[n], Stored(s'), s'.world) {
      if n in s.clients && s.clients[n] == s'.clients[n] { QueueStaysOk(s.clients[n], Stored(s), Stored(s')); }
    }
    forall m | m in s'.net ensures MsgOk(m, s') { if m in s.net { MsgStaysOk(m, s, s'); } }
    forall j | j in s'.jobs ensures JobOk(j, s') { if j in s.jobs { JobStaysOk(j, s, s'); } }
  }

  /** A step that only sends messages and moves handlers along. */
  lemma CarryNet(s: System, net: set<Msg>, jobs: set<Job>)
    requires Inv(s) && s.net <= net
    requires forall m :: m in net && m !in s.net ==> MsgOk(m, s)
    requires forall j :: j in jobs && j !in s.jobs ==> JobOk(j, s)
    ensures var s' := s.(net := net, jobs := jobs); Inv(s') && Grows(s, s')
  {
    var s' := s.(net := net, jobs := jobs);
    assert Stored(s') == Stored(s);
    assert Grows(s, s');
    forall m | m in net && m !in s.net ensures MsgOk(m, s') { MsgStaysOk(m, s, s'); }
    forall j | j in jobs && j !in s.jobs ensures JobOk(j, s') { JobStaysOk(j, s, s'); }
    Carry(s, s');
  }

  // ---------------------------------------------------------------- the steps

  lemma {:induction false} InUnion(updates: seq<Update>, k: nat)
    requires k < |updates|
    ensures updates[k] <= Union(updates)
  {
    if k > 0 { InUnion(updates[1..], k - 1); }
  }

  lemma {:induction false} UnionInside(updates: seq<Update>, place: Update)
    requires forall k :: 0 <= k < |updates| ==> updates[k] <= place
    ensures Union(updates) <= place
  {
    if updates != [] { UnionInside(updates[1..], place); }
  }

  /** The tail covers the whole log through its highest number, together with what is durable. */
  lemma TailCovers(c: Client, stored: Update)
    requires QueueOk(c, stored) && c.queue != []
    ensures c.queue[|c.queue| - 1].seqNo == |c.log|
    ensures Through(c, |c.log|, Merged(c.queue) + stored)
  {
    forall k | 0 <= k < |c.log| ensures c.log[k] <= Merged(c.queue) + stored {
      var i := k - (|c.log| - |c.queue|);
      if i >= 0 {
        InUnion(Updates(c.queue), i);
        assert Updates(c.queue)[i] == c.log[k];
      }
    }
  }

  lemma SendTailOk(s: System, n: nat)
    requires Inv(s) && n in s.clients
    ensures Inv(SendTail(s, n)) && Grows(s, SendTail(s, n))
  {
    var c := s.clients[n];
    if c.live && c.queue != [] {
      TailCovers(c, Stored(s));
      UnionInside(Updates(c.queue), s.world);
      CarryNet(s, SendTail(s, n).net, s.jobs);
    }
  }

  ghost predicate ClientGrows(c: Client, c': Client) {
    && c.doc <= c'.doc && c.log <= c'.log && c.cycle <= c'.cycle
    && (c.cycle == c'.cycle ==> c.heldAtOpen == c'.heldAtOpen)
  }

  /** A step that replaces one client, and perhaps adds to the world. */
  lemma CarryClient(s: System, n: nat, c: Client, world: Update)
    requires Inv(s) && n in s.clients && ClientGrows(s.clients[n], c)
    requires s.world <= world && Coherent(world) && Closed(world)
    requires ClientOk(c, Stored(s), world)
    ensures var s' := SetClient(s, n, c).(world := world); Inv(s') && Grows(s, s')
  {
    Carry(s, SetClient(s, n, c).(world := world));
  }

  lemma EditedOk(c: Client, update: Update, stored: Update, world: Update)
    requires ClientOk(c, stored, world)
    ensures ClientOk(Edited(c, update), stored, world + update) && ClientGrows(c, Edited(c, update))
  {
  }

  lemma WorldStaysClosed(world: Update, doc: Update, update: Update)
    requires Closed(world) && doc <= world && Closed(Integrated(doc) + update)
    ensures Closed(world + update)
  {
    ClosedUnion(world, Integrated(doc) + update);
    assert world + (Integrated(doc) + update) == world + update;
  }

  lemma EditOk(s: System, n: nat, update: Update)
    requires Inv(s) && Writes(s, n, update)
    ensures Inv(Step(s, Edit(n, update))) && Grows(s, Step(s, Edit(n, update)))
  {
    EditedOk(s.clients[n], update, Stored(s), s.world);
    WorldStaysClosed(s.world, s.clients[n].doc, update);
    CarryClient(s, n, Edited(s.clients[n], update), s.world + update);
  }

  lemma PauseOk(s: System, n: nat)
    requires Inv(s) && n in s.clients
    ensures Inv(Step(s, Pause(n))) && Grows(s, Step(s, Pause(n)))
  {
    CarryClient(s, n, Reopened(s.clients[n], false, Stored(s)), s.world);
  }

  lemma AskOk(s: System, n: nat)
    requires Inv(s) && n in s.clients
    ensures Inv(SendAsk(s, n)) && Grows(s, SendAsk(s, n))
  {
    var doc := s.clients[n].doc;
    VectorIsBacked(Integrated(doc));
    BackedGrows(Vector(Integrated(doc)), Integrated(doc), doc);
    CarryNet(s, SendAsk(s, n).net, s.jobs);
  }

  lemma ReplayOk(s: System, s1: System, n: nat)
    requires Inv(s1) && Grows(s, s1) && n in s1.clients
    ensures var s' := SendTail(SendAsk(s1, n), n); Inv(s') && Grows(s, s')
  {
    AskOk(s1, n);
    GrowsTransitive(s, s1, SendAsk(s1, n));
    SendTailOk(SendAsk(s1, n), n);
    GrowsTransitive(s, SendAsk(s1, n), SendTail(SendAsk(s1, n), n));
  }

  lemma ResumeOk(s: System, n: nat)
    requires Inv(s) && n in s.clients
    ensures var s' := SendTail(SendAsk(SetClient(s, n, Reopened(s.clients[n], true, Stored(s))), n), n);
      Inv(s') && Grows(s, s')
  {
    var c := Reopened(s.clients[n], true, Stored(s));
    CarryClient(s, n, c, s.world);
    assert SetClient(s, n, c).(world := s.world) == SetClient(s, n, c);
    ReplayOk(s, SetClient(s, n, c), n);
  }

  lemma AcknowledgedOk(c: Client, id: nat, stored: Update, world: Update)
    requires ClientOk(c, stored, world) && Through(c, id, stored)
    ensures ClientOk(Acknowledged(c, id), stored, world)
  {
    AckedQueueOk(c, id, stored);
  }

  lemma AckedQueueOk(c: Client, id: nat, stored: Update)
    requires QueueOk(c, stored) && Through(c, id, stored)
    ensures QueueOk(Acknowledged(c, id), stored)
  {
    var keep := if |c.log| - id < |c.queue| then |c.log| - id else |c.queue|;
    QueueIsNumbered(c, stored);
    UnackedIsSuffix(c.queue, |c.log|, id);
    assert Unacked(c.queue, id) == c.queue[|c.queue| - keep..];
    SuffixQueueOk(c, |c.queue| - keep, stored);
    assert Acknowledged(c, id) == c || Acknowledged(c, id) == c.(queue := c.queue[|c.queue| - keep..]);
  }

  lemma QueueIsNumbered(c: Client, stored: Update)
    requires QueueOk(c, stored)
    ensures Numbered(c.queue, |c.log|)
  {
  }

  /** Dropping a durable prefix leaves the unconfirmed end of the log. */
  lemma SuffixQueueOk(c: Client, cut: nat, stored: Update)
    requires QueueOk(c, stored) && cut <= |c.queue| && Through(c, |c.log| - |c.queue| + cut, stored)
    ensures QueueOk(c.(queue := c.queue[cut..]), stored)
  {
    var left := c.queue[cut..];
    forall k | 0 <= k < |left| ensures left[k] == Entry(|c.log| - |left| + k + 1, c.log[|c.log| - |left| + k]) {
      assert left[k] == c.queue[cut + k];
    }
  }

  lemma TakeAckOk(s: System, m: Msg)
    requires Inv(s) && Enabled(s, TakeAck(m))
    ensures Inv(Step(s, TakeAck(m))) && Grows(s, Step(s, TakeAck(m)))
  {
    assert MsgOk(m, s);
    AcknowledgedOk(s.clients[m.client], m.seqNo, Stored(s), s.world);
    CarryClient(s, m.client, Acknowledged(s.clients[m.client], m.seqNo), s.world);
  }

  lemma TakeRelayOk(s: System, n: nat, m: Msg)
    requires Inv(s) && Enabled(s, TakeRelay(n, m))
    ensures Inv(Step(s, TakeRelay(n, m))) && Grows(s, Step(s, TakeRelay(n, m)))
    ensures m.kind == AsUpdate && Step(s, TakeRelay(n, m)).clients[n].synced == s.clients[n].synced
  {
    assert MsgOk(m, s);
    var c := s.clients[n];
    CarryClient(s, n, c.(doc := c.doc + m.payload, synced := c.synced || m.kind == AsStep2), s.world);
  }

  lemma TakeAnswerOk(s: System, m: Msg)
    requires Inv(s) && Enabled(s, TakeAnswer(m))
    ensures Inv(Step(s, TakeAnswer(m))) && Grows(s, Step(s, TakeAnswer(m)))
  {
    assert MsgOk(m, s);
    var c := s.clients[m.client];
    CarryClient(s, m.client, c.(doc := c.doc + m.payload, synced := true, served := Some(m.served)), s.world);
  }

  lemma TakeHelloOk(s: System, m: Msg)
    requires Inv(s) && Enabled(s, TakeHello(m))
    ensures Inv(Step(s, TakeHello(m))) && Grows(s, Step(s, TakeHello(m)))
  {
    CarryNet(s, Step(s, TakeHello(m)).net, s.jobs);
  }

  lemma RecordOk(s: System, m: Msg)
    requires Inv(s) && Enabled(s, Record(m))
    ensures Inv(Step(s, Record(m))) && Grows(s, Step(s, Record(m)))
    ensures Stored(Step(s, Record(m))) == Stored(s) + m.payload
  {
    StepKeeps(s.db, Append(m.payload));
    assert MsgOk(m, s);
    Carry(s, Step(s, Record(m)));
  }

  lemma StoreStepOk(s: System, e: Compaction.Event)
    requires Inv(s) && !e.Append?
    ensures Inv(Step(s, StoreStep(e))) && Grows(s, Step(s, StoreStep(e)))
  {
    StepKeeps(s.db, e);
    Carry(s, Step(s, StoreStep(e)));
  }

  /** A load that raced with anything returns at least what the tail read saw and nothing unstored. */
  lemma LoadOk(tail: Tables, s: System)
    requires TailOk(tail, s)
    ensures Content(tail) <= Base(Loaded(tail, s.db.t)) <= Stored(s)
  {
  }

  lemma AnswerOk(s: System, j: Job)
    requires Inv(s) && j in s.jobs && j.Answering?
    ensures MsgOk(AnswerTo(s, j), s)
    ensures forall o :: o in AnswerTo(s, j).payload && o.Insert? ==> o.id.clock >= At(j.sv, o.id.client)
  {
    assert JobOk(j, s);
    LoadOk(j.tail, s);
    DiffLeavesOutBacked(Base(Loaded(j.tail, s.db.t)), j.sv, s.clients[j.client].doc);
  }

  lemma HelloOk(s: System, j: Job)
    requires Inv(s) && j in s.jobs && j.Greeting?
    ensures MsgOk(HelloFor(s, j), s)
  {
    assert JobOk(j, s);
    LoadOk(j.tail, s);
    var doc := Base(Loaded(j.tail, s.db.t));
    VectorIsBacked(Integrated(doc));
    BackedGrows(Vector(Integrated(doc)), Integrated(doc), Stored(s));
  }

  lemma MoveOk(s: System, out: set<Msg>, job: Job, next: set<Job>)
    requires Inv(s)
    requires forall m :: m in out ==> MsgOk(m, s)
    requires forall j :: j in next ==> JobOk(j, s)
    ensures Inv(Moved(s, out, job, next)) && Grows(s, Moved(s, out, job, next))
  {
    CarryNet(s, s.net + out, s.jobs - {job} + next);
  }

  lemma EffectOk(s: System, e: Event)
    requires Inv(s) && Enabled(s, e) && (e.Distribute? || e.SendAck? || e.Abandon?)
    ensures Inv(Step(s, e)) && Grows(s, Step(s, e))
  {
    assert JobOk(e.job, s);
    match e
    case Distribute(j) => MoveOk(s, {Relay(RelayKind(j.kind), j.payload)}, j, {Relayed(j.client, j.id)});
    case SendAck(j) => MoveOk(s, if j.id.Some? then {Ack(j.client, j.id.value)} else {}, j, {});
    case Abandon(j) => MoveOk(s, {}, j, {});
  }

  lemma LoadedOk(s: System, e: Event)
    requires Inv(s) && Enabled(s, e) && (e.Reply? || e.Greet?)
    ensures Inv(Step(s, e)) && Grows(s, Step(s, e))
  {
    match e
    case Reply(j) => AnswerOk(s, j); MoveOk(s, {AnswerTo(s, j)}, j, {});
    case Greet(j) => HelloOk(s, j); MoveOk(s, {HelloFor(s, j)}, j, {});
  }

  lemma ReadOk(s: System, e: Event)
    requires Inv(s) && Enabled(s, e) && (e.ReadTail? || e.Subscribe?)
    ensures Inv(Step(s, e)) && Grows(s, Step(s, e))
  {
    if e.ReadTail? { assert MsgOk(e.msg, s); }
    CarryNet(s, s.net, Step(s, e).jobs);
  }

  lemma JoinOk(s: System, n: nat)
    requires Inv(s) && n !in s.clients
    ensures Inv(Step(s, Join(n))) && Grows(s, Step(s, Join(n)))
  {
    Carry(s, Step(s, Join(n)));
  }

  lemma StepOk(s: System, e: Event)
    requires Inv(s)
    ensures Inv(Step(s, e)) && Grows(s, Step(s, e))
  {
    if Enabled(s, e) {
      match e
      case Edit(n, update) => EditOk(s, n, update);
      case Resume(n) => ResumeOk(s, n);
      case Pause(n) => PauseOk(s, n);
      case Transmit(n) => SendTailOk(s, n);
      case Stray(n, payload) => CarryNet(s, Step(s, e).net, s.jobs);
      case TakeAck(m) => TakeAckOk(s, m);
      case TakeRelay(n, m) => TakeRelayOk(s, n, m);
      case TakeAnswer(m) => TakeAnswerOk(s, m);
      case TakeHello(m) => TakeHelloOk(s, m);
      case Record(m) => RecordOk(s, m);
      case StoreStep(e) => StoreStepOk(s, e);
      case Join(n) => JoinOk(s, n);
      case ReadTail(_) => ReadOk(s, e);
      case Subscribe(_) => ReadOk(s, e);
      case Reply(_) => LoadedOk(s, e);
      case Greet(_) => LoadedOk(s, e);
      case _ => EffectOk(s, e);
    }
  }

  lemma GrowsTransitive(a: System, b: System, c: System)
    requires Grows(a, b) && Grows(b, c)
    ensures Grows(a, c)
  {
  }

  lemma {:induction false} RunOk(s: System, events: seq<Event>)
    requires Inv(s)
    ensures Inv(Run(s, events)) && Grows(s, Run(s, events))
    decreases events
  {
    if events != [] {
      StepOk(s, events[0]);
      RunOk(Step(s, events[0]), events[1..]);
      GrowsTransitive(s, Step(s, events[0]), Run(s, events));
    }
  }

  // ---------------------------------------------------------------- main results

  lemma InitOk()
    ensures Inv(INIT)
  {
    assert Content(INIT.db.t) == {};
  }

  /** In every run, an update queued by a live session is still queued or already durable. */
  lemma NoEditIsLost(events: seq<Event>, n: nat, k: nat)
    requires n in Run(INIT, events).clients && k < |Run(INIT, events).clients[n].log|
    ensures var s := Run(INIT, events); var c := s.clients[n];
      Entry(k + 1, c.log[k]) in c.queue || c.log[k] <= Stored(s)
  {
    InitOk();
    RunOk(INIT, events);
    var c := Run(INIT, events).clients[n];
    var i := k - (|c.log| - |c.queue|);
    if i >= 0 {
      assert c.queue[i] == Entry(k + 1, c.log[k]);
    }
  }

  /** In every run, an acknowledgement on the wire names only durable updates. */
  lemma AcksAreDurable(events: seq<Event>, n: nat, id: nat, k: nat)
    requires Ack(n, id) in Run(INIT, events).net && k < id
    ensures var s := Run(INIT, events);
      n in s.clients && id <= |s.clients[n].log| && s.clients[n].log[k] <= Stored(s)
  {
    InitOk();
    RunOk(INIT, events);
    assert MsgOk(Ack(n, id), Run(INIT, events));
  }

  /** In every run, a synced client holds all the server had when it answered, and that is at least
      everything durable when the client's current handshake began. */
  lemma SyncedMeansCaughtUp(events: seq<Event>, n: nat)
    requires n in Run(INIT, events).clients && Run(INIT, events).clients[n].synced
    ensures var c := Run(INIT, events).clients[n];
      c.served.Some? && c.heldAtOpen <= c.served.value <= c.doc
  {
    InitOk();
    RunOk(INIT, events);
  }

  /** End to end: an edit acknowledged before another client reconnects is in that client's document
      by the time it reports being synced. */
  lemma AckedEditReachesNextHandshake(before: seq<Event>, writer: nat, k: nat, reader: nat, after: seq<Event>)
    requires var s := Run(INIT, before);
      && writer in s.clients && reader in s.clients
      && k < |s.clients[writer].log| - |s.clients[writer].queue|
    requires var s := Run(INIT, before); var s' := Run(Step(s, Resume(reader)), after);
      && reader in s'.clients && s'.clients[reader].synced
      && s'.clients[reader].cycle == s.clients[reader].cycle + 1
    ensures var s := Run(INIT, before);
      s.clients[writer].log[k] <= Run(Step(s, Resume(reader)), after).clients[reader].doc
  {
    InitOk();
    RunOk(INIT, before);
    NextHandshake(Run(INIT, before), reader, after);
  }

  lemma NextHandshake(s: System, reader: nat, after: seq<Event>)
    requires Inv(s) && reader in s.clients
    requires var c := Run(Step(s, Resume(reader)), after).clients;
      reader in c && c[reader].synced && c[reader].cycle == s.clients[reader].cycle + 1
    ensures Stored(s) <= Run(Step(s, Resume(reader)), after).clients[reader].doc
  {
    StepOk(s, Resume(reader));
    var s1 := Step(s, Resume(reader));
    assert s1.clients[reader].heldAtOpen == Stored(s);
    RunOk(s1, after);
  }

  /** Inside a causally complete history, a set whose needs it meets itself is causally complete. */
  lemma SelfSufficientIsClosed(world: Update, part: Update)
    requires Closed(world) && Coherent(world) && part <= world
    requires forall o :: o in part ==> Needs(o) <= Ids(part)
    ensures Closed(part)
  {
    var p := set o | o in world && (o in part ==> o in Integrated(part));
    forall o | o in Ready(world, p) && o in part ensures o in Integrated(part) {
      forall i | i in Needs(o) ensures i in Ids(Integrated(part)) {
        var a :| a in p && a.Insert? && a.id == i;
        var b :| b in part && b.Insert? && b.id == i;
        assert a == b;
      }
      assert o in Ready(part, Integrated(part));
    }
    IntegrationIsLeast(world, {}, p);
  }

  /** The handshake repairs gaps: when the joining client holds every block the store is missing,
      the store is gap-free once the client's reply to the server's greeting is recorded, whatever
      was recorded, compacted or lost in between. */
  lemma JoinHealsGaps(events: seq<Event>, hello: Msg, between: seq<Event>)
    requires Enabled(Run(INIT, events), TakeHello(hello))
    requires
      var s := Run(INIT, events);
      var held := Stored(Run(Step(s, TakeHello(hello)), between)) + s.clients[hello.client].doc;
      forall o :: o in held ==> Needs(o) <= Ids(held)
    ensures
      var s := Run(INIT, events);
      var reply := Frame(hello.client, AsStep2, None, Diff(s.clients[hello.client].doc, hello.sv));
      Closed(Stored(Step(Run(Step(s, TakeHello(hello)), between), Record(reply))))
  {
    InitOk();
    RunOk(INIT, events);
    var s := Run(INIT, events);
    StepOk(s, TakeHello(hello));
    var s1 := Step(s, TakeHello(hello));
    RunOk(s1, between);
    ReplyHeals(s, s1, Run(s1, between), hello);
  }

  lemma RecordStores(s: System, m: Msg)
    requires Inv(s) && m in s.net && m.Frame?
    ensures Stored(Step(s, Record(m))) == Stored(s) + m.payload
  {
    StepKeeps(s.db, Append(m.payload));
  }

  lemma ReplyCompletes(world: Update, stored: Update, doc: Update, sv: StateVector)
    requires Closed(world) && Coherent(world) && stored <= world && doc <= world && Backed(sv, stored)
    requires forall o :: o in stored + doc ==> Needs(o) <= Ids(stored + doc)
    ensures Closed(stored + Diff(doc, sv))
  {
    DiffLeavesOutBacked(doc, sv, stored);
    SelfSufficientIsClosed(world, stored + doc);
    assert stored + Diff(doc, sv) == stored + doc;
  }

  lemma ReplyHeals(s: System, s1: System, s2: System, hello: Msg)
    requires Inv(s) && Enabled(s, TakeHello(hello)) && s1 == Step(s, TakeHello(hello))
    requires Inv(s2) && Grows(s, s1) && Grows(s1, s2)
    requires var held := Stored(s2) + s.clients[hello.client].doc;
      forall o :: o in held ==> Needs(o) <= Ids(held)
    ensures
      var reply := Frame(hello.client, AsStep2, None, Diff(s.clients[hello.client].doc, hello.sv));
      Closed(Stored(Step(s2, Record(reply))))
  {
    var doc := s.clients[hello.client].doc;
    assert MsgOk(hello, s);
    BackedGrows(hello.sv, Stored(s), Stored(s2));
    ReplyCompletes(s2.world, Stored(s2), doc, hello.sv);
    RecordStores(s2, Frame(hello.client, AsStep2, None, Diff(doc, hello.sv)));
  }

  // ---------------------------------------------------------------- progress

  /** The frame a live client sends, and the handler's two jobs for it. */
  function TailFrame(n: nat, c: Client): Msg
    requires c.queue != []
  {
    Frame(n, AsUpdate, Some(c.queue[|c.queue| - 1].seqNo), Merged(c.queue))
  }

  function RoundTrip(n: nat, c: Client): seq<Event>
    requires c.queue != []
  {
    var id := Some(c.queue[|c.queue| - 1].seqNo);
    [Transmit(n), Record(TailFrame(n, c)), Distribute(Recorded(n, AsUpdate, id, Merged(c.queue))),
     SendAck(Relayed(n, id)), TakeAck(Ack(n, id.value))]
  }

  lemma {:induction false} RunConcat(s: System, a: seq<Event>, b: seq<Event>)
    ensures Run(s, a + b) == Run(Run(s, a), b)
    decreases a
  {
    if a == [] {
      assert a + b == b;
    } else {
      assert (a + b)[1..] == a[1..] + b;
      RunConcat(Step(s, a[0]), a[1..], b);
    }
  }

  lemma RunOne(s: System, e: Event)
    ensures Run(s, [e]) == Step(s, e)
  {
    assert [e][1..] == [];
  }

  /** Up to the acknowledgement on the wire, the client is as it was. */
  lemma AckGoesOut(s: System, n: nat, c: Client, id: nat)
    requires n in s.clients && c == s.clients[n] && c.live && c.queue != [] && Merged(c.queue) != {}
    requires id == c.queue[|c.queue| - 1].seqNo
    ensures
      var s1 := Step(s, Transmit(n));
      var s2 := Step(s1, Record(TailFrame(n, c)));
      var s3 := Step(s2, Distribute(Recorded(n, AsUpdate, Some(id), Merged(c.queue))));
      var s4 := Step(s3, SendAck(Relayed(n, Some(id))));
      Ack(n, id) in s4.net && s4.clients == s.clients
  {
    var s1 := Step(s, Transmit(n));
    assert TailFrame(n, c) in s1.net && s1.clients == s.clients;
    var s2 := Step(s1, Record(TailFrame(n, c)));
    assert Recorded(n, AsUpdate, Some(id), Merged(c.queue)) in s2.jobs && s2.clients == s.clients;
    var s3 := Step(s2, Distribute(Recorded(n, AsUpdate, Some(id), Merged(c.queue))));
    assert Relayed(n, Some(id)) in s3.jobs && s3.clients == s.clients;
  }

  lemma AckAllEmpties(c: Client, stored: Update)
    requires QueueOk(c, stored) && c.queue != []
    ensures Acknowledged(c, c.queue[|c.queue| - 1].seqNo).queue == []
  {
    QueueIsNumbered(c, stored);
    UnackedIsSuffix(c.queue, |c.log|, |c.log|);
  }

  lemma RunRoundTrip(s: System, n: nat, c: Client)
    requires c.queue != []
    ensures
      var id := c.queue[|c.queue| - 1].seqNo;
      var s1 := Step(s, Transmit(n));
      var s2 := Step(s1, Record(TailFrame(n, c)));
      var s3 := Step(s2, Distribute(Recorded(n, AsUpdate, Some(id), Merged(c.queue))));
      var s4 := Step(s3, SendAck(Relayed(n, Some(id))));
      Run(s, RoundTrip(n, c)) == Step(s4, TakeAck(Ack(n, id)))
  {
    var es := RoundTrip(n, c);
    RunConcat(s, es[..1], es[1..]);
    RunOne(s, es[0]);
    assert es[..1] == [es[0]] && es == es[..1] + es[1..];
    var s1 := Step(s, es[0]);
    assert es[1..] == [es[1]] + es[2..];
    RunConcat(s1, [es[1]], es[2..]);
    RunOne(s1, es[1]);
    var s2 := Step(s1, es[1]);
    assert es[2..] == [es[2]] + es[3..];
    RunConcat(s2, [es[2]], es[3..]);
    RunOne(s2, es[2]);
    var s3 := Step(s2, es[2]);
    assert es[3..] == [es[3]] + [es[4]];
    RunConcat(s3, [es[3]], [es[4]]);
    RunOne(s3, es[3]);
    RunOne(Step(s3, es[3]), es[4]);
  }

  /** From every reachable state, one transmission that gets through and one acknowledgement that
      comes back empty a live client's queue, however much was queued or lost before, and everything
      the client ever queued is then durable. */
  lemma OneRoundTripDrains(events: seq<Event>, n: nat)
    requires var s := Run(INIT, events);
      n in s.clients && s.clients[n].live && s.clients[n].queue != [] && Merged(s.clients[n].queue) != {}
    ensures var s := Run(INIT, events); var s' := Run(s, RoundTrip(n, s.clients[n]));
      && n in s'.clients && s'.clients[n].queue == [] && s'.clients[n].log == s.clients[n].log
      && forall k :: 0 <= k < |s.clients[n].log| ==> s.clients[n].log[k] <= Stored(s')
  {
    InitOk();
    RunOk(INIT, events);
    RoundTripDrains(Run(INIT, events), n);
  }

  lemma RoundTripDrains(s: System, n: nat)
    requires Inv(s) && n in s.clients && s.clients[n].live && s.clients[n].queue != [] && Merged(s.clients[n].queue) != {}
    ensures var s' := Run(s, RoundTrip(n, s.clients[n]));
      && n in s'.clients && s'.clients[n].queue == [] && s'.clients[n].log == s.clients[n].log
      && forall k :: 0 <= k < |s.clients[n].log| ==> s.clients[n].log[k] <= Stored(s')
  {
    var c := s.clients[n];
    var s' := Run(s, RoundTrip(n, c));
    RoundTripAcks(s, n, c);
    RunOk(s, RoundTrip(n, c));
    EmptyQueueIsDurable(s', n);
  }

  lemma RoundTripAcks(s: System, n: nat, c: Client)
    requires Inv(s) && n in s.clients && c == s.clients[n] && c.live && c.queue != [] && Merged(c.queue) != {}
    ensures var s' := Run(s, RoundTrip(n, c)); n in s'.clients && s'.clients[n].queue == [] && s'.clients[n].log == c.log
  {
    RunRoundTrip(s, n, c);
    AckGoesOut(s, n, c, c.queue[|c.queue| - 1].seqNo);
    assert QueueOk(c, Stored(s));
    AckAllEmpties(c, Stored(s));
  }

  lemma EmptyQueueIsDurable(s: System, n: nat)
    requires Inv(s) && n in s.clients && s.clients[n].queue == []
    ensures forall k :: 0 <= k < |s.clients[n].log| ==> s.clients[n].log[k] <= Stored(s)
  {
    assert QueueOk(s.clients[n], Stored(s));
  }

  // ---------------------------------------------------------------- convergence

  ghost predicate WrittenBy(s: System, o: Op) {
    exists n, k :: n in s.clients && 0 <= k < |s.clients[n].log| && o in s.clients[n].log[k]
  }

  /** No client has anything unconfirmed. */
  ghost predicate Drained(s: System) { forall n :: n in s.clients ==> s.clients[n].queue == [] }

  /** Every operation is in some client's log. */
  ghost predicate Authored(s: System) { forall o :: o in s.world ==> WrittenBy(s, o) }

  lemma WorldStep(s: System, e: Event)
    ensures e.Edit? && Enabled(s, e) ==>
      && Step(s, e).world == s.world + e.update
      && Step(s, e).clients == s.clients[e.client := Edited(s.clients[e.client], e.update)]
    ensures !(e.Edit? && Enabled(s, e)) ==> Step(s, e).world == s.world
  {
  }

  lemma AuthoredStep(s: System, e: Event)
    requires Inv(s) && Authored(s)
    ensures Authored(Step(s, e))
  {
    var s' := Step(s, e);
    StepOk(s, e);
    WorldStep(s, e);
    forall o | o in s'.world ensures WrittenBy(s', o) {
      if o in s.world {
        var n, k :| n in s.clients && 0 <= k < |s.clients[n].log| && o in s.clients[n].log[k];
        assert s'.clients[n].log[k] == s.clients[n].log[k];
      } else {
        assert o in s'.clients[e.client].log[|s.clients[e.client].log|];
      }
    }
  }

  lemma {:induction false} AuthoredRun(s: System, events: seq<Event>)
    requires Inv(s) && Authored(s)
    ensures Authored(Run(s, events))
    decreases events
  {
    if events != [] {
      StepOk(s, events[0]);
      AuthoredStep(s, events[0]);
      AuthoredRun(Step(s, events[0]), events[1..]);
    }
  }

  /** Once every queue is empty, the store holds everything anyone ever wrote. */
  lemma EmptyQueuesMeanStored(events: seq<Event>)
    requires Drained(Run(INIT, events))
    ensures Stored(Run(INIT, events)) == Run(INIT, events).world
  {
    InitOk();
    RunOk(INIT, events);
    AuthoredRun(INIT, events);
    DrainedStore(Run(INIT, events));
  }

  lemma DrainedStore(s: System)
    requires Inv(s) && Authored(s) && Drained(s)
    ensures Stored(s) == s.world
  {
    forall o | o in s.world ensures o in Stored(s) {
      assert WrittenBy(s, o);
      var n, k :| n in s.clients && 0 <= k < |s.clients[n].log| && o in s.clients[n].log[k];
      EmptyQueueIsDurable(s, n);
    }
  }

  /** A cycle begun since some moment began with at least what the store held at that moment. */
  ghost predicate OpenedSince(s: System, n: nat, cycle: nat, stored: Update) {
    n in s.clients && cycle <= s.clients[n].cycle && (s.clients[n].cycle > cycle ==> stored <= s.clients[n].heldAtOpen)
  }

  /** The cycle goes on as it was, or a new one begins with what the store holds now. */
  ghost predicate CycleGoesOn(c: Client, c': Client, stored: Update) {
    || (c'.cycle == c.cycle && c'.heldAtOpen == c.heldAtOpen)
    || (c'.cycle > c.cycle && c'.heldAtOpen == stored)
  }

  /** The events that change a client, and everything else. */
  predicate Local(e: Event) {
    e.Join? || e.Edit? || e.Resume? || e.Pause? || e.TakeAck? || e.TakeRelay? || e.TakeAnswer?
  }

  lemma OthersKeepClients(s: System, e: Event)
    requires !Local(e)
    ensures Step(s, e).clients == s.clients
  {
  }

  lemma CycleStep(s: System, e: Event, n: nat)
    requires n in s.clients
    ensures n in Step(s, e).clients && CycleGoesOn(s.clients[n], Step(s, e).clients[n], Stored(s))
  {
    if !Local(e) { OthersKeepClients(s, e); } else { LocalCycleStep(s, e, n); }
  }

  lemma LocalCycleStep(s: System, e: Event, n: nat)
    requires n in s.clients && Local(e)
    ensures n in Step(s, e).clients && CycleGoesOn(s.clients[n], Step(s, e).clients[n], Stored(s))
  {
    if Enabled(s, e) {
      match e
      case Edit(m, update) => assert Step(s, e).clients == s.clients[m := Edited(s.clients[m], update)];
      case Resume(m) => assert Step(s, e).clients == s.clients[m := Reopened(s.clients[m], true, Stored(s))];
      case _ =>
    }
  }

  lemma {:induction false} OpenedSinceRun(s: System, events: seq<Event>, n: nat, cycle: nat, stored: Update)
    requires Inv(s) && OpenedSince(s, n, cycle, stored) && stored <= Stored(s)
    ensures OpenedSince(Run(s, events), n, cycle, stored)
    decreases events
  {
    if events != [] {
      StepOk(s, events[0]);
      CycleStep(s, events[0], n);
      OpenedSinceRun(Step(s, events[0]), events[1..], n, cycle, stored);
    }
  }

  /** Convergence: once every queue is empty and nobody writes any more, every client that
      reconnects and reports synced holds exactly everything ever written, with nothing parked.  Any
      two such clients hold the same document. */
  lemma SyncedClientsConverge(before: seq<Event>, after: seq<Event>, n: nat)
    requires Drained(Run(INIT, before))
    requires var s := Run(INIT, before); var s' := Run(s, after);
      && s'.world == s.world && n in s.clients && n in s'.clients
      && s'.clients[n].synced && s'.clients[n].cycle > s.clients[n].cycle
    ensures var s' := Run(Run(INIT, before), after);
      s'.clients[n].doc == s'.world && Closed(s'.clients[n].doc)
  {
    var s := Run(INIT, before);
    InitOk();
    RunOk(INIT, before);
    EmptyQueuesMeanStored(before);
    OpenedSinceRun(s, after, n, s.clients[n].cycle, Stored(s));
    RunOk(s, after);
    CaughtUp(Run(s, after), n, s.world);
  }

  lemma CaughtUp(s: System, n: nat, all: Update)
    requires Inv(s) && n in s.clients && s.clients[n].synced && all <= s.clients[n].heldAtOpen && s.world == all
    ensures s.clients[n].doc == s.world && Closed(s.clients[n].doc)
  {
    assert ClientOk(s.clients[n], Stored(s), s.world);
  }
}
