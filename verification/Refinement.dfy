/** The delivery queue as it really runs, put in the place of one client of the network: each of its
    steps is a step of that client or none, and each of its transmissions is a frame on the wire. */
module Refinement {
  import opened Common
  import opened Crdt
  import opened Queue
  import R = ReliableDelivery
  import N = Network

  type Bytes = R.Bytes

  /** What a peer reads in an encoded update. */
  type Decode = Bytes -> Update

  function Decoded(updates: seq<Bytes>, decode: Decode): seq<Update> {
    seq(|updates|, i requires 0 <= i < |updates| => decode(updates[i]))
  }

  /** The injected merge loses nothing and adds nothing. */
  ghost predicate Faithful(merge: seq<Bytes> -> Bytes, decode: Decode) {
    forall updates :: |updates| > 1 ==> decode(merge(updates)) == Union(Decoded(updates, decode))
  }

  function Read(x: Entry<Bytes>, decode: Decode): Entry<Update> { Entry(x.seqNo, decode(x.update)) }

  function ReadAll(queue: seq<Entry<Bytes>>, decode: Decode): seq<Entry<Update>> {
    seq(|queue|, i requires 0 <= i < |queue| => Read(queue[i], decode))
  }

  /** The network's client holds what the queue holds. */
  ghost predicate Matches(d: R.State, c: N.Client, decode: Decode) {
    && d.phase != R.Destroyed
    && c.queue == ReadAll(d.pending, decode)
    && |c.log| + 1 == d.nextSeq
    && (c.live <==> d.phase == R.Live)
  }

  function FrameOf(n: nat, x: R.Sent, decode: Decode): N.Msg {
    N.Frame(n, N.AsUpdate, Some(x.id), decode(x.update))
  }

  // ---------------------------------------------------------------- what a step of the queue can do

  /** One transmission of the queue as it then is, or none; queue, numbering and phase stay. */
  ghost predicate Quiet(s: R.State, s': R.State) {
    && s'.pending == s.pending && s'.nextSeq == s.nextSeq && s'.phase == s.phase
    && (s'.sent == s.sent || SendsOne(s, s'))
  }

  ghost predicate SendsOne(s: R.State, s': R.State) {
    && s'.phase == R.Live && s'.pending != []
    && |s'.sent| == |s.sent| + 1 && s'.sent[..|s.sent|] == s.sent && s'.sent[|s.sent|].queue == s'.pending
  }

  /** The fields a quiet step looks at agree. */
  predicate Alike(s: R.State, t: R.State) {
    t.pending == s.pending && t.nextSeq == s.nextSeq && t.phase == s.phase && t.sent == s.sent
  }

  lemma FlushIsQuiet(s: R.State, t: R.State)
    requires Alike(s, t)
    ensures Quiet(s, R.Flush(t))
  {
  }

  lemma TimerIsQuiet(s: R.State, t: R.State, thenFlush: bool)
    requires Alike(s, t)
    ensures Quiet(s, R.UpdateTimer(t, thenFlush))
  {
    FlushIsQuiet(s, t.(missing := false));
    if t.timer.Some? { FlushIsQuiet(s, t.(timer := None, missing := false, live := t.live - {t.timer.value})); }
  }

  lemma MergedIsQuiet(s: R.State, merge: seq<Bytes> -> Bytes)
    requires R.Inv(s, merge) && s.frames != [] && s.frames[|s.frames| - 1].Merging?
    ensures Quiet(s, R.Return(s, merge))
  {
    var top := s.frames[|s.frames| - 1];
    assert top.version == s.version ==> s.phase == R.Live;
  }

  lemma ReturnIsQuiet(s: R.State, merge: seq<Bytes> -> Bytes)
    requires R.Inv(s, merge)
    ensures Quiet(s, R.Return(s, merge))
  {
    if s.frames != [] {
      match s.frames[|s.frames| - 1]
      case Merging(_, _) => MergedIsQuiet(s, merge);
      case Sending =>
      case Starting(timer, _) => FlushIsQuiet(s, R.Pop(s).(live := R.Pop(s).live + {timer}));
      case Stopping(_) => FlushIsQuiet(s, R.Pop(s));
    }
  }

  /** The queue, numbering and phase right after a public call took effect, before anything is sent. */
  function Effect(s: R.State, e: R.Event): R.State {
    if s.phase == R.Destroyed then s
    else
      match e
      case CallEnqueue(update) => s.(pending := s.pending + [Entry(s.nextSeq, update)], nextSeq := s.nextSeq + 1)
      case CallAcknowledge(id) =>
        if id < 0 || (s.pending != [] && id > s.pending[|s.pending| - 1].seqNo) then s
        else s.(pending := Unacked(s.pending, id))
      case CallResume => s.(phase := R.Live)
      case CallPause => s.(phase := R.Paused)
      case CallDestroy => s.(phase := R.Destroyed, pending := [])
      case _ => s
  }

  lemma ChangeIsQuiet(q: R.State, thenFlush: bool)
    ensures Quiet(q, R.QueueChanged(q, thenFlush))
  {
    TimerIsQuiet(q, q.(version := q.version + 1, tail := None), thenFlush);
  }

  lemma AckIsQuiet(s: R.State, id: int)
    ensures Quiet(Effect(s, R.CallAcknowledge(id)), R.Acknowledge(s, id))
  {
    ChangeIsQuiet(Effect(s, R.CallAcknowledge(id)), false);
  }

  lemma StepIsQuiet(s: R.State, e: R.Event, merge: seq<Bytes> -> Bytes)
    requires R.Inv(s, merge)
    ensures Quiet(Effect(s, e), R.Step(s, e, merge))
  {
    var q := Effect(s, e);
    match e
    case CallEnqueue(_) => ChangeIsQuiet(q, true);
    case CallAcknowledge(id) => AckIsQuiet(s, id);
    case CallDestroy => ChangeIsQuiet(q, false);
    case CallResume => if s.phase != R.Destroyed { TimerIsQuiet(q, q.(version := s.version + 1), true); }
    case CallPause => if s.phase != R.Destroyed { TimerIsQuiet(q, q.(version := s.version + 1), false); }
    case CallRetransmit => FlushIsQuiet(s, s);
    case TimerTick(_) => FlushIsQuiet(s, s);
    case CallbackReturns => ReturnIsQuiet(s, merge);
    case CallbackThrows =>
  }

  // ---------------------------------------------------------------- the same step of the client

  /** The client's step for a call, before anything is sent. */
  function Mirrored(n: nat, e: R.Event, decode: Decode): seq<N.Event> {
    match e
    case CallEnqueue(update) => [N.Edit(n, decode(update))]
    case CallAcknowledge(id) => if id < 0 then [] else [N.TakeAck(N.Ack(n, id))]
    case CallResume => [N.Resume(n)]
    case CallPause => [N.Pause(n)]
    case _ => []
  }

  /** What the surroundings grant: edits build on the document, acknowledgements come off the wire,
      and the queue is not destroyed. */
  ghost predicate Granted(net: N.System, n: nat, e: R.Event, decode: Decode) {
    match e
    case CallEnqueue(update) => N.Writes(net, n, decode(update))
    case CallAcknowledge(id) => id >= 0 ==> N.Ack(n, id) in net.net
    case CallDestroy => false
    case _ => true
  }

  lemma {:induction false} ReadUnacked(queue: seq<Entry<Bytes>>, id: int, decode: Decode)
    ensures Unacked(ReadAll(queue, decode), id) == ReadAll(Unacked(queue, id), decode)
    decreases |queue|
  {
    if queue != [] {
      ReadUnacked(queue[1..], id, decode);
      var rest := Unacked(queue[1..], id);
      assert ReadAll(queue, decode)[1..] == ReadAll(queue[1..], decode);
      assert ReadAll([queue[0]] + rest, decode) == [Read(queue[0], decode)] + ReadAll(rest, decode);
      assert [] + rest == rest && [] + ReadAll(rest, decode) == ReadAll(rest, decode);
    }
  }

  lemma EnqueueMatches(d: R.State, c: N.Client, update: Bytes, decode: Decode)
    requires Matches(d, c, decode)
    ensures Matches(Effect(d, R.CallEnqueue(update)), N.Edited(c, decode(update)), decode)
  {
    assert ReadAll(d.pending + [Entry(d.nextSeq, update)], decode)
        == ReadAll(d.pending, decode) + [Entry(d.nextSeq, decode(update))];
  }

  lemma AckMatches(d: R.State, c: N.Client, id: nat, decode: Decode)
    requires Matches(d, c, decode)
    ensures Matches(Effect(d, R.CallAcknowledge(id)), N.Acknowledged(c, id), decode)
  {
    ReadUnacked(d.pending, id, decode);
    assert d.pending != [] ==> c.queue[|c.queue| - 1].seqNo == d.pending[|d.pending| - 1].seqNo;
  }

  lemma ResumeClients(net: N.System, n: nat)
    requires n in net.clients
    ensures N.Step(net, N.Resume(n)).clients == net.clients[n := N.Reopened(net.clients[n], true, N.Stored(net))]
    ensures net.net <= N.Step(net, N.Resume(n)).net
  {
  }

  /** The network after the client's step for a call. */
  ghost function After(net: N.System, n: nat, e: R.Event, decode: Decode): N.System {
    N.Run(net, Mirrored(n, e, decode))
  }

  lemma CallMatches(d: R.State, net: N.System, n: nat, e: R.Event, decode: Decode)
    requires n in net.clients && Matches(d, net.clients[n], decode) && Granted(net, n, e, decode)
    ensures var net' := After(net, n, e, decode); n in net'.clients && Matches(Effect(d, e), net'.clients[n], decode)
  {
    if Mirrored(n, e, decode) != [] { N.RunOne(net, Mirrored(n, e, decode)[0]); }
    match e
    case CallEnqueue(update) => EnqueueMatches(d, net.clients[n], update, decode);
    case CallAcknowledge(id) => if id >= 0 { AckMatches(d, net.clients[n], id, decode); }
    case CallResume => ResumeClients(net, n);
    case _ =>
  }

  // ---------------------------------------------------------------- transmissions

  /** Merged and then read, or read and then merged. */
  lemma ReadMerged(queue: seq<Entry<Bytes>>, merge: seq<Bytes> -> Bytes, decode: Decode)
    requires Faithful(merge, decode) && queue != []
    ensures decode(R.Merged(merge, Updates(queue))) == N.Merged(ReadAll(queue, decode))
  {
    assert Updates(ReadAll(queue, decode)) == Decoded(Updates(queue), decode);
    if |queue| == 1 {
      var one := decode(queue[0].update);
      assert Updates(ReadAll(queue, decode)) == [one];
      assert Union([one]) == one by { assert [one][1..] == []; }
    }
  }

  /** A transmission of the queue is the frame the client sends. */
  lemma SentIsTail(d: R.State, c: N.Client, n: nat, x: R.Sent, merge: seq<Bytes> -> Bytes, decode: Decode)
    requires Faithful(merge, decode) && Matches(d, c, decode) && R.Exact(x, merge) && x.queue == d.pending
    ensures c.queue != [] && FrameOf(n, x, decode) == N.TailFrame(n, c)
  {
    ReadMerged(d.pending, merge, decode);
  }

  lemma TransmitSends(net: N.System, n: nat)
    requires n in net.clients && net.clients[n].live && net.clients[n].queue != []
    ensures var net' := N.Step(net, N.Transmit(n));
      net'.clients == net.clients && net'.net == net.net + {N.TailFrame(n, net.clients[n])}
  {
  }

  // ---------------------------------------------------------------- queue and network together

  datatype Joint = Joint(d: R.State, net: N.System)

  datatype Move = Mine(call: R.Event) | Theirs(event: N.Event)

  /** Everything else in the system may do anything but act for this client's queue. */
  predicate Elsewhere(n: nat, e: N.Event) {
    match e
    case Edit(m, _) => m != n
    case Resume(m) => m != n
    case Pause(m) => m != n
    case TakeAck(m) => m.Ack? ==> m.client != n
    case _ => true
  }

  ghost predicate Allowed(j: Joint, n: nat, m: Move, decode: Decode) {
    match m
    case Mine(e) => Granted(j.net, n, e, decode)
    case Theirs(e) => Elsewhere(n, e)
  }

  ghost function JointStep(j: Joint, n: nat, m: Move, merge: seq<Bytes> -> Bytes, decode: Decode): Joint {
    match m
    case Mine(e) =>
      var d := R.Step(j.d, e, merge);
      var net := After(j.net, n, e, decode);
      Joint(d, if |d.sent| > |j.d.sent| then N.Step(net, N.Transmit(n)) else net)
    case Theirs(e) => Joint(j.d, N.Step(j.net, e))
  }

  ghost predicate Reaches(j: Joint, n: nat, moves: seq<Move>, j': Joint, merge: seq<Bytes> -> Bytes, decode: Decode)
    decreases moves
  {
    if moves == [] then j' == j
    else
      && Allowed(j, n, moves[0], decode)
      && Reaches(JointStep(j, n, moves[0], merge, decode), n, moves[1..], j', merge, decode)
  }

  /** A state of the network some run of it reaches. */
  ghost predicate InSomeRun(net: N.System) { exists events :: net == N.Run(N.INIT, events) }

  ghost predicate JointInv(j: Joint, n: nat, merge: seq<Bytes> -> Bytes, decode: Decode) {
    && InSomeRun(j.net) && R.Inv(j.d, merge)
    && n in j.net.clients && Matches(j.d, j.net.clients[n], decode)
    && OnTheWire(j.d.sent, n, j.net.net, decode)
  }

  lemma RunStays(net: N.System, events: seq<N.Event>)
    requires InSomeRun(net)
    ensures InSomeRun(N.Run(net, events)) && net.net <= N.Run(net, events).net
  {
    var before :| net == N.Run(N.INIT, before);
    N.RunConcat(N.INIT, before, events);
    N.InitOk();
    N.RunOk(N.INIT, before);
    N.RunOk(net, events);
  }

  lemma StepStays(net: N.System, e: N.Event)
    requires InSomeRun(net)
    ensures InSomeRun(N.Step(net, e)) && net.net <= N.Step(net, e).net
  {
    RunStays(net, [e]);
    N.RunOne(net, e);
  }

  lemma TheirsMatch(net: N.System, n: nat, e: N.Event, d: R.State, decode: Decode)
    requires n in net.clients && Matches(d, net.clients[n], decode) && Elsewhere(n, e)
    ensures n in N.Step(net, e).clients && Matches(d, N.Step(net, e).clients[n], decode)
  {
    if !N.Local(e) { N.OthersKeepClients(net, e); }
    else if e.Resume? && e.client in net.clients { ResumeClients(net, e.client); }
  }

  ghost predicate OnTheWire(sent: seq<R.Sent>, n: nat, net: set<N.Msg>, decode: Decode) {
    forall k :: 0 <= k < |sent| ==> FrameOf(n, sent[k], decode) in net
  }

  /** One more transmission, and the frame for it. */
  lemma SendsOneMore(d: R.State, d': R.State, n: nat, net: N.System, net': N.System, merge: seq<Bytes> -> Bytes, decode: Decode)
    requires Faithful(merge, decode) && R.Inv(d', merge) && InSomeRun(net') && net.net <= net'.net
    requires n in net'.clients && Matches(d', net'.clients[n], decode)
    requires d'.phase == R.Live && d'.pending != [] && |d'.sent| == |d.sent| + 1
    requires d'.sent[..|d.sent|] == d.sent && d'.sent[|d.sent|].queue == d'.pending
    requires OnTheWire(d.sent, n, net.net, decode)
    ensures JointInv(Joint(d', N.Step(net', N.Transmit(n))), n, merge, decode)
  {
    var x := d'.sent[|d.sent|];
    SentIsExact(d', |d.sent|, merge);
    SentIsTail(d', net'.clients[n], n, x, merge, decode);
    TransmitSends(net', n);
    StepStays(net', N.Transmit(n));
    WireGrows(d.sent, d'.sent, n, net.net, N.Step(net', N.Transmit(n)).net, decode);
  }

  lemma SentIsExact(d: R.State, k: nat, merge: seq<Bytes> -> Bytes)
    requires R.Inv(d, merge) && k < |d.sent|
    ensures R.Exact(d.sent[k], merge)
  {
  }

  lemma WireGrows(sent: seq<R.Sent>, sent': seq<R.Sent>, n: nat, net: set<N.Msg>, net': set<N.Msg>, decode: Decode)
    requires OnTheWire(sent, n, net, decode) && net <= net'
    requires |sent'| == |sent| + 1 && sent'[..|sent|] == sent && FrameOf(n, sent'[|sent|], decode) in net'
    ensures OnTheWire(sent', n, net', decode)
  {
    forall k | 0 <= k < |sent'| ensures FrameOf(n, sent'[k], decode) in net' {
      if k < |sent| { assert sent'[k] == sent'[..|sent|][k] == sent[k]; }
    }
  }

  lemma EffectSends(s: R.State, e: R.Event)
    ensures Effect(s, e).sent == s.sent
  {
  }

  lemma QuietMatches(q: R.State, d: R.State, c: N.Client, decode: Decode)
    requires Matches(q, c, decode) && Quiet(q, d)
    ensures Matches(d, c, decode)
  {
  }

  lemma MineKeeps(j: Joint, n: nat, e: R.Event, merge: seq<Bytes> -> Bytes, decode: Decode)
    requires Faithful(merge, decode) && JointInv(j, n, merge, decode) && Granted(j.net, n, e, decode)
    ensures JointInv(JointStep(j, n, Mine(e), merge, decode), n, merge, decode)
  {
    var d, net := R.Step(j.d, e, merge), After(j.net, n, e, decode);
    R.StepKeeps(j.d, e, merge);
    StepIsQuiet(j.d, e, merge);
    CallMatches(j.d, j.net, n, e, decode);
    QuietMatches(Effect(j.d, e), d, net.clients[n], decode);
    RunStays(j.net, Mirrored(n, e, decode));
    EffectSends(j.d, e);
    MineSends(j, n, Effect(j.d, e), d, net, merge, decode);
  }

  lemma MineSends(j: Joint, n: nat, q: R.State, d: R.State, net: N.System, merge: seq<Bytes> -> Bytes, decode: Decode)
    requires Faithful(merge, decode) && JointInv(j, n, merge, decode)
    requires q.sent == j.d.sent && Quiet(q, d) && R.Inv(d, merge) && InSomeRun(net) && j.net.net <= net.net
    requires n in net.clients && Matches(d, net.clients[n], decode)
    ensures JointInv(Joint(d, if |d.sent| > |j.d.sent| then N.Step(net, N.Transmit(n)) else net), n, merge, decode)
  {
    if |d.sent| > |j.d.sent| { SendsOneMore(j.d, d, n, j.net, net, merge, decode); }
  }

  lemma JointStepKeeps(j: Joint, n: nat, m: Move, merge: seq<Bytes> -> Bytes, decode: Decode)
    requires Faithful(merge, decode) && JointInv(j, n, merge, decode) && Allowed(j, n, m, decode)
    ensures JointInv(JointStep(j, n, m, merge, decode), n, merge, decode)
  {
    match m
    case Mine(e) => MineKeeps(j, n, e, merge, decode);
    case Theirs(e) =>
      StepStays(j.net, e);
      TheirsMatch(j.net, n, e, j.d, decode);
  }

  lemma {:induction false} JointRunKeeps(j: Joint, n: nat, moves: seq<Move>, j': Joint, merge: seq<Bytes> -> Bytes, decode: Decode)
    requires Faithful(merge, decode) && JointInv(j, n, merge, decode) && Reaches(j, n, moves, j', merge, decode)
    ensures JointInv(j', n, merge, decode)
    decreases moves
  {
    if moves != [] {
      JointStepKeeps(j, n, moves[0], merge, decode);
      JointRunKeeps(JointStep(j, n, moves[0], merge, decode), n, moves[1..], j', merge, decode);
    }
  }

  /** A client that has just joined, with a new queue. */
  ghost predicate Fresh(j: Joint, n: nat) {
    InSomeRun(j.net) && n in j.net.clients && j.net.clients[n] == N.Fresh() && j.d == R.Init()
  }

  /** Any client can be that client. */
  lemma FreshAfterJoin(n: nat)
    ensures Fresh(Joint(R.Init(), N.Run(N.INIT, [N.Join(n)])), n)
  {
    N.RunOne(N.INIT, N.Join(n));
  }

  lemma FreshKeeps(j: Joint, n: nat, merge: seq<Bytes> -> Bytes, decode: Decode)
    requires Fresh(j, n)
    ensures JointInv(j, n, merge, decode)
  {
    R.RunKeeps(R.Init(), [], merge);
  }

  /** In every run of the real queue among everything else the system does, callbacks re-entering and
      throwing included: the whole is a run of the network, and every transmission the queue made is a
      frame on the wire. */
  lemma QueueRefinesClient(j: Joint, n: nat, moves: seq<Move>, j': Joint, merge: seq<Bytes> -> Bytes, decode: Decode)
    requires Faithful(merge, decode) && Fresh(j, n) && Reaches(j, n, moves, j', merge, decode)
    ensures InSomeRun(j'.net) && n in j'.net.clients && Matches(j'.d, j'.net.clients[n], decode)
    ensures forall k :: 0 <= k < |j'.d.sent| ==> FrameOf(n, j'.d.sent[k], decode) in j'.net.net
  {
    FreshKeeps(j, n, merge, decode);
    JointRunKeeps(j, n, moves, j', merge, decode);
  }

  /** Hence the real queue loses no edit: the k-th update enqueued is still pending under its number,
      or everything in it is durable. */
  lemma RealQueueLosesNothing(j: Joint, n: nat, moves: seq<Move>, j': Joint, merge: seq<Bytes> -> Bytes, decode: Decode, k: nat)
    requires Faithful(merge, decode) && Fresh(j, n) && Reaches(j, n, moves, j', merge, decode)
    requires n in j'.net.clients && k < |j'.net.clients[n].log|
    ensures var edit := j'.net.clients[n].log[k];
      (exists x :: x in j'.d.pending && x.seqNo == k + 1 && decode(x.update) == edit) || edit <= N.Stored(j'.net)
  {
    QueueRefinesClient(j, n, moves, j', merge, decode);
    var events :| j'.net == N.Run(N.INIT, events);
    N.NoEditIsLost(events, n, k);
    var c := j'.net.clients[n];
    if Entry(k + 1, c.log[k]) in c.queue {
      var i :| 0 <= i < |c.queue| && c.queue[i] == Entry(k + 1, c.log[k]);
      assert Read(j'.d.pending[i], decode) == c.queue[i];
      assert j'.d.pending[i] in j'.d.pending;
    }
  }
}
