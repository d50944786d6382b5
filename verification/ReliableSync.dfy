/** The delivery queue: unacknowledged local updates, numbered without gaps. */
module Queue {
  datatype Entry<U> = Entry(seqNo: nat, update: U)

  function Updates<U>(queue: seq<Entry<U>>): (r: seq<U>)
    ensures |r| == |queue|
  {
    seq(|queue|, i requires 0 <= i < |queue| => queue[i].update)
  }

  /** Keep what an acknowledgement through `id` has not confirmed. */
  function Unacked<U>(queue: seq<Entry<U>>, id: int): seq<Entry<U>> {
    if queue == [] then []
    else (if queue[0].seqNo > id then [queue[0]] else []) + Unacked(queue[1..], id)
  }

  /** Sequence numbers run up to `last` without a gap. */
  ghost predicate Numbered<U>(queue: seq<Entry<U>>, last: nat) {
    && |queue| <= last
    && forall k :: 0 <= k < |queue| ==> queue[k].seqNo == last - |queue| + k + 1
  }

  /** On a numbered queue the filter drops exactly a prefix: a cumulative acknowledgement. */
  lemma {:induction false} UnackedIsSuffix<U>(queue: seq<Entry<U>>, last: nat, id: int)
    requires Numbered(queue, last) && id <= last
    ensures Unacked(queue, id) == queue[|queue| - (if last - id < |queue| then last - id else |queue|)..]
  {
    if queue != [] {
      assert Numbered(queue[1..], last);
      UnackedIsSuffix(queue[1..], last, id);
    }
  }
}

/** `ReliableSync` with its injected `send`, `merge` and timer functions, any of which may call back
    into the queue, return or throw.  A public call runs up to the next injected call and leaves a
    frame; while a frame is on top, the injected function is running. */
module ReliableDelivery {
  import opened Queue
  import opened Common

  /** An encoded update; only the injected `merge` looks inside. */
  type Bytes = seq<bv8>

  datatype Phase = Paused | Live | Destroyed

  /** An injected call in progress and what waits behind it; `thenFlush` says the interrupted public
      call still has the tail to send once its timer work is done. */
  datatype Frame =
    | Merging(version: nat, updates: seq<Bytes>)
    | Sending
    | Starting(timer: nat, thenFlush: bool)
    | Stopping(thenFlush: bool)

  /** One transmission, with the queue as it was at that instant. */
  datatype Sent = Sent(update: Bytes, id: nat, queue: seq<Entry<Bytes>>)

  /** The private fields, the injected calls in progress, the intervals the host is running
      (`live`), and every transmission so far.  `missing` is set while the latest attempt to start
      an interval failed. */
  datatype State = State(
    pending: seq<Entry<Bytes>>, nextSeq: nat, phase: Phase, timer: Option<nat>, version: nat, tail: Option<Bytes>,
    frames: seq<Frame>, nextTimer: nat, live: set<nat>, missing: bool, sent: seq<Sent>)

  function Init(): State {
    State([], 1, Paused, None, 0, None, [], 0, {}, false, [])
  }

  function Push(s: State, f: Frame): State { s.(frames := s.frames + [f]) }

  function Pop(s: State): State
    requires s.frames != []
  {
    s.(frames := s.frames[..|s.frames| - 1])
  }

  function Merged(merge: seq<Bytes> -> Bytes, updates: seq<Bytes>): Bytes
    requires updates != []
  {
    if |updates| == 1 then updates[0] else merge(updates)
  }

  predicate Wanted(s: State) { s.phase == Live && s.pending != [] }

  function Transmit(s: State): State
    requires s.tail.Some? && s.pending != []
  {
    var last := s.pending[|s.pending| - 1];
    Push(s.(sent := s.sent + [Sent(s.tail.value, last.seqNo, s.pending)]), Sending)
  }

  function Flush(s: State): State {
    if !Wanted(s) then s
    else if s.tail.Some? then Transmit(s)
    else if |s.pending| == 1 then Transmit(s.(tail := Some(s.pending[0].update)))
    else Push(s, Merging(s.version, Updates(s.pending)))
  }

  function Continue(s: State, thenFlush: bool): State {
    if thenFlush then Flush(s) else s
  }

  function UpdateTimer(s: State, thenFlush: bool): State {
    if Wanted(s) == s.timer.Some? then Continue(s.(missing := false), thenFlush)
    else if !Wanted(s) then
      var s' := s.(timer := None, missing := false, live := s.live - {s.timer.value});
      // Until the host returned a handle there is nothing to clear.
      if s.timer.value in s.live then Push(s', Stopping(thenFlush)) else Continue(s', thenFlush)
    else
      Push(s.(timer := Some(s.nextTimer), missing := false, nextTimer := s.nextTimer + 1),
           Starting(s.nextTimer, thenFlush))
  }

  function QueueChanged(s: State, thenFlush: bool): State {
    UpdateTimer(s.(version := s.version + 1, tail := None), thenFlush)
  }

  function Enqueue(s: State, update: Bytes): State {
    if s.phase == Destroyed then s
    else QueueChanged(s.(pending := s.pending + [Entry(s.nextSeq, update)], nextSeq := s.nextSeq + 1), true)
  }

  function Acknowledge(s: State, id: int): State {
    if s.phase == Destroyed || id < 0 then s
    else if s.pending != [] && id > s.pending[|s.pending| - 1].seqNo then s
    else QueueChanged(s.(pending := Unacked(s.pending, id)), false)
  }

  function Resume(s: State): State {
    if s.phase == Destroyed then s else UpdateTimer(s.(phase := Live, version := s.version + 1), true)
  }

  function Pause(s: State): State {
    if s.phase == Destroyed then s else UpdateTimer(s.(phase := Paused, version := s.version + 1), false)
  }

  function Destroy(s: State): State {
    if s.phase == Destroyed then s else QueueChanged(s.(phase := Destroyed, pending := []), false)
  }

  function Tick(s: State, timer: nat): State {
    if s.timer == Some(timer) then Flush(s) else s
  }

  /** The running injected function returns and the code behind it goes on. */
  function Return(s: State, merge: seq<Bytes> -> Bytes): State {
    if s.frames == [] then s
    else
      var s' := Pop(s);
      match s.frames[|s.frames| - 1]
      case Merging(version, updates) =>
        // an unchanged version already rules out an empty queue
        if s'.version != version || s'.pending == [] then s' else Transmit(s'.(tail := Some(merge(updates))))
      case Sending => s'
      case Starting(timer, thenFlush) =>
        if s'.timer != Some(timer) then Push(s', Stopping(thenFlush))
        else Continue(s'.(live := s'.live + {timer}), thenFlush)
      case Stopping(thenFlush) => Continue(s', thenFlush)
  }

  /** The running injected function throws; the public call that made the call is abandoned. */
  function Throw(s: State): State {
    if s.frames == [] then s
    else
      var s' := Pop(s);
      match s.frames[|s.frames| - 1]
      case Starting(timer, _) => if s'.timer == Some(timer) then s'.(timer := None, missing := true) else s'
      case _ => s'
  }

  datatype Event =
    | CallEnqueue(update: Bytes) | CallAcknowledge(id: int) | CallResume | CallPause | CallRetransmit | CallDestroy
    | TimerTick(timer: nat) | CallbackReturns | CallbackThrows

  function Step(s: State, e: Event, merge: seq<Bytes> -> Bytes): State {
    match e
    case CallEnqueue(update) => Enqueue(s, update)
    case CallAcknowledge(id) => Acknowledge(s, id)
    case CallResume => Resume(s)
    case CallPause => Pause(s)
    case CallRetransmit => Flush(s)
    case CallDestroy => Destroy(s)
    case TimerTick(timer) => Tick(s, timer)
    case CallbackReturns => Return(s, merge)
    case CallbackThrows => Throw(s)
  }

  function Run(s: State, events: seq<Event>, merge: seq<Bytes> -> Bytes): State
    decreases events
  {
    if events == [] then s else Run(Step(s, events[0], merge), events[1..], merge)
  }

  // ---------------------------------------------------------------- invariant

  /** A transmission is the merge of exactly the queue at that instant under its highest number. */
  ghost predicate Exact(x: Sent, merge: seq<Bytes> -> Bytes) {
    && x.queue != []
    && x.update == Merged(merge, Updates(x.queue))
    && x.id == x.queue[|x.queue| - 1].seqNo
  }

  /** Queue, memo and merges in progress: a merge whose version is current read the current queue. */
  ghost predicate Delivery(s: State, merge: seq<Bytes> -> Bytes) {
    && s.nextSeq > 0 && Numbered(s.pending, s.nextSeq - 1)
    && (s.phase == Destroyed ==> s.pending == [])
    && (s.tail.Some? ==> s.pending != [] && s.tail.value == Merged(merge, Updates(s.pending)))
    && (forall k :: 0 <= k < |s.frames| && s.frames[k].Merging? ==>
         && s.frames[k].version <= s.version && |s.frames[k].updates| > 1
         && (s.frames[k].version == s.version ==> s.frames[k].updates == Updates(s.pending) && s.phase == Live))
    && forall k :: 0 <= k < |s.sent| ==> Exact(s.sent[k], merge)
  }

  ghost predicate IsStarting(s: State, timer: nat) {
    exists k :: 0 <= k < |s.frames| && s.frames[k].Starting? && s.frames[k].timer == timer
  }

  /** A running interval is always the current timer's, the current timer is running or starting,
      and no timer is started twice. */
  ghost predicate Intervals(s: State) {
    && (forall t :: t in s.live ==> s.timer == Some(t) && t < s.nextTimer && !IsStarting(s, t))
    && (s.timer.Some? ==> s.timer.value in s.live || IsStarting(s, s.timer.value))
    && (forall k :: 0 <= k < |s.frames| && s.frames[k].Starting? ==> s.frames[k].timer < s.nextTimer)
    && forall j, k :: 0 <= j < k < |s.frames| && s.frames[j].Starting? && s.frames[k].Starting? ==>
         s.frames[j].timer != s.frames[k].timer
  }

  ghost predicate Timers(s: State) {
    Intervals(s) && (s.timer.Some? <==> Wanted(s) && !s.missing)
  }

  ghost predicate Inv(s: State, merge: seq<Bytes> -> Bytes) { Delivery(s, merge) && Timers(s) }

  lemma PushKeeps(s: State, f: Frame)
    requires Intervals(s) && !f.Starting?
    ensures Intervals(Push(s, f))
    ensures forall t :: IsStarting(Push(s, f), t) <==> IsStarting(s, t)
  {
    var s' := Push(s, f);
    forall t ensures IsStarting(s', t) <==> IsStarting(s, t) {
      if IsStarting(s, t) {
        var k :| 0 <= k < |s.frames| && s.frames[k].Starting? && s.frames[k].timer == t;
        assert s'.frames[k] == s.frames[k];
      }
    }
  }

  lemma StartKeeps(s: State, thenFlush: bool)
    requires Intervals(s) && s.timer.None?
    ensures Intervals(Push(s.(timer := Some(s.nextTimer), nextTimer := s.nextTimer + 1), Starting(s.nextTimer, thenFlush)))
  {
    var s' := Push(s.(timer := Some(s.nextTimer), nextTimer := s.nextTimer + 1), Starting(s.nextTimer, thenFlush));
    assert s'.frames[|s.frames|] == Starting(s.nextTimer, thenFlush);
    assert IsStarting(s', s.nextTimer);
  }

  /** Popping a frame forgets only the timer that frame was starting. */
  lemma PopKeeps(s: State)
    requires Intervals(s) && s.frames != []
    ensures var top := s.frames[|s.frames| - 1];
      && (forall t :: IsStarting(Pop(s), t) <==> IsStarting(s, t) && !(top.Starting? && top.timer == t))
      && (!(top.Starting? && s.timer == Some(top.timer)) ==> Intervals(Pop(s)))
  {
    var s' := Pop(s);
    var top := s.frames[|s.frames| - 1];
    forall t ensures IsStarting(s', t) <==> IsStarting(s, t) && !(top.Starting? && top.timer == t) {
      if IsStarting(s, t) && !(top.Starting? && top.timer == t) {
        var k :| 0 <= k < |s.frames| && s.frames[k].Starting? && s.frames[k].timer == t;
        assert s'.frames[k] == s.frames[k];
      }
    }
    assert top.Starting? ==> IsStarting(s, top.timer);
  }

  lemma TransmitKeeps(s: State, merge: seq<Bytes> -> Bytes)
    requires Inv(s, merge) && s.tail.Some?
    ensures Inv(Transmit(s), merge)
  {
    var last := s.pending[|s.pending| - 1];
    PushKeeps(s.(sent := s.sent + [Sent(s.tail.value, last.seqNo, s.pending)]), Sending);
  }

  lemma FlushKeeps(s: State, merge: seq<Bytes> -> Bytes)
    requires Inv(s, merge)
    ensures Inv(Flush(s), merge)
  {
    if Wanted(s) {
      if s.tail.Some? {
        TransmitKeeps(s, merge);
      } else if |s.pending| == 1 {
        TransmitKeeps(s.(tail := Some(s.pending[0].update)), merge);
      } else {
        PushKeeps(s, Merging(s.version, Updates(s.pending)));
      }
    }
  }

  /** The timer is as wanted already. */
  lemma TimerLeftKeeps(s: State, thenFlush: bool, merge: seq<Bytes> -> Bytes)
    requires Delivery(s, merge) && Intervals(s) && Wanted(s) == s.timer.Some?
    ensures Inv(Continue(s.(missing := false), thenFlush), merge)
  {
    var s' := s.(missing := false);
    assert forall t :: IsStarting(s', t) <==> IsStarting(s, t);
    FlushKeeps(s', merge);
  }

  function Stopped(s: State): State
    requires s.timer.Some?
  {
    s.(timer := None, missing := false, live := s.live - {s.timer.value})
  }

  lemma StoppedKeeps(s: State, merge: seq<Bytes> -> Bytes)
    requires Delivery(s, merge) && Intervals(s) && s.timer.Some? && !Wanted(s)
    ensures Inv(Stopped(s), merge)
  {
    assert forall t :: IsStarting(Stopped(s), t) <==> IsStarting(s, t);
    assert Stopped(s).live == {};
  }

  lemma TimerStopKeeps(s: State, thenFlush: bool, merge: seq<Bytes> -> Bytes)
    requires Delivery(s, merge) && Intervals(s) && s.timer.Some? && !Wanted(s)
    ensures Inv(Push(Stopped(s), Stopping(thenFlush)), merge) && Inv(Continue(Stopped(s), thenFlush), merge)
  {
    StoppedKeeps(s, merge);
    FlushKeeps(Stopped(s), merge);
    PushKeeps(Stopped(s), Stopping(thenFlush));
  }

  lemma TimerStartKeeps(s: State, thenFlush: bool, merge: seq<Bytes> -> Bytes)
    requires Delivery(s, merge) && Intervals(s) && s.timer.None? && Wanted(s)
    ensures Inv(Push(s.(timer := Some(s.nextTimer), missing := false, nextTimer := s.nextTimer + 1),
                     Starting(s.nextTimer, thenFlush)), merge)
  {
    assert forall t :: IsStarting(s.(missing := false), t) <==> IsStarting(s, t);
    StartKeeps(s.(missing := false), thenFlush);
  }

  lemma UpdateTimerKeeps(s: State, thenFlush: bool, merge: seq<Bytes> -> Bytes)
    requires Delivery(s, merge) && Intervals(s)
    ensures Inv(UpdateTimer(s, thenFlush), merge)
  {
    if Wanted(s) == s.timer.Some? {
      TimerLeftKeeps(s, thenFlush, merge);
    } else if !Wanted(s) {
      TimerStopKeeps(s, thenFlush, merge);
    } else {
      TimerStartKeeps(s, thenFlush, merge);
    }
  }

  /** A change to the queue or the phase under a new version leaves the invariant intact. */
  lemma ChangeKeeps(s: State, q: State, thenFlush: bool, merge: seq<Bytes> -> Bytes)
    requires Inv(s, merge)
    requires q == s.(pending := q.pending, nextSeq := q.nextSeq, phase := q.phase, version := s.version + 1, tail := q.tail)
    requires q.nextSeq > 0 && Numbered(q.pending, q.nextSeq - 1) && (q.phase == Destroyed ==> q.pending == [])
    requires q.tail.Some? ==> q.tail == s.tail && q.pending == s.pending
    ensures Inv(UpdateTimer(q, thenFlush), merge)
  {
    assert forall t :: IsStarting(q, t) <==> IsStarting(s, t);
    UpdateTimerKeeps(q, thenFlush, merge);
  }

  lemma StartedKeeps(s: State, merge: seq<Bytes> -> Bytes)
    requires Inv(s, merge) && s.frames != []
    requires var top := s.frames[|s.frames| - 1]; top.Starting? && s.timer == Some(top.timer)
    ensures Inv(Pop(s).(live := s.live + {s.timer.value}), merge)
  {
    PopKeeps(s);
    var s' := Pop(s).(live := s.live + {s.timer.value});
    assert IsStarting(s, s.timer.value);
    assert forall t :: IsStarting(s', t) <==> IsStarting(Pop(s), t);
  }

  lemma PoppedKeeps(s: State, merge: seq<Bytes> -> Bytes)
    requires Inv(s, merge) && s.frames != []
    requires var top := s.frames[|s.frames| - 1]; !(top.Starting? && s.timer == Some(top.timer))
    ensures Inv(Pop(s), merge)
  {
    PopKeeps(s);
  }

  lemma MergedKeeps(s: State, version: nat, updates: seq<Bytes>, merge: seq<Bytes> -> Bytes)
    requires Inv(s, merge) && s.version == version && s.pending != []
    requires updates == Updates(s.pending) && |updates| > 1
    ensures Inv(Transmit(s.(tail := Some(merge(updates)))), merge)
  {
    TransmitKeeps(s.(tail := Some(merge(updates))), merge);
  }

  lemma ReturnKeeps(s: State, merge: seq<Bytes> -> Bytes)
    requires Inv(s, merge) && s.frames != []
    ensures Inv(Return(s, merge), merge)
  {
    var top := s.frames[|s.frames| - 1];
    if top.Starting? && s.timer == Some(top.timer) {
      StartedKeeps(s, merge);
      FlushKeeps(Pop(s).(live := s.live + {top.timer}), merge);
    } else {
      PoppedKeeps(s, merge);
      if top.Merging? {
        if s.version == top.version && s.pending != [] {
          MergedKeeps(Pop(s), top.version, top.updates, merge);
        }
      } else if top.Starting? {
        PushKeeps(Pop(s), Stopping(top.thenFlush));
      } else {
        FlushKeeps(Pop(s), merge);
      }
    }
  }

  lemma ThrowKeeps(s: State, merge: seq<Bytes> -> Bytes)
    requires Inv(s, merge) && s.frames != []
    ensures Inv(Throw(s), merge)
  {
    PopKeeps(s);
    var top := s.frames[|s.frames| - 1];
    if top.Starting? {
      assert IsStarting(s, top.timer);
      assert forall t :: IsStarting(Throw(s), t) <==> IsStarting(Pop(s), t);
    }
  }

  lemma AcknowledgeKeeps(s: State, id: int, merge: seq<Bytes> -> Bytes)
    requires Inv(s, merge)
    ensures Inv(Acknowledge(s, id), merge)
  {
    if s.phase != Destroyed && 0 <= id && (s.pending == [] || id <= s.nextSeq - 1) {
      var q := s.(pending := Unacked(s.pending, id), version := s.version + 1, tail := None);
      UnackedIsNumbered(s.pending, s.nextSeq - 1, id);
      ChangeKeeps(s, q, false, merge);
    }
  }

  lemma UnackedIsNumbered(queue: seq<Entry<Bytes>>, last: nat, id: int)
    requires Numbered(queue, last) && (queue == [] || id <= last)
    ensures Numbered(Unacked(queue, id), last)
  {
    if queue != [] { UnackedIsSuffix(queue, last, id); }
  }

  lemma EnqueueKeeps(s: State, update: Bytes, merge: seq<Bytes> -> Bytes)
    requires Inv(s, merge)
    ensures Inv(Enqueue(s, update), merge)
  {
    if s.phase != Destroyed {
      var q := s.(pending := s.pending + [Entry(s.nextSeq, update)], nextSeq := s.nextSeq + 1,
                  version := s.version + 1, tail := None);
      ChangeKeeps(s, q, true, merge);
    }
  }

  lemma ResumeKeeps(s: State, merge: seq<Bytes> -> Bytes)
    requires Inv(s, merge)
    ensures Inv(Resume(s), merge)
  {
    if s.phase != Destroyed { ChangeKeeps(s, s.(phase := Live, version := s.version + 1), true, merge); }
  }

  lemma PauseKeeps(s: State, merge: seq<Bytes> -> Bytes)
    requires Inv(s, merge)
    ensures Inv(Pause(s), merge)
  {
    if s.phase != Destroyed { ChangeKeeps(s, s.(phase := Paused, version := s.version + 1), false, merge); }
  }

  lemma DestroyKeeps(s: State, merge: seq<Bytes> -> Bytes)
    requires Inv(s, merge)
    ensures Inv(Destroy(s), merge)
  {
    if s.phase != Destroyed {
      var q := s.(phase := Destroyed, pending := [], version := s.version + 1, tail := None);
      ChangeKeeps(s, q, false, merge);
    }
  }

  lemma StepKeeps(s: State, e: Event, merge: seq<Bytes> -> Bytes)
    requires Inv(s, merge)
    ensures Inv(Step(s, e, merge), merge)
  {
    match e
    case CallEnqueue(update) => EnqueueKeeps(s, update, merge);
    case CallAcknowledge(id) => AcknowledgeKeeps(s, id, merge);
    case CallRetransmit => FlushKeeps(s, merge);
    case TimerTick(timer) => FlushKeeps(s, merge);
    case CallbackReturns => if s.frames != [] { ReturnKeeps(s, merge); }
    case CallbackThrows => if s.frames != [] { ThrowKeeps(s, merge); }
    case CallResume => ResumeKeeps(s, merge);
    case CallPause => PauseKeeps(s, merge);
    case CallDestroy => DestroyKeeps(s, merge);
  }

  lemma {:induction false} RunKeeps(s: State, events: seq<Event>, merge: seq<Bytes> -> Bytes)
    requires Inv(s, merge)
    ensures Inv(Run(s, events, merge), merge)
    decreases events
  {
    if events != [] {
      StepKeeps(s, events[0], merge);
      RunKeeps(Step(s, events[0], merge), events[1..], merge);
    }
  }

  // ---------------------------------------------------------------- main results

  /** Under every interleaving of public calls with callbacks that re-enter, return or throw:
      the queue is a gap-free run ending at the last number issued, and every transmission was the
      merge of exactly the queue of that instant under its highest number. */
  lemma EveryTransmissionIsExact(events: seq<Event>, merge: seq<Bytes> -> Bytes)
    ensures var s := Run(Init(), events, merge);
      && s.nextSeq > 0 && Numbered(s.pending, s.nextSeq - 1)
      && forall k :: 0 <= k < |s.sent| ==> Exact(s.sent[k], merge)
  {
    RunKeeps(Init(), events, merge);
  }

  /** Between calls at most one interval runs, and one runs exactly while the transport is up with
      work queued, unless the latest attempt to start it threw. */
  lemma OneIntervalBetweenCalls(events: seq<Event>, merge: seq<Bytes> -> Bytes)
    requires Run(Init(), events, merge).frames == []
    ensures var s := Run(Init(), events, merge);
      && |s.live| <= 1
      && (s.live != {} <==> s.phase == Live && s.pending != [] && !s.missing)
  {
    RunKeeps(Init(), events, merge);
    var s := Run(Init(), events, merge);
    if s.timer.Some? {
      assert s.live == {s.timer.value};
    } else {
      assert s.live == {};
    }
  }

  /** An entry leaves the queue only through an acknowledgement that reaches it, or destroy(). */
  lemma OnlyAcksRemove(s: State, e: Event, merge: seq<Bytes> -> Bytes, x: Entry<Bytes>)
    requires Inv(s, merge) && x in s.pending && x !in Step(s, e, merge).pending
    ensures e == CallDestroy || (e.CallAcknowledge? && x.seqNo <= e.id <= s.nextSeq - 1)
  {
    if e.CallAcknowledge? && x.seqNo > e.id {
      UnackedKeeps(s.pending, e.id, x);
    }
  }

  lemma {:induction false} UnackedKeeps(queue: seq<Entry<Bytes>>, id: int, x: Entry<Bytes>)
    requires x in queue && x.seqNo > id
    ensures x in Unacked(queue, id)
  {
    if queue[0] != x {
      assert x in queue[1..];
      UnackedKeeps(queue[1..], id, x);
    }
  }

  // ---------------------------------------------------------------- transmissions do happen

  /** `s'` is `s` with one more transmission: the queue `queue`, under its highest number. */
  ghost predicate SentOne(s: State, s': State, queue: seq<Entry<Bytes>>) {
    && queue != [] && |s'.sent| == |s.sent| + 1 && s'.sent[..|s.sent|] == s.sent
    && s'.sent[|s.sent|].queue == queue && s'.sent[|s.sent|].id == queue[|queue| - 1].seqNo
  }

  /** The injected calls in progress return one after another, nothing else happening. */
  function Returning(s: State, k: nat, merge: seq<Bytes> -> Bytes): State
    decreases k
  {
    if k == 0 then s else Returning(Step(s, CallbackReturns, merge), k - 1, merge)
  }

  /** After some of the `k` returns at most, the queue has gone out once. */
  ghost predicate GoesOut(s: State, s1: State, k: nat, queue: seq<Entry<Bytes>>, merge: seq<Bytes> -> Bytes) {
    exists j: nat :: j <= k && SentOne(s, Returning(s1, j, merge), queue)
  }

  lemma FlushGoesOut(s: State, t: State, merge: seq<Bytes> -> Bytes)
    requires Wanted(t) && t.sent == s.sent
    ensures GoesOut(s, Flush(t), 1, t.pending, merge)
  {
    var s1 := Flush(t);
    if t.tail.Some? || |t.pending| == 1 {
      assert SentOne(s, Returning(s1, 0, merge), t.pending);
    } else {
      assert s1.frames[|s1.frames| - 1] == Merging(t.version, Updates(t.pending));
      var s2 := Return(s1, merge);
      assert SentOne(s, s2, t.pending);
      assert Returning(s1, 1, merge) == Returning(s2, 0, merge) == s2;
    }
  }

  /** First the timer, if it has to be started, then the queue. */
  lemma TimerGoesOut(s: State, t: State, merge: seq<Bytes> -> Bytes)
    requires Wanted(t) && t.sent == s.sent
    ensures GoesOut(s, UpdateTimer(t, true), 2, t.pending, merge)
  {
    if t.timer.Some? {
      FlushGoesOut(s, t.(missing := false), merge);
    } else {
      var s1 := UpdateTimer(t, true);
      assert s1.frames[|s1.frames| - 1] == Starting(t.nextTimer, true);
      var back := Pop(s1);
      assert Return(s1, merge) == Flush(back.(live := back.live + {t.nextTimer}));
      FlushGoesOut(s, back.(live := back.live + {t.nextTimer}), merge);
      var j: nat :| j <= 1 && SentOne(s, Returning(Return(s1, merge), j, merge), t.pending);
      assert Returning(s1, j + 1, merge) == Returning(Return(s1, merge), j, merge);
    }
  }

  /** On every reachable queue that is live with work, and with no injected call running: asking for a
      retransmission sends the whole queue once, and so does a tick of the interval. */
  lemma RetransmissionGoesOut(events: seq<Event>, merge: seq<Bytes> -> Bytes)
    requires var s := Run(Init(), events, merge); s.frames == [] && s.phase == Live && s.pending != []
    ensures var s := Run(Init(), events, merge); GoesOut(s, Step(s, CallRetransmit, merge), 1, s.pending, merge)
    ensures var s := Run(Init(), events, merge);
      s.timer.Some? ==> GoesOut(s, Step(s, TimerTick(s.timer.value), merge), 1, s.pending, merge)
    ensures var s := Run(Init(), events, merge); s.timer.Some? <==> !s.missing
  {
    var s := Run(Init(), events, merge);
    RunKeeps(Init(), events, merge);
    FlushGoesOut(s, s, merge);
  }

  /** An edit on a live queue sends the queue with the edit in it, once the injected calls return. */
  lemma EnqueueGoesOut(events: seq<Event>, update: Bytes, merge: seq<Bytes> -> Bytes)
    requires Run(Init(), events, merge).phase == Live
    ensures var s := Run(Init(), events, merge);
      GoesOut(s, Step(s, CallEnqueue(update), merge), 2, s.pending + [Entry(s.nextSeq, update)], merge)
  {
    var s := Run(Init(), events, merge);
    var q := s.(pending := s.pending + [Entry(s.nextSeq, update)], nextSeq := s.nextSeq + 1);
    TimerGoesOut(s, q.(version := q.version + 1, tail := None), merge);
  }

  /** Resuming with work queued sends the whole queue, once the injected calls return. */
  lemma ResumeGoesOut(events: seq<Event>, merge: seq<Bytes> -> Bytes)
    requires var s := Run(Init(), events, merge); s.phase != Destroyed && s.pending != []
    ensures var s := Run(Init(), events, merge); GoesOut(s, Step(s, CallResume, merge), 2, s.pending, merge)
  {
    ResumeSends(Run(Init(), events, merge), merge);
  }

  lemma ResumeSends(s: State, merge: seq<Bytes> -> Bytes)
    requires s.phase != Destroyed && s.pending != []
    ensures GoesOut(s, Step(s, CallResume, merge), 2, s.pending, merge)
  {
    TimerGoesOut(s, s.(phase := Live, version := s.version + 1), merge);
  }

  // ---------------------------------------------------------------- and do not

  lemma SilentStep(s: State, e: Event, merge: seq<Bytes> -> Bytes)
    requires Inv(s, merge) && s.phase != Live && !e.CallResume?
    ensures var s' := Step(s, e, merge);
      s'.phase != Live && s'.sent == s.sent && (s.phase == Destroyed ==> s'.phase == Destroyed && s'.pending == [])
  {
    if e.CallbackReturns? && s.frames != [] {
      var top := s.frames[|s.frames| - 1];
      assert top.Merging? ==> top.version != s.version;
    }
  }

  lemma {:induction false} SilentRun(s: State, events: seq<Event>, merge: seq<Bytes> -> Bytes)
    requires Inv(s, merge) && s.phase != Live && (s.phase == Destroyed || forall e :: e in events ==> !e.CallResume?)
    ensures var s' := Run(s, events, merge);
      s'.phase != Live && s'.sent == s.sent && (s.phase == Destroyed ==> s'.phase == Destroyed && s'.pending == [])
    decreases events
  {
    if events != [] {
      var s1 := Step(s, events[0], merge);
      StepKeeps(s, events[0], merge);
      if !events[0].CallResume? { SilentStep(s, events[0], merge); }
      SilentRun(s1, events[1..], merge);
    }
  }

  /** From a pause on nothing is sent until resume, not even the result of a merge then in progress. */
  lemma PauseSilences(before: seq<Event>, events: seq<Event>, merge: seq<Bytes> -> Bytes)
    requires forall e :: e in events ==> !e.CallResume?
    ensures var s := Run(Init(), before, merge); Run(Step(s, CallPause, merge), events, merge).sent == s.sent
  {
    RunKeeps(Init(), before, merge);
    var s := Run(Init(), before, merge);
    StepKeeps(s, CallPause, merge);
    assert Step(s, CallPause, merge).sent == s.sent && Step(s, CallPause, merge).phase != Live;
    SilentRun(Step(s, CallPause, merge), events, merge);
  }

  /** After destroy the queue is empty for good and nothing is sent any more. */
  lemma DestroySilences(before: seq<Event>, events: seq<Event>, merge: seq<Bytes> -> Bytes)
    ensures var s := Run(Init(), before, merge); var s' := Run(Step(s, CallDestroy, merge), events, merge);
      s'.phase == Destroyed && s'.pending == [] && s'.sent == s.sent
  {
    RunKeeps(Init(), before, merge);
    var s := Run(Init(), before, merge);
    StepKeeps(s, CallDestroy, merge);
    assert Step(s, CallDestroy, merge).sent == s.sent && Step(s, CallDestroy, merge).phase == Destroyed;
    SilentRun(Step(s, CallDestroy, merge), events, merge);
  }
}

/** The object itself, each method tied to the machine above. */
module ReliableSync {
  import opened Queue
  import opened ReliableDelivery
  import opened Common

  /** The object whose private fields the methods update.  A method runs until its first injected
      call; `CallbackReturns` and `CallbackThrows` run what comes after one. */
  class ReliableSync {
    var pending: seq<Entry<Bytes>>
    var nextSeq: nat
    var phase: Phase
    var timer: Option<nat>
    var version: nat
    var tail: Option<Bytes>
    // the host's side: injected calls in progress, intervals running, transmissions made
    var frames: seq<Frame>
    var nextTimer: nat
    var live: set<nat>
    var missing: bool
    var sent: seq<Sent>
    const merge: seq<Bytes> -> Bytes

    ghost function Value(): State reads this {
      State(pending, nextSeq, phase, timer, version, tail, frames, nextTimer, live, missing, sent)
    }

    ghost predicate Valid() reads this { Inv(Value(), merge) }

    constructor (merge: seq<Bytes> -> Bytes)
      ensures Valid() && Value() == Init() && this.merge == merge
    {
      pending, nextSeq, phase, timer, version, tail := [], 1, Paused, None, 0, None;
      frames, nextTimer, live, missing, sent := [], 0, {}, false, [];
      this.merge := merge;
    }

    method Flush()
      modifies this
      ensures Value() == ReliableDelivery.Flush(old(Value()))
    {
      if phase != Live || pending == [] { return; }
      if tail.None? {
        if |pending| > 1 {
          frames := frames + [Merging(version, Updates(pending))];
          return;
        }
        tail := Some(pending[0].update);
      }
      SendTail();
    }

    method SendTail()
      requires tail.Some? && pending != []
      modifies this
      ensures Value() == Transmit(old(Value()))
    {
      sent := sent + [Sent(tail.value, pending[|pending| - 1].seqNo, pending)];
      frames := frames + [Sending];
    }

    method UpdateTimer(thenFlush: bool)
      modifies this
      ensures Value() == ReliableDelivery.UpdateTimer(old(Value()), thenFlush)
    {
      missing := false;
      var wanted := phase == Live && pending != [];
      if wanted && timer.None? {
        timer := Some(nextTimer);
        frames := frames + [Starting(nextTimer, thenFlush)];
        nextTimer := nextTimer + 1;
        return;
      }
      if !wanted && timer.Some? {
        var stopped := timer.value;
        timer := None;
        if stopped in live {
          live := live - {stopped};
          frames := frames + [Stopping(thenFlush)];
          return;
        }
        assert live - {stopped} == live;
      }
      if thenFlush { Flush(); }
    }

    method QueueChanged(thenFlush: bool)
      modifies this
      ensures Value() == ReliableDelivery.QueueChanged(old(Value()), thenFlush)
    {
      version := version + 1;
      tail := None;
      UpdateTimer(thenFlush);
    }

    method Enqueue(update: Bytes)
      requires Valid()
      modifies this
      ensures Valid() && Value() == ReliableDelivery.Enqueue(old(Value()), update)
    {
      EnqueueKeeps(Value(), update, merge);
      if phase == Destroyed { return; }
      pending := pending + [Entry(nextSeq, update)];
      nextSeq := nextSeq + 1;
      QueueChanged(true);
    }

    method Acknowledge(id: int)
      requires Valid()
      modifies this
      ensures Valid() && Value() == ReliableDelivery.Acknowledge(old(Value()), id)
    {
      AcknowledgeKeeps(Value(), id, merge);
      if phase == Destroyed || id < 0 { return; }
      if pending != [] && id > pending[|pending| - 1].seqNo { return; }
      pending := Unacked(pending, id);
      QueueChanged(false);
    }

    method Resume()
      requires Valid()
      modifies this
      ensures Valid() && Value() == ReliableDelivery.Resume(old(Value()))
    {
      ResumeKeeps(Value(), merge);
      if phase == Destroyed { return; }
      phase := Live;
      version := version + 1;
      UpdateTimer(true);
    }

    method Pause()
      requires Valid()
      modifies this
      ensures Valid() && Value() == ReliableDelivery.Pause(old(Value()))
    {
      PauseKeeps(Value(), merge);
      if phase == Destroyed { return; }
      phase := Paused;
      version := version + 1;
      UpdateTimer(false);
    }

    method Destroy()
      requires Valid()
      modifies this
      ensures Valid() && Value() == ReliableDelivery.Destroy(old(Value()))
    {
      DestroyKeeps(Value(), merge);
      if phase == Destroyed { return; }
      phase := Destroyed;
      pending := [];
      QueueChanged(false);
    }

    method CallbackReturns()
      requires Valid()
      modifies this
      ensures Valid() && Value() == Return(old(Value()), merge)
    {
      if frames == [] { return; }
      ReturnKeeps(Value(), merge);
      var top := frames[|frames| - 1];
      frames := frames[..|frames| - 1];
      match top
      case Merging(started, updates) =>
        var merged := merge(updates);
        if version != started || pending == [] { return; }
        tail := Some(merged);
        SendTail();
      case Sending =>
      case Starting(started, thenFlush) =>
        if timer != Some(started) {
          frames := frames + [Stopping(thenFlush)];
          return;
        }
        live := live + {started};
        if thenFlush { Flush(); }
      case Stopping(thenFlush) =>
        if thenFlush { Flush(); }
    }

    method CallbackThrows()
      requires Valid()
      modifies this
      ensures Valid() && Value() == Throw(old(Value()))
    {
      if frames == [] { return; }
      ThrowKeeps(Value(), merge);
      var top := frames[|frames| - 1];
      frames := frames[..|frames| - 1];
      if top.Starting? && timer == Some(top.timer) {
        timer := None;
        missing := true;
      }
    }
  }
}
