/** The client's sync session: cycles of handshake and catch-up, with callbacks free to call back in
    while a frame is sent or applied. */
module SyncCycles {

  datatype Phase = Unsynced | Synced | Destroyed
  datatype Delivery = Paused | Live | Gone

  /** A received frame: two kinds carry a document update, the rest ask for one or carry presence. */
  datatype Kind = Step2 | Update | Plain

  /** A call waiting for a callback, with the cycle it began under. */
  datatype Call =
    | Opening(cycle: nat)                    // sending the handshake
    | Announcing(cycle: nat)                 // sending presence
    | Receiving(cycle: nat, kind: Kind)      // applying a frame
    | Reporting(cycle: nat, kind: Kind)      // telling the host its update could not be applied

  /** `byResume` says for each cycle whether resume started it, `threw` which openings an exception cut
      short, and `caughtUp` the cycle the frame that made the session synced began under. */
  datatype Session = Session(
    phase: Phase, cycle: nat, delivery: Delivery, stack: seq<Call>,
    byResume: seq<bool>, threw: set<nat>, caughtUp: nat)

  const INIT := Session(Unsynced, 0, Paused, [], [false], {}, 0)

  predicate Current(s: Session, cycle: nat) { s.phase != Destroyed && s.cycle == cycle }

  function NewCycle(s: Session, resumed: bool): Session {
    s.(phase := Unsynced, cycle := s.cycle + 1, byResume := s.byResume + [resumed])
  }

  function Push(s: Session, call: Call): Session { s.(stack := s.stack + [call]) }

  function StartResume(s: Session): Session {
    if s.phase == Destroyed then s
    else
      var s1 := NewCycle(s, true);
      Push(s1, Opening(s1.cycle))
  }

  function Pause(s: Session): Session {
    if s.phase == Destroyed then s else NewCycle(s, false).(delivery := Paused)
  }

  function Destroy(s: Session): Session { s.(phase := Destroyed, delivery := Gone) }

  function StartReceive(s: Session, kind: Kind): Session {
    if s.phase == Destroyed then s else Push(s, Receiving(s.cycle, kind))
  }

  function Top(s: Session): Call
    requires s.stack != []
  {
    s.stack[|s.stack| - 1]
  }

  function Under(s: Session): Session
    requires s.stack != []
  {
    s.(stack := s.stack[..|s.stack| - 1])
  }

  /** The frame has been gone through, whether or not its update could be applied. */
  function Received(s: Session, cycle: nat, kind: Kind): Session {
    if kind == Step2 && Current(s, cycle) then s.(phase := Synced, caughtUp := cycle) else s
  }

  function ResumeDelivery(s: Session, cycle: nat): Session {
    if Current(s, cycle) then s.(delivery := Live) else s
  }

  /** The innermost callback returned; `presence` is whether there is local presence to announce. */
  function Return(s: Session, presence: bool): Session
    requires s.stack != []
  {
    match Top(s)
    case Opening(cycle) =>
      if presence && Current(s, cycle) then Push(Under(s), Announcing(cycle)) else ResumeDelivery(Under(s), cycle)
    case Announcing(cycle) => ResumeDelivery(Under(s), cycle)
    case Receiving(cycle, kind) => Received(Under(s), cycle, kind)
    case Reporting(cycle, kind) => Received(Under(s), cycle, kind)
  }

  /** An update that fails to apply is caught on the way and reported, if its cycle is current; the
      receive then goes on. */
  predicate CanFail(s: Session) { s.stack != [] && Top(s).Receiving? && Top(s).kind != Plain }

  function Fail(s: Session): Session
    requires CanFail(s)
  {
    if Current(s, Top(s).cycle) then Push(Under(s), Reporting(Top(s).cycle, Top(s).kind))
    else Received(Under(s), Top(s).cycle, Top(s).kind)
  }

  /** Any other throw ends its call: a resume goes no further, a receive drops the frame. */
  predicate CanThrow(s: Session) { s.stack != [] && !CanFail(s) }

  function Throw(s: Session): Session
    requires CanThrow(s)
  {
    if Top(s).Opening? || Top(s).Announcing? then Under(s).(threw := s.threw + {Top(s).cycle}) else Under(s)
  }

  datatype Event = EResume | EPause | EDestroy | EReceive(kind: Kind) | EReturn(presence: bool) | EFail | EThrow

  predicate Enabled(s: Session, e: Event) {
    match e
    case EReturn(_) => s.stack != []
    case EFail => CanFail(s)
    case EThrow => CanThrow(s)
    case _ => true
  }

  /** Callbacks may call anything, so any call may come at any time. */
  function Step(s: Session, e: Event): Session
    requires Enabled(s, e)
  {
    match e
    case EResume => StartResume(s)
    case EPause => Pause(s)
    case EDestroy => Destroy(s)
    case EReceive(kind) => StartReceive(s, kind)
    case EReturn(presence) => Return(s, presence)
    case EFail => Fail(s)
    case EThrow => Throw(s)
  }

  // ---------------------------------------------------------------- the invariant

  /** Some resume is still on its way to switching delivery on for this cycle. */
  predicate OnItsWay(s: Session, cycle: nat) { Opening(cycle) in s.stack || Announcing(cycle) in s.stack }

  predicate CallFits(s: Session, c: Call) {
    c.cycle <= s.cycle && (c.Opening? || c.Announcing? ==> c.cycle < |s.byResume| && s.byResume[c.cycle])
  }

  ghost predicate Inv(s: Session) {
    && |s.byResume| == s.cycle + 1
    && (s.phase == Destroyed <==> s.delivery == Gone)
    && (s.delivery == Live ==> s.byResume[s.cycle])
    && (s.phase == Synced ==> s.caughtUp == s.cycle)
    && (s.phase != Destroyed && s.byResume[s.cycle] ==> s.delivery == Live || OnItsWay(s, s.cycle) || s.cycle in s.threw)
    && (forall c :: c in s.stack ==> CallFits(s, c))
    && (forall c :: c in s.threw ==> c <= s.cycle)
  }

  lemma NewCycleKeeps(s: Session, resumed: bool)
    requires Inv(s) && s.phase != Destroyed
    ensures var s1 := NewCycle(s, resumed); s1.byResume[s1.cycle] == resumed && forall c :: c in s1.stack ==> CallFits(s1, c)
  {
    var s1 := NewCycle(s, resumed);
    forall c | c in s1.stack ensures CallFits(s1, c) { assert CallFits(s, c); }
  }

  lemma PopKeeps(s: Session)
    requires Inv(s) && s.stack != []
    ensures var top, under := s.stack[|s.stack| - 1], s.stack[..|s.stack| - 1];
      && s.stack == under + [top] && CallFits(s, top)
      && (OnItsWay(s, s.cycle) ==> OnItsWay(s.(stack := under), s.cycle) || ((top.Opening? || top.Announcing?) && top.cycle == s.cycle))
      && forall c :: c in under ==> CallFits(s, c)
  {
    var top, under := s.stack[|s.stack| - 1], s.stack[..|s.stack| - 1];
    assert s.stack == under + [top];
    assert top in s.stack;
  }

  lemma ReturnKeeps(s: Session, presence: bool)
    requires Inv(s) && s.stack != []
    ensures Inv(Return(s, presence))
  {
    PopKeeps(s);
    var s', top := Return(s, presence), s.stack[|s.stack| - 1];
    assert s'.stack == s.stack[..|s.stack| - 1] || s'.stack == s.stack[..|s.stack| - 1] + [Announcing(top.cycle)];
    forall c | c in s'.stack ensures CallFits(s', c) { assert CallFits(s, c) || c == Announcing(top.cycle); }
    if top.Opening? && presence && Current(s, top.cycle) { assert Announcing(top.cycle) in s'.stack; }
  }

  lemma FailKeeps(s: Session)
    requires Inv(s) && CanFail(s)
    ensures Inv(Fail(s))
  {
    PopKeeps(s);
    var s', top := Fail(s), Top(s);
    assert s'.stack == s.stack[..|s.stack| - 1] || s'.stack == s.stack[..|s.stack| - 1] + [Reporting(top.cycle, top.kind)];
    forall c | c in s'.stack ensures CallFits(s', c) { assert CallFits(s, c) || c == Reporting(top.cycle, top.kind); }
    forall c | c in s.stack[..|s.stack| - 1] ensures c in s'.stack { }
  }

  lemma ThrowKeeps(s: Session)
    requires Inv(s) && CanThrow(s)
    ensures Inv(Throw(s))
  {
    PopKeeps(s);
    var s' := Throw(s);
    forall c | c in s'.stack ensures CallFits(s', c) { assert CallFits(s, c); }
  }

  lemma StepKeeps(s: Session, e: Event)
    requires Inv(s) && Enabled(s, e)
    ensures Inv(Step(s, e))
  {
    match e
    case EResume =>
      if s.phase != Destroyed {
        NewCycleKeeps(s, true);
        assert Opening(s.cycle + 1) in StartResume(s).stack;
        forall c | c in StartResume(s).stack ensures CallFits(StartResume(s), c) {
          assert CallFits(NewCycle(s, true), c);
        }
      }
    case EPause => if s.phase != Destroyed { NewCycleKeeps(s, false); }
    case EDestroy => forall c | c in s.stack ensures CallFits(Destroy(s), c) { assert CallFits(s, c); }
    case EReceive(kind) =>
      forall c | c in StartReceive(s, kind).stack ensures CallFits(StartReceive(s, kind), c) {
        assert c in s.stack ==> CallFits(s, c);
      }
    case EReturn(presence) => ReturnKeeps(s, presence);
    case EFail => FailKeeps(s);
    case EThrow => ThrowKeeps(s);
  }

  ghost predicate Reaches(s: Session, events: seq<Event>, s': Session)
    decreases events
  {
    if events == [] then s' == s
    else
      && Enabled(s, events[0])
      && Reaches(Step(s, events[0]), events[1..], s')
  }

  lemma {:induction false} RunKeeps(s: Session, events: seq<Event>, s': Session)
    requires Inv(s) && Reaches(s, events, s')
    ensures Inv(s')
    decreases events
  {
    if events != [] {
      StepKeeps(s, events[0]);
      RunKeeps(Step(s, events[0]), events[1..], s');
    }
  }

  /** In every run, however callbacks nest: a synced session became so on a frame whose receive began
      in the current cycle; delivery is on only in a cycle that resume began; and once every call has
      returned, it is on if resume began the cycle and nothing threw. */
  lemma CyclesAreRespected(events: seq<Event>, s: Session)
    requires Reaches(INIT, events, s)
    ensures s.phase == Synced ==> s.caughtUp == s.cycle
    ensures |s.byResume| == s.cycle + 1 && (s.delivery == Live ==> s.phase != Destroyed && s.byResume[s.cycle])
    ensures s.stack == [] && s.phase != Destroyed && s.byResume[s.cycle] && s.cycle !in s.threw ==> s.delivery == Live
  {
    RunKeeps(INIT, events, s);
  }

  /** Undisturbed, in every state but destroyed: a SyncStep2 received makes the session synced, any other
      frame leaves that as it was, resume opens a new cycle and switches delivery on, with or without
      presence to announce, and pause starts one with it off. */
  lemma CallsComplete(s: Session, presence: bool)
    requires s.phase != Destroyed
    ensures Return(Step(s, EReceive(Step2)), presence).phase == Synced
    ensures forall kind :: kind != Step2 ==> Return(Step(s, EReceive(kind)), presence) == s
    ensures var s' := Return(Step(s, EResume), false);
      s'.phase == Unsynced && s'.cycle == s.cycle + 1 && s'.delivery == Live && s'.stack == s.stack
    ensures var s' := Return(Return(Step(s, EResume), true), presence);
      s'.phase == Unsynced && s'.cycle == s.cycle + 1 && s'.delivery == Live && s'.stack == s.stack
    ensures var s' := Step(s, EPause); s'.phase == Unsynced && s'.cycle == s.cycle + 1 && s'.delivery == Paused
  {
    forall kind ensures Under(Step(s, EReceive(kind))) == s { }
    var opening := Step(s, EResume);
    assert Under(opening).stack == s.stack;
    var announcing := Return(opening, true);
    assert Top(announcing) == Announcing(s.cycle + 1) && Under(announcing).stack == s.stack;
  }

  /** Destroyed is for good, whatever calls are still returning. */
  lemma {:induction false} DestroyedIsFinal(s: Session, events: seq<Event>, s': Session)
    requires Reaches(s, events, s') && s.phase == Destroyed && s.delivery == Gone
    ensures s'.phase == Destroyed && s'.delivery == Gone && s'.cycle == s.cycle
    decreases events
  {
    if events != [] { DestroyedIsFinal(Step(s, events[0]), events[1..], s'); }
  }

  lemma SyncedOnlyByStep2(s: Session, e: Event)
    requires Enabled(s, e) && s.phase != Synced && Step(s, e).phase == Synced
    ensures e.EReturn? && Step(s, e).cycle == s.cycle
    ensures Top(s) == Receiving(s.cycle, Step2) || Top(s) == Reporting(s.cycle, Step2)
  {
  }

  /** Event `k` of the run ends a SyncStep2 receive that began under `cycle`, while that cycle is current. */
  ghost predicate CatchesUp(s: Session, events: seq<Event>, k: nat, at: Session, cycle: nat) {
    && k < |events| && Reaches(s, events[..k], at) && events[k].EReturn?
    && at.stack != [] && (Top(at) == Receiving(cycle, Step2) || Top(at) == Reporting(cycle, Step2)) && at.cycle == cycle
  }

  lemma CatchesUpLater(s: Session, events: seq<Event>, k: nat, at: Session, cycle: nat)
    requires events != [] && Enabled(s, events[0])
    requires CatchesUp(Step(s, events[0]), events[1..], k, at, cycle)
    ensures CatchesUp(s, events, k + 1, at, cycle)
  {
    assert events[..k + 1][1..] == events[1..][..k];
    assert events[..k + 1][0] == events[0];
  }

  lemma {:induction false} CaughtUpInRun(s: Session, events: seq<Event>, s': Session)
    requires Reaches(s, events, s') && s'.phase == Synced
    ensures (s.phase == Synced && s.cycle == s'.cycle) || exists k, at :: CatchesUp(s, events, k, at, s'.cycle)
    decreases events
  {
    if events != [] {
      var s1 := Step(s, events[0]);
      CaughtUpInRun(s1, events[1..], s');
      if s1.phase == Synced && s1.cycle == s'.cycle {
        if s.phase != Synced {
          SyncedOnlyByStep2(s, events[0]);
          assert events[..0] == [];
          assert CatchesUp(s, events, 0, s, s'.cycle);
        }
      } else {
        var k, at :| CatchesUp(s1, events[1..], k, at, s'.cycle);
        CatchesUpLater(s, events, k, at, s'.cycle);
      }
    }
  }

  /** Every run that ends synced holds a moment, in the cycle it ends in, when a SyncStep2 receive
      begun in that cycle finished. */
  lemma SyncedHasAStep2(events: seq<Event>, s: Session)
    requires Reaches(INIT, events, s) && s.phase == Synced
    ensures exists k, at :: CatchesUp(INIT, events, k, at, s.cycle)
  {
    CaughtUpInRun(INIT, events, s);
  }

  /** Synced says that the server's SyncStep2 was gone through, not that it was applied: one whose update
      fails turns the session synced as soon as the report returns. */
  lemma FailedStep2StillSyncs(s: Session, presence: bool)
    requires s.stack != [] && Top(s) == Receiving(s.cycle, Step2) && s.phase != Destroyed
    ensures Fail(s).stack != [] && Return(Fail(s), presence).phase == Synced
    ensures Return(Fail(s), presence) == Return(s, presence)
  {
    assert Under(Fail(s)) == Under(s);
  }

  /** The session object; each method is the part of a source method up to its next callback, and
      `calls` the calls now waiting for one. */
  class YProtocolSession {
    var phase: Phase
    var cycle: nat
    var delivery: Delivery
    var calls: seq<Call>
    ghost var around: Session

    ghost function Abs(): Session reads this {
      around.(phase := phase, cycle := cycle, delivery := delivery, stack := calls)
    }

    ghost predicate Valid() reads this { Inv(Abs()) }

    ghost predicate Waiting(call: Call) reads this { calls != [] && calls[|calls| - 1] == call }

    constructor ()
      ensures Valid() && Abs() == INIT
    {
      phase, cycle, delivery, calls, around := Unsynced, 0, Paused, [], INIT;
    }

    method BeginResume() returns (opening: bool)
      requires Valid()
      modifies this
      ensures Valid() && Abs() == StartResume(old(Abs()))
      ensures opening <==> old(phase) != Destroyed
      ensures opening ==> Waiting(Opening(cycle))
    {
      StepKeeps(Abs(), EResume);
      if phase == Destroyed { return false; }
      phase, cycle := Unsynced, cycle + 1;
      around := around.(byResume := around.byResume + [true]);
      calls := calls + [Opening(cycle)];
      return true;
    }

    /** After the handshake was sent: announce presence next, or switch delivery on. */
    method HandshakeSent(mine: nat, presence: bool) returns (announce: bool)
      requires Valid() && Waiting(Opening(mine))
      modifies this
      ensures Valid() && Abs() == Return(old(Abs()), presence)
      ensures announce <==> presence && Current(old(Abs()), mine)
      ensures announce ==> Waiting(Announcing(mine))
    {
      StepKeeps(Abs(), EReturn(presence));
      calls := calls[..|calls| - 1];
      if phase == Destroyed || cycle != mine { return false; }
      if presence {
        calls := calls + [Announcing(mine)];
        return true;
      }
      delivery := Live;
      return false;
    }

    method PresenceSent(mine: nat)
      requires Valid() && Waiting(Announcing(mine))
      modifies this
      ensures Valid() && forall presence :: Abs() == Return(old(Abs()), presence)
    {
      StepKeeps(Abs(), EReturn(true));
      calls := calls[..|calls| - 1];
      if phase != Destroyed && cycle == mine { delivery := Live; }
    }

    method PauseNow()
      requires Valid()
      modifies this
      ensures Valid() && Abs() == Pause(old(Abs()))
    {
      StepKeeps(Abs(), EPause);
      if phase == Destroyed { return; }
      phase, cycle := Unsynced, cycle + 1;
      around := around.(byResume := around.byResume + [false]);
      delivery := Paused;
    }

    /** A frame arrived; applying it may run listeners. */
    method BeginReceive(kind: Kind) returns (applying: bool)
      requires Valid()
      modifies this
      ensures Valid() && Abs() == StartReceive(old(Abs()), kind)
      ensures applying <==> old(phase) != Destroyed
      ensures applying ==> Waiting(Receiving(cycle, kind))
    {
      StepKeeps(Abs(), EReceive(kind));
      if phase == Destroyed { return false; }
      calls := calls + [Receiving(cycle, kind)];
      return true;
    }

    /** The frame of a receive that began under `mine` has been gone through, with or without something
        to answer; an answer goes out only in that cycle. */
    method Applied(mine: nat, kind: Kind, answer: bool) returns (reply: bool)
      requires Valid() && (Waiting(Receiving(mine, kind)) || Waiting(Reporting(mine, kind)))
      modifies this
      ensures Valid() && forall presence :: Abs() == Return(old(Abs()), presence)
      ensures reply <==> answer && Current(old(Abs()), mine)
    {
      StepKeeps(Abs(), EReturn(true));
      calls := calls[..|calls| - 1];
      MarkSynced(mine, kind);
      return answer && phase != Destroyed && cycle == mine;
    }

    method MarkSynced(mine: nat, kind: Kind)
      modifies this
      ensures Abs() == Received(old(Abs()), mine, kind)
    {
      if kind == Step2 && phase != Destroyed && cycle == mine {
        phase := Synced;
        around := around.(caughtUp := mine);
      }
    }

    /** The update of a frame could not be applied: report it in its own cycle, and go on. */
    method ApplyFailed(mine: nat, kind: Kind) returns (report: bool)
      requires Valid() && kind != Plain && Waiting(Receiving(mine, kind))
      modifies this
      ensures Valid() && Abs() == Fail(old(Abs()))
      ensures report <==> Current(old(Abs()), mine)
      ensures report ==> Waiting(Reporting(mine, kind))
    {
      StepKeeps(Abs(), EFail);
      calls := calls[..|calls| - 1];
      report := phase != Destroyed && cycle == mine;
      if report { calls := calls + [Reporting(mine, kind)]; } else { MarkSynced(mine, kind); }
    }

    /** Any other callback threw: a resume stops there; a receive drops its frame, and reports the
        error only in its own cycle. */
    method CallbackThrew() returns (report: bool)
      requires Valid() && CanThrow(Abs())
      modifies this
      ensures Valid() && Abs() == Throw(old(Abs()))
      ensures report <==> old(Top(Abs()).Receiving? || Top(Abs()).Reporting?) && Current(old(Abs()), old(Top(Abs()).cycle))
    {
      StepKeeps(Abs(), EThrow);
      var top := calls[|calls| - 1];
      calls := calls[..|calls| - 1];
      if top.Receiving? || top.Reporting? { return phase != Destroyed && cycle == top.cycle; }
      around := around.(threw := around.threw + {top.cycle});
      return false;
    }

    method DestroyNow()
      requires Valid()
      modifies this
      ensures Valid() && Abs() == Destroy(old(Abs()))
    {
      StepKeeps(Abs(), EDestroy);
      phase, delivery := Destroyed, Gone;
    }
  }
}
