/** A document session: its phases, the leases that hold it open, and the settle that acts on them,
    with editor cleanup free to call back in at any point. */
module SessionLifecycle {
  import opened Common

  datatype Phase = Open | Refreshing | Renewed | Blocked | Closed
  datatype PhaseEvent = Refresh | Renew | Accept | Block | Retry | Close

  /** The allowed transitions; any other is ignored. */
  function Next(phase: Phase, e: PhaseEvent): Option<Phase> {
    match (phase, e)
    case (Closed, _) => None
    case (_, Close) => Some(Closed)
    case (Blocked, Retry) => Some(Open)
    case (Blocked, _) => None
    case (_, Block) => Some(Blocked)
    case (Open, Refresh) => Some(Refreshing)
    case (Refreshing, Renew) => Some(Renewed)
    case (Renewed, Accept) => Some(Open)
    case _ => None
  }

  /** The state applications see is "open". */
  predicate Live(phase: Phase) { phase == Open || phase == Refreshing || phase == Renewed }

  /** A new lease connects right away. */
  predicate Connects(phase: Phase) { phase == Open || phase == Renewed }

  type Lease = nat

  datatype Why = ByApp | Retired(block: nat) | Closing

  /** Calls in progress: a lease whose cleanup is running, the two release loops, the end of a settle. */
  datatype Frame =
    | Releasing(lease: Lease, why: Why)
    | RetireLoop(rest: seq<Lease>, block: nat)
    | CloseLoop(rest: seq<Lease>)
    | SettleTail

  /** `version` counts transitions, so two equal versions are the same lifecycle object. */
  datatype Session = Session(
    phase: Phase,
    version: nat,
    leases: seq<Lease>,       // in the order they were taken
    retiring: seq<Lease>,
    dirty: bool,
    queued: bool,
    pending: bool,
    stack: seq<Frame>,
    since: seq<nat>,          // for each lease ever taken, the version it was taken at
    aborted: set<Lease>,
    fetching: set<nat>,       // refresh requests in flight, by the version they started at
    refreshes: nat, accepts: nat, retries: nat,
    refreshUrl: bool)

  function Changed(s: Session): Session { s.(dirty := true, queued := true) }

  function Needed(s: Session): bool { s.leases != [] || s.pending }

  /** A JavaScript Set without one of its elements, in the order they were added. */
  function Without(leases: seq<Lease>, l: Lease): (r: seq<Lease>)
    ensures forall m :: m in r <==> m in leases && m != l
  {
    if leases == [] then []
    else (if leases[0] == l then [] else [leases[0]]) + Without(leases[1..], l)
  }

  function Transition(s: Session, e: PhaseEvent): Session {
    var next := Next(s.phase, e);
    if next.None? then s
    else
      Changed(s.(
        phase := next.value, version := s.version + 1,
        retiring := if next.value == Blocked then s.leases else [],
        accepts := s.accepts + (if e == Accept then 1 else 0),
        retries := s.retries + (if e == Retry then 1 else 0)))
  }

  /** Connecting can fail, which blocks. */
  function Connect(s: Session, ok: bool): Session { if ok then s else Transition(s, Block) }

  function Attach(s: Session, connectOk: bool): Session {
    if s.phase == Closed then s
    else
      var s1 := Changed(s.(leases := s.leases + [|s.since|], since := s.since + [s.version]));
      if Connects(s.phase) then Connect(s1, connectOk) else s1
  }

  /** The signal aborts first, and its listeners run, before the session hears of the release. */
  function StartRelease(s: Session, l: Lease, why: Why): Session {
    if l in s.aborted then s else s.(aborted := s.aborted + {l}, stack := s.stack + [Releasing(l, why)])
  }

  function Released(s: Session, l: Lease): Session {
    if l in s.leases then Changed(s.(leases := Without(s.leases, l))) else s
  }

  function DoRetry(s: Session, connectOk: bool): Session {
    if Next(s.phase, Retry).None? then s else Connect(Transition(s, Retry), connectOk)
  }

  function DoClose(s: Session): Session {
    if Next(s.phase, Close).None? then s
    else
      var s1 := Transition(s, Close);
      s1.(stack := s1.stack + [CloseLoop(s1.leases)])
  }

  function Rejected(s: Session): Session {
    if s.refreshUrl && Next(s.phase, Refresh).Some? then
      var s1 := Transition(s, Refresh);
      s1.(fetching := s1.fetching + {s1.version}, refreshes := s1.refreshes + 1)
    else Transition(s, Block)
  }

  function Reply(s: Session, attempt: nat, ok: bool, connectOk: bool): Session {
    var s1 := s.(fetching := s.fetching - {attempt});
    if s1.version != attempt then s1
    else if ok then
      if Next(s1.phase, Renew).None? then s1 else Connect(Transition(s1, Renew), connectOk)
    else Transition(s1, Block)
  }

  function SetPending(s: Session, pending: bool): Session {
    var s1 := s.(pending := pending);
    if Live(s.phase) then Changed(s1) else s1
  }

  function Status(s: Session, accepted: bool): Session {
    if !Live(s.phase) then s else Changed(if accepted then Transition(s, Accept) else s)
  }

  /** A settle runs on an empty call stack: enforce, then tell observers. */
  function Settle(s: Session): Session {
    var s1 := s.(queued := false, stack := s.stack + [SettleTail]);
    if s1.phase == Closed then s1
    else if s1.phase == Blocked then s1.(retiring := [], stack := s1.stack + [RetireLoop(s1.retiring, s1.version)])
    else if !Needed(s1) then DoClose(s1)
    else s1
  }

  /** The innermost call goes on. */
  function Continue(s: Session): Session
    requires s.stack != []
  {
    var under := s.(stack := s.stack[..|s.stack| - 1]);
    match s.stack[|s.stack| - 1]
    case Releasing(l, _) => Released(under, l)
    case RetireLoop(rest, block) =>
      if rest == [] then under
      else StartRelease(under.(stack := under.stack + [RetireLoop(rest[1..], block)]), rest[0], Retired(block))
    case CloseLoop(rest) =>
      if rest == [] then under
      else StartRelease(under.(stack := under.stack + [CloseLoop(rest[1..])]), rest[0], Closing)
    case SettleTail => under.(dirty := false)
  }

  datatype Event =
    | EAttach(connectOk: bool) | ERelease(lease: Lease) | ERetry(connectOk: bool) | EDiscard
    | EPending(pending: bool) | EStatus(accepted: bool) | ERejected | EError
    | EReply(attempt: nat, ok: bool, connectOk: bool) | ESettle | EContinue

  predicate Enabled(s: Session, e: Event) {
    match e
    case ERelease(l) => l < |s.since|
    case EReply(attempt, _, _) => attempt in s.fetching
    case ESettle => s.queued && s.stack == []
    case EContinue => s.stack != []
    case _ => true
  }

  function Step(s: Session, e: Event): Session
    requires Enabled(s, e)
  {
    match e
    case EAttach(connectOk) => Attach(s, connectOk)
    case ERelease(l) => StartRelease(s, l, ByApp)
    case ERetry(connectOk) => DoRetry(s, connectOk)
    case EDiscard => DoClose(s)
    case EPending(pending) => SetPending(s, pending)
    case EStatus(accepted) => Status(s, accepted)
    case ERejected => Rejected(s)
    case EError => if s.phase != Closed then Changed(s) else s
    case EReply(attempt, ok, connectOk) => Reply(s, attempt, ok, connectOk)
    case ESettle => Settle(s)
    case EContinue => Continue(s)
  }

  function Made(refreshUrl: bool): Session {
    Session(Open, 0, [], [], false, false, false, [], [], {}, {}, 0, 0, 0, refreshUrl)
  }

  /** A session as the store hands it out: constructed, then its first lease attached. */
  function Init(refreshUrl: bool, connectOk: bool): Session { Attach(Made(refreshUrl), connectOk) }

  // ---------------------------------------------------------------- the invariant

  /** An open session nobody needs has a settle queued. */
  predicate UnneededIsQueued(s: Session) { Live(s.phase) && !Needed(s) ==> s.queued }

  /** Observers will hear of every change. */
  predicate DirtyIsHeard(s: Session) { s.dirty ==> s.queued || SettleTail in s.stack }

  /** The fetch that started at the current version has the session waiting for it. */
  predicate FetchesFit(s: Session) {
    && (forall a :: a in s.fetching ==> a <= s.version)
    && (s.version in s.fetching ==> s.phase == Refreshing)
  }

  /** One refresh for the first grant, and one more for each acceptance and each retry. */
  predicate RefreshBudget(s: Session) {
    s.refreshes <= s.accepts + s.retries + (if s.phase == Open then 0 else 1)
  }

  predicate Known(s: Session, l: Lease) { l < |s.since| }

  /** The lease was held when the transition to version `block` blocked the session. */
  predicate Older(s: Session, l: Lease, block: nat) { Known(s, l) && s.since[l] < block }

  ghost predicate LeasesFit(s: Session) {
    && (forall l :: l in s.leases ==> Known(s, l))
    && (forall l :: l in s.aborted ==> Known(s, l))
    && (forall i :: 0 <= i < |s.since| ==> s.since[i] <= s.version)
  }

  /** What the loops release was held at their block. */
  ghost predicate LoopsFit(s: Session) {
    && (s.retiring != [] ==> s.phase == Blocked && s.queued)
    && (forall l :: l in s.retiring ==> Older(s, l, s.version))
    && (forall f :: f in s.stack ==> FrameFits(s, f))
  }

  ghost predicate FrameFits(s: Session, f: Frame) {
    match f
    case Releasing(l, why) => Known(s, l) && (why.Retired? ==> Older(s, l, why.block) && why.block <= s.version) && (why.Closing? ==> s.phase == Closed)
    case RetireLoop(rest, block) => block <= s.version && forall l :: l in rest ==> Older(s, l, block)
    case CloseLoop(rest) => s.phase == Closed && forall l :: l in rest ==> Known(s, l)
    case SettleTail => true
  }

  /** A release of this lease is under way, or a loop will come to it. */
  predicate Leaves(f: Frame, l: Lease) {
    match f
    case Releasing(lease, _) => lease == l
    case RetireLoop(rest, _) => l in rest
    case CloseLoop(rest) => l in rest
    case SettleTail => false
  }

  ghost predicate Leaving(s: Session, l: Lease) { exists f :: f in s.stack && Leaves(f, l) }

  ghost predicate BeingReleased(s: Session, l: Lease) { exists f :: f in s.stack && f.Releasing? && f.lease == l }

  /** A lease still held after its signal aborted is being released; so is, sooner or later, every
      lease older than the block, and every lease of a closed session. */
  ghost predicate LeavesFit(s: Session) {
    && (forall l :: l in s.leases && l in s.aborted ==> BeingReleased(s, l))
    && (s.phase == Blocked ==> forall l :: l in s.leases && Older(s, l, s.version) ==> l in s.retiring || Leaving(s, l))
    && (s.phase == Closed ==> forall l :: l in s.leases ==> Leaving(s, l))
  }

  ghost predicate CountsFit(s: Session) {
    UnneededIsQueued(s) && DirtyIsHeard(s) && FetchesFit(s) && RefreshBudget(s)
  }

  ghost predicate Inv(s: Session) { CountsFit(s) && LeasesFit(s) && LoopsFit(s) && LeavesFit(s) }

  // ---------------------------------------------------------------- every step keeps it

  predicate Fewer(a: seq<Lease>, b: seq<Lease>) { forall l :: l in a ==> l in b }

  lemma ChangedKeeps(s: Session)
    requires Inv(s)
    ensures Inv(Changed(s))
  {
    SameLeaves(s, Changed(s));
  }

  /** Leaving looks only at the leases, the signals, the stack, the phase and what is retiring. */
  lemma SameLeaves(s: Session, s': Session)
    requires LeavesFit(s)
    requires Fewer(s'.leases, s.leases) && s'.aborted == s.aborted && s'.stack == s.stack && s'.phase == s.phase
    requires s'.retiring == s.retiring && s'.since == s.since && s'.version == s.version
    ensures LeavesFit(s')
  {
    forall l | l in s'.leases && l in s'.aborted ensures BeingReleased(s', l) { assert BeingReleased(s, l); }
    forall l | l in s'.leases && Leaving(s, l) ensures Leaving(s', l) { }
  }

  lemma TransitionCounts(s: Session, e: PhaseEvent)
    requires CountsFit(s)
    ensures CountsFit(Transition(s, e))
  {
  }

  lemma TransitionLoops(s: Session, e: PhaseEvent)
    requires LeasesFit(s) && LoopsFit(s)
    ensures LeasesFit(Transition(s, e)) && LoopsFit(Transition(s, e))
  {
    var s' := Transition(s, e);
    forall f | f in s'.stack ensures FrameFits(s', f) { assert FrameFits(s, f); }
  }

  lemma TransitionLeaves(s: Session, e: PhaseEvent)
    requires LeavesFit(s) && e != Close
    ensures LeavesFit(Transition(s, e))
  {
    var s' := Transition(s, e);
    forall l | l in s'.leases && l in s'.aborted ensures BeingReleased(s', l) { assert BeingReleased(s, l); }
    if s' == s { SameLeaves(s, s'); }
  }

  lemma TransitionKeeps(s: Session, e: PhaseEvent)
    requires Inv(s) && e != Close
    ensures Inv(Transition(s, e))
  {
    TransitionCounts(s, e);
    TransitionLoops(s, e);
    TransitionLeaves(s, e);
  }

  lemma ConnectKeeps(s: Session, ok: bool)
    requires Inv(s)
    ensures Inv(Connect(s, ok))
  {
    if !ok { TransitionKeeps(s, Block); }
  }

  function WithLease(s: Session): Session {
    Changed(s.(leases := s.leases + [|s.since|], since := s.since + [s.version]))
  }

  lemma WithLeaseLoops(s: Session)
    requires LeasesFit(s) && LoopsFit(s)
    ensures LeasesFit(WithLease(s)) && LoopsFit(WithLease(s))
  {
    var s' := WithLease(s);
    forall l, block | Older(s, l, block) ensures Older(s', l, block) { }
    forall f | f in s'.stack ensures FrameFits(s', f) { assert FrameFits(s, f); }
  }

  lemma WithLeaseLeaves(s: Session)
    requires LeavesFit(s) && LeasesFit(s) && s.phase != Closed
    ensures LeavesFit(WithLease(s))
  {
    var s' := WithLease(s);
    forall l | l in s'.leases && l in s'.aborted ensures BeingReleased(s', l) {
      assert Known(s, l);
      assert BeingReleased(s, l);
    }
    forall l | s'.phase == Blocked && l in s'.leases && Older(s', l, s'.version) ensures l in s'.retiring || Leaving(s', l) {
      assert l in s.leases && Older(s, l, s.version);
      assert l !in s.retiring ==> Leaving(s, l);
    }
  }

  lemma AttachKeeps(s: Session, connectOk: bool)
    requires Inv(s)
    ensures Inv(Attach(s, connectOk))
  {
    if s.phase != Closed {
      WithLeaseLoops(s);
      WithLeaseLeaves(s);
      if Connects(s.phase) { ConnectKeeps(WithLease(s), connectOk); }
    }
  }

  lemma StackKept(s: Session, s': Session, frames: seq<Frame>)
    requires s' == s.(stack := s.stack + frames, aborted := s'.aborted) && s.aborted <= s'.aborted
    requires LoopsFit(s) && LeasesFit(s'.(stack := [])) && forall f :: f in frames ==> FrameFits(s', f)
    requires LeavesFit(s) && forall l :: l in s'.aborted && l !in s.aborted ==> BeingReleased(s', l)
    ensures LoopsFit(s') && LeasesFit(s') && LeavesFit(s')
  {
    forall f | f in s'.stack ensures FrameFits(s', f) { if f in s.stack { assert FrameFits(s, f); } }
    forall l | l in s'.leases && l in s'.aborted ensures BeingReleased(s', l) {
      if l in s.aborted { assert BeingReleased(s, l); }
    }
    forall l | Leaving(s, l) ensures Leaving(s', l) { }
  }

  lemma StartReleaseKeeps(s: Session, l: Lease, why: Why)
    requires Inv(s) && FrameFits(s, Releasing(l, why))
    ensures Inv(StartRelease(s, l, why))
  {
    var s' := StartRelease(s, l, why);
    if l !in s.aborted {
      assert Releasing(l, why) in s'.stack;
      assert BeingReleased(s', l);
      StackKept(s, s', [Releasing(l, why)]);
    }
  }

  lemma CloseKeeps(s: Session)
    requires Inv(s)
    ensures Inv(DoClose(s))
  {
    if Next(s.phase, Close).Some? {
      var s1, s' := Transition(s, Close), DoClose(s);
      TransitionCounts(s, Close);
      TransitionLoops(s, Close);
      var loop := CloseLoop(s1.leases);
      assert loop in s'.stack;
      forall f | f in s'.stack ensures FrameFits(s', f) { if f in s1.stack { assert FrameFits(s1, f); } }
      forall l | l in s'.leases && l in s'.aborted ensures BeingReleased(s', l) { assert BeingReleased(s, l); }
      forall l | l in s'.leases ensures Leaving(s', l) { assert Leaves(loop, l); }
    }
  }

  lemma RetryKeeps(s: Session, connectOk: bool)
    requires Inv(s)
    ensures Inv(DoRetry(s, connectOk))
  {
    if Next(s.phase, Retry).Some? {
      TransitionKeeps(s, Retry);
      ConnectKeeps(Transition(s, Retry), connectOk);
    }
  }

  lemma RejectedKeeps(s: Session)
    requires Inv(s)
    ensures Inv(Rejected(s))
  {
    if s.refreshUrl && Next(s.phase, Refresh).Some? {
      TransitionKeeps(s, Refresh);
      var s1, s' := Transition(s, Refresh), Rejected(s);
      forall f | f in s'.stack ensures FrameFits(s', f) { assert FrameFits(s1, f); }
      SameLeaves(s1, s');
    } else {
      TransitionKeeps(s, Block);
    }
  }

  lemma ForgetFetch(s: Session, attempt: nat)
    requires Inv(s)
    ensures Inv(s.(fetching := s.fetching - {attempt}))
  {
    var s' := s.(fetching := s.fetching - {attempt});
    forall f | f in s'.stack ensures FrameFits(s', f) { assert FrameFits(s, f); }
    SameLeaves(s, s');
  }

  lemma ReplyKeeps(s: Session, attempt: nat, ok: bool, connectOk: bool)
    requires Inv(s)
    ensures Inv(Reply(s, attempt, ok, connectOk))
  {
    var s1 := s.(fetching := s.fetching - {attempt});
    ForgetFetch(s, attempt);
    if s1.version == attempt {
      TransitionKeeps(s1, Block);
      TransitionKeeps(s1, Renew);
      ConnectKeeps(Transition(s1, Renew), connectOk);
    }
  }

  lemma PendingKeeps(s: Session, pending: bool)
    requires Inv(s)
    ensures Inv(SetPending(s, pending))
  {
    var s' := SetPending(s, pending);
    forall f | f in s'.stack ensures FrameFits(s', f) { assert FrameFits(s, f); }
    SameLeaves(s, s');
  }

  lemma StatusKeeps(s: Session, accepted: bool)
    requires Inv(s)
    ensures Inv(Status(s, accepted))
  {
    TransitionKeeps(s, Accept);
    ChangedKeeps(s);
    ChangedKeeps(Transition(s, Accept));
  }

  /** A settle up to its end, with nothing enforced yet. */
  function Settling(s: Session): Session { s.(queued := false, stack := s.stack + [SettleTail]) }

  lemma SettlingBlocked(s: Session)
    requires Inv(s) && s.stack == [] && s.phase == Blocked
    ensures Inv(Settle(s))
  {
    var loop, s' := RetireLoop(s.retiring, s.version), Settle(s);
    assert s'.stack == [SettleTail, loop];
    assert SettleTail in s'.stack && loop in s'.stack;
    forall l | l in s'.leases ensures l !in s'.aborted {
      assert l in s.aborted ==> BeingReleased(s, l);
    }
    forall l | l in s'.leases && Older(s', l, s'.version) ensures Leaving(s', l) {
      assert Older(s, l, s.version);
      assert !Leaving(s, l);
      assert Leaves(loop, l);
    }
  }

  /** Queued or not, a settle has begun; only the open and unneeded session still has to act. */
  lemma SettlingKeeps(s: Session)
    requires Inv(s) && s.stack == [] && s.queued && s.phase != Blocked
    ensures Inv(Settling(s).(queued := true))
    ensures s.phase == Closed || Needed(s) ==> Inv(Settling(s))
  {
    var s1 := Settling(s);
    assert s1.stack == [SettleTail] && SettleTail in s1.stack;
    forall l | l in s1.leases ensures l !in s1.aborted && s1.phase != Closed {
      assert l in s.aborted ==> BeingReleased(s, l);
      assert s.phase == Closed ==> Leaving(s, l);
    }
  }

  lemma SettleKeeps(s: Session)
    requires Inv(s) && s.stack == [] && s.queued
    ensures Inv(Settle(s))
  {
    if s.phase == Blocked {
      SettlingBlocked(s);
    } else {
      SettlingKeeps(s);
      var s1 := Settling(s);
      if s1.phase != Closed && !Needed(s1) {
        CloseKeeps(s1.(queued := true));
        assert DoClose(s1.(queued := true)) == DoClose(s1);
      }
    }
  }

  /** The frames under the innermost call still fit once it is gone. */
  lemma PopFrames(s: Session, s': Session)
    requires LoopsFit(s) && s.stack != [] && s'.stack == s.stack[..|s.stack| - 1]
    requires s'.phase == s.phase && s'.version == s.version && s'.since == s.since
    requires s'.retiring == s.retiring && (s.queued ==> s'.queued)
    ensures LoopsFit(s')
  {
    forall f | f in s'.stack ensures FrameFits(s', f) { assert f in s.stack && FrameFits(s, f); }
  }

  /** Dropping the innermost frame leaves every other lease's release under way. */
  lemma PopLeaves(s: Session, s': Session, top: Frame)
    requires LeavesFit(s) && s.stack == s'.stack + [top] && Fewer(s'.leases, s.leases)
    requires forall m :: m in s'.leases ==> !Leaves(top, m)
    requires s'.aborted == s.aborted && s'.phase == s.phase && s'.retiring == s.retiring
    requires s'.since == s.since && s'.version == s.version
    ensures LeavesFit(s')
  {
    forall m | m in s'.leases && m in s'.aborted ensures BeingReleased(s', m) {
      assert BeingReleased(s, m);
      var f :| f in s.stack && f.Releasing? && f.lease == m;
      assert Leaves(f, m);
      assert f in s'.stack;
    }
    forall m | m in s'.leases && Leaving(s, m) ensures Leaving(s', m) {
      var f :| f in s.stack && Leaves(f, m);
      assert f in s'.stack;
    }
  }

  lemma ReleasedKeeps(s: Session, l: Lease, why: Why)
    requires Inv(s) && s.stack != [] && s.stack[|s.stack| - 1] == Releasing(l, why)
    ensures Inv(Continue(s))
  {
    var under, s' := s.(stack := s.stack[..|s.stack| - 1]), Continue(s);
    assert s.stack == under.stack + [Releasing(l, why)];
    PopLeaves(s, s', Releasing(l, why));
    assert SettleTail in s.stack ==> SettleTail in s'.stack;
    PopFrames(s, s');
  }

  lemma TailKeeps(s: Session)
    requires Inv(s) && s.stack != [] && s.stack[|s.stack| - 1] == SettleTail
    ensures Inv(Continue(s))
  {
    var under, s' := s.(stack := s.stack[..|s.stack| - 1]), Continue(s);
    assert s.stack == under.stack + [SettleTail];
    PopLeaves(s, s', SettleTail);
    PopFrames(s, s');
  }

  /** A release loop steps past `l`, whose release is under way now or was already. */
  lemma LoopLeaves(s: Session, s': Session, under: seq<Frame>, was: Frame, l: Lease)
    requires LeavesFit(s) && s.stack == under + [was] && s'.leases == s.leases && s.aborted <= s'.aborted <= s.aborted + {l}
    requires !was.Releasing? && (forall f :: f in under ==> f in s'.stack)
    requires forall m :: m != l && Leaves(was, m) ==> Leaving(s', m)
    requires l in s'.leases ==> BeingReleased(s', l)
    requires s'.phase == s.phase && s'.retiring == s.retiring && s'.since == s.since && s'.version == s.version
    ensures LeavesFit(s')
  {
    forall m | m in s'.leases && m in s'.aborted ensures BeingReleased(s', m) {
      if m != l {
        assert BeingReleased(s, m);
        var f :| f in s.stack && f.Releasing? && f.lease == m;
        assert f in s'.stack;
      }
    }
    forall m | m in s'.leases && Leaving(s, m) ensures Leaving(s', m) {
      var f :| f in s.stack && Leaves(f, m);
      if m == l {
        var g :| g in s'.stack && g.Releasing? && g.lease == l;
        assert Leaves(g, l);
      } else if f in under {
        assert f in s'.stack;
      }
    }
  }

  /** One more lease of a loop: `was` becomes `loop`, and the release of `l` starts. */
  lemma LoopKeeps(s: Session, under: seq<Frame>, was: Frame, loop: Frame, l: Lease, why: Why)
    requires Inv(s) && s.stack == under + [was] && was != SettleTail && !was.Releasing?
    requires FrameFits(s, loop) && FrameFits(s, Releasing(l, why))
    requires forall m :: m != l && Leaves(was, m) ==> Leaves(loop, m)
    ensures Inv(StartRelease(s.(stack := under + [loop]), l, why))
  {
    var s' := StartRelease(s.(stack := under + [loop]), l, why);
    assert loop in s'.stack && forall f :: f in under ==> f in s'.stack;
    SameCounts(s, s');
    LoopFrames(s, s', under, was, loop, Releasing(l, why));
    LoopReleases(s, s', under, was, l, why);
    LoopLeaves(s, s', under, was, l);
  }

  /** The counts look at none of the calls in progress but the settle's. */
  lemma SameCounts(s: Session, s': Session)
    requires CountsFit(s) && s' == s.(stack := s'.stack, aborted := s'.aborted)
    requires SettleTail in s.stack ==> SettleTail in s'.stack
    ensures CountsFit(s')
  {
  }

  lemma LoopReleases(s: Session, s': Session, under: seq<Frame>, was: Frame, l: Lease, why: Why)
    requires LeavesFit(s) && s.stack == under + [was] && !was.Releasing? && (forall f :: f in under ==> f in s'.stack)
    requires s'.leases == s.leases && (l !in s.aborted ==> Releasing(l, why) in s'.stack)
    ensures l in s'.leases ==> BeingReleased(s', l)
  {
    if l in s.leases && l in s.aborted {
      assert BeingReleased(s, l);
      var f :| f in s.stack && f.Releasing? && f.lease == l;
      assert f in s'.stack;
    }
  }

  lemma LoopFrames(s: Session, s': Session, under: seq<Frame>, was: Frame, loop: Frame, release: Frame)
    requires LoopsFit(s) && s.stack == under + [was] && FrameFits(s, loop) && FrameFits(s, release)
    requires s'.phase == s.phase && s'.version == s.version && s'.since == s.since
    requires s'.retiring == s.retiring && s'.queued == s.queued
    requires s'.stack == under + [loop] || s'.stack == under + [loop] + [release]
    ensures LoopsFit(s')
  {
    forall f | f in s'.stack ensures FrameFits(s', f) {
      assert f in s.stack || f == loop || f == release;
      assert FrameFits(s, f);
    }
  }

  lemma RetireKeeps(s: Session, under: seq<Frame>, rest: seq<Lease>, block: nat)
    requires Inv(s) && s.stack == under + [RetireLoop(rest, block)] && rest != []
    ensures Inv(StartRelease(s.(stack := under + [RetireLoop(rest[1..], block)]), rest[0], Retired(block)))
  {
    assert RetireLoop(rest, block) in s.stack && FrameFits(s, RetireLoop(rest, block));
    assert rest[0] in rest && forall m :: m in rest[1..] ==> m in rest;
    LoopKeeps(s, under, RetireLoop(rest, block), RetireLoop(rest[1..], block), rest[0], Retired(block));
  }

  lemma CloseLoopKeeps(s: Session, under: seq<Frame>, rest: seq<Lease>)
    requires Inv(s) && s.stack == under + [CloseLoop(rest)] && rest != []
    ensures Inv(StartRelease(s.(stack := under + [CloseLoop(rest[1..])]), rest[0], Closing))
  {
    assert CloseLoop(rest) in s.stack && FrameFits(s, CloseLoop(rest));
    assert rest[0] in rest && forall m :: m in rest[1..] ==> m in rest;
    LoopKeeps(s, under, CloseLoop(rest), CloseLoop(rest[1..]), rest[0], Closing);
  }

  lemma LoopEndKeeps(s: Session)
    requires Inv(s) && s.stack != []
    requires s.stack[|s.stack| - 1] == CloseLoop([]) || (s.stack[|s.stack| - 1].RetireLoop? && s.stack[|s.stack| - 1].rest == [])
    ensures Inv(s.(stack := s.stack[..|s.stack| - 1]))
  {
    var s' := s.(stack := s.stack[..|s.stack| - 1]);
    assert s.stack == s'.stack + [s.stack[|s.stack| - 1]];
    PopFrames(s, s');
    PopLeaves(s, s', s.stack[|s.stack| - 1]);
    assert SettleTail in s.stack ==> SettleTail in s'.stack;
  }

  lemma ContinueKeeps(s: Session)
    requires Inv(s) && s.stack != []
    ensures Inv(Continue(s))
  {
    var top := s.stack[|s.stack| - 1];
    assert s.stack == s.stack[..|s.stack| - 1] + [top];
    assert FrameFits(s, top);
    match top
    case Releasing(l, why) => ReleasedKeeps(s, l, why);
    case SettleTail => TailKeeps(s);
    case RetireLoop(rest, block) =>
      if rest == [] {
        LoopEndKeeps(s);
      } else {
        RetireKeeps(s, s.stack[..|s.stack| - 1], rest, block);
      }
    case CloseLoop(rest) =>
      if rest == [] {
        LoopEndKeeps(s);
      } else {
        CloseLoopKeeps(s, s.stack[..|s.stack| - 1], rest);
      }
  }

  lemma StepKeeps(s: Session, e: Event)
    requires Inv(s) && Enabled(s, e)
    ensures Inv(Step(s, e))
  {
    match e
    case EAttach(connectOk) => AttachKeeps(s, connectOk);
    case ERelease(l) => StartReleaseKeeps(s, l, ByApp);
    case ERetry(connectOk) => RetryKeeps(s, connectOk);
    case EDiscard => CloseKeeps(s);
    case EPending(pending) => PendingKeeps(s, pending);
    case EStatus(accepted) => StatusKeeps(s, accepted);
    case ERejected => RejectedKeeps(s);
    case EError => ChangedKeeps(s);
    case EReply(attempt, ok, connectOk) => ReplyKeeps(s, attempt, ok, connectOk);
    case ESettle => SettleKeeps(s);
    case EContinue => ContinueKeeps(s);
  }

  // ---------------------------------------------------------------- whole runs

  ghost predicate Reaches(s: Session, events: seq<Event>, s': Session)
    decreases events
  {
    if events == [] then s' == s
    else Enabled(s, events[0]) && Reaches(Step(s, events[0]), events[1..], s')
  }

  lemma {:induction false} RunKeeps(s: Session, events: seq<Event>, s': Session)
    requires Inv(s) && Reaches(s, events, s')
    ensures Inv(s')
    decreases events
  {
    if events != [] {
      StepKeeps(s, events[0]);
      RunKeeps(Step(s, events[0]), events[1..], s');
    }
  }

  ghost predicate Reachable(s: Session) {
    exists refreshUrl, connectOk, events :: Reaches(Init(refreshUrl, connectOk), events, s)
  }

  lemma InitKeeps(refreshUrl: bool, connectOk: bool)
    ensures Inv(Init(refreshUrl, connectOk))
    ensures Init(refreshUrl, connectOk) == Connect(WithLease(Made(refreshUrl)), connectOk)
  {
    var s := WithLease(Made(refreshUrl));
    assert Inv(s);
    ConnectKeeps(s, connectOk);
  }

  lemma ReachableKeeps(s: Session)
    requires Reachable(s)
    ensures Inv(s)
  {
    var refreshUrl, connectOk, events :| Reaches(Init(refreshUrl, connectOk), events, s);
    InitKeeps(refreshUrl, connectOk);
    RunKeeps(Init(refreshUrl, connectOk), events, s);
  }

  /** A step leaves the leases held, and a session that is not closed not closed. */
  ghost predicate StaysUp(s: Session, s': Session) { Fewer(s.leases, s'.leases) && (s.phase != Closed ==> s'.phase != Closed) }

  lemma TransitionStaysUp(s: Session, e: PhaseEvent)
    ensures Transition(s, e).leases == s.leases
    ensures e != Close ==> StaysUp(s, Transition(s, e))
  {
  }

  /** Only a discard, a settle or a release in progress can end anything. */
  lemma OtherStepsStayUp(s: Session, e: Event)
    requires Enabled(s, e) && !e.EDiscard? && !e.ESettle? && !e.EContinue?
    ensures StaysUp(s, Step(s, e))
  {
    match e
    case EAttach(connectOk) => TransitionStaysUp(WithLease(s), Block);
    case ERetry(connectOk) =>
      TransitionStaysUp(s, Retry);
      TransitionStaysUp(Transition(s, Retry), Block);
    case EStatus(_) => TransitionStaysUp(s, Accept);
    case ERejected =>
      TransitionStaysUp(s, Refresh);
      TransitionStaysUp(s, Block);
    case EReply(attempt, _, _) =>
      var s1 := s.(fetching := s.fetching - {attempt});
      TransitionStaysUp(s1, Renew);
      TransitionStaysUp(s1, Block);
      TransitionStaysUp(Transition(s1, Renew), Block);
    case _ =>
  }

  lemma ClosesItselfOnlyUnneeded(s: Session, e: Event)
    requires Enabled(s, e) && e != EDiscard && s.phase != Closed && Step(s, e).phase == Closed
    ensures e == ESettle && s.leases == [] && !s.pending
  {
    if !e.ESettle? && !e.EContinue? { OtherStepsStayUp(s, e); }
  }

  /** Event `k` of the run closes the session: a discard, or a settle with nobody needing it. */
  ghost predicate Closes(s: Session, events: seq<Event>, k: nat, at: Session) {
    && k < |events| && Reaches(s, events[..k], at) && at.phase != Closed
    && (events[k] == EDiscard || (events[k] == ESettle && at.leases == [] && !at.pending))
  }

  /** In every run that ends closed, the application discarded the session, or a settle found it open
      with no lease and nothing unacked. */
  lemma {:induction false} WhyASessionClosed(s: Session, events: seq<Event>, s': Session)
    requires Reaches(s, events, s') && s.phase != Closed && s'.phase == Closed
    ensures exists k, at :: Closes(s, events, k, at)
    decreases events
  {
    var s1 := Step(s, events[0]);
    if s1.phase == Closed {
      if events[0] != EDiscard { ClosesItselfOnlyUnneeded(s, events[0]); }
      assert events[..0] == [];
      assert Closes(s, events, 0, s);
    } else {
      WhyASessionClosed(s1, events[1..], s');
      var k: nat, at :| Closes(s1, events[1..], k, at);
      assert events[..k + 1][1..] == events[1..][..k] && events[..k + 1][0] == events[0];
      assert Closes(s, events, k + 1, at);
    }
  }

  /** Taken since the last transition. */
  predicate TakenSince(s: Session, l: Lease) { Known(s, l) && s.since[l] == s.version }

  /** At rest, an open session is needed, a blocked one holds only leases taken while blocked, a
      closed one holds none, and observers have heard of every change. */
  lemma AtRest(s: Session)
    requires Reachable(s) && s.stack == [] && !s.queued
    ensures Live(s.phase) ==> s.leases != [] || s.pending
    ensures s.phase == Blocked ==> forall l :: l in s.leases ==> TakenSince(s, l)
    ensures s.phase == Closed ==> s.leases == []
    ensures !s.dirty
  {
    ReachableKeeps(s);
    forall l | l in s.leases ensures !Leaving(s, l) && Known(s, l) && s.since[l] <= s.version { }
    assert s.leases != [] ==> s.leases[0] in s.leases;
  }

  lemma ContinueReleases(s: Session, l: Lease)
    requires s.stack != [] && l in s.leases && l !in Continue(s).leases
    ensures s.stack[|s.stack| - 1].Releasing? && s.stack[|s.stack| - 1].lease == l
  {
  }

  lemma CloseKeepsLeases(s: Session)
    ensures DoClose(s).leases == s.leases && Settle(s).leases == s.leases
  {
    TransitionStaysUp(s, Close);
    TransitionStaysUp(Settling(s), Close);
  }

  /** A lease ends because its holder released it, the session closed, or the session blocked after
      the lease was taken: one taken while blocked survives the block. */
  lemma WhyALeaseEnds(s: Session, e: Event, l: Lease)
    requires Reachable(s) && Enabled(s, e) && l in s.leases && l !in Step(s, e).leases
    ensures e == EContinue && s.stack[|s.stack| - 1].Releasing? && s.stack[|s.stack| - 1].lease == l
    ensures var why := s.stack[|s.stack| - 1].why;
      || why.ByApp?
      || (why.Closing? && s.phase == Closed)
      || (why.Retired? && Older(s, l, why.block) && why.block <= s.version)
  {
    ReachableKeeps(s);
    CloseKeepsLeases(s);
    if !e.EDiscard? && !e.ESettle? && !e.EContinue? { OtherStepsStayUp(s, e); }
    ContinueReleases(s, l);
    assert FrameFits(s, s.stack[|s.stack| - 1]);
  }

  /** A refresh reply does nothing if any transition happened since the request, and otherwise finds
      the session still waiting for it, and renews or blocks it. */
  lemma StaleRepliesAreIgnored(s: Session, attempt: nat, ok: bool, connectOk: bool)
    requires Reachable(s) && attempt in s.fetching
    ensures s.version != attempt ==> Reply(s, attempt, ok, connectOk) == s.(fetching := s.fetching - {attempt})
    ensures s.version == attempt ==> s.phase == Refreshing
    ensures s.version == attempt ==> Reply(s, attempt, ok, connectOk).phase == if ok && connectOk then Renewed else Blocked
  {
    ReachableKeeps(s);
    if s.version == attempt { ReplyActs(s, ok, connectOk); }
  }

  lemma ReplyActs(s: Session, ok: bool, connectOk: bool)
    requires s.phase == Refreshing
    ensures Reply(s, s.version, ok, connectOk).phase == if ok && connectOk then Renewed else Blocked
  {
    var s1 := s.(fetching := s.fetching - {s.version});
    assert Transition(s1, Renew).phase == Renewed && Transition(s1, Block).phase == Blocked;
    assert Transition(Transition(s1, Renew), Block).phase == Blocked;
  }

  // ---------------------------------------------------------------- what each call does

  /** Retry reopens a blocked session, with every lease it holds and nothing retiring; a connect that
      fails blocks it again, later.  Anywhere else it changes nothing. */
  lemma RetryReopens(s: Session)
    ensures s.phase == Blocked ==> var s' := Step(s, ERetry(true));
      s'.phase == Open && s'.leases == s.leases && s'.retiring == [] && s'.queued && s'.retries == s.retries + 1
    ensures s.phase == Blocked ==> var s' := Step(s, ERetry(false));
      s'.phase == Blocked && s'.version > s.version && s'.leases == s.leases && s'.retiring == s.leases
    ensures s.phase != Blocked ==> forall ok :: Step(s, ERetry(ok)) == s
  {
  }

  /** A transport that accepts the grant makes a renewed session open, and leaves an open or refreshing
      one in its phase; a blocked or closed session does not listen. */
  lemma AcceptanceReopens(s: Session)
    ensures var s' := Step(s, EStatus(true));
      s'.phase == (if s.phase == Renewed then Open else s.phase) && s'.leases == s.leases
    ensures s.phase == Renewed ==> Step(s, EStatus(true)).accepts == s.accepts + 1
    ensures Step(s, EStatus(false)).phase == s.phase
    ensures s.phase == Blocked || s.phase == Closed ==> forall accepted :: Step(s, EStatus(accepted)) == s
  {
  }

  /** A rejection starts one fetch if the session is open and has a URL, and blocks it, with all its
      leases retiring, in every other live phase. */
  lemma RejectionRefreshesOrBlocks(s: Session)
    ensures var s' := Step(s, ERejected);
      s.phase == Open && s.refreshUrl ==>
        s'.phase == Refreshing && s'.fetching == s.fetching + {s'.version} && s'.version > s.version && s'.refreshes == s.refreshes + 1
    ensures var s' := Step(s, ERejected);
      Live(s.phase) && !(s.phase == Open && s.refreshUrl) ==>
        s'.phase == Blocked && s'.retiring == s.leases && s'.queued && s'.fetching == s.fetching
    ensures !Live(s.phase) ==> Step(s, ERejected) == s
  {
  }

  /** A new lease is held in every phase but closed; it connects, and so can block the session, only in
      the open and renewed phases. */
  lemma AttachHolds(s: Session, ok: bool)
    ensures s.phase == Closed ==> Step(s, EAttach(ok)) == s
    ensures s.phase != Closed ==> var s' := Step(s, EAttach(ok));
      s'.leases == s.leases + [|s.since|] && s'.queued && s'.since == s.since + [s.version]
    ensures s.phase != Closed ==>
      Step(s, EAttach(ok)).phase == if !ok && (s.phase == Open || s.phase == Renewed) then Blocked else s.phase
  {
  }

  /** A change of what is unacked is taken note of, and looked into while the session is open; so is an
      error, unless the session is closed. */
  lemma ChangesAreHeard(s: Session, pending: bool)
    ensures var s' := Step(s, EPending(pending));
      s'.pending == pending && s'.phase == s.phase && s'.leases == s.leases && (Live(s.phase) ==> s'.queued && s'.dirty)
    ensures var s' := Step(s, EError); s.phase != Closed ==> s'.queued && s'.dirty && s'.phase == s.phase
  {
  }

  /** Releasing a lease aborts its signal at once; when its cleanup returns, exactly that lease is gone,
      and a settle is queued to see whether the session is still needed. */
  lemma ReleaseLetsGo(s: Session, l: Lease)
    requires l in s.leases && l < |s.since| && l !in s.aborted
    ensures var s1 := Step(s, ERelease(l)); l in s1.aborted && l in s1.leases && s1.stack != []
    ensures var s2 := Step(Step(s, ERelease(l)), EContinue);
      s2.queued && s2.stack == s.stack && forall m :: m in s2.leases <==> m in s.leases && m != l
  {
    var s1 := Step(s, ERelease(l));
    assert s1.stack[..|s1.stack| - 1] == s.stack;
  }

  /** Discard closes from every phase, at once, and every lease is then on its way out. */
  lemma DiscardCloses(s: Session)
    requires Reachable(s)
    ensures var s' := Step(s, EDiscard); s'.phase == Closed && forall l :: l in s'.leases ==> Leaving(s', l)
  {
    ReachableKeeps(s);
    CloseKeeps(s);
  }

  /** A settle of an open session closes it exactly if it is not needed. */
  lemma SettleClosesUnneeded(s: Session)
    requires Enabled(s, ESettle) && Live(s.phase)
    ensures Step(s, ESettle).phase == Closed <==> s.leases == [] && !s.pending
  {
  }

  /** Refresh requests never outnumber one plus the acceptances plus the retries. */
  lemma RefreshesAreBounded(s: Session)
    requires Reachable(s)
    ensures s.refreshes <= 1 + s.accepts + s.retries
  {
    ReachableKeeps(s);
  }
}

/** The session object: the fields its methods update, over the leases and promises around it. */
module DocumentSession {
  import opened SessionLifecycle
  import opened Common

  /** `stack` is the calls waiting for editor cleanup; a method runs until the first cleanup it starts
      and `Continues` runs what comes after one. */
  class DocumentSession {
    var phase: Phase
    var version: nat
    var leases: seq<Lease>
    var retiring: seq<Lease>
    var dirty: bool
    var settleQueued: bool
    var pending: bool            // the provider's hasPending
    var aborted: set<Lease>      // the leases' signals
    var stack: seq<Frame>
    ghost var around: Session

    ghost function Abs(): Session reads this {
      around.(phase := phase, version := version, leases := leases, retiring := retiring, dirty := dirty,
              queued := settleQueued, pending := pending, aborted := aborted, stack := stack)
    }

    ghost predicate Valid() reads this { Inv(Abs()) }

    /** As the store makes one: constructed, and its first lease attached. */
    constructor (refreshUrl: bool, connectOk: bool)
      ensures Valid() && Abs() == Init(refreshUrl, connectOk)
    {
      phase, version, leases, retiring, dirty, settleQueued := Open, 0, [0], [], true, true;
      pending, aborted, stack := false, {}, [];
      around := WithLease(Made(refreshUrl));
      new;
      InitKeeps(refreshUrl, connectOk);
      assert Abs() == around;
      ConnectOrBlock(connectOk);
    }

    method MarkChanged()
      modifies this
      ensures Abs() == Changed(old(Abs())) && around == old(around)
    {
      dirty := true;
      if settleQueued { return; }
      settleQueued := true;
    }

    /** Take a transition if the table has it. */
    method Move(e: PhaseEvent) returns (moved: bool)
      modifies this
      ensures moved <==> Next(old(phase), e).Some?
      ensures Abs() == Transition(old(Abs()), e)
    {
      var next := Next(phase, e);
      if next.None? { return false; }
      phase, version := next.value, version + 1;
      retiring := if phase == Blocked then leases else [];
      around := around.(accepts := around.accepts + (if e == Accept then 1 else 0),
                        retries := around.retries + (if e == Retry then 1 else 0));
      MarkChanged();
      return true;
    }

    /** `ok` is whether the provider's connect or renew returned. */
    method ConnectOrBlock(ok: bool)
      modifies this
      ensures Abs() == Connect(old(Abs()), ok)
    {
      if !ok { var _ := Move(Block); }
    }

    method AttachLease(lease: Lease, connectOk: bool) returns (attached: bool)
      requires Valid() && lease == |around.since|
      modifies this
      ensures attached <==> old(phase) != Closed
      ensures Valid() && Abs() == Attach(old(Abs()), connectOk)
    {
      AttachKeeps(Abs(), connectOk);
      if phase == Closed { return false; }
      leases := leases + [lease];
      around := around.(since := around.since + [version]);
      MarkChanged();
      if Connects(phase) { ConnectOrBlock(connectOk); }
      return true;
    }

    method RetryNow(connectOk: bool)
      requires Valid()
      modifies this
      ensures Valid() && Abs() == DoRetry(old(Abs()), connectOk)
    {
      RetryKeeps(Abs(), connectOk);
      var moved := Move(Retry);
      if moved { ConnectOrBlock(connectOk); }
    }

    method OnPending(unacked: bool)
      requires Valid()
      modifies this
      ensures Valid() && Abs() == SetPending(old(Abs()), unacked)
    {
      PendingKeeps(Abs(), unacked);
      pending := unacked;
      if Live(phase) { MarkChanged(); }
    }

    method OnStatus(accepted: bool)
      requires Valid()
      modifies this
      ensures Valid() && Abs() == Status(old(Abs()), accepted)
    {
      StatusKeeps(Abs(), accepted);
      if !Live(phase) { return; }
      if accepted { var _ := Move(Accept); }
      MarkChanged();
    }

    /** One fetch per rejection, and a rejection while refreshing or renewed blocks. */
    method OnRejected(refreshUrl: bool) returns (fetch: bool)
      requires Valid() && refreshUrl == around.refreshUrl
      modifies this
      ensures Valid() && Abs() == Rejected(old(Abs()))
      ensures fetch <==> refreshUrl && old(phase) == Open
    {
      RejectedKeeps(Abs());
      fetch := false;
      if refreshUrl { fetch := Move(Refresh); }
      if fetch {
        around := around.(fetching := around.fetching + {version}, refreshes := around.refreshes + 1);
      } else {
        var _ := Move(Block);
      }
    }

    /** The reply to the fetch begun at `attempt`. */
    method OnReply(attempt: nat, ok: bool, connectOk: bool)
      requires Valid()
      modifies this
      ensures Valid() && Abs() == Reply(old(Abs()), attempt, ok, connectOk)
    {
      ReplyKeeps(Abs(), attempt, ok, connectOk);
      around := around.(fetching := around.fetching - {attempt});
      if version != attempt { return; }
      if !ok { var _ := Move(Block); return; }
      var moved := Move(Renew);
      if moved { ConnectOrBlock(connectOk); }
    }

    /** `lease.release()`: abort the signal, whose listeners clean up, unless that happened before. */
    method StartReleasing(lease: Lease, why: Why)
      modifies this
      ensures Abs() == StartRelease(old(Abs()), lease, why)
    {
      if lease in aborted { return; }
      aborted := aborted + {lease};
      stack := stack + [Releasing(lease, why)];
    }

    method ReleaseLease(lease: Lease)
      requires Valid() && lease < |around.since|
      modifies this
      ensures Valid() && Abs() == StartRelease(old(Abs()), lease, ByApp)
    {
      StartReleaseKeeps(Abs(), lease, ByApp);
      StartReleasing(lease, ByApp);
    }

    /** The cleanup is done and the session lets the lease go. */
    method LetGo(lease: Lease)
      modifies this
      ensures Abs() == Released(old(Abs()), lease)
    {
      if lease !in leases { return; }
      leases := Without(leases, lease);
      MarkChanged();
    }

    method CloseNow()
      modifies this
      ensures Abs() == DoClose(old(Abs()))
    {
      var moved := Move(Close);
      if !moved { return; }
      stack := stack + [CloseLoop(leases)];
    }

    method Discard()
      requires Valid()
      modifies this
      ensures Valid() && Abs() == DoClose(old(Abs()))
    {
      CloseKeeps(Abs());
      CloseNow();
    }

    /** The queued microtask: enforce what the phase calls for, up to the first cleanup. */
    method RunSettle()
      requires Valid() && settleQueued && stack == []
      modifies this
      ensures Valid() && Abs() == Settle(old(Abs()))
    {
      SettleKeeps(Abs());
      settleQueued := false;
      stack := stack + [SettleTail];
      if phase == Closed { return; }
      if phase == Blocked {
        var retired := retiring;
        retiring := [];
        stack := stack + [RetireLoop(retired, version)];
        return;
      }
      if leases == [] && !pending { CloseNow(); }
    }

    /** The next lease of a release loop. */
    method NextRetired(rest: seq<Lease>, block: nat)
      requires stack != [] && stack[|stack| - 1] == RetireLoop(rest, block)
      modifies this
      ensures Abs() == Continue(old(Abs()))
    {
      stack := stack[..|stack| - 1];
      if rest == [] { return; }
      stack := stack + [RetireLoop(rest[1..], block)];
      StartReleasing(rest[0], Retired(block));
    }

    method NextClosed(rest: seq<Lease>)
      requires stack != [] && stack[|stack| - 1] == CloseLoop(rest)
      modifies this
      ensures Abs() == Continue(old(Abs()))
    {
      stack := stack[..|stack| - 1];
      if rest == [] { return; }
      stack := stack + [CloseLoop(rest[1..])];
      StartReleasing(rest[0], Closing);
    }

    method CleanedUp(lease: Lease, ghost why: Why)
      requires stack != [] && stack[|stack| - 1] == Releasing(lease, why)
      modifies this
      ensures Abs() == Continue(old(Abs()))
    {
      stack := stack[..|stack| - 1];
      LetGo(lease);
    }

    /** The end of a settle: observers hear of a change. */
    method EndSettle() returns (notify: bool)
      requires stack != [] && stack[|stack| - 1] == SettleTail
      modifies this
      ensures Abs() == Continue(old(Abs())) && notify == old(dirty)
    {
      stack := stack[..|stack| - 1];
      notify := dirty;
      dirty := false;
    }

    /** The innermost call goes on: let a lease go, take the next one of a loop, or end the settle;
        `notify` is whether observers are told now. */
    method Continues() returns (notify: bool)
      requires Valid() && stack != []
      modifies this
      ensures Valid() && Abs() == Continue(old(Abs()))
      ensures notify <==> old(stack[|stack| - 1].SettleTail? && dirty)
    {
      ContinueKeeps(Abs());
      notify := false;
      match stack[|stack| - 1]
      case Releasing(lease, why) => CleanedUp(lease, why);
      case RetireLoop(rest, block) => NextRetired(rest, block);
      case CloseLoop(rest) => NextClosed(rest);
      case SettleTail => notify := EndSettle();
    }
  }
}
