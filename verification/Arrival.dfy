/** What the system does when messages get through: edits reach connected peers, handshakes complete. */
module Arrival {
  import opened Common
  import opened Crdt
  import opened Store
  import opened Queue
  import opened Network
  import G = Gaps
  import C = Compaction

  // ---------------------------------------------------------------- relays

  /** A recorded update, relayed and received, is in the receiver's document; being synced and the
      cycle are as they were. */
  lemma RelayArrives(s: System, job: Job, r: nat)
    requires job in s.jobs && job.Recorded? && r in s.clients
    ensures
      var s1 := Step(s, Distribute(job));
      var s2 := Step(s1, TakeRelay(r, Relay(AsUpdate, job.payload)));
      && r in s2.clients && s2.clients[r].doc == s.clients[r].doc + job.payload
      && s2.clients[r].synced == s.clients[r].synced && s2.clients[r].cycle == s.clients[r].cycle
  {
    var relay := Relay(AsUpdate, job.payload);
    var s1 := Step(s, Distribute(job));
    assert RelayKind(job.kind) == AsUpdate;
    assert relay in s1.net && s1.clients == s.clients;
  }

  /** From every reachable state: what a handler has recorded reaches any client that stays connected. */
  lemma RecordedEditIsRelayed(events: seq<Event>, job: Job, r: nat)
    requires job in Run(INIT, events).jobs && job.Recorded? && r in Run(INIT, events).clients
    ensures var s := Run(INIT, events);
      var s' := Run(s, [Distribute(job)] + [TakeRelay(r, Relay(AsUpdate, job.payload))]);
      && r in s'.clients && job.payload <= s'.clients[r].doc
      && s'.clients[r].synced == s.clients[r].synced && s'.clients[r].cycle == s.clients[r].cycle
  {
    var s := Run(INIT, events);
    G.RunSnoc(s, [Distribute(job)], TakeRelay(r, Relay(AsUpdate, job.payload)));
    RunOne(s, Distribute(job));
    RelayArrives(s, job, r);
  }

  function TailJob(n: nat, c: Client): Job
    requires c.queue != []
  {
    Recorded(n, AsUpdate, Some(c.queue[|c.queue| - 1].seqNo), Merged(c.queue))
  }

  /** A live client sends its tail and the server records it. */
  lemma TailIsRecorded(s: System, n: nat, c: Client)
    requires n in s.clients && c == s.clients[n] && c.live && c.queue != [] && Merged(c.queue) != {}
    ensures var s2 := Step(Step(s, Transmit(n)), Record(TailFrame(n, c)));
      TailJob(n, c) in s2.jobs && s2.clients == s.clients
  {
    var s1 := Step(s, Transmit(n));
    assert TailFrame(n, c) in s1.net && s1.clients == s.clients;
  }

  /** An edit, its transmission, its recording and its relay. */
  ghost function EditTrip(s: System, n: nat, update: Update, r: nat): seq<Event>
    requires n in s.clients
  {
    var c := Edited(s.clients[n], update);
    [Edit(n, update)] + [Transmit(n)] + [Record(TailFrame(n, c))] + [Distribute(TailJob(n, c))]
    + [TakeRelay(r, Relay(AsUpdate, Merged(c.queue)))]
  }

  lemma RunFive(s: System, a: Event, b: Event, c: Event, d: Event, e: Event)
    ensures Run(s, [a] + [b] + [c] + [d] + [e]) == Step(Step(Step(Step(Step(s, a), b), c), d), e)
  {
    G.RunSnoc(s, [a] + [b] + [c] + [d], e);
    G.RunFour(s, a, b, c, d);
  }

  lemma EditIsQueued(s: System, n: nat, update: Update)
    requires Writes(s, n, update)
    ensures var s1 := Step(s, Edit(n, update)); var c := Edited(s.clients[n], update);
      s1.clients == s.clients[n := c] && c.queue != [] && update <= Merged(c.queue)
  {
    var c := Edited(s.clients[n], update);
    assert Updates(c.queue)[|c.queue| - 1] == update;
    InUnion(Updates(c.queue), |c.queue| - 1);
  }

  /** From every reachable state: an edit on a live writer reaches a connected reader's document without
      anyone reconnecting. */
  lemma EditReachesReader(events: seq<Event>, n: nat, update: Update, r: nat)
    requires var s := Run(INIT, events); Writes(s, n, update) && s.clients[n].live && r in s.clients
    requires update != {}
    ensures var s := Run(INIT, events); var s' := Run(s, EditTrip(s, n, update, r));
      && r in s'.clients && update <= s'.clients[r].doc
      && s'.clients[r].synced == s.clients[r].synced && s'.clients[r].cycle == s.clients[r].cycle
  {
    EditArrives(Run(INIT, events), n, update, r);
  }

  lemma EditArrives(s: System, n: nat, update: Update, r: nat)
    requires Writes(s, n, update) && s.clients[n].live && r in s.clients && update != {}
    ensures var s' := Run(s, EditTrip(s, n, update, r));
      && r in s'.clients && update <= s'.clients[r].doc
      && s'.clients[r].synced == s.clients[r].synced && s'.clients[r].cycle == s.clients[r].cycle
  {
    var c := Edited(s.clients[n], update);
    var s1 := Step(s, Edit(n, update));
    EditIsQueued(s, n, update);
    RunFive(s, Edit(n, update), Transmit(n), Record(TailFrame(n, c)), Distribute(TailJob(n, c)),
            TakeRelay(r, Relay(AsUpdate, Merged(c.queue))));
    TailIsRecorded(s1, n, c);
    var s3 := Step(Step(s1, Transmit(n)), Record(TailFrame(n, c)));
    RelayArrives(s3, TailJob(n, c), r);
  }

  // ---------------------------------------------------------------- handshakes

  /** What the server answers a client that reconnects now. */
  function AskOf(s: System, n: nat): Msg
    requires n in s.clients
  {
    Ask(n, s.clients[n].cycle + 1, Vector(Integrated(s.clients[n].doc)))
  }

  function AnsweringOf(s: System, n: nat): Job
    requires n in s.clients
  {
    Answering(n, s.clients[n].cycle + 1, AskOf(s, n).sv, s.db.t)
  }

  /** A client reconnects, the server reads the store and answers, and the answer arrives. */
  ghost function Handshake(s: System, n: nat): seq<Event>
    requires n in s.clients
  {
    [Resume(n)] + [ReadTail(AskOf(s, n))] + [Reply(AnsweringOf(s, n))] + [TakeAnswer(AnswerTo(s, AnsweringOf(s, n)))]
  }

  lemma Asked(s: System, n: nat)
    requires n in s.clients
    ensures var s1 := Step(s, Resume(n));
      && AskOf(s, n) in s1.net && s1.db == s.db
      && s1.clients == s.clients[n := Reopened(s.clients[n], true, Stored(s))]
  {
  }

  /** Reconnecting asks the server and replays the whole unconfirmed tail. */
  lemma ResumeReplays(s: System, n: nat)
    requires n in s.clients
    ensures AskOf(s, n) in Step(s, Resume(n)).net
    ensures s.clients[n].queue != [] ==> TailFrame(n, s.clients[n]) in Step(s, Resume(n)).net
  {
  }

  lemma Answered(s: System, s1: System, n: nat)
    requires n in s.clients && s1.db == s.db && AskOf(s, n) in s1.net
    ensures var s3 := Step(Step(s1, ReadTail(AskOf(s, n))), Reply(AnsweringOf(s, n)));
      AnswerTo(s, AnsweringOf(s, n)) in s3.net && s3.clients == s1.clients
  {
    var s2 := Step(s1, ReadTail(AskOf(s, n)));
    assert AnsweringOf(s, n) in s2.jobs && s2.db == s.db && s2.clients == s1.clients;
    assert AnswerTo(s2, AnsweringOf(s, n)) == AnswerTo(s, AnsweringOf(s, n));
  }

  /** From every reachable state: a handshake whose messages get through leaves the client synced, and
      holding everything that was durable when it began. */
  lemma HandshakeCompletes(events: seq<Event>, n: nat)
    requires n in Run(INIT, events).clients
    ensures var s := Run(INIT, events); var s' := Run(s, Handshake(s, n));
      n in s'.clients && s'.clients[n].synced && s'.clients[n].live && Stored(s) <= s'.clients[n].doc
  {
    InitOk();
    RunOk(INIT, events);
    HandshakeSyncs(Run(INIT, events), n);
  }

  lemma HandshakeSyncs(s: System, n: nat)
    requires Inv(s) && n in s.clients
    ensures var s' := Run(s, Handshake(s, n));
      n in s'.clients && s'.clients[n].synced && s'.clients[n].live && Stored(s) <= s'.clients[n].doc
  {
    var answer := AnswerTo(s, AnsweringOf(s, n));
    G.RunFour(s, Resume(n), ReadTail(AskOf(s, n)), Reply(AnsweringOf(s, n)), TakeAnswer(answer));
    Asked(s, n);
    var s1 := Step(s, Resume(n));
    Answered(s, s1, n);
    AnswerCovers(s, n);
    AnswerTaken(Step(Step(s1, ReadTail(AskOf(s, n))), Reply(AnsweringOf(s, n))), answer);
  }

  lemma AnswerTaken(s: System, m: Msg)
    requires m in s.net && m.Answer? && m.client in s.clients && s.clients[m.client].cycle == m.cycle
    ensures var s' := Step(s, TakeAnswer(m)); var c, c' := s.clients[m.client], s'.clients[m.client];
      m.client in s'.clients && c'.synced && c'.live == c.live && c'.doc == c.doc + m.payload
  {
  }

  lemma AnswerCovers(s: System, n: nat)
    requires Inv(s) && n in s.clients
    ensures Stored(s) <= s.clients[n].doc + AnswerTo(s, AnsweringOf(s, n)).payload
  {
    var doc := s.clients[n].doc;
    var sv := Vector(Integrated(doc));
    VectorIsBacked(Integrated(doc));
    BackedGrows(sv, Integrated(doc), doc);
    assert ClientOk(s.clients[n], Stored(s), s.world);
    assert Base(C.Loaded(s.db.t, s.db.t)) == Stored(s);
    DiffLeavesOutBacked(Stored(s), sv, doc);
  }
}
