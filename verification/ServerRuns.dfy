/** The server over arbitrary sequences of calls: what a collect can bring, whatever was called
    before it. */
module ServerRuns {
  import opened Outcomes
  import opened Samples
  import opened StreamingConfig
  import opened Schedule
  import opened DuplexGraph
  import opened BlockLayout
  import opened BlockOffsetTracking
  import opened ReplayDevice
  import opened StreamingThreads
  import opened BurstPipeline
  import opened BurstOutcome
  import opened UsrpServer

  datatype ServerCall =
    | SetRf(noTxStreams: int, noRxStreams: int, txSamplingRate: real, rxSamplingRate: real)
    | SetTx(txConfig: TxStreamingConfig)
    | SetRx(rxConfig: RxStreamingConfig)
    | ResetConfigs
    | Execute(answers: BurstAnswers)
    | Collect(downloads: nat -> DownloadAnswer)
  {
    predicate Valid() {
      SetRf? ==> txSamplingRate > 0.0 && rxSamplingRate > 0.0
    }
  }

  datatype Reply = Replied(outcome: Outcome) | Collected(result: Result<seq<MimoSignal>>) {
    /** How many signals it brings. */
    function Signals(): nat {
      if Collected? && result.Success? then |result.value| else 0
    }
  }

  // ---------- What is there to collect ----------

  /** Fetched: no request can be answered. Uncollected: the RX queue is that of the last burst.
      Changed: it has been changed since, and not all was fetched. */
  datatype Phase = Fetched | Uncollected | Changed

  function NextPhase(p: Phase, c: ServerCall, reply: Reply): Phase {
    match c
    case Execute(_) => if reply == Replied(Pass) then Uncollected else Fetched
    case Collect(_) => if p.Uncollected? && reply.Collected? && reply.result.Success? then Fetched else p
    case SetRx(_) => if p.Uncollected? && reply == Replied(Pass) then Changed else p
    case ResetConfigs => if p.Uncollected? then Changed else p
    case SetRf(_, _, _, _) => p
    case SetTx(_) => p
  }

  function NextQueue(queue: seq<RxStreamingConfig>, c: ServerCall, reply: Reply): seq<RxStreamingConfig> {
    match c
    case SetRx(conf) => if reply == Replied(Pass) then queue + [conf] else queue
    case ResetConfigs => []
    case Collect(_) => if reply.Collected? && reply.result.Success? then [] else queue
    case _ => queue
  }

  /** The accepted TX requests, in the order in which they will be played. */
  function NextRequests(requests: seq<TxStreamingConfig>, c: ServerCall, reply: Reply): seq<TxStreamingConfig> {
    match c
    case SetTx(conf) => if reply == Replied(Pass) then requests + [conf] else requests
    case ResetConfigs => []
    case Collect(_) => if reply.Collected? && reply.result.Success? then [] else requests
    case _ => requests
  }

  /** The RX queue after the first n calls. */
  function QueueAfter(queue: seq<RxStreamingConfig>, calls: seq<ServerCall>, replies: seq<Reply>, n: nat)
    : seq<RxStreamingConfig>
    requires n <= |calls| && n <= |replies|
  {
    if n == 0 then queue else NextQueue(QueueAfter(queue, calls, replies, n - 1), calls[n - 1], replies[n - 1])
  }

  function NextEmpty(empty: bool, c: ServerCall, reply: Reply): bool {
    match c
    case SetTx(_) => empty && reply != Replied(Pass)
    case SetRx(_) => empty && reply != Replied(Pass)
    case ResetConfigs => true
    case Collect(_) => empty || (reply.Collected? && reply.result.Success?)
    case _ => empty
  }

  /** Whether both queues are empty after the first n calls. */
  function EmptyAfter(empty: bool, calls: seq<ServerCall>, replies: seq<Reply>, n: nat): bool
    requires n <= |calls| && n <= |replies|
  {
    if n == 0 then empty else NextEmpty(EmptyAfter(empty, calls, replies, n - 1), calls[n - 1], replies[n - 1])
  }

  /** Rates and stream counts are set when there is nothing in the queues. */
  ghost predicate RfWhenEmpty(empty: bool, calls: seq<ServerCall>, replies: seq<Reply>, n: nat)
    requires n <= |calls| && n <= |replies|
  {
    forall j | 0 <= j < n && calls[j].SetRf? :: EmptyAfter(empty, calls, replies, j)
  }

  ghost predicate NothingQueued(u: Usrp)
    reads u`txQueue, u`rxQueue
  {
    u.txQueue == [] && u.rxQueue == []
  }

  /** The phase after the first n calls to a new server. */
  function PhaseAfter(calls: seq<ServerCall>, replies: seq<Reply>, n: nat): Phase
    requires n <= |calls| && n <= |replies|
  {
    if n == 0 then Fetched else NextPhase(PhaseAfter(calls, replies, n - 1), calls[n - 1], replies[n - 1])
  }

  ghost predicate InPhase(u: Usrp, p: Phase)
    reads u, u.replay.rxBlocks
  {
    match p
    case Fetched => Drained(u.replay.rxBlocks.View())
    case Uncollected => u.rxException.None? ==> u.executedRx == u.rxQueue
    case Changed => true
  }

  /** How many signals the collects since the last burst have brought, of the first n calls. */
  function SignalsSince(calls: seq<ServerCall>, replies: seq<Reply>, n: nat): nat
    requires n <= |calls| && n <= |replies|
  {
    if n == 0 || calls[n - 1].Execute? then 0 else SignalsSince(calls, replies, n - 1) + replies[n - 1].Signals()
  }

  /** What the last burst has left: the RX queue it executed, and what arrived for it. */
  datatype BurstRecord = BurstRecord(queue: seq<RxStreamingConfig>, captured: seq<MimoSignal>)

  /** The answer to a collect in this phase, for this queue and after this burst. */
  ghost predicate CollectedRight(p: Phase, queue: seq<RxStreamingConfig>, last: BurstRecord, reply: Reply) {
    reply.Collected? && reply.result.Success? ==>
      && (p.Uncollected? ==> last.queue == queue && AllCollected(queue, last.captured, reply.result.value))
      && (p.Fetched? ==> reply.result.value == [])
  }

  ghost function LastBurst(u: Usrp): BurstRecord
    reads u`executedRx, u`captured
  {
    BurstRecord(u.executedRx, u.captured)
  }

  // ---------- One call ----------

  method Serve(u: Usrp, c: ServerCall, ghost p: Phase) returns (reply: Reply)
    requires u.Valid() && c.Valid() && InPhase(u, p)
    modifies u.Repr
    ensures u.Valid() && InPhase(u, NextPhase(p, c, reply))
    ensures c.Collect? <==> reply.Collected?
    ensures CollectedRight(p, old(u.rxQueue), old(LastBurst(u)), reply)
    ensures u.rxQueue == NextQueue(old(u.rxQueue), c, reply)
    ensures u.txRequests == NextRequests(old(u.txRequests), c, reply)
    ensures c.SetTx? ==>
              (reply == Replied(Pass)
               <==> AcceptTx(old(u.txQueue), c.txConfig, u.numTx, GUARD_OFFSET_S, u.txRate).Success?)
    ensures c.SetRx? ==>
              (reply == Replied(Pass) <==> AcceptRx(old(u.rxQueue), c.rxConfig, GUARD_OFFSET_S, u.rxRate).Success?)
    ensures c.SetRf? && reply == Replied(Pass) ==> RfIs(u, c)
    ensures !c.Execute? ==>
              && LastBurst(u) == old(LastBurst(u))
              && u.replay.rxBlocks.replayBlocks == old(u.replay.rxBlocks.replayBlocks)
              && u.replay.rxBlocks.View().Unanswered() + reply.Signals() <= old(u.replay.rxBlocks.View().Unanswered())
    ensures old(u.Scheduled()) && (c.SetRf? ==> old(NothingQueued(u))) ==> u.Scheduled()
    ensures NextEmpty(old(NothingQueued(u)), c, reply) ==> NothingQueued(u)
  {
    match c
    case Execute(answers) =>
      var r := ServeExecute(u, answers);
      reply := Replied(r);
    case Collect(downloads) =>
      var r := ServeCollect(u, p, downloads);
      reply := Collected(r);
    case _ =>
      var r := Configure(u, c, p);
      reply := Replied(r);
  }

  /** A call that neither streams nor downloads. */
  method Configure(u: Usrp, c: ServerCall, ghost p: Phase) returns (r: Outcome)
    requires u.Valid() && c.Valid() && InPhase(u, p) && !c.Execute? && !c.Collect?
    modifies u.Repr
    ensures u.Valid() && InPhase(u, NextPhase(p, c, Replied(r)))
    ensures LastBurst(u) == old(LastBurst(u)) && u.rxQueue == NextQueue(old(u.rxQueue), c, Replied(r))
    ensures SameCursor(old(u.replay.rxBlocks.View()), u.replay.rxBlocks.View())
    ensures old(u.Scheduled()) && (c.SetRf? ==> old(NothingQueued(u))) ==> u.Scheduled()
    ensures NextEmpty(old(NothingQueued(u)), c, Replied(r)) ==> NothingQueued(u)
    ensures u.txRequests == NextRequests(old(u.txRequests), c, Replied(r))
    ensures c.SetTx? ==> (r.Pass? <==> AcceptTx(old(u.txQueue), c.txConfig, u.numTx, GUARD_OFFSET_S, u.txRate).Success?)
    ensures c.SetRx? ==> (r.Pass? <==> AcceptRx(old(u.rxQueue), c.rxConfig, GUARD_OFFSET_S, u.rxRate).Success?)
    ensures c.SetRf? && r.Pass? ==> RfIs(u, c)
    ensures c.ResetConfigs? ==> r.Pass?
  {
    match c
    case SetRf(_, _, _, _) =>
      r := ConfigureRf(u, c, p);
    case SetTx(conf) =>
      r := u.SetTxConfig(conf);
    case SetRx(conf) =>
      r := u.SetRxConfig(conf);
    case ResetConfigs =>
      u.ResetStreamingConfigs();
      r := Pass;
  }

  method ConfigureRf(u: Usrp, c: ServerCall, ghost p: Phase) returns (r: Outcome)
    requires u.Valid() && c.Valid() && InPhase(u, p) && c.SetRf?
    modifies u.Repr
    ensures u.Valid() && InPhase(u, p)
    ensures LastBurst(u) == old(LastBurst(u)) && u.rxQueue == old(u.rxQueue) && u.txQueue == old(u.txQueue)
    ensures SameCursor(old(u.replay.rxBlocks.View()), u.replay.rxBlocks.View())
    ensures old(NothingQueued(u)) ==> u.Scheduled()
    ensures u.txRequests == old(u.txRequests) && (r.Pass? ==> RfIs(u, c))
  {
    r := u.SetRfConfig(c.noTxStreams, c.noRxStreams, c.txSamplingRate, c.rxSamplingRate);
  }

  ghost predicate RfIs(u: Usrp, c: ServerCall)
    requires c.SetRf?
    reads u`numTx, u`numRx, u`txRate, u`rxRate
  {
    && u.numTx == c.noTxStreams && u.numRx == c.noRxStreams
    && u.txRate == c.txSamplingRate && u.rxRate == c.rxSamplingRate
  }

  ghost predicate SameCursor(v: TrackerView, v': TrackerView) {
    v' == v.(streams := v'.streams)
  }

  method ServeExecute(u: Usrp, answers: BurstAnswers) returns (r: Outcome)
    requires u.Valid()
    modifies u.Repr
    ensures u.Valid() && InPhase(u, if r.Pass? then Uncollected else Fetched)
    ensures u.rxQueue == old(u.rxQueue) && u.txRequests == old(u.txRequests)
    ensures (old(u.Scheduled()) ==> u.Scheduled()) && (old(NothingQueued(u)) ==> NothingQueued(u))
  {
    ghost var run, tx, rx;
    r, run, tx, rx := u.Execute(answers);
  }

  method ServeCollect(u: Usrp, ghost p: Phase, downloads: nat -> DownloadAnswer)
    returns (r: Result<seq<MimoSignal>>)
    requires u.Valid() && InPhase(u, p)
    modifies u.Repr
    ensures u.Valid() && InPhase(u, NextPhase(p, Collect(downloads), Collected(r)))
    ensures CollectedRight(p, old(u.rxQueue), old(LastBurst(u)), Collected(r)) && LastBurst(u) == old(LastBurst(u))
    ensures u.rxQueue == NextQueue(old(u.rxQueue), Collect(downloads), Collected(r))
    ensures u.txRequests == NextRequests(old(u.txRequests), Collect(downloads), Collected(r))
    ensures u.replay.rxBlocks.replayBlocks == old(u.replay.rxBlocks.replayBlocks)
    ensures u.replay.rxBlocks.View().Unanswered() + Collected(r).Signals()
              <= old(u.replay.rxBlocks.View().Unanswered())
    ensures (old(u.Scheduled()) ==> u.Scheduled()) && (r.Success? || old(NothingQueued(u)) ==> NothingQueued(u))
  {
    r := u.Collect(downloads);
  }

  // ---------- Any number of calls ----------

  /** One more call. What came before it is not affected. */
  lemma {:induction false} PhasePrefix(queue: seq<RxStreamingConfig>, empty: bool, calls: seq<ServerCall>,
                                       replies: seq<Reply>, reply: Reply, n: nat)
    requires n <= |calls| && n <= |replies|
    ensures PhaseAfter(calls, replies + [reply], n) == PhaseAfter(calls, replies, n)
    ensures SignalsSince(calls, replies + [reply], n) == SignalsSince(calls, replies, n)
    ensures QueueAfter(queue, calls, replies + [reply], n) == QueueAfter(queue, calls, replies, n)
    ensures EmptyAfter(empty, calls, replies + [reply], n) == EmptyAfter(empty, calls, replies, n)
  {
    if n > 0 {
      PhasePrefix(queue, empty, calls, replies, reply, n - 1);
    }
  }

  /** Collect j is right, given the phase it was made in. */
  ghost predicate CollectAt(queue: seq<RxStreamingConfig>, calls: seq<ServerCall>, replies: seq<Reply>,
                            bursts: seq<BurstRecord>, j: nat)
    requires j < |calls| && j < |replies| && j < |bursts|
  {
    CollectedRight(PhaseAfter(calls, replies, j), QueueAfter(queue, calls, replies, j), bursts[j], replies[j])
  }

  /** What is known of the first n calls: which replies are collects, that these are right, and that
      only Execute changes what can be collected. */
  ghost predicate History(queue: seq<RxStreamingConfig>, calls: seq<ServerCall>, replies: seq<Reply>,
                          bursts: seq<BurstRecord>, n: nat)
  {
    && n == |replies| <= |calls| && |bursts| == n + 1
    && (forall j | 0 <= j < n :: calls[j].Collect? <==> replies[j].Collected?)
    && (forall j | 0 <= j < n :: CollectAt(queue, calls, replies, bursts, j))
    && (forall j | 0 <= j < n && !calls[j].Execute? :: bursts[j + 1] == bursts[j])
  }

  lemma HistoryGrows(queue: seq<RxStreamingConfig>, calls: seq<ServerCall>, replies: seq<Reply>,
                     bursts: seq<BurstRecord>, n: nat, reply: Reply, burst: BurstRecord)
    requires History(queue, calls, replies, bursts, n) && n < |calls|
    requires calls[n].Collect? <==> reply.Collected?
    requires CollectedRight(PhaseAfter(calls, replies, n), QueueAfter(queue, calls, replies, n), bursts[n], reply)
    requires !calls[n].Execute? ==> burst == bursts[n]
    ensures History(queue, calls, replies + [reply], bursts + [burst], n + 1)
    ensures QueueAfter(queue, calls, replies + [reply], n + 1)
            == NextQueue(QueueAfter(queue, calls, replies, n), calls[n], reply)
    ensures PhaseAfter(calls, replies + [reply], n + 1) == NextPhase(PhaseAfter(calls, replies, n), calls[n], reply)
    ensures SignalsSince(calls, replies + [reply], n + 1)
            == if calls[n].Execute? then 0 else SignalsSince(calls, replies, n) + reply.Signals()
  {
    PhasePrefix(queue, true, calls, replies, reply, n);
    forall j | 0 <= j <= n ensures CollectAt(queue, calls, replies + [reply], bursts + [burst], j) {
      PhasePrefix(queue, true, calls, replies, reply, j);
      assert j < n ==> CollectAt(queue, calls, replies, bursts, j);
    }
  }

  lemma RfHistory(empty: bool, calls: seq<ServerCall>, replies: seq<Reply>, n: nat, reply: Reply)
    requires n == |replies| < |calls|
    ensures RfWhenEmpty(empty, calls, replies + [reply], n + 1) ==>
              && RfWhenEmpty(empty, calls, replies, n)
              && (calls[n].SetRf? ==> EmptyAfter(empty, calls, replies, n))
    ensures EmptyAfter(empty, calls, replies + [reply], n + 1)
            == NextEmpty(EmptyAfter(empty, calls, replies, n), calls[n], reply)
  {
    forall j | 0 <= j <= n
      ensures EmptyAfter(empty, calls, replies + [reply], j) == EmptyAfter(empty, calls, replies, j)
    {
      PhasePrefix([], empty, calls, replies, reply, j);
    }
  }

  /** Any sequence of calls to a server from which nothing can be collected, such as a new one.
      Every collect that succeeds brings all captures of the last burst, if the RX queue is still
      the one of that burst, and nothing, if they have been collected before. Whatever the queue,
      all collects after a burst together bring no more signals than it recorded repetitions: no
      recording is handed out twice. When rates and stream counts are set with empty queues only,
      the queues keep their schedule. */
  method ServeAll(u: Usrp, calls: seq<ServerCall>) returns (replies: seq<Reply>, ghost bursts: seq<BurstRecord>)
    requires u.Valid() && Drained(u.replay.rxBlocks.View()) && forall j | 0 <= j < |calls| :: calls[j].Valid()
    modifies u.Repr
    ensures u.Valid() && History(old(u.rxQueue), calls, replies, bursts, |calls|) && bursts[|calls|] == LastBurst(u)
    ensures SignalsSince(calls, replies, |calls|) <= TotalReplays(u.replay.rxBlocks.replayBlocks)
    ensures old(u.Scheduled()) && RfWhenEmpty(old(NothingQueued(u)), calls, replies, |calls|) ==> u.Scheduled()
  {
    replies, bursts := [], [LastBurst(u)];
    ghost var queue, empty, scheduled := u.rxQueue, NothingQueued(u), u.Scheduled();
    for n := 0 to |calls|
      invariant Follows(u, queue, empty, scheduled, calls, replies, bursts, n)
    {
      replies, bursts := ServeNext(u, queue, empty, scheduled, calls, replies, bursts, n);
    }
  }

  /** The server is where the first n calls lead, from this RX queue, with empty or scheduled queues. */
  ghost predicate Follows(u: Usrp, queue: seq<RxStreamingConfig>, empty: bool, scheduled: bool,
                          calls: seq<ServerCall>, replies: seq<Reply>, bursts: seq<BurstRecord>, n: nat)
    reads u, u.Repr
  {
    && u.Valid() && History(queue, calls, replies, bursts, n)
    && InPhase(u, PhaseAfter(calls, replies, n)) && bursts[n] == LastBurst(u)
    && u.rxQueue == QueueAfter(queue, calls, replies, n)
    && (EmptyAfter(empty, calls, replies, n) ==> NothingQueued(u))
    && (scheduled && RfWhenEmpty(empty, calls, replies, n) ==> u.Scheduled())
    && u.replay.rxBlocks.View().Unanswered() + SignalsSince(calls, replies, n)
         <= TotalReplays(u.replay.rxBlocks.replayBlocks)
  }

  method ServeNext(u: Usrp, ghost queue: seq<RxStreamingConfig>, ghost empty: bool, ghost scheduled: bool,
                   calls: seq<ServerCall>, replies: seq<Reply>, ghost bursts: seq<BurstRecord>, n: nat)
    returns (replies': seq<Reply>, ghost bursts': seq<BurstRecord>)
    requires Follows(u, queue, empty, scheduled, calls, replies, bursts, n) && n < |calls| && calls[n].Valid()
    modifies u.Repr
    ensures Follows(u, queue, empty, scheduled, calls, replies', bursts', n + 1)
  {
    var reply := Serve(u, calls[n], PhaseAfter(calls, replies, n));
    HistoryGrows(queue, calls, replies, bursts, n, reply, LastBurst(u));
    RfHistory(empty, calls, replies, n, reply);
    replies', bursts' := replies + [reply], bursts + [LastBurst(u)];
  }

  /** A new server, and any sequence of calls. */
  method RunServer(device: Device, numAntennas: nat, calls: seq<ServerCall>)
    returns (u: Usrp, replies: seq<Reply>, ghost bursts: seq<BurstRecord>)
    requires forall j | 0 <= j < |calls| :: calls[j].Valid()
    ensures u.Valid() && History([], calls, replies, bursts, |calls|)
    ensures SignalsSince(calls, replies, |calls|) <= TotalReplays(u.replay.rxBlocks.replayBlocks)
    ensures RfWhenEmpty(true, calls, replies, |calls|) ==> u.Scheduled()
  {
    u := new Usrp(device, numAntennas);
    replies, bursts := ServeAll(u, calls);
  }

  /** When the queue is changed between a burst and its collect, a collect that succeeds leaves
      recordings for a later one, exactly when it asks for fewer repetitions than were recorded. */
  method CollectAnotherQueue(u: Usrp, conf: RxStreamingConfig, answers: BurstAnswers, downloads: nat -> DownloadAnswer)
    returns (burst: Outcome, accepted: Outcome, r: Result<seq<MimoSignal>>)
    requires u.Valid()
    modifies u.Repr
    ensures u.Valid()
    ensures burst.Pass? && accepted.Pass? && r.Success? ==>
              TotalReplays(RxBlocks(old(u.rxQueue)))
              == TotalReplays(RxBlocks([conf])) + u.replay.rxBlocks.View().Unanswered()
  {
    burst := BurstRecords(u, answers);
    accepted := Exchange(u, conf);
    r := u.Collect(downloads);
  }

  /** A burst whose receive thread does not fail has recorded all repetitions of its queue. */
  method BurstRecords(u: Usrp, answers: BurstAnswers) returns (burst: Outcome)
    requires u.Valid()
    modifies u.Repr
    ensures u.Valid() && u.rxQueue == old(u.rxQueue)
    ensures burst.Pass? && u.rxException.None? ==>
              u.replay.rxBlocks.View().Unanswered() == TotalReplays(RxBlocks(u.rxQueue))
  {
    ghost var run, tx, rx;
    burst, run, tx, rx := u.Execute(answers);
  }

  /** The queues are emptied, and a single RX configuration is set. */
  method Exchange(u: Usrp, conf: RxStreamingConfig) returns (accepted: Outcome)
    requires u.Valid()
    modifies u`txQueue, u`rxQueue, u`txRequests
    ensures u.Valid() && (accepted.Pass? ==> u.rxQueue == [conf])
  {
    u.ResetStreamingConfigs();
    accepted := u.SetRxConfig(conf);
  }
}
