/** The client that drives several devices: registry, clock source, synchronisation and the
    common base time (`System` in usrp_client/system.py). What the devices answer is given: it
    depends on the question, the device and the time. Every call made to them is noted in a log,
    and the main properties are properties of the log. */
module SyncSystem {
  import opened Outcomes
  import opened TimedFlags

  const SYNC_THRESHOLD_SEC: real := 0.2
  const BASE_TIME_OFFSET_SEC: real := 0.5
  const SYNC_ATTEMPTS: nat := 3
  const TIME_BETWEEN_SYNC_ATTEMPTS: real := 0.3
  const SYNC_TIME_OUT: real := 20.0 * 60.0
  const PPS_WAIT_SEC: real := 1.1
  const ATTEMPT_SEC: real := PPS_WAIT_SEC + TIME_BETWEEN_SYNC_ATTEMPTS

  datatype Client = Client(name: string, ip: string, port: int)

  datatype SystemError =
    | DuplicateUsrp
    | RemoteUsrpError(name: string)  // the original gives the name when adding and executing only
    | MultipleRemoteUsrpErrors(names: seq<string>)
    | InternalWithSeveral  // an internal clock was requested for several devices
    | NoClients            // the largest of no times was asked for
    | NotSynchronised
    | ConnectionLost(name: string)  // any exception but a RemoteError

  datatype Try<+T> = Ok(value: T) | Raise(error: SystemError) {
    predicate IsFailure() {
      Raise?
    }

    function PropagateFailure<U>(): Try<U>
      requires Raise?
    {
      Raise(error)
    }

    function Extract(): T
      requires Ok?
    {
      value
    }
  }

  // ---------- The devices ----------

  /** What a device may be asked: to take a clock source, to zero its clock, or for its clock, once
      to compare it and once for the base time. */
  datatype Question = TakeSource | ZeroClock | ClockToCompare | ClockForBase

  datatype Answer = Answer(fails: bool, clock: real)

  /** The answer of every device (by name) at every time. */
  type World = (Question, string, real) -> Answer

  /** What the clocks of these clients show. */
  function Readings(world: World, q: Question, clients: seq<Client>, at: real): (times: seq<real>)
    ensures |times| == |clients|
  {
    seq(|clients|, k requires 0 <= k < |clients| => world(q, clients[k].name, at).clock)
  }

  ghost predicate NoneFails(world: World, q: Question, clients: seq<Client>, n: nat, at: real)
    requires n <= |clients|
  {
    forall k | 0 <= k < n :: !world(q, clients[k].name, at).fails
  }

  /** The error of the first client that fails. */
  ghost predicate FailsFirst(world: World, q: Question, clients: seq<Client>, at: real, e: SystemError) {
    exists k: nat :: FailsAt(world, q, clients, k, at, e)
  }

  ghost predicate FailsAt(world: World, q: Question, clients: seq<Client>, k: nat, at: real, e: SystemError) {
    && k < |clients| && NoneFails(world, q, clients, k, at) && world(q, clients[k].name, at).fails
    && e == RemoteUsrpError(clients[k].name)
  }

  /** An error that a device has answered with, between these times. */
  ghost predicate FromClient(world: World, clients: seq<Client>, lo: real, hi: real, e: SystemError) {
    exists q, at :: lo <= at <= hi && FailsFirst(world, q, clients, at, e)
  }

  lemma FromClientWithin(world: World, clients: seq<Client>, lo: real, hi: real, lo': real, hi': real, e: SystemError)
    requires FromClient(world, clients, lo, hi, e) && lo' <= lo && hi <= hi'
    ensures FromClient(world, clients, lo', hi', e)
  {
    var q, at :| lo <= at <= hi && FailsFirst(world, q, clients, at, e);
    assert lo' <= at <= hi' && FailsFirst(world, q, clients, at, e);
  }

  // ---------- The log ----------

  datatype Call =
    | AddAttempted
    | ConfigsReset(name: string)
    | Added(client: Client)
    | SourceGiven(name: string, source: string)
    | ZeroTimeAsked(name: string)
    | Checked(times: seq<real>, at: real)
    | Queried(times: seq<real>, at: real)
    | Executed(name: string, baseTime: real, at: real)

  datatype Query = Query(times: seq<real>, at: real)

  /** What the log says of the present: the clients; which clock source each was given since the
      last one joined; when the times of all clients were last found close, since the last attempt
      to add and since the last source was given; the query of times for a base time, if nothing but
      execute calls came after it. */
  datatype Summary = Summary(
    members: seq<Client>, given: map<string, string>, lastCheck: Option<real>, query: Option<Query>)

  function Update(s: Summary, c: Call): Summary {
    match c
    case AddAttempted => s.(lastCheck := None, query := None)
    case ConfigsReset(_) => s.(query := None)
    case Added(client) => Summary(s.members + [client], map[], None, None)
    case SourceGiven(name, source) =>
      s.(given := s.given[name := source], lastCheck := None, query := None)
    case ZeroTimeAsked(_) => s.(query := None)
    case Checked(times, at) =>
      if |times| == |s.members| && Close(times) then s.(lastCheck := Some(at), query := None)
      else s.(query := None)
    case Queried(times, at) => s.(query := Some(Query(times, at)))
    case Executed(_, _, _) => s
  }

  function Summarize(log: seq<Call>): Summary {
    if log == [] then Summary([], map[], None, None)
    else Update(Summarize(log[..|log| - 1]), log[|log| - 1])
  }

  lemma SummarizeAppend(log: seq<Call>, c: Call)
    ensures Summarize(log + [c]) == Update(Summarize(log), c)
  {
    assert (log + [c])[..|log|] == log;
  }

  function Max(times: seq<real>): (m: real)
    requires times != []
    ensures m in times && forall t | t in times :: t <= m
  {
    if |times| == 1 then times[0]
    else
      var rest := Max(times[1..]);
      assert forall t | t in times :: t == times[0] || t in times[1..];
      if times[0] >= rest then times[0] else rest
  }

  function Min(times: seq<real>): (m: real)
    requires times != []
    ensures m in times && forall t | t in times :: m <= t
  {
    if |times| == 1 then times[0]
    else
      var rest := Min(times[1..]);
      assert forall t | t in times :: t == times[0] || t in times[1..];
      if times[0] <= rest then times[0] else rest
  }

  predicate Close(times: seq<real>) {
    times != [] && Max(times) - Min(times) < SYNC_THRESHOLD_SEC
  }

  /** Several clients never run on their internal clocks. A request other than "auto" is passed on
      as it is, or else refused. */
  function SourceFor(request: string, clients: nat): (r: Try<string>)
    ensures r.Ok? && clients > 1 ==> r.value != "internal"
    ensures request == "auto" ==> r.Ok? && (r.value == if clients > 1 then "external" else "internal")
    ensures request != "auto" && r.Ok? ==> r.value == request
    ensures r.Raise? <==> request == "internal" && clients > 1
    ensures r.Raise? ==> r.error == InternalWithSeveral
  {
    if request == "auto" then Ok(if clients <= 1 then "internal" else "external")
    else if clients > 1 && request == "internal" then Raise(InternalWithSeveral)
    else Ok(request)
  }

  ghost predicate AllGiven(s: Summary, source: string) {
    FirstGiven(s, |s.members|, source)
  }

  ghost predicate FirstGiven(s: Summary, n: nat, source: string)
    requires n <= |s.members|
  {
    forall k | 0 <= k < n :: s.members[k].name in s.given && s.given[s.members[k].name] == source
  }

  lemma FirstGivenStep(s: Summary, n: nat, source: string)
    requires n < |s.members| && FirstGiven(s, n, source)
    ensures FirstGiven(Update(s, SourceGiven(s.members[n].name, source)), n + 1, source)
  {
  }

  /** Execution at time `at` with this base time is justified by what has happened so far: all
      clients were given their clock source, the clocks of all of them were recently found close,
      and the base time comes from times of all of them, queried now. */
  ghost predicate Justified(request: string, s: Summary, name: string, baseTime: real, at: real) {
    && (exists k :: 0 <= k < |s.members| && s.members[k].name == name)
    && SourceFor(request, |s.members|).Ok? && AllGiven(s, SourceFor(request, |s.members|).value)
    && s.lastCheck.Some? && s.lastCheck.value <= at < s.lastCheck.value + SYNC_TIME_OUT
    && IsBaseTime(s, baseTime, at)
  }

  /** The base time for the times just queried, one of each client, at time `at`. */
  ghost predicate IsBaseTime(s: Summary, baseTime: real, at: real) {
    && s.query.Some? && s.query.value.at == at
    && |s.query.value.times| == |s.members| > 0
    && baseTime == Max(s.query.value.times) + BASE_TIME_OFFSET_SEC
  }

  /** A call that may be made in this situation: execute calls are justified, and the times noted
      are those that the clocks of all clients show. */
  ghost predicate Fits(request: string, world: World, s: Summary, c: Call) {
    match c
    case Executed(name, baseTime, at) => Justified(request, s, name, baseTime, at)
    case Checked(times, at) => times == Readings(world, ClockToCompare, s.members, at)
    case Queried(times, at) => times == Readings(world, ClockForBase, s.members, at)
    case _ => true
  }

  /** Whenever a device was told to execute, that was justified. */
  ghost predicate Safe(request: string, world: World, log: seq<Call>) {
    forall e {:trigger SafeAt(request, world, log, e)} | 0 <= e < |log| :: SafeAt(request, world, log, e)
  }

  ghost predicate SafeAt(request: string, world: World, log: seq<Call>, e: nat)
    requires e < |log|
  {
    Fits(request, world, Summarize(log[..e]), log[e])
  }

  lemma SafeAppend(request: string, world: World, log: seq<Call>, c: Call)
    requires Safe(request, world, log) && Fits(request, world, Summarize(log), c)
    ensures Safe(request, world, log + [c])
  {
    var log' := log + [c];
    forall e | 0 <= e < |log'| ensures SafeAt(request, world, log', e) {
      if e < |log| {
        assert SafeAt(request, world, log, e) && log'[..e] == log[..e];
      } else {
        assert log'[..e] == log;
      }
    }
  }

  // ---------- What the summary says of the log ----------

  /** From here on no one tried to join and no source was given. */
  ghost predicate NoneJoins(log: seq<Call>, from: nat) {
    forall j | from <= j < |log| :: !log[j].Added? && !log[j].AddAttempted? && !log[j].SourceGiven?
  }

  /** Call c compared the clocks of all clients and found them close; no one tried to join since,
      and no source was given. */
  ghost predicate IsCheck(log: seq<Call>, c: nat) {
    && c < |log| && log[c].Checked? && NoneJoins(log, c)
    && |log[c].times| == |Summarize(log).members| && Close(log[c].times)
  }

  lemma {:induction false} LastCheck(log: seq<Call>) returns (c: nat)
    requires Summarize(log).lastCheck.Some?
    ensures IsCheck(log, c) && log[c].at == Summarize(log).lastCheck.value
  {
    var front, last := log[..|log| - 1], log[|log| - 1];
    if last.Checked? && |last.times| == |Summarize(front).members| && Close(last.times) {
      c := |log| - 1;
    } else {
      c := LastCheck(front);
    }
  }

  /** Call q queried the times, and nothing but execute calls came after it. */
  ghost predicate IsQuery(log: seq<Call>, q: nat) {
    q < |log| && log[q].Queried? && forall j | q < j < |log| :: log[j].Executed?
  }

  lemma {:induction false} LastQuery(log: seq<Call>) returns (q: nat)
    requires Summarize(log).query.Some?
    ensures IsQuery(log, q) && Summarize(log).query.value == Query(log[q].times, log[q].at)
  {
    q := |log| - 1;
    if !log[q].Queried? {
      q := LastQuery(log[..|log| - 1]);
    }
  }

  /** Call g gave this client this source; no client joined since, and it was given no other. */
  ghost predicate IsGiving(log: seq<Call>, g: nat, name: string, source: string) {
    && g < |log| && log[g] == SourceGiven(name, source)
    && forall j | g < j < |log| :: !log[j].Added? && !(log[j].SourceGiven? && log[j].name == name)
  }

  /** This client has this source from a call before c. */
  ghost predicate WasGiven(log: seq<Call>, name: string, source: string, c: nat) {
    exists g: nat :: g < c && IsGiving(log, g, name, source)
  }

  lemma {:induction false} LastGiving(log: seq<Call>, name: string) returns (g: nat)
    requires name in Summarize(log).given
    ensures IsGiving(log, g, name, Summarize(log).given[name])
  {
    g := |log| - 1;
    if !(log[g].SourceGiven? && log[g].name == name) {
      g := LastGiving(log[..|log| - 1], name);
    }
  }

  /** Without a client joining, the members stay the same. */
  lemma {:induction false} MembersKept(log: seq<Call>, c: nat)
    requires c <= |log| && forall j | c <= j < |log| :: !log[j].Added?
    ensures Summarize(log).members == Summarize(log[..c]).members
    decreases |log|
  {
    if c == |log| {
      assert log[..c] == log;
    } else {
      var front := log[..|log| - 1];
      MembersKept(front, c);
      assert front[..c] == log[..c];
    }
  }

  /** In a safe log, whoever is told to execute is a client; before it, in this log, every client
      was given the clock source for the present clients after the last of them joined; after that,
      and since anyone tried to join, the clocks of all were compared, less than the time-out ago,
      and found close; and all were asked their times, since when nothing but execute calls was
      made. The base time is the largest of these times plus the offset. The times are those that
      the clocks of all clients showed, and several clients do not run on their internal clocks. */
  lemma ExecutedAfter(request: string, world: World, log: seq<Call>, e: nat) returns (c: nat, q: nat)
    requires Safe(request, world, log) && e < |log| && log[e].Executed?
    ensures var members, before := Summarize(log[..e]).members, log[..e];
            && (exists k :: 0 <= k < |members| && members[k].name == log[e].name)
            && SourceFor(request, |members|).Ok?
            && (|members| > 1 ==> SourceFor(request, |members|).value != "internal")
            && (forall k | 0 <= k < |members| ::
                  WasGiven(before, members[k].name, SourceFor(request, |members|).value, c))
            && IsCheck(before, c) && log[c].at <= log[e].at < log[c].at + SYNC_TIME_OUT
            && log[c].times == Readings(world, ClockToCompare, members, log[c].at)
            && IsQuery(before, q) && |members| > 0 && log[q].at == log[e].at
            && log[q].times == Readings(world, ClockForBase, members, log[q].at)
            && log[e].baseTime == Max(log[q].times) + BASE_TIME_OFFSET_SEC
  {
    assert SafeAt(request, world, log, e);
    var before := log[..e];
    var members := Summarize(before).members;
    c := LastCheck(before);
    q := LastQuery(before);
    assert SafeAt(request, world, log, c) && SafeAt(request, world, log, q);
    MembersKept(before, c);
    MembersKept(before, q);
    assert before[..c] == log[..c] && before[..q] == log[..q];
    forall k | 0 <= k < |members|
      ensures WasGiven(before, members[k].name, SourceFor(request, |members|).value, c)
    {
      assert FirstGiven(Summarize(before), |members|, SourceFor(request, |members|).value);
      var g := LastGiving(before, members[k].name);
    }
  }

  /** The log has grown, by calls other than execute calls. */
  ghost predicate Quiet(log: seq<Call>, log': seq<Call>) {
    log <= log' && forall e | |log| <= e < |log'| :: !log'[e].Executed?
  }

  /** Member k may be told to execute. */
  lemma MemberJustified(request: string, s: Summary, k: nat, baseTime: real, at: real)
    requires k < |s.members| && IsBaseTime(s, baseTime, at)
    requires SourceFor(request, |s.members|).Ok? && AllGiven(s, SourceFor(request, |s.members|).value)
    requires s.lastCheck.Some? && s.lastCheck.value <= at < s.lastCheck.value + SYNC_TIME_OUT
    ensures Justified(request, s, s.members[k].name, baseTime, at)
  {
  }

  /** One comparison of the clocks has been added: of these times, with this result. */
  ghost predicate Compared(log: seq<Call>, log': seq<Call>, times: seq<real>, at: real, close: bool) {
    && |log'| == |log| + 1 && log <= log' && log'[|log|] == Checked(times, at) && (close <==> Close(times))
  }

  /** The log ends with a comparison of these times that found them close. */
  ghost predicate EndsCompared(log: seq<Call>, times: seq<real>, at: real) {
    log != [] && Compared(log[..|log| - 1], log, times, at, true)
  }

  /** All comparisons added found the clocks apart. */
  ghost predicate NoneClose(log: seq<Call>, log': seq<Call>) {
    log <= log' && forall e | |log| <= e < |log'| && log'[e].Checked? :: !Close(log'[e].times)
  }

  /** This many attempts were made, and each found the clocks apart. */
  ghost predicate TriedInVain(log: seq<Call>, log': seq<Call>, since: real, now: real, attempts: nat) {
    && Quiet(log, log') && NoneClose(log, log') && since <= now
    && CheckCount(log') == CheckCount(log) + attempts && now == since + attempts as real * ATTEMPT_SEC
  }

  lemma VainAttempt(log: seq<Call>, log': seq<Call>, log'': seq<Call>, since: real, now: real, later: real, n: nat)
    requires TriedInVain(log, log', since, now, n)
    requires Quiet(log', log'') && NoneClose(log', log'')
    requires CheckCount(log'') == CheckCount(log') + 1 && later == now + ATTEMPT_SEC
    ensures TriedInVain(log, log'', since, later, n + 1)
  {
    NoneCloseTrans(log, log', log'');
    assert (n + 1) as real * ATTEMPT_SEC == n as real * ATTEMPT_SEC + ATTEMPT_SEC;
  }

  lemma NoneCloseTrans(log: seq<Call>, log': seq<Call>, log'': seq<Call>)
    requires NoneClose(log, log') && NoneClose(log', log'')
    ensures NoneClose(log, log'')
  {
  }

  /** The log ends with a query of one time per client, and execute calls to the first n of them at
      the base time for these times. */
  ghost predicate EndsExecuted(log: seq<Call>, clients: seq<Client>, n: nat, times: seq<real>, at: real) {
    && |times| == |clients| > 0 && n <= |clients| && |log| > n
    && log[|log| - n - 1] == Queried(times, at)
    && log[|log| - n..] == ExecuteCalls(clients[..n], Max(times) + BASE_TIME_OFFSET_SEC, at)
  }

  lemma CallsAtEnd(front: seq<Call>, calls: seq<Call>, log: seq<Call>)
    requires front != [] && log == front + calls
    ensures log[|log| - |calls|..] == calls && log[|log| - |calls| - 1] == front[|front| - 1]
  {
  }

  lemma ExecutedEnds(front: seq<Call>, log: seq<Call>, clients: seq<Client>, n: nat, times: seq<real>, at: real)
    requires |times| == |clients| > 0 && front != [] && front[|front| - 1] == Queried(times, at)
    requires n <= |clients| && log == front + ExecuteCalls(clients[..n], Max(times) + BASE_TIME_OFFSET_SEC, at)
    ensures EndsExecuted(log, clients, n, times, at)
  {
    CallsAtEnd(front, ExecuteCalls(clients[..n], Max(times) + BASE_TIME_OFFSET_SEC, at), log);
  }

  ghost predicate SameButQuery(s: Summary, s': Summary) {
    s' == s.(query := s'.query)
  }

  // ---------- Fan-out ----------

  ghost predicate Distinct(clients: seq<Client>) {
    forall i, j | 0 <= i < j < |clients| ::
      clients[i].name != clients[j].name && (clients[i].ip, clients[i].port) != (clients[j].ip, clients[j].port)
  }

  /** The names of the clients that fail, in the order in which they joined. */
  function FailingNames(clients: seq<Client>, fails: set<string>): seq<string> {
    if clients == [] then []
    else
      var before := FailingNames(clients[..|clients| - 1], fails);
      var last := clients[|clients| - 1].name;
      if last in fails then before + [last] else before
  }

  /** An error is reported exactly for the clients that fail. */
  lemma {:induction false} FailingNamesExact(clients: seq<Client>, fails: set<string>, name: string)
    ensures name in FailingNames(clients, fails) <==>
            name in fails && exists k :: 0 <= k < |clients| && clients[k].name == name
  {
    if clients != [] {
      var front := clients[..|clients| - 1];
      FailingNamesExact(front, fails, name);
      assert forall k | 0 <= k < |front| :: front[k] == clients[k];
    }
  }

  /** No client is reported twice. */
  lemma {:induction false} FailingNamesOnce(clients: seq<Client>, fails: set<string>)
    requires Distinct(clients)
    ensures var names := FailingNames(clients, fails);
            forall i, j | 0 <= i < j < |names| :: names[i] != names[j]
  {
    if clients != [] {
      var front, last := clients[..|clients| - 1], clients[|clients| - 1].name;
      FailingNamesOnce(front, fails);
      FailingNamesExact(front, fails, last);
    }
  }

  /** A fan-out calls the first n clients: it stops after the first whose call ends in another
      exception than a RemoteError (`breaks`), or calls all. */
  ghost predicate StopsAfter(clients: seq<Client>, breaks: set<string>, n: nat) {
    && n <= |clients|
    && (n > 0 ==> NoneBreaks(clients, n - 1, breaks))
    && (n < |clients| ==> n > 0 && clients[n - 1].name in breaks)
  }

  ghost predicate NoneBreaks(clients: seq<Client>, n: nat, breaks: set<string>)
    requires n <= |clients|
  {
    forall k | 0 <= k < n :: clients[k].name !in breaks
  }

  /** Every client is called if and only if none before the last breaks the loop. */
  lemma CallsAllIff(clients: seq<Client>, breaks: set<string>, n: nat)
    requires StopsAfter(clients, breaks, n)
    ensures n == |clients| <==> clients == [] || NoneBreaks(clients, |clients| - 1, breaks)
  {
    if n < |clients| {
      assert clients[n - 1].name in breaks;
    }
  }

  /** What a fan-out that called these clients raises. */
  function FanOutResult(called: seq<Client>, fails: set<string>, breaks: set<string>): Try<()> {
    if called != [] && called[|called| - 1].name in breaks then Raise(ConnectionLost(called[|called| - 1].name))
    else if FailingNames(called, fails) == [] then Ok(())
    else Raise(MultipleRemoteUsrpErrors(FailingNames(called, fails)))
  }

  lemma FanOutBreaks(clients: seq<Client>, k: nat, fails: set<string>, breaks: set<string>)
    requires k < |clients| && NoneBreaks(clients, k, breaks) && clients[k].name in breaks
    ensures StopsAfter(clients, breaks, k + 1)
    ensures FanOutResult(clients[..k + 1], fails, breaks) == Raise(ConnectionLost(clients[k].name))
  {
  }

  lemma FanOutEnds(clients: seq<Client>, fails: set<string>, breaks: set<string>)
    requires clients != [] && NoneBreaks(clients, |clients|, breaks)
    ensures StopsAfter(clients, breaks, |clients|) && clients[..|clients|] == clients
    ensures FanOutResult(clients, fails, breaks)
            == if FailingNames(clients, fails) == [] then Ok(())
               else Raise(MultipleRemoteUsrpErrors(FailingNames(clients, fails)))
  {
    assert clients[..|clients|] == clients;
  }

  /** How often the clocks have been compared. */
  function CheckCount(log: seq<Call>): nat {
    if log == [] then 0 else CheckCount(log[..|log| - 1]) + if log[|log| - 1].Checked? then 1 else 0
  }

  lemma {:induction false} CheckCountAdds(log: seq<Call>, more: seq<Call>)
    ensures CheckCount(log + more) == CheckCount(log) + CheckCount(more)
    decreases |more|
  {
    if more == [] {
      assert log + more == log;
    } else {
      var front := more[..|more| - 1];
      CheckCountAdds(log, front);
      assert (log + more)[..|log + more| - 1] == log + front;
    }
  }

  lemma {:induction false} NoChecks(log: seq<Call>)
    requires forall k | 0 <= k < |log| :: !log[k].Checked?
    ensures CheckCount(log) == 0
    decreases |log|
  {
    if log != [] {
      NoChecks(log[..|log| - 1]);
    }
  }

  function SourceCalls(clients: seq<Client>, source: string): (r: seq<Call>)
    ensures forall k | 0 <= k < |r| :: !r[k].Checked?
  {
    seq(|clients|, k requires 0 <= k < |clients| => SourceGiven(clients[k].name, source))
  }

  function ZeroTimeCalls(clients: seq<Client>): (r: seq<Call>)
    ensures forall k | 0 <= k < |r| :: !r[k].Checked?
  {
    seq(|clients|, k requires 0 <= k < |clients| => ZeroTimeAsked(clients[k].name))
  }

  lemma SourcesNoChecks(log: seq<Call>, clients: seq<Client>, source: string)
    ensures var log' := log + SourceCalls(clients, source) + ZeroTimeCalls(clients);
            CheckCount(log') == CheckCount(log) && NoneClose(log, log')
  {
    NoChecks(SourceCalls(clients, source));
    NoChecks(ZeroTimeCalls(clients));
    CheckCountAdds(log, SourceCalls(clients, source));
    CheckCountAdds(log + SourceCalls(clients, source), ZeroTimeCalls(clients));
  }

  /** One execute call per client, in order. */
  function ExecuteCalls(clients: seq<Client>, baseTime: real, at: real): seq<Call> {
    seq(|clients|, k requires 0 <= k < |clients| => Executed(clients[k].name, baseTime, at))
  }

  /** One more client in a fan-out. */
  lemma FanOutStep(log: seq<Call>, log': seq<Call>, errors: seq<string>, clients: seq<Client>, k: nat,
                   baseTime: real, at: real, fails: set<string>)
    requires k < |clients| && FannedOut(log, log', errors, clients[..k], baseTime, at, fails)
    ensures FannedOut(log, log' + [Executed(clients[k].name, baseTime, at)],
                      if clients[k].name in fails then errors + [clients[k].name] else errors,
                      clients[..k + 1], baseTime, at, fails)
  {
    var called, client := clients[..k], clients[k];
    assert clients[..k + 1] == called + [client];
    assert (called + [client])[..|called|] == called;
    assert ExecuteCalls(called + [client], baseTime, at)
        == ExecuteCalls(called, baseTime, at) + [Executed(client.name, baseTime, at)];
  }

  /** These clients have been told to execute, and these errors came back. */
  ghost predicate FannedOut(log: seq<Call>, log': seq<Call>, errors: seq<string>, called: seq<Client>,
                            baseTime: real, at: real, fails: set<string>)
  {
    log' == log + ExecuteCalls(called, baseTime, at) && errors == FailingNames(called, fails)
  }

  class System {
    const request: string
    const world: World
    const flag: TimedFlag
    var clients: seq<Client>
    var syncSourceSet: bool
    ghost var log: seq<Call>

    ghost predicate Valid()
      reads this, flag
    {
      && flag.Valid() && flag.resetTimeSec == SYNC_TIME_OUT
      && Distinct(clients) && Summary().members == clients
      && (syncSourceSet ==>
            SourceFor(request, |clients|).Ok? && AllGiven(Summary(), SourceFor(request, |clients|).value))
      && (flag.value ==>
            && syncSourceSet && Summary().lastCheck.Some?
            && flag.pending[flag.timer] <= Summary().lastCheck.value + SYNC_TIME_OUT)
      && (Summary().lastCheck.Some? ==> Summary().lastCheck.value <= flag.now)
      && Safe(request, world, log)
    }

    ghost function Summary(): Summary
      reads this`log
    {
      Summarize(log)
    }

    /** Why the devices may not be told to execute, other than that their clocks are apart. */
    ghost predicate Refused(lo: real, hi: real, e: SystemError)
      reads this`clients
    {
      SourceFor(request, |clients|) == Raise(e) || ClocksRefused(lo, hi, e)
    }

    ghost predicate ClocksRefused(lo: real, hi: real, e: SystemError)
      reads this`clients
    {
      FromClient(world, clients, lo, hi, e) || (clients == [] && e == NoClients)
    }

    lemma RefusedWithin(lo: real, hi: real, lo': real, hi': real, e: SystemError)
      requires ClocksRefused(lo, hi, e) && lo' <= lo && hi <= hi'
      ensures ClocksRefused(lo', hi', e)
    {
      if FromClient(world, clients, lo, hi, e) {
        FromClientWithin(world, clients, lo, hi, lo', hi', e);
      }
    }

    /** What the clocks to compare show now. */
    ghost function ClocksNow(): seq<real>
      reads this`clients, flag
    {
      Readings(world, ClockToCompare, clients, flag.now)
    }

    constructor (request: string, world: World)
      ensures Valid() && clients == [] && log == [] && fresh(flag)
      ensures this.request == request && this.world == world
    {
      var f := new TimedFlag(SYNC_TIME_OUT);
      this.request, this.world, flag := request, world, f;
      clients, syncSourceSet, log := [], false, [];
    }

    /** Notes a call that may be made. */
    ghost method Note(c: Call)
      requires Safe(request, world, log) && Fits(request, world, Summary(), c)
      modifies this`log
      ensures log == old(log) + [c] && Safe(request, world, log)
      ensures Summary() == Update(old(Summary()), c)
    {
      SummarizeAppend(log, c);
      SafeAppend(request, world, log, c);
      log := log + [c];
    }

    ghost method NoteExecuted(k: nat, baseTime: real)
      requires Valid() && syncSourceSet && flag.value && k < |clients|
      requires IsBaseTime(Summary(), baseTime, flag.now)
      modifies this`log
      ensures Valid() && Summary() == old(Summary())
      ensures log == old(log) + [Executed(clients[k].name, baseTime, flag.now)]
    {
      MemberJustified(request, Summary(), k, baseTime, flag.now);
      Note(Executed(clients[k].name, baseTime, flag.now));
    }

    /** Registers a device, unless its name or address is taken or it reports an error
        (`remoteFails`). The devices count as unsynchronised either way. */
    method AddUsrp(client: Client, remoteFails: bool) returns (r: Try<Client>)
      requires Valid()
      modifies this, flag
      ensures Valid() && !flag.value
      ensures r.Ok? <==> !remoteFails && Distinct(old(clients) + [client])
      ensures r.Ok? ==> clients == old(clients) + [client] && !syncSourceSet
      ensures log == old(log) + if r.Ok? then [AddAttempted, ConfigsReset(client.name), Added(client)]
                                else [AddAttempted]
      ensures r.Raise? ==> clients == old(clients) && syncSourceSet == old(syncSourceSet)
      ensures r.Raise? ==> r.error == if Distinct(old(clients) + [client]) then RemoteUsrpError(client.name)
                                      else DuplicateUsrp
    {
      flag.Reset();
      Note(AddAttempted);
      var duplicate := IsTaken(client);
      if duplicate {
        return Raise(DuplicateUsrp);
      }
      if remoteFails {
        return Raise(RemoteUsrpError(client.name));
      }
      Note(ConfigsReset(client.name));
      clients := clients + [client];
      Note(Added(client));
      syncSourceSet := false;
      return Ok(client);
    }

    method IsTaken(client: Client) returns (taken: bool)
      requires Distinct(clients)
      ensures taken <==> !Distinct(clients + [client])
    {
      taken := false;
      ghost var all := clients + [client];
      for k := 0 to |clients|
        invariant taken <==> exists i | 0 <= i < k ::
                    clients[i].name == client.name || (clients[i].ip, clients[i].port) == (client.ip, client.port)
      {
        if clients[k].name == client.name || (clients[k].ip == client.ip && clients[k].port == client.port) {
          taken := true;
        }
      }
      if taken {
        var i :| 0 <= i < |clients|
                 && (clients[i].name == client.name || (clients[i].ip, clients[i].port) == (client.ip, client.port));
        assert all[i] == clients[i] && all[|clients|] == client;
      } else {
        assert forall i | 0 <= i < |clients| :: all[i] == clients[i];
      }
    }

    /** Time passes between or during calls. */
    method Sleep(d: real)
      requires Valid() && d >= 0.0
      modifies flag
      ensures Valid() && flag.now == old(flag.now) + d
    {
      flag.Elapse(d);
    }

    method CalculateSyncSource() returns (r: Try<string>)
      ensures r == SourceFor(request, |clients|)
    {
      var source;
      if request == "auto" {
        source := if |clients| <= 1 then "internal" else "external";
      } else {
        source := request;
        if |clients| > 1 && source == "internal" {
          return Raise(InternalWithSeveral);
        }
      }
      r := Ok(source);
    }

    /** Gives every device its clock source, unless this has been done for the present devices. */
    method UpdateSyncSources() returns (r: Try<()>)
      requires Valid()
      modifies this`syncSourceSet, this`log, flag
      ensures Valid() && Quiet(old(log), log) && old(flag.now) <= flag.now
      ensures syncSourceSet <==> r.Ok?
      ensures old(syncSourceSet) ==> r.Ok? && log == old(log) && flag.State() == old(flag.State())
      ensures r.Ok? && !old(syncSourceSet) ==>
                && SourceFor(request, |clients|).Ok?
                && log == old(log) + SourceCalls(clients, SourceFor(request, |clients|).value) + ZeroTimeCalls(clients)
                && NoneFails(world, TakeSource, clients, |clients|, old(flag.now))
                && NoneFails(world, ZeroClock, clients, |clients|, old(flag.now))
                && flag.now == old(flag.now) + PPS_WAIT_SEC
      ensures r.Raise? ==>
                || SourceFor(request, |clients|) == Raise(r.error)
                || FromClient(world, clients, old(flag.now), flag.now, r.error)
      ensures r.Ok? ==> CheckCount(log) == CheckCount(old(log)) && NoneClose(old(log), log)
    {
      if syncSourceSet {
        return Ok(());
      }
      var source :- CalculateSyncSource();
      var _ :- GiveSources(source);
      var _ :- SetTimeToZeroNextPps();
      SourcesNoChecks(old(log), clients, source);
      syncSourceSet := true;
      r := Ok(());
    }

    method GiveSources(source: string) returns (r: Try<()>)
      requires Valid() && !syncSourceSet
      modifies this`log
      ensures Valid() && Quiet(old(log), log)
      ensures r.Ok? <==> NoneFails(world, TakeSource, clients, |clients|, flag.now)
      ensures r.Ok? ==> AllGiven(Summary(), source) && log == old(log) + SourceCalls(clients, source)
      ensures r.Raise? ==> FailsFirst(world, TakeSource, clients, flag.now, r.error)
    {
      for k := 0 to |clients|
        invariant Valid() && NoneFails(world, TakeSource, clients, k, flag.now)
        invariant Giving(old(log), k, source)
      {
        if world(TakeSource, clients[k].name, flag.now).fails {
          assert FailsAt(world, TakeSource, clients, k, flag.now, RemoteUsrpError(clients[k].name));
          return Raise(RemoteUsrpError(clients[k].name));
        }
        GiveSource(k, source, old(log));
      }
      r := Ok(());
    }

    /** The first k clients have been given this source. */
    ghost predicate Giving(log0: seq<Call>, k: nat, source: string)
      reads this`clients, this`log
    {
      && k <= |clients| && Summary().members == clients && FirstGiven(Summary(), k, source)
      && Quiet(log0, log) && log == log0 + SourceCalls(clients, source)[..k]
    }

    method GiveSource(k: nat, source: string, ghost log0: seq<Call>)
      requires Valid() && !syncSourceSet && k < |clients| && Giving(log0, k, source)
      modifies this`log
      ensures Valid() && Giving(log0, k + 1, source)
    {
      FirstGivenStep(Summary(), k, source);
      Note(SourceGiven(clients[k].name, source));
    }

    /** Asks every device to zero its clock at the next pulse, and waits for the pulse. */
    method SetTimeToZeroNextPps() returns (r: Try<()>)
      requires Valid()
      modifies this`log, flag
      ensures Valid() && Quiet(old(log), log)
      ensures SameButQuery(old(Summary()), Summary())
      ensures r.Ok? <==> NoneFails(world, ZeroClock, clients, |clients|, old(flag.now))
      ensures r.Raise? ==> FailsFirst(world, ZeroClock, clients, old(flag.now), r.error) && flag.now == old(flag.now)
      ensures r.Ok? ==> log == old(log) + ZeroTimeCalls(clients) && flag.now == old(flag.now) + PPS_WAIT_SEC
    {
      for k := 0 to |clients|
        invariant Valid() && Quiet(old(log), log) && SameButQuery(old(Summary()), Summary())
        invariant NoneFails(world, ZeroClock, clients, k, flag.now)
        invariant log == old(log) + ZeroTimeCalls(clients)[..k]
        invariant flag.State() == old(flag.State())
      {
        if world(ZeroClock, clients[k].name, flag.now).fails {
          assert FailsAt(world, ZeroClock, clients, k, flag.now, RemoteUsrpError(clients[k].name));
          return Raise(RemoteUsrpError(clients[k].name));
        }
        Note(ZeroTimeAsked(clients[k].name));
      }
      Sleep(PPS_WAIT_SEC);
      r := Ok(());
    }

    /** What the clocks of all devices show now, in the order in which the devices joined. */
    method GetCurrentFpgaTimes(q: Question) returns (r: Try<seq<real>>)
      ensures r.Ok? <==> NoneFails(world, q, clients, |clients|, flag.now)
      ensures r.Ok? ==> r.value == Readings(world, q, clients, flag.now)
      ensures r.Raise? ==> FailsFirst(world, q, clients, flag.now, r.error)
    {
      var times: seq<real> := [];
      for k := 0 to |clients|
        invariant times == Readings(world, q, clients, flag.now)[..k]
        invariant NoneFails(world, q, clients, k, flag.now)
      {
        var answer := world(q, clients[k].name, flag.now);
        if answer.fails {
          assert FailsAt(world, q, clients, k, flag.now, RemoteUsrpError(clients[k].name));
          return Raise(RemoteUsrpError(clients[k].name));
        }
        times := times + [answer.clock];
      }
      r := Ok(times);
    }

    method SynchronisationValid() returns (r: Try<bool>)
      requires Valid()
      modifies this`log
      ensures Valid() && Quiet(old(log), log)
      ensures r.Ok? <==> clients != [] && NoneFails(world, ClockToCompare, clients, |clients|, flag.now)
      ensures r.Ok? ==> (r.value <==> Close(ClocksNow())) && Compared(old(log), log, ClocksNow(), flag.now, r.value)
      ensures r.Ok? ==> CheckCount(log) == CheckCount(old(log)) + 1
      ensures r.Ok? && r.value ==> SameButQuery(old(Summary()).(lastCheck := Some(flag.now)), Summary())
      ensures !(r.Ok? && r.value) ==> SameButQuery(old(Summary()), Summary())
      ensures r.Raise? ==> log == old(log) && ClocksRefused(flag.now, flag.now, r.error)
    {
      var times :- GetCurrentFpgaTimes(ClockToCompare);
      if times == [] {
        return Raise(NoClients);
      }
      Note(Checked(times, flag.now));
      assert log[..|log| - 1] == old(log);
      r := Ok(Max(times) - Min(times) < SYNC_THRESHOLD_SEC);
    }

    /** Checks the clocks, and tries to set them if they are apart, unless they were found close
        within the time-out. */
    method SynchronizeClocks() returns (r: Try<()>)
      requires Valid() && syncSourceSet
      modifies this`log, flag
      ensures Valid() && Quiet(old(log), log) && old(flag.now) <= flag.now
      ensures r.Ok? ==> flag.value
      ensures old(flag.value) ==> r.Ok? && log == old(log) && flag.State() == old(flag.State())
      ensures r.Ok? && !old(flag.value) ==>
                && EndsCompared(log, ClocksNow(), flag.now)
                && CheckCount(log) <= CheckCount(old(log)) + 1 + SYNC_ATTEMPTS
      ensures r == Raise(NotSynchronised) ==>
                && CheckCount(log) == CheckCount(old(log)) + 1 + SYNC_ATTEMPTS && NoneClose(old(log), log)
                && SameButQuery(old(Summary()), Summary())
                && flag.now == old(flag.now) + SYNC_ATTEMPTS as real * ATTEMPT_SEC
      ensures r.Raise? && r.error != NotSynchronised ==> ClocksRefused(old(flag.now), flag.now, r.error)
    {
      var synced := flag.IsSet();
      if synced {
        return Ok(());
      }
      r := SetFlagIfClose();
      if r == Raise(NotSynchronised) {
        ghost var looked := log;
        r := RetrySynchronization();
        if r == Raise(NotSynchronised) {
          NoneCloseTrans(old(log), looked, log);
        }
      }
    }

    /** Attempts until the clocks are close, a device fails or all attempts are used up. */
    method RetrySynchronization() returns (r: Try<()>)
      requires Valid() && syncSourceSet
      modifies this`log, flag
      ensures Valid() && Quiet(old(log), log) && old(flag.now) <= flag.now
      ensures r.Ok? ==>
                && flag.value && EndsCompared(log, ClocksNow(), flag.now)
                && CheckCount(log) <= CheckCount(old(log)) + SYNC_ATTEMPTS
      ensures r == Raise(NotSynchronised) ==>
                && CheckCount(log) == CheckCount(old(log)) + SYNC_ATTEMPTS && NoneClose(old(log), log)
                && SameButQuery(old(Summary()), Summary())
                && flag.now == old(flag.now) + SYNC_ATTEMPTS as real * ATTEMPT_SEC
      ensures r.Raise? && r.error != NotSynchronised ==> ClocksRefused(old(flag.now), flag.now, r.error)
    {
      for attempt := 0 to SYNC_ATTEMPTS
        invariant Valid() && SameButQuery(old(Summary()), Summary())
        invariant TriedInVain(old(log), log, old(flag.now), flag.now, attempt)
      {
        ghost var before, lo := log, flag.now;
        r := TryToSynchronize();
        if r.Ok? {
          return;
        }
        if r.error != NotSynchronised {
          RefusedWithin(lo, flag.now, old(flag.now), flag.now, r.error);
          return;
        }
        VainAttempt(old(log), before, log, old(flag.now), lo, flag.now, attempt);
      }
      r := Raise(NotSynchronised);
    }

    /** One attempt: set all clocks at the next pulse, and look. */
    method TryToSynchronize() returns (r: Try<()>)
      requires Valid() && syncSourceSet
      modifies this`log, flag
      ensures Valid() && Quiet(old(log), log) && old(flag.now) <= flag.now
      ensures r.Ok? ==>
                && flag.value && EndsCompared(log, ClocksNow(), flag.now)
                && CheckCount(log) == CheckCount(old(log)) + 1
      ensures r == Raise(NotSynchronised) ==>
                && CheckCount(log) == CheckCount(old(log)) + 1 && NoneClose(old(log), log)
                && SameButQuery(old(Summary()), Summary())
                && flag.now == old(flag.now) + ATTEMPT_SEC
      ensures r.Raise? && r.error != NotSynchronised ==> ClocksRefused(old(flag.now), flag.now, r.error)
    {
      var _ :- SetTimeToZeroNextPps();
      NoChecks(ZeroTimeCalls(clients));
      CheckCountAdds(old(log), ZeroTimeCalls(clients));
      ghost var zeroed := log;
      r := SetFlagIfClose();
      if r == Raise(NotSynchronised) {
        NoneCloseTrans(old(log), zeroed, log);
        Sleep(TIME_BETWEEN_SYNC_ATTEMPTS);
      }
    }

    /** One look at the clocks. */
    method SetFlagIfClose() returns (r: Try<()>)
      requires Valid() && syncSourceSet
      modifies this`log, flag
      ensures Valid() && Quiet(old(log), log) && flag.now == old(flag.now)
      ensures r.Ok? ==> flag.value && EndsCompared(log, ClocksNow(), flag.now)
      ensures r.Ok? || r == Raise(NotSynchronised) ==>
                Compared(old(log), log, ClocksNow(), flag.now, r.Ok?) && CheckCount(log) == CheckCount(old(log)) + 1
      ensures r == Raise(NotSynchronised) ==> NoneClose(old(log), log)
      ensures r.Raise? ==> SameButQuery(old(Summary()), Summary()) && flag.State() == old(flag.State())
      ensures r.Raise? && r.error != NotSynchronised ==> ClocksRefused(flag.now, flag.now, r.error)
    {
      var valid :- SynchronisationValid();
      assert log[..|log| - 1] == old(log);
      if !valid {
        return Raise(NotSynchronised);
      }
      flag.Set();
      r := Ok(());
    }

    /** What it means that the clocks are given up as apart. */
    ghost predicate GivenUp(log0: seq<Call>)
      reads this`log
    {
      CheckCount(log) == CheckCount(log0) + 1 + SYNC_ATTEMPTS && NoneClose(log0, log)
    }

    method SynchronizeUsrps() returns (r: Try<()>)
      requires Valid()
      modifies this`syncSourceSet, this`log, flag
      ensures Valid() && Quiet(old(log), log) && old(flag.now) <= flag.now
      ensures r.Ok? ==> syncSourceSet && flag.value
      ensures old(flag.value) ==> r.Ok? && log == old(log)
      ensures r == Raise(NotSynchronised) ==> GivenUp(old(log))
      ensures r.Raise? && r.error != NotSynchronised ==> Refused(old(flag.now), flag.now, r.error)
    {
      var _ :- UpdateSyncSources();
      ghost var updated := log;
      r := SynchronizeClocks();
      if r == Raise(NotSynchronised) {
        NoneCloseTrans(old(log), updated, log);
      }
    }

    /** The base time for times queried now, one of each device. */
    method CalculateBaseTimeSec() returns (r: Try<real>, ghost times: seq<real>)
      requires Valid()
      modifies this`log
      ensures Valid() && Quiet(old(log), log)
      ensures r.Ok? <==> clients != [] && NoneFails(world, ClockForBase, clients, |clients|, flag.now)
      ensures r.Ok? ==>
                && times == Readings(world, ClockForBase, clients, flag.now)
                && log == old(log) + [Queried(times, flag.now)]
                && r.value == Max(times) + BASE_TIME_OFFSET_SEC
                && Summary() == old(Summary()).(query := Some(Query(times, flag.now)))
      ensures r.Raise? ==> ClocksRefused(flag.now, flag.now, r.error)
    {
      times := [];
      var currentTimes :- GetCurrentFpgaTimes(ClockForBase);
      if currentTimes == [] {
        return Raise(NoClients), [];
      }
      times := currentTimes;
      Note(Queried(times, flag.now));
      r := Ok(Max(currentTimes) + BASE_TIME_OFFSET_SEC);
    }

    /** Tells every device to execute at a common base time. Devices in `fails` report an error: all
        devices are told nevertheless, and all errors are raised together. The call to a device in
        `breaks` ends in another exception, which is raised at once. */
    method Execute(fails: set<string>, breaks: set<string>)
      returns (r: Try<()>, ghost n: nat, ghost times: seq<real>)
      requires Valid()
      modifies this`syncSourceSet, this`log, flag
      ensures Valid()
      ensures n > 0 ==>
                && times == Readings(world, ClockForBase, clients, flag.now)
                && EndsExecuted(log, clients, n, times, flag.now)
                && StopsAfter(clients, breaks, n) && r == FanOutResult(clients[..n], fails, breaks)
      ensures n == 0 ==> r.Raise? && Quiet(old(log), log)
      ensures n == 0 && r == Raise(NotSynchronised) ==> !old(flag.value) && GivenUp(old(log))
      ensures n == 0 && r != Raise(NotSynchronised) ==> Refused(old(flag.now), flag.now, r.error)
      ensures clients == [] ==> n == 0
    {
      n, times := 0, [];
      var _ :- SynchronizeUsrps();
      var baseTime;
      baseTime, times :- CalculateBaseTimeSec();
      ghost var queried := log;
      r, n := FanOut(baseTime, fails, breaks);
      ExecutedEnds(queried, log, clients, n, times, flag.now);
    }

    /** Calls one device after the other, whether or not earlier ones report errors. */
    method FanOut(baseTime: real, fails: set<string>, breaks: set<string>) returns (r: Try<()>, n: nat)
      requires Valid() && syncSourceSet && flag.value
      requires IsBaseTime(Summary(), baseTime, flag.now)
      modifies this`log
      ensures Valid() && n > 0 && StopsAfter(clients, breaks, n)
      ensures log == old(log) + ExecuteCalls(clients[..n], baseTime, flag.now)
      ensures r == FanOutResult(clients[..n], fails, breaks)
    {
      var errors, broken;
      errors, broken, n := CallInOrder(baseTime, fails, breaks);
      if broken {
        FanOutBreaks(clients, n - 1, fails, breaks);
        return Raise(ConnectionLost(clients[n - 1].name)), n;
      }
      FanOutEnds(clients, fails, breaks);
      r := if errors == [] then Ok(()) else Raise(MultipleRemoteUsrpErrors(errors));
    }

    /** The loop of a fan-out: how far it comes, and the errors it has gathered. */
    method CallInOrder(baseTime: real, fails: set<string>, breaks: set<string>)
      returns (errors: seq<string>, broken: bool, n: nat)
      requires Valid() && syncSourceSet && flag.value
      requires IsBaseTime(Summary(), baseTime, flag.now)
      modifies this`log
      ensures Valid() && n <= |clients|
      ensures log == old(log) + ExecuteCalls(clients[..n], baseTime, flag.now)
      ensures broken ==> n > 0 && NoneBreaks(clients, n - 1, breaks) && clients[n - 1].name in breaks
      ensures !broken ==>
                n == |clients| && NoneBreaks(clients, n, breaks) && errors == FailingNames(clients[..n], fails)
    {
      errors := [];
      for k := 0 to |clients|
        invariant Valid() && Summary() == old(Summary())
        invariant FannedOut(old(log), log, errors, clients[..k], baseTime, flag.now, fails)
        invariant NoneBreaks(clients, k, breaks)
      {
        errors := CallOne(k, baseTime, fails, errors, old(log));
        if clients[k].name in breaks {
          return errors, true, k + 1;
        }
      }
      broken, n := false, |clients|;
    }

    /** One more call, and the errors reported so far. */
    method CallOne(k: nat, baseTime: real, fails: set<string>, before: seq<string>, ghost log0: seq<Call>)
      returns (errors: seq<string>)
      requires Valid() && syncSourceSet && flag.value && k < |clients|
      requires IsBaseTime(Summary(), baseTime, flag.now)
      requires FannedOut(log0, log, before, clients[..k], baseTime, flag.now, fails)
      modifies this`log
      ensures Valid() && Summary() == old(Summary())
      ensures FannedOut(log0, log, errors, clients[..k + 1], baseTime, flag.now, fails)
    {
      FanOutStep(log0, log, before, clients, k, baseTime, flag.now, fails);
      NoteExecuted(k, baseTime);
      errors := if clients[k].name in fails then before + [clients[k].name] else before;
    }
  }
}
