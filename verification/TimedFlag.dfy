/** A flag that clears itself some time after it was set (`TimedFlag` in usrp_client/system.py).
    Every set starts a timer of its own; timers fire on time; `Elapse` is the passing of time. */
module TimedFlags {
  import opened Outcomes

  /** Timers are numbered in the order in which they are created. `pending` holds the deadlines of
      those that have been started and have neither fired nor been cancelled; any of them clears
      the flag when it fires. `timer` is the only one the flag still has a reference to. */
  datatype FlagState = FlagState(now: real, value: bool, pending: map<nat, real>, timer: nat, created: nat) {
    /** Cancels the timer referred to, and starts another. */
    function Set(resetTimeSec: real): FlagState {
      FlagState(now, true, (pending - {timer})[created := now + resetTimeSec], created, created + 1)
    }

    /** Cancels nothing. */
    function Reset(): FlagState {
      this.(value := false)
    }

    function Due(d: real): set<nat> {
      set i | i in pending && pending[i] <= now + d
    }

    /** All timers that are due fire. */
    function Elapse(d: real): FlagState {
      this.(now := now + d, value := value && Due(d) == {}, pending := pending - Due(d))
    }
  }

  /** Timer 0 is created with the flag and never started. */
  const INITIAL_FLAG := FlagState(0.0, false, map[], 0, 1)

  datatype FlagEvent = SetFlag | ResetFlag | TimePasses(d: real)

  /** The flag after a history of events, the latest of which comes last. */
  function AfterEvents(events: seq<FlagEvent>, resetTimeSec: real): FlagState {
    if events == [] then INITIAL_FLAG
    else
      var before := AfterEvents(events[..|events| - 1], resetTimeSec);
      match events[|events| - 1]
      case SetFlag => before.Set(resetTimeSec)
      case ResetFlag => before.Reset()
      case TimePasses(d) => before.Elapse(d)
  }

  /** How long ago the flag was last set, if it has not been reset since. */
  function Age(events: seq<FlagEvent>): Option<real> {
    if events == [] then None
    else match events[|events| - 1]
      case SetFlag => Some(0.0)
      case ResetFlag => None
      case TimePasses(d) =>
        var before := Age(events[..|events| - 1]);
        if before.Some? then Some(before.value + d) else None
  }

  ghost predicate TimeRunsForward(events: seq<FlagEvent>) {
    forall k | 0 <= k < |events| && events[k].TimePasses? :: events[k].d >= 0.0
  }

  /** After every history no timer but that of the latest set can still fire. */
  lemma {:induction false} OnlyLatestPending(events: seq<FlagEvent>, resetTimeSec: real)
    ensures var flag := AfterEvents(events, resetTimeSec);
            flag.pending.Keys <= {flag.timer} && flag.timer < flag.created
  {
    if events != [] {
      OnlyLatestPending(events[..|events| - 1], resetTimeSec);
    }
  }

  /** After every history the flag shows exactly whether it was set less than the reset time ago
      and not reset since: a timer that outlives a reset never clears a flag set later. The timer
      of the latest set is pending exactly until the flag it set has come to its age. */
  lemma {:induction false} ShowsRecentSet(events: seq<FlagEvent>, resetTimeSec: real)
    requires resetTimeSec > 0.0 && TimeRunsForward(events)
    ensures var flag, age := AfterEvents(events, resetTimeSec), Age(events);
            && (flag.value <==> age.Some? && age.value < resetTimeSec)
            && (age.Some? ==>
                  && age.value >= 0.0
                  && (flag.timer in flag.pending <==> age.value < resetTimeSec)
                  && (flag.timer in flag.pending ==> flag.pending[flag.timer] == flag.now - age.value + resetTimeSec))
  {
    if events != [] {
      var front := events[..|events| - 1];
      ShowsRecentSet(front, resetTimeSec);
      OnlyLatestPending(front, resetTimeSec);
      var before := AfterEvents(front, resetTimeSec);
      if events[|events| - 1].TimePasses? {
        OnlyTimerDue(before, events[|events| - 1].d);
      }
    }
  }

  /** When only the timer referred to is pending, it alone decides what the passing of time does. */
  lemma OnlyTimerDue(flag: FlagState, d: real)
    requires flag.pending.Keys <= {flag.timer}
    ensures flag.Due(d) == if flag.timer in flag.pending && flag.pending[flag.timer] <= flag.now + d then {flag.timer}
                           else {}
  {
  }

  /** That Set cancels is needed: had an older timer been left pending, it would clear the flag
      before its time. */
  lemma StaleTimerClears(flag: FlagState, stale: nat, resetTimeSec: real)
    requires stale in flag.pending && stale != flag.timer && stale < flag.created && resetTimeSec > 0.0
    requires flag.now < flag.pending[stale] < flag.now + resetTimeSec
    ensures !flag.Set(resetTimeSec).Elapse(flag.pending[stale] - flag.now).value
  {
    assert stale in flag.Set(resetTimeSec).Due(flag.pending[stale] - flag.now);
  }

  class TimedFlag {
    const resetTimeSec: real
    var value: bool
    var pending: map<nat, real>
    var timer: nat
    var created: nat
    var now: real

    ghost predicate Valid()
      reads this
    {
      && resetTimeSec > 0.0
      && pending.Keys <= {timer} && timer < created
      && (timer in pending ==> now < pending[timer] <= now + resetTimeSec)
      && (value ==> timer in pending)
    }

    ghost function State(): FlagState
      reads this
    {
      FlagState(now, value, pending, timer, created)
    }

    constructor (resetTimeSec: real)
      requires resetTimeSec > 0.0
      ensures Valid() && State() == INITIAL_FLAG && this.resetTimeSec == resetTimeSec
    {
      this.resetTimeSec := resetTimeSec;
      value, pending, timer, created, now := false, map[], 0, 1, 0.0;
    }

    method Set()
      requires Valid()
      modifies this
      ensures Valid() && State() == old(State()).Set(resetTimeSec)
    {
      value := true;
      StartTimer();
    }

    method Reset()
      requires Valid()
      modifies this
      ensures Valid() && State() == old(State()).Reset()
    {
      value := false;
    }

    /** Cancels the timer referred to and starts a new one. */
    method StartTimer()
      modifies this`pending, this`timer, this`created
      ensures timer == old(created) && created == old(created) + 1
      ensures pending == (old(pending) - {old(timer)})[timer := now + resetTimeSec]
    {
      pending := pending - {timer};
      timer, created := created, created + 1;
      pending := pending[timer := now + resetTimeSec];
    }

    /** Time passes; each timer that is due clears the flag. */
    method Elapse(d: real)
      requires Valid() && d >= 0.0
      modifies this
      ensures Valid() && State() == old(State()).Elapse(d)
    {
      var due := set i | i in pending && pending[i] <= now + d;
      OnlyTimerDue(State(), d);
      now, value, pending := now + d, value && due == {}, pending - due;
    }

    method IsSet() returns (b: bool)
      ensures b == value
    {
      b := value;
    }
  }
}
