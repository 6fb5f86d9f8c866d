/** handlePollErrors: three maps of per-partition error state, the throttled log and the bail decision.
    First the step as a function and the code that computes it; the histories it answers to are in
    PollHistory. */
module PollErrors {
  import opened Prelude
  import opened Keys

  /** Nanoseconds, as in Go's time.Duration. */
  const SECOND := 1_000_000_000
  const MINUTE := 60 * SECOND
  const HOUR := 60 * MINUTE

  datatype Settings = Settings(logInterval: int, bailAfter: int)

  datatype Origin = Origin(topic: string, partition: int)

  datatype PartitionError = PartitionError(at: Origin, err: FetchErr)

  /** One poll as handlePollErrors sees it: the clock, where its records came from, and its errors. */
  datatype Observation = Observation(now: int, records: seq<Origin>, errors: seq<PartitionError>)

  /** An error line: where, for how long it has been failing, and the error. */
  datatype LogLine = LogLine(at: Origin, failingFor: int, err: FetchErr)

  datatype BailReason = BailReason(at: Origin, err: FetchErr)

  datatype Tracker = Tracker(since: map<string, int>, logged: map<string, int>, lastId: map<string, string>)

  /** The state of one pass over a poll's errors. */
  datatype Pass = Pass(tracker: Tracker, lines: seq<LogLine>, sawErr: bool, bail: Option<BailReason>)

  const NoErrors := Tracker(map[], map[], map[])

  function KeyOf(o: Origin): string {
    Key(o.topic, o.partition)
  }

  function LogEvery(s: Settings): (d: int)
    ensures s.logInterval > 0 ==> d == s.logInterval
    ensures s.logInterval <= 0 ==> d == 1_000_000_000
  {
    if s.logInterval <= 0 then SECOND else s.logInterval
  }

  /** The keys of the partitions that delivered a record. */
  function Recovered(records: seq<Origin>): (keys: set<string>)
    ensures forall o | o in records :: KeyOf(o) in keys
  {
    if records == [] then {} else Recovered(records[..|records| - 1]) + {KeyOf(records[|records| - 1])}
  }

  lemma {:induction false} RecoveredOnly(records: seq<Origin>, key: string)
    requires key in Recovered(records)
    ensures exists o :: o in records && KeyOf(o) == key
  {
    if key == KeyOf(records[|records| - 1]) {
      assert records[|records| - 1] in records;
    } else {
      RecoveredOnly(records[..|records| - 1], key);
    }
  }

  function Forget(t: Tracker, keys: set<string>): Tracker {
    Tracker(t.since - keys, t.logged - keys, t.lastId - keys)
  }

  function StreakStart(t: Tracker, key: string, now: int): int {
    if key in t.since then t.since[key] else now
  }

  function Throttled(s: Settings, t: Tracker, key: string, id: string, now: int): bool {
    && key in t.logged
    && id == (if key in t.lastId then t.lastId[key] else "")
    && now - t.logged[key] < LogEvery(s)
  }

  /** One visit of EachError. */
  function OnError(s: Settings, recovered: set<string>, now: int, p: Pass, e: PartitionError): Pass {
    var key := KeyOf(e.at);
    if e.err.isDeadline || key in recovered then p
    else
      var since := StreakStart(p.tracker, key, now);
      var id := ErrIdentity(e.err);
      var log := !Throttled(s, p.tracker, key, id, now);
      Pass(Tracker(p.tracker.since[key := since],
                   if log then p.tracker.logged[key := now] else p.tracker.logged,
                   if log then p.tracker.lastId[key := id] else p.tracker.lastId),
           if log then p.lines + [LogLine(e.at, now - since, e.err)] else p.lines,
           true,
           if s.bailAfter > 0 && now - since >= s.bailAfter then Some(BailReason(e.at, e.err)) else p.bail)
  }

  function OnErrors(s: Settings, recovered: set<string>, now: int, p: Pass, errors: seq<PartitionError>): Pass {
    if errors == [] then p
    else OnError(s, recovered, now, OnErrors(s, recovered, now, p, errors[..|errors| - 1]), errors[|errors| - 1])
  }

  /** One poll, always building the recovered set. */
  function Step(s: Settings, t: Tracker, o: Observation): Pass {
    var recovered := Recovered(o.records);
    OnErrors(s, recovered, o.now, Pass(Forget(t, recovered), [], false, None), o.errors)
  }

  /** The code's guard: something to clear, or something to excuse. */
  predicate NeedsRecovered(t: Tracker, o: Observation) {
    o.errors != [] || |t.since| > 0 || |t.logged| > 0 || |t.lastId| > 0
  }

  /** One poll as the code runs it: without a recovered set when the guard sees no use for one. */
  function GuardedStep(s: Settings, t: Tracker, o: Observation): Pass {
    if NeedsRecovered(t, o) then Step(s, t, o)
    else OnErrors(s, {}, o.now, Pass(t, [], false, None), o.errors)
  }

  /** The guard changes nothing: maps, log lines, bail decision and result are those of always building
      the set. */
  lemma GuardRefines(s: Settings, t: Tracker, o: Observation)
    ensures GuardedStep(s, t, o) == Step(s, t, o)
  {
    if !NeedsRecovered(t, o) {
      assert t.since == map[] && t.logged == map[] && t.lastId == map[];
      assert Forget(t, Recovered(o.records)) == t;
    }
  }

  // ---------------------------------------------------------------------------------------------
  // The three maps move together
  // ---------------------------------------------------------------------------------------------

  predicate SameDomains(t: Tracker) {
    t.since.Keys == t.logged.Keys == t.lastId.Keys
  }

  lemma {:induction false} OnErrorsKeepsDomains(s: Settings, recovered: set<string>, now: int, p: Pass, errors: seq<PartitionError>)
    requires SameDomains(p.tracker)
    ensures SameDomains(OnErrors(s, recovered, now, p, errors).tracker)
    decreases |errors|
  {
    if errors != [] {
      OnErrorsKeepsDomains(s, recovered, now, p, errors[..|errors| - 1]);
    }
  }

  lemma StepKeepsDomains(s: Settings, t: Tracker, o: Observation)
    requires SameDomains(t)
    ensures SameDomains(Step(s, t, o).tracker)
  {
    var recovered := Recovered(o.records);
    assert SameDomains(Forget(t, recovered));
    OnErrorsKeepsDomains(s, recovered, o.now, Pass(Forget(t, recovered), [], false, None), o.errors);
  }

  /** So one of the guard's three length tests would do. */
  lemma OneLengthTestSuffices(t: Tracker, o: Observation)
    requires SameDomains(t)
    ensures NeedsRecovered(t, o) <==> o.errors != [] || |t.since| > 0
  {
    assert |t.since| == |t.since.Keys| && |t.logged| == |t.logged.Keys| && |t.lastId| == |t.lastId.Keys|;
  }

  // ---------------------------------------------------------------------------------------------
  // The code
  // ---------------------------------------------------------------------------------------------

  lemma ForgetOne(t: Tracker, recovered: set<string>, todo: set<string>, key: string)
    requires key in todo && todo <= recovered
    ensures Forget(Forget(t, recovered - todo), {key}) == Forget(t, recovered - (todo - {key}))
  {
    assert recovered - (todo - {key}) == recovered - todo + {key};
  }

  class ErrorTracker {
    const settings: Settings

    var pollErrSince: map<string, int>
    var pollErrLogged: map<string, int>
    var pollErrLastID: map<string, string>
    /** The logger's error output. */
    var lines: seq<LogLine>

    function State(): Tracker
      reads this
    {
      Tracker(pollErrSince, pollErrLogged, pollErrLastID)
    }

    predicate Valid()
      reads this
    {
      SameDomains(State())
    }

    constructor (settings: Settings)
      ensures Valid() && State() == NoErrors && lines == [] && this.settings == settings
    {
      this.settings := settings;
      pollErrSince, pollErrLogged, pollErrLastID := map[], map[], map[];
      lines := [];
    }

    /** `for key := range recovered { delete ... }`. */
    method DeleteAll(recovered: set<string>)
      modifies this`pollErrSince, this`pollErrLogged, this`pollErrLastID
      ensures State() == Forget(old(State()), recovered)
    {
      var todo := recovered;
      while todo != {}
        invariant todo <= recovered
        invariant State() == Forget(old(State()), recovered - todo)
        decreases |todo|
      {
        var key :| key in todo;
        ForgetOne(old(State()), recovered, todo, key);
        pollErrSince := pollErrSince - {key};
        pollErrLogged := pollErrLogged - {key};
        pollErrLastID := pollErrLastID - {key};
        todo := todo - {key};
      }
      assert recovered - {} == recovered;
    }

    /** Logs on the first error, when it changed, or when the interval has passed. */
    method LogError(key: string, id: string, now: int, line: LogLine)
      modifies this`pollErrLogged, this`pollErrLastID, this`lines
      ensures Throttled(settings, old(State()), key, id, now) ==>
                pollErrLogged == old(pollErrLogged) && pollErrLastID == old(pollErrLastID) && lines == old(lines)
      ensures !Throttled(settings, old(State()), key, id, now) ==>
                && pollErrLogged == old(pollErrLogged)[key := now] && pollErrLastID == old(pollErrLastID)[key := id]
                && lines == old(lines) + [line]
    {
      var last := if key in pollErrLogged then pollErrLogged[key] else 0;
      var changed := id != (if key in pollErrLastID then pollErrLastID[key] else "");
      if key !in pollErrLogged || changed || now - last >= LogEvery(settings) {
        lines := lines + [line];
        pollErrLogged := pollErrLogged[key := now];
        pollErrLastID := pollErrLastID[key := id];
      }
    }

    /** The EachError callback. */
    method VisitError(recovered: set<string>, now: int, e: PartitionError, sawErr: bool, bail: Option<BailReason>)
      returns (sawErr': bool, bail': Option<BailReason>)
      modifies this`pollErrSince, this`pollErrLogged, this`pollErrLastID, this`lines
      ensures Pass(State(), lines, sawErr', bail')
           == OnError(settings, recovered, now, old(Pass(State(), lines, sawErr, bail)), e)
    {
      sawErr', bail' := sawErr, bail;
      if e.err.isDeadline {
        return;
      }
      var key := KeyOf(e.at);
      if key in recovered {
        return;
      }
      sawErr' := true;

      var since := now;
      if key in pollErrSince {
        since := pollErrSince[key];
      }
      var streak := now - since;
      LogError(key, ErrIdentity(e.err), now, LogLine(e.at, streak, e.err));
      pollErrSince := pollErrSince[key := since];
      if settings.bailAfter > 0 && streak >= settings.bailAfter {
        bail' := Some(BailReason(e.at, e.err));
      }
    }

    method CollectRecovered(records: seq<Origin>) returns (recovered: set<string>)
      ensures recovered == Recovered(records)
    {
      recovered := {};
      for i := 0 to |records|
        invariant recovered == Recovered(records[..i])
      {
        recovered := recovered + {KeyOf(records[i])};
        assert records[..i + 1][..i] == records[..i];
      }
      assert records[..|records|] == records;
    }

    /** `fetches.EachError(...)`. */
    method VisitErrors(recovered: set<string>, now: int, errors: seq<PartitionError>)
      returns (sawErr: bool, bail: Option<BailReason>)
      modifies this`pollErrSince, this`pollErrLogged, this`pollErrLastID, this`lines
      ensures Pass(State(), lines, sawErr, bail)
           == Printed(old(lines), OnErrors(settings, recovered, now, Pass(old(State()), [], false, None), errors))
    {
      ghost var base := Pass(State(), [], false, None);
      ghost var printed := lines;
      assert printed + [] == printed;
      sawErr, bail := false, None;
      for i := 0 to |errors|
        invariant Pass(State(), lines, sawErr, bail)
               == Printed(printed, OnErrors(settings, recovered, now, base, errors[..i]))
      {
        assert errors[..i + 1][..i] == errors[..i];
        LinesPrepend(settings, recovered, now, printed, OnErrors(settings, recovered, now, base, errors[..i]), errors[i]);
        sawErr, bail := VisitError(recovered, now, errors[i], sawErr, bail);
      }
      assert errors[..|errors|] == errors;
    }

    method HandlePollErrors(o: Observation) returns (sawErr: bool, bail: Option<BailReason>)
      requires Valid()
      modifies this
      ensures Valid()
      ensures Pass(State(), lines, sawErr, bail) == Printed(old(lines), Step(settings, old(State()), o))
    {
      StepKeepsDomains(settings, State(), o);
      GuardRefines(settings, State(), o);
      var recovered: set<string> := {};
      if NeedsRecovered(State(), o) {
        recovered := CollectRecovered(o.records);
        DeleteAll(recovered);
      }
      sawErr, bail := VisitErrors(recovered, o.now, o.errors);
    }
  }

  /** A pass whose lines land after those already printed. */
  ghost function Printed(before: seq<LogLine>, p: Pass): Pass {
    p.(lines := before + p.lines)
  }

  lemma LinesPrepend(s: Settings, recovered: set<string>, now: int, before: seq<LogLine>, p: Pass, e: PartitionError)
    ensures OnError(s, recovered, now, Printed(before, p), e) == Printed(before, OnError(s, recovered, now, p, e))
  {
    var line := LogLine(e.at, now - StreakStart(p.tracker, KeyOf(e.at), now), e.err);
    assert before + (p.lines + [line]) == before + p.lines + [line];
  }
}
