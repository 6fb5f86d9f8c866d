/** What the error tracker's state, bail and log mean in terms of the whole history of polls. */
module PollHistory {
  import opened Prelude
  import opened Keys
  import opened PollErrors

  type History = seq<Observation>

  function Last(h: History): Observation
    requires h != []
  {
    h[|h| - 1]
  }

  function Before(h: History): History
    requires h != []
  {
    h[..|h| - 1]
  }

  /** The tracker after a history of polls. */
  function Run(s: Settings, h: History): Tracker {
    if h == [] then NoErrors else Step(s, Run(s, Before(h)), Last(h)).tracker
  }

  predicate Monotone(h: History) {
    forall i, j | 0 <= i <= j < |h| :: h[i].now <= h[j].now
  }

  /** The partition behind `key` delivered a record in this poll. */
  predicate Delivers(o: Observation, key: string) {
    key in Recovered(o.records)
  }

  /** An error the streaks count against `key`: not a timeout, and from a partition that delivered
      nothing in the same poll. */
  predicate Blames(e: PartitionError, recovered: set<string>, key: string) {
    KeyOf(e.at) == key && !e.err.isDeadline && key !in recovered
  }

  predicate AnyBlames(errors: seq<PartitionError>, recovered: set<string>, key: string) {
    Any(errors, (e: PartitionError) => Blames(e, recovered, key))
  }

  predicate Fails(o: Observation, key: string) {
    AnyBlames(o.errors, Recovered(o.records), key)
  }

  /** Poll `i` saw a counted error from `key`, and no later poll a record from it. */
  predicate OpenFailure(h: History, i: int, key: string) {
    0 <= i < |h| && Fails(h[i], key) && AllAfter(h, i, (o: Observation) => !Delivers(o, key))
  }

  lemma {:induction false} RunKeepsDomains(s: Settings, h: History)
    ensures SameDomains(Run(s, h))
    decreases |h|
  {
    if h != [] {
      RunKeepsDomains(s, Before(h));
      StepKeepsDomains(s, Run(s, Before(h)), Last(h));
    }
  }

  // ---------------------------------------------------------------------------------------------
  // Streaks
  // ---------------------------------------------------------------------------------------------

  /** The time of the first counted error since the last delivery: the reference the map is held to. */
  function Streak(h: History, key: string): Option<int> {
    if h == [] then None
    else if Delivers(Last(h), key) then None
    else if Streak(Before(h), key).Some? then Streak(Before(h), key)
    else if Fails(Last(h), key) then Some(Last(h).now)
    else None
  }

  function Lookup<V>(m: map<string, V>, key: string): Option<V> {
    if key in m then Some(m[key]) else None
  }

  lemma {:induction false} ErrorsStartStreaks(s: Settings, recovered: set<string>, now: int, p: Pass,
                                              errors: seq<PartitionError>, key: string)
    ensures Lookup(OnErrors(s, recovered, now, p, errors).tracker.since, key) ==
            if key in p.tracker.since then Some(p.tracker.since[key])
            else if AnyBlames(errors, recovered, key) then Some(now)
            else None
    decreases |errors|
  {
    if errors != [] {
      var n := |errors| - 1;
      ErrorsStartStreaks(s, recovered, now, p, errors[..n], key);
      AnyBlamesLast(errors, recovered, key);
    }
  }

  lemma AnyBlamesLast(errors: seq<PartitionError>, recovered: set<string>, key: string)
    requires errors != []
    ensures AnyBlames(errors, recovered, key) <==>
            AnyBlames(errors[..|errors| - 1], recovered, key) || Blames(errors[|errors| - 1], recovered, key)
  {
    AnyLast(errors, (e: PartitionError) => Blames(e, recovered, key));
  }

  lemma StepFollowsStreak(s: Settings, t: Tracker, o: Observation, key: string)
    ensures Lookup(Step(s, t, o).tracker.since, key) ==
            if Delivers(o, key) then None
            else if key in t.since then Some(t.since[key])
            else if Fails(o, key) then Some(o.now)
            else None
  {
    var recovered := Recovered(o.records);
    var base := Pass(Forget(t, recovered), [], false, None);
    ErrorsStartStreaks(s, recovered, o.now, base, o.errors, key);
  }

  lemma {:induction false} SinceIsStreak(s: Settings, h: History, key: string)
    ensures Lookup(Run(s, h).since, key) == Streak(h, key)
    decreases |h|
  {
    if h != [] {
      SinceIsStreak(s, Before(h), key);
      StepFollowsStreak(s, Run(s, Before(h)), Last(h), key);
    }
  }

  /** The reference read off the history: a streak exists exactly when some failure is still open, and it
      dates from the first such failure. */
  lemma {:induction false} StreakIsFirstOpenFailure(h: History, key: string)
    ensures Streak(h, key).None? ==> forall i :: !OpenFailure(h, i, key)
    ensures Streak(h, key).Some? ==> exists i :: FirstOpen(h, i, key) && h[i].now == Streak(h, key).value
    decreases |h|
  {
    if h != [] {
      StreakIsFirstOpenFailure(Before(h), key);
      forall i
        ensures OpenFailure(h, i, key) <==>
                if i == |h| - 1 then Fails(Last(h), key)
                else OpenFailure(Before(h), i, key) && !Delivers(Last(h), key)
      {
        OpenFailureStep(h, i, key);
      }
      FailsMeansNoDelivery(Last(h), key);
      if !Delivers(Last(h), key) {
        if Streak(Before(h), key).Some? {
          var i :| FirstOpen(Before(h), i, key) && Before(h)[i].now == Streak(Before(h), key).value;
          assert FirstOpen(h, i, key);
        } else if Fails(Last(h), key) {
          assert FirstOpen(h, |h| - 1, key);
        }
      }
    }
  }

  /** Poll `i` is the earliest whose failure is still open. */
  ghost predicate FirstOpen(h: History, i: int, key: string) {
    OpenFailure(h, i, key) && forall j :: OpenFailure(h, j, key) ==> i <= j
  }

  lemma FailsMeansNoDelivery(o: Observation, key: string)
    ensures Fails(o, key) ==> !Delivers(o, key)
  {
  }

  lemma OpenFailureStep(h: History, i: int, key: string)
    requires h != []
    ensures OpenFailure(h, i, key) <==>
            if i == |h| - 1 then Fails(Last(h), key)
            else OpenFailure(Before(h), i, key) && !Delivers(Last(h), key)
  {
    AllAfterLast(h, i, (o: Observation) => !Delivers(o, key));
    assert 0 <= i < |h| - 1 ==> Before(h)[i] == h[i];
  }

  /** pollErrSince is the history: present exactly for the partitions with an open failure, and dated by
      the first. Absence from a poll changes nothing. */
  lemma StreakStateIsHistory(s: Settings, h: History, key: string)
    ensures key in Run(s, h).since <==> exists i :: OpenFailure(h, i, key)
    ensures key in Run(s, h).since ==>
              exists i :: FirstOpen(h, i, key) && h[i].now == Run(s, h).since[key]
    ensures Run(s, h).logged.Keys == Run(s, h).since.Keys == Run(s, h).lastId.Keys
  {
    SinceIsStreak(s, h, key);
    StreakIsFirstOpenFailure(h, key);
    RunKeepsDomains(s, h);
  }

  predicate Seen(errors: seq<PartitionError>, recovered: set<string>) {
    Any(errors, (e: PartitionError) => Blames(e, recovered, KeyOf(e.at)))
  }

  /** handlePollErrors returns true exactly when some partition really failed in this poll. */
  lemma SawErrExactly(s: Settings, t: Tracker, o: Observation)
    ensures Step(s, t, o).sawErr <==> exists key :: Fails(o, key)
  {
    var recovered := Recovered(o.records);
    ErrorsSeen(s, recovered, o.now, Pass(Forget(t, recovered), [], false, None), o.errors);
    if Seen(o.errors, recovered) {
      var key := SeenFails(o);
    }
    if exists key :: Fails(o, key) {
      var key :| Fails(o, key);
      FailsSeen(o, key);
    }
  }

  lemma SeenFails(o: Observation) returns (key: string)
    requires Seen(o.errors, Recovered(o.records))
    ensures Fails(o, key)
  {
    var i :| 0 <= i < |o.errors| && Blames(o.errors[i], Recovered(o.records), KeyOf(o.errors[i].at));
    key := KeyOf(o.errors[i].at);
  }

  lemma FailsSeen(o: Observation, key: string)
    requires Fails(o, key)
    ensures Seen(o.errors, Recovered(o.records))
  {
    var i :| 0 <= i < |o.errors| && Blames(o.errors[i], Recovered(o.records), key);
    assert Blames(o.errors[i], Recovered(o.records), KeyOf(o.errors[i].at));
  }

  lemma {:induction false} ErrorsSeen(s: Settings, recovered: set<string>, now: int, p: Pass, errors: seq<PartitionError>)
    ensures OnErrors(s, recovered, now, p, errors).sawErr <==>
            p.sawErr || Seen(errors, recovered)
    decreases |errors|
  {
    if errors != [] {
      ErrorsSeen(s, recovered, now, p, errors[..|errors| - 1]);
      AnyLast(errors, (e: PartitionError) => Blames(e, recovered, KeyOf(e.at)));
    }
  }

  /** The line tells for how long its partition has been failing. */
  predicate Dated(line: LogLine, since: map<string, int>, now: int) {
    KeyOf(line.at) in since && since[KeyOf(line.at)] == now - line.failingFor
  }

  predicate AllDated(lines: seq<LogLine>, since: map<string, int>, now: int) {
    lines == [] || (AllDated(lines[..|lines| - 1], since, now) && Dated(lines[|lines| - 1], since, now))
  }

  lemma {:induction false} StillDated(lines: seq<LogLine>, since: map<string, int>, now: int, key: string, start: int)
    requires AllDated(lines, since, now) && (key in since ==> since[key] == start)
    ensures AllDated(lines, since[key := start], now)
    decreases |lines|
  {
    if lines != [] {
      StillDated(lines[..|lines| - 1], since, now, key, start);
    }
  }

  lemma VisitDates(s: Settings, recovered: set<string>, now: int, p: Pass, e: PartitionError)
    requires AllDated(p.lines, p.tracker.since, now)
    ensures AllDated(OnError(s, recovered, now, p, e).lines, OnError(s, recovered, now, p, e).tracker.since, now)
  {
    var key, start := KeyOf(e.at), StreakStart(p.tracker, KeyOf(e.at), now);
    StillDated(p.lines, p.tracker.since, now, key, start);
    NextDated(p.lines, p.tracker.since[key := start], now, e, start);
  }

  lemma NextDated(lines: seq<LogLine>, since: map<string, int>, now: int, e: PartitionError, start: int)
    requires AllDated(lines, since, now) && KeyOf(e.at) in since && since[KeyOf(e.at)] == start
    ensures AllDated(lines + [LogLine(e.at, now - start, e.err)], since, now)
  {
    var line := LogLine(e.at, now - start, e.err);
    assert (lines + [line])[..|lines|] == lines;
  }

  lemma {:induction false} ErrorsDate(s: Settings, recovered: set<string>, now: int, p: Pass, errors: seq<PartitionError>)
    requires AllDated(p.lines, p.tracker.since, now)
    ensures AllDated(OnErrors(s, recovered, now, p, errors).lines,
                     OnErrors(s, recovered, now, p, errors).tracker.since, now)
    decreases |errors|
  {
    if errors != [] {
      var front, e := errors[..|errors| - 1], errors[|errors| - 1];
      ErrorsDate(s, recovered, now, p, front);
      VisitDates(s, recovered, now, OnErrors(s, recovered, now, p, front), e);
    }
  }

  lemma {:induction false} DatedAt(lines: seq<LogLine>, since: map<string, int>, now: int, line: LogLine)
    requires AllDated(lines, since, now) && line in lines
    ensures Dated(line, since, now)
    decreases |lines|
  {
    if line != lines[|lines| - 1] {
      DatedAt(lines[..|lines| - 1], since, now, line);
    }
  }

  lemma StepDates(s: Settings, t: Tracker, o: Observation, line: LogLine)
    requires line in Step(s, t, o).lines
    ensures Dated(line, Step(s, t, o).tracker.since, o.now)
  {
    var recovered := Recovered(o.records);
    ErrorsDate(s, recovered, o.now, Pass(Forget(t, recovered), [], false, None), o.errors);
    DatedAt(Step(s, t, o).lines, Step(s, t, o).tracker.since, o.now, line);
  }

  /** What the latest poll logged. */
  function LatestLines(s: Settings, h: History): seq<LogLine> {
    if h == [] then [] else Step(s, Run(s, Before(h)), Last(h)).lines
  }

  lemma LineDated(s: Settings, h: History, line: LogLine)
    requires line in LatestLines(s, h)
    ensures h != [] && Dated(line, Run(s, h).since, Last(h).now)
  {
    StepDates(s, Run(s, Before(h)), Last(h), line);
  }

  lemma LineStart(s: Settings, h: History, line: LogLine)
    requires line in LatestLines(s, h)
    ensures h != [] && Lookup(Run(s, h).since, KeyOf(line.at)) == Some(Last(h).now - line.failingFor)
  {
    LineDated(s, h, line);
  }

  lemma StreakFrom(s: Settings, h: History, key: string, start: int)
    requires Lookup(Run(s, h).since, key) == Some(start)
    ensures Streak(h, key) == Some(start)
  {
    SinceIsStreak(s, h, key);
  }

  /** Every line says for how long, by the history, its partition has been failing. */
  lemma LineTellsStreak(s: Settings, h: History, line: LogLine)
    requires line in LatestLines(s, h)
    ensures h != [] && Streak(h, KeyOf(line.at)) == Some(Last(h).now - line.failingFor)
  {
    LineStart(s, h, line);
    StreakFrom(s, h, KeyOf(line.at), Last(h).now - line.failingFor);
  }

  /** The line's error is one of the poll's, and counted. */
  predicate Reports(line: LogLine, errors: seq<PartitionError>, recovered: set<string>) {
    PartitionError(line.at, line.err) in errors && !line.err.isDeadline && KeyOf(line.at) !in recovered
  }

  predicate AllReport(lines: seq<LogLine>, errors: seq<PartitionError>, recovered: set<string>) {
    lines == []
    || (AllReport(lines[..|lines| - 1], errors, recovered) && Reports(lines[|lines| - 1], errors, recovered))
  }

  lemma {:induction false} StillReport(lines: seq<LogLine>, errors: seq<PartitionError>, recovered: set<string>, e: PartitionError)
    requires AllReport(lines, errors, recovered)
    ensures AllReport(lines, errors + [e], recovered)
    decreases |lines|
  {
    if lines != [] {
      StillReport(lines[..|lines| - 1], errors, recovered, e);
    }
  }

  lemma NextReports(lines: seq<LogLine>, errors: seq<PartitionError>, recovered: set<string>, line: LogLine)
    requires AllReport(lines, errors, recovered) && Reports(line, errors, recovered)
    ensures AllReport(lines + [line], errors, recovered)
  {
    assert (lines + [line])[..|lines|] == lines;
  }

  lemma {:induction false} ErrorsReport(s: Settings, recovered: set<string>, now: int, t: Tracker, errors: seq<PartitionError>)
    ensures AllReport(OnErrors(s, recovered, now, Pass(t, [], false, None), errors).lines, errors, recovered)
    decreases |errors|
  {
    if errors != [] {
      var front, e := errors[..|errors| - 1], errors[|errors| - 1];
      ErrorsReport(s, recovered, now, t, front);
      assert front + [e] == errors;
      VisitReports(s, recovered, now, OnErrors(s, recovered, now, Pass(t, [], false, None), front), front, e);
    }
  }

  lemma VisitReports(s: Settings, recovered: set<string>, now: int, p: Pass, front: seq<PartitionError>, e: PartitionError)
    requires AllReport(p.lines, front, recovered)
    ensures AllReport(OnError(s, recovered, now, p, e).lines, front + [e], recovered)
  {
    StillReport(p.lines, front, recovered, e);
    if !e.err.isDeadline && KeyOf(e.at) !in recovered {
      var line := LogLine(e.at, now - StreakStart(p.tracker, KeyOf(e.at), now), e.err);
      assert PartitionError(line.at, line.err) == e;
      NextReports(p.lines, front + [e], recovered, line);
    }
  }

  lemma {:induction false} ReportAt(lines: seq<LogLine>, errors: seq<PartitionError>, recovered: set<string>, line: LogLine)
    requires AllReport(lines, errors, recovered) && line in lines
    ensures Reports(line, errors, recovered)
    decreases |lines|
  {
    if line != lines[|lines| - 1] {
      ReportAt(lines[..|lines| - 1], errors, recovered, line);
    }
  }

  /** And every line reports an error of its poll that counts against its partition. */
  lemma LineReportsError(s: Settings, t: Tracker, o: Observation, line: LogLine)
    requires line in Step(s, t, o).lines
    ensures PartitionError(line.at, line.err) in o.errors && !line.err.isDeadline && !Delivers(o, KeyOf(line.at))
  {
    var recovered := Recovered(o.records);
    ErrorsReport(s, recovered, o.now, Forget(t, recovered), o.errors);
    ReportAt(Step(s, t, o).lines, o.errors, recovered, line);
  }

  // ---------------------------------------------------------------------------------------------
  // Bail
  // ---------------------------------------------------------------------------------------------

  /** The error warrants a bail, given the streak its partition would be on. */
  predicate Overdue(s: Settings, recovered: set<string>, now: int, t: Tracker, e: PartitionError) {
    && Blames(e, recovered, KeyOf(e.at))
    && s.bailAfter > 0 && now - StreakStart(t, KeyOf(e.at), now) >= s.bailAfter
  }

  predicate AnyOverdue(s: Settings, recovered: set<string>, now: int, t: Tracker, errors: seq<PartitionError>) {
    Any(errors, (e: PartitionError) => Overdue(s, recovered, now, t, e))
  }

  lemma AnyOverdueLast(s: Settings, recovered: set<string>, now: int, t: Tracker, errors: seq<PartitionError>)
    requires errors != []
    ensures AnyOverdue(s, recovered, now, t, errors) <==>
            || AnyOverdue(s, recovered, now, t, errors[..|errors| - 1])
            || Overdue(s, recovered, now, t, errors[|errors| - 1])
  {
    AnyLast(errors, (e: PartitionError) => Overdue(s, recovered, now, t, e));
  }

  lemma {:induction false} ErrorsBail(s: Settings, recovered: set<string>, now: int, t: Tracker, errors: seq<PartitionError>)
    ensures OnErrors(s, recovered, now, Pass(t, [], false, None), errors).bail.Some? <==>
            AnyOverdue(s, recovered, now, t, errors)
    decreases |errors|
  {
    if errors != [] {
      var front, e := errors[..|errors| - 1], errors[|errors| - 1];
      var base := Pass(t, [], false, None);
      ErrorsBail(s, recovered, now, t, front);
      AnyOverdueLast(s, recovered, now, t, errors);
      ErrorsStartStreaks(s, recovered, now, base, front, KeyOf(e.at));
      LastErrorBails(s, recovered, now, t, OnErrors(s, recovered, now, base, front), e);
    }
  }

  lemma LastErrorBails(s: Settings, recovered: set<string>, now: int, t: Tracker, p: Pass, e: PartitionError)
    requires StreakStart(p.tracker, KeyOf(e.at), now) == StreakStart(t, KeyOf(e.at), now)
    ensures OnError(s, recovered, now, p, e).bail.Some? <==> p.bail.Some? || Overdue(s, recovered, now, t, e)
  {
  }

  /** `o`, coming after `h`, makes handlePollErrors bail. */
  predicate Bails(s: Settings, h: History, o: Observation) {
    Step(s, Run(s, h), o).bail.Some?
  }

  /** `key` fails in the last poll and has had an open failure for at least `d`. */
  ghost predicate FailingFor(h: History, key: string, d: int) {
    && h != [] && Fails(Last(h), key)
    && exists i :: OpenFailure(h, i, key) && h[i].now <= Last(h).now - d
  }

  /** The bail is sound and complete: it fires exactly when some partition fails now, failed at least
      `bailAfter` ago, and delivered nothing in between. */
  lemma BailsExactlyWhenStuck(s: Settings, h: History, o: Observation)
    requires Monotone(h + [o])
    ensures Bails(s, h, o) <==> s.bailAfter > 0 && exists key :: FailingFor(h + [o], key, s.bailAfter)
  {
    if Bails(s, h, o) {
      var i := BailNamesStuck(s, h, o);
    }
    if s.bailAfter > 0 && exists key :: FailingFor(h + [o], key, s.bailAfter) {
      var key :| FailingFor(h + [o], key, s.bailAfter);
      StuckBails(s, h, o, key);
    }
  }

  /** And the reason it gives names a partition that is stuck, by the last such error of the poll. */
  lemma BailNamesStuck(s: Settings, h: History, o: Observation) returns (i: int)
    requires Monotone(h + [o]) && Bails(s, h, o)
    ensures 0 <= i < |o.errors|
    ensures Step(s, Run(s, h), o).bail == Some(BailReason(o.errors[i].at, o.errors[i].err))
    ensures s.bailAfter > 0 && FailingFor(h + [o], KeyOf(o.errors[i].at), s.bailAfter)
    ensures forall j | i < j < |o.errors| :: !StuckError(s, h, o, o.errors[j])
  {
    var recovered := Recovered(o.records);
    var t := Forget(Run(s, h), recovered);
    i := ReasonIsLast(s, recovered, o.now, t, o.errors);
    assert Blames(o.errors[i], recovered, KeyOf(o.errors[i].at));
    OverdueIsFailingFor(s, h, o, KeyOf(o.errors[i].at));
    forall j | i < j < |o.errors| ensures !StuckError(s, h, o, o.errors[j]) {
      NotOverdueNotStuck(s, h, o, o.errors[j]);
    }
  }

  /** The error counts, and its partition has been failing for as long as the bail allows. */
  ghost predicate StuckError(s: Settings, h: History, o: Observation, e: PartitionError) {
    !e.err.isDeadline && FailingFor(h + [o], KeyOf(e.at), s.bailAfter)
  }

  lemma NotOverdueNotStuck(s: Settings, h: History, o: Observation, e: PartitionError)
    requires Monotone(h + [o]) && s.bailAfter > 0
    requires !Overdue(s, Recovered(o.records), o.now, Forget(Run(s, h), Recovered(o.records)), e)
    ensures !StuckError(s, h, o, e)
  {
    if StuckError(s, h, o, e) {
      var key := KeyOf(e.at);
      assert Last(h + [o]) == o;
      FailsMeansNoDelivery(o, key);
      OverdueIsFailingFor(s, h, o, key);
    }
  }

  predicate NoneOverdueAfter(s: Settings, recovered: set<string>, now: int, t: Tracker, errors: seq<PartitionError>, i: int) {
    AllAfter(errors, i, (e: PartitionError) => !Overdue(s, recovered, now, t, e))
  }

  lemma {:induction false} ReasonIsLast(s: Settings, recovered: set<string>, now: int, t: Tracker, errors: seq<PartitionError>)
    returns (i: int)
    requires OnErrors(s, recovered, now, Pass(t, [], false, None), errors).bail.Some?
    ensures 0 <= i < |errors| && Overdue(s, recovered, now, t, errors[i])
    ensures OnErrors(s, recovered, now, Pass(t, [], false, None), errors).bail == Some(BailReason(errors[i].at, errors[i].err))
    ensures NoneOverdueAfter(s, recovered, now, t, errors, i)
    decreases |errors|
  {
    var front, e := errors[..|errors| - 1], errors[|errors| - 1];
    var base := Pass(t, [], false, None);
    ErrorsStartStreaks(s, recovered, now, base, front, KeyOf(e.at));
    LastReason(s, recovered, now, t, OnErrors(s, recovered, now, base, front), e);
    i := |errors| - 1;
    if !Overdue(s, recovered, now, t, e) {
      i := ReasonIsLast(s, recovered, now, t, front);
    }
    AllAfterLast(errors, i, (e: PartitionError) => !Overdue(s, recovered, now, t, e));
  }

  lemma LastReason(s: Settings, recovered: set<string>, now: int, t: Tracker, p: Pass, e: PartitionError)
    requires StreakStart(p.tracker, KeyOf(e.at), now) == StreakStart(t, KeyOf(e.at), now)
    ensures Overdue(s, recovered, now, t, e) ==> OnError(s, recovered, now, p, e).bail == Some(BailReason(e.at, e.err))
    ensures !Overdue(s, recovered, now, t, e) ==> OnError(s, recovered, now, p, e).bail == p.bail
  {
  }

  lemma StuckBails(s: Settings, h: History, o: Observation, key: string)
    requires Monotone(h + [o]) && s.bailAfter > 0 && FailingFor(h + [o], key, s.bailAfter)
    ensures Bails(s, h, o)
  {
    var recovered := Recovered(o.records);
    assert Last(h + [o]) == o;
    OverdueIsFailingFor(s, h, o, key);
    var i :| 0 <= i < |o.errors| && Blames(o.errors[i], recovered, key);
    assert Overdue(s, recovered, o.now, Forget(Run(s, h), recovered), o.errors[i]);
    ErrorsBail(s, recovered, o.now, Forget(Run(s, h), recovered), o.errors);
  }

  lemma OverdueIsFailingFor(s: Settings, h: History, o: Observation, key: string)
    requires Monotone(h + [o]) && Fails(o, key) && s.bailAfter > 0
    ensures o.now - StreakStart(Forget(Run(s, h), Recovered(o.records)), key, o.now) >= s.bailAfter
            <==> FailingFor(h + [o], key, s.bailAfter)
  {
    var g := h + [o];
    assert Before(g) == h && Last(g) == o;
    SinceIsStreak(s, h, key);
    StreakIsFirstOpenFailure(g, key);
    var first :| FirstOpen(g, first, key) && g[first].now == Streak(g, key).value;
    assert StreakStart(Forget(Run(s, h), Recovered(o.records)), key, o.now) == g[first].now;
  }
}
