/** How many error lines one partition can cost, and which errors are sure to be logged. The history of
    one partition is a sequence of recoveries and failures; the tracker's state and log, seen from that
    partition, are a fold over it. */
module LogThrottle {
  import opened Prelude
  import opened Keys
  import opened PollErrors
  import opened PollHistory

  datatype Event = Recovery | Failure(at: int, id: string)

  /** What one error is to `key`: a failure, or nothing. */
  function Contributes(e: PartitionError, recovered: set<string>, now: int, key: string): seq<Event> {
    if Blames(e, recovered, key) then [Failure(now, ErrIdentity(e.err))] else []
  }

  /** The errors of one poll that count against `key`, in order. */
  function Failures(errors: seq<PartitionError>, recovered: set<string>, now: int, key: string): seq<Event> {
    if errors == [] then []
    else Failures(errors[..|errors| - 1], recovered, now, key)
         + Contributes(errors[|errors| - 1], recovered, now, key)
  }

  function PollEvents(o: Observation, key: string): seq<Event> {
    (if Delivers(o, key) then [Recovery] else []) + Failures(o.errors, Recovered(o.records), o.now, key)
  }

  function Events(h: History, key: string): seq<Event> {
    if h == [] then [] else Events(Before(h), key) + PollEvents(Last(h), key)
  }

  /** One partition's share of the tracker: when it last logged, and what. */
  datatype View = View(loggedAt: int, lastId: string)

  function ViewOf(t: Tracker, key: string): Option<View> {
    if key in t.logged && key in t.lastId then Some(View(t.logged[key], t.lastId[key])) else None
  }

  predicate Logs(every: int, v: Option<View>, e: Event) {
    match e
    case Recovery => false
    case Failure(at, id) => v.None? || id != v.value.lastId || at - v.value.loggedAt >= every
  }

  function After(every: int, evs: seq<Event>): Option<View> {
    if evs == [] then None
    else
      var e := evs[|evs| - 1];
      var v := After(every, evs[..|evs| - 1]);
      if e.Recovery? then None else if Logs(every, v, e) then Some(View(e.at, e.id)) else v
  }

  /** Event `i` produces a log line. */
  predicate LoggedAt(every: int, evs: seq<Event>, i: int)
    requires 0 <= i < |evs|
  {
    Logs(every, After(every, evs[..i]), evs[i])
  }

  function LineCount(every: int, evs: seq<Event>): nat {
    if evs == [] then 0
    else LineCount(every, evs[..|evs| - 1]) + if LoggedAt(every, evs, |evs| - 1) then 1 else 0
  }

  /** The lines of a log that belong to `key`. */
  function LinesFor(lines: seq<LogLine>, key: string): nat {
    if lines == [] then 0
    else LinesFor(lines[..|lines| - 1], key) + if KeyOf(lines[|lines| - 1].at) == key then 1 else 0
  }

  /** Everything logged over a history. */
  function Log(s: Settings, h: History): seq<LogLine> {
    if h == [] then [] else Log(s, Before(h)) + Step(s, Run(s, Before(h)), Last(h)).lines
  }

  // ---------------------------------------------------------------------------------------------
  // The tracker, seen from one partition, is the fold over that partition's events
  // ---------------------------------------------------------------------------------------------

  lemma LinesForLast(lines: seq<LogLine>, line: LogLine, key: string)
    ensures LinesFor(lines + [line], key) == LinesFor(lines, key) + if KeyOf(line.at) == key then 1 else 0
  {
    assert (lines + [line])[..|lines|] == lines;
  }

  lemma {:induction false} LinesForAppend(a: seq<LogLine>, b: seq<LogLine>, key: string)
    ensures LinesFor(a + b, key) == LinesFor(a, key) + LinesFor(b, key)
    decreases |b|
  {
    if b == [] {
      assert a + b == a;
    } else {
      assert a + b == (a + b[..|b| - 1]) + [b[|b| - 1]];
      LinesForLast(a + b[..|b| - 1], b[|b| - 1], key);
      LinesForAppend(a, b[..|b| - 1], key);
    }
  }

  /** A pass is where the events so far put `key`: its view, and how many lines it has had. */
  predicate Follows(s: Settings, p: Pass, evs: seq<Event>, key: string) {
    && SameDomains(p.tracker)
    && ViewOf(p.tracker, key) == After(LogEvery(s), evs)
    && LinesFor(p.lines, key) == LineCount(LogEvery(s), evs)
  }

  lemma OneMore(every: int, evs: seq<Event>, e: Event)
    ensures After(every, evs + [e]) ==
            if e.Recovery? then None
            else if Logs(every, After(every, evs), e) then Some(View(e.at, e.id)) else After(every, evs)
    ensures LineCount(every, evs + [e]) == LineCount(every, evs) + if Logs(every, After(every, evs), e) then 1 else 0
  {
    assert (evs + [e])[..|evs|] == evs;
  }

  lemma VisitFollows(s: Settings, recovered: set<string>, now: int, p: Pass, e: PartitionError, evs: seq<Event>, key: string)
    requires Follows(s, p, evs, key)
    ensures Follows(s, OnError(s, recovered, now, p, e), evs + Contributes(e, recovered, now, key), key)
  {
    if Blames(e, recovered, key) {
      BlameFollows(s, recovered, now, p, e, evs, key);
    } else {
      assert evs + [] == evs;
      BystanderFollows(s, recovered, now, p, e, evs, key);
    }
  }

  lemma BlameFollows(s: Settings, recovered: set<string>, now: int, p: Pass, e: PartitionError, evs: seq<Event>, key: string)
    requires Follows(s, p, evs, key) && Blames(e, recovered, key)
    ensures Follows(s, OnError(s, recovered, now, p, e), evs + [Failure(now, ErrIdentity(e.err))], key)
  {
    var q, id := OnError(s, recovered, now, p, e), ErrIdentity(e.err);
    ThrottleAgrees(s, p.tracker, key, id, now);
    OneMore(LogEvery(s), evs, Failure(now, id));
    if Throttled(s, p.tracker, key, id, now) {
      assert q.lines == p.lines && ViewOf(q.tracker, key) == ViewOf(p.tracker, key);
    } else {
      LinesForLast(p.lines, LogLine(e.at, now - StreakStart(p.tracker, key, now), e.err), key);
      assert ViewOf(q.tracker, key) == Some(View(now, id));
    }
    OnErrorKeepsDomains(s, recovered, now, p, e);
  }

  lemma ThrottleAgrees(s: Settings, t: Tracker, key: string, id: string, now: int)
    requires SameDomains(t)
    ensures Throttled(s, t, key, id, now) <==> !Logs(LogEvery(s), ViewOf(t, key), Failure(now, id))
  {
  }

  lemma OnErrorKeepsDomains(s: Settings, recovered: set<string>, now: int, p: Pass, e: PartitionError)
    requires SameDomains(p.tracker)
    ensures SameDomains(OnError(s, recovered, now, p, e).tracker)
  {
  }

  lemma BystanderFollows(s: Settings, recovered: set<string>, now: int, p: Pass, e: PartitionError, evs: seq<Event>, key: string)
    requires Follows(s, p, evs, key) && !Blames(e, recovered, key)
    ensures Follows(s, OnError(s, recovered, now, p, e), evs, key)
  {
    var at := KeyOf(e.at);
    if !e.err.isDeadline && at !in recovered {
      assert at != key;
      LinesForLast(p.lines, LogLine(e.at, now - StreakStart(p.tracker, at, now), e.err), key);
    }
  }

  lemma {:induction false} ErrorsFollow(s: Settings, recovered: set<string>, now: int, p: Pass,
                                        errors: seq<PartitionError>, evs: seq<Event>, key: string)
    requires Follows(s, p, evs, key)
    ensures Follows(s, OnErrors(s, recovered, now, p, errors), evs + Failures(errors, recovered, now, key), key)
    decreases |errors|
  {
    if errors == [] {
      assert evs + [] == evs;
    } else {
      var front, e := errors[..|errors| - 1], errors[|errors| - 1];
      var before := Failures(front, recovered, now, key);
      ErrorsFollow(s, recovered, now, p, front, evs, key);
      VisitFollows(s, recovered, now, OnErrors(s, recovered, now, p, front), e, evs + before, key);
      Associate(evs, before, Contributes(e, recovered, now, key));
    }
  }

  /** Clearing the recovered partitions is the recovery event. */
  lemma RecoveryFollows(s: Settings, o: Observation, p: Pass, evs: seq<Event>, key: string)
    requires Follows(s, p, evs, key)
    ensures Follows(s, p.(tracker := Forget(p.tracker, Recovered(o.records))),
                    evs + (if Delivers(o, key) then [Recovery] else []), key)
  {
    OneMore(LogEvery(s), evs, Recovery);
    assert evs + [] == evs;
  }

  /** A pass over errors only appends to the log it starts from. */
  lemma {:induction false} ErrorsAppend(s: Settings, recovered: set<string>, now: int, before: seq<LogLine>,
                                        p: Pass, errors: seq<PartitionError>)
    ensures OnErrors(s, recovered, now, Printed(before, p), errors)
         == Printed(before, OnErrors(s, recovered, now, p, errors))
    decreases |errors|
  {
    if errors != [] {
      var front, e := errors[..|errors| - 1], errors[|errors| - 1];
      ErrorsAppend(s, recovered, now, before, p, front);
      LinesPrepend(s, recovered, now, before, OnErrors(s, recovered, now, p, front), e);
    }
  }

  lemma StepFollows(s: Settings, t: Tracker, log: seq<LogLine>, o: Observation, evs: seq<Event>, key: string)
    requires Follows(s, Pass(t, log, false, None), evs, key)
    ensures Follows(s, Printed(log, Step(s, t, o)), evs + PollEvents(o, key), key)
  {
    var recovered := Recovered(o.records);
    var cleared := evs + (if Delivers(o, key) then [Recovery] else []);
    var base := Pass(Forget(t, recovered), [], false, None);
    RecoveryFollows(s, o, Pass(t, log, false, None), evs, key);
    assert Printed(log, base) == Pass(Forget(t, recovered), log, false, None) by {
      assert log + [] == log;
    }
    ErrorsAppend(s, recovered, o.now, log, base, o.errors);
    ErrorsFollow(s, recovered, o.now, Printed(log, base), o.errors, cleared, key);
    EventsRegroup(o, evs, key);
  }

  lemma EventsRegroup(o: Observation, evs: seq<Event>, key: string)
    ensures evs + (if Delivers(o, key) then [Recovery] else []) + Failures(o.errors, Recovered(o.records), o.now, key)
         == evs + PollEvents(o, key)
  {
    var first := if Delivers(o, key) then [Recovery] else [];
    Associate(evs, first, Failures(o.errors, Recovered(o.records), o.now, key));
  }

  lemma Associate(a: seq<Event>, b: seq<Event>, c: seq<Event>)
    ensures a + b + c == a + (b + c)
  {
  }

  /** The whole log and tracker, seen from one partition, are the fold over that partition's events. */
  lemma {:induction false} RunFollowsEvents(s: Settings, h: History, key: string)
    ensures Follows(s, Pass(Run(s, h), Log(s, h), false, None), Events(h, key), key)
    decreases |h|
  {
    if h != [] {
      RunFollowsEvents(s, Before(h), key);
      StepFollows(s, Run(s, Before(h)), Log(s, Before(h)), Last(h), Events(Before(h), key), key);
    }
  }

  // ---------------------------------------------------------------------------------------------
  // What the fold does
  // ---------------------------------------------------------------------------------------------

  /** Times never go back. */
  predicate InOrder(evs: seq<Event>) {
    forall i, j | 0 <= i <= j < |evs| && evs[i].Failure? && evs[j].Failure? :: evs[i].at <= evs[j].at
  }

  /** A failure with which a run of same-identity failures starts. */
  predicate StartsRun(evs: seq<Event>, i: int)
    requires 0 <= i < |evs|
  {
    evs[i].Failure? && (i == 0 || evs[i - 1].Recovery? || evs[i - 1].id != evs[i].id)
  }

  /** The view always carries the identity of the latest failure, logged or not; and it is gone exactly
      after a recovery. */
  lemma {:induction false} ViewIsLatest(every: int, evs: seq<Event>)
    requires evs != []
    ensures After(every, evs).None? <==> evs[|evs| - 1].Recovery?
    ensures evs[|evs| - 1].Failure? ==> After(every, evs).value.lastId == evs[|evs| - 1].id
    decreases |evs|
  {
    if |evs| > 1 {
      ViewIsLatest(every, evs[..|evs| - 1]);
    }
  }

  /** Every run of same-identity failures is logged, at its first failure; inside a run a failure is
      logged exactly when the interval has passed since the last line. */
  lemma LoggedExactly(every: int, evs: seq<Event>, i: int)
    requires 0 <= i < |evs| && evs[i].Failure?
    ensures StartsRun(evs, i) ==> LoggedAt(every, evs, i)
    ensures !StartsRun(evs, i) ==> After(every, evs[..i]).Some?
    ensures !StartsRun(evs, i) ==>
              (LoggedAt(every, evs, i) <==> evs[i].at - After(every, evs[..i]).value.loggedAt >= every)
  {
    if i > 0 {
      ViewIsLatest(every, evs[..i]);
    }
  }

  /** Recoveries that ended a streak. */
  function Recoveries(evs: seq<Event>): nat {
    if |evs| < 2 then 0
    else Recoveries(evs[..|evs| - 1]) + if evs[|evs| - 1].Recovery? && evs[|evs| - 2].Failure? then 1 else 0
  }

  /** Consecutive failures with different identities. */
  function Changes(evs: seq<Event>): nat {
    if |evs| < 2 then 0
    else
      var e, d := evs[|evs| - 1], evs[|evs| - 2];
      Changes(evs[..|evs| - 1]) + if e.Failure? && d.Failure? && e.id != d.id then 1 else 0
  }

  /** The time of the latest line, or of the first failure before there is any. */
  function LastLine(every: int, evs: seq<Event>): int {
    if evs == [] then 0
    else if LoggedAt(every, evs, |evs| - 1) then evs[|evs| - 1].at
    else LastLine(every, evs[..|evs| - 1])
  }

  function FirstLine(every: int, evs: seq<Event>): int {
    if evs == [] then 0
    else if LineCount(every, evs[..|evs| - 1]) == 0 && LoggedAt(every, evs, |evs| - 1) then evs[|evs| - 1].at
    else FirstLine(every, evs[..|evs| - 1])
  }

  /** The bound's credit for the line that opens a streak not yet ended by a recovery. */
  function OpenStreak(evs: seq<Event>): nat {
    if evs != [] && evs[|evs| - 1].Failure? then 1 else 0
  }

  predicate AtMost(evs: seq<Event>, hi: int) {
    forall i | 0 <= i < |evs| && evs[i].Failure? :: evs[i].at <= hi
  }

  predicate AtLeast(evs: seq<Event>, lo: int) {
    forall i | 0 <= i < |evs| && evs[i].Failure? :: lo <= evs[i].at
  }

  lemma {:induction false} LastLineAtMost(every: int, evs: seq<Event>, hi: int)
    requires AtMost(evs, hi) && LineCount(every, evs) > 0
    ensures LastLine(every, evs) <= hi
    decreases |evs|
  {
    if !LoggedAt(every, evs, |evs| - 1) {
      LastLineAtMost(every, evs[..|evs| - 1], hi);
    }
  }

  lemma {:induction false} FirstLineAtLeast(every: int, evs: seq<Event>, lo: int)
    requires AtLeast(evs, lo) && LineCount(every, evs) > 0
    ensures lo <= FirstLine(every, evs)
    decreases |evs|
  {
    if LineCount(every, evs[..|evs| - 1]) > 0 {
      FirstLineAtLeast(every, evs[..|evs| - 1], lo);
    }
  }

  lemma {:induction false} ViewDatesLastLine(every: int, evs: seq<Event>)
    ensures After(every, evs).Some? ==>
              LineCount(every, evs) > 0 && After(every, evs).value.loggedAt == LastLine(every, evs)
    decreases |evs|
  {
    if evs != [] {
      ViewDatesLastLine(every, evs[..|evs| - 1]);
    }
  }

  /** Lines not paid for by a streak's start, a recovery or a changed identity. */
  function Excess(every: int, evs: seq<Event>): int {
    LineCount(every, evs) - OpenStreak(evs) - Recoveries(evs) - Changes(evs)
  }

  /** The excess grows only with a line inside a run, which comes an interval after the one before. */
  lemma ExcessStep(every: int, evs: seq<Event>)
    requires evs != []
    ensures var front, e := evs[..|evs| - 1], evs[|evs| - 1];
            || Excess(every, evs) == Excess(every, front)
            || (Excess(every, evs) == Excess(every, front) + 1 && LoggedAt(every, evs, |evs| - 1)
                && LineCount(every, front) > 0 && e.at >= LastLine(every, front) + every)
  {
    var front, e := evs[..|evs| - 1], evs[|evs| - 1];
    ViewDatesLastLine(every, front);
    if e.Failure? {
      LoggedExactly(every, evs, |evs| - 1);
    }
    if front != [] {
      ViewIsLatest(every, front);
      assert front[|front| - 1] == evs[|evs| - 2];
    }
  }

  /** Excess lines are spaced by the interval. */
  lemma {:induction false} LinesAreSpaced(every: int, evs: seq<Event>)
    requires every > 0 && InOrder(evs) && LineCount(every, evs) > 0
    ensures Excess(every, evs) * every <= LastLine(every, evs) - FirstLine(every, evs)
    decreases |evs|
  {
    var front, e := evs[..|evs| - 1], evs[|evs| - 1];
    ExcessStep(every, evs);
    if LineCount(every, front) == 0 {
      Scale(Excess(every, evs), 0, every);
    } else {
      LinesAreSpaced(every, front);
      Scale(Excess(every, evs), Excess(every, front) + 1, every);
      if LoggedAt(every, evs, |evs| - 1) {
        LastLineAtMost(every, front, e.at);
      }
    }
  }

  lemma Scale(x: int, y: int, d: int)
    requires x <= y && d > 0
    ensures x * d <= y * d && y * d == (y - 1) * d + d
  {
  }

  lemma AtMostQuotient(x: int, t: int, d: int)
    requires d > 0 && x * d <= t
    ensures x <= t / d
  {
    if x > t / d {
      Scale(t / d + 1, x, d);
    }
  }

  // ---------------------------------------------------------------------------------------------
  // The bound over a history
  // ---------------------------------------------------------------------------------------------

  predicate AllAt(evs: seq<Event>, now: int) {
    forall i | 0 <= i < |evs| && evs[i].Failure? :: evs[i].at == now
  }

  lemma {:induction false} FailuresAreNow(errors: seq<PartitionError>, recovered: set<string>, now: int, key: string)
    ensures AllAt(Failures(errors, recovered, now, key), now)
    decreases |errors|
  {
    if errors != [] {
      FailuresAreNow(errors[..|errors| - 1], recovered, now, key);
    }
  }

  lemma InOrderAppend(evs: seq<Event>, more: seq<Event>, lo: int, hi: int, now: int)
    requires InOrder(evs) && AtLeast(evs, lo) && AtMost(evs, hi) && AllAt(more, now) && lo <= hi <= now
    ensures InOrder(evs + more) && AtLeast(evs + more, lo) && AtMost(evs + more, now)
  {
  }

  lemma {:induction false} EventsInOrder(h: History, key: string)
    requires h != [] && Monotone(h)
    ensures InOrder(Events(h, key)) && AtLeast(Events(h, key), h[0].now) && AtMost(Events(h, key), Last(h).now)
    decreases |h|
  {
    var o, g := Last(h), Before(h);
    FailuresAreNow(o.errors, Recovered(o.records), o.now, key);
    assert AllAt(PollEvents(o, key), o.now);
    if |h| > 1 {
      EventsInOrder(g, key);
      InOrderAppend(Events(g, key), PollEvents(o, key), h[0].now, Last(g).now, o.now);
    } else {
      InOrderAppend([], PollEvents(o, key), o.now, o.now, o.now);
    }
  }

  /** What the bound allows beside the intervals: one line, one per recovery, one per changed identity. */
  function Allowance(h: History, key: string): nat {
    1 + Recoveries(Events(h, key)) + Changes(Events(h, key))
  }

  lemma BoundByEvery(s: Settings, h: History, key: string)
    requires h != [] && Monotone(h)
    ensures LinesFor(Log(s, h), key) <= Allowance(h, key) + (Last(h).now - h[0].now) / LogEvery(s)
  {
    var evs, every, span := Events(h, key), LogEvery(s), Last(h).now - h[0].now;
    RunFollowsEvents(s, h, key);
    AtMostQuotient(0, span, every);
    if LineCount(every, evs) > 0 {
      EventsInOrder(h, key);
      LinesAreSpaced(every, evs);
      LastLineAtMost(every, evs, Last(h).now);
      FirstLineAtLeast(every, evs, h[0].now);
      AtMostQuotient(Excess(every, evs), span, every);
    }
  }

  /** Over any history, a partition's error lines number at most one, plus its recoveries, plus its
      changes of identity, plus the configured intervals (or seconds, if the setting is not positive)
      that fit in the time spanned. */
  lemma ThrottleBound(s: Settings, h: History, key: string)
    requires h != [] && Monotone(h)
    ensures s.logInterval > 0 ==>
              LinesFor(Log(s, h), key) <= Allowance(h, key) + (Last(h).now - h[0].now) / s.logInterval
    ensures s.logInterval <= 0 ==>
              LinesFor(Log(s, h), key) <= Allowance(h, key) + (Last(h).now - h[0].now) / SECOND
  {
    BoundByEvery(s, h, key);
  }

  // ---------------------------------------------------------------------------------------------
  // The exact rule over a history
  // ---------------------------------------------------------------------------------------------

  /** When `key` was last logged: the time of the latest poll that logged it. */
  function LastLogged(s: Settings, h: History, key: string): int {
    if h == [] then 0
    else if LinesFor(LatestLines(s, h), key) > 0 then Last(h).now
    else LastLogged(s, Before(h), key)
  }

  /** The lines a poll adds for `key` are those its events add to the fold. */
  lemma LatestCounted(s: Settings, h: History, key: string)
    requires h != []
    ensures LineCount(LogEvery(s), Events(h, key))
         == LineCount(LogEvery(s), Events(Before(h), key)) + LinesFor(LatestLines(s, h), key)
  {
    RunFollowsEvents(s, h, key);
    RunFollowsEvents(s, Before(h), key);
    LinesForAppend(Log(s, Before(h)), LatestLines(s, h), key);
  }

  /** Events of one moment either leave the view alone and log nothing, or leave it dated now. */
  predicate Renewed(every: int, evs: seq<Event>, more: seq<Event>, now: int) {
    After(every, evs + more).Some? ==>
      || (LineCount(every, evs + more) == LineCount(every, evs) && After(every, evs + more) == After(every, evs))
      || (LineCount(every, evs + more) > LineCount(every, evs) && After(every, evs + more).value.loggedAt == now)
  }

  lemma {:induction false} LinesGrow(every: int, evs: seq<Event>, more: seq<Event>)
    ensures LineCount(every, evs + more) >= LineCount(every, evs)
    decreases |more|
  {
    if more == [] {
      assert evs + [] == evs;
    } else {
      var front, e := more[..|more| - 1], more[|more| - 1];
      LinesGrow(every, evs, front);
      OneMore(every, evs + front, e);
      assert evs + more == evs + front + [e];
    }
  }

  lemma {:induction false} MomentRenews(every: int, evs: seq<Event>, more: seq<Event>, now: int)
    requires AllAt(more, now)
    ensures Renewed(every, evs, more, now)
    decreases |more|
  {
    if more == [] {
      assert evs + [] == evs;
    } else {
      var front, e := more[..|more| - 1], more[|more| - 1];
      MomentRenews(every, evs, front, now);
      LinesGrow(every, evs, front);
      OneMore(every, evs + front, e);
      assert evs + more == evs + front + [e];
    }
  }

  /** The view's date is that of the partition's last line. */
  lemma {:induction false} ViewDatesLatestPoll(s: Settings, h: History, key: string)
    ensures After(LogEvery(s), Events(h, key)).Some? ==>
              After(LogEvery(s), Events(h, key)).value.loggedAt == LastLogged(s, h, key)
    decreases |h|
  {
    if h != [] {
      var o := Last(h);
      ViewDatesLatestPoll(s, Before(h), key);
      LatestCounted(s, h, key);
      FailuresAreNow(o.errors, Recovered(o.records), o.now, key);
      MomentRenews(LogEvery(s), Events(Before(h), key), PollEvents(o, key), o.now);
    }
  }

  /** Every error this poll counts against `key` has the identity `id`. */
  predicate AllIdentified(errors: seq<PartitionError>, recovered: set<string>, key: string, id: string) {
    errors == []
    || (AllIdentified(errors[..|errors| - 1], recovered, key, id)
        && (Blames(errors[|errors| - 1], recovered, key) ==> ErrIdentity(errors[|errors| - 1].err) == id))
  }

  predicate AllAlike(evs: seq<Event>, now: int, id: string) {
    evs == [] || (AllAlike(evs[..|evs| - 1], now, id) && evs[|evs| - 1] == Failure(now, id))
  }

  lemma {:induction false} FailuresAlike(errors: seq<PartitionError>, recovered: set<string>, now: int, key: string, id: string)
    requires AllIdentified(errors, recovered, key, id)
    ensures AllAlike(Failures(errors, recovered, now, key), now, id)
    ensures Failures(errors, recovered, now, key) != [] <==> AnyBlames(errors, recovered, key)
    decreases |errors|
  {
    if errors != [] {
      var front, e := errors[..|errors| - 1], errors[|errors| - 1];
      FailuresAlike(front, recovered, now, key, id);
      AnyBlamesLast(errors, recovered, key);
      var before := Failures(front, recovered, now, key);
      assert before + [] == before;
      assert (before + [Failure(now, id)])[..|before|] == before;
    }
  }

  /** One identity failing at one moment costs one line or none, by the view it starts from. */
  lemma {:induction false} AlikeLogsOnce(every: int, evs: seq<Event>, more: seq<Event>, now: int, id: string)
    requires every > 0 && more != [] && AllAlike(more, now, id)
    ensures LineCount(every, evs + more) == LineCount(every, evs) + if Logs(every, After(every, evs), Failure(now, id)) then 1 else 0
    ensures !Logs(every, After(every, evs + more), Failure(now, id))
    decreases |more|
  {
    var front, e := more[..|more| - 1], more[|more| - 1];
    if front == [] {
      assert evs + front == evs;
    } else {
      AlikeLogsOnce(every, evs, front, now, id);
    }
    OneMore(every, evs + front, e);
    assert evs + more == evs + front + [e];
  }

  /** `key` is on a streak whose latest counted error had the identity `id`. */
  predicate OnStreakOf(h: History, key: string, id: string) {
    Events(h, key) != [] && Events(h, key)[|Events(h, key)| - 1].Failure? && Events(h, key)[|Events(h, key)| - 1].id == id
  }

  lemma PollLogsByEvery(s: Settings, h: History, key: string, id: string)
    requires h != [] && Fails(Last(h), key) && AllIdentified(Last(h).errors, Recovered(Last(h).records), key, id)
    ensures !OnStreakOf(Before(h), key, id) ==> LinesFor(LatestLines(s, h), key) == 1
    ensures OnStreakOf(Before(h), key, id) ==>
              LinesFor(LatestLines(s, h), key) ==
              if Last(h).now - LastLogged(s, Before(h), key) >= LogEvery(s) then 1 else 0
  {
    var o, evs, every := Last(h), Events(Before(h), key), LogEvery(s);
    var more := Failures(o.errors, Recovered(o.records), o.now, key);
    FailsMeansNoDelivery(o, key);
    assert PollEvents(o, key) == more;
    FailuresAlike(o.errors, Recovered(o.records), o.now, key, id);
    AlikeLogsOnce(every, evs, more, o.now, id);
    LatestCounted(s, h, key);
    ViewDatesLatestPoll(s, Before(h), key);
    if evs != [] {
      ViewIsLatest(every, evs);
    }
  }

  /** The exact rule, over any history: when a partition's failing starts or changes its identity, the poll
      logs one line for it; while it fails on with the same identity, one exactly when the configured
      interval (or a second, if the setting is not positive) has passed since its last line. */
  lemma PollLogsExactly(s: Settings, h: History, key: string, id: string)
    requires h != [] && Fails(Last(h), key) && AllIdentified(Last(h).errors, Recovered(Last(h).records), key, id)
    ensures !OnStreakOf(Before(h), key, id) ==> LinesFor(LatestLines(s, h), key) == 1
    ensures OnStreakOf(Before(h), key, id) && s.logInterval > 0 ==>
              LinesFor(LatestLines(s, h), key) ==
              if Last(h).now - LastLogged(s, Before(h), key) >= s.logInterval then 1 else 0
    ensures OnStreakOf(Before(h), key, id) && s.logInterval <= 0 ==>
              LinesFor(LatestLines(s, h), key) ==
              if Last(h).now - LastLogged(s, Before(h), key) >= SECOND then 1 else 0
  {
    PollLogsByEvery(s, h, key, id);
  }
}
