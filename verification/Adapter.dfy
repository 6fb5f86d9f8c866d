/** The adapter's own code, statement by statement, over its mutable fields: Poll, the assign queue, the
    rebalance callbacks and the fetch loop. Each method is shown to take only steps the protocol allows,
    with the other goroutines free to move wherever the code waits, locks or calls out. */
module AdapterPort {
  import opened Prelude
  import opened AssignQueue
  import opened GateProtocol
  import opened GateTheorems

  datatype PollError = ClientClosed | TriggerFailed

  /** How the scheduler and the environment treat one Poll call: what the others do at each point where
      it lets go, whether its timer wins a race, and whether the engine refuses the assign. */
  datatype PollSchedule = PollSchedule(
    whileSignalling: seq<Label>,
    beforeReceive: seq<Label>,
    whileReceiving: seq<Label>,
    timerWins: bool,
    beforeSwap: seq<Label>,
    duringTrigger: seq<Label>,
    triggerFails: bool,
    afterTrigger: seq<Label>)

  /** The same for one pass of the fetch loop. */
  datatype LoopSchedule = LoopSchedule(
    beforeAnswer: seq<Label>,
    answer: Answer,
    duringBackoff: seq<Label>,
    duringHandoff: seq<Label>,
    duringWait: seq<Label>,
    cancelWins: bool)

  /** How a fetch loop given finitely many turns ended: out of turns, waiting on somebody, or exited. */
  datatype LoopStatus = Running | Parked | Stopped

  datatype FetchOutcome = StillPolling | NothingFetched | Fetched(record: Record) | MustExit

  datatype Party = PollParty | LoopParty

  /** Steps that belong to somebody other than `p`. The two rendezvous belong to both goroutines. */
  predicate ByOther(p: Party, l: Label) {
    match p
    case PollParty => !l.Poll? && l != Loop(HandOver) && l != Loop(TakeSignal) && l != World(Dispatch)
    case LoopParty => !l.Loop?
  }

  /** What the polling goroutine can rely on while the others move. */
  predicate PollSideKept(s: State, t: State) {
    && t.poll == s.poll && t.awaiting == s.awaiting && t.stash == s.stash && t.inHand == s.inHand
    && t.delivered == s.delivered && t.dispatched == s.dispatched && t.taken == s.taken
    && t.signals == s.signals && (s.cancelled ==> t.cancelled)
    && (RecordsClosed(s.loop) ==> RecordsClosed(t.loop))
  }

  /** What the fetch goroutine can rely on. */
  predicate LoopSideKept(s: State, t: State) {
    && t.loop == s.loop && t.accepted == s.accepted && t.polls == s.polls && t.foreign == s.foreign
    && t.dropped == s.dropped && t.signals == s.signals && t.allows == s.allows
    && (s.cancelled ==> t.cancelled)
  }

  predicate Kept(p: Party, s: State, t: State) {
    match p
    case PollParty => PollSideKept(s, t)
    case LoopParty => LoopSideKept(s, t)
  }

  lemma KeptTransitive(p: Party, s: State, t: State, u: State)
    requires Kept(p, s, t) && Kept(p, t, u)
    ensures Kept(p, s, u)
  {
  }

  lemma OtherLoopMove(c: Config, s: State, m: LoopMove)
    requires LoopEnabled(s, m) && ByOther(PollParty, Loop(m))
    ensures PollSideKept(s, ApplyLoop(c, s, m))
  {
  }

  lemma OtherPollMove(s: State, m: PollMove)
    requires PollEnabled(s, m)
    ensures LoopSideKept(s, ApplyPoll(s, m))
  {
  }

  lemma OtherWorldMove(p: Party, s: State, m: WorldMove)
    requires WorldEnabled(s, m) && ByOther(p, World(m))
    ensures Kept(p, s, ApplyWorld(s, m))
  {
  }

  lemma OtherKeeps(c: Config, p: Party, s: State, l: Label)
    requires Enabled(s, l) && ByOther(p, l)
    ensures Kept(p, s, Apply(c, s, l))
  {
    match l
    case Loop(m) => OtherLoopMove(c, s, m);
    case Poll(m) => OtherPollMove(s, m);
    case World(m) => OtherWorldMove(p, s, m);
  }

  /** A scheduled step is taken if it is somebody else's and can happen. */
  function Turn(c: Config, p: Party, s: State, l: Label): State {
    if ByOther(p, l) && Enabled(s, l) then Apply(c, s, l) else s
  }

  /** Where a schedule of other parties' steps leads. */
  function Scheduled(c: Config, p: Party, s: State, moves: seq<Label>): State
    decreases |moves|
  {
    if moves == [] then s else Scheduled(c, p, Turn(c, p, s, moves[0]), moves[1..])
  }

  /** Any run of other parties' steps can be scheduled, to the letter. */
  lemma {:induction false} ScheduleFollowsRun(c: Config, p: Party, s: State, ls: seq<Label>, t: State)
    requires Runs(c, s, ls, t) && forall i | 0 <= i < |ls| :: ByOther(p, ls[i])
    ensures Scheduled(c, p, s, ls) == t
    decreases |ls|
  {
    if ls != [] {
      assert ByOther(p, ls[0]);
      assert Turn(c, p, s, ls[0]) == Apply(c, s, ls[0]);
      ScheduleFollowsRun(c, p, Apply(c, s, ls[0]), ls[1..], t);
    }
  }

  lemma TakeTurn(c: Config, p: Party, s: State, moves: seq<Label>)
    requires moves != []
    ensures Scheduled(c, p, s, moves) == Scheduled(c, p, Turn(c, p, s, moves[0]), moves[1..])
  {
  }

  /** What Poll's signal meets, `s` being the state Poll is called in. */
  function AtSignal(c: Config, s: State, moves: seq<Label>): State {
    Scheduled(c, PollParty, s.(poll := Signalling, awaiting := false), moves)
  }

  /** The queue when a refused batch is put back: whatever OnAssigned was given since. */
  function QueuedMeanwhile(c: Config, s: State, batch: Assignment, sched: PollSchedule): Assignment
    requires s.poll.Finishing?
  {
    Scheduled(c, PollParty, s.(poll := Finishing(s.poll.record, Requeueing(batch))), sched.afterTrigger).pending
  }

  /** What the first select of Poll's receive finds, `s` being the state Poll reaches it in. */
  function AtFirstSelect(c: Config, s: State, sched: PollSchedule): State {
    Scheduled(c, PollParty, s, sched.beforeReceive)
  }

  /** What the second finds when its wait is over, if the first found nothing. */
  function AtSecondSelect(c: Config, s: State, sched: PollSchedule): State {
    Scheduled(c, PollParty, s.(poll := SlowReceive), sched.whileReceiving)
  }

  /** The receive from `s` on meets the closed channel: at the first select, or at the second unless the
      timer wins there. */
  predicate ClosedInTime(c: Config, s: State, sched: PollSchedule) {
    || RecordsClosed(AtFirstSelect(c, s, sched).loop)
    || (!AtFirstSelect(c, s, sched).loop.Handoff? && !sched.timerWins
        && RecordsClosed(AtSecondSelect(c, AtFirstSelect(c, s, sched), sched).loop))
  }

  /** The record it takes, if the channel is not closed. */
  function TakenInTime(c: Config, s: State, sched: PollSchedule): Option<Record> {
    if AtFirstSelect(c, s, sched).loop.Handoff? then Some(AtFirstSelect(c, s, sched).loop.record)
    else if !sched.timerWins && AtSecondSelect(c, AtFirstSelect(c, s, sched), sched).loop.Handoff? then
      Some(AtSecondSelect(c, AtFirstSelect(c, s, sched), sched).loop.record)
    else None
  }

  /** A receive can proceed. */
  predicate Ready(l: LoopPc) {
    l.Handoff? || RecordsClosed(l)
  }

  // Growing a run by one party's step, or by another run.

  lemma AfterLoop(c: Config, s: State, trace: seq<Label>, t: State, m: LoopMove, u: State) returns (longer: seq<Label>)
    requires Runs(c, s, trace, t) && LoopEnabled(t, m) && u == ApplyLoop(c, t, m)
    ensures Runs(c, s, longer, u) && longer == trace + [Loop(m)]
  {
    Last(c, t, Loop(m));
    longer := Join(c, s, trace, t, [Loop(m)], u);
  }

  lemma AfterPoll(c: Config, s: State, trace: seq<Label>, t: State, m: PollMove, u: State) returns (longer: seq<Label>)
    requires Runs(c, s, trace, t) && PollEnabled(t, m) && u == ApplyPoll(t, m)
    ensures Runs(c, s, longer, u) && longer == trace + [Poll(m)]
  {
    Last(c, t, Poll(m));
    longer := Join(c, s, trace, t, [Poll(m)], u);
  }

  lemma AfterWorld(c: Config, s: State, trace: seq<Label>, t: State, m: WorldMove, u: State) returns (longer: seq<Label>)
    requires Runs(c, s, trace, t) && WorldEnabled(t, m) && u == ApplyWorld(t, m)
    ensures Runs(c, s, longer, u) && longer == trace + [World(m)]
  {
    Last(c, t, World(m));
    longer := Join(c, s, trace, t, [World(m)], u);
  }

  lemma Join(c: Config, s: State, first: seq<Label>, t: State, second: seq<Label>, u: State)
    returns (longer: seq<Label>)
    requires Runs(c, s, first, t) && Runs(c, t, second, u)
    ensures Runs(c, s, longer, u) && longer == first + second
  {
    longer := first + second;
    RunsCompose(c, s, first, t, second, u);
  }

  lemma ReachableBy(c: Config, s: State, trace: seq<Label>, t: State)
    requires Reachable(c, s) && Runs(c, s, trace, t)
    ensures Reachable(c, t)
  {
    var prefix :| Runs(c, Init(), prefix, s);
    RunsCompose(c, Init(), prefix, s, trace, t);
  }

  lemma ReachablePollInv(c: Config, s: State)
    requires Reachable(c, s)
    ensures PollInv(s)
  {
    ReachableInv(c, s);
  }

  /** A record on offer means that no signal is owed and nothing is stashed. */
  lemma OfferMeansNothingOwed(c: Config, s: State)
    requires Reachable(c, s)
    ensures s.loop.Handoff? ==> !s.awaiting && s.stash.None?
  {
    ReachableInv(c, s);
  }

  datatype PollSide = PollSide(
    awaiting: bool,
    stash: Option<Record>,
    inHand: Option<Record>,
    delivered: seq<Record>,
    dispatched: seq<Record>)

  /** Poll's return of a record, as a step. */
  lemma AfterDelivery(c: Config, s: State, trace: seq<Label>, t: State, r: Record, u: State) returns (longer: seq<Label>)
    requires Runs(c, s, trace, t)
    requires t.poll == Finishing(Some(r), Returning)
    requires u == t.(poll := Idle, inHand := Some(r), awaiting := true, delivered := t.delivered + [r])
    ensures Runs(c, s, longer, u) && longer == trace + [Poll(Return)]
  {
    longer := AfterPoll(c, s, trace, t, Return, u);
  }

  /** Poll's return without one. */
  lemma AfterEmptyReturn(c: Config, s: State, trace: seq<Label>, t: State, u: State) returns (longer: seq<Label>)
    requires Runs(c, s, trace, t)
    requires t.poll == Finishing(None, Returning) && u == t.(poll := Idle)
    ensures Runs(c, s, longer, u) && longer == trace + [Poll(Return)]
  {
    assert t.delivered + [] == t.delivered;
    longer := AfterPoll(c, s, trace, t, Return, u);
  }

  /** fetchNext's single-topic refusal. */
  predicate Foreign(c: Config, a: Answer) {
    a.records != [] && c.topicName != "" && a.records[0].topic != c.topicName
  }

  /** The loop holds a record and nobody is there to take it, or to say it has been dispatched. */
  predicate StuckOnRecord(s: State) {
    && !s.cancelled
    && ((s.loop.Handoff? && !Receiving(s.poll)) || (s.loop.AwaitDispatch? && !s.poll.Signalling?))
  }

  /** The client has not answered the poll: what some turn offers cannot be its answer now. */
  ghost predicate Unanswered(turns: seq<LoopSchedule>, s: State) {
    s.loop.Fetching? && exists k | 0 <= k < |turns| :: !ClientMayAnswer(s, turns[k].answer)
  }

  /** Some turn's client poll offered `r` first. */
  ghost predicate Offered(turns: seq<LoopSchedule>, r: Record) {
    exists k | 0 <= k < |turns| :: turns[k].answer.records != [] && turns[k].answer.records[0] == r
  }

  /** A client poll that ends the loop because it is closed or cancelled, as a step. */
  lemma AfterStop(c: Config, s: State, trace: seq<Label>, t: State, a: Answer, held: bool, u: State)
    returns (longer: seq<Label>)
    requires Runs(c, s, trace, t) && t.loop.Fetching? && ClientMayAnswer(t, a) && (a.closed || t.cancelled)
    requires held == (t.held || a.registered)
    requires u == t.(loop := Exiting, polls := t.polls + 1, held := held)
    ensures Runs(c, s, longer, u) && longer == trace + [Loop(PollReturns(a))]
  {
    assert u == AfterFetch(c, t, a);
    longer := AfterLoop(c, s, trace, t, PollReturns(a), u);
  }

  /** A client poll that yields no record, as a step. */
  lemma AfterEmptyFetch(c: Config, s: State, trace: seq<Label>, t: State, a: Answer,
                        next: LoopPc, held: bool, leftover: bool, u: State) returns (longer: seq<Label>)
    requires Runs(c, s, trace, t) && t.loop.Fetching? && ClientMayAnswer(t, a)
    requires !a.closed && !t.cancelled && a.records == []
    requires next == (if a.sawErr && c.backoffEnabled then Backoff else Fetching)
    requires held == (t.held || a.registered) && leftover == (t.leftover || a.registered)
    requires u == t.(loop := next, polls := t.polls + 1, held := held, leftover := leftover)
    ensures Runs(c, s, longer, u) && longer == trace + [Loop(PollReturns(a))]
  {
    assert u == AfterFetch(c, t, a);
    longer := AfterLoop(c, s, trace, t, PollReturns(a), u);
  }

  lemma SettledOnReturn(c: Config, s: State)
    requires Reachable(c, s)
    ensures s.inHand.Some? && !s.cancelled ==> s.pending == map[]
  {
    if s.inHand.Some? && !s.cancelled {
      AssignsBeforeRecord(c, s, "");
    }
  }

  class Adapter {
    const config: Config
    /** false models a nil pollRecordsFn: no client was ever wired in. */
    const connected: bool

    var pendingAssigned: Assignment
    var pendingRecord: Option<Record>
    var recordAwaitingDispatch: bool
    /** Everything outside those three fields: both goroutines' positions, the client, the engine and
        the history. The corresponding three components of `system` are not used. */
    var system: State

    function View(): State
      reads this
    {
      system.(pending := pendingAssigned, stash := pendingRecord, awaiting := recordAwaitingDispatch)
    }

    ghost predicate Valid()
      reads this
    {
      Reachable(config, View())
    }

    constructor (config: Config, connected: bool)
      ensures Valid() && View() == Init()
      ensures this.config == config && this.connected == connected
    {
      this.config := config;
      this.connected := connected;
      pendingAssigned := map[];
      pendingRecord := None;
      recordAwaitingDispatch := false;
      system := Init();
      new;
      assert Runs(config, Init(), [], View());
    }

    // -------------------------------------------------------------------------------------------
    // The other goroutines
    // -------------------------------------------------------------------------------------------

    /** The whole state becomes `next`. */
    method Become(next: State)
      modifies this
      ensures View() == next
    {
      pendingAssigned := next.pending;
      pendingRecord := next.stash;
      recordAwaitingDispatch := next.awaiting;
      system := next;
    }

    /** Parties other than `p` take the steps they are scheduled for, skipping any that cannot happen. */
    method Interfere(p: Party, moves: seq<Label>) returns (ghost trace: seq<Label>)
      modifies this
      ensures Runs(config, old(View()), trace, View()) && Kept(p, old(View()), View())
      ensures View() == Scheduled(config, p, old(View()), moves)
    {
      trace := [];
      assert moves[0..] == moves;
      for i := 0 to |moves|
        invariant Runs(config, old(View()), trace, View()) && Kept(p, old(View()), View())
        invariant Scheduled(config, p, View(), moves[i..]) == Scheduled(config, p, old(View()), moves)
      {
        trace := TakeOne(p, moves[i], old(View()), trace, moves[i..]);
        assert moves[i..][1..] == moves[i + 1..];
      }
    }

    method TakeOne(p: Party, l: Label, ghost start: State, ghost trace: seq<Label>, ghost moves: seq<Label>)
      returns (ghost longer: seq<Label>)
      requires Runs(config, start, trace, View()) && Kept(p, start, View())
      requires moves != [] && moves[0] == l
      modifies this
      ensures Runs(config, start, longer, View()) && Kept(p, start, View())
      ensures Scheduled(config, p, View(), moves[1..]) == Scheduled(config, p, old(View()), moves)
    {
      var s := View();
      longer := trace;
      TakeTurn(config, p, s, moves);
      if ByOther(p, l) && Enabled(s, l) {
        OtherKeeps(config, p, s, l);
        KeptTransitive(p, start, s, Apply(config, s, l));
        Last(config, s, l);
        longer := Join(config, start, trace, s, [l], Apply(config, s, l));
        Become(Apply(config, s, l));
      }
    }

    // -------------------------------------------------------------------------------------------
    // Rebalance callbacks
    // -------------------------------------------------------------------------------------------

    /** Appends a batch to the queue, topic by topic in whatever order the map yields them. */
    method AppendAll(batch: Assignment)
      modifies this`pendingAssigned
      ensures pendingAssigned == Merge(old(pendingAssigned), batch)
    {
      ghost var front := pendingAssigned;
      VisitedNone(batch, front);
      var todo := batch.Keys;
      while todo != {}
        invariant todo <= batch.Keys
        invariant pendingAssigned == Merge(front, Visited(batch, todo))
        decreases |todo|
      {
        var topic :| topic in todo;
        AppendTopic(front, batch, todo, topic);
        pendingAssigned := pendingAssigned[topic := At(pendingAssigned, topic) + batch[topic]];
        todo := todo - {topic};
      }
    }

    /** Puts a refused batch back in front of whatever has been queued since. */
    method PrependAll(batch: Assignment)
      modifies this`pendingAssigned
      ensures pendingAssigned == Merge(batch, old(pendingAssigned))
    {
      ghost var back := pendingAssigned;
      VisitedNone(batch, back);
      var todo := batch.Keys;
      while todo != {}
        invariant todo <= batch.Keys
        invariant pendingAssigned == Merge(Visited(batch, todo), back)
        decreases |todo|
      {
        var topic :| topic in todo;
        PrependTopic(batch, back, todo, topic);
        pendingAssigned := pendingAssigned[topic := batch[topic] + At(pendingAssigned, topic)];
        todo := todo - {topic};
      }
    }

    method OnAssigned(batch: Assignment)
      requires Valid() && system.rebalance
      modifies this
      ensures Valid() && View() == ApplyWorld(old(View()), Assigned(batch))
      ensures Queued(old(pendingAssigned), batch, pendingAssigned)
      ensures pendingRecord == old(pendingRecord) && recordAwaitingDispatch == old(recordAwaitingDispatch)
      ensures system.loop == old(system.loop) && system.poll == old(system.poll)
    {
      ghost var s := View();
      MergeQueues(pendingAssigned, batch);
      AppendAll(batch);
      system := system.(everAssigned := Merge(system.everAssigned, batch));
      ghost var trace := AfterWorld(config, s, [], s, Assigned(batch), View());
      ReachableBy(config, s, trace, View());
    }

    /** The drain runs inside the callback; queued assigns are left alone. */
    method OnRevoked(revoked: Assignment)
      requires Valid() && system.rebalance
      modifies this
      ensures Valid()
      ensures View() == if revoked == map[] then old(View()) else ApplyWorld(old(View()), Revoked)
    {
      if |revoked| == 0 {
        return;
      }
      ghost var s := View();
      system := system.(drained := system.dispatched);
      ghost var trace := AfterWorld(config, s, [], s, Revoked, View());
      ReachableBy(config, s, trace, View());
    }

    // -------------------------------------------------------------------------------------------
    // The polling goroutine: its atomic sections
    //
    // Each extends the run `trace` from `start`, which is how a whole Poll is shown to be one.
    // -------------------------------------------------------------------------------------------

    /** What only Poll's entry, its stash and its return change. */
    function Mine(): PollSide
      reads this
    {
      PollSide(recordAwaitingDispatch, pendingRecord, system.inHand, system.delivered, system.dispatched)
    }

    method LetOthersRun(ghost start: State, ghost trace: seq<Label>, moves: seq<Label>)
      returns (ghost longer: seq<Label>)
      requires Runs(config, start, trace, View())
      modifies this
      ensures Runs(config, start, longer, View()) && Kept(PollParty, old(View()), View())
      ensures Mine() == old(Mine()) && system.poll == old(system.poll)
      ensures View() == Scheduled(config, PollParty, old(View()), moves)
    {
      ghost var s := View();
      ghost var more := Interfere(PollParty, moves);
      longer := Join(config, start, trace, s, more, View());
    }

    method EnterPoll(ghost start: State, ghost trace: seq<Label>) returns (owed: bool, ghost longer: seq<Label>)
      requires Runs(config, start, trace, View()) && system.poll.Idle? && system.inHand.None?
      modifies this
      ensures Runs(config, start, longer, View()) && longer == trace + [Label.Poll(CallPoll)]
      ensures owed == old(recordAwaitingDispatch) && Mine() == old(Mine()).(awaiting := false)
      ensures View() == old(View()).(poll := if owed then Signalling else CheckStash, awaiting := false)
    {
      ghost var s := View();
      owed := recordAwaitingDispatch;
      if owed {
        recordAwaitingDispatch := false;
        system := system.(poll := Signalling);
        longer := AfterPoll(config, start, trace, s, CallPoll, View());
      } else {
        system := system.(poll := CheckStash);
        longer := AfterPoll(config, start, trace, s, CallPoll, View());
      }
    }

    /** The arm `recordDispatched <- struct{}{}`. */
    method SendSignal(ghost start: State, ghost trace: seq<Label>) returns (ghost longer: seq<Label>)
      requires Runs(config, start, trace, View()) && system.poll.Signalling? && system.loop.AwaitDispatch?
      modifies this
      ensures Runs(config, start, longer, View()) && longer == trace + [Loop(TakeSignal)]
      ensures system.poll.CheckStash? && Mine() == old(Mine())
      ensures View() == old(View()).(poll := CheckStash, loop := Releasing, signals := old(system.signals) + 1)
      ensures system.loop.Releasing? && system.accepted == old(system.accepted) && system.polls == old(system.polls)
    {
      ghost var s := View();
      system := system.(poll := CheckStash, loop := Releasing, signals := system.signals + 1);
      longer := AfterLoop(config, start, trace, s, TakeSignal, View());
    }

    /** The arm `<-fetchLoopDone`. */
    method SeeLoopGone(ghost start: State, ghost trace: seq<Label>) returns (ghost longer: seq<Label>)
      requires Runs(config, start, trace, View()) && system.poll.Signalling? && system.loop.Done?
      modifies this
      ensures Runs(config, start, longer, View()) && longer == trace + [Label.Poll(SignalLoopGone)]
      ensures system.poll.CheckStash? && Mine() == old(Mine()) && system.loop == old(system.loop)
    {
      ghost var s := View();
      system := system.(poll := CheckStash);
      longer := AfterPoll(config, start, trace, s, SignalLoopGone, View());
    }

    /** The fetch goroutine's remaining deferred calls, which wait for nobody. */
    method LetLoopExit(ghost start: State, ghost trace: seq<Label>) returns (ghost longer: seq<Label>)
      requires Runs(config, start, trace, View()) && Closing(system.loop)
      modifies this
      ensures Runs(config, start, longer, View())
      ensures system.loop.Done? && Mine() == old(Mine()) && system.poll == old(system.poll)
      ensures system.accepted == old(system.accepted)
    {
      longer := trace;
      while !system.loop.Done?
        invariant Closing(system.loop) && Runs(config, start, longer, View())
        invariant Mine() == old(Mine()) && system.poll == old(system.poll)
        invariant system.accepted == old(system.accepted)
        decreases LoopRank(system.loop)
      {
        var s := View();
        var m := ExitMove(s.loop);
        ExitMoveEnabled(s);
        ExitMoveProgress(config, s, m);
        ClosingStep(config, s, m);
        OtherLoopMove(config, s, m);
        longer := AfterLoop(config, start, longer, s, m, ApplyLoop(config, s, m));
        Become(ApplyLoop(config, s, m));
      }
    }

    method LookAtStash(ghost start: State, ghost trace: seq<Label>) returns (stashed: bool, ghost longer: seq<Label>)
      requires Runs(config, start, trace, View()) && system.poll.CheckStash?
      modifies this
      ensures Runs(config, start, longer, View()) && longer == trace + [Label.Poll(TakeStash)]
      ensures stashed == old(pendingRecord).Some? && Mine() == old(Mine()).(stash := None)
      ensures system.poll == (if stashed then Finishing(old(pendingRecord), Swapping) else FastReceive)
      ensures system.loop == old(system.loop)
    {
      ghost var s := View();
      stashed := pendingRecord.Some?;
      if stashed {
        system := system.(poll := Finishing(pendingRecord, Swapping));
        pendingRecord := None;
      } else {
        system := system.(poll := FastReceive);
      }
      longer := AfterPoll(config, start, trace, s, TakeStash, View());
    }

    /** The default arm of the first select. */
    method FindNothing(ghost start: State, ghost trace: seq<Label>) returns (ghost longer: seq<Label>)
      requires Runs(config, start, trace, View()) && system.poll.FastReceive?
      requires !system.loop.Handoff? && !RecordsClosed(system.loop)
      modifies this
      ensures Runs(config, start, longer, View()) && longer == trace + [Label.Poll(NothingReady)]
      ensures View() == old(View()).(poll := SlowReceive) && Mine() == old(Mine())
    {
      ghost var s := View();
      system := system.(poll := SlowReceive);
      longer := AfterPoll(config, start, trace, s, NothingReady, View());
    }

    method TimeOut(ghost start: State, ghost trace: seq<Label>) returns (ghost longer: seq<Label>)
      requires Runs(config, start, trace, View()) && system.poll.SlowReceive?
      modifies this
      ensures Runs(config, start, longer, View()) && longer == trace + [Label.Poll(TimedOut)]
      ensures system.poll == Finishing(None, Swapping) && Mine() == old(Mine()) && system.loop == old(system.loop)
    {
      ghost var s := View();
      system := system.(poll := Finishing(None, Swapping));
      longer := AfterPoll(config, start, trace, s, TimedOut, View());
    }

    /** A receive from fetchedRecords that can proceed: a record, or the closed channel. */
    method TakeFromChannel(ghost start: State, ghost trace: seq<Label>) returns (closed: bool, ghost longer: seq<Label>)
      requires Runs(config, start, trace, View()) && Receiving(system.poll)
      requires system.loop.Handoff? || RecordsClosed(system.loop)
      modifies this
      ensures Runs(config, start, longer, View())
      ensures closed == RecordsClosed(old(system.loop)) && Mine() == old(Mine())
      ensures longer == trace + [if closed then Label.Poll(ReceiveClosed) else Loop(HandOver)]
      ensures closed ==> system.poll.Idle? && system.loop == old(system.loop)
      ensures !closed ==> system.poll == Finishing(Some(old(system.loop).record), Swapping)
      ensures !closed ==> system.loop.AwaitDispatch?
      ensures system.accepted == old(system.accepted) && system.polls == old(system.polls)
    {
      ghost var s := View();
      closed := RecordsClosed(system.loop);
      if closed {
        system := system.(poll := Idle);
        longer := AfterPoll(config, start, trace, s, ReceiveClosed, View());
      } else {
        system := system.(poll := Finishing(Some(system.loop.record), Swapping), loop := AwaitDispatch);
        longer := AfterLoop(config, start, trace, s, HandOver, View());
      }
    }

    /** The first critical section of processPendingRebalances. */
    method SwapPending(ghost start: State, ghost trace: seq<Label>)
      returns (batch: Option<Assignment>, ghost longer: seq<Label>)
      requires Runs(config, start, trace, View()) && system.poll.Finishing? && system.poll.stage.Swapping?
      modifies this
      ensures Runs(config, start, longer, View()) && longer == trace + [Label.Poll(Swap)]
      ensures batch == (if old(pendingAssigned) == map[] then None else Some(old(pendingAssigned)))
      ensures pendingAssigned == map[] && Mine() == old(Mine())
      ensures system.poll == Finishing(old(system.poll).record,
                                       if batch.None? then Returning else Triggering(batch.value))
    {
      ghost var s := View();
      if |pendingAssigned| == 0 {
        batch := None;
        system := system.(poll := system.poll.(stage := Returning));
      } else {
        batch := Some(pendingAssigned);
        system := system.(poll := system.poll.(stage := Triggering(pendingAssigned)));
        pendingAssigned := map[];
      }
      longer := AfterPoll(config, start, trace, s, Swap, View());
    }

    /** TriggerRebalance returned nil. */
    method EngineAccepts(ghost start: State, ghost trace: seq<Label>, batch: Assignment)
      returns (ghost longer: seq<Label>)
      requires Runs(config, start, trace, View())
      requires system.poll.Finishing? && system.poll.stage == Triggering(batch)
      modifies this
      ensures Runs(config, start, longer, View()) && longer == trace + [Label.Poll(TriggerAccepts)]
      ensures system.poll == Finishing(old(system.poll).record, Returning) && Mine() == old(Mine())
    {
      ghost var s := View();
      system := system.(poll := system.poll.(stage := Returning), taken := Merge(system.taken, batch));
      longer := AfterPoll(config, start, trace, s, TriggerAccepts, View());
    }

    /** TriggerRebalance returned an error. */
    method EngineRefuses(ghost start: State, ghost trace: seq<Label>, batch: Assignment)
      returns (ghost longer: seq<Label>)
      requires Runs(config, start, trace, View())
      requires system.poll.Finishing? && system.poll.stage == Triggering(batch)
      modifies this
      ensures Runs(config, start, longer, View()) && longer == trace + [Label.Poll(TriggerFails)]
      ensures View() == old(View()).(poll := Finishing(old(system.poll).record, Requeueing(batch))) && Mine() == old(Mine())
    {
      ghost var s := View();
      system := system.(poll := system.poll.(stage := Requeueing(batch)));
      longer := AfterPoll(config, start, trace, s, TriggerFails, View());
    }

    /** The second critical section, and the stash that follows it in Poll. */
    method RequeueAndStash(ghost start: State, ghost trace: seq<Label>, batch: Assignment)
      returns (ghost longer: seq<Label>)
      requires Runs(config, start, trace, View())
      requires system.poll.Finishing? && system.poll.stage == Requeueing(batch)
      modifies this
      ensures Runs(config, start, longer, View()) && longer == trace + [Label.Poll(Requeue)]
      ensures pendingAssigned == Merge(batch, old(pendingAssigned))
      ensures system.poll.Idle? && Mine() == old(Mine()).(stash := old(system.poll).record)
    {
      ghost var s := View();
      PrependAll(batch);
      pendingRecord := system.poll.record;
      system := system.(poll := Idle);
      longer := AfterPoll(config, start, trace, s, Requeue, View());
    }

    /** `a.recordAwaitingDispatch = true; return record, true, nil`. */
    method Deliver(ghost start: State, ghost trace: seq<Label>, r: Record) returns (ghost longer: seq<Label>)
      requires Runs(config, start, trace, View()) && system.poll == Finishing(Some(r), Returning)
      modifies this
      ensures Runs(config, start, longer, View()) && longer == trace + [Label.Poll(Return)]
      ensures system.poll.Idle?
      ensures Mine() == old(Mine()).(awaiting := true, inHand := Some(r), delivered := old(system.delivered) + [r])
    {
      ghost var s := View();
      recordAwaitingDispatch := true;
      system := system.(poll := Idle, inHand := Some(r), delivered := system.delivered + [r]);
      longer := AfterDelivery(config, start, trace, s, r, View());
    }

    /** `return nil, false, nil`. */
    method ReturnEmpty(ghost start: State, ghost trace: seq<Label>) returns (ghost longer: seq<Label>)
      requires Runs(config, start, trace, View()) && system.poll == Finishing(None, Returning)
      modifies this
      ensures Runs(config, start, longer, View()) && longer == trace + [Label.Poll(Return)]
      ensures system.poll.Idle? && Mine() == old(Mine())
    {
      ghost var s := View();
      system := system.(poll := Idle);
      longer := AfterEmptyReturn(config, start, trace, s, View());
    }

    // -------------------------------------------------------------------------------------------
    // Poll itself
    // -------------------------------------------------------------------------------------------

    /** The top of Poll: the dispatch signal, if one is owed. Whatever the others do meanwhile, the wait
        ends: the loop receives, or it is already leaving and its own remaining steps close the way. */
    method SignalDispatched(ghost start: State, ghost trace: seq<Label>, moves: seq<Label>)
      returns (ghost longer: seq<Label>)
      requires Reachable(config, start) && Runs(config, start, trace, View())
      requires system.poll.Idle? && system.inHand.None?
      modifies this
      ensures Runs(config, start, longer, View())
      ensures system.poll.CheckStash? && Mine() == old(Mine()).(awaiting := false)
      ensures RecordsClosed(old(system.loop)) ==> RecordsClosed(system.loop)
      ensures !old(recordAwaitingDispatch) ==> system.loop == old(system.loop)
      ensures old(recordAwaitingDispatch) && AtSignal(config, old(View()), moves).loop.AwaitDispatch? ==>
                system.loop.Releasing? && system.signals == old(system.signals) + 1
      ensures old(recordAwaitingDispatch) && !AtSignal(config, old(View()), moves).loop.AwaitDispatch? ==>
                system.loop.Done?
    {
      var owed;
      owed, longer := EnterPoll(start, trace);
      if owed {
        longer := LetOthersRun(start, longer, moves);
        ReachableBy(config, start, longer, View());
        SignalWaitHasPeer(config, View());
        if system.loop.AwaitDispatch? {
          longer := SendSignal(start, longer);
        } else {
          longer := LetLoopExit(start, longer);
          longer := SeeLoopGone(start, longer);
        }
      }
    }

    /** Poll's receive: the fast path, then the timed one. A record already on offer is never missed. */
    method Receive(ghost start: State, ghost trace: seq<Label>, sched: PollSchedule)
      returns (closed: bool, ghost longer: seq<Label>)
      requires Runs(config, start, trace, View()) && system.poll.FastReceive?
      modifies this
      ensures Runs(config, start, longer, View()) && Mine() == old(Mine())
      ensures closed ==> system.poll.Idle? && RecordsClosed(system.loop)
      ensures !closed ==> system.poll.Finishing? && system.poll.stage.Swapping?
      ensures RecordsClosed(old(system.loop)) ==> closed
      ensures old(system.loop).Handoff? ==>
                !closed && system.poll.record == Some(old(system.loop).record)
      ensures !Ready(old(system.loop)) ==>
                (closed <==> !sched.timerWins && RecordsClosed(AtSecondSelect(config, old(View()), sched).loop))
      ensures !Ready(old(system.loop)) && !sched.timerWins && AtSecondSelect(config, old(View()), sched).loop.Handoff? ==>
                !closed && system.poll.record == Some(AtSecondSelect(config, old(View()), sched).loop.record)
      ensures !Ready(old(system.loop)) && !closed && system.poll.record.Some? ==>
                !sched.timerWins && AtSecondSelect(config, old(View()), sched).loop.Handoff?
    {
      if Ready(system.loop) {
        closed, longer := TakeFromChannel(start, trace);
      } else {
        closed, longer := TimedReceive(start, trace, sched);
      }
    }

    /** The second select. It gives up with nothing exactly when the timer wins or nothing has come. */
    method TimedReceive(ghost start: State, ghost trace: seq<Label>, sched: PollSchedule)
      returns (closed: bool, ghost longer: seq<Label>)
      requires Runs(config, start, trace, View()) && system.poll.FastReceive? && !Ready(system.loop)
      modifies this
      ensures Runs(config, start, longer, View()) && Mine() == old(Mine())
      ensures closed ==> system.poll.Idle? && RecordsClosed(system.loop)
      ensures !closed ==> system.poll.Finishing? && system.poll.stage.Swapping?
      ensures closed <==> !sched.timerWins && RecordsClosed(Scheduled(config, PollParty, old(View()).(poll := SlowReceive), sched.whileReceiving).loop)
      ensures !sched.timerWins && Scheduled(config, PollParty, old(View()).(poll := SlowReceive), sched.whileReceiving).loop.Handoff? ==>
                !closed && system.poll.record == Some(Scheduled(config, PollParty, old(View()).(poll := SlowReceive), sched.whileReceiving).loop.record)
      ensures !closed && system.poll.record.Some? ==>
                !sched.timerWins && Scheduled(config, PollParty, old(View()).(poll := SlowReceive), sched.whileReceiving).loop.Handoff?
    {
      longer := FindNothing(start, trace);
      longer := LetOthersRun(start, longer, sched.whileReceiving);
      if sched.timerWins || !Ready(system.loop) {
        closed := false;
        longer := TimeOut(start, longer);
      } else {
        closed, longer := TakeFromChannel(start, longer);
      }
    }

    /** The top of Poll, up to where the stash has been looked at: the signal, then the stash first. */
    method BeginPoll(ghost start: State, sched: PollSchedule) returns (stashed: bool, ghost trace: seq<Label>)
      requires Reachable(config, start) && start == View() && system.poll.Idle? && system.inHand.None?
      modifies this
      ensures Runs(config, start, trace, View())
      ensures stashed == old(pendingRecord).Some?
      ensures system.poll == (if stashed then Finishing(old(pendingRecord), Swapping) else FastReceive)
      ensures Mine() == old(Mine()).(awaiting := false, stash := None)
      ensures RecordsClosed(old(system.loop)) ==> RecordsClosed(system.loop)
      ensures !old(recordAwaitingDispatch) ==> system.loop == old(system.loop)
    {
      trace := [];
      trace := SignalDispatched(start, trace, sched.whileSignalling);
      stashed, trace := LookAtStash(start, trace);
    }

    /** Poll's receive with the others free to move before it. */
    method ReceiveNext(ghost front: State, sched: PollSchedule) returns (closed: bool, ghost rest: seq<Label>)
      requires front == View() && system.poll.FastReceive?
      modifies this
      ensures Runs(config, front, rest, View()) && Mine() == old(Mine())
      ensures closed ==> system.poll.Idle? && RecordsClosed(system.loop)
      ensures !closed ==> system.poll.Finishing? && system.poll.stage.Swapping?
      ensures closed <==> ClosedInTime(config, front, sched)
      ensures !closed ==> system.poll.record == TakenInTime(config, front, sched)
      ensures RecordsClosed(front.loop) ==> closed
    {
      rest := [];
      rest := LetOthersRun(front, rest, sched.beforeReceive);
      closed, rest := Receive(front, rest, sched);
    }

    /** processPendingRebalances, with the stash Poll makes of its record when the engine refuses. */
    method ProcessPendingRebalances(ghost start: State, ghost trace: seq<Label>, sched: PollSchedule)
      returns (failed: bool, ghost longer: seq<Label>)
      requires Runs(config, start, trace, View())
      requires system.poll.Finishing? && system.poll.stage.Swapping?
      modifies this
      ensures Runs(config, start, longer, View())
      ensures !failed ==> system.poll == Finishing(old(system.poll).record, Returning) && Mine() == old(Mine())
      ensures failed ==> system.poll.Idle? && Mine() == old(Mine()).(stash := old(system.poll).record)
      ensures failed ==> sched.triggerFails && pendingAssigned != map[]
      ensures failed <==> sched.triggerFails && old(pendingAssigned) != map[]
    {
      var batch;
      batch, longer := SwapPending(start, trace);
      failed := false;
      if batch.Some? {
        longer := LetOthersRun(start, longer, sched.duringTrigger);
        failed, longer := TriggerAssign(start, longer, batch.value, sched);
      }
    }

    /** The engine's answer to the batch, and what follows it. */
    method TriggerAssign(ghost start: State, ghost trace: seq<Label>, batch: Assignment, sched: PollSchedule)
      returns (failed: bool, ghost longer: seq<Label>)
      requires Runs(config, start, trace, View())
      requires system.poll.Finishing? && system.poll.stage == Triggering(batch) && batch != map[]
      modifies this
      ensures Runs(config, start, longer, View())
      ensures !failed ==> system.poll == Finishing(old(system.poll).record, Returning) && Mine() == old(Mine())
      ensures failed ==> system.poll.Idle? && Mine() == old(Mine()).(stash := old(system.poll).record)
      ensures failed == sched.triggerFails && (failed ==> pendingAssigned != map[])
      ensures failed ==> pendingAssigned == Merge(batch, QueuedMeanwhile(config, old(View()), batch, sched))
    {
      failed := sched.triggerFails;
      if failed {
        longer := EngineRefuses(start, trace, batch);
        longer := LetOthersRun(start, longer, sched.afterTrigger);
        longer := RequeueAndStash(start, longer, batch);
      } else {
        longer := EngineAccepts(start, trace, batch);
        longer := LetOthersRun(start, longer, sched.afterTrigger);
      }
    }

    /** Poll from the assign step on, whichever way its record was come by. */
    method FinishPoll(ghost start: State, ghost trace: seq<Label>, sched: PollSchedule)
      returns (record: Option<Record>, failed: bool, ghost longer: seq<Label>)
      requires Runs(config, start, trace, View())
      requires system.poll.Finishing? && system.poll.stage.Swapping?
      modifies this
      ensures Runs(config, start, longer, View()) && system.poll.Idle?
      ensures failed ==> record.None? && Mine() == old(Mine()).(stash := old(system.poll).record)
      ensures failed ==> sched.triggerFails && pendingAssigned != map[]
      ensures !failed ==> record == old(system.poll).record
      ensures !failed && record.None? ==> Mine() == old(Mine())
      ensures !failed && record.Some? ==>
                Mine() == old(Mine()).(awaiting := true, inHand := record,
                                       delivered := old(system.delivered) + [record.value])
    {
      longer := LetOthersRun(start, trace, sched.beforeSwap);
      record := system.poll.record;
      failed, longer := ProcessPendingRebalances(start, longer, sched);
      if failed {
        record := None;
      } else if record.Some? {
        longer := Deliver(start, longer, record.value);
      } else {
        longer := ReturnEmpty(start, longer);
      }
    }

    /** `reach` and `rest` split the run where Poll has looked at the stash, in the state `front`. */
    method Poll(sched: PollSchedule)
      returns (record: Option<Record>, err: Option<PollError>,
               ghost reach: seq<Label>, ghost front: State, ghost rest: seq<Label>)
      requires Valid() && system.poll.Idle? && system.inHand.None?
      modifies this
      ensures Valid() && system.poll.Idle?
      ensures Runs(config, old(View()), reach, front) && Runs(config, front, rest, View())
      ensures system.dispatched == old(system.dispatched)
      ensures system.delivered == old(system.delivered) + OptionSeq(record)
      ensures system.inHand == record
      ensures connected ==> (recordAwaitingDispatch <==> record.Some?)
      ensures record.Some? ==> err.None? && pendingRecord.None?
      ensures old(pendingRecord).Some? && connected ==>
                || (record == old(pendingRecord) && err.None?)
                || (pendingRecord == old(pendingRecord) && err == Some(TriggerFailed))
      ensures pendingRecord.Some? && connected ==> err == Some(TriggerFailed)
      ensures err == Some(TriggerFailed) ==> sched.triggerFails && pendingAssigned != map[]
      ensures err == Some(ClientClosed) ==> !connected || RecordsClosed(system.loop)
      ensures !connected ==> err == Some(ClientClosed) && View() == old(View())
      ensures record.Some? && !system.cancelled ==> pendingAssigned == map[]
      ensures connected && old(pendingRecord).None? ==> front.poll.FastReceive?
      ensures connected && old(pendingRecord).None? && ClosedInTime(config, front, sched) ==> err == Some(ClientClosed)
      ensures connected && old(pendingRecord).None? && !ClosedInTime(config, front, sched) ==>
                err != Some(ClientClosed)
                && (if record.Some? then record else pendingRecord) == TakenInTime(config, front, sched)
      ensures connected && old(pendingRecord).None? && RecordsClosed(old(system.loop)) ==> err == Some(ClientClosed)
      ensures connected && old(system.loop).Handoff? ==> front.loop == old(system.loop)
    {
      ghost var start := View();
      if !connected {
        return None, Some(ClientClosed), [], start, [];
      }
      ReachablePollInv(config, start);
      OfferMeansNothingOwed(config, start);
      var stashed;
      stashed, reach := BeginPoll(start, sched);
      front := View();
      record, err, rest := CompletePoll(front, stashed, sched);
      ghost var trace := Join(config, start, reach, front, rest, View());
      ReachableBy(config, start, trace, View());
      SettledOnReturn(config, View());
    }

    /** The rest of Poll: the receive unless there was a stash, the assign step, and the return. */
    method CompletePoll(ghost front: State, stashed: bool, sched: PollSchedule)
      returns (record: Option<Record>, err: Option<PollError>, ghost rest: seq<Label>)
      requires front == View() && !recordAwaitingDispatch && pendingRecord.None? && system.inHand.None?
      requires stashed ==> system.poll.Finishing? && system.poll.stage.Swapping? && system.poll.record.Some?
      requires !stashed ==> system.poll.FastReceive?
      modifies this
      ensures Runs(config, front, rest, View()) && system.poll.Idle?
      ensures system.dispatched == old(system.dispatched)
      ensures system.delivered == old(system.delivered) + OptionSeq(record)
      ensures system.inHand == record && (recordAwaitingDispatch <==> record.Some?)
      ensures record.Some? ==> err.None? && pendingRecord.None?
      ensures err == Some(TriggerFailed) ==> record.None? && sched.triggerFails && pendingAssigned != map[]
      ensures err == Some(ClientClosed) ==> !stashed && RecordsClosed(system.loop) && record.None?
      ensures err != Some(TriggerFailed) ==> pendingRecord.None?
      ensures stashed ==> err != Some(ClientClosed)
                          && (if record.Some? then record else pendingRecord) == old(system.poll).record
      ensures !stashed && ClosedInTime(config, front, sched) ==> err == Some(ClientClosed)
      ensures !stashed && !ClosedInTime(config, front, sched) ==>
                err != Some(ClientClosed)
                && (if record.Some? then record else pendingRecord) == TakenInTime(config, front, sched)
      ensures !stashed && RecordsClosed(front.loop) ==> err == Some(ClientClosed)
    {
      rest := [];
      if !stashed {
        var closed;
        closed, rest := ReceiveNext(front, sched);
        if closed {
          return None, Some(ClientClosed), rest;
        }
      }
      var failed;
      record, failed, rest := FinishPoll(front, rest, sched);
      err := if failed then Some(TriggerFailed) else None;
    }

    // -------------------------------------------------------------------------------------------
    // The fetch goroutine: its atomic sections
    // -------------------------------------------------------------------------------------------

    method LetEngineRun(ghost start: State, ghost trace: seq<Label>, moves: seq<Label>)
      returns (ghost longer: seq<Label>)
      requires Runs(config, start, trace, View())
      modifies this
      ensures Runs(config, start, longer, View())
      ensures system.loop == old(system.loop) && system.accepted == old(system.accepted)
      ensures system.polls == old(system.polls)
      ensures View() == Scheduled(config, LoopParty, old(View()), moves)
    {
      ghost var s := View();
      ghost var more := Interfere(LoopParty, moves);
      longer := Join(config, start, trace, s, more, View());
    }

    /** A client poll after which a closed or cancelled loop leaves. */
    method Stop(ghost start: State, ghost trace: seq<Label>, a: Answer) returns (ghost longer: seq<Label>)
      requires Runs(config, start, trace, View()) && system.loop.Fetching? && ClientMayAnswer(View(), a)
      requires a.closed || system.cancelled
      modifies this
      ensures Runs(config, start, longer, View()) && longer == trace + [Loop(PollReturns(a))]
      ensures system.loop.Exiting? && system.accepted == old(system.accepted)
      ensures system.polls == old(system.polls) + 1 && system.cancelled == old(system.cancelled)
    {
      ghost var s := View();
      var held := system.held || a.registered;
      system := system.(loop := Exiting, polls := system.polls + 1, held := held);
      longer := AfterStop(config, start, trace, s, a, held, View());
    }

    /** A record of another topic: refused, and the loop leaves. */
    method Refuse(ghost start: State, ghost trace: seq<Label>, a: Answer) returns (ghost longer: seq<Label>)
      requires Runs(config, start, trace, View()) && system.loop.Fetching? && ClientMayAnswer(View(), a)
      requires !a.closed && !system.cancelled && Foreign(config, a)
      modifies this
      ensures Runs(config, start, longer, View()) && longer == trace + [Loop(PollReturns(a))]
      ensures system.loop.Exiting? && system.accepted == old(system.accepted)
      ensures system.polls == old(system.polls) + 1 && system.cancelled == old(system.cancelled)
    {
      ghost var s := View();
      system := system.(loop := Exiting, polls := system.polls + 1, held := true, foreign := true);
      longer := AfterLoop(config, start, trace, s, PollReturns(a), View());
    }

    /** A client poll that produced a record to deliver. */
    method Accept(ghost start: State, ghost trace: seq<Label>, a: Answer) returns (ghost longer: seq<Label>)
      requires Runs(config, start, trace, View()) && system.loop.Fetching?
      requires ClientMayAnswer(View(), a)
      requires !a.closed && !system.cancelled && !Foreign(config, a) && a.records != []
      modifies this
      ensures Runs(config, start, longer, View()) && longer == trace + [Loop(PollReturns(a))]
      ensures system.loop == Handoff(a.records[0]) && system.accepted == old(system.accepted) + [a.records[0]]
      ensures system.polls == old(system.polls) + 1 && system.cancelled == old(system.cancelled)
    {
      ghost var s := View();
      system := system.(loop := Handoff(a.records[0]), accepted := system.accepted + [a.records[0]],
                        polls := system.polls + 1, held := true);
      longer := AfterLoop(config, start, trace, s, PollReturns(a), View());
    }

    /** A client poll without a record. */
    method ComeBackEmpty(ghost start: State, ghost trace: seq<Label>, a: Answer, next: LoopPc)
      returns (ghost longer: seq<Label>)
      requires Runs(config, start, trace, View()) && system.loop.Fetching?
      requires ClientMayAnswer(View(), a)
      requires !a.closed && !system.cancelled && a.records == []
      requires next == (if a.sawErr && config.backoffEnabled then Backoff else Fetching)
      modifies this
      ensures Runs(config, start, longer, View()) && longer == trace + [Loop(PollReturns(a))]
      ensures system.loop == next && system.accepted == old(system.accepted)
      ensures system.polls == old(system.polls) + 1
    {
      ghost var s := View();
      var held := system.held || a.registered;
      var leftover := system.leftover || a.registered;
      system := system.(loop := next, polls := system.polls + 1, held := held, leftover := leftover);
      longer := AfterEmptyFetch(config, start, trace, s, a, next, held, leftover, View());
    }

    /** One move of the loop that only repositions it, or opens the gate. */
    method Advance(ghost start: State, ghost trace: seq<Label>, m: LoopMove) returns (ghost longer: seq<Label>)
      requires Runs(config, start, trace, View()) && LoopEnabled(View(), m)
      requires m in {BackoffEnds, DropRecord, AbandonWait, AllowNext}
      modifies this
      ensures Runs(config, start, longer, View()) && longer == trace + [Loop(m)]
      ensures system.loop == (if m == BackoffEnds || m == AllowNext then Fetching else Exiting)
      ensures system.accepted == old(system.accepted) && system.polls == old(system.polls)
      ensures system.cancelled == old(system.cancelled)
    {
      ghost var s := View();
      match m {
        case BackoffEnds =>
          system := system.(loop := Fetching);
        case DropRecord =>
          system := system.(loop := Exiting, dropped := system.dropped + [system.loop.record]);
        case AbandonWait =>
          system := system.(loop := Exiting);
        case AllowNext =>
          system := system.(loop := Fetching, held := false, leftover := false, allows := system.allows + 1);
      }
      longer := AfterLoop(config, start, trace, s, m, View());
    }

    // -------------------------------------------------------------------------------------------
    // fetchNext and runFetchLoop
    // -------------------------------------------------------------------------------------------

    method FetchNext(ghost start: State, ghost trace: seq<Label>, sched: LoopSchedule)
      returns (outcome: FetchOutcome, ghost longer: seq<Label>)
      requires Runs(config, start, trace, View()) && system.loop.Fetching?
      modifies this
      ensures Runs(config, start, longer, View())
      ensures outcome.StillPolling? ==> system.loop.Fetching? && !ClientMayAnswer(View(), sched.answer)
      ensures outcome.StillPolling? <==> !ClientMayAnswer(Scheduled(config, LoopParty, old(View()), sched.beforeAnswer), sched.answer)
      ensures !outcome.StillPolling? ==>
                (outcome.MustExit? <==> sched.answer.closed || Scheduled(config, LoopParty, old(View()), sched.beforeAnswer).cancelled
                                        || Foreign(config, sched.answer))
      ensures outcome.NothingFetched? && sched.answer.sawErr && config.backoffEnabled ==>
                longer != [] && longer[|longer| - 1] == Loop(BackoffEnds)
      ensures outcome.NothingFetched? && !(sched.answer.sawErr && config.backoffEnabled) ==>
                longer != [] && longer[|longer| - 1] == Loop(PollReturns(sched.answer))
      ensures system.polls == old(system.polls) + if outcome.StillPolling? then 0 else 1
      ensures outcome.MustExit? ==> system.loop.Exiting?
                                    && (sched.answer.closed || system.cancelled || Foreign(config, sched.answer))
      ensures outcome.NothingFetched? ==> system.loop.Fetching? && !sched.answer.closed && sched.answer.records == []
      ensures outcome.Fetched? ==> system.loop == Handoff(outcome.record) && sched.answer.records != []
                                   && outcome.record == sched.answer.records[0] && !Foreign(config, sched.answer)
                                   && !sched.answer.closed && !system.cancelled
      ensures system.accepted ==
              old(system.accepted) + (if outcome.Fetched? then [outcome.record] else [])
    {
      longer := LetEngineRun(start, trace, sched.beforeAnswer);
      var a := sched.answer;
      if !ClientMayAnswer(View(), a) {
        return StillPolling, longer;
      }
      if a.closed || system.cancelled {
        longer := Stop(start, longer, a);
        return MustExit, longer;
      }
      if a.records != [] {
        if config.topicName != "" && a.records[0].topic != config.topicName {
          longer := Refuse(start, longer, a);
          return MustExit, longer;
        }
        longer := Accept(start, longer, a);
        return Fetched(a.records[0]), longer;
      }
      var backOff := a.sawErr && config.backoffEnabled;
      longer := ComeBackEmpty(start, longer, a, if backOff then Backoff else Fetching);
      if backOff {
        longer := LetEngineRun(start, longer, sched.duringBackoff);
        longer := Advance(start, longer, BackoffEnds);
      }
      return NothingFetched, longer;
    }

    /** The two selects on a record in hand, and the AllowRebalance after its dispatch signal. */
    method DeliverAndWait(ghost start: State, ghost trace: seq<Label>, sched: LoopSchedule)
      returns (status: LoopStatus, ghost longer: seq<Label>)
      requires Runs(config, start, trace, View()) && system.loop.Handoff?
      modifies this
      ensures Runs(config, start, longer, View()) && system.accepted == old(system.accepted)
      ensures system.polls == old(system.polls)
      ensures status.Running? ==> system.loop.Fetching?
      ensures status.Stopped? ==> system.loop.Exiting? && system.cancelled
      ensures status.Parked? ==> StuckOnRecord(View())
      ensures status.Running? ==> Receiving(Scheduled(config, LoopParty, old(View()), sched.duringHandoff).poll)
    {
      status, longer := OfferRecord(start, trace, sched);
      if status.Running? {
        status, longer := AwaitDispatched(start, longer, sched);
      }
    }

    /** The first select: hand the record over, or drop it. */
    method OfferRecord(ghost start: State, ghost trace: seq<Label>, sched: LoopSchedule)
      returns (status: LoopStatus, ghost longer: seq<Label>)
      requires Runs(config, start, trace, View()) && system.loop.Handoff?
      modifies this
      ensures Runs(config, start, longer, View()) && system.accepted == old(system.accepted)
      ensures system.polls == old(system.polls)
      ensures status.Running? ==> system.loop.AwaitDispatch?
                                  && system.poll == Finishing(Some(old(system.loop).record), Swapping)
      ensures status.Running? <==> Receiving(Scheduled(config, LoopParty, old(View()), sched.duringHandoff).poll)
                                   && !(Scheduled(config, LoopParty, old(View()), sched.duringHandoff).cancelled && sched.cancelWins)
      ensures status.Parked? <==> !Receiving(Scheduled(config, LoopParty, old(View()), sched.duringHandoff).poll)
                                  && !Scheduled(config, LoopParty, old(View()), sched.duringHandoff).cancelled
      ensures status.Stopped? ==> system.loop.Exiting? && system.cancelled
      ensures status.Parked? ==> StuckOnRecord(View())
    {
      longer := LetEngineRun(start, trace, sched.duringHandoff);
      if system.cancelled && (sched.cancelWins || !Receiving(system.poll)) {
        longer := Advance(start, longer, DropRecord);
        return Stopped, longer;
      }
      if !Receiving(system.poll) {
        return Parked, longer;
      }
      var _, taken := TakeFromChannel(start, longer);
      return Running, taken;
    }

    /** The second select: take the signal and open the gate, or leave. */
    method AwaitDispatched(ghost start: State, ghost trace: seq<Label>, sched: LoopSchedule)
      returns (status: LoopStatus, ghost longer: seq<Label>)
      requires Runs(config, start, trace, View()) && system.loop.AwaitDispatch?
      modifies this
      ensures Runs(config, start, longer, View()) && system.accepted == old(system.accepted)
      ensures system.polls == old(system.polls)
      ensures status.Running? ==> system.loop.Fetching?
      ensures status.Running? <==> Scheduled(config, LoopParty, old(View()), sched.duringWait).poll.Signalling?
                                   && !(Scheduled(config, LoopParty, old(View()), sched.duringWait).cancelled && sched.cancelWins)
      ensures status.Parked? <==> !Scheduled(config, LoopParty, old(View()), sched.duringWait).poll.Signalling?
                                  && !Scheduled(config, LoopParty, old(View()), sched.duringWait).cancelled
      ensures status.Stopped? ==> system.loop.Exiting? && system.cancelled
      ensures status.Parked? ==> StuckOnRecord(View())
    {
      longer := LetEngineRun(start, trace, sched.duringWait);
      if system.cancelled && (sched.cancelWins || !system.poll.Signalling?) {
        longer := Advance(start, longer, AbandonWait);
        return Stopped, longer;
      }
      if !system.poll.Signalling? {
        return Parked, longer;
      }
      longer := SendSignal(start, longer);
      longer := Advance(start, longer, AllowNext);
      return Running, longer;
    }

    /** One pass of the loop, from its client poll to the next. */
    method OnePass(ghost start: State, ghost trace: seq<Label>, sched: LoopSchedule)
      returns (status: LoopStatus, ghost longer: seq<Label>)
      requires Runs(config, start, trace, View()) && system.loop.Fetching?
      modifies this
      ensures Runs(config, start, longer, View())
      ensures status.Running? ==> system.loop.Fetching? && system.polls == old(system.polls) + 1
      ensures status.Stopped? ==> system.loop.Exiting?
      ensures status.Parked? ==> StuckOnRecord(View()) || (system.loop.Fetching? && !ClientMayAnswer(View(), sched.answer))
      ensures system.accepted == old(system.accepted)
              || (sched.answer.records != [] && system.accepted == old(system.accepted) + [sched.answer.records[0]])
    {
      var outcome;
      outcome, longer := FetchNext(start, trace, sched);
      match outcome {
        case Fetched(_) => status, longer := DeliverAndWait(start, longer, sched);
        case MustExit => status := Stopped;
        case StillPolling => status := Parked;
        case NothingFetched => status := Running;
      }
    }

    /** runFetchLoop, for as many passes as the schedule has turns; leaving it runs the deferred calls. */
    method RunFetchLoop(turns: seq<LoopSchedule>) returns (status: LoopStatus, ghost trace: seq<Label>)
      requires Valid() && system.loop.Fetching?
      modifies this
      ensures Valid() && Runs(config, old(View()), trace, View())
      ensures status.Running? ==> system.loop.Fetching? && system.polls == old(system.polls) + |turns|
      ensures status.Parked? ==> StuckOnRecord(View()) || Unanswered(turns, View())
      ensures status.Stopped? ==> system.loop.Done? && !system.held
      ensures old(system.accepted) <= system.accepted
      ensures |system.accepted| <= |old(system.accepted)| + |turns|
      ensures forall i | |old(system.accepted)| <= i < |system.accepted| ::
                Offered(turns, system.accepted[i])
    {
      ghost var start := View();
      trace := [];
      status := Running;
      for i := 0 to |turns|
        invariant Runs(config, start, trace, View()) && system.loop.Fetching? && status.Running?
        invariant system.polls == start.polls + i
        invariant start.accepted <= system.accepted && |system.accepted| <= |start.accepted| + i
        invariant forall j | |start.accepted| <= j < |system.accepted| ::
                    Offered(turns, system.accepted[j])
      {
        status, trace := OnePass(start, trace, turns[i]);
        if !status.Running? {
          break;
        }
      }
      if status.Stopped? {
        trace := LetLoopExit(start, trace);
      }
      ReachableBy(config, start, trace, View());
      if status.Stopped? {
        OneAllowPerSignal(config, View());
      }
    }
  }
}
