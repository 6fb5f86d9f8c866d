/** What the gate protocol guarantees in every run, whatever the interleaving. */
module GateTheorems {
  import opened Prelude
  import opened AssignQueue
  import opened GateProtocol

  // ---------------------------------------------------------------------------------------------
  // Commit before release
  // ---------------------------------------------------------------------------------------------

  /** The loop has run its deferred AllowRebalance, or the client's close has forced the gate. */
  predicate GateAbandoned(s: State) {
    s.forced || PastGate(s.loop)
  }

  /** With an accepted record still undispatched, a rebalance can start exactly when the gate was
      abandoned: it is shut in every other state. */
  lemma GateShutUnlessAbandoned(c: Config, s: State)
    requires Reachable(c, s) && s.accepted != s.dispatched
    ensures !GateAbandoned(s) ==> !s.rebalance && !WorldEnabled(s, RebalanceBegins)
    ensures GateAbandoned(s) ==> s.rebalance || WorldEnabled(s, RebalanceBegins)
    ensures GateAbandoned(s) ==> s.cancelled
  {
    ReachableInv(c, s);
  }

  /** Until cancellation, a running rebalance finds every accepted record dispatched, nothing in the
      adapter's hands, and a revoke drain sees all of it. */
  lemma CommitBeforeRelease(c: Config, s: State)
    requires Reachable(c, s) && s.rebalance && !s.cancelled
    ensures s.accepted == s.delivered == s.dispatched
    ensures s.stash.None? && s.inHand.None? && Carried(s) == [] && InLoop(s) == []
    ensures ApplyWorld(s, Revoked).drained == s.accepted
    ensures ApplyWorld(s, Revoked).pending == s.pending
  {
    ReachableInv(c, s);
  }

  /** The record sequences and the rebalance are as they were. */
  predicate SameRecords(s: State, t: State) {
    && t.accepted == s.accepted && t.delivered == s.delivered && t.dispatched == s.dispatched
    && t.rebalance == s.rebalance
  }

  lemma LoopIdleInRebalance(c: Config, s: State, m: LoopMove)
    requires ControlInv(c, s) && s.rebalance && !s.cancelled && LoopEnabled(s, m)
    ensures SameRecords(s, ApplyLoop(c, s, m))
  {
  }

  lemma PollIdleInRebalance(c: Config, s: State, m: PollMove)
    requires ControlInv(c, s) && s.rebalance && !s.cancelled && PollEnabled(s, m)
    ensures SameRecords(s, ApplyPoll(s, m))
  {
    assert Carried(s) == [];
  }

  lemma WorldIdleInRebalance(c: Config, s: State, m: WorldMove)
    requires ControlInv(c, s) && s.rebalance && !s.cancelled && WorldEnabled(s, m) && !m.RebalanceEnds?
    ensures SameRecords(s, ApplyWorld(s, m))
  {
  }

  lemma StepKeepsCancelled(c: Config, s: State, l: Label)
    requires Enabled(s, l) && s.cancelled
    ensures Apply(c, s, l).cancelled
  {
    match l
    case Loop(m) => CancelledLoopStep(c, s, m);
    case Poll(m) => PollLeavesLoop(s, m);
    case World(m) => WorldLeavesLoop(s, m);
  }

  lemma {:induction false} RunKeepsCancelled(c: Config, s: State, ls: seq<Label>, t: State)
    requires Runs(c, s, ls, t) && s.cancelled
    ensures t.cancelled
    decreases |ls|
  {
    if ls != [] {
      StepKeepsCancelled(c, s, ls[0]);
      RunKeepsCancelled(c, Apply(c, s, ls[0]), ls[1..], t);
    }
  }

  /** Nothing is fetched, delivered or dispatched between a rebalance's start and its end. */
  lemma {:induction false} RebalanceDeliversNothing(c: Config, s: State, ls: seq<Label>, t: State)
    requires Inv(c, s) && s.rebalance && Runs(c, s, ls, t)
    requires World(RebalanceEnds) !in ls && !t.cancelled
    ensures SameRecords(s, t)
    decreases |ls|
  {
    if ls != [] {
      var u := Apply(c, s, ls[0]);
      if u.cancelled {
        RunKeepsCancelled(c, u, ls[1..], t);
      }
      if s.cancelled {
        StepKeepsCancelled(c, s, ls[0]);
      }
      match ls[0] {
        case Loop(m) => LoopIdleInRebalance(c, s, m);
        case Poll(m) => PollIdleInRebalance(c, s, m);
        case World(m) => WorldIdleInRebalance(c, s, m);
      }
      StepKeepsInv(c, s, ls[0]);
      RebalanceDeliversNothing(c, u, ls[1..], t);
    }
  }

  /** After cancellation the promise lapses: a record can sit undispatched in the engine's hands while
      a rebalance runs, and the drain misses it. */
  lemma CancelledLoopOpensGateEarly(c: Config, r: Record) returns (ls: seq<Label>, s: State)
    requires c.topicName == "" || r.topic == c.topicName
    ensures Runs(c, Init(), ls, s)
    ensures s.rebalance && s.inHand == Some(r) && s.accepted == [r] && s.dispatched == []
    ensures ApplyWorld(s, Revoked).drained != s.accepted
  {
    var opening, s3 := FetchOne(c, r);
    var s4 := ApplyLoop(c, s3, HandOver);
    var s5 := ApplyPoll(s4, Swap);
    var s6 := ApplyPoll(s5, Return);
    var delivery := FromTo(c, s3, [Loop(HandOver), Poll(Swap), Poll(Return)], [s3, s4, s5, s6]);
    var ending;
    ending, s := AbandonAndRebalance(c, s6);
    RunsCompose(c, Init(), opening, s3, delivery, s6);
    RunsCompose(c, Init(), opening + delivery, s6, ending, s);
    ls := opening + delivery + ending;
  }

  lemma FetchOne(c: Config, r: Record) returns (ls: seq<Label>, t: State)
    requires c.topicName == "" || r.topic == c.topicName
    ensures Runs(c, Init(), ls, t)
    ensures t == Init().(loop := Handoff(r), accepted := [r], held := true, polls := 1, poll := FastReceive)
  {
    var fetch := PollReturns(Answer(false, [r], false, false, true));
    var s1 := ApplyLoop(c, Init(), fetch);
    var s2 := ApplyPoll(s1, CallPoll);
    t := ApplyPoll(s2, TakeStash);
    ls := FromTo(c, Init(), [Loop(fetch), Poll(CallPoll), Poll(TakeStash)], [Init(), s1, s2, t]);
  }

  lemma AbandonAndRebalance(c: Config, s: State) returns (ls: seq<Label>, t: State)
    requires s.loop.AwaitDispatch? && !s.rebalance
    ensures Runs(c, s, ls, t)
    ensures t == s.(cancelled := true, loop := GateOpened, held := false, leftover := false,
                    allows := s.allows + 1, rebalance := true)
  {
    var s1 := ApplyWorld(s, Cancel);
    var s2 := ApplyLoop(c, s1, AbandonWait);
    var s3 := ApplyLoop(c, s2, ExitAllow);
    t := ApplyWorld(s3, RebalanceBegins);
    ls := FromTo(c, s, [World(Cancel), Loop(AbandonWait), Loop(ExitAllow), World(RebalanceBegins)],
                 [s, s1, s2, s3, t]);
  }

  /** A run given by its intermediate states. */
  lemma {:induction false} FromTo(c: Config, s: State, steps: seq<Label>, states: seq<State>) returns (ls: seq<Label>)
    requires |states| == |steps| + 1 && states[0] == s
    requires forall i | 0 <= i < |steps| ::
               Enabled(states[i], steps[i]) && Apply(c, states[i], steps[i]) == states[i + 1]
    ensures ls == steps && Runs(c, s, steps, states[|steps|])
    decreases |steps|
  {
    ls := steps;
    if steps != [] {
      var _ := FromTo(c, states[1], steps[1..], states[1..]);
    }
  }

  lemma Last(c: Config, s: State, l: Label)
    requires Enabled(s, l)
    ensures Runs(c, s, [l], Apply(c, s, l))
  {
    assert [l][1..] == [];
  }

  lemma Prepend(c: Config, s: State, l: Label, ls: seq<Label>, t: State)
    requires Enabled(s, l) && Runs(c, Apply(c, s, l), ls, t)
    ensures Runs(c, s, [l] + ls, t)
  {
    assert ([l] + ls)[1..] == ls;
  }

  // ---------------------------------------------------------------------------------------------
  // Exactly-once, in-order hand-over
  // ---------------------------------------------------------------------------------------------

  /** Poll returns a prefix of what the loop accepted; at most one record is outstanding; a record that
      will never be delivered is the last one and was given up on cancellation. */
  lemma HandOverExactlyOnce(c: Config, s: State)
    requires Reachable(c, s)
    ensures s.dispatched <= s.delivered <= s.accepted
    ensures |s.accepted| <= |s.delivered| + 1 && |s.delivered| <= |s.dispatched| + 1
    ensures s.accepted == s.delivered + Carried(s) + InLoop(s) + s.dropped
    ensures s.dropped != [] ==> s.cancelled && Closing(s.loop) && Carried(s) + InLoop(s) == []
  {
    ReachableInv(c, s);
    assert |Carried(s) + InLoop(s) + s.dropped| <= 1;
  }

  /** The records in the client's answer, if the step is one. */
  function OfferedBy(l: Label): seq<Record> {
    if l.Loop? && l.loopMove.PollReturns? then l.loopMove.answer.records else []
  }

  /** Every record the client offered in a run. */
  function OfferedIn(ls: seq<Label>): seq<Record> {
    if ls == [] then [] else OfferedBy(ls[0]) + OfferedIn(ls[1..])
  }

  lemma LoopAcceptsOffer(c: Config, s: State, m: LoopMove)
    requires LoopEnabled(s, m)
    ensures !Closing(ApplyLoop(c, s, m).loop) ==> ApplyLoop(c, s, m).accepted == s.accepted + OfferedBy(Loop(m))
    ensures Closing(ApplyLoop(c, s, m).loop) ==> ApplyLoop(c, s, m).accepted == s.accepted
  {
    if m.PollReturns? && m.answer.records != [] {
      assert m.answer.records == [m.answer.records[0]];
    }
  }

  /** The loop accepts every record the client offers, in order, for as long as it runs. */
  lemma {:induction false} AcceptsWhatIsOffered(c: Config, s: State, ls: seq<Label>, t: State)
    requires Runs(c, s, ls, t)
    ensures t.accepted <= s.accepted + OfferedIn(ls)
    ensures !Closing(t.loop) ==> t.accepted == s.accepted + OfferedIn(ls)
    decreases |ls|
  {
    if ls != [] {
      var u := Apply(c, s, ls[0]);
      match ls[0] {
        case Loop(m) => LoopAcceptsOffer(c, s, m);
        case Poll(m) => PollLeavesLoop(s, m);
        case World(m) => WorldLeavesLoop(s, m);
      }
      if Closing(u.loop) {
        RunStaysClosing(c, u, ls[1..], t);
      } else {
        AcceptsWhatIsOffered(c, u, ls[1..], t);
      }
    }
  }

  /** A failed assign trigger, however often it repeats, neither loses the record nor lets another past
      it, and sends the loop no signal. */
  lemma {:induction false} StashKeepsRecordAndSendsNoSignal(c: Config, s: State, ls: seq<Label>, t: State)
    requires Inv(c, s) && Carried(s) != [] && Runs(c, s, ls, t) && Poll(Return) !in ls
    ensures StillCarried(s, t)
    decreases |ls|
  {
    if ls != [] {
      var u := Apply(c, s, ls[0]);
      match ls[0] {
        case Loop(m) => LoopLeavesCarried(c, s, m);
        case Poll(m) => PollKeepsCarried(c, s, m);
        case World(m) => WorldLeavesCarried(c, s, m);
      }
      StepKeepsInv(c, s, ls[0]);
      StashKeepsRecordAndSendsNoSignal(c, u, ls[1..], t);
      if PastGate(u.loop) {
        RunStaysClosing(c, u, ls[1..], t);
      }
    }
  }

  predicate StillCarried(s: State, t: State) {
    && Carried(t) == Carried(s)
    && t.signals == s.signals && t.accepted == s.accepted && t.delivered == s.delivered
    && (!PastGate(t.loop) ==> t.allows == s.allows)
  }

  lemma LoopLeavesCarried(c: Config, s: State, m: LoopMove)
    requires ControlInv(c, s) && Carried(s) != [] && LoopEnabled(s, m)
    ensures StillCarried(s, ApplyLoop(c, s, m))
  {
  }

  lemma PollKeepsCarried(c: Config, s: State, m: PollMove)
    requires ControlInv(c, s) && Carried(s) != [] && PollEnabled(s, m) && !m.Return?
    ensures StillCarried(s, ApplyPoll(s, m))
  {
  }

  lemma WorldLeavesCarried(c: Config, s: State, m: WorldMove)
    requires ControlInv(c, s) && Carried(s) != [] && WorldEnabled(s, m)
    ensures StillCarried(s, ApplyWorld(s, m))
  {
  }

  // ---------------------------------------------------------------------------------------------
  // Waiting and stopping
  // ---------------------------------------------------------------------------------------------

  /** Poll's only untimed wait is never a deadlock: its peer is waiting too, or on its way out. */
  lemma SignalWaitHasPeer(c: Config, s: State)
    requires Reachable(c, s) && (s.awaiting || s.poll.Signalling?)
    ensures s.stash.None?
    ensures s.loop.AwaitDispatch? || Closing(s.loop)
  {
    ReachableInv(c, s);
  }

  /** From any such wait, the loop's own exit steps (if any) and one arm of the select end it, with no
      help from the engine, the client or a timer. */
  lemma SignalWaitEnds(c: Config, s: State) returns (ls: seq<Label>, t: State)
    requires Reachable(c, s) && s.poll.Signalling?
    ensures Runs(c, s, ls, t) && t.poll.CheckStash? && |ls| <= 4
    ensures forall i | 0 <= i < |ls| :: EndsWait(ls[i])
  {
    SignalWaitHasPeer(c, s);
    if s.loop.AwaitDispatch? {
      ls, t := [Loop(TakeSignal)], ApplyLoop(c, s, TakeSignal);
      Last(c, s, Loop(TakeSignal));
    } else {
      ls, t := ExitThenSignal(c, s);
    }
  }

  /** The loop's deferred calls and the two arms of Poll's select. */
  predicate EndsWait(l: Label) {
    match l
    case Loop(m) => m.ExitAllow? || m.CloseRecords? || m.CloseDone? || m.TakeSignal?
    case Poll(m) => m.SignalLoopGone?
    case _ => false
  }

  /** The loop's next deferred call. */
  function ExitMove(l: LoopPc): LoopMove {
    if l.Exiting? then ExitAllow else if l.GateOpened? then CloseRecords else CloseDone
  }

  predicate ExitProgress(s: State, t: State) {
    t.poll == s.poll && Closing(t.loop) && LoopRank(t.loop) + 1 == LoopRank(s.loop)
  }

  lemma ExitMoveEnabled(s: State)
    requires Closing(s.loop) && !s.loop.Done?
    ensures LoopEnabled(s, ExitMove(s.loop))
  {
  }

  lemma ExitMoveProgress(c: Config, s: State, m: LoopMove)
    requires Closing(s.loop) && LoopEnabled(s, m)
    ensures ExitProgress(s, ApplyLoop(c, s, m))
  {
  }

  lemma {:induction false} ExitThenSignal(c: Config, s: State) returns (ls: seq<Label>, t: State)
    requires s.poll.Signalling? && Closing(s.loop)
    ensures Runs(c, s, ls, t) && t.poll.CheckStash? && |ls| == LoopRank(s.loop) + 1
    ensures forall i | 0 <= i < |ls| :: EndsWait(ls[i])
    decreases LoopRank(s.loop)
  {
    if s.loop.Done? {
      ls, t := [Poll(SignalLoopGone)], ApplyPoll(s, SignalLoopGone);
      Last(c, s, Poll(SignalLoopGone));
    } else {
      var m := ExitMove(s.loop);
      ExitMoveEnabled(s);
      ExitMoveProgress(c, s, m);
      var rest;
      rest, t := ExitThenSignal(c, ApplyLoop(c, s, m));
      ls := [Loop(m)] + rest;
      Prepend(c, s, Loop(m), rest, t);
    }
  }

  /** How many steps the loop can still take once its context is cancelled. */
  function LoopRank(l: LoopPc): nat {
    match l
    case Done => 0
    case ChannelClosed => 1
    case GateOpened => 2
    case Exiting => 3
    case Fetching => 4
    case Backoff => 5
    case Releasing => 5
    case AwaitDispatch => 6
    case Handoff(_) => 7
  }

  function LoopSteps(ls: seq<Label>): nat {
    if ls == [] then 0 else (if ls[0].Loop? then 1 else 0) + LoopSteps(ls[1..])
  }

  function HandOvers(ls: seq<Label>): nat {
    if ls == [] then 0 else (if ls[0] == Loop(HandOver) then 1 else 0) + HandOvers(ls[1..])
  }

  predicate WindsDown(s: State, m: LoopMove, t: State) {
    && t.cancelled && t.accepted == s.accepted && !t.loop.Handoff?
    && LoopRank(t.loop) < LoopRank(s.loop)
    && t.polls == s.polls + (if m.PollReturns? then 1 else 0)
    && (m.PollReturns? ==> s.loop.Fetching? && t.loop.Exiting?)
    && (Closing(s.loop) ==> Closing(t.loop))
    && (m.HandOver? ==> s.loop.Handoff?)
  }

  lemma CancelledLoopStep(c: Config, s: State, m: LoopMove)
    requires s.cancelled && LoopEnabled(s, m)
    ensures WindsDown(s, m, ApplyLoop(c, s, m))
  {
  }

  predicate SameLoop(s: State, t: State) {
    t.loop == s.loop && t.accepted == s.accepted && t.polls == s.polls && (s.cancelled ==> t.cancelled)
  }

  lemma PollLeavesLoop(s: State, m: PollMove)
    requires PollEnabled(s, m)
    ensures SameLoop(s, ApplyPoll(s, m))
  {
  }

  lemma WorldLeavesLoop(s: State, m: WorldMove)
    requires WorldEnabled(s, m)
    ensures SameLoop(s, ApplyWorld(s, m))
  {
  }

  /** Once cancelled, every loop step uses up rank whichever ready arm is taken: the loop accepts nothing
      more, completes at most one more client poll and hands over at most one more record. */
  lemma {:induction false} CancelledLoopWindsDown(c: Config, s: State, ls: seq<Label>, t: State)
    requires s.cancelled && Runs(c, s, ls, t)
    ensures LoopSteps(ls) + LoopRank(t.loop) <= LoopRank(s.loop)
    ensures t.accepted == s.accepted
    ensures t.polls <= s.polls + (if Closing(s.loop) then 0 else 1)
    ensures HandOvers(ls) <= if s.loop.Handoff? then 1 else 0
    decreases |ls|
  {
    if ls != [] {
      match ls[0] {
        case Loop(m) => CancelledLoopStep(c, s, m);
        case Poll(m) => PollLeavesLoop(s, m);
        case World(m) => WorldLeavesLoop(s, m);
      }
      CancelledLoopWindsDown(c, Apply(c, s, ls[0]), ls[1..], t);
    }
  }

  /** The step a cancelled loop takes if nobody else moves. */
  function OwnMove(l: LoopPc): LoopMove {
    match l
    case Fetching => PollReturns(Answer(false, [], true, false, false))
    case Backoff => BackoffEnds
    case Handoff(_) => DropRecord
    case AwaitDispatch => AbandonWait
    case Releasing => AllowNext
    case _ => ExitMove(l)
  }

  /** A cancelled loop that is not done always has a step of its own to take, waiting on no other party
      but the client's poll call, and each such step brings it nearer to done. */
  lemma CancelledLoopCanStep(c: Config, s: State)
    requires s.cancelled && !s.loop.Done?
    ensures LoopEnabled(s, OwnMove(s.loop))
    ensures WindsDown(s, OwnMove(s.loop), ApplyLoop(c, s, OwnMove(s.loop)))
  {
    CancelledLoopStep(c, s, OwnMove(s.loop));
  }

  // ---------------------------------------------------------------------------------------------
  // Assigns
  // ---------------------------------------------------------------------------------------------

  /** A topic's partitions in one step, if it is an OnAssigned. */
  function GivenBy(l: Label, topic: string): seq<int> {
    if l.World? && l.worldMove.Assigned? && topic in l.worldMove.batch then l.worldMove.batch[topic] else []
  }

  /** Everything the client gave OnAssigned for a topic in a run, in order. */
  function AssignedIn(ls: seq<Label>, topic: string): seq<int> {
    if ls == [] then [] else GivenBy(ls[0], topic) + AssignedIn(ls[1..], topic)
  }

  /** Between two states OnAssigned was given exactly `ps` for the topic. */
  predicate Given(s: State, ps: seq<int>, t: State, topic: string) {
    At(t.everAssigned, topic) == At(s.everAssigned, topic) + ps
  }

  lemma WorldGives(s: State, m: WorldMove, topic: string)
    requires WorldEnabled(s, m)
    ensures Given(s, GivenBy(World(m), topic), ApplyWorld(s, m), topic)
  {
    if m.Assigned? {
      MergeAt(s.everAssigned, m.batch, topic);
    }
  }

  predicate SameAssigned(s: State, t: State) {
    t.everAssigned == s.everAssigned
  }

  lemma LoopGivesNothing(c: Config, s: State, m: LoopMove)
    requires LoopEnabled(s, m)
    ensures SameAssigned(s, ApplyLoop(c, s, m))
  {
  }

  lemma PollGivesNothing(s: State, m: PollMove)
    requires PollEnabled(s, m)
    ensures SameAssigned(s, ApplyPoll(s, m))
  {
  }

  lemma StepGives(c: Config, s: State, l: Label, topic: string)
    requires Enabled(s, l)
    ensures Given(s, GivenBy(l, topic), Apply(c, s, l), topic)
  {
    match l
    case Loop(m) => LoopGivesNothing(c, s, m);
    case Poll(m) => PollGivesNothing(s, m);
    case World(m) => WorldGives(s, m, topic);
  }

  lemma GivenTransitive(s: State, ps: seq<int>, t: State, qs: seq<int>, u: State, topic: string)
    requires Given(s, ps, t, topic) && Given(t, qs, u, topic)
    ensures Given(s, ps + qs, u, topic)
  {
  }

  lemma {:induction false} RunGives(c: Config, s: State, ls: seq<Label>, t: State, topic: string)
    requires Runs(c, s, ls, t)
    ensures Given(s, AssignedIn(ls, topic), t, topic)
    decreases |ls|
  {
    if ls != [] {
      var u := Apply(c, s, ls[0]);
      StepGives(c, s, ls[0], topic);
      RunGives(c, u, ls[1..], t, topic);
      GivenTransitive(s, GivenBy(ls[0], topic), u, AssignedIn(ls[1..], topic), t, topic);
    }
  }

  /** Across any interleaving of OnAssigned with the swap and the re-queue, and any pattern of trigger
      failures, no partition given to OnAssigned is lost, duplicated or taken out of order. */
  lemma AssignsConserved(c: Config, ls: seq<Label>, s: State, topic: string)
    requires Runs(c, Init(), ls, s)
    ensures AssignedIn(ls, topic) == At(s.taken, topic) + At(InFlight(s), topic) + At(s.pending, topic)
    ensures At(s.taken, topic) <= AssignedIn(ls, topic)
  {
    ReachableInv(c, s);
    RunGives(c, Init(), ls, s, topic);
    assert At(s.everAssigned, topic) == At(s.taken, topic) + At(InFlight(s), topic) + At(s.pending, topic);
  }

  /** When Poll is about to return a record, and for as long as the engine holds it, the engine has
      accepted every partition ever assigned. */
  lemma AssignsBeforeRecord(c: Config, s: State, topic: string)
    requires Reachable(c, s) && (!s.cancelled || !GateAbandoned(s))
    requires s.inHand.Some? || (s.poll.Finishing? && s.poll.record.Some? && s.poll.stage.Returning?)
    ensures s.held && s.pending == map[]
    ensures At(s.taken, topic) == At(s.everAssigned, topic)
  {
    ReachableInv(c, s);
    assert At(s.everAssigned, topic) == At(s.taken, topic) + At(InFlight(s), topic) + At(s.pending, topic);
  }

  /** In terms of the run: what the engine has accepted is all that OnAssigned was ever given. */
  lemma EngineHasEveryAssign(c: Config, ls: seq<Label>, s: State, topic: string)
    requires Runs(c, Init(), ls, s) && (!s.cancelled || !GateAbandoned(s))
    requires s.inHand.Some? || (s.poll.Finishing? && s.poll.record.Some? && s.poll.stage.Returning?)
    ensures At(s.taken, topic) == AssignedIn(ls, topic)
  {
    AssignsBeforeRecord(c, s, topic);
    RunGives(c, Init(), ls, s, topic);
  }

  // ---------------------------------------------------------------------------------------------
  // Gate accounting
  // ---------------------------------------------------------------------------------------------

  /** One AllowRebalance per dispatch signal and one on exit; and while the loop runs, one signal per
      record that has been through Poll and back. */
  lemma OneAllowPerSignal(c: Config, s: State)
    requires Reachable(c, s)
    ensures s.allows == s.signals + (if PastGate(s.loop) then 1 else 0) - (if s.loop.Releasing? then 1 else 0)
    ensures !Closing(s.loop) ==>
              s.signals == |s.accepted| - (if s.loop.Handoff? || s.loop.AwaitDispatch? then 1 else 0)
    ensures PastGate(s.loop) ==> !s.held
  {
    ReachableInv(c, s);
  }

  /** If every fetch without a record gave its registration back, the gate is shut exactly from a
      record's fetch to the AllowRebalance that follows its dispatch signal. */
  lemma GateHeldExactly(c: Config, s: State)
    requires Reachable(c, s) && !s.forced && !s.leftover && !Closing(s.loop)
    ensures s.held <==> s.loop.Handoff? || s.loop.AwaitDispatch? || s.loop.Releasing?
  {
    ReachableInv(c, s);
  }

  // ---------------------------------------------------------------------------------------------
  // Single topic
  // ---------------------------------------------------------------------------------------------

  lemma OnlyConfiguredTopic(c: Config, s: State, r: Record)
    requires Reachable(c, s) && c.topicName != ""
    requires r in s.delivered || s.inHand == Some(r) || s.stash == Some(r)
    ensures r.topic == c.topicName
  {
    ReachableInv(c, s);
    assert r in s.accepted;
  }

  /** Once the loop is on its way out (a foreign record, a closed client, a cancelled context), it
      polls and accepts no more. */
  lemma {:induction false} RunStaysClosing(c: Config, s: State, ls: seq<Label>, t: State)
    requires Closing(s.loop) && Runs(c, s, ls, t)
    ensures StaysClosing(s, t)
    decreases |ls|
  {
    if ls != [] {
      match ls[0] {
        case Loop(m) => ClosingStep(c, s, m);
        case Poll(m) => PollLeavesLoop(s, m);
        case World(m) => WorldLeavesLoop(s, m);
      }
      RunStaysClosing(c, Apply(c, s, ls[0]), ls[1..], t);
    }
  }

  predicate StaysClosing(s: State, t: State) {
    && Closing(t.loop) && (PastGate(s.loop) ==> PastGate(t.loop))
    && t.polls == s.polls && t.accepted == s.accepted
  }

  lemma ClosingStep(c: Config, s: State, m: LoopMove)
    requires Closing(s.loop) && LoopEnabled(s, m)
    ensures StaysClosing(s, ApplyLoop(c, s, m))
  {
  }

  lemma ForeignRecordEndsFetching(c: Config, s: State, a: Answer, ls: seq<Label>, t: State)
    requires s.loop.Fetching? && ClientMayAnswer(s, a)
    requires a.records != [] && c.topicName != "" && a.records[0].topic != c.topicName
    requires Runs(c, ApplyLoop(c, s, PollReturns(a)), ls, t)
    ensures t.accepted == s.accepted && t.polls == s.polls + 1 && Closing(t.loop)
  {
    RunStaysClosing(c, ApplyLoop(c, s, PollReturns(a)), ls, t);
  }
}
