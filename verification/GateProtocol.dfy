/** The gate protocol as a labelled transition system: the fetch goroutine, the polling goroutine, the
    engine, and franz-go's client with its rebalance callbacks, interleaved in any order.

    Every label is one atomic step of one party: a channel rendezvous, one arm of a select, one critical
    section under the adapter's mutex, or one call into the client. */
module GateProtocol {
  import opened Prelude
  import opened AssignQueue

  datatype Config = Config(topicName: string, backoffEnabled: bool)

  datatype Record = Record(topic: string, partition: int, offset: int)

  /** What one client poll hands back. `sawErr` is handlePollErrors' result on it, `errored` whether it
      carried any error at all, `registered` whether it left a poller registration behind. */
  datatype Answer = Answer(closed: bool, records: seq<Record>, errored: bool, sawErr: bool, registered: bool)

  /** Where the fetch goroutine stands. The last four are its deferred calls, in the order they run. */
  datatype LoopPc =
    | Fetching
    | Backoff
    | Handoff(record: Record)
    | AwaitDispatch
    | Releasing
    | Exiting          // allowRebalanceFn still to run
    | GateOpened       // close(fetchedRecords) still to run
    | ChannelClosed    // close(fetchLoopDone) still to run
    | Done

  /** Where the polling goroutine stands inside Poll. */
  datatype PollPc =
    | Idle
    | Signalling
    | CheckStash
    | FastReceive
    | SlowReceive
    | Finishing(record: Option<Record>, stage: Stage)

  /** Inside processPendingRebalances, and on the way out of Poll. */
  datatype Stage =
    | Swapping
    | Triggering(batch: Assignment)
    | Requeueing(batch: Assignment)
    | Returning

  datatype State = State(
    loop: LoopPc,
    poll: PollPc,
    awaiting: bool,              // recordAwaitingDispatch
    stash: Option<Record>,       // pendingRecord
    pending: Assignment,         // pendingAssigned
    held: bool,                  // a poller registration exists inside the client
    rebalance: bool,             // a rebalance callback may be running
    cancelled: bool,             // fetchCtx is done
    forced: bool,                // the client's close has forced the gate open
    inHand: Option<Record>,      // returned by Poll, not yet dispatched by the engine
    accepted: seq<Record>,       // returned by fetchNext
    delivered: seq<Record>,      // returned by Poll
    dispatched: seq<Record>,     // put into the engine's pipeline
    dropped: seq<Record>,        // given up by the loop on cancellation
    drained: seq<Record>,        // what the latest revoke drain could see
    everAssigned: Assignment,        // every partition OnAssigned was ever given
    taken: Assignment,           // every partition whose assign trigger succeeded
    signals: nat,                // dispatch signals the loop received
    allows: nat,                 // AllowRebalance calls
    polls: nat,                  // client polls completed
    foreign: bool,               // a record of another topic was refused
    leftover: bool               // a fetch without a record kept its registration
  )

  function Init(): State {
    State(Fetching, Idle, false, None, map[], false, false, false, false, None,
          [], [], [], [], [], map[], map[], 0, 0, 0, false, false)
  }

  /** The fetch goroutine's steps; HandOver and TakeSignal are rendezvous with the polling goroutine. */
  datatype LoopMove =
    | PollReturns(answer: Answer)
    | BackoffEnds
    | HandOver
    | DropRecord
    | TakeSignal
    | AbandonWait
    | AllowNext
    | ExitAllow
    | CloseRecords
    | CloseDone

  /** The polling goroutine's steps. */
  datatype PollMove =
    | CallPoll
    | SignalLoopGone
    | TakeStash
    | NothingReady
    | ReceiveClosed
    | TimedOut
    | Swap
    | TriggerAccepts
    | TriggerFails
    | Requeue
    | Return

  /** The engine's dispatch, and the steps of the client and of whoever stops the adapter. */
  datatype WorldMove =
    | Dispatch
    | RebalanceBegins
    | Assigned(batch: Assignment)
    | Revoked
    | RebalanceEnds
    | Cancel
    | ForceOpen

  datatype Label = Loop(loopMove: LoopMove) | Poll(pollMove: PollMove) | World(worldMove: WorldMove)

  predicate PastGate(l: LoopPc) {
    l.GateOpened? || l.ChannelClosed? || l.Done?
  }

  predicate Closing(l: LoopPc) {
    l.Exiting? || PastGate(l)
  }

  /** fetchedRecords has been closed. */
  predicate RecordsClosed(l: LoopPc) {
    l.ChannelClosed? || l.Done?
  }

  predicate Receiving(p: PollPc) {
    p.FastReceive? || p.SlowReceive?
  }

  /** The client's side of the bargain for one poll: at most the one record asked for; a record always
      comes with a registration, nothing at all never does; and no registration is made in a rebalance. */
  predicate ClientMayAnswer(s: State, a: Answer) {
    && |a.records| <= 1
    && (a.sawErr ==> a.errored)
    && (a.records != [] ==> a.registered)
    && (a.records == [] && !a.errored && !a.closed ==> !a.registered)
    && (a.registered ==> !s.rebalance)
  }

  predicate LoopEnabled(s: State, m: LoopMove) {
    match m
    case PollReturns(a) => s.loop.Fetching? && ClientMayAnswer(s, a)
    case BackoffEnds => s.loop.Backoff?
    case HandOver => s.loop.Handoff? && Receiving(s.poll)
    case DropRecord => s.loop.Handoff? && s.cancelled
    case TakeSignal => s.loop.AwaitDispatch? && s.poll.Signalling?
    case AbandonWait => s.loop.AwaitDispatch? && s.cancelled
    case AllowNext => s.loop.Releasing?
    case ExitAllow => s.loop.Exiting?
    case CloseRecords => s.loop.GateOpened?
    case CloseDone => s.loop.ChannelClosed?
  }

  predicate PollEnabled(s: State, m: PollMove) {
    match m
    case CallPoll => s.poll.Idle? && s.inHand.None?
    case SignalLoopGone => s.poll.Signalling? && s.loop.Done?
    case TakeStash => s.poll.CheckStash?
    case NothingReady => s.poll.FastReceive? && !s.loop.Handoff? && !RecordsClosed(s.loop)
    case ReceiveClosed => Receiving(s.poll) && RecordsClosed(s.loop)
    case TimedOut => s.poll.SlowReceive?
    case Swap => s.poll.Finishing? && s.poll.stage.Swapping?
    case TriggerAccepts => s.poll.Finishing? && s.poll.stage.Triggering?
    case TriggerFails => s.poll.Finishing? && s.poll.stage.Triggering?
    case Requeue => s.poll.Finishing? && s.poll.stage.Requeueing?
    case Return => s.poll.Finishing? && s.poll.stage.Returning?
  }

  predicate WorldEnabled(s: State, m: WorldMove) {
    match m
    case Dispatch => s.poll.Idle? && s.inHand.Some?
    case RebalanceBegins => !s.held && !s.rebalance
    case Assigned(_) => s.rebalance
    case Revoked => s.rebalance
    case RebalanceEnds => s.rebalance
    case Cancel => true
    case ForceOpen => s.cancelled
  }

  predicate Enabled(s: State, l: Label) {
    match l
    case Loop(m) => LoopEnabled(s, m)
    case Poll(m) => PollEnabled(s, m)
    case World(m) => WorldEnabled(s, m)
  }

  /** fetchNext's decision on one answer: exit, deliver, back off, or poll again. */
  function AfterFetch(c: Config, s: State, a: Answer): State {
    var exit := a.closed || s.cancelled;
    var foreign := !exit && a.records != [] && c.topicName != "" && a.records[0].topic != c.topicName;
    var deliver := !exit && !foreign && a.records != [];
    s.(loop := if exit || foreign then Exiting
               else if deliver then Handoff(a.records[0])
               else if a.sawErr && c.backoffEnabled then Backoff
               else Fetching,
       accepted := if deliver then s.accepted + [a.records[0]] else s.accepted,
       foreign := s.foreign || foreign,
       held := s.held || a.registered,
       leftover := s.leftover || (!exit && a.records == [] && a.registered),
       polls := s.polls + 1)
  }

  function ApplyLoop(c: Config, s: State, m: LoopMove): State
    requires LoopEnabled(s, m)
  {
    match m
    case PollReturns(a) => AfterFetch(c, s, a)
    case BackoffEnds => s.(loop := Fetching)
    case HandOver => s.(loop := AwaitDispatch, poll := Finishing(Some(s.loop.record), Swapping))
    case DropRecord => s.(loop := Exiting, dropped := s.dropped + [s.loop.record])
    case TakeSignal => s.(loop := Releasing, poll := CheckStash, signals := s.signals + 1)
    case AbandonWait => s.(loop := Exiting)
    case AllowNext => s.(loop := Fetching, held := false, leftover := false, allows := s.allows + 1)
    case ExitAllow => s.(loop := GateOpened, held := false, leftover := false, allows := s.allows + 1)
    case CloseRecords => s.(loop := ChannelClosed)
    case CloseDone => s.(loop := Done)
  }

  function ApplyPoll(s: State, m: PollMove): State
    requires PollEnabled(s, m)
  {
    match m
    case CallPoll => s.(poll := if s.awaiting then Signalling else CheckStash, awaiting := false)
    case SignalLoopGone => s.(poll := CheckStash)
    case TakeStash => s.(poll := if s.stash.Some? then Finishing(s.stash, Swapping) else FastReceive, stash := None)
    case NothingReady => s.(poll := SlowReceive)
    case ReceiveClosed => s.(poll := Idle)
    case TimedOut => s.(poll := Finishing(None, Swapping))
    case Swap =>
      s.(poll := s.poll.(stage := if s.pending == map[] then Returning else Triggering(s.pending)), pending := map[])
    case TriggerAccepts => s.(poll := s.poll.(stage := Returning), taken := Merge(s.taken, s.poll.stage.batch))
    case TriggerFails => s.(poll := s.poll.(stage := Requeueing(s.poll.stage.batch)))
    case Requeue => s.(poll := Idle, stash := s.poll.record, pending := Merge(s.poll.stage.batch, s.pending))
    case Return =>
      s.(poll := Idle,
         inHand := if s.poll.record.Some? then s.poll.record else s.inHand,
         awaiting := s.awaiting || s.poll.record.Some?,
         delivered := s.delivered + OptionSeq(s.poll.record))
  }

  function ApplyWorld(s: State, m: WorldMove): State
    requires WorldEnabled(s, m)
  {
    match m
    case Dispatch => s.(inHand := None, dispatched := s.dispatched + [s.inHand.value])
    case RebalanceBegins => s.(rebalance := true)
    case Assigned(batch) => s.(pending := Merge(s.pending, batch), everAssigned := Merge(s.everAssigned, batch))
    case Revoked => s.(drained := s.dispatched)
    case RebalanceEnds => s.(rebalance := false)
    case Cancel => s.(cancelled := true)
    case ForceOpen => s.(forced := true, held := false, leftover := false)
  }

  function Apply(c: Config, s: State, l: Label): State
    requires Enabled(s, l)
  {
    match l
    case Loop(m) => ApplyLoop(c, s, m)
    case Poll(m) => ApplyPoll(s, m)
    case World(m) => ApplyWorld(s, m)
  }

  /** `ls` is a run from `s` to `t`. */
  ghost predicate Runs(c: Config, s: State, ls: seq<Label>, t: State)
    decreases |ls|
  {
    if ls == [] then s == t
    else Enabled(s, ls[0]) && Runs(c, Apply(c, s, ls[0]), ls[1..], t)
  }

  ghost predicate Reachable(c: Config, s: State) {
    exists ls :: Runs(c, Init(), ls, s)
  }

  lemma {:induction false} RunsCompose(c: Config, s: State, first: seq<Label>, t: State, second: seq<Label>, u: State)
    requires Runs(c, s, first, t) && Runs(c, t, second, u)
    ensures Runs(c, s, first + second, u)
    decreases |first|
  {
    if first == [] {
      assert first + second == second;
    } else {
      RunsCompose(c, Apply(c, s, first[0]), first[1..], t, second, u);
      assert (first + second)[1..] == first[1..] + second;
    }
  }

  // ---------------------------------------------------------------------------------------------
  // The inductive invariant
  // ---------------------------------------------------------------------------------------------

  /** The record Poll has taken from the loop and not yet returned, wherever Poll keeps it. */
  function Carried(s: State): seq<Record> {
    OptionSeq(s.stash) + if s.poll.Finishing? then OptionSeq(s.poll.record) else []
  }

  function InLoop(s: State): seq<Record> {
    if s.loop.Handoff? then [s.loop.record] else []
  }

  function InFlight(s: State): Assignment {
    if s.poll.Finishing? && (s.poll.stage.Triggering? || s.poll.stage.Requeueing?) then s.poll.stage.batch else map[]
  }

  /** The polling side owes the loop a dispatch signal. */
  predicate Unacknowledged(s: State) {
    Carried(s) != [] || s.awaiting || s.poll.Signalling?
  }

  predicate PollInv(s: State) {
    && (s.awaiting ==> s.poll.Idle? && s.stash.None?)
    && (s.inHand.Some? ==> s.awaiting)
    && (!s.poll.Idle? && !s.poll.CheckStash? ==> s.stash.None?)
  }

  predicate RecordInv(s: State) {
    && s.delivered == s.dispatched + OptionSeq(s.inHand)
    && s.accepted == s.delivered + Carried(s) + InLoop(s) + s.dropped
    && |s.dropped| <= 1
    && (s.dropped != [] ==> s.cancelled && Closing(s.loop) && !Unacknowledged(s))
  }

  predicate AlternationInv(s: State) {
    && (s.loop.Fetching? || s.loop.Backoff? || s.loop.Handoff? || s.loop.Releasing? ==> !Unacknowledged(s))
    && (s.loop.AwaitDispatch? ==> Unacknowledged(s))
    && (Closing(s.loop) && Unacknowledged(s) ==> s.cancelled)
  }

  /** The loop owes the client an AllowRebalance for a record it accepted. */
  predicate Guarding(s: State) {
    || s.loop.Handoff? || s.loop.AwaitDispatch? || s.loop.Releasing?
    || (s.loop.Exiting? && (Unacknowledged(s) || s.dropped != []))
  }

  predicate GateInv(s: State) {
    && (s.held ==> !s.rebalance)
    && (s.forced ==> s.cancelled)
    && (Guarding(s) ==> (s.held <==> !s.forced))
    && (PastGate(s.loop) ==> !s.held)
    && (s.loop.Fetching? || s.loop.Backoff? ==> s.held ==> s.leftover)
  }

  predicate CountInv(s: State) {
    && s.allows + (if s.loop.Releasing? then 1 else 0) == s.signals + (if PastGate(s.loop) then 1 else 0)
    && (!Closing(s.loop) ==>
          |s.accepted| == s.signals + (if s.loop.Handoff? || s.loop.AwaitDispatch? then 1 else 0))
    && (Closing(s.loop) ==> s.signals <= |s.accepted| <= s.signals + 1)
  }

  predicate TopicInv(c: Config, s: State) {
    && (c.topicName != "" ==> forall i | 0 <= i < |s.accepted| :: s.accepted[i].topic == c.topicName)
    && (s.foreign ==> Closing(s.loop))
  }

  /** Poll has passed the assign step for the record it carries or has just returned. */
  predicate AssignsSettled(s: State) {
    || s.awaiting || s.poll.Signalling?
    || (s.poll.Finishing? && s.poll.record.Some? && !s.poll.stage.Swapping?)
  }

  ghost predicate QueueInv(s: State) {
    Conserved(s.everAssigned, s.taken, InFlight(s), s.pending)
  }

  predicate SettledInv(s: State) {
    s.held && AssignsSettled(s) ==> s.pending == map[]
  }

  predicate HandlingInv(c: Config, s: State) {
    PollInv(s) && RecordInv(s) && TopicInv(c, s)
  }

  predicate ProtocolInv(s: State) {
    AlternationInv(s) && GateInv(s) && CountInv(s)
  }

  predicate ControlInv(c: Config, s: State) {
    HandlingInv(c, s) && ProtocolInv(s)
  }

  ghost predicate Inv(c: Config, s: State) {
    ControlInv(c, s) && QueueInv(s) && SettledInv(s)
  }

  lemma LoopKeepsHandling(c: Config, s: State, m: LoopMove)
    requires ControlInv(c, s) && LoopEnabled(s, m)
    ensures HandlingInv(c, ApplyLoop(c, s, m))
  {
  }

  lemma LoopKeepsProtocol(c: Config, s: State, m: LoopMove)
    requires ControlInv(c, s) && LoopEnabled(s, m)
    ensures ProtocolInv(ApplyLoop(c, s, m))
  {
  }

  lemma PollKeepsHandling(c: Config, s: State, m: PollMove)
    requires ControlInv(c, s) && PollEnabled(s, m)
    ensures HandlingInv(c, ApplyPoll(s, m))
  {
    var t := ApplyPoll(s, m);
    if m.Return? {
      assert Carried(s) == OptionSeq(s.poll.record) && Carried(t) == [];
      assert s.delivered + Carried(s) == t.delivered + Carried(t);
    } else {
      assert Carried(t) == Carried(s);
    }
  }

  lemma PollKeepsProtocol(c: Config, s: State, m: PollMove)
    requires ControlInv(c, s) && PollEnabled(s, m)
    ensures ProtocolInv(ApplyPoll(s, m))
  {
  }

  lemma WorldKeepsControl(c: Config, s: State, m: WorldMove)
    requires ControlInv(c, s) && WorldEnabled(s, m)
    ensures ControlInv(c, ApplyWorld(s, m))
  {
  }

  lemma LoopKeepsAssigns(c: Config, s: State, m: LoopMove)
    requires Inv(c, s) && LoopEnabled(s, m)
    ensures QueueInv(ApplyLoop(c, s, m)) && SettledInv(ApplyLoop(c, s, m))
  {
    assert InFlight(ApplyLoop(c, s, m)) == InFlight(s);
  }

  lemma PollKeepsQueue(s: State, m: PollMove)
    requires QueueInv(s) && PollEnabled(s, m)
    ensures QueueInv(ApplyPoll(s, m))
  {
    var t := ApplyPoll(s, m);
    match m
    case Swap =>
      TakeConserves(s.everAssigned, s.taken, s.pending);
      assert t.pending == map[] && (InFlight(t) == s.pending || s.pending == map[]);
    case TriggerAccepts => AcceptConserves(s.everAssigned, s.taken, s.poll.stage.batch, s.pending);
    case Requeue => PutBackConserves(s.everAssigned, s.taken, s.poll.stage.batch, s.pending);
    case _ =>
      assert InFlight(t) == InFlight(s);
  }

  lemma PollKeepsSettled(c: Config, s: State, m: PollMove)
    requires ControlInv(c, s) && SettledInv(s) && PollEnabled(s, m)
    ensures SettledInv(ApplyPoll(s, m))
  {
  }

  lemma WorldKeepsAssigns(c: Config, s: State, m: WorldMove)
    requires Inv(c, s) && WorldEnabled(s, m)
    ensures QueueInv(ApplyWorld(s, m)) && SettledInv(ApplyWorld(s, m))
  {
    assert InFlight(ApplyWorld(s, m)) == InFlight(s);
    if m.Assigned? {
      EnqueueConserves(s.everAssigned, s.taken, InFlight(s), s.pending, m.batch);
    }
  }

  /** Every step of every party keeps the protocol's invariant. */
  lemma StepKeepsInv(c: Config, s: State, l: Label)
    requires Inv(c, s) && Enabled(s, l)
    ensures Inv(c, Apply(c, s, l))
  {
    match l
    case Loop(m) =>
      LoopKeepsHandling(c, s, m);
      LoopKeepsProtocol(c, s, m);
      LoopKeepsAssigns(c, s, m);
    case Poll(m) =>
      PollKeepsHandling(c, s, m);
      PollKeepsProtocol(c, s, m);
      PollKeepsQueue(s, m);
      PollKeepsSettled(c, s, m);
    case World(m) =>
      WorldKeepsControl(c, s, m);
      WorldKeepsAssigns(c, s, m);
  }

  lemma {:induction false} RunKeepsInv(c: Config, s: State, ls: seq<Label>, t: State)
    requires Inv(c, s) && Runs(c, s, ls, t)
    ensures Inv(c, t)
    decreases |ls|
  {
    if ls != [] {
      StepKeepsInv(c, s, ls[0]);
      RunKeepsInv(c, Apply(c, s, ls[0]), ls[1..], t);
    }
  }

  lemma ReachableInv(c: Config, s: State)
    requires Reachable(c, s)
    ensures Inv(c, s)
  {
    var ls :| Runs(c, Init(), ls, s);
    RunKeepsInv(c, Init(), ls, s);
  }
}
