/** Stopping: any number of Unsubscribe callers and any number of bails, the fetch loop's among them,
    around two sync.Once values. A transition system, like the gate protocol, of which it is the last act. */
module Shutdown {
  import opened Prelude

  /** Which parts the adapter was built with, and whether its consumer can take an emergency stop. */
  datatype Config = Config(hasCollector: bool, loopStarted: bool, hasLeave: bool, hasClose: bool, escalates: bool)

  type Id = nat

  /** The fetch loop's own identity among the callers of bail. */
  const LOOP: Id := 0

  datatype Once = Fresh | Busy(owner: Id) | Finished

  /** releaseBroker, between its steps. */
  datatype Stage = StopCollector | CancelLoop | AwaitLoop | LeaveGroup | CloseClient | LastStep

  datatype CallerPc = AtRelease | Releasing(stage: Stage) | Returned

  datatype BailPc = AtBail | Tripping | Spawning | Ending

  datatype LoopPc = Polling | InBail(fatal: bool) | Leaving | Gone

  datatype Event = CollectorStopped | Cancelled | LoopStopped | WaitExpired | Left | Closed | CallerBack(id: Id)

  datatype State = State(
    callers: map<Id, CallerPc>,
    release: Once,               // unsubscribeOnce
    bailers: map<Id, BailPc>,
    bail: Once,                  // bailOnce
    spawned: Option<Id>,         // the goroutine bail started, to call Unsubscribe
    loop: LoopPc,
    expired: bool,               // the wait for the loop ran out of time
    events: seq<Event>,
    trips: nat)                  // EmergencyShutdown calls

  datatype Label =
    | Arrive(id: Id)
    | EnterRelease(id: Id)
    | ReleaseStep(id: Id, timerFires: bool)
    | CallBail(id: Id, fatal: bool)
    | EnterBail(id: Id)
    | BailStep(id: Id, spawned: Id)
    | LoopLeaves
    | LoopGone

  function Init(c: Config): State {
    State(map[], Fresh, map[], Fresh, None, if c.loopStarted then Polling else Gone, false, [], 0)
  }

  predicate Enabled(c: Config, s: State, l: Label) {
    match l
    case Arrive(id) => id !in s.callers
    case EnterRelease(id) => id in s.callers && s.callers[id].AtRelease? && !s.release.Busy?
    case ReleaseStep(id, timer) =>
      id in s.callers && s.callers[id].Releasing? && (s.callers[id].stage.AwaitLoop? ==> timer || s.loop.Gone?)
    case CallBail(id, _) => id !in s.bailers && (id == LOOP ==> s.loop.Polling?)
    case EnterBail(id) => id in s.bailers && s.bailers[id].AtBail? && !s.bail.Busy?
    case BailStep(id, spawned) =>
      id in s.bailers && !s.bailers[id].AtBail? && (s.bailers[id].Spawning? ==> spawned !in s.callers)
    case LoopLeaves => s.loop.Polling?
    case LoopGone => s.loop.Leaving?
  }

  function When(b: bool, e: Event): seq<Event> {
    if b then [e] else []
  }

  /** One step of releaseBroker by its one owner. */
  function Release(c: Config, s: State, id: Id, timer: bool): State
    requires id in s.callers && s.callers[id].Releasing?
  {
    match s.callers[id].stage
    case StopCollector =>
      s.(callers := s.callers[id := Releasing(CancelLoop)], events := s.events + When(c.hasCollector, CollectorStopped))
    case CancelLoop =>
      s.(callers := s.callers[id := Releasing(if c.loopStarted then AwaitLoop else LeaveGroup)],
         events := s.events + When(c.loopStarted, Cancelled))
    case AwaitLoop =>
      s.(callers := s.callers[id := Releasing(LeaveGroup)], expired := timer,
         events := s.events + [if timer then WaitExpired else LoopStopped])
    case LeaveGroup =>
      s.(callers := s.callers[id := Releasing(CloseClient)], events := s.events + When(c.hasLeave, Left))
    case CloseClient =>
      s.(callers := s.callers[id := Releasing(LastStep)], events := s.events + When(c.hasClose, Closed))
    case LastStep =>
      s.(callers := s.callers[id := Returned], release := Finished, events := s.events + [CallerBack(id)])
  }

  /** A call of bail is over; the fetch loop goes on, or leaves if the bail was its last act. */
  function BailOver(s: State, id: Id): State {
    s.(bailers := s.bailers - {id},
       loop := if id == LOOP && s.loop.InBail? then (if s.loop.fatal then Leaving else Polling) else s.loop)
  }

  function Apply(c: Config, s: State, l: Label): State
    requires Enabled(c, s, l)
  {
    match l
    case Arrive(id) => s.(callers := s.callers[id := AtRelease])
    case EnterRelease(id) =>
      if s.release.Fresh? then s.(callers := s.callers[id := Releasing(StopCollector)], release := Busy(id))
      else s.(callers := s.callers[id := Returned], events := s.events + [CallerBack(id)])
    case ReleaseStep(id, timer) => Release(c, s, id, timer)
    case CallBail(id, fatal) =>
      s.(bailers := s.bailers[id := AtBail], loop := if id == LOOP then InBail(fatal) else s.loop)
    case EnterBail(id) =>
      if s.bail.Fresh? then s.(bailers := s.bailers[id := Tripping], bail := Busy(id)) else BailOver(s, id)
    case BailStep(id, spawned) =>
      (match s.bailers[id]
       case Tripping =>
         s.(bailers := s.bailers[id := if c.escalates then Spawning else Ending],
            trips := s.trips + if c.escalates then 1 else 0)
       case Spawning =>
         s.(bailers := s.bailers[id := Ending], callers := s.callers[spawned := AtRelease], spawned := Some(spawned))
       case _ => BailOver(s, id).(bail := Finished))
    case LoopLeaves => s.(loop := Leaving)
    case LoopGone => s.(loop := Gone)
  }

  ghost predicate Runs(c: Config, s: State, ls: seq<Label>, t: State)
    decreases |ls|
  {
    if ls == [] then s == t else Enabled(c, s, ls[0]) && Runs(c, Apply(c, s, ls[0]), ls[1..], t)
  }

  ghost predicate Reachable(c: Config, s: State) {
    exists ls :: Runs(c, Init(c), ls, s)
  }

  // ---------------------------------------------------------------------------------------------
  // Invariant
  // ---------------------------------------------------------------------------------------------

  function LoopPart(c: Config, expired: bool): seq<Event> {
    if c.loopStarted then [Cancelled, if expired then WaitExpired else LoopStopped] else []
  }

  /** Everything the release has done on reaching a stage, in order. */
  function Done(c: Config, stage: Stage, expired: bool): seq<Event> {
    var collector := When(c.hasCollector, CollectorStopped);
    match stage
    case StopCollector => []
    case CancelLoop => collector
    case AwaitLoop => collector + [Cancelled]
    case LeaveGroup => collector + LoopPart(c, expired)
    case CloseClient => collector + LoopPart(c, expired) + When(c.hasLeave, Left)
    case LastStep => collector + LoopPart(c, expired) + When(c.hasLeave, Left) + When(c.hasClose, Closed)
  }

  predicate OnlyReturns(events: seq<Event>) {
    forall i | 0 <= i < |events| :: events[i].CallerBack?
  }

  /** Who may be inside the release, and what it has done so far. */
  predicate ReleaseInv(c: Config, s: State) {
    match s.release
    case Fresh => s.events == [] && (forall id | id in s.callers :: s.callers[id].AtRelease?)
    case Busy(owner) =>
      && owner in s.callers && s.callers[owner].Releasing?
      && (forall id | id in s.callers && id != owner :: s.callers[id].AtRelease?)
      && (s.callers[owner].stage.AwaitLoop? ==> c.loopStarted)
      && s.events == Done(c, s.callers[owner].stage, s.expired)
    case Finished =>
      && (forall id | id in s.callers :: !s.callers[id].Releasing?)
      && Done(c, LastStep, s.expired) <= s.events
      && OnlyReturns(s.events[|Done(c, LastStep, s.expired)|..])
  }

  /** The first bail has got beyond the point where it starts the release's goroutine. */
  predicate PastSpawning(s: State) {
    s.bail.Finished? || (s.bail.Busy? && s.bail.owner in s.bailers && s.bailers[s.bail.owner].Ending?)
  }

  predicate BailInv(c: Config, s: State) {
    && (s.loop.InBail? <==> LOOP in s.bailers)
    && (s.spawned.Some? ==> s.spawned.value in s.callers)
    && (s.spawned.Some? <==> c.escalates && PastSpawning(s))
    && match s.bail
       case Fresh => s.trips == 0 && (forall id | id in s.bailers :: s.bailers[id].AtBail?)
       case Busy(owner) =>
         && owner in s.bailers && !s.bailers[owner].AtBail?
         && (forall id | id in s.bailers && id != owner :: s.bailers[id].AtBail?)
         && (s.bailers[owner].Spawning? ==> c.escalates)
         && s.trips == if c.escalates && !s.bailers[owner].Tripping? then 1 else 0
       case Finished =>
         && (forall id | id in s.bailers :: s.bailers[id].AtBail?)
         && s.trips == if c.escalates then 1 else 0
  }

  predicate LoopInv(s: State) {
    LoopStopped in s.events ==> s.loop.Gone?
  }

  predicate Inv(c: Config, s: State) {
    ReleaseInv(c, s) && BailInv(c, s) && LoopInv(s)
  }

  lemma ReleaseStepKeeps(c: Config, s: State, id: Id, timer: bool)
    requires ReleaseInv(c, s) && Enabled(c, s, ReleaseStep(id, timer))
    ensures ReleaseInv(c, Release(c, s, id, timer))
  {
    assert s.release == Busy(id);
    if s.callers[id].stage.LastStep? {
      LastStepKeeps(c, s, id, timer);
    } else {
      MiddleStepKeeps(c, s, id, timer);
    }
  }

  lemma MiddleStepKeeps(c: Config, s: State, id: Id, timer: bool)
    requires ReleaseInv(c, s) && s.release == Busy(id) && !s.callers[id].stage.LastStep?
    ensures ReleaseInv(c, Release(c, s, id, timer))
  {
    match s.callers[id].stage
    case StopCollector =>
    case CancelLoop =>
    case AwaitLoop =>
    case LeaveGroup =>
    case CloseClient =>
  }

  lemma LastStepKeeps(c: Config, s: State, id: Id, timer: bool)
    requires ReleaseInv(c, s) && s.release == Busy(id) && s.callers[id].stage.LastStep?
    ensures ReleaseInv(c, Release(c, s, id, timer))
  {
    var t, whole := Release(c, s, id, timer), Done(c, LastStep, s.expired);
    assert t.events == whole + [CallerBack(id)];
    assert t.events[|whole|..] == [CallerBack(id)];
  }

  lemma EnterReleaseKeeps(c: Config, s: State, id: Id)
    requires ReleaseInv(c, s) && Enabled(c, s, EnterRelease(id))
    ensures ReleaseInv(c, Apply(c, s, EnterRelease(id)))
  {
    if s.release.Finished? {
      var n := |Done(c, LastStep, s.expired)|;
      assert (s.events + [CallerBack(id)])[n..] == s.events[n..] + [CallerBack(id)];
    }
  }

  lemma StepKeepsRelease(c: Config, s: State, l: Label)
    requires ReleaseInv(c, s) && Enabled(c, s, l)
    ensures ReleaseInv(c, Apply(c, s, l))
  {
    match l
    case ReleaseStep(id, timer) => ReleaseStepKeeps(c, s, id, timer);
    case EnterRelease(id) => EnterReleaseKeeps(c, s, id);
    case _ =>
  }

  lemma BailStepKeeps(c: Config, s: State, id: Id, spawned: Id)
    requires BailInv(c, s) && Enabled(c, s, BailStep(id, spawned))
    ensures BailInv(c, Apply(c, s, BailStep(id, spawned)))
  {
    assert s.bail == Busy(id);
  }

  lemma EnterBailKeeps(c: Config, s: State, id: Id)
    requires BailInv(c, s) && Enabled(c, s, EnterBail(id))
    ensures BailInv(c, Apply(c, s, EnterBail(id)))
  {
  }

  lemma StepKeepsBail(c: Config, s: State, l: Label)
    requires BailInv(c, s) && Enabled(c, s, l)
    ensures BailInv(c, Apply(c, s, l))
  {
    match l
    case BailStep(id, spawned) => BailStepKeeps(c, s, id, spawned);
    case EnterBail(id) => EnterBailKeeps(c, s, id);
    case _ =>
  }

  lemma ReleaseKeepsLoop(c: Config, s: State, id: Id, timer: bool)
    requires LoopInv(s) && Enabled(c, s, ReleaseStep(id, timer))
    ensures LoopInv(Release(c, s, id, timer))
  {
    match s.callers[id].stage
    case AwaitLoop =>
    case _ => assert LoopStopped in Release(c, s, id, timer).events ==> LoopStopped in s.events;
  }

  lemma GoneForGood(c: Config, s: State, l: Label)
    requires s.loop.Gone? && Enabled(c, s, l)
    ensures Apply(c, s, l).loop.Gone?
  {
  }

  lemma StepKeepsLoop(c: Config, s: State, l: Label)
    requires LoopInv(s) && Enabled(c, s, l)
    ensures LoopInv(Apply(c, s, l))
  {
    match l
    case ReleaseStep(id, timer) => ReleaseKeepsLoop(c, s, id, timer);
    case _ =>
      if s.loop.Gone? {
        GoneForGood(c, s, l);
      }
  }

  lemma StepKeepsInv(c: Config, s: State, l: Label)
    requires Inv(c, s) && Enabled(c, s, l)
    ensures Inv(c, Apply(c, s, l))
  {
    StepKeepsRelease(c, s, l);
    StepKeepsBail(c, s, l);
    StepKeepsLoop(c, s, l);
  }

  lemma {:induction false} RunKeepsInv(c: Config, s: State, ls: seq<Label>, t: State)
    requires Inv(c, s) && Runs(c, s, ls, t)
    ensures Inv(c, t)
    decreases |ls|
  {
    if ls != [] {
      StepKeepsInv(c, s, ls[0]);
      RunKeepsInv(c, Apply(c, s, ls[0]), ls[1..], t);
    }
  }

  lemma ReachableInv(c: Config, s: State)
    requires Reachable(c, s)
    ensures Inv(c, s)
  {
    var ls :| Runs(c, Init(c), ls, s);
    RunKeepsInv(c, Init(c), ls, s);
  }

  // ---------------------------------------------------------------------------------------------
  // What every run guarantees
  // ---------------------------------------------------------------------------------------------

  /** The whole release: cancel, wait for the loop or for the bound to expire, leave, close. */
  function WholeRelease(c: Config, expired: bool): seq<Event> {
    Done(c, LastStep, expired)
  }

  /** However many callers race, the release happens once and in order: its events so far are a prefix of
      the one whole release, then nothing but callers coming back. */
  lemma ReleaseOnceInOrder(c: Config, s: State)
    requires Reachable(c, s)
    ensures s.events <= WholeRelease(c, s.expired)
            || (WholeRelease(c, s.expired) <= s.events && OnlyReturns(s.events[|WholeRelease(c, s.expired)|..]))
    ensures LoopStopped in s.events ==> s.loop.Gone?
  {
    ReachableInv(c, s);
    if s.release.Busy? {
      var owner := s.release.owner;
      PartOfWhole(c, s.callers[owner].stage, s.expired);
    }
  }

  lemma PartOfWhole(c: Config, stage: Stage, expired: bool)
    requires stage.AwaitLoop? ==> c.loopStarted
    ensures Done(c, stage, expired) <= WholeRelease(c, expired)
  {
  }

  // The order, read off the events themselves.

  predicate WaitOver(events: seq<Event>) {
    LoopStopped in events || WaitExpired in events
  }

  /** What must have happened before an event. */
  predicate Due(c: Config, before: seq<Event>, e: Event) {
    match e
    case CollectorStopped => true
    case Cancelled => c.hasCollector ==> CollectorStopped in before
    case LoopStopped => Cancelled in before
    case WaitExpired => Cancelled in before
    case Left => c.loopStarted ==> WaitOver(before)
    case Closed => (c.hasLeave ==> Left in before) && (c.loopStarted ==> WaitOver(before))
    case CallerBack(_) => (c.hasLeave ==> Left in before) && (c.hasClose ==> Closed in before)
  }

  predicate InOrder(c: Config, events: seq<Event>) {
    events == [] || (InOrder(c, events[..|events| - 1]) && Due(c, events[..|events| - 1], events[|events| - 1]))
  }

  lemma OneMoreInOrder(c: Config, events: seq<Event>, b: bool, e: Event)
    requires InOrder(c, events) && (b ==> Due(c, events, e))
    ensures InOrder(c, events + When(b, e))
    ensures b ==> e in events + When(b, e)
    ensures forall f | f in events :: f in events + When(b, e)
  {
    assert events + [] == events;
    assert (events + [e])[..|events|] == events;
  }

  lemma LoopPartInOrder(c: Config, expired: bool)
    ensures InOrder(c, When(c.hasCollector, CollectorStopped) + LoopPart(c, expired))
    ensures c.loopStarted ==> WaitOver(When(c.hasCollector, CollectorStopped) + LoopPart(c, expired))
  {
    var collector := When(c.hasCollector, CollectorStopped);
    assert [] + collector == collector;
    OneMoreInOrder(c, [], c.hasCollector, CollectorStopped);
    OneMoreInOrder(c, collector, c.loopStarted, Cancelled);
    var cancelled, over := collector + When(c.loopStarted, Cancelled), if expired then WaitExpired else LoopStopped;
    OneMoreInOrder(c, cancelled, c.loopStarted, over);
    assert cancelled + When(c.loopStarted, over) == collector + LoopPart(c, expired);
  }

  lemma WholeInOrder(c: Config, expired: bool)
    ensures InOrder(c, WholeRelease(c, expired))
    ensures c.hasLeave ==> Left in WholeRelease(c, expired)
    ensures c.hasClose ==> Closed in WholeRelease(c, expired)
  {
    var head := When(c.hasCollector, CollectorStopped) + LoopPart(c, expired);
    LoopPartInOrder(c, expired);
    OneMoreInOrder(c, head, c.hasLeave, Left);
    OneMoreInOrder(c, head + When(c.hasLeave, Left), c.hasClose, Closed);
  }

  lemma {:induction false} PrefixInOrder(c: Config, a: seq<Event>, b: seq<Event>)
    requires a <= b && InOrder(c, b)
    ensures InOrder(c, a)
    decreases |b|
  {
    if a != b {
      PrefixInOrder(c, a, b[..|b| - 1]);
    }
  }

  lemma {:induction false} ReturnsInOrder(c: Config, whole: seq<Event>, events: seq<Event>)
    requires whole <= events && OnlyReturns(events[|whole|..]) && InOrder(c, whole)
    requires (c.hasLeave ==> Left in whole) && (c.hasClose ==> Closed in whole)
    ensures InOrder(c, events)
    decreases |events|
  {
    if whole != events {
      var front := events[..|events| - 1];
      assert events[|whole|..][|events| - 1 - |whole|] == events[|events| - 1];
      assert front[|whole|..] == events[|whole|..][..|events| - 1 - |whole|];
      ReturnsInOrder(c, whole, front);
      assert forall e | e in whole :: e in front;
    }
  }

  lemma EventsInOrder(c: Config, s: State)
    requires Reachable(c, s)
    ensures InOrder(c, s.events)
  {
    var whole := WholeRelease(c, s.expired);
    ReleaseOnceInOrder(c, s);
    WholeInOrder(c, s.expired);
    if s.events <= whole {
      PrefixInOrder(c, s.events, whole);
    } else {
      ReturnsInOrder(c, whole, s.events);
    }
  }

  lemma DueAt(c: Config, events: seq<Event>, j: int)
    requires InOrder(c, events) && 0 <= j < |events|
    ensures Due(c, events[..j], events[j])
  {
    PrefixInOrder(c, events[..j + 1], events);
    assert events[..j + 1][..j] == events[..j];
  }

  /** The end of the wait, before position j and after the cancellation. */
  predicate WaitedBefore(events: seq<Event>, j: int) {
    exists k | 0 <= k < j && k < |events| ::
      (events[k] == LoopStopped || events[k] == WaitExpired) && Cancelled in events[..k]
  }

  lemma WaitFollowsCancel(c: Config, events: seq<Event>, j: int)
    requires InOrder(c, events) && 0 <= j <= |events| && WaitOver(events[..j])
    ensures WaitedBefore(events, j)
  {
    var over := if LoopStopped in events[..j] then LoopStopped else WaitExpired;
    var k :| 0 <= k < j && events[k] == over;
    DueAt(c, events, k);
  }

  /** In every run: the group is left before the client is closed, both after the loop was cancelled and
      then waited for, and no caller comes back before both. */
  lemma LeaveThenClose(c: Config, s: State, j: int)
    requires Reachable(c, s) && 0 <= j < |s.events|
    ensures s.events[j] == Closed && c.hasLeave ==> Left in s.events[..j]
    ensures (s.events[j] == Left || s.events[j] == Closed) && c.loopStarted ==> WaitedBefore(s.events, j)
    ensures s.events[j].CallerBack? && c.hasLeave ==> Left in s.events[..j]
    ensures s.events[j].CallerBack? && c.hasClose ==> Closed in s.events[..j]
    ensures s.events[j] == Cancelled && c.hasCollector ==> CollectorStopped in s.events[..j]
  {
    EventsInOrder(c, s);
    DueAt(c, s.events, j);
    if (s.events[j] == Left || s.events[j] == Closed) && c.loopStarted {
      WaitFollowsCancel(c, s.events, j);
    }
  }

  /** The same of the release on its own. */
  lemma WholeLeavesThenCloses(c: Config, expired: bool, j: int)
    requires 0 <= j < |WholeRelease(c, expired)|
    ensures WholeRelease(c, expired)[j] == Closed && c.hasLeave ==> Left in WholeRelease(c, expired)[..j]
    ensures (WholeRelease(c, expired)[j] == Left || WholeRelease(c, expired)[j] == Closed) && c.loopStarted ==>
              WaitedBefore(WholeRelease(c, expired), j)
  {
    var whole := WholeRelease(c, expired);
    WholeInOrder(c, expired);
    DueAt(c, whole, j);
    if (whole[j] == Left || whole[j] == Closed) && c.loopStarted {
      WaitFollowsCancel(c, whole, j);
    }
  }

  function Count(events: seq<Event>, e: Event): nat {
    if events == [] then 0 else Count(events[..|events| - 1], e) + if events[|events| - 1] == e then 1 else 0
  }

  lemma {:induction false} CountPrefix(a: seq<Event>, b: seq<Event>, e: Event)
    requires a <= b
    ensures Count(a, e) <= Count(b, e)
    decreases |b|
  {
    if a != b {
      CountPrefix(a, b[..|b| - 1], e);
    }
  }

  lemma {:induction false} CountAfterReturns(a: seq<Event>, b: seq<Event>, e: Event)
    requires a <= b && OnlyReturns(b[|a|..]) && !e.CallerBack?
    ensures Count(b, e) == Count(a, e)
    decreases |b|
  {
    if a != b {
      var front := b[..|b| - 1];
      assert b[|a|..][|b| - 1 - |a|] == b[|b| - 1];
      assert front[|a|..] == b[|a|..][..|b| - 1 - |a|];
      CountAfterReturns(a, front, e);
    }
  }

  lemma WholeCounts(c: Config, expired: bool)
    ensures Count(WholeRelease(c, expired), Left) == if c.hasLeave then 1 else 0
    ensures Count(WholeRelease(c, expired), Closed) == if c.hasClose then 1 else 0
  {
    var head := When(c.hasCollector, CollectorStopped) + LoopPart(c, expired);
    var left := head + When(c.hasLeave, Left);
    assert WholeRelease(c, expired) == left + When(c.hasClose, Closed);
    CountNone(head, Left);
    CountNone(head, Closed);
    CountWhen(head, c.hasLeave, Left, Left);
    CountWhen(head, c.hasLeave, Left, Closed);
    CountWhen(left, c.hasClose, Closed, Left);
    CountWhen(left, c.hasClose, Closed, Closed);
  }

  lemma CountWhen(events: seq<Event>, b: bool, e: Event, f: Event)
    ensures Count(events + When(b, e), f) == Count(events, f) + if b && e == f then 1 else 0
  {
    assert events + [] == events;
    assert (events + [e])[..|events|] == events;
  }

  lemma {:induction false} CountNone(events: seq<Event>, e: Event)
    requires e !in events
    ensures Count(events, e) == 0
    decreases |events|
  {
    if events != [] {
      CountNone(events[..|events| - 1], e);
    }
  }

  /** The group is left at most once and the client closed at most once, in every run. */
  lemma LeaveAndCloseAtMostOnce(c: Config, s: State)
    requires Reachable(c, s)
    ensures Count(s.events, Left) <= 1 && Count(s.events, Closed) <= 1
  {
    var whole := WholeRelease(c, s.expired);
    ReleaseOnceInOrder(c, s);
    WholeCounts(c, s.expired);
    if s.events <= whole {
      CountPrefix(s.events, whole, Left);
      CountPrefix(s.events, whole, Closed);
    } else {
      CountAfterReturns(whole, s.events, Left);
      CountAfterReturns(whole, s.events, Closed);
    }
  }

  /** No caller of Unsubscribe returns before the whole release has been done. */
  lemma NoReturnBeforeRelease(c: Config, s: State, id: Id)
    requires Reachable(c, s) && id in s.callers && s.callers[id].Returned?
    ensures WholeRelease(c, s.expired) <= s.events && s.release.Finished?
  {
    ReachableInv(c, s);
  }

  /** The emergency stop is tripped at most once, however often anyone bails. */
  lemma TripAtMostOnce(c: Config, s: State)
    requires Reachable(c, s)
    ensures s.trips <= 1 && (s.bail.Finished? && c.escalates ==> s.trips == 1)
    ensures !c.escalates ==> s.trips == 0
  {
    ReachableInv(c, s);
  }

  /** A bail that trips the emergency stop sees to the release: once it is past starting its goroutine,
      that goroutine is among the callers of Unsubscribe, and there is none otherwise. */
  lemma BailStartsRelease(c: Config, s: State)
    requires Reachable(c, s)
    ensures c.escalates && PastSpawning(s) ==> s.spawned.Some? && s.spawned.value in s.callers && s.trips == 1
    ensures !c.escalates || !PastSpawning(s) ==> s.spawned.None?
  {
    ReachableInv(c, s);
  }

  // ---------------------------------------------------------------------------------------------
  // Nobody waits for ever
  // ---------------------------------------------------------------------------------------------

  function StageRank(p: CallerPc): nat {
    if !p.Releasing? then 0
    else match p.stage
      case StopCollector => 6
      case CancelLoop => 5
      case AwaitLoop => 4
      case LeaveGroup => 3
      case CloseClient => 2
      case LastStep => 1
  }

  /** The release's owner always has a step, whatever the loop does, and each brings it nearer the end:
      so every caller blocked behind it returns. */
  lemma ReleaseNeverStuck(c: Config, s: State, id: Id)
    requires Reachable(c, s) && s.release == Busy(id)
    ensures Enabled(c, s, ReleaseStep(id, true))
    ensures StageRank(Release(c, s, id, true).callers[id]) < StageRank(s.callers[id])
  {
    ReachableInv(c, s);
    ReleaseMoves(c, s, id);
  }

  lemma ReleaseMoves(c: Config, s: State, id: Id)
    requires ReleaseInv(c, s) && s.release == Busy(id)
    ensures Enabled(c, s, ReleaseStep(id, true))
    ensures StageRank(Release(c, s, id, true).callers[id]) < StageRank(s.callers[id])
    ensures s.callers[id].stage.LastStep? ==> Release(c, s, id, true).release.Finished?
    ensures !s.callers[id].stage.LastStep? ==> Release(c, s, id, true).release == Busy(id)
    ensures s.callers[id].stage.LastStep? ==> Release(c, s, id, true).callers[id] == Returned
  {
  }

  /** Left to its owner alone, with the loop never exiting, the release still runs to its end. */
  lemma {:induction false} ReleaseCompletes(c: Config, s: State, id: Id) returns (ls: seq<Label>, t: State)
    requires Inv(c, s) && s.release == Busy(id)
    ensures Runs(c, s, ls, t) && Inv(c, t) && |ls| <= StageRank(s.callers[id])
    ensures t.release.Finished? && id in t.callers && t.callers[id].Returned?
    decreases StageRank(s.callers[id])
  {
    ReleaseMoves(c, s, id);
    var l := ReleaseStep(id, true);
    StepKeepsInv(c, s, l);
    var next := Apply(c, s, l);
    if next.release.Finished? {
      ls, t := [l], next;
      assert Runs(c, next, [], t);
    } else {
      var rest;
      rest, t := ReleaseCompletes(c, next, id);
      ls := [l] + rest;
      assert ls[1..] == rest;
    }
  }

  /** Whose step the fetch loop's bail is waiting for: whoever is inside bailOnce, or the loop itself. */
  function BailMover(s: State): Id {
    if s.bail.Busy? then s.bail.owner else LOOP
  }

  function BailRank(s: State): nat {
    if LOOP !in s.bailers then 0
    else match s.bail
      case Fresh => 5
      case Busy(owner) =>
        1 + (if owner !in s.bailers then 0 else match s.bailers[owner]
               case Tripping => 3
               case Spawning => 2
               case _ => 1)
      case Finished => 1
  }

  function BailMove(s: State, unused: Id): Label {
    if s.bail.Busy? then BailStep(s.bail.owner, unused) else EnterBail(LOOP)
  }

  /** A bail raised inside the fetch loop never waits for the release, or for the loop's own exit: as
      long as the loop is in it, a step of the bail itself is enabled, in any state of the release, and
      each such step leaves fewer to come. */
  lemma LoopBailNeverWaitsForRelease(c: Config, s: State, unused: Id)
    requires Reachable(c, s) && s.loop.InBail? && unused !in s.callers
    ensures Enabled(c, s, BailMove(s, unused))
    ensures BailRank(Apply(c, s, BailMove(s, unused))) < BailRank(s)
  {
    ReachableInv(c, s);
  }

  /** And when it is over the loop moves on: out, after a foreign record; back to polling otherwise. */
  lemma BailLetsLoopGo(c: Config, s: State)
    requires Reachable(c, s) && s.loop.InBail? && s.bail.Finished?
    ensures Enabled(c, s, EnterBail(LOOP))
    ensures Apply(c, s, EnterBail(LOOP)).loop == if s.loop.fatal then Leaving else Polling
  {
    ReachableInv(c, s);
  }

  // ---------------------------------------------------------------------------------------------
  // The code
  // ---------------------------------------------------------------------------------------------

  /** The adapter's own bookkeeping for stopping; each method is one whole call with nobody racing it. The
      races are the transition system's. */
  class Broker {
    const config: Config
    var unsubscribed: bool
    var bailed: bool
    var events: seq<Event>
    var trips: nat
    /** Goroutines bail has started that have yet to call Unsubscribe. */
    var spawned: nat

    constructor (config: Config)
      ensures this.config == config && !unsubscribed && !bailed && events == [] && trips == 0 && spawned == 0
    {
      this.config := config;
      unsubscribed, bailed, events, trips, spawned := false, false, [], 0, 0;
    }

    method ReleaseBroker(loopInTime: bool)
      modifies this`events
      ensures events == old(events) + WholeRelease(config, !loopInTime)
      ensures config.hasLeave ==> forall j | |old(events)| <= j < |events| && events[j] == Closed ::
                Left in events[|old(events)|..j]
      ensures config.loopStarted ==>
                forall j | |old(events)| <= j < |events| && (events[j] == Left || events[j] == Closed) ::
                  WaitedBefore(events[|old(events)|..], j - |old(events)|)
    {
      RunRelease(loopInTime);
      ghost var before, whole := old(events), WholeRelease(config, !loopInTime);
      assert events[|before|..] == whole;
      forall j | |before| <= j < |events|
        ensures events[j] == whole[j - |before|] && events[|before|..j] == whole[..j - |before|]
        ensures events[j] == Closed && config.hasLeave ==> Left in whole[..j - |before|]
        ensures (events[j] == Left || events[j] == Closed) && config.loopStarted ==> WaitedBefore(whole, j - |before|)
      {
        WholeLeavesThenCloses(config, !loopInTime, j - |before|);
      }
    }

    method RunRelease(loopInTime: bool)
      modifies this`events
      ensures events == old(events) + WholeRelease(config, !loopInTime)
    {
      if config.hasCollector {
        events := events + [CollectorStopped];
      }
      if config.loopStarted {
        events := events + [Cancelled];
        if loopInTime {
          events := events + [LoopStopped];
        } else {
          events := events + [WaitExpired];
        }
      }
      if config.hasLeave {
        events := events + [Left];
      }
      if config.hasClose {
        events := events + [Closed];
      }
    }

    method Unsubscribe(id: Id, loopInTime: bool)
      modifies this`events, this`unsubscribed
      ensures unsubscribed
      ensures !old(unsubscribed) ==> events == old(events) + WholeRelease(config, !loopInTime) + [CallerBack(id)]
      ensures old(unsubscribed) ==> events == old(events) + [CallerBack(id)]
    {
      if !unsubscribed {
        ReleaseBroker(loopInTime);
        unsubscribed := true;
      }
      events := events + [CallerBack(id)];
    }

    /** The release is left to a goroutine of its own: a bail does none of it. */
    method Bail()
      modifies this`bailed, this`trips, this`spawned
      ensures bailed
      ensures !old(bailed) && config.escalates ==> trips == old(trips) + 1 && spawned == old(spawned) + 1
      ensures old(bailed) || !config.escalates ==> trips == old(trips) && spawned == old(spawned)
    {
      if bailed {
        return;
      }
      bailed := true;
      if !config.escalates {
        return;
      }
      trips := trips + 1;
      spawned := spawned + 1;
    }
  }
}
