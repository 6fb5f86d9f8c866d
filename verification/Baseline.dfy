/** What the engine is told of a rebalance: one entry per partition occurrence, with the group's committed
    offset as its baseline. The source's loops range over maps; every loop here picks the next key
    freely, so what is proved holds in every iteration order. */
module Baseline {
  import opened Prelude
  import opened AssignQueue

  /** One partition of an OffsetFetch response. */
  datatype Response = Response(at: int, failed: bool)

  type Responses = map<string, map<int, Response>>
  type Committed = map<string, map<int, int>>

  /** What the coordinator is going to say; Unreachable covers a missing group name and a timeout. */
  datatype Coordinator = Unreachable | Answers(responses: Responses)

  datatype Kind = Assign | Revoke

  datatype Info = Info(kind: Kind, topic: string, partition: int, offset: int)

  const UNKNOWN := -1

  // ---------------------------------------------------------------------------------------------
  // Specification
  // ---------------------------------------------------------------------------------------------

  /** The baseline the documentation promises: the real committed offset where there is one. */
  function Known(enabled: bool, fetcher: Option<Coordinator>, topic: string, partition: int): int {
    if enabled && fetcher.Some? && fetcher.value.Answers?
       && topic in fetcher.value.responses && partition in fetcher.value.responses[topic]
       && !fetcher.value.responses[topic][partition].failed && fetcher.value.responses[topic][partition].at >= 0
    then fetcher.value.responses[topic][partition].at
    else UNKNOWN
  }

  function OffsetIn(committed: Committed, topic: string, partition: int): int {
    if topic in committed && partition in committed[topic] && committed[topic][partition] >= 0
    then committed[topic][partition] else UNKNOWN
  }

  /** The entries of one topic, in their order. */
  function OfTopic(infos: seq<Info>, topic: string): seq<Info> {
    if infos == [] then []
    else
      OfTopic(infos[..|infos| - 1], topic)
      + if infos[|infos| - 1].topic == topic then [infos[|infos| - 1]] else []
  }

  function Partitions(infos: seq<Info>): seq<int> {
    seq(|infos|, i requires 0 <= i < |infos| => infos[i].partition)
  }

  /** For every topic: exactly the topic's partitions in their order, each with its baseline. */
  ghost predicate Describes(infos: seq<Info>, kind: Kind, given: Assignment, offset: (string, int) -> int) {
    && (forall topic :: Partitions(OfTopic(infos, topic)) == At(given, topic))
    && forall i | 0 <= i < |infos| ::
         infos[i].kind == kind && infos[i].offset == offset(infos[i].topic, infos[i].partition)
  }

  function Occurrences(ps: seq<int>, p: int): nat {
    if ps == [] then 0 else Occurrences(ps[..|ps| - 1], p) + if ps[|ps| - 1] == p then 1 else 0
  }

  function Copies(infos: seq<Info>, info: Info): nat {
    if infos == [] then 0 else Copies(infos[..|infos| - 1], info) + if infos[|infos| - 1] == info then 1 else 0
  }

  lemma PartitionsSnoc(infos: seq<Info>, info: Info)
    ensures Partitions(infos + [info]) == Partitions(infos) + [info.partition]
  {
  }

  lemma OneMore(infos: seq<Info>, info: Info)
    ensures Partitions(OfTopic(infos + [info], info.topic)) == Partitions(OfTopic(infos, info.topic)) + [info.partition]
    ensures forall other | other != info.topic :: OfTopic(infos + [info], other) == OfTopic(infos, other)
  {
    assert (infos + [info])[..|infos|] == infos;
    PartitionsSnoc(OfTopic(infos, info.topic), info);
  }

  lemma OccurrencesSnoc(ps: seq<int>, last: int, p: int)
    ensures Occurrences(ps + [last], p) == Occurrences(ps, p) + if last == p then 1 else 0
  {
    assert (ps + [last])[..|ps|] == ps;
  }

  lemma {:induction false} CopiesInTopic(infos: seq<Info>, info: Info, kind: Kind, offset: (string, int) -> int)
    requires forall i | 0 <= i < |infos| ::
               infos[i].kind == kind && infos[i].offset == offset(infos[i].topic, infos[i].partition)
    ensures info.kind == kind && info.offset == offset(info.topic, info.partition) ==>
              Copies(infos, info) == Occurrences(Partitions(OfTopic(infos, info.topic)), info.partition)
    ensures info.kind != kind || info.offset != offset(info.topic, info.partition) ==> Copies(infos, info) == 0
    decreases |infos|
  {
    if infos != [] {
      var front, last := infos[..|infos| - 1], infos[|infos| - 1];
      CopiesInTopic(front, info, kind, offset);
      var there := OfTopic(front, info.topic);
      assert there + [] == there;
      if last.topic == info.topic {
        PartitionsSnoc(there, last);
        OccurrencesSnoc(Partitions(there), last.partition, info.partition);
      }
    }
  }

  /** Exactly one entry per assigned occurrence, with its one right baseline, and no other entry. */
  lemma EntriesExactly(infos: seq<Info>, kind: Kind, given: Assignment, offset: (string, int) -> int, info: Info)
    requires Describes(infos, kind, given, offset)
    ensures info.kind == kind && info.offset == offset(info.topic, info.partition) ==>
              Copies(infos, info) == Occurrences(At(given, info.topic), info.partition)
    ensures info.kind != kind || info.offset != offset(info.topic, info.partition) ==> Copies(infos, info) == 0
  {
    CopiesInTopic(infos, info, kind, offset);
  }

  /** The coordinator answered for this partition, without an error, with a real offset. */
  predicate Answered(enabled: bool, fetcher: Option<Coordinator>, topic: string, p: int, at: int) {
    && enabled && fetcher.Some? && fetcher.value.Answers?
    && topic in fetcher.value.responses && p in fetcher.value.responses[topic]
    && !fetcher.value.responses[topic][p].failed && fetcher.value.responses[topic][p].at == at && at >= 0
  }

  /** Every entry of an assign carries a position exactly when the coordinator gave one, and that one; -1
      otherwise. Offset 0 is a position. */
  lemma PositionOnlyIfAnswered(infos: seq<Info>, batch: Assignment, enabled: bool, fetcher: Option<Coordinator>, i: nat)
    requires Describes(infos, Assign, batch, (t, p) => Known(enabled, fetcher, t, p)) && i < |infos|
    ensures infos[i].offset >= 0 <==> exists at :: Answered(enabled, fetcher, infos[i].topic, infos[i].partition, at)
    ensures infos[i].offset >= 0 ==>
              Answered(enabled, fetcher, infos[i].topic, infos[i].partition, infos[i].offset)
    ensures infos[i].offset < 0 ==> infos[i].offset == -1
  {
    var topic, p := infos[i].topic, infos[i].partition;
    assert infos[i].offset == Known(enabled, fetcher, topic, p);
    KnownIfAnswered(enabled, fetcher, topic, p);
  }

  lemma KnownIfAnswered(enabled: bool, fetcher: Option<Coordinator>, topic: string, p: int)
    ensures Known(enabled, fetcher, topic, p) == -1 || Answered(enabled, fetcher, topic, p, Known(enabled, fetcher, topic, p))
    ensures forall at | Answered(enabled, fetcher, topic, p, at) :: Known(enabled, fetcher, topic, p) == at
  {
  }

  /** No entry of a revoke carries a position. */
  lemma RevokeHasNoPosition(infos: seq<Info>, revoked: Assignment, i: nat)
    requires Describes(infos, Revoke, revoked, (t, p) => UNKNOWN) && i < |infos|
    ensures infos[i].kind == Revoke && infos[i].offset == -1
  {
    assert infos[i].offset == ((t: string, p: int) => UNKNOWN)(infos[i].topic, infos[i].partition);
  }

  // ---------------------------------------------------------------------------------------------
  // The code
  // ---------------------------------------------------------------------------------------------


  /** The partitions answered without an error, at the offsets answered. */
  ghost predicate Projects(offsets: map<int, int>, partitions: map<int, Response>) {
    && (forall p :: p in offsets <==> p in partitions && !partitions[p].failed)
    && forall p | p in offsets :: offsets[p] == partitions[p].at
  }

  method MapPartitions(partitions: map<int, Response>) returns (offsets: map<int, int>)
    ensures Projects(offsets, partitions)
  {
    offsets := map[];
    var todo: set<int> := partitions.Keys;
    while todo != {}
      invariant todo <= partitions.Keys
      invariant forall p :: p in offsets <==> p in partitions && p !in todo && !partitions[p].failed
      invariant forall p | p in offsets :: offsets[p] == partitions[p].at
    {
      EmptyOrNot(todo);
      var partition: int :| partition in todo;
      todo := todo - {partition};
      var response := partitions[partition];
      if response.failed {
        continue;
      }
      offsets := offsets[partition := response.at];
    }
  }

  method MapCommittedOffsets(responses: Responses) returns (committed: Committed)
    ensures committed.Keys == responses.Keys
    ensures forall topic | topic in responses :: Projects(committed[topic], responses[topic])
  {
    committed := map[];
    var todo: set<string> := responses.Keys;
    while todo != {}
      invariant todo <= responses.Keys && committed.Keys == responses.Keys - todo
      invariant forall topic | topic in committed :: Projects(committed[topic], responses[topic])
    {
      var topic: string :| topic in todo;
      var offsets := MapPartitions(responses[topic]);
      committed := committed[topic := offsets];
      todo := todo - {topic};
    }
  }

  /** Never fails: without an answer every baseline is unknown. */
  method LookupAssignmentOffsets(enabled: bool, fetcher: Option<Coordinator>) returns (committed: Committed)
    ensures forall topic, p :: OffsetIn(committed, topic, p) == Known(enabled, fetcher, topic, p)
  {
    if !enabled || fetcher.None? {
      return map[];
    }
    match fetcher.value
    case Unreachable => return map[];
    case Answers(responses) => committed := MapCommittedOffsets(responses);
  }

  predicate AllWith(infos: seq<Info>, kind: Kind, committed: Committed) {
    forall i | 0 <= i < |infos| ::
      infos[i].kind == kind && infos[i].offset == OffsetIn(committed, infos[i].topic, infos[i].partition)
  }

  /** The topics no longer to do have their entries, the others none. */
  ghost predicate Covers(infos: seq<Info>, given: Assignment, todo: set<string>) {
    forall topic :: Partitions(OfTopic(infos, topic)) == if topic in todo then [] else At(given, topic)
  }

  lemma TopicCovered(before: seq<Info>, infos: seq<Info>, given: Assignment, todo: set<string>, topic: string)
    requires Covers(before, given, todo) && topic in todo && topic in given
    requires Partitions(OfTopic(infos, topic)) == Partitions(OfTopic(before, topic)) + given[topic]
    requires forall other | other != topic :: OfTopic(infos, other) == OfTopic(before, other)
    ensures Covers(infos, given, todo - {topic})
  {
    assert [] + given[topic] == given[topic];
  }

  /** The nested loops of triggerAssign and triggerRevoke; a revoke looks nothing up. */
  method BuildInfo(kind: Kind, given: Assignment, committed: Committed) returns (infos: seq<Info>)
    ensures forall topic :: Partitions(OfTopic(infos, topic)) == At(given, topic)
    ensures AllWith(infos, kind, committed)
  {
    infos := [];
    var todo: set<string> := given.Keys;
    while todo != {}
      invariant todo <= given.Keys
      invariant Covers(infos, given, todo)
      invariant AllWith(infos, kind, committed)
    {
      var topic: string :| topic in todo;
      ghost var before := infos;
      infos := AppendTopicInfo(kind, topic, given[topic], committed, infos);
      TopicCovered(before, infos, given, todo, topic);
      todo := todo - {topic};
    }
  }

  method AppendTopicInfo(kind: Kind, topic: string, partitions: seq<int>, committed: Committed, before: seq<Info>)
      returns (infos: seq<Info>)
    requires AllWith(before, kind, committed)
    ensures Partitions(OfTopic(infos, topic)) == Partitions(OfTopic(before, topic)) + partitions
    ensures forall other | other != topic :: OfTopic(infos, other) == OfTopic(before, other)
    ensures AllWith(infos, kind, committed)
  {
    infos := before;
    for k := 0 to |partitions|
      invariant Partitions(OfTopic(infos, topic)) == Partitions(OfTopic(before, topic)) + partitions[..k]
      invariant forall other | other != topic :: OfTopic(infos, other) == OfTopic(before, other)
      invariant AllWith(infos, kind, committed)
    {
      var p := partitions[k];
      var offset := UNKNOWN;
      if topic in committed {
        var partitionOffsets := committed[topic];
        if p in partitionOffsets && partitionOffsets[p] >= 0 {
          offset := partitionOffsets[p];
        }
      }
      var info := Info(kind, topic, p, offset);
      OneMore(infos, info);
      assert partitions[..k] + [p] == partitions[..k + 1];
      infos := infos + [info];
    }
  }

  /** `engine` is nil, or whether it will refuse the rebalance; `told` is what it is handed. */
  method TriggerAssign(batch: Assignment, enabled: bool, fetcher: Option<Coordinator>, engine: Option<bool>)
      returns (told: Option<seq<Info>>, failed: bool)
    ensures engine.None? ==> told == None && !failed
    ensures engine.Some? ==> failed == engine.value && told.Some?
    ensures engine.Some? ==> Describes(told.value, Assign, batch, (t, p) => Known(enabled, fetcher, t, p))
  {
    if engine.None? {
      return None, false;
    }
    var committed := LookupAssignmentOffsets(enabled, fetcher);
    var infos := BuildInfo(Assign, batch, committed);
    return Some(infos), engine.value;
  }

  method TriggerRevoke(revoked: Assignment, engine: Option<bool>) returns (told: Option<seq<Info>>, failed: bool)
    ensures engine.None? ==> told == None && !failed
    ensures engine.Some? ==> failed == engine.value && told.Some?
    ensures engine.Some? ==> Describes(told.value, Revoke, revoked, (t, p) => UNKNOWN)
  {
    if engine.None? {
      return None, false;
    }
    var infos := BuildInfo(Revoke, revoked, map[]);
    return Some(infos), engine.value;
  }

  /** OnRevoked and, through it, OnLost: a failed drain is only logged. */
  method OnRevoked(revoked: Assignment, engine: Option<bool>) returns (told: Option<seq<Info>>, logged: bool)
    ensures revoked == map[] || engine.None? ==> told == None && !logged
    ensures revoked != map[] && engine.Some? ==> logged == engine.value && told.Some?
    ensures revoked != map[] && engine.Some? ==> Describes(told.value, Revoke, revoked, (t, p) => UNKNOWN)
  {
    if revoked == map[] {
      return None, false;
    }
    told, logged := TriggerRevoke(revoked, engine);
  }
}
