/** The map of queued assigns, topic to partitions, and the one operation on it: merging two maps
    topic by topic, the first map's partitions in front. */
module AssignQueue {
  type Assignment = map<string, seq<int>>

  /** What a Go read of a possibly missing topic yields. */
  function At(m: Assignment, topic: string): seq<int> {
    if topic in m then m[topic] else []
  }

  function Merge(front: Assignment, back: Assignment): Assignment {
    map topic | topic in front.Keys + back.Keys :: At(front, topic) + At(back, topic)
  }

  /** Topic by topic, everything ever assigned is what the engine took, then the batch its trigger is
      working on, then the queue: nothing lost, repeated or reordered. */
  ghost predicate Conserved(ever: Assignment, taken: Assignment, inFlight: Assignment, pending: Assignment) {
    forall topic :: At(ever, topic) == At(taken, topic) + At(inFlight, topic) + At(pending, topic)
  }

  lemma MergeAt(front: Assignment, back: Assignment, topic: string)
    ensures At(Merge(front, back), topic) == At(front, topic) + At(back, topic)
  {
  }

  /** Every topic's queue is what it was, followed by the batch's partitions; no topic is lost or invented. */
  predicate Queued(before: Assignment, batch: Assignment, after: Assignment) {
    && after.Keys == before.Keys + batch.Keys
    && (forall topic | topic in batch && topic in before :: after[topic] == before[topic] + batch[topic])
    && (forall topic | topic in batch && topic !in before :: after[topic] == batch[topic])
    && (forall topic | topic in before && topic !in batch :: after[topic] == before[topic])
  }

  lemma MergeQueues(queue: Assignment, batch: Assignment)
    ensures Queued(queue, batch, Merge(queue, batch))
  {
  }

  lemma EnqueueConserves(ever: Assignment, taken: Assignment, inFlight: Assignment, pending: Assignment, batch: Assignment)
    requires Conserved(ever, taken, inFlight, pending)
    ensures Conserved(Merge(ever, batch), taken, inFlight, Merge(pending, batch))
  {
    forall topic
      ensures At(Merge(ever, batch), topic)
           == At(taken, topic) + At(inFlight, topic) + At(Merge(pending, batch), topic)
    {
      MergeAt(ever, batch, topic);
      MergeAt(pending, batch, topic);
      Regroup(At(taken, topic), At(inFlight, topic), At(pending, topic), At(batch, topic));
    }
  }

  lemma TakeConserves(ever: Assignment, taken: Assignment, pending: Assignment)
    requires Conserved(ever, taken, map[], pending)
    ensures Conserved(ever, taken, pending, map[])
  {
    forall topic
      ensures At(ever, topic) == At(taken, topic) + At(pending, topic) + At(map[], topic)
    {
      assert At(ever, topic) == At(taken, topic) + At(map[], topic) + At(pending, topic);
      Regroup(At(taken, topic), [], At(pending, topic), []);
    }
  }

  lemma AcceptConserves(ever: Assignment, taken: Assignment, batch: Assignment, pending: Assignment)
    requires Conserved(ever, taken, batch, pending)
    ensures Conserved(ever, Merge(taken, batch), map[], pending)
  {
    forall topic
      ensures At(ever, topic) == At(Merge(taken, batch), topic) + At(map[], topic) + At(pending, topic)
    {
      MergeAt(taken, batch, topic);
      Regroup(At(taken, topic) + At(batch, topic), [], At(pending, topic), []);
    }
  }

  lemma PutBackConserves(ever: Assignment, taken: Assignment, batch: Assignment, pending: Assignment)
    requires Conserved(ever, taken, batch, pending)
    ensures Conserved(ever, taken, map[], Merge(batch, pending))
  {
    forall topic
      ensures At(ever, topic) == At(taken, topic) + At(map[], topic) + At(Merge(batch, pending), topic)
    {
      MergeAt(batch, pending, topic);
      Regroup(At(taken, topic), [], At(batch, topic), At(pending, topic));
    }
  }

  lemma Regroup(a: seq<int>, b: seq<int>, c: seq<int>, d: seq<int>)
    ensures a + b + c + d == a + b + (c + d)
    ensures a + [] == a && a + [] + c == a + c && a + c + d == a + (c + d)
  {
  }

  /** The part of a batch whose topics a loop over the map has already visited. */
  function Visited(batch: Assignment, todo: set<string>): Assignment {
    map topic | topic in batch && topic !in todo :: batch[topic]
  }

  lemma AppendTopic(front: Assignment, batch: Assignment, todo: set<string>, topic: string)
    requires topic in todo && topic in batch
    ensures var queue := Merge(front, Visited(batch, todo));
            queue[topic := At(queue, topic) + batch[topic]] == Merge(front, Visited(batch, todo - {topic}))
  {
    var queue := Merge(front, Visited(batch, todo));
    var next := Merge(front, Visited(batch, todo - {topic}));
    assert Visited(batch, todo - {topic}).Keys == Visited(batch, todo).Keys + {topic};
    assert queue[topic := At(queue, topic) + batch[topic]].Keys == next.Keys;
    assert At(front, topic) + [] == At(front, topic);
  }

  lemma PrependTopic(batch: Assignment, back: Assignment, todo: set<string>, topic: string)
    requires topic in todo && topic in batch
    ensures var queue := Merge(Visited(batch, todo), back);
            queue[topic := batch[topic] + At(queue, topic)] == Merge(Visited(batch, todo - {topic}), back)
  {
    var queue := Merge(Visited(batch, todo), back);
    var next := Merge(Visited(batch, todo - {topic}), back);
    assert Visited(batch, todo - {topic}).Keys == Visited(batch, todo).Keys + {topic};
    assert queue[topic := batch[topic] + At(queue, topic)].Keys == next.Keys;
    assert [] + At(back, topic) == At(back, topic);
  }

  lemma VisitedNone(batch: Assignment, queue: Assignment)
    ensures Merge(queue, Visited(batch, batch.Keys)) == queue == Merge(Visited(batch, batch.Keys), queue)
    ensures Visited(batch, {}) == batch
  {
    assert Visited(batch, batch.Keys) == map[];
    assert Merge(queue, map[]).Keys == queue.Keys == Merge(map[], queue).Keys;
    forall topic | topic in queue
      ensures Merge(queue, map[])[topic] == queue[topic] == Merge(map[], queue)[topic]
    {
      assert queue[topic] + [] == queue[topic] == [] + queue[topic];
    }
  }
}
