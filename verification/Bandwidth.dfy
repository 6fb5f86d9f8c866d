/** Bandwidth telemetry: per-partition accumulators, objects held in a map, filled by fetch hooks and
    snapshotted and reset by a timer. Counters are unbounded integers here. */
module Bandwidth {
  import opened Prelude
  import opened Keys

  /** The part of a fetch hook's arguments the accumulators use. */
  datatype Batch = Batch(node: int, partition: int, uncompressed: int, compressed: int, records: int, codec: nat)

  datatype Counters = Counters(received: int, transmitted: int, messages: int, compressed: int, uncompressed: int)

  const Zero := Counters(0, 0, 0, 0, 0)

  function Plus(a: Counters, b: Counters): Counters {
    Counters(a.received + b.received, a.transmitted + b.transmitted, a.messages + b.messages,
             a.compressed + b.compressed, a.uncompressed + b.uncompressed)
  }

  /** What one batch adds. Nothing attributes transmitted bytes to a partition. */
  function Weight(b: Batch): Counters {
    Counters(b.uncompressed, 0, b.records, b.compressed, b.uncompressed)
  }

  datatype Reading = Reading(counters: Counters, compression: string, leader: string)

  const Blank := Reading(Zero, "", "")

  type Readings = map<int, Reading>

  function CompressionName(codec: nat): string {
    var names := ["none", "gzip", "snappy", "lz4", "zstd"];
    if codec < |names| then names[codec] else "unknown(" + Itoa(codec) + ")"
  }

  function ReadingOf(m: Readings, partition: int): Reading {
    if partition in m then m[partition] else Blank
  }

  function AfterBatch(r: Reading, b: Batch): Reading {
    Reading(Plus(r.counters, Weight(b)), if b.codec > 0 then CompressionName(b.codec) else r.compression, Itoa(b.node))
  }

  function Recorded(m: Readings, b: Batch): Readings {
    m[b.partition := AfterBatch(ReadingOf(m, b.partition), b)]
  }

  /** After an emit the counters start again; leader and compression stay. */
  function Cleared(m: Readings): Readings {
    map p | p in m :: m[p].(counters := Zero)
  }

  datatype Entry = Entry(id: int, reading: Reading)

  /** The packet lists the partitions of `ids`, each exactly once, with its reading. */
  predicate ListsOf(packet: seq<Entry>, m: Readings, ids: set<int>) {
    if packet == [] then ids == {}
    else
      var e := packet[|packet| - 1];
      && e.id in ids && e.id in m && e.reading == m[e.id]
      && ListsOf(packet[..|packet| - 1], m, ids - {e.id})
  }

  /** A packet for a whole interval: every known partition. */
  predicate Lists(packet: seq<Entry>, m: Readings) {
    ListsOf(packet, m, m.Keys)
  }

  lemma ListOneMore(packet: seq<Entry>, m: Readings, ids: set<int>, id: int)
    requires ListsOf(packet, m, ids) && id !in ids && id in m
    ensures ListsOf(packet + [Entry(id, m[id])], m, ids + {id})
  {
    assert (packet + [Entry(id, m[id])])[..|packet|] == packet;
    assert ids + {id} - {id} == ids;
  }

  function Mentions(packet: seq<Entry>, id: int): nat {
    if packet == [] then 0
    else Mentions(packet[..|packet| - 1], id) + if packet[|packet| - 1].id == id then 1 else 0
  }

  /** Exactly once, counted. */
  lemma {:induction false} ListedOnce(packet: seq<Entry>, m: Readings, ids: set<int>, id: int)
    requires ListsOf(packet, m, ids)
    ensures Mentions(packet, id) == if id in ids then 1 else 0
    decreases |packet|
  {
    if packet != [] {
      ListedOnce(packet[..|packet| - 1], m, ids - {packet[|packet| - 1].id}, id);
    }
  }

  /** An emit in progress: the partitions still to visit keep their counters. */
  function PartlyCleared(m: Readings, todo: set<int>): Readings {
    map p | p in m :: if p in todo then m[p] else m[p].(counters := Zero)
  }

  lemma ClearOneMore(m: Readings, todo: set<int>, id: int)
    requires id in todo && id in m
    ensures id in PartlyCleared(m, todo) && PartlyCleared(m, todo)[id] == m[id]
    ensures PartlyCleared(m, todo)[id := m[id].(counters := Zero)] == PartlyCleared(m, todo - {id})
  {
  }

  // ---------------------------------------------------------------------------------------------
  // The code
  // ---------------------------------------------------------------------------------------------

  class PartitionAccumulator {
    var receivedBytes: int
    var transmittedBytes: int
    var receivedMessageCount: int
    var compressedBytes: int
    var uncompressedBytes: int
    var compression: string
    var leader: string

    constructor ()
      ensures Value() == Blank
    {
      receivedBytes, transmittedBytes, receivedMessageCount, compressedBytes, uncompressedBytes := 0, 0, 0, 0, 0;
      compression, leader := "", "";
    }

    function Value(): Reading
      reads this
    {
      Reading(Counters(receivedBytes, transmittedBytes, receivedMessageCount, compressedBytes, uncompressedBytes),
              compression, leader)
    }

    method Add(b: Batch)
      modifies this
      ensures Value() == AfterBatch(old(Value()), b)
    {
      leader := Itoa(b.node);
      receivedBytes := receivedBytes + b.uncompressed;
      receivedMessageCount := receivedMessageCount + b.records;
      compressedBytes := compressedBytes + b.compressed;
      uncompressedBytes := uncompressedBytes + b.uncompressed;
      if b.codec > 0 {
        compression := CompressionName(b.codec);
      }
    }

    method Reset()
      modifies this
      ensures Value() == old(Value()).(counters := Zero)
    {
      receivedBytes, transmittedBytes, receivedMessageCount, compressedBytes, uncompressedBytes := 0, 0, 0, 0, 0;
    }
  }

  class BandwidthCollector {
    var partitions: map<int, PartitionAccumulator>
    /** Whether a callback is registered, and what it has been given. */
    var listening: bool
    var packets: seq<seq<Entry>>
    /** Every batch and emit so far. */
    ghost var history: seq<Use>

    /** No two partitions share an accumulator. */
    predicate Valid()
      reads this
    {
      forall p, q | p in partitions && q in partitions && p != q :: partitions[p] != partitions[q]
    }

    function Snapshot(): Readings
      reads this, partitions.Values
    {
      map p | p in partitions :: partitions[p].Value()
    }

    /** The accumulators and the packets are what the history makes them. */
    ghost predicate Accounted()
      reads this, partitions.Values
    {
      Valid() && Accounts(history, Snapshot(), packets)
    }

    constructor ()
      ensures Accounted() && Snapshot() == map[] && !listening && history == []
    {
      partitions, listening, packets, history := map[], false, [], [];
    }

    method SetBandwidthCallback()
      requires Accounted()
      modifies this`listening
      ensures Accounted() && listening && history == old(history)
    {
      listening := true;
    }

    method GetOrCreatePartition(partition: int) returns (acc: PartitionAccumulator)
      requires Valid()
      modifies this`partitions
      ensures Valid() && partition in partitions && acc == partitions[partition]
      ensures partitions == old(partitions)[partition := acc]
      ensures if partition in old(partitions) then acc == old(partitions)[partition] else fresh(acc)
      ensures acc.Value() == old(ReadingOf(Snapshot(), partition))
    {
      if partition in partitions {
        acc := partitions[partition];
      } else {
        acc := new PartitionAccumulator();
        partitions := partitions[partition := acc];
      }
    }

    method RecordFetchBatch(b: Batch)
      requires Accounted()
      modifies this`partitions, this`history, partitions.Values
      ensures Accounted() && history == old(history) + [Use.Record(b)]
      ensures Snapshot() == Recorded(old(Snapshot()), b)
      ensures Gained(old(ReadingOf(Snapshot(), b.partition)).counters, b, ReadingOf(Snapshot(), b.partition).counters)
      ensures fresh(partitions.Values - old(partitions.Values))
    {
      HistoryExtends(history, Snapshot(), packets, Use.Record(b));
      Accumulate(b);
      history := history + [Use.Record(b)];
    }

    method Accumulate(b: Batch)
      requires Valid()
      modifies this`partitions, partitions.Values
      ensures Valid() && Snapshot() == Recorded(old(Snapshot()), b)
      ensures fresh(partitions.Values - old(partitions.Values))
    {
      ghost var before := Snapshot();
      var acc := GetOrCreatePartition(b.partition);
      assert b.partition in old(partitions) ==> acc in old(partitions).Values;
      acc.Add(b);
      assert acc.Value() == AfterBatch(ReadingOf(before, b.partition), b);
      assert forall p | p in partitions && p != b.partition :: partitions[p].Value() == before[p];
    }

    /** One turn of emit's loop: read an accumulator and reset it. */
    method Drain(id: int) returns (e: Entry)
      requires Valid() && id in partitions
      modifies partitions[id]
      ensures e == Entry(id, old(Snapshot())[id])
      ensures Snapshot() == old(Snapshot())[id := old(Snapshot())[id].(counters := Zero)]
    {
      ghost var before := Snapshot();
      e := Entry(id, partitions[id].Value());
      partitions[id].Reset();
      assert forall p | p in partitions && p != id :: partitions[p].Value() == before[p];
    }

    method Emit() returns (ghost sent: Option<seq<Entry>>)
      requires Accounted()
      modifies this`packets, this`history, partitions.Values
      ensures Accounted() && history == old(history) + [Use.Emit(sent)]
      ensures packets == old(packets) + PacketOf(Use.Emit(sent))
      ensures !listening ==> sent == None && Snapshot() == old(Snapshot())
      ensures listening ==> sent.Some? && Lists(sent.value, old(Snapshot())) && Snapshot() == Cleared(old(Snapshot()))
    {
      if !listening {
        sent := None;
        HistoryExtends(history, Snapshot(), packets, Use.Emit(sent));
        history := history + [Use.Emit(sent)];
        return;
      }
      ghost var before := Snapshot();
      var packet := DrainAll();
      sent := Some(packet);
      HistoryExtends(history, before, packets, Use.Emit(sent));
      history, packets := history + [Use.Emit(sent)], packets + [packet];
    }

    method DrainAll() returns (packet: seq<Entry>)
      requires Valid()
      modifies partitions.Values
      ensures Snapshot() == Cleared(old(Snapshot())) && Lists(packet, old(Snapshot()))
    {
      ghost var before := Snapshot();
      packet := [];
      var todo: set<int> := partitions.Keys;
      assert before.Keys == partitions.Keys && PartlyCleared(before, todo) == before;
      while todo != {}
        invariant todo <= partitions.Keys && before.Keys == partitions.Keys
        invariant Snapshot() == PartlyCleared(before, todo)
        invariant ListsOf(packet, before, before.Keys - todo)
      {
        EmptyOrNot(todo);
        var id: int :| id in todo;
        ListOneMore(packet, before, before.Keys - todo, id);
        assert partitions[id] in partitions.Values;
        ClearOneMore(before, todo, id);
        var e := Drain(id);
        packet := packet + [e];
        assert before.Keys - (todo - {id}) == before.Keys - todo + {id};
        todo := todo - {id};
      }
      assert before.Keys - {} == before.Keys;
    }
  }

  // ---------------------------------------------------------------------------------------------
  // Conservation
  // ---------------------------------------------------------------------------------------------

  /** One use of the collector: a batch, or an emit with the packet it delivered, if anybody listened. */
  datatype Use = Record(batch: Batch) | Emit(packet: Option<seq<Entry>>)

  function After(uses: seq<Use>): Readings {
    if uses == [] then map[]
    else
      AfterUse(After(uses[..|uses| - 1]), uses[|uses| - 1])
  }

  /** Every packet delivered lists what had accumulated. */
  predicate Faithful(uses: seq<Use>) {
    uses == []
    || (Faithful(uses[..|uses| - 1]) && FaithfulUse(After(uses[..|uses| - 1]), uses[|uses| - 1]))
  }

  /** The packets among them. */
  function Delivered(uses: seq<Use>): seq<seq<Entry>> {
    if uses == [] then []
    else Delivered(uses[..|uses| - 1]) + PacketOf(uses[|uses| - 1])
  }

  function PacketOf(u: Use): seq<seq<Entry>> {
    if u.Emit? && u.packet.Some? then [u.packet.value] else []
  }

  /** The accumulators and the packets are what the history makes them. */
  predicate Accounts(uses: seq<Use>, m: Readings, packets: seq<seq<Entry>>) {
    m == After(uses) && Faithful(uses) && packets == Delivered(uses)
  }

  lemma HistoryExtends(uses: seq<Use>, m: Readings, packets: seq<seq<Entry>>, u: Use)
    requires Accounts(uses, m, packets) && FaithfulUse(m, u)
    ensures Accounts(uses + [u], AfterUse(m, u), packets + PacketOf(u))
    ensures packets + [] == packets
  {
    assert (uses + [u])[..|uses|] == uses;
  }

  datatype Counter = Received | Transmitted | Messages | Compressed | Uncompressed

  function Of(c: Counter, a: Counters): int {
    match c
    case Received => a.received
    case Transmitted => a.transmitted
    case Messages => a.messages
    case Compressed => a.compressed
    case Uncompressed => a.uncompressed
  }

  function Held(m: Readings, partition: int, c: Counter): int {
    Of(c, ReadingOf(m, partition).counters)
  }

  function SumFor(packet: seq<Entry>, partition: int, c: Counter): int {
    if packet == [] then 0
    else
      SumFor(packet[..|packet| - 1], partition, c)
      + if packet[|packet| - 1].id == partition then Of(c, packet[|packet| - 1].reading.counters) else 0
  }

  function Carried(u: Use, partition: int, c: Counter): int {
    if u.Emit? && u.packet.Some? then SumFor(u.packet.value, partition, c) else 0
  }

  /** A batch's own figure for a counter, as the client reports it. */
  function Figure(b: Batch, c: Counter): int {
    match c
    case Received => b.uncompressed
    case Transmitted => 0
    case Messages => b.records
    case Compressed => b.compressed
    case Uncompressed => b.uncompressed
  }

  function Brought(u: Use, partition: int, c: Counter): int {
    if u.Record? && u.batch.partition == partition then Figure(u.batch, c) else 0
  }

  function TotalEmitted(uses: seq<Use>, partition: int, c: Counter): int {
    if uses == [] then 0
    else TotalEmitted(uses[..|uses| - 1], partition, c) + Carried(uses[|uses| - 1], partition, c)
  }

  function TotalRecorded(uses: seq<Use>, partition: int, c: Counter): int {
    if uses == [] then 0
    else TotalRecorded(uses[..|uses| - 1], partition, c) + Brought(uses[|uses| - 1], partition, c)
  }

  lemma {:induction false} SumOfListed(packet: seq<Entry>, m: Readings, ids: set<int>, partition: int, c: Counter)
    requires ListsOf(packet, m, ids)
    ensures SumFor(packet, partition, c) == if partition in ids then Held(m, partition, c) else 0
    decreases |packet|
  {
    if packet != [] {
      SumOfListed(packet[..|packet| - 1], m, ids - {packet[|packet| - 1].id}, partition, c);
    }
  }

  /** A packet carries each partition's counters once. */
  lemma PacketCarries(packet: seq<Entry>, m: Readings, partition: int, c: Counter)
    requires Lists(packet, m)
    ensures SumFor(packet, partition, c) == Held(m, partition, c)
  {
    SumOfListed(packet, m, m.Keys, partition, c);
  }

  function AfterUse(m: Readings, u: Use): Readings {
    match u
    case Record(b) => Recorded(m, b)
    case Emit(packet) => if packet.Some? then Cleared(m) else m
  }

  /** A batch adds its figures to its own partition's counters, each to its own, and leaves every other
      partition alone. */
  lemma BatchCounted(m: Readings, b: Batch, partition: int)
    ensures b.partition != partition ==> ReadingOf(Recorded(m, b), partition) == ReadingOf(m, partition)
    ensures b.partition == partition ==>
              Gained(ReadingOf(m, partition).counters, b, ReadingOf(Recorded(m, b), partition).counters)
  {
  }

  predicate Gained(before: Counters, b: Batch, after: Counters) {
    && after.received == before.received + b.uncompressed && after.transmitted == before.transmitted
    && after.messages == before.messages + b.records
    && after.compressed == before.compressed + b.compressed
    && after.uncompressed == before.uncompressed + b.uncompressed
  }

  predicate FaithfulUse(m: Readings, u: Use) {
    u.Emit? && u.packet.Some? ==> Lists(u.packet.value, m)
  }

  /** One use moves counters from the accumulator to a packet or from a batch to the accumulator. */
  lemma UseConserves(m: Readings, u: Use, partition: int, c: Counter)
    requires FaithfulUse(m, u)
    ensures Carried(u, partition, c) + Held(AfterUse(m, u), partition, c) == Held(m, partition, c) + Brought(u, partition, c)
  {
    if u.Record? {
      BatchCounted(m, u.batch, partition);
    } else if u.packet.Some? {
      PacketCarries(u.packet.value, m, partition, c);
    }
  }

  /** For any interleaving of batches and emits, what a partition's packets have carried plus what it has
      accumulated since is exactly what its batches amounted to. */
  lemma {:induction false} BandwidthConserved(uses: seq<Use>, partition: int, c: Counter)
    requires Faithful(uses)
    ensures TotalEmitted(uses, partition, c) + Held(After(uses), partition, c) == TotalRecorded(uses, partition, c)
    decreases |uses|
  {
    if uses != [] {
      var front := uses[..|uses| - 1];
      BandwidthConserved(front, partition, c);
      UseConserves(After(front), uses[|uses| - 1], partition, c);
    }
  }

  function SumOver(packets: seq<seq<Entry>>, partition: int, c: Counter): int {
    if packets == [] then 0
    else SumOver(packets[..|packets| - 1], partition, c) + SumFor(packets[|packets| - 1], partition, c)
  }

  lemma {:induction false} DeliveredSum(uses: seq<Use>, partition: int, c: Counter)
    ensures SumOver(Delivered(uses), partition, c) == TotalEmitted(uses, partition, c)
    decreases |uses|
  {
    if uses != [] {
      var front, u := Delivered(uses[..|uses| - 1]), uses[|uses| - 1];
      DeliveredSum(uses[..|uses| - 1], partition, c);
      assert front + [] == front;
      if u.Emit? && u.packet.Some? {
        assert (front + [u.packet.value])[..|front|] == front;
      }
    }
  }

  /** At any moment of the collector's life, the packets its callback was given plus the live accumulators
      add up to the batches it was told of. */
  lemma CollectorConserves(bc: BandwidthCollector, partition: int, c: Counter)
    requires bc.Accounted()
    ensures SumOver(bc.packets, partition, c) + Held(bc.Snapshot(), partition, c) == TotalRecorded(bc.history, partition, c)
  {
    BandwidthConserved(bc.history, partition, c);
    DeliveredSum(bc.history, partition, c);
  }

  lemma UseTransmitsNothing(m: Readings, u: Use, partition: int)
    requires Held(m, partition, Transmitted) == 0
    ensures Held(AfterUse(m, u), partition, Transmitted) == 0
  {
    if u.Record? {
      BatchCounted(m, u.batch, partition);
    }
  }

  /** No partition is ever credited with transmitted bytes. */
  lemma {:induction false} NothingTransmitted(uses: seq<Use>, partition: int)
    ensures Held(After(uses), partition, Transmitted) == 0
    ensures TotalRecorded(uses, partition, Transmitted) == 0
    decreases |uses|
  {
    if uses != [] {
      var front := uses[..|uses| - 1];
      NothingTransmitted(front, partition);
      UseTransmitsNothing(After(front), uses[|uses| - 1], partition);
    }
  }

  predicate NamesCodec(u: Use, partition: int) {
    u.Record? && u.batch.partition == partition && u.batch.codec > 0
  }

  /** A partition's compression is that of its latest compressed batch: uncompressed ones and emits leave
      it as it was. */
  lemma {:induction false} CompressionIsLatest(uses: seq<Use>, k: int, partition: int)
    requires 0 <= k < |uses| && NamesCodec(uses[k], partition)
    requires forall i | k < i < |uses| :: !NamesCodec(uses[i], partition)
    ensures ReadingOf(After(uses), partition).compression == CompressionName(uses[k].batch.codec)
    decreases |uses|
  {
    if k < |uses| - 1 {
      CompressionIsLatest(uses[..|uses| - 1], k, partition);
    }
  }

  /** And its name is the Kafka protocol's. */
  lemma CompressionNamesAre()
    ensures CompressionName(0) == "none" && CompressionName(1) == "gzip" && CompressionName(2) == "snappy"
    ensures CompressionName(3) == "lz4" && CompressionName(4) == "zstd"
    ensures forall codec: nat | codec > 4 :: CompressionName(codec) == "unknown(" + Itoa(codec) + ")"
  {
  }

  /** So the name tells the codec. */
  lemma CompressionNamesDistinct(codec: nat, codec': nat)
    requires CompressionName(codec) == CompressionName(codec')
    ensures codec == codec'
  {
    if codec >= 5 && codec' >= 5 {
      var s, t := CompressionName(codec), CompressionName(codec');
      assert s[8..|s| - 1] == Itoa(codec) && t[8..|t| - 1] == Itoa(codec');
      ItoaInjective(codec, codec');
    } else {
      assert codec >= 5 ==> CompressionName(codec)[0] == 'u';
      assert codec' >= 5 ==> CompressionName(codec')[0] == 'u';
      assert CompressionName(1)[0] == 'g' && CompressionName(2)[0] == 's' && CompressionName(3)[0] == 'l';
    }
  }

  /** A partition's leader is the broker of its latest batch, through any number of emits. */
  lemma {:induction false} LeaderIsLatest(uses: seq<Use>, k: int)
    requires 0 <= k < |uses| && uses[k].Record?
    requires forall i | k < i < |uses| && uses[i].Record? :: uses[i].batch.partition != uses[k].batch.partition
    ensures ReadingOf(After(uses), uses[k].batch.partition).leader == Itoa(uses[k].batch.node)
    decreases |uses|
  {
    if k < |uses| - 1 {
      LeaderIsLatest(uses[..|uses| - 1], k);
    }
  }
}
