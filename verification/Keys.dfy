/** The strings the adapter keys its error maps by: decimal rendering, the topic-partition key and the
    fingerprint of an error, with the exact conditions under which two of them coincide. */
module Keys {
  import opened Prelude

  function Digits(n: nat): (s: string)
    ensures |s| > 0 && forall i | 0 <= i < |s| :: '0' <= s[i] <= '9'
  {
    (if n < 10 then "" else Digits(n / 10)) + ["0123456789"[n % 10]]
  }

  /** strconv.Itoa. */
  function Itoa(n: int): string {
    if n < 0 then "-" + Digits(-n) else Digits(n)
  }

  /** A decimal numeral, read back. */
  function Numeral(s: string): int {
    if s == [] then 0 else 10 * Numeral(s[..|s| - 1]) + (s[|s| - 1] as int - '0' as int)
  }

  lemma DigitReads(d: nat)
    requires d < 10
    ensures "0123456789"[d] as int - '0' as int == d
  {
  }

  lemma {:induction false} DigitsReadBack(n: nat)
    ensures Numeral(Digits(n)) == n && (n > 0 ==> Digits(n)[0] != '0')
    decreases n
  {
    var s := Digits(n);
    DigitReads(n % 10);
    assert s[|s| - 1] == "0123456789"[n % 10];
    if n >= 10 {
      DigitsReadBack(n / 10);
      assert s[..|s| - 1] == Digits(n / 10);
    } else {
      assert s[..|s| - 1] == [];
    }
  }

  /** Rendering is the ordinary decimal one: it reads back as the number, with a sign and no leading zero. */
  lemma ItoaReadsBack(n: int)
    ensures n >= 0 ==> Numeral(Itoa(n)) == n && (n > 0 ==> Itoa(n)[0] != '0')
    ensures n < 0 ==> Itoa(n)[0] == '-' && Numeral(Itoa(n)[1..]) == -n
  {
    DigitsReadBack(if n < 0 then -n else n);
    if n < 0 {
      assert ("-" + Digits(-n))[1..] == Digits(-n);
    }
  }

  lemma DigitsInjective(m: nat, n: nat)
    requires Digits(m) == Digits(n)
    ensures m == n
  {
    DigitsReadBack(m);
    DigitsReadBack(n);
  }

  lemma ItoaSign(n: int)
    ensures |Itoa(n)| > 0 && (Itoa(n)[0] == '-' <==> n < 0)
  {
    if n >= 0 {
      assert '0' <= Digits(n)[0];
    }
  }

  lemma ItoaInjective(m: int, n: int)
    requires Itoa(m) == Itoa(n)
    ensures m == n
  {
    ItoaSign(m);
    ItoaSign(n);
    ItoaReadsBack(m);
    ItoaReadsBack(n);
  }

  /** handlePollErrors' map key. */
  function Key(topic: string, partition: int): string {
    topic + "-" + Itoa(partition)
  }

  /** A key's text before its last dash; what follows is all digits. */
  function Stem(topic: string, partition: int): string {
    if partition < 0 then topic + "-" else topic
  }

  function Size(partition: int): nat {
    if partition < 0 then -partition else partition
  }

  lemma KeyShape(topic: string, partition: int)
    ensures Key(topic, partition) == Stem(topic, partition) + "-" + Digits(Size(partition))
  {
  }

  lemma {:induction false} LastDashUnique(a: string, d: string, b: string, e: string)
    requires forall i | 0 <= i < |d| :: d[i] != '-'
    requires forall i | 0 <= i < |e| :: e[i] != '-'
    requires a + "-" + d == b + "-" + e
    ensures a == b && d == e
  {
    var s, t := a + "-" + d, b + "-" + e;
    assert s[|a|] == '-' && t[|b|] == '-';
    assert forall i | |a| < i < |s| :: s[i] == d[i - |a| - 1];
    assert forall i | |b| < i < |t| :: t[i] == e[i - |b| - 1];
    assert |a| == |b|;
    assert s[..|a|] == a && t[..|b|] == b;
    assert s[|a| + 1..] == d && t[|b| + 1..] == e;
  }

  lemma KeysCoincideByParts(topic: string, partition: int, topic': string, partition': int)
    ensures Key(topic, partition) == Key(topic', partition') <==>
            Stem(topic, partition) == Stem(topic', partition') && Size(partition) == Size(partition')
  {
    KeyShape(topic, partition);
    KeyShape(topic', partition');
    if Key(topic, partition) == Key(topic', partition') {
      LastDashUnique(Stem(topic, partition), Digits(Size(partition)),
                     Stem(topic', partition'), Digits(Size(partition')));
      DigitsInjective(Size(partition), Size(partition'));
    }
  }

  lemma DashCancels(topic: string, topic': string)
    ensures topic + "-" == topic' + "-" <==> topic == topic'
  {
    if topic + "-" == topic' + "-" {
      assert (topic + "-")[..|topic|] == topic && (topic' + "-")[..|topic'|] == topic';
    }
  }

  /** Two topic-partitions share a key exactly when they are equal, or one has a negative partition and
      the other's topic has swallowed its minus sign. */
  lemma KeysCoincideExactly(topic: string, partition: int, topic': string, partition': int)
    ensures Key(topic, partition) == Key(topic', partition') <==>
            || (topic == topic' && partition == partition')
            || (partition < 0 && topic' == topic + "-" && partition' == -partition)
            || (partition' < 0 && topic == topic' + "-" && partition == -partition')
  {
    KeysCoincideByParts(topic, partition, topic', partition');
    DashCancels(topic, topic');
  }

  /** Among real partitions, which are never negative, the key is faithful. */
  lemma KeyFaithful(topic: string, partition: int, topic': string, partition': int)
    requires partition >= 0 && partition' >= 0 && Key(topic, partition) == Key(topic', partition')
    ensures topic == topic' && partition == partition'
  {
    KeysCoincideExactly(topic, partition, topic', partition');
  }

  /** An error as the adapter can tell errors apart: whether it wraps the context deadline, the code of
      the Kafka protocol error it wraps, if any, and its text. */
  datatype FetchErr = FetchErr(isDeadline: bool, kafkaCode: Option<int>, text: string)

  function ErrIdentity(e: FetchErr): string {
    if e.kafkaCode.Some? then "kafka:" + Itoa(e.kafkaCode.value) else e.text
  }

  /** Protocol errors are told apart by code alone, others by text; the two kinds meet only when a plain
      error's text spells out a protocol fingerprint. */
  lemma IdentitiesCoincideExactly(e: FetchErr, f: FetchErr)
    ensures ErrIdentity(e) == ErrIdentity(f) <==>
            if e.kafkaCode.Some? && f.kafkaCode.Some? then e.kafkaCode == f.kafkaCode
            else if e.kafkaCode.Some? then f.text == "kafka:" + Itoa(e.kafkaCode.value)
            else if f.kafkaCode.Some? then e.text == "kafka:" + Itoa(f.kafkaCode.value)
            else e.text == f.text
  {
    if e.kafkaCode.Some? && f.kafkaCode.Some? && ErrIdentity(e) == ErrIdentity(f) {
      assert ErrIdentity(e)[6..] == Itoa(e.kafkaCode.value) && ErrIdentity(f)[6..] == Itoa(f.kafkaCode.value);
      ItoaInjective(e.kafkaCode.value, f.kafkaCode.value);
    }
  }
}
