// Partitioning of the event stream and its distribution to consumers (src/consumer.rs).

module Consumer {
  import Arith
  import opened Options
  import opened Json

  datatype Strategy = DidBased | CollectionBased | RoundRobin | CustomField(field: string)

  datatype PartitionConfig = PartitionConfig(instanceId: nat, totalInstances: nat, strategy: Strategy)

  datatype StreamEvent =
    | Commit(did: string, collection: string, rkey: string, cid: string, record: Json, operation: string, timeUs: nat)
    | Delete(did: string, collection: string, rkey: string, timeUs: nat)
    | Identity(did: string, timeUs: nat)
    | Account(did: string, timeUs: nat)

  datatype BlueprintEvent =
    | CommitEvent(did: string, collection: string, rkey: string, cid: string, record: Json, operation: string,
                  timeUs: int)
    | DeleteEvent(did: string, collection: string, rkey: string, timeUs: int)

  // The string hash, as an unsigned number.
  type Hash = string -> nat

  function Decimal(n: nat): string {
    if n < 10 then ["0123456789"[n]] else Decimal(n / 10) + ["0123456789"[n % 10]]
  }

  function PartitionKey(strategy: Strategy, e: StreamEvent): string {
    match strategy
    case DidBased => e.did
    case CollectionBased => if e.Commit? || e.Delete? then e.collection else ""
    case RoundRobin => Decimal(e.timeUs)
    case CustomField(field) =>
      if e.Commit? && AsStr(Get(e.record, field)).Some? then AsStr(Get(e.record, field)).value else ""
  }

  predicate ShouldProcess(config: PartitionConfig, e: StreamEvent, hash: Hash) {
    config.totalInstances <= 1
    || hash(PartitionKey(config.strategy, e)) % config.totalInstances == config.instanceId
  }

  // The instance among n that an event belongs to.
  function Owner(n: nat, strategy: Strategy, e: StreamEvent, hash: Hash): nat
    requires n > 0
  {
    hash(PartitionKey(strategy, e)) % n
  }

  // Events that agree in what the strategy goes by are processed by the same instances: all of one author's
  // events, a collection's commits and deletes, commits whose records have the same string in the field.
  lemma SameKeySameInstance(config: PartitionConfig, a: StreamEvent, b: StreamEvent, hash: Hash)
    requires match config.strategy
             case DidBased => a.did == b.did
             case CollectionBased =>
               if a.Commit? || a.Delete? then (b.Commit? || b.Delete?) && a.collection == b.collection
               else b.Identity? || b.Account?
             case RoundRobin => a.timeUs == b.timeUs
             case CustomField(field) => a.Commit? && b.Commit? && Get(a.record, field) == Get(b.record, field)
    ensures ShouldProcess(config, a, hash) <==> ShouldProcess(config, b, hash)
  {
  }

  // Timestamps that differ have different keys.
  lemma {:induction false} DecimalIsInjective(m: nat, n: nat)
    ensures Decimal(m) == Decimal(n) ==> m == n
    decreases m + n
  {
    assert forall i, j :: 0 <= i < j < 10 ==> "0123456789"[i] != "0123456789"[j];
    DecimalHasDigits(m);
    DecimalHasDigits(n);
    if m >= 10 && n >= 10 {
      DecimalIsInjective(m / 10, n / 10);
      assert Decimal(m)[..|Decimal(m)| - 1] == Decimal(m / 10) && Decimal(n)[..|Decimal(n)| - 1] == Decimal(n / 10);
      assert Decimal(m)[|Decimal(m)| - 1] == "0123456789"[m % 10];
      assert Decimal(n)[|Decimal(n)| - 1] == "0123456789"[n % 10];
    } else if m >= 10 || n >= 10 {
      DecimalHasDigits(m / 10);
      DecimalHasDigits(n / 10);
    } else {
      assert Decimal(m)[0] == "0123456789"[m] && Decimal(n)[0] == "0123456789"[n];
    }
  }

  lemma DecimalHasDigits(n: nat)
    ensures |Decimal(n)| > 0
  {
  }

  lemma ExactlyOneInstance(n: nat, strategy: Strategy, e: StreamEvent, hash: Hash, i: nat)
    requires i < n
    ensures Owner(n, strategy, e, hash) < n
    ensures ShouldProcess(PartitionConfig(i, n, strategy), e, hash) <==> i == Owner(n, strategy, e, hash)
  {
    if n == 1 {
      assert hash(PartitionKey(strategy, e)) % 1 == 0;
    }
  }

  // ---------------------------------------------------------------- one arriving event

  // The denylist is asked twice; None is an error. Only a second answer of true blocks the event, and an
  // error at either question lets it pass.
  datatype Arrival = Arrival(event: StreamEvent, first: Option<bool>, second: Option<bool>)

  predicate Blocked(a: Arrival) {
    a.first.Some? && a.second == Some(true)
  }

  function Translate(e: StreamEvent, collections: seq<string>): Option<BlueprintEvent> {
    match e
    case Commit(did, collection, rkey, cid, record, operation, timeUs) =>
      if collections != [] && collection !in collections then None
      else Some(CommitEvent(did, collection, rkey, cid, record, operation, Arith.AsI64(timeUs)))
    case Delete(did, collection, rkey, timeUs) =>
      if collections != [] && collection !in collections then None
      else Some(DeleteEvent(did, collection, rkey, Arith.AsI64(timeUs)))
    case _ => None
  }

  // The forwarded event says of the arrived one what it was, field by field.
  predicate Conveys(arrived: StreamEvent, e: BlueprintEvent) {
    match arrived
    case Commit(_, _, _, _, _, _, _) =>
      && e.CommitEvent? && e.did == arrived.did && e.collection == arrived.collection && e.rkey == arrived.rkey
      && e.cid == arrived.cid && e.record == arrived.record && e.operation == arrived.operation
      && SameWord(e.timeUs, arrived.timeUs)
    case Delete(_, _, _, _) =>
      && e.DeleteEvent? && e.did == arrived.did && e.collection == arrived.collection && e.rkey == arrived.rkey
      && SameWord(e.timeUs, arrived.timeUs)
    case _ => false
  }

  // The signed number with the same 64 bits.
  predicate SameWord(signed: int, unsigned: nat) {
    -0x8000_0000_0000_0000 <= signed < 0x8000_0000_0000_0000 && (unsigned - signed) % 0x1_0000_0000_0000_0000 == 0
  }

  lemma AsI64IsSameWord(n: nat, i: int)
    ensures SameWord(i, n) <==> i == Arith.AsI64(n)
  {
    var u := Arith.U64;
    Arith.Split(n, u);
    if i == Arith.AsI64(n) {
      Arith.Unique(n - i, if i < 0 then n / u + 1 else n / u, 0, u);
    } else if SameWord(i, n) {
      Arith.Split(n - i, u);
      var q := (n - i) / u;
      if i >= 0 {
        Arith.Unique(n, q, i, u);
      } else {
        Arith.Unique(n, q - 1, i + u, u);
      }
    }
  }

  predicate IsCollected(e: StreamEvent, collections: seq<string>) {
    (e.Commit? || e.Delete?) && (collections == [] || e.collection in collections)
  }

  // The denylist stops an event only when it answers at the first question and says yes at the second.
  predicate Stopped(a: Arrival) {
    match (a.first, a.second)
    case (None, _) => false
    case (Some(_), None) => false
    case (Some(_), Some(yes)) => yes
  }

  // An event is forwarded exactly when it is routed here, not stopped and of a wanted collection, and what is
  // forwarded conveys it.
  lemma ForwardedIff(config: PartitionConfig, collections: seq<string>, hash: Hash, a: Arrival, e: BlueprintEvent)
    ensures Forwarded(config, collections, hash, a) == Some(e) <==>
      ShouldProcess(config, a.event, hash) && !Stopped(a) && IsCollected(a.event, collections) && Conveys(a.event, e)
  {
    if a.event.Commit? || a.event.Delete? {
      AsI64IsSameWord(a.event.timeUs, e.timeUs);
    }
  }

  function Forwarded(config: PartitionConfig, collections: seq<string>, hash: Hash, a: Arrival)
    : Option<BlueprintEvent>
  {
    if !ShouldProcess(config, a.event, hash) || Blocked(a) then None else Translate(a.event, collections)
  }

  function Sent(e: Option<BlueprintEvent>): seq<BlueprintEvent> {
    if e.Some? then [e.value] else []
  }

  function AllForwarded(config: PartitionConfig, collections: seq<string>, hash: Hash, arrivals: seq<Arrival>)
    : seq<BlueprintEvent>
  {
    if arrivals == [] then []
    else
      var last := Forwarded(config, collections, hash, arrivals[|arrivals| - 1]);
      AllForwarded(config, collections, hash, arrivals[..|arrivals| - 1]) + Sent(last)
  }

  /** BlueprintEventHandler: one queue. */
  class SingleHandler {
    const collections: seq<string>
    const partition: PartitionConfig
    const hash: Hash
    var queue: seq<BlueprintEvent>
    var processed: nat
    var skipped: nat

    constructor (collections: seq<string>, partition: PartitionConfig, hash: Hash)
      ensures this.collections == collections && this.partition == partition && this.hash == hash
      ensures queue == [] && processed == 0 && skipped == 0
    {
      this.collections, this.partition, this.hash := collections, partition, hash;
      queue, processed, skipped := [], 0, 0;
    }

    method HandleEvent(a: Arrival)
      modifies this
      ensures queue == old(queue) + Sent(Forwarded(partition, collections, hash, a))
      ensures processed + skipped == old(processed + skipped) + 1
      ensures skipped == old(skipped) + (if ShouldProcess(partition, a.event, hash) then 0 else 1)
    {
      if !ShouldProcess(partition, a.event, hash) {
        skipped := skipped + 1;
        return;
      }
      processed := processed + 1;
      if a.first.Some? {
        if a.second == Some(true) {
          return;
        }
      }
      var translated := Translate(a.event, collections);
      if translated.Some? {
        queue := queue + [translated.value];
      }
    }

    method HandleAll(arrivals: seq<Arrival>)
      modifies this
      ensures queue == old(queue) + AllForwarded(partition, collections, hash, arrivals)
    {
      for i := 0 to |arrivals|
        invariant queue == old(queue) + AllForwarded(partition, collections, hash, arrivals[..i])
      {
        HandleEvent(arrivals[i]);
        assert arrivals[..i + 1][..i] == arrivals[..i];
      }
      assert arrivals[..|arrivals|] == arrivals;
    }
  }

  // ---------------------------------------------------------------- several consumers

  // The consumers' queues and the shared counter, which wraps at 64 bits.
  datatype Pool = Pool(queues: seq<seq<BlueprintEvent>>, next: nat)

  function Distribute(p: Pool, e: BlueprintEvent): Pool {
    if |p.queues| == 0 then p
    else
      var i := p.next % |p.queues|;
      Pool(p.queues[i := p.queues[i] + [e]], (p.next + 1) % Arith.U64)
  }

  function DistributeAll(p: Pool, es: seq<BlueprintEvent>): Pool {
    if es == [] then p else Distribute(DistributeAll(p, es[..|es| - 1]), es[|es| - 1])
  }

  lemma OneMoreForwarded(p: Pool, before: seq<BlueprintEvent>, e: Option<BlueprintEvent>)
    ensures DistributeAll(p, before + Sent(e))
         == if e.Some? then Distribute(DistributeAll(p, before), e.value) else DistributeAll(p, before)
  {
    if e.Some? {
      assert (before + [e.value])[..|before|] == before;
    } else {
      assert before + [] == before;
    }
  }

  /** MultiConsumerBlueprintEventHandler: one queue per consumer, filled in turn. */
  class MultiHandler {
    const collections: seq<string>
    const partition: PartitionConfig
    const hash: Hash
    var queues: seq<seq<BlueprintEvent>>
    var next: nat
    var processed: nat
    var skipped: nat

    constructor (consumers: nat, collections: seq<string>, partition: PartitionConfig, hash: Hash)
      ensures this.collections == collections && this.partition == partition && this.hash == hash
      ensures State() == Fresh(consumers) && processed == 0 && skipped == 0
    {
      this.collections, this.partition, this.hash := collections, partition, hash;
      queues, next := seq(consumers, _ => []), 0;
      processed, skipped := 0, 0;
    }

    function State(): Pool
      reads this
    {
      Pool(queues, next)
    }

    method NextConsumerIndex() returns (index: nat)
      modifies this`next
      ensures if |queues| == 0 then index == 0 && next == old(next)
              else index == old(next) % |queues| && next == (old(next) + 1) % Arith.U64
    {
      if |queues| == 0 {
        return 0;
      }
      index := next % |queues|;
      next := (next + 1) % Arith.U64;
    }

    method HandleEvent(a: Arrival)
      modifies this
      ensures var e := Forwarded(partition, collections, hash, a);
              State() == if e.Some? then Distribute(old(State()), e.value) else old(State())
      ensures processed + skipped == old(processed + skipped) + 1
      ensures skipped == old(skipped) + (if ShouldProcess(partition, a.event, hash) then 0 else 1)
    {
      if !ShouldProcess(partition, a.event, hash) {
        skipped := skipped + 1;
        return;
      }
      processed := processed + 1;
      if a.first.Some? {
        if a.second == Some(true) {
          return;
        }
      }
      var translated := Translate(a.event, collections);
      if translated.None? {
        return;
      }
      var index := NextConsumerIndex();
      if index < |queues| {
        queues := queues[index := queues[index] + [translated.value]];
      }
    }

    // The receiver's end of queue c.
    method Receive(c: nat) returns (e: BlueprintEvent)
      requires c < |queues| && queues[c] != []
      modifies this`queues
      ensures e == old(queues[c])[0] && queues == old(queues)[c := old(queues[c])[1..]]
    {
      e := queues[c][0];
      queues := queues[c := queues[c][1..]];
    }

    method HandleAll(arrivals: seq<Arrival>)
      modifies this
      ensures State() == DistributeAll(old(State()), AllForwarded(partition, collections, hash, arrivals))
    {
      for i := 0 to |arrivals|
        invariant State() == DistributeAll(old(State()), AllForwarded(partition, collections, hash, arrivals[..i]))
      {
        HandleEvent(arrivals[i]);
        assert arrivals[..i + 1][..i] == arrivals[..i];
        OneMoreForwarded(old(State()), AllForwarded(partition, collections, hash, arrivals[..i]),
                         Forwarded(partition, collections, hash, arrivals[i]));
      }
      assert arrivals[..|arrivals|] == arrivals;
    }
  }

  function Fresh(consumers: nat): Pool {
    Pool(seq(consumers, _ => []), 0)
  }

  // The events of es at positions congruent to i modulo n, in order.
  function Share(es: seq<BlueprintEvent>, i: nat, n: nat): seq<BlueprintEvent>
    requires n > 0
  {
    if es == [] then []
    else
      var last := |es| - 1;
      Share(es[..last], i, n) + (if last % n == i then [es[last]] else [])
  }

  // The counter's wrap does not disturb the turn order exactly when the number of consumers divides 2^64.
  lemma WrapIsSeamlessIff(n: nat)
    requires n > 0
    ensures (forall p: nat :: (p % Arith.U64) % n == p % n) <==> Arith.U64 % n == 0
  {
    if Arith.U64 % n == 0 {
      forall p: nat
        ensures (p % Arith.U64) % n == p % n
      {
        Arith.ModOfMod(p, Arith.U64, n);
      }
    } else {
      var p: nat := Arith.U64;
      assert (p % Arith.U64) % n == 0 && p % n != 0;
    }
  }

  lemma CounterSelects(p: nat, n: nat)
    requires n > 0 && (p < Arith.U64 || Arith.U64 % n == 0)
    ensures (p % Arith.U64) % n == p % n
    ensures (p % Arith.U64 + 1) % Arith.U64 == (p + 1) % Arith.U64
  {
    WrapIsSeamlessIff(n);
    Arith.Split(p, Arith.U64);
    Arith.AddMultiple(p % Arith.U64 + 1, p / Arith.U64, Arith.U64);
  }

  // Consumer i receives exactly its share, as long as the counter has not wrapped or wraps seamlessly.
  lemma {:induction false} EachConsumerGetsItsShare(n: nat, es: seq<BlueprintEvent>, i: nat)
    requires i < n && (|es| <= Arith.U64 || Arith.U64 % n == 0)
    ensures |DistributeAll(Fresh(n), es).queues| == n
    ensures DistributeAll(Fresh(n), es).next == |es| % Arith.U64
    ensures DistributeAll(Fresh(n), es).queues[i] == Share(es, i, n)
  {
    if es != [] {
      var last: nat := |es| - 1;
      EachConsumerGetsItsShare(n, es[..last], i);
      CounterSelects(last, n);
      OneMoreEvent(DistributeAll(Fresh(n), es[..last]), es, i, n);
    }
  }

  lemma OneMoreEvent(p: Pool, es: seq<BlueprintEvent>, i: nat, n: nat)
    requires i < n == |p.queues| && es != [] && p.queues[i] == Share(es[..|es| - 1], i, n)
    requires p.next % n == (|es| - 1) % n
    ensures Distribute(p, es[|es| - 1]).queues[i] == Share(es, i, n)
  {
  }

  lemma OnlyMultiple(last: nat, i: nat, k: nat, n: nat)
    requires i < n && last <= i + k * n && (k > 0 ==> i + (k - 1) * n < last)
    ensures last % n == i <==> last == i + k * n
  {
    if last == i + k * n {
      Arith.Unique(last, k, i, n);
    } else if last % n == i {
      var q := last / n;
      Arith.Split(last, n);
      if q >= k { Arith.Monotone(k, q, n); } else { Arith.Monotone(q, k - 1, n); }
    }
  }

  predicate Placed(es: seq<BlueprintEvent>, share: seq<BlueprintEvent>, i: nat, n: nat, j: nat) {
    j < |share| ==> i + j * n < |es| && share[j] == es[i + j * n]
  }

  // Share i holds position i + j * n at place j, and it is complete.
  lemma {:induction false} ShareByPosition(es: seq<BlueprintEvent>, i: nat, n: nat)
    requires i < n
    ensures forall j: nat :: Placed(es, Share(es, i, n), i, n, j)
    ensures var k := |Share(es, i, n)|; |es| <= i + k * n && (k > 0 ==> i + (k - 1) * n < |es|)
  {
    if es != [] {
      var last: nat := |es| - 1;
      var before := Share(es[..last], i, n);
      ShareByPosition(es[..last], i, n);
      OnlyMultiple(last, i, |before|, n);
      assert (|before| + 1) * n == |before| * n + n by { Arith.Distribute(|before|, 1, n); }
      forall j: nat
        ensures Placed(es, Share(es, i, n), i, n, j)
      {
        assert Placed(es[..last], before, i, n, j);
        if j == |before| && last % n == i {
          assert i + j * n == last;
        }
      }
    }
  }

  // Any two consumers have received the same number of events up to one.
  lemma LoadsAreBalanced(n: nat, es: seq<BlueprintEvent>, i: nat, j: nat)
    requires i < n && j < n && (|es| <= Arith.U64 || Arith.U64 % n == 0)
    ensures |DistributeAll(Fresh(n), es).queues| == n
    ensures |DistributeAll(Fresh(n), es).queues[i]| <= |DistributeAll(Fresh(n), es).queues[j]| + 1
  {
    EachConsumerGetsItsShare(n, es, i);
    EachConsumerGetsItsShare(n, es, j);
    ShareByPosition(es, i, n);
    ShareByPosition(es, j, n);
    var ki, kj := |Share(es, i, n)|, |Share(es, j, n)|;
    if ki >= kj + 2 {
      Arith.Monotone(kj + 1, ki - 1, n);
      Arith.Distribute(kj, 1, n);
    }
  }
}
