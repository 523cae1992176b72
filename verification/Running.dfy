// The instances as they run: handler, queues, workers and processor (src/bin/ifthisthenat.rs, src/consumer.rs
// and src/processor.rs together).

module Running {
  import opened Options
  import opened Consumer
  import opened Processor
  import opened Dispatch
  import opened EndToEnd

  ghost predicate Loaded(processor: BlueprintProcessor, f: Fleet, i: nat)
    requires Sound(f)
    reads processor
  {
    && processor.configHash == f.configHash && processor.cache == CacheOf(f, i)
    && processor.groups == GroupsOf(processor.cache, f.configHash)
    && Indexes(processor.groups, processor.cache, f.configHash)
    && processor.partition == Some(PartitionOf(f, i)) && processor.maxCacheSize == f.maxCacheSize
    && processor.hash == f.hash
  }

  method StartProcessor(f: Fleet, i: nat) returns (processor: BlueprintProcessor)
    requires Sound(f)
    ensures fresh(processor) && Loaded(processor, f, i) && processor.outbox == []
  {
    processor := new BlueprintProcessor(Some(PartitionOf(f, i)), f.maxCacheSize, f.hash, f.configHash);
    var loaded := processor.LoadBlueprintsCache(Some(f.stored));
    GroupsOfIndexes(processor.cache, f.configHash);
    IndexIsUnique(processor.groups, GroupsOf(processor.cache, f.configHash), processor.cache, f.configHash);
  }

  // A reload finds the same blueprints, or fails; either way the processor goes on as before.
  method Reload(processor: BlueprintProcessor, f: Fleet, i: nat, available: bool)
    requires Sound(f) && Loaded(processor, f, i)
    modifies processor`cache, processor`groups
    ensures Loaded(processor, f, i)
  {
    var reloaded := processor.LoadBlueprintsCache(if available then Some(f.stored) else None);
    IndexIsUnique(processor.groups, GroupsOf(processor.cache, f.configHash), processor.cache, f.configHash);
  }

  // What a worker does with one event it has received.
  method Process(processor: BlueprintProcessor, f: Fleet, i: nat, e: BlueprintEvent)
    requires Sound(f) && Loaded(processor, f, i)
    modifies processor`outbox
    ensures Loaded(processor, f, i)
    ensures multiset(processor.outbox) == multiset(old(processor.outbox)) + OnEvent(f, i, Some(e))
  {
    if e.CommitEvent? {
      ghost var before := processor.outbox;
      processor.HandleCommit(e, f.throttle, f.logic);
      assert processor.outbox == before + processor.outbox[|before|..];
    }
  }

  lemma AllTraceable(f: Fleet, i: nat, arrivals: seq<Arrival>, submitted: seq<Work>)
    requires Sound(f) && multiset(submitted) == InstanceWork(f, i, arrivals)
    ensures forall w :: w in submitted ==> Traceable(f, i, arrivals, w)
  {
    forall w | w in submitted
      ensures Traceable(f, i, arrivals, w)
    {
      assert w in multiset(submitted);
      InstanceWorkIsTraceable(f, i, arrivals, w);
    }
  }

  // ---------------------------------------------------------------- one worker

  ghost predicate Routes(handler: SingleHandler, f: Fleet, i: nat) {
    handler.collections == f.collections && handler.partition == PartitionOf(f, i) && handler.hash == f.hash
  }

  // Forward one event and process what was forwarded.
  method Take(handler: SingleHandler, processor: BlueprintProcessor, f: Fleet, i: nat, a: Arrival)
    requires Sound(f) && Loaded(processor, f, i) && Routes(handler, f, i)
    modifies handler, processor`outbox
    ensures Loaded(processor, f, i)
    ensures multiset(processor.outbox) == multiset(old(processor.outbox)) + OnArrival(f, i, a)
  {
    var seen := |handler.queue|;
    handler.HandleEvent(a);
    if seen < |handler.queue| {
      Process(processor, f, i, handler.queue[seen]);
    }
  }

  // Instance i with a single queue: load the cache, take the stream, process every forwarded event.
  method RunInstance(f: Fleet, i: nat, arrivals: seq<Arrival>) returns (submitted: seq<Work>)
    requires Sound(f)
    ensures multiset(submitted) == InstanceWork(f, i, arrivals)
    ensures forall w :: w in submitted ==> Traceable(f, i, arrivals, w)
  {
    var handler := new SingleHandler(f.collections, PartitionOf(f, i), f.hash);
    var processor := StartProcessor(f, i);
    for k := 0 to |arrivals|
      invariant fresh(handler) && fresh(processor) && Loaded(processor, f, i)
      invariant multiset(processor.outbox) == InstanceWork(f, i, arrivals[..k])
    {
      assert arrivals[..k + 1][..k] == arrivals[..k];
      Take(handler, processor, f, i, arrivals[k]);
    }
    assert arrivals[..|arrivals|] == arrivals;
    submitted := processor.outbox;
    AllTraceable(f, i, arrivals, submitted);
  }

  // ---------------------------------------------------------------- several workers

  // What the events waiting in a queue, or in all queues, will come to.
  function Waiting(f: Fleet, i: nat, queue: seq<BlueprintEvent>): multiset<Work>
    requires Sound(f)
  {
    if queue == [] then multiset{} else OnEvent(f, i, Some(queue[0])) + Waiting(f, i, queue[1..])
  }

  function Total(parts: seq<multiset<Work>>): multiset<Work> {
    if parts == [] then multiset{} else parts[0] + Total(parts[1..])
  }

  function Parts(f: Fleet, i: nat, queues: seq<seq<BlueprintEvent>>): seq<multiset<Work>>
    requires Sound(f)
  {
    seq(|queues|, c requires 0 <= c < |queues| => Waiting(f, i, queues[c]))
  }

  function AllWaiting(f: Fleet, i: nat, queues: seq<seq<BlueprintEvent>>): multiset<Work>
    requires Sound(f)
  {
    Total(Parts(f, i, queues))
  }

  lemma {:induction false} OneMoreWaits(f: Fleet, i: nat, queue: seq<BlueprintEvent>, e: BlueprintEvent)
    requires Sound(f)
    ensures Waiting(f, i, queue + [e]) == Waiting(f, i, queue) + OnEvent(f, i, Some(e))
  {
    if queue == [] {
      assert [e][1..] == [];
      assert Waiting(f, i, []) == multiset{};
    } else {
      OneMoreWaits(f, i, queue[1..], e);
      assert (queue + [e])[1..] == queue[1..] + [e];
    }
  }

  // Changing one part by some work changes the total by the same.
  lemma {:induction false} OnePartChanges(parts: seq<multiset<Work>>, c: nat, more: multiset<Work>)
    requires c < |parts|
    ensures Total(parts[c := parts[c] + more]) == Total(parts) + more
  {
    var changed := parts[c := parts[c] + more];
    if c == 0 {
      assert changed[1..] == parts[1..];
    } else {
      OnePartChanges(parts[1..], c - 1, more);
      assert changed[1..] == parts[1..][c - 1 := parts[1..][c - 1] + more];
    }
  }

  lemma OneQueueChanges(f: Fleet, i: nat, queues: seq<seq<BlueprintEvent>>, c: nat, queue: seq<BlueprintEvent>,
                        more: multiset<Work>)
    requires Sound(f) && c < |queues| && Waiting(f, i, queue) == Waiting(f, i, queues[c]) + more
    ensures AllWaiting(f, i, queues[c := queue]) == AllWaiting(f, i, queues) + more
  {
    var parts := Parts(f, i, queues);
    assert Parts(f, i, queues[c := queue]) == parts[c := parts[c] + more];
    OnePartChanges(parts, c, more);
  }

  lemma {:induction false} TotalOfNothing(parts: seq<multiset<Work>>)
    requires forall c :: 0 <= c < |parts| ==> parts[c] == multiset{}
    ensures Total(parts) == multiset{}
  {
    if parts != [] {
      TotalOfNothing(parts[1..]);
    }
  }

  lemma NothingWaits(f: Fleet, i: nat, queues: seq<seq<BlueprintEvent>>)
    requires Sound(f) && forall c :: 0 <= c < |queues| ==> queues[c] == []
    ensures AllWaiting(f, i, queues) == multiset{}
  {
    TotalOfNothing(Parts(f, i, queues));
  }

  ghost predicate RoutesAll(handler: MultiHandler, f: Fleet, i: nat) {
    handler.collections == f.collections && handler.partition == PartitionOf(f, i) && handler.hash == f.hash
  }

  // An arriving event waits in one of the queues, if it is forwarded.
  method Arrive(handler: MultiHandler, f: Fleet, i: nat, a: Arrival)
    requires Sound(f) && RoutesAll(handler, f, i) && |handler.queues| > 0
    modifies handler
    ensures |handler.queues| == |old(handler.queues)|
    ensures AllWaiting(f, i, handler.queues) == AllWaiting(f, i, old(handler.queues)) + OnArrival(f, i, a)
  {
    ghost var queues, c := handler.queues, handler.next % |handler.queues|;
    ghost var e := Forwarded(PartitionOf(f, i), f.collections, f.hash, a);
    handler.HandleEvent(a);
    if e.Some? {
      OneMoreWaits(f, i, queues[c], e.value);
      OneQueueChanges(f, i, queues, c, queues[c] + [e.value], OnEvent(f, i, e));
    }
  }

  // Worker c receives its next event and processes it.
  method Work1(handler: MultiHandler, processor: BlueprintProcessor, f: Fleet, i: nat, c: nat)
    requires Sound(f) && Loaded(processor, f, i) && c < |handler.queues| && handler.queues[c] != []
    modifies handler`queues, processor`outbox
    ensures |handler.queues| == |old(handler.queues)| && Loaded(processor, f, i)
    ensures handler.queues == old(handler.queues)[c := old(handler.queues[c])[1..]]
    ensures multiset(processor.outbox) + AllWaiting(f, i, handler.queues)
         == multiset(old(processor.outbox)) + AllWaiting(f, i, old(handler.queues))
  {
    ghost var queues := handler.queues;
    var e := handler.Receive(c);
    Process(processor, f, i, e);
    assert handler.queues[c := queues[c]] == queues;
    OneQueueChanges(f, i, handler.queues, c, queues[c], OnEvent(f, i, Some(e)));
  }

  function Length(queues: seq<seq<BlueprintEvent>>): nat {
    if queues == [] then 0 else |queues[0]| + Length(queues[1..])
  }

  lemma {:induction false} OneShorter(queues: seq<seq<BlueprintEvent>>, c: nat)
    requires c < |queues| && queues[c] != []
    ensures Length(queues[c := queues[c][1..]]) == Length(queues) - 1
  {
    if c == 0 {
      assert queues[0 := queues[0][1..]][1..] == queues[1..];
    } else {
      OneShorter(queues[1..], c - 1);
      assert queues[c := queues[c][1..]][1..] == queues[1..][c - 1 := queues[1..][c - 1][1..]];
    }
  }

  // After k arrivals, what is done and what waits make up the instance's work.
  ghost predicate OnTrack(handler: MultiHandler, processor: BlueprintProcessor, f: Fleet, i: nat,
                          arrivals: seq<Arrival>, k: nat)
    requires Sound(f)
    reads handler, processor
  {
    && Loaded(processor, f, i) && RoutesAll(handler, f, i) && |handler.queues| > 0 && k <= |arrivals|
    && multiset(processor.outbox) + AllWaiting(f, i, handler.queues) == InstanceWork(f, i, arrivals[..k])
  }

  method NextArrival(handler: MultiHandler, processor: BlueprintProcessor, f: Fleet, i: nat,
                     arrivals: seq<Arrival>, k: nat)
    requires Sound(f) && k < |arrivals| && OnTrack(handler, processor, f, i, arrivals, k)
    modifies handler
    ensures OnTrack(handler, processor, f, i, arrivals, k + 1)
  {
    Arrive(handler, f, i, arrivals[k]);
    assert arrivals[..k + 1][..k] == arrivals[..k];
  }

  predicate SomeWaits(queues: seq<seq<BlueprintEvent>>) {
    exists c :: 0 <= c < |queues| && queues[c] != []
  }

  // Some worker with a waiting event takes its turn.
  method NextWork(handler: MultiHandler, processor: BlueprintProcessor, f: Fleet, i: nat,
                  ghost arrivals: seq<Arrival>, ghost k: nat)
    requires Sound(f) && OnTrack(handler, processor, f, i, arrivals, k) && SomeWaits(handler.queues)
    modifies handler`queues, processor`outbox
    ensures OnTrack(handler, processor, f, i, arrivals, k)
    ensures Length(handler.queues) == Length(old(handler.queues)) - 1
  {
    var c :| 0 <= c < |handler.queues| && handler.queues[c] != [];
    OneShorter(handler.queues, c);
    Work1(handler, processor, f, i, c);
  }

  lemma AllDone(handler: MultiHandler, processor: BlueprintProcessor, f: Fleet, i: nat, arrivals: seq<Arrival>)
    requires Sound(f) && OnTrack(handler, processor, f, i, arrivals, |arrivals|) && !SomeWaits(handler.queues)
    ensures multiset(processor.outbox) == InstanceWork(f, i, arrivals)
  {
    NothingWaits(f, i, handler.queues);
    assert arrivals[..|arrivals|] == arrivals;
  }

  // Instance i with a queue for each worker. Arrivals, workers and reloads take turns in any order.
  method RunWorkers(f: Fleet, i: nat, workers: nat, reloads: nat, arrivals: seq<Arrival>)
    returns (submitted: seq<Work>)
    requires Sound(f) && workers > 0
    ensures multiset(submitted) == InstanceWork(f, i, arrivals)
    ensures forall w :: w in submitted ==> Traceable(f, i, arrivals, w)
  {
    var handler := new MultiHandler(workers, f.collections, PartitionOf(f, i), f.hash);
    var processor := StartProcessor(f, i);
    var k, left := 0, reloads;
    NothingWaits(f, i, handler.queues);
    while k < |arrivals| || left > 0 || SomeWaits(handler.queues)
      invariant fresh(handler) && fresh(processor) && OnTrack(handler, processor, f, i, arrivals, k)
      decreases |arrivals| - k, left, Length(handler.queues)
    {
      if
      case k < |arrivals| =>
        NextArrival(handler, processor, f, i, arrivals, k);
        k := k + 1;
      case left > 0 =>
        var available: bool := *;
        Reload(processor, f, i, available);
        left := left - 1;
      case SomeWaits(handler.queues) =>
        NextWork(handler, processor, f, i, arrivals, k);
    }
    AllDone(handler, processor, f, i, arrivals);
    submitted := processor.outbox;
    AllTraceable(f, i, arrivals, submitted);
  }

  // ---------------------------------------------------------------- all instances

  method RunFleet(f: Fleet, workers: nat, reloads: nat, arrivals: seq<Arrival>) returns (submitted: seq<Work>)
    requires Sound(f) && Faithful(f)
    ensures multiset(submitted) == ReferenceWork(f, arrivals)
    ensures forall w :: multiset(submitted)[w] == Meant(f, arrivals, w)
  {
    submitted := [];
    for i := 0 to f.size
      invariant multiset(submitted) == FleetWork(f, i, arrivals)
    {
      var more: seq<Work>;
      if workers > 1 {
        more := RunWorkers(f, i, workers, reloads, arrivals);
      } else {
        more := RunInstance(f, i, arrivals);
      }
      submitted := submitted + more;
    }
    FleetRefinesReference(f, arrivals);
    forall w
      ensures multiset(submitted)[w] == Meant(f, arrivals, w)
    {
      ReferenceWorkCounts(f, arrivals, w);
    }
  }
}
