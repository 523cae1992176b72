// What the fleet is for, in terms of what arrives, what is stored and what is queued, and of nothing in between.

module EndToEnd {
  import opened Options
  import opened Json
  import opened Consumer
  import opened JetstreamEntry
  import opened Processor
  import opened Dispatch

  // The payload says of the commit that arrived what it was.
  predicate Carries(payload: Json, e: StreamEvent) {
    && e.Commit? && HasFields(payload, e.did, e.collection, e.rkey, e.cid, e.operation, e.record)
    && SameWord(payload.fields["time_us"].n, e.timeUs)
  }

  lemma CarriesIff(payload: Json, arrived: StreamEvent, e: BlueprintEvent)
    requires Conveys(arrived, e) && arrived.Commit?
    ensures Carries(payload, arrived) <==> payload == CommitData(e)
  {
    DescribesIff(payload, e);
    AsI64IsSameWord(arrived.timeUs, e.timeUs);
    if Carries(payload, arrived) {
      AsI64IsSameWord(arrived.timeUs, payload.fields["time_us"].n);
    }
  }

  // The entry node's filters name the commit's author and collection, and its payload is true or an expression
  // that is true of the work item's payload.
  predicate Triggers(node: Node, e: StreamEvent, payload: Json, logic: Logic)
    requires e.Commit?
  {
    && Names(Get(node.configuration, "did"), Some(e.did))
    && Names(Get(node.configuration, "collection"), Some(e.collection))
    && (node.payload == Bool(true) || (node.payload.Obj? && logic(node.payload, payload) == Some(Bool(true))))
  }

  lemma TriggersIff(node: Node, arrived: StreamEvent, e: BlueprintEvent, logic: Logic)
    requires node.nodeType == JETSTREAM_ENTRY && arrived.Commit? && Conveys(arrived, e)
    ensures Passes(node, CommitData(e), logic) <==> Triggers(node, arrived, CommitData(e), logic)
  {
    CommitNames(node.configuration, e);
    if MatchesFilters(node.configuration, CommitData(e)) == Ok(true) {
      PassesIfOpen(node, CommitData(e), logic);
    }
  }

  // The arrival and the stored blueprint are meant to come to this work item.
  predicate Produces(f: Fleet, a: Arrival, s: Stored, w: Work) {
    && a.event.Commit? && !Stopped(a) && IsCollected(a.event, f.collections)
    && Eligible(s) && w.blueprint == s.blueprint.aturi && f.throttle(w.blueprint) == Some(false)
    && Carries(w.payload, a.event) && Triggers(s.nodes.value[0], a.event, w.payload, f.logic)
  }

  // The stored blueprints that pass on this event and are not throttled.
  function Passing(all: seq<Stored>, at: Setting, w: Work): set<nat> {
    set j | 0 <= j < |all| && PassesOn(all[j], at, w)
  }

  predicate PassesOn(s: Stored, at: Setting, w: Work) {
    && Eligible(s) && w == Work(s.blueprint.aturi, at.data) && at.throttle(w.blueprint) == Some(false)
    && Passes(s.nodes.value[0], at.data, at.logic)
  }

  lemma PassingGrows(all: seq<Stored>, at: Setting, w: Work)
    requires all != []
    ensures var last := |all| - 1;
      |Passing(all, at, w)| == |Passing(all[..last], at, w)| + (if PassesOn(all[last], at, w) then 1 else 0)
  {
    var last: nat := |all| - 1;
    var before, now := Passing(all[..last], at, w), Passing(all, at, w);
    forall j: nat
      ensures j in now <==> j in before || (j == last && PassesOn(all[last], at, w))
    {
      if j < last {
        assert all[..last][j] == all[j];
      }
    }
    assert last !in before;
    assert now == if PassesOn(all[last], at, w) then before + {last} else before;
  }

  lemma OneCandidateCounts(s: Stored, hash: Hash, at: Setting, w: Work)
    requires Readable(s)
    ensures ByItself(AsCandidate(s, None, hash), at)[w] == if PassesOn(s, at, w) then 1 else 0
  {
    EligibleIff(s, None, hash);
    if Eligible(s) {
      ByItselfOneMore([], [Cached(s.blueprint, s.nodes.value[0])], at);
      assert ByItself([], at) == multiset{};
    }
  }

  lemma {:induction false} ByItselfCounts(all: seq<Stored>, hash: Hash, at: Setting, w: Work)
    requires AllReadable(all)
    ensures ByItself(Cacheable(all, None, hash), at)[w] == |Passing(all, at, w)|
  {
    if all != [] {
      var before, last := all[..|all| - 1], all[|all| - 1];
      ByItselfCounts(before, hash, at, w);
      OneCandidateCounts(last, hash, at, w);
      ByItselfOneMore(Cacheable(before, None, hash), AsCandidate(last, None, hash), at);
      PassingGrows(all, at, w);
    }
  }

  predicate IsCandidate(s: Stored, c: Cached) {
    Eligible(s) && c == Cached(s.blueprint, s.nodes.value[0])
  }

  // The candidates are the eligible stored blueprints.
  lemma CandidateIff(f: Fleet, c: Cached)
    requires Sound(f)
    ensures c in Candidates(f) <==>
      exists j :: 0 <= j < |f.stored| && IsCandidate(f.stored[j], c)
  {
    var picked := CacheableByPosition(f.stored, None, f.hash);
    if c in Candidates(f) {
      var k :| 0 <= k < |picked| && Candidates(f)[k] == c;
      assert picked[k] in picked;
    }
    if j :| 0 <= j < |f.stored| && IsCandidate(f.stored[j], c) {
      assert j in picked;
    }
  }

  lemma ForwardedByReference(f: Fleet, a: Arrival, e: BlueprintEvent)
    ensures !Blocked(a) && Translate(a.event, f.collections) == Some(e) <==>
      !Stopped(a) && IsCollected(a.event, f.collections) && Conveys(a.event, e)
  {
    ForwardedIff(PartitionConfig(0, 1, f.strategy), f.collections, f.hash, a, e);
  }

  function Producers(f: Fleet, a: Arrival, w: Work): set<nat> {
    set j | 0 <= j < |f.stored| && Produces(f, a, f.stored[j], w)
  }

  lemma ProducesIff(f: Fleet, a: Arrival, e: BlueprintEvent, s: Stored, w: Work)
    requires e.CommitEvent? && !Stopped(a) && IsCollected(a.event, f.collections) && Conveys(a.event, e)
    ensures Produces(f, a, s, w) <==> PassesOn(s, SettingOf(f, e), w)
  {
    CarriesIff(w.payload, a.event, e);
    if Eligible(s) {
      TriggersIff(s.nodes.value[0], a.event, e, f.logic);
    }
  }

  lemma ReferenceOnCounts(f: Fleet, a: Arrival, w: Work)
    requires Sound(f)
    ensures ReferenceOn(f, a)[w] == |Producers(f, a, w)|
  {
    if !Blocked(a) && Translate(a.event, f.collections).Some? && a.event.Commit? {
      var e := Translate(a.event, f.collections).value;
      ForwardedByReference(f, a, e);
      ByItselfCounts(f.stored, f.hash, SettingOf(f, e), w);
      forall s
        ensures Produces(f, a, s, w) <==> PassesOn(s, SettingOf(f, e), w)
      {
        ProducesIff(f, a, e, s, w);
      }
      assert Producers(f, a, w) == Passing(f.stored, SettingOf(f, e), w);
    } else {
      assert Producers(f, a, w) == {};
    }
  }

  // How many pairs of an arrival and a stored blueprint produce the item.
  function Meant(f: Fleet, arrivals: seq<Arrival>, w: Work): nat {
    if arrivals == [] then 0
    else Meant(f, arrivals[..|arrivals| - 1], w) + |Producers(f, arrivals[|arrivals| - 1], w)|
  }

  // The reference's work is what is meant: each item is there as often as an arrived commit and a stored
  // blueprint produce it.
  lemma {:induction false} ReferenceWorkCounts(f: Fleet, arrivals: seq<Arrival>, w: Work)
    requires Sound(f)
    ensures ReferenceWork(f, arrivals)[w] == Meant(f, arrivals, w)
  {
    if arrivals != [] {
      var last := |arrivals| - 1;
      ReferenceWorkCounts(f, arrivals[..last], w);
      ReferenceOnCounts(f, arrivals[last], w);
    }
  }

  // What one instance submits, whatever its groups, comes from a commit routed to it and a stored blueprint.
  predicate ComesFrom(f: Fleet, i: nat, a: Arrival, s: Stored, w: Work) {
    && a.event.Commit? && ShouldProcess(PartitionOf(f, i), a.event, f.hash) && !Stopped(a)
    && IsCollected(a.event, f.collections) && Carries(w.payload, a.event)
    && Eligible(s) && w.blueprint == s.blueprint.aturi && f.throttle(w.blueprint) == Some(false)
  }

  lemma ArrivalComesFrom(f: Fleet, i: nat, a: Arrival, w: Work) returns (j: nat)
    requires Sound(f) && w in OnArrival(f, i, a)
    ensures j < |f.stored| && ComesFrom(f, i, a, f.stored[j], w)
  {
    var e := Forwarded(PartitionOf(f, i), f.collections, f.hash, a).value;
    ForwardedIff(PartitionOf(f, i), f.collections, f.hash, a, e);
    var cache := CacheOf(f, i);
    var groups := GroupsOf(cache, f.configHash);
    ByGroupSubmits(cache, groups.Keys, groups, SettingOf(f, e), w);
    CarriesIff(w.payload, a.event, e);
    var c :| c in cache && c.blueprint.aturi == w.blueprint;
    CacheIsPartOf(f.stored, PartitionOf(f, i), f.hash);
    assert c in Cacheable(f.stored, Some(PartitionOf(f, i)), f.hash);
    CandidateIff(f, c);
    j :| 0 <= j < |f.stored| && IsCandidate(f.stored[j], c);
  }

  ghost predicate Traceable(f: Fleet, i: nat, arrivals: seq<Arrival>, w: Work) {
    exists k, j :: 0 <= k < |arrivals| && 0 <= j < |f.stored| && ComesFrom(f, i, arrivals[k], f.stored[j], w)
  }

  lemma {:induction false} InstanceWorkIsTraceable(f: Fleet, i: nat, arrivals: seq<Arrival>, w: Work)
    requires Sound(f) && w in InstanceWork(f, i, arrivals)
    ensures Traceable(f, i, arrivals, w)
  {
    var last := |arrivals| - 1;
    if w in InstanceWork(f, i, arrivals[..last]) {
      var before := arrivals[..last];
      InstanceWorkIsTraceable(f, i, before, w);
      var k, j :| 0 <= k < |before| && 0 <= j < |f.stored| && ComesFrom(f, i, before[k], f.stored[j], w);
      assert arrivals[k] == before[k];
    } else {
      var j := ArrivalComesFrom(f, i, arrivals[last], w);
    }
  }
}
