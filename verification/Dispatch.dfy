// Dispatch of the event stream by a fleet of instances (src/consumer.rs, src/processor.rs and
// src/engine/node_type_jetstream_entry.rs together).
//
// Each instance takes its share of the events, drops the blueprints it believes can never match, and
// evaluates one entry node per group of blueprints. Together they submit what one evaluator would that
// looks at every enabled valid blueprint on every event.

module Dispatch {
  import opened Options
  import opened Json
  import opened Consumer
  import opened JetstreamEntry
  import opened Processor

  // ---------------------------------------------------------------- pruning

  lemma FilterOnDid(config: Json, e: BlueprintEvent)
    requires e.CommitEvent? && MatchesFilters(config, CommitData(e)) == Ok(true)
    ensures Get(config, "did").Some? ==> OneOf(Some(e.did), Allowed(Get(config, "did").value).value)
    ensures Get(config, "collection").Some? ==>
      OneOf(Some(e.collection), Allowed(Get(config, "collection").value).value)
  {
    assert Get(CommitData(e), "did") == Some(Str(e.did));
    assert Get(Get(CommitData(e), "commit").value, "collection") == Some(Str(e.collection));
  }

  // An instance keeps every blueprint whose filters accept some event routed to it.
  lemma PruningIsSound(p: PartitionConfig, e: StreamEvent, collections: seq<string>, config: Json, hash: Hash)
    requires e.Commit? && ShouldProcess(p, e, hash) && Translate(e, collections).Some?
    requires MatchesFilters(config, CommitData(Translate(e, collections).value)) == Ok(true)
    ensures CouldMatch(Some(p), config, hash)
  {
    FilterOnDid(config, Translate(e, collections).value);
    if p.totalInstances > 1 {
      if p.strategy.DidBased? && Get(config, "did").Some? && Get(config, "did").value.Arr? {
        assert Str(e.did) in Get(config, "did").value.items;
      }
      if p.strategy.CollectionBased? && Get(config, "collection").Some? && Get(config, "collection").value.Arr? {
        assert Str(e.collection) in Get(config, "collection").value.items;
      }
    }
  }

  function Probe(did: string, collection: string): StreamEvent {
    Commit(did, collection, "", "", Null, "create", 0)
  }

  // This instance processes the events with key x.
  predicate Owns(p: PartitionConfig, x: string, hash: Hash) {
    p.totalInstances <= 1 || hash(x) % p.totalInstances == p.instanceId
  }

  predicate Collected(x: string, collections: seq<string>) {
    collections == [] || x in collections
  }

  predicate RoutedAndPasses(p: PartitionConfig, config: Json, collections: seq<string>, hash: Hash, e: StreamEvent) {
    && e.Commit? && ShouldProcess(p, e, hash) && Translate(e, collections).Some?
    && MatchesFilters(config, CommitData(Translate(e, collections).value)) == Ok(true)
  }

  ghost predicate SomeRoutedPasses(p: PartitionConfig, config: Json, collections: seq<string>, hash: Hash) {
    exists e :: RoutedAndPasses(p, config, collections, hash, e)
  }

  // The filters admit something, and the key that decides about the routing can be one of this instance's.
  ghost predicate Reachable(p: PartitionConfig, config: Json, collections: seq<string>, hash: Hash) {
    match p.strategy
    case DidBased =>
      Admits(Get(config, "collection"), collections)
      && exists x :: Names(Get(config, "did"), Some(x)) && Owns(p, x, hash)
    case CollectionBased =>
      Admits(Get(config, "did"), [])
      && exists x :: Names(Get(config, "collection"), Some(x)) && Collected(x, collections) && Owns(p, x, hash)
    case RoundRobin => LetsThrough(config, collections) && exists t: nat :: Owns(p, Decimal(t), hash)
    case CustomField(_) => LetsThrough(config, collections) && exists x :: Owns(p, x, hash)
  }

  lemma RoutedNames(p: PartitionConfig, config: Json, collections: seq<string>, hash: Hash, e: StreamEvent)
    requires e.Commit?
    ensures RoutedAndPasses(p, config, collections, hash, e) <==>
      && Owns(p, PartitionKey(p.strategy, e), hash) && Collected(e.collection, collections)
      && Names(Get(config, "did"), Some(e.did)) && Names(Get(config, "collection"), Some(e.collection))
  {
    if Translate(e, collections).Some? {
      CommitNames(config, Translate(e, collections).value);
    }
  }

  lemma RoutedIsReachable(p: PartitionConfig, config: Json, collections: seq<string>, hash: Hash, e: StreamEvent)
    requires RoutedAndPasses(p, config, collections, hash, e)
    ensures Reachable(p, config, collections, hash)
  {
    RoutedNames(p, config, collections, hash, e);
    NamedIsAdmitted(Get(config, "did"), [], e.did);
    NamedIsAdmitted(Get(config, "collection"), collections, e.collection);
    match p.strategy
    case DidBased => assert Owns(p, e.did, hash);
    case CollectionBased => assert Owns(p, e.collection, hash);
    case RoundRobin => assert Owns(p, Decimal(e.timeUs), hash);
    case CustomField(_) => assert Owns(p, PartitionKey(p.strategy, e), hash);
  }

  lemma ReachableIsRouted(p: PartitionConfig, config: Json, collections: seq<string>, hash: Hash)
    returns (e: StreamEvent)
    requires Reachable(p, config, collections, hash)
    ensures RoutedAndPasses(p, config, collections, hash, e)
  {
    match p.strategy {
      case DidBased =>
        var did :| Names(Get(config, "did"), Some(did)) && Owns(p, did, hash);
        var collection := AdmitsSome(Get(config, "collection"), collections);
        e := Probe(did, collection);
      case CollectionBased =>
        var did := AdmitsSome(Get(config, "did"), []);
        var collection :| Names(Get(config, "collection"), Some(collection)) && Collected(collection, collections)
          && Owns(p, collection, hash);
        e := Probe(did, collection);
      case RoundRobin =>
        var did := AdmitsSome(Get(config, "did"), []);
        var collection := AdmitsSome(Get(config, "collection"), collections);
        var t: nat :| Owns(p, Decimal(t), hash);
        e := Commit(did, collection, "", "", Null, "create", t);
      case CustomField(field) =>
        var did := AdmitsSome(Get(config, "did"), []);
        var collection := AdmitsSome(Get(config, "collection"), collections);
        var x :| Owns(p, x, hash);
        e := Commit(did, collection, "", "", Obj(map[field := Str(x)]), "create", 0);
        assert PartitionKey(p.strategy, e) == x;
    }
    RoutedNames(p, config, collections, hash, e);
  }

  // Kept exactly when some commit routed here passes the filters.
  ghost predicate IsExact(p: PartitionConfig, config: Json, collections: seq<string>, hash: Hash) {
    CouldMatch(Some(p), config, hash) <==> SomeRoutedPasses(p, config, collections, hash)
  }

  // For every strategy and every configuration: some commit routed here passes exactly when the configuration
  // is reachable, and pruning is exact exactly when no unreachable configuration is kept.
  lemma PruningIsExactIff(p: PartitionConfig, config: Json, collections: seq<string>, hash: Hash)
    ensures SomeRoutedPasses(p, config, collections, hash) <==> Reachable(p, config, collections, hash)
    ensures IsExact(p, config, collections, hash)
       <==> (CouldMatch(Some(p), config, hash) ==> Reachable(p, config, collections, hash))
  {
    if e :| RoutedAndPasses(p, config, collections, hash, e) {
      RoutedIsReachable(p, config, collections, hash, e);
      PruningIsSound(p, e, collections, config, hash);
    }
    if Reachable(p, config, collections, hash) {
      var e := ReachableIsRouted(p, config, collections, hash);
    }
  }

  // Some listed string hashes to this instance.
  predicate SomeOwned(items: seq<Json>, p: PartitionConfig, hash: Hash)
    requires p.totalInstances > 1
  {
    exists x :: x in Strings(items) && Owns(p, x, hash)
  }

  lemma TargetsIff(items: seq<Json>, p: PartitionConfig, hash: Hash)
    requires p.totalInstances > 1
    ensures SomeTargets(items, p, hash) <==> Str("*") in items || SomeOwned(items, p, hash)
  {
    if Str("*") in items {
      assert SomeTargets(items, p, hash);
    }
    if SomeOwned(items, p, hash) {
      var x :| x in Strings(items) && Owns(p, x, hash);
      assert Str(x) in items;
    }
    if SomeTargets(items, p, hash) && Str("*") !in items {
      var v :| v in items && v.Str? && (v.s == "*" || hash(v.s) % p.totalInstances == p.instanceId);
      assert v.s in Strings(items);
    }
  }

  lemma ListNames(items: seq<Json>)
    ensures forall x :: Names(Some(Arr(items)), Some(x)) <==> x in Strings(items)
  {
  }

  // When pruning by an author filter is exact, given that the collection filter admits something: for a list
  // without "*" or with an author of this instance, for such an author as a single string, and for no other.
  lemma PruningByDidIsExactIff(p: PartitionConfig, config: Json, collections: seq<string>, hash: Hash)
    requires p.totalInstances > 1 && p.strategy.DidBased? && Get(config, "did").Some?
    requires Admits(Get(config, "collection"), collections)
    ensures IsExact(p, config, collections, hash) <==>
      match Get(config, "did").value
      case Arr(items) => Str("*") in items ==> SomeOwned(items, p, hash)
      case Str(s) => Owns(p, s, hash)
      case _ => false
  {
    PruningIsExactIff(p, config, collections, hash);
    match Get(config, "did").value
    case Arr(items) =>
      TargetsIff(items, p, hash);
      ListNames(items);
    case Str(s) => assert Names(Get(config, "did"), Some(s));
    case _ =>
  }

  // The same for a collection filter, where the owned collection must be one that the fleet collects.
  lemma PruningByCollectionIsExactIff(p: PartitionConfig, config: Json, collections: seq<string>, hash: Hash)
    requires p.totalInstances > 1 && p.strategy.CollectionBased? && Get(config, "collection").Some?
    requires Admits(Get(config, "did"), [])
    ensures IsExact(p, config, collections, hash) <==>
      match Get(config, "collection").value
      case Arr(items) =>
        Str("*") in items || SomeOwned(items, p, hash) ==>
          exists x :: x in Strings(items) && Collected(x, collections) && Owns(p, x, hash)
      case Str(s) => Collected(s, collections) && Owns(p, s, hash)
      case _ => false
  {
    PruningIsExactIff(p, config, collections, hash);
    match Get(config, "collection").value
    case Arr(items) =>
      TargetsIff(items, p, hash);
      ListNames(items);
      if x :| x in Strings(items) && Collected(x, collections) && Owns(p, x, hash) {
        assert Names(Get(config, "collection"), Some(x));
        assert Reachable(p, config, collections, hash);
      }
    case Str(s) => assert Names(Get(config, "collection"), Some(s));
    case _ =>
  }

  // The array holds the same values but for "*".
  ghost predicate SameButStar(a: seq<Json>, b: seq<Json>) {
    forall v :: v != Str("*") ==> (v in a <==> v in b)
  }

  function WithAuthors(fields: map<string, Json>, items: seq<Json>): Json {
    Obj(fields["did" := Arr(items)])
  }

  // The "*" that makes pruning keep a blueprint is no wildcard to the filter: adding it to a list of authors,
  // or taking it out, changes the verdict on commits by an author called "*" only.
  lemma StarIsNoWildcard(fields: map<string, Json>, with: seq<Json>, without: seq<Json>, e: BlueprintEvent,
                         p: PartitionConfig, hash: Hash)
    requires Str("*") in with && Str("*") !in without && SameButStar(with, without) && e.CommitEvent?
    ensures p.strategy.DidBased? ==> CouldMatch(Some(p), WithAuthors(fields, with), hash)
    ensures var starred, plain := WithAuthors(fields, with), WithAuthors(fields, without);
      && (e.did != "*" ==> MatchesFilters(starred, CommitData(e)) == MatchesFilters(plain, CommitData(e)))
      && (e.did == "*" ==> MatchesFilters(plain, CommitData(e)) == Ok(false))
  {
    var starred, plain := WithAuthors(fields, with), WithAuthors(fields, without);
    assert Get(CommitData(e), "did") == Some(Str(e.did));
    assert Get(starred, "did") == Some(Arr(with)) && Get(plain, "did") == Some(Arr(without));
    if e.did != "*" {
      assert e.did in Strings(with) <==> e.did in Strings(without);
      ListedAlike(starred, plain, CommitData(e));
    }
  }

  // The filters judge alike when they differ in the author list only, and both lists have the author or not.
  lemma ListedAlike(a: Json, b: Json, input: Json)
    requires Get(a, "collection") == Get(b, "collection")
    requires Get(a, "did").Some? && Get(a, "did").value.Arr? && Get(b, "did").Some? && Get(b, "did").value.Arr?
    requires OneOf(AsStr(Get(input, "did")), Strings(Get(a, "did").value.items))
        <==> OneOf(AsStr(Get(input, "did")), Strings(Get(b, "did").value.items))
    ensures MatchesFilters(a, input) == MatchesFilters(b, input)
  {
  }

  // ---------------------------------------------------------------- grouping

  // Blueprints with one key have one configuration: no collisions.
  predicate SameConfigurations(cache: seq<Cached>, configHash: ConfigHash) {
    forall a, b :: a in cache && b in cache && KeyOf(a, configHash) == KeyOf(b, configHash) ==>
      a.entryNode.configuration == b.entryNode.configuration
  }

  // A hash that tells configurations apart never collides, and blueprints with one configuration always share a
  // group.
  lemma GroupsAreConfigurations(cache: seq<Cached>, configHash: ConfigHash)
    requires AllJetstream(cache)
    requires forall x, y :: configHash(JETSTREAM_ENTRY, x) == configHash(JETSTREAM_ENTRY, y) ==> x == y
    ensures SameConfigurations(cache, configHash)
    ensures forall a, b :: a in cache && b in cache ==>
      (KeyOf(a, configHash) == KeyOf(b, configHash) <==> a.entryNode.configuration == b.entryNode.configuration)
  {
  }

  // If they have one key, and a configuration that lets some event with one of the collections through, their
  // payloads are the same gate.
  predicate GatesAgree(a: Cached, b: Cached, configHash: ConfigHash, collections: seq<string>) {
    KeyOf(a, configHash) == KeyOf(b, configHash) && LetsThrough(a.entryNode.configuration, collections) ==>
      GateOf(a.entryNode.payload) == GateOf(b.entryNode.payload)
  }

  predicate UniformGates(cache: seq<Cached>, configHash: ConfigHash, collections: seq<string>) {
    forall a, b :: a in cache && b in cache ==> GatesAgree(a, b, configHash, collections)
  }

  predicate AllJetstream(cache: seq<Cached>) {
    forall c :: c in cache ==> c.entryNode.nodeType == JETSTREAM_ENTRY
  }

  // The group's entry node speaks for this member.
  predicate Represented(c: Cached, groups: map<nat, Group>, at: Setting) {
    var key := KeyOf(c, at.configHash);
    key in groups
    && (Passes(groups[key].entryNode, at.data, at.logic) <==> Passes(c.entryNode, at.data, at.logic))
  }

  lemma {:induction false} GroupingAgrees(cache: seq<Cached>, groups: map<nat, Group>, at: Setting)
    requires forall c :: c in cache ==> Represented(c, groups, at)
    ensures ByGroup(cache, groups.Keys, groups, at) == ByItself(cache, at)
  {
    if cache != [] {
      GroupingAgrees(cache[..|cache| - 1], groups, at);
      assert Represented(cache[|cache| - 1], groups, at);
    }
  }

  lemma SameGatePasses(a: Node, b: Node, data: Json, logic: Logic)
    requires a.nodeType == b.nodeType == JETSTREAM_ENTRY && a.configuration == b.configuration
    requires GateOf(a.payload) == GateOf(b.payload) && data.Obj?
    ensures Passes(a, data, logic) <==> Passes(b, data, logic)
  {
    if MatchesFilters(a.configuration, data) == Ok(true) {
      PassesIfOpen(a, data, logic);
      PassesIfOpen(b, data, logic);
    }
  }

  lemma FirstMember(cache: seq<Cached>, groups: map<nat, Group>, configHash: ConfigHash, key: nat)
    returns (first: Cached)
    requires Indexes(groups, cache, configHash) && key in groups
    ensures first in cache && KeyOf(first, configHash) == key && groups[key].entryNode == first.entryNode
  {
    KeysAreUsed(cache, key, configHash);
    first := groups[key].members[0];
    assert first in WithKey(cache, key, configHash);
  }

  // An event that passes the filters shows that the configuration lets some event through.
  lemma PassingShows(config: Json, collections: seq<string>, e: BlueprintEvent)
    requires e.CommitEvent? && (collections == [] || e.collection in collections)
    requires MatchesFilters(config, CommitData(e)) == Ok(true)
    ensures LetsThrough(config, collections)
  {
    CommitNames(config, e);
    NamedIsAdmitted(Get(config, "did"), [], e.did);
    NamedIsAdmitted(Get(config, "collection"), collections, e.collection);
  }

  lemma CommitNames(config: Json, e: BlueprintEvent)
    requires e.CommitEvent?
    ensures MatchesFilters(config, CommitData(e)) == Ok(true) <==>
      Names(Get(config, "did"), Some(e.did)) && Names(Get(config, "collection"), Some(e.collection))
  {
    FiltersDecide(config, CommitData(e));
    assert Get(CommitData(e), "did") == Some(Str(e.did));
    assert Get(Get(CommitData(e), "commit").value, "collection") == Some(Str(e.collection));
  }

  // And the other way round: a configuration that lets events through is passed by one.
  lemma SomePasses(config: Json, collections: seq<string>) returns (e: StreamEvent)
    requires LetsThrough(config, collections)
    ensures e.Commit? && Translate(e, collections).Some?
    ensures MatchesFilters(config, CommitData(Translate(e, collections).value)) == Ok(true)
  {
    var did := AdmitsSome(Get(config, "did"), []);
    var collection := AdmitsSome(Get(config, "collection"), collections);
    e := Probe(did, collection);
    CommitNames(config, Translate(e, collections).value);
  }

  lemma UniformIsRepresented(cache: seq<Cached>, groups: map<nat, Group>, at: Setting, collections: seq<string>,
                             e: BlueprintEvent, c: Cached)
    requires Indexes(groups, cache, at.configHash) && AllJetstream(cache) && SameConfigurations(cache, at.configHash)
    requires UniformGates(cache, at.configHash, collections)
    requires c in cache && e.CommitEvent? && at.data == CommitData(e)
    requires collections == [] || e.collection in collections
    ensures Represented(c, groups, at)
  {
    var first := FirstMember(cache, groups, at.configHash, KeyOf(c, at.configHash));
    if MatchesFilters(c.entryNode.configuration, at.data) == Ok(true) {
      PassingShows(c.entryNode.configuration, collections, e);
      assert GatesAgree(c, first, at.configHash, collections);
      SameGatePasses(first.entryNode, c.entryNode, at.data, at.logic);
    }
  }

  predicate DistinctBlueprints(cache: seq<Cached>) {
    forall a, b :: a in cache && b in cache && a.blueprint.aturi == b.blueprint.aturi ==> a == b
  }

  lemma {:induction false} SubmittedByItself(cache: seq<Cached>, at: Setting, x: string)
    requires forall c :: c in cache ==> at.throttle(c.blueprint.aturi) == Some(false)
    ensures Work(x, at.data) in ByItself(cache, at) <==>
      exists c :: c in cache && c.blueprint.aturi == x && Passes(c.entryNode, at.data, at.logic)
  {
    if cache != [] {
      var last := |cache| - 1;
      SubmittedByItself(cache[..last], at, x);
      assert cache == cache[..last] + [cache[last]];
    }
  }

  lemma {:induction false} SubmittedByGroup(cache: seq<Cached>, groups: map<nat, Group>, at: Setting, x: string)
    requires forall c :: c in cache ==> at.throttle(c.blueprint.aturi) == Some(false)
    ensures Work(x, at.data) in ByGroup(cache, groups.Keys, groups, at) <==>
      exists c :: c in cache && c.blueprint.aturi == x && GroupPasses(c, groups.Keys, groups, at)
  {
    if cache != [] {
      var last := |cache| - 1;
      SubmittedByGroup(cache[..last], groups, at, x);
      assert cache == cache[..last] + [cache[last]];
    }
  }

  lemma UniformIsFaithful(cache: seq<Cached>, groups: map<nat, Group>, at: Setting, collections: seq<string>,
                          e: BlueprintEvent)
    requires Indexes(groups, cache, at.configHash) && AllJetstream(cache) && SameConfigurations(cache, at.configHash)
    requires UniformGates(cache, at.configHash, collections)
    requires e.CommitEvent? && at.data == CommitData(e) && (collections == [] || e.collection in collections)
    ensures Faithfully(cache, groups, at)
  {
    forall c | c in cache
      ensures Represented(c, groups, at)
    {
      UniformIsRepresented(cache, groups, at, collections, e, c);
    }
    GroupingAgrees(cache, groups, at);
  }

  predicate Unthrottled(cache: seq<Cached>, throttle: Throttle) {
    forall c :: c in cache ==> throttle(c.blueprint.aturi) == Some(false)
  }

  predicate Faithfully(cache: seq<Cached>, groups: map<nat, Group>, at: Setting) {
    ByGroup(cache, groups.Keys, groups, at) == ByItself(cache, at)
  }

  // A member whose own entry node disagrees with its group's is submitted wrongly.
  lemma DisagreementShows(cache: seq<Cached>, groups: map<nat, Group>, at: Setting, c: Cached)
    requires Indexes(groups, cache, at.configHash) && DistinctBlueprints(cache) && Unthrottled(cache, at.throttle)
    requires c in cache && !Represented(c, groups, at)
    ensures !Faithfully(cache, groups, at)
  {
    SubmittedByItself(cache, at, c.blueprint.aturi);
    SubmittedByGroup(cache, groups, at, c.blueprint.aturi);
  }

  lemma PassesIfOpen(node: Node, data: Json, logic: Logic)
    requires node.nodeType == JETSTREAM_ENTRY && data.Obj? && MatchesFilters(node.configuration, data) == Ok(true)
    ensures Passes(node, data, logic) <==> Opens(node.payload, data, logic)
  {
  }

  // Two gates in one group can be told apart on any event that reaches them.
  lemma GatesShow(cache: seq<Cached>, groups: map<nat, Group>, a: Cached, b: Cached, at: Setting) returns (logic: Logic)
    requires Indexes(groups, cache, at.configHash) && AllJetstream(cache) && SameConfigurations(cache, at.configHash)
    requires DistinctBlueprints(cache) && Unthrottled(cache, at.throttle)
    requires a in cache && b in cache && KeyOf(a, at.configHash) == KeyOf(b, at.configHash)
    requires GateOf(a.entryNode.payload) != GateOf(b.entryNode.payload)
    requires at.data.Obj? && MatchesFilters(a.entryNode.configuration, at.data) == Ok(true)
    ensures !Faithfully(cache, groups, at.(logic := logic))
  {
    var first := FirstMember(cache, groups, at.configHash, KeyOf(a, at.configHash));
    var c := if GateOf(first.entryNode.payload) != GateOf(a.entryNode.payload) then a else b;
    logic := Telling(first.entryNode.payload, c.entryNode.payload);
    TellingTells(first.entryNode.payload, c.entryNode.payload, at.data);
    PassesIfOpen(first.entryNode, at.data, logic);
    PassesIfOpen(c.entryNode, at.data, logic);
    assert !Represented(c, groups, at.(logic := logic));
    DisagreementShows(cache, groups, at.(logic := logic), c);
  }

  lemma MismatchShows(cache: seq<Cached>, groups: map<nat, Group>, a: Cached, b: Cached, configHash: ConfigHash,
                      throttle: Throttle)
    returns (e: BlueprintEvent, logic: Logic)
    requires Indexes(groups, cache, configHash) && AllJetstream(cache) && SameConfigurations(cache, configHash)
    requires DistinctBlueprints(cache) && Unthrottled(cache, throttle)
    requires a in cache && b in cache && !GatesAgree(a, b, configHash, [])
    ensures e.CommitEvent? && !Faithfully(cache, groups, Setting(configHash, throttle, logic, CommitData(e)))
  {
    var commit := SomePasses(a.entryNode.configuration, []);
    e := Translate(commit, []).value;
    logic := GatesShow(cache, groups, a, b, Setting(configHash, throttle, (x, y) => None, CommitData(e)));
  }

  // When nothing is throttled and no keys collide, evaluating one entry node per group submits the same work,
  // for every commit and every evaluator, exactly when blueprints that share a key and can be reached at all
  // share the gate.
  lemma GroupingIsFaithfulIff(cache: seq<Cached>, groups: map<nat, Group>, configHash: ConfigHash, throttle: Throttle)
    requires Indexes(groups, cache, configHash) && AllJetstream(cache) && SameConfigurations(cache, configHash)
    requires DistinctBlueprints(cache) && Unthrottled(cache, throttle)
    ensures (forall e: BlueprintEvent, logic: Logic :: e.CommitEvent? ==>
               Faithfully(cache, groups, Setting(configHash, throttle, logic, CommitData(e))))
       <==> UniformGates(cache, configHash, [])
  {
    if UniformGates(cache, configHash, []) {
      forall e: BlueprintEvent, logic: Logic | e.CommitEvent?
        ensures Faithfully(cache, groups, Setting(configHash, throttle, logic, CommitData(e)))
      {
        UniformIsFaithful(cache, groups, Setting(configHash, throttle, logic, CommitData(e)), [], e);
      }
    } else {
      var a, b :| a in cache && b in cache && !GatesAgree(a, b, configHash, []);
      var e, logic := MismatchShows(cache, groups, a, b, configHash, throttle);
      assert !Faithfully(cache, groups, Setting(configHash, throttle, logic, CommitData(e)));
    }
  }

  lemma FirstIsTheEntryNode(a: Cached, b: Cached, groups: map<nat, Group>, configHash: ConfigHash)
    requires Indexes(groups, [a, b], configHash) && KeyOf(a, configHash) == KeyOf(b, configHash)
    ensures KeyOf(a, configHash) in groups && groups[KeyOf(a, configHash)].entryNode == a.entryNode
  {
    var key := KeyOf(a, configHash);
    assert a in [a, b];
    assert [a, b][..1] == [a] && [a][..0] == [];
    assert WithKey([a], key, configHash) == [] + [a];
    assert WithKey([a, b], key, configHash) == [a] + [b];
  }

  // Of two blueprints with one key, the second is submitted when the first one's entry node passes.
  lemma FirstSpeaksForBoth(a: Cached, b: Cached, groups: map<nat, Group>, at: Setting)
    requires Indexes(groups, [a, b], at.configHash) && KeyOf(a, at.configHash) == KeyOf(b, at.configHash)
    requires a.blueprint.aturi != b.blueprint.aturi
    requires forall c :: c in [a, b] ==> at.throttle(c.blueprint.aturi) == Some(false)
    ensures var work := Work(b.blueprint.aturi, at.data);
      && (work in ByGroup([a, b], groups.Keys, groups, at) <==> Passes(a.entryNode, at.data, at.logic))
      && (work in ByItself([a, b], at) <==> Passes(b.entryNode, at.data, at.logic))
  {
    assert b in [a, b];
    FirstIsTheEntryNode(a, b, groups, at.configHash);
    SubmittedByItself([a, b], at, b.blueprint.aturi);
    SubmittedByGroup([a, b], groups, at, b.blueprint.aturi);
  }

  // Two nodes that differ in identifier and payload only: one open, one shut.
  function Jetstream(id: string, open: bool): Node {
    Node(id, JETSTREAM_ENTRY, Bool(open), Obj(map[]))
  }

  lemma JetstreamPasses(id: string, open: bool, data: Json, logic: Logic)
    requires data.Obj?
    ensures Passes(Jetstream(id, open), data, logic) <==> open
  {
    assert MatchesFilters(Obj(map[]), data) == Ok(true);
  }

  // The key leaves the payload out. Of two blueprints with the same configuration, one open and one shut,
  // the shut one is submitted too, whatever the hash.
  lemma ShutPayloadIsIgnored(groups: map<nat, Group>, configHash: ConfigHash, logic: Logic, e: BlueprintEvent,
                             order: seq<string>)
    requires e.CommitEvent?
    requires Indexes(groups, [Cached(Blueprint("open", order, true), Jetstream("n1", true)),
                              Cached(Blueprint("shut", order, true), Jetstream("n2", false))], configHash)
    ensures var both := [Cached(Blueprint("open", order, true), Jetstream("n1", true)),
                         Cached(Blueprint("shut", order, true), Jetstream("n2", false))];
      var at := Setting(configHash, _ => Some(false), logic, CommitData(e));
      && Work("shut", CommitData(e)) in ByGroup(both, groups.Keys, groups, at)
      && Work("shut", CommitData(e)) !in ByItself(both, at)
  {
    var at := Setting(configHash, _ => Some(false), logic, CommitData(e));
    JetstreamPasses("n1", true, at.data, logic);
    JetstreamPasses("n2", false, at.data, logic);
    FirstSpeaksForBoth(Cached(Blueprint("open", order, true), Jetstream("n1", true)),
                       Cached(Blueprint("shut", order, true), Jetstream("n2", false)), groups, at);
  }

  // ---------------------------------------------------------------- the fleet

  // What all instances have in common.
  datatype Fleet = Fleet(
    stored: seq<Stored>, size: nat, strategy: Strategy, collections: seq<string>, maxCacheSize: Option<nat>,
    hash: Hash, configHash: ConfigHash, throttle: Throttle, logic: Logic)

  predicate Sound(f: Fleet) {
    f.size > 0 && AllReadable(f.stored)
  }

  function PartitionOf(f: Fleet, i: nat): PartitionConfig {
    PartitionConfig(i, f.size, f.strategy)
  }

  function CacheOf(f: Fleet, i: nat): seq<Cached>
    requires Sound(f)
  {
    Limit(Cacheable(f.stored, Some(PartitionOf(f, i)), f.hash), f.maxCacheSize)
  }

  // Every enabled valid blueprint that starts with a jetstream entry.
  function Candidates(f: Fleet): seq<Cached>
    requires Sound(f)
  {
    Cacheable(f.stored, None, f.hash)
  }

  function GroupsOf(cache: seq<Cached>, configHash: ConfigHash): map<nat, Group> {
    if cache == [] then map[]
    else AddToGroup(GroupsOf(cache[..|cache| - 1], configHash), cache[|cache| - 1], configHash)
  }

  lemma {:induction false} GroupsOfIndexes(cache: seq<Cached>, configHash: ConfigHash)
    ensures Indexes(GroupsOf(cache, configHash), cache, configHash)
  {
    if cache != [] {
      var last := |cache| - 1;
      GroupsOfIndexes(cache[..last], configHash);
      AddKeepsIndex(GroupsOf(cache[..last], configHash), cache[..last], cache[last], configHash);
      assert cache == cache[..last] + [cache[last]];
    }
  }

  function SettingOf(f: Fleet, e: BlueprintEvent): Setting
    requires e.CommitEvent?
  {
    Setting(f.configHash, f.throttle, f.logic, CommitData(e))
  }

  // What instance i submits for one forwarded event.
  function OnEvent(f: Fleet, i: nat, e: Option<BlueprintEvent>): multiset<Work>
    requires Sound(f)
  {
    if e.None? || !e.value.CommitEvent? then multiset{}
    else
      var cache := CacheOf(f, i);
      var groups := GroupsOf(cache, f.configHash);
      ByGroup(cache, groups.Keys, groups, SettingOf(f, e.value))
  }

  function OnArrival(f: Fleet, i: nat, a: Arrival): multiset<Work>
    requires Sound(f)
  {
    OnEvent(f, i, Forwarded(PartitionOf(f, i), f.collections, f.hash, a))
  }

  function InstanceWork(f: Fleet, i: nat, arrivals: seq<Arrival>): multiset<Work>
    requires Sound(f)
  {
    if arrivals == [] then multiset{}
    else InstanceWork(f, i, arrivals[..|arrivals| - 1]) + OnArrival(f, i, arrivals[|arrivals| - 1])
  }

  // What the first k instances submit.
  function FleetWork(f: Fleet, k: nat, arrivals: seq<Arrival>): multiset<Work>
    requires Sound(f)
  {
    if k == 0 then multiset{} else FleetWork(f, k - 1, arrivals) + InstanceWork(f, k - 1, arrivals)
  }

  // One evaluator, every candidate, every event that is neither blocked nor filtered out.
  function ReferenceOn(f: Fleet, a: Arrival): multiset<Work>
    requires Sound(f)
  {
    var e := if Blocked(a) then None else Translate(a.event, f.collections);
    if e.None? || !e.value.CommitEvent? then multiset{} else ByItself(Candidates(f), SettingOf(f, e.value))
  }

  function ReferenceWork(f: Fleet, arrivals: seq<Arrival>): multiset<Work>
    requires Sound(f)
  {
    if arrivals == [] then multiset{}
    else ReferenceWork(f, arrivals[..|arrivals| - 1]) + ReferenceOn(f, arrivals[|arrivals| - 1])
  }

  // ---------------------------------------------------------------- the fleet does what one evaluator does

  lemma {:induction false} CacheIsPartOf(all: seq<Stored>, p: PartitionConfig, hash: Hash)
    requires AllReadable(all)
    ensures forall c :: c in Cacheable(all, Some(p), hash) ==> c in Cacheable(all, None, hash)
    ensures AllJetstream(Cacheable(all, None, hash))
  {
    if all != [] {
      CacheIsPartOf(all[..|all| - 1], p, hash);
    }
  }

  // The stored blueprint as a candidate, if the instance keeps it.
  function AsCandidate(s: Stored, partition: Option<PartitionConfig>, hash: Hash): seq<Cached>
    requires Readable(s)
  {
    if FateOf(s, partition, hash) == Kept then [Cached(s.blueprint, s.nodes.value[0])] else []
  }

  lemma ByItselfOneMore(cache: seq<Cached>, more: seq<Cached>, at: Setting)
    requires |more| <= 1
    ensures ByItself(cache + more, at) == ByItself(cache, at) + ByItself(more, at)
  {
    if more == [] {
      assert cache + more == cache;
    } else {
      assert (cache + more)[..|cache|] == cache && more[..0] == [];
    }
  }

  lemma PrunedOneSubmitsNothing(s: Stored, p: PartitionConfig, hash: Hash, e: StreamEvent,
                                collections: seq<string>, at: Setting)
    requires Readable(s) && e.Commit? && ShouldProcess(p, e, hash) && Translate(e, collections).Some?
    requires at.data == CommitData(Translate(e, collections).value)
    ensures ByItself(AsCandidate(s, Some(p), hash), at) == ByItself(AsCandidate(s, None, hash), at)
  {
    if FateOf(s, Some(p), hash) == Pruned {
      var c := Cached(s.blueprint, s.nodes.value[0]);
      if Passes(c.entryNode, at.data, at.logic) {
        PruningIsSound(p, e, collections, c.entryNode.configuration, hash);
      }
      ByItselfOneMore([], [c], at);
    }
  }

  // On an event that is routed here, the pruned blueprints would have submitted nothing.
  lemma {:induction false} PrunedSubmitNothing(all: seq<Stored>, p: PartitionConfig, hash: Hash, e: StreamEvent,
                                               collections: seq<string>, at: Setting)
    requires AllReadable(all) && e.Commit? && ShouldProcess(p, e, hash) && Translate(e, collections).Some?
    requires at.data == CommitData(Translate(e, collections).value)
    ensures ByItself(Cacheable(all, Some(p), hash), at) == ByItself(Cacheable(all, None, hash), at)
  {
    if all != [] {
      var before, last := all[..|all| - 1], all[|all| - 1];
      PrunedSubmitNothing(before, p, hash, e, collections, at);
      PrunedOneSubmitsNothing(last, p, hash, e, collections, at);
      ByItselfOneMore(Cacheable(before, Some(p), hash), AsCandidate(last, Some(p), hash), at);
      ByItselfOneMore(Cacheable(before, None, hash), AsCandidate(last, None, hash), at);
    }
  }

  // Nothing is cut off by the size limit, and no keys collide.
  predicate Roomy(f: Fleet)
    requires Sound(f)
  {
    && (f.maxCacheSize.Some? ==> |Candidates(f)| <= f.maxCacheSize.value)
    && SameConfigurations(Candidates(f), f.configHash)
  }

  // And blueprints that share a key share the gate, where events of the fleet's collections can reach it.
  predicate Faithful(f: Fleet)
    requires Sound(f)
  {
    Roomy(f) && UniformGates(Candidates(f), f.configHash, f.collections)
  }

  lemma {:induction false} CacheIsNoLonger(all: seq<Stored>, p: PartitionConfig, hash: Hash)
    requires AllReadable(all)
    ensures |Cacheable(all, Some(p), hash)| <= |Cacheable(all, None, hash)|
  {
    if all != [] {
      CacheIsNoLonger(all[..|all| - 1], p, hash);
    }
  }

  // The cache of an instance, its groups, and what they are to the candidates.
  lemma CacheIsIndexed(f: Fleet, i: nat)
    requires Sound(f) && Roomy(f)
    ensures CacheOf(f, i) == Cacheable(f.stored, Some(PartitionOf(f, i)), f.hash)
    ensures Indexes(GroupsOf(CacheOf(f, i), f.configHash), CacheOf(f, i), f.configHash)
    ensures forall c :: c in CacheOf(f, i) ==> c in Candidates(f)
    ensures AllJetstream(CacheOf(f, i)) && SameConfigurations(CacheOf(f, i), f.configHash)
  {
    CacheIsNoLonger(f.stored, PartitionOf(f, i), f.hash);
    GroupsOfIndexes(CacheOf(f, i), f.configHash);
    CacheIsPartOf(f.stored, PartitionOf(f, i), f.hash);
  }

  // For an event routed to it, an instance submits what one evaluator would exactly when its groups are
  // faithful on that event.
  lemma OwnerIsAsFaithful(f: Fleet, i: nat, a: Arrival, e: BlueprintEvent)
    requires Sound(f) && Roomy(f) && i < f.size && e.CommitEvent?
    requires Forwarded(PartitionOf(f, i), f.collections, f.hash, a) == Some(e)
    ensures OnArrival(f, i, a) == ReferenceOn(f, a)
       <==> Faithfully(CacheOf(f, i), GroupsOf(CacheOf(f, i), f.configHash), SettingOf(f, e))
  {
    CacheIsIndexed(f, i);
    PrunedSubmitNothing(f.stored, PartitionOf(f, i), f.hash, a.event, f.collections, SettingOf(f, e));
  }

  lemma OwnerMatchesReference(f: Fleet, i: nat, a: Arrival)
    requires Sound(f) && Faithful(f) && i < f.size && ShouldProcess(PartitionOf(f, i), a.event, f.hash)
    ensures OnArrival(f, i, a) == ReferenceOn(f, a)
  {
    var e := Forwarded(PartitionOf(f, i), f.collections, f.hash, a);
    if e.Some? && e.value.CommitEvent? {
      var cache := CacheOf(f, i);
      CacheIsIndexed(f, i);
      UniformIsFaithful(cache, GroupsOf(cache, f.configHash), SettingOf(f, e.value), f.collections, e.value);
      OwnerIsAsFaithful(f, i, a, e.value);
    }
  }

  // Only the owner of an event submits anything for it.
  function FleetOnArrival(f: Fleet, k: nat, a: Arrival): multiset<Work>
    requires Sound(f)
  {
    if k == 0 then multiset{} else FleetOnArrival(f, k - 1, a) + OnArrival(f, k - 1, a)
  }

  lemma OthersSubmitNothing(f: Fleet, i: nat, a: Arrival)
    requires Sound(f) && !ShouldProcess(PartitionOf(f, i), a.event, f.hash)
    ensures OnArrival(f, i, a) == multiset{}
  {
  }

  lemma {:induction false} OneOwner(f: Fleet, k: nat, a: Arrival)
    requires Sound(f) && k <= f.size
    ensures var owner := Owner(f.size, f.strategy, a.event, f.hash);
      FleetOnArrival(f, k, a) == if owner < k then OnArrival(f, owner, a) else multiset{}
  {
    if k > 0 {
      var i := k - 1;
      OneOwner(f, i, a);
      ExactlyOneInstance(f.size, f.strategy, a.event, f.hash, i);
      if i != Owner(f.size, f.strategy, a.event, f.hash) {
        OthersSubmitNothing(f, i, a);
      }
      OneMoreInstance(f, i, a);
    }
  }

  lemma OneMoreInstance(f: Fleet, i: nat, a: Arrival)
    requires Sound(f)
    ensures FleetOnArrival(f, i + 1, a) == FleetOnArrival(f, i, a) + OnArrival(f, i, a)
  {
  }

  lemma Exchange(a: multiset<Work>, b: multiset<Work>, c: multiset<Work>, d: multiset<Work>)
    ensures (a + b) + (c + d) == (a + c) + (b + d)
  {
  }

  lemma InstanceTakesOneMore(f: Fleet, i: nat, arrivals: seq<Arrival>)
    requires Sound(f) && arrivals != []
    ensures InstanceWork(f, i, arrivals)
         == InstanceWork(f, i, arrivals[..|arrivals| - 1]) + OnArrival(f, i, arrivals[|arrivals| - 1])
  {
  }

  lemma FleetHasOneMore(f: Fleet, i: nat, arrivals: seq<Arrival>)
    requires Sound(f)
    ensures FleetWork(f, i + 1, arrivals) == FleetWork(f, i, arrivals) + InstanceWork(f, i, arrivals)
  {
  }

  lemma {:induction false} OneMoreArrival(f: Fleet, k: nat, arrivals: seq<Arrival>)
    requires Sound(f) && arrivals != []
    ensures FleetWork(f, k, arrivals)
         == FleetWork(f, k, arrivals[..|arrivals| - 1]) + FleetOnArrival(f, k, arrivals[|arrivals| - 1])
  {
    if k > 0 {
      var i, before, a := k - 1, arrivals[..|arrivals| - 1], arrivals[|arrivals| - 1];
      calc {
        FleetWork(f, k, arrivals);
        { FleetHasOneMore(f, i, arrivals); OneMoreArrival(f, i, arrivals); InstanceTakesOneMore(f, i, arrivals); }
        (FleetWork(f, i, before) + FleetOnArrival(f, i, a)) + (InstanceWork(f, i, before) + OnArrival(f, i, a));
        { Exchange(FleetWork(f, i, before), FleetOnArrival(f, i, a), InstanceWork(f, i, before), OnArrival(f, i, a)); }
        (FleetWork(f, i, before) + InstanceWork(f, i, before)) + (FleetOnArrival(f, i, a) + OnArrival(f, i, a));
        { FleetHasOneMore(f, i, before); OneMoreInstance(f, i, a); }
        FleetWork(f, k, before) + FleetOnArrival(f, k, a);
      }
    }
  }

  lemma {:induction false} NoArrivals(f: Fleet, k: nat)
    requires Sound(f)
    ensures FleetWork(f, k, []) == multiset{}
  {
    if k > 0 {
      NoArrivals(f, k - 1);
    }
  }

  // Over any stream, all instances together submit exactly the reference's work: nothing is lost to
  // partitioning, pruning or grouping, and nothing is done twice.
  lemma {:induction false} FleetRefinesReference(f: Fleet, arrivals: seq<Arrival>)
    requires Sound(f) && Faithful(f)
    ensures FleetWork(f, f.size, arrivals) == ReferenceWork(f, arrivals)
  {
    if arrivals == [] {
      NoArrivals(f, f.size);
    } else {
      var before, a := arrivals[..|arrivals| - 1], arrivals[|arrivals| - 1];
      FleetRefinesReference(f, before);
      OneMoreArrival(f, f.size, arrivals);
      OneOwner(f, f.size, a);
      var owner := Owner(f.size, f.strategy, a.event, f.hash);
      ExactlyOneInstance(f.size, f.strategy, a.event, f.hash, owner);
      OwnerMatchesReference(f, owner, a);
    }
  }

  // ---------------------------------------------------------------- and exactly when

  // One commit and nothing else.
  lemma FleetOnOne(f: Fleet, a: Arrival)
    requires Sound(f)
    ensures FleetWork(f, f.size, [a]) == OnArrival(f, Owner(f.size, f.strategy, a.event, f.hash), a)
    ensures ReferenceWork(f, [a]) == ReferenceOn(f, a)
  {
    assert [a][..0] == [];
    NoArrivals(f, f.size);
    OneMoreArrival(f, f.size, [a]);
    OneOwner(f, f.size, a);
    ExactlyOneInstance(f.size, f.strategy, a.event, f.hash, 0);
    assert ReferenceWork(f, []) == multiset{};
  }

  // What could match is kept.
  lemma {:induction false} CandidateIsKept(all: seq<Stored>, p: PartitionConfig, hash: Hash, c: Cached)
    requires AllReadable(all) && c in Cacheable(all, None, hash) && CouldMatch(Some(p), c.entryNode.configuration, hash)
    ensures c in Cacheable(all, Some(p), hash)
  {
    if all != [] {
      var last := |all| - 1;
      if c in Cacheable(all[..last], None, hash) {
        CandidateIsKept(all[..last], p, hash, c);
      }
    }
  }

  // Two blueprints that share a key but not the gate, and can be reached, make the fleet go wrong.
  lemma FleetShows(f: Fleet, a: Cached, b: Cached) returns (logic: Logic, arrival: Arrival)
    requires Sound(f) && Roomy(f) && DistinctBlueprints(Candidates(f)) && Unthrottled(Candidates(f), f.throttle)
    requires a in Candidates(f) && b in Candidates(f) && !GatesAgree(a, b, f.configHash, f.collections)
    ensures FleetWork(f.(logic := logic), f.size, [arrival]) != ReferenceWork(f.(logic := logic), [arrival])
  {
    var commit := SomePasses(a.entryNode.configuration, f.collections);
    arrival := Arrival(commit, Some(false), Some(false));
    var e, i := Translate(commit, f.collections).value, Owner(f.size, f.strategy, commit, f.hash);
    ExactlyOneInstance(f.size, f.strategy, commit, f.hash, i);
    var p, cache := PartitionOf(f, i), CacheOf(f, i);
    PruningIsSound(p, commit, f.collections, a.entryNode.configuration, f.hash);
    CacheIsIndexed(f, i);
    CandidateIsKept(f.stored, p, f.hash, a);
    CandidateIsKept(f.stored, p, f.hash, b);
    logic := GatesShow(cache, GroupsOf(cache, f.configHash), a, b, SettingOf(f, e));
    var g := f.(logic := logic);
    OwnerIsAsFaithful(g, i, arrival, e);
    FleetOnOne(g, arrival);
  }

  predicate Agree(f: Fleet, arrivals: seq<Arrival>)
    requires Sound(f)
  {
    FleetWork(f, f.size, arrivals) == ReferenceWork(f, arrivals)
  }

  lemma OtherLogic(f: Fleet, logic: Logic)
    requires Sound(f)
    ensures Sound(f.(logic := logic)) && Candidates(f.(logic := logic)) == Candidates(f)
    ensures Faithful(f.(logic := logic)) <==> Faithful(f)
  {
  }

  ghost predicate AlwaysAgrees(f: Fleet)
    requires Sound(f)
  {
    forall logic: Logic, arrivals :: Agree(f.(logic := logic), arrivals)
  }

  lemma FaithfulAgrees(f: Fleet)
    requires Sound(f) && Faithful(f)
    ensures AlwaysAgrees(f)
  {
    forall logic: Logic, arrivals
      ensures Agree(f.(logic := logic), arrivals)
    {
      OtherLogic(f, logic);
      FleetRefinesReference(f.(logic := logic), arrivals);
    }
  }

  lemma MismatchIsSeen(f: Fleet)
    requires Sound(f) && Roomy(f) && DistinctBlueprints(Candidates(f)) && Unthrottled(Candidates(f), f.throttle)
    requires !UniformGates(Candidates(f), f.configHash, f.collections)
    ensures !AlwaysAgrees(f)
  {
    var candidates := Candidates(f);
    var a, b :| a in candidates && b in candidates && !GatesAgree(a, b, f.configHash, f.collections);
    var logic, arrival := FleetShows(f, a, b);
    assert !Agree(f.(logic := logic), [arrival]);
  }

  // When nothing is throttled, the fleet submits the reference's work on every stream and under every
  // evaluator exactly when blueprints that share a key, and that its events can reach, share the gate.
  lemma FleetIsFaithfulIff(f: Fleet)
    requires Sound(f) && Roomy(f) && DistinctBlueprints(Candidates(f)) && Unthrottled(Candidates(f), f.throttle)
    ensures AlwaysAgrees(f) <==> UniformGates(Candidates(f), f.configHash, f.collections)
  {
    if UniformGates(Candidates(f), f.configHash, f.collections) {
      FaithfulAgrees(f);
    } else {
      MismatchIsSeen(f);
    }
  }
}
