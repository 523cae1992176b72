// The blueprint processor: which blueprints an instance caches, how it groups them, and what it submits
// for each commit (src/processor.rs).

module Processor {
  import opened Options
  import opened Json
  import opened Consumer
  import opened JetstreamEntry

  const JETSTREAM_ENTRY := "jetstream_entry"
  const ENTRY_TYPES := ["jetstream_entry", "webhook_entry", "periodic_entry", "zap_entry"]
  const ACTION_TYPES := ["publish_record", "publish_webhook", "debug_action"]

  datatype Blueprint = Blueprint(aturi: string, nodeOrder: seq<string>, enabled: bool)

  // A stored blueprint and the answer of list_nodes for it; None is a storage error.
  datatype Stored = Stored(blueprint: Blueprint, nodes: Option<seq<Node>>)

  datatype Cached = Cached(blueprint: Blueprint, entryNode: Node)

  datatype Group = Group(entryNode: Node, members: seq<Cached>)

  datatype Work = Work(blueprint: string, payload: Json)

  // Hash of a node's type and configuration.
  type ConfigHash = (string, Json) -> nat

  // ---------------------------------------------------------------- what is worth caching

  predicate HasType(nodes: seq<Node>, aturi: string, types: seq<string>) {
    exists n :: n in nodes && n.aturi == aturi && n.nodeType in types
  }

  // The first node with the given identifier decides.
  predicate FirstWithIdHasType(nodes: seq<Node>, aturi: string, types: seq<string>) {
    nodes != []
    && (if nodes[0].aturi == aturi then nodes[0].nodeType in types else FirstWithIdHasType(nodes[1..], aturi, types))
  }

  predicate IsValid(b: Blueprint, nodes: seq<Node>) {
    && |b.nodeOrder| >= 2 && |nodes| >= 2
    && FirstWithIdHasType(nodes, b.nodeOrder[0], ENTRY_TYPES)
    && exists id :: id in b.nodeOrder && HasType(nodes, id, ACTION_TYPES)
  }

  predicate SomeTargets(items: seq<Json>, p: PartitionConfig, hash: Hash)
    requires p.totalInstances > 1
  {
    exists v :: v in items && v.Str? && (v.s == "*" || hash(v.s) % p.totalInstances == p.instanceId)
  }

  // could_jetstream_entry_match_partition
  predicate CouldMatch(partition: Option<PartitionConfig>, config: Json, hash: Hash) {
    if partition.None? || partition.value.totalInstances <= 1 then true
    else
      var p := partition.value;
      match p.strategy
      case DidBased =>
        Get(config, "did").Some? && Get(config, "did").value.Arr? ==>
          SomeTargets(Get(config, "did").value.items, p, hash)
      case CollectionBased =>
        Get(config, "collection").Some? && Get(config, "collection").value.Arr? ==>
          SomeTargets(Get(config, "collection").value.items, p, hash)
      case RoundRobin => true
      case CustomField(_) => true
  }

  datatype Fate = Disabled | Invalid | NotJetstream | Pruned | Kept

  // What load_blueprints_cache does with one stored blueprint.
  function FateOf(s: Stored, partition: Option<PartitionConfig>, hash: Hash): Fate
    requires Readable(s)
  {
    if !s.blueprint.enabled then Disabled
    else if !IsValid(s.blueprint, s.nodes.value) then Invalid
    else if s.nodes.value == [] || s.nodes.value[0].nodeType != JETSTREAM_ENTRY then NotJetstream
    else if CouldMatch(partition, s.nodes.value[0].configuration, hash) then Kept
    else Pruned
  }

  // Nodes are not asked for when the blueprint is disabled.
  predicate Readable(s: Stored) {
    s.blueprint.enabled ==> s.nodes.Some?
  }

  predicate AllReadable(all: seq<Stored>) {
    forall s :: s in all ==> Readable(s)
  }

  function Count(all: seq<Stored>, fate: Fate, partition: Option<PartitionConfig>, hash: Hash): nat
    requires AllReadable(all)
  {
    if all == [] then 0
    else
      var last := |all| - 1;
      Count(all[..last], fate, partition, hash) + (if FateOf(all[last], partition, hash) == fate then 1 else 0)
  }

  function Cacheable(all: seq<Stored>, partition: Option<PartitionConfig>, hash: Hash): seq<Cached>
    requires AllReadable(all)
  {
    if all == [] then []
    else
      var last := |all| - 1;
      Cacheable(all[..last], partition, hash)
      + (if FateOf(all[last], partition, hash) == Kept
         then [Cached(all[last].blueprint, all[last].nodes.value[0])] else [])
  }

  // ---------------------------------------------------------------- what that means, by positions

  // The node that decides for an identifier: the first one listed under it.
  predicate IsFirstListed(nodes: seq<Node>, j: nat, id: string) {
    j < |nodes| && nodes[j].aturi == id && forall k :: 0 <= k < j ==> nodes[k].aturi != id
  }

  // At least two identifiers in the order and two nodes, one of the four entry types at the head of the order,
  // and an action somewhere in it.
  predicate WellFormed(order: seq<string>, nodes: seq<Node>) {
    && |order| >= 2 && |nodes| >= 2
    && (exists j :: 0 <= j < |nodes| && IsFirstListed(nodes, j, order[0]) && IsEntry(nodes[j].nodeType))
    && exists i, j ::
         0 <= i < |order| && 0 <= j < |nodes| && nodes[j].aturi == order[i] && IsAction(nodes[j].nodeType)
  }

  // Enabled and well formed, with a jetstream entry as the first stored node.
  predicate Eligible(s: Stored) {
    && s.blueprint.enabled && s.nodes.Some? && WellFormed(s.blueprint.nodeOrder, s.nodes.value)
    && s.nodes.value[0].nodeType == "jetstream_entry"
  }

  predicate IsEntry(nodeType: string) {
    nodeType in {"jetstream_entry", "webhook_entry", "periodic_entry", "zap_entry"}
  }

  predicate IsAction(nodeType: string) {
    nodeType in {"publish_record", "publish_webhook", "debug_action"}
  }

  lemma {:induction false} FirstDecides(nodes: seq<Node>, aturi: string, types: seq<string>)
    ensures FirstWithIdHasType(nodes, aturi, types) <==>
      exists j :: 0 <= j < |nodes| && IsFirstListed(nodes, j, aturi) && nodes[j].nodeType in types
  {
    if nodes != [] && nodes[0].aturi != aturi {
      FirstDecides(nodes[1..], aturi, types);
      forall j | 0 <= j < |nodes[1..]|
        ensures IsFirstListed(nodes[1..], j, aturi) <==> IsFirstListed(nodes, j + 1, aturi)
      {
        if IsFirstListed(nodes[1..], j, aturi) {
          forall k | 0 <= k < j + 1
            ensures nodes[k].aturi != aturi
          {
            assert k > 0 ==> nodes[k] == nodes[1..][k - 1];
          }
        }
        if IsFirstListed(nodes, j + 1, aturi) {
          forall k | 0 <= k < j
            ensures nodes[1..][k].aturi != aturi
          {
            assert nodes[1..][k] == nodes[k + 1];
          }
        }
      }
      if j :| 0 <= j < |nodes[1..]| && IsFirstListed(nodes[1..], j, aturi) && nodes[1..][j].nodeType in types {
        assert IsFirstListed(nodes, j + 1, aturi) && nodes[j + 1].nodeType in types;
      }
      if j :| 0 <= j < |nodes| && IsFirstListed(nodes, j, aturi) && nodes[j].nodeType in types {
        assert IsFirstListed(nodes[1..], j - 1, aturi) && nodes[1..][j - 1].nodeType in types;
      }
    } else if nodes != [] {
      assert IsFirstListed(nodes, 0, aturi);
    }
  }

  lemma HasTypeMeans(nodes: seq<Node>, aturi: string, types: seq<string>)
    ensures HasType(nodes, aturi, types) <==>
      exists j :: 0 <= j < |nodes| && nodes[j].aturi == aturi && nodes[j].nodeType in types
  {
  }

  lemma ActionsMean(order: seq<string>, nodes: seq<Node>)
    ensures (exists id :: id in order && HasType(nodes, id, ACTION_TYPES)) <==>
      exists i, j :: 0 <= i < |order| && 0 <= j < |nodes| && nodes[j].aturi == order[i] && IsAction(nodes[j].nodeType)
  {
    if id :| id in order && HasType(nodes, id, ACTION_TYPES) {
      HasTypeMeans(nodes, id, ACTION_TYPES);
      var i :| 0 <= i < |order| && order[i] == id;
      var j :| 0 <= j < |nodes| && nodes[j].aturi == id && nodes[j].nodeType in ACTION_TYPES;
    }
    if i, j :| 0 <= i < |order| && 0 <= j < |nodes| && nodes[j].aturi == order[i] && IsAction(nodes[j].nodeType) {
      HasTypeMeans(nodes, order[i], ACTION_TYPES);
      assert order[i] in order && nodes[j].nodeType in ACTION_TYPES;
    }
  }

  // What is kept, and what becomes of the rest.
  lemma EligibleIff(s: Stored, partition: Option<PartitionConfig>, hash: Hash)
    requires Readable(s)
    ensures FateOf(s, partition, hash) == Kept <==>
      Eligible(s) && CouldMatch(partition, s.nodes.value[0].configuration, hash)
    ensures FateOf(s, partition, hash) == Pruned <==>
      Eligible(s) && !CouldMatch(partition, s.nodes.value[0].configuration, hash)
    ensures FateOf(s, partition, hash) == Disabled <==> !s.blueprint.enabled
    ensures FateOf(s, partition, hash) == Invalid <==>
      s.blueprint.enabled && !WellFormed(s.blueprint.nodeOrder, s.nodes.value)
  {
    if s.blueprint.enabled {
      var order, nodes := s.blueprint.nodeOrder, s.nodes.value;
      ActionsMean(order, nodes);
      if order != [] {
        FirstDecides(nodes, order[0], ENTRY_TYPES);
        assert forall t :: t in ENTRY_TYPES <==> IsEntry(t);
      }
    }
  }

  predicate IsKept(s: Stored, partition: Option<PartitionConfig>, hash: Hash) {
    Eligible(s) && CouldMatch(partition, s.nodes.value[0].configuration, hash)
  }

  // The positions of the kept blueprints.
  function Positions(all: seq<Stored>, partition: Option<PartitionConfig>, hash: Hash): seq<nat> {
    if all == [] then []
    else
      var last := |all| - 1;
      Positions(all[..last], partition, hash) + (if IsKept(all[last], partition, hash) then [last] else [])
  }

  ghost predicate Picks(picked: seq<nat>, all: seq<Stored>, partition: Option<PartitionConfig>, hash: Hash) {
    && (forall k, l :: 0 <= k < l < |picked| ==> picked[k] < picked[l])
    && (forall i: nat :: i in picked <==> i < |all| && IsKept(all[i], partition, hash))
  }

  ghost predicate HoldsPicked(cache: seq<Cached>, picked: seq<nat>, all: seq<Stored>) {
    && |cache| == |picked|
    && forall k :: 0 <= k < |picked| ==>
         picked[k] < |all| && Eligible(all[picked[k]])
         && cache[k] == Cached(all[picked[k]].blueprint, all[picked[k]].nodes.value[0])
  }

  // What could be cached is exactly the eligible blueprints that could match, each with its first stored node,
  // in stored order.
  lemma CacheableByPosition(all: seq<Stored>, partition: Option<PartitionConfig>, hash: Hash)
    returns (picked: seq<nat>)
    requires AllReadable(all)
    ensures Picks(picked, all, partition, hash) && HoldsPicked(Cacheable(all, partition, hash), picked, all)
  {
    picked := Positions(all, partition, hash);
    PositionsPick(all, partition, hash);
    PositionsHold(all, partition, hash);
  }

  lemma {:induction false} PositionsHold(all: seq<Stored>, partition: Option<PartitionConfig>, hash: Hash)
    requires AllReadable(all)
    ensures HoldsPicked(Cacheable(all, partition, hash), Positions(all, partition, hash), all)
  {
    if all != [] {
      var last := |all| - 1;
      PositionsHold(all[..last], partition, hash);
      EligibleIff(all[last], partition, hash);
      HoldsOneMore(Cacheable(all[..last], partition, hash), Positions(all[..last], partition, hash), all);
    }
  }

  lemma HoldsOneMore(cache: seq<Cached>, before: seq<nat>, all: seq<Stored>)
    requires all != [] && HoldsPicked(cache, before, all[..|all| - 1])
    ensures HoldsPicked(cache, before, all)
    ensures var last := |all| - 1;
      Eligible(all[last]) ==>
        HoldsPicked(cache + [Cached(all[last].blueprint, all[last].nodes.value[0])], before + [last], all)
  {
  }

  lemma {:induction false} PositionsPick(all: seq<Stored>, partition: Option<PartitionConfig>, hash: Hash)
    ensures Picks(Positions(all, partition, hash), all, partition, hash)
  {
    if all != [] {
      PositionsPick(all[..|all| - 1], partition, hash);
      PicksOneMore(Positions(all[..|all| - 1], partition, hash), all, partition, hash);
    }
  }

  lemma PicksOneMore(before: seq<nat>, all: seq<Stored>, partition: Option<PartitionConfig>, hash: Hash)
    requires all != [] && Picks(before, all[..|all| - 1], partition, hash)
    ensures var last := |all| - 1;
      Picks(if IsKept(all[last], partition, hash) then before + [last] else before, all, partition, hash)
  {
    var last: nat := |all| - 1;
    var picked := if IsKept(all[last], partition, hash) then before + [last] else before;
    forall i: nat
      ensures i in picked <==> i < |all| && IsKept(all[i], partition, hash)
    {
      if i < last {
        assert all[..last][i] == all[i];
      }
      assert i in before ==> i < last;
    }
    forall k, l | 0 <= k < l < |picked|
      ensures picked[k] < picked[l]
    {
      assert picked[k] in before;
    }
  }

  function WithFate(all: seq<Stored>, fate: Fate, partition: Option<PartitionConfig>, hash: Hash): set<nat>
    requires AllReadable(all)
  {
    set i | 0 <= i < |all| && FateOf(all[i], partition, hash) == fate
  }

  lemma WithFateGrows(all: seq<Stored>, fate: Fate, partition: Option<PartitionConfig>, hash: Hash)
    requires AllReadable(all) && all != []
    ensures var last := |all| - 1;
      WithFate(all, fate, partition, hash)
      == WithFate(all[..last], fate, partition, hash)
         + (if FateOf(all[last], partition, hash) == fate then {last} else {})
    ensures |all| - 1 !in WithFate(all[..|all| - 1], fate, partition, hash)
  {
  }

  // A counter counts the stored blueprints with its fate.
  lemma {:induction false} CountIsNumber(all: seq<Stored>, fate: Fate, partition: Option<PartitionConfig>, hash: Hash)
    requires AllReadable(all)
    ensures Count(all, fate, partition, hash) == |WithFate(all, fate, partition, hash)|
  {
    if all != [] {
      CountIsNumber(all[..|all| - 1], fate, partition, hash);
      WithFateGrows(all, fate, partition, hash);
    }
  }

  function Limit(cache: seq<Cached>, maxSize: Option<nat>): seq<Cached> {
    if maxSize.Some? && |cache| > maxSize.value then cache[..maxSize.value] else cache
  }

  // ---------------------------------------------------------------- groups

  function KeyOf(c: Cached, configHash: ConfigHash): nat {
    configHash(c.entryNode.nodeType, c.entryNode.configuration)
  }

  // The cached blueprints with the given key, in cache order.
  function WithKey(cache: seq<Cached>, key: nat, configHash: ConfigHash): seq<Cached> {
    if cache == [] then []
    else
      var last := |cache| - 1;
      WithKey(cache[..last], key, configHash) + (if KeyOf(cache[last], configHash) == key then [cache[last]] else [])
  }

  // The groups index the cache: every key in use has a group, its members are exactly the cached
  // blueprints with that key in cache order, and its entry node is the first member's.
  ghost predicate Indexes(groups: map<nat, Group>, cache: seq<Cached>, configHash: ConfigHash) {
    && (forall c :: c in cache ==> KeyOf(c, configHash) in groups)
    && (forall key :: key in groups ==>
          && groups[key].members == WithKey(cache, key, configHash)
          && groups[key].members != []
          && groups[key].entryNode == groups[key].members[0].entryNode)
  }

  function AddToGroup(groups: map<nat, Group>, c: Cached, configHash: ConfigHash): map<nat, Group> {
    var key := KeyOf(c, configHash);
    var group := if key in groups then groups[key] else Group(c.entryNode, []);
    groups[key := group.(members := group.members + [c])]
  }

  lemma AddKeepsIndex(groups: map<nat, Group>, cache: seq<Cached>, c: Cached, configHash: ConfigHash)
    requires Indexes(groups, cache, configHash)
    ensures Indexes(AddToGroup(groups, c, configHash), cache + [c], configHash)
  {
    var longer := cache + [c];
    assert longer[..|cache|] == cache;
    if KeyOf(c, configHash) !in groups {
      NoneWithKey(cache, KeyOf(c, configHash), configHash);
    }
  }

  lemma {:induction false} NoneWithKey(cache: seq<Cached>, key: nat, configHash: ConfigHash)
    requires forall c :: c in cache ==> KeyOf(c, configHash) != key
    ensures WithKey(cache, key, configHash) == []
  {
    if cache != [] {
      NoneWithKey(cache[..|cache| - 1], key, configHash);
    }
  }

  // Two indexes of the same cache are the same map.
  lemma IndexIsUnique(g: map<nat, Group>, h: map<nat, Group>, cache: seq<Cached>, configHash: ConfigHash)
    requires Indexes(g, cache, configHash) && Indexes(h, cache, configHash)
    ensures g == h
  {
    forall key
      ensures key in g <==> key in h
    {
      KeysAreUsed(cache, key, configHash);
      if key in g {
        assert g[key].members[0] in WithKey(cache, key, configHash);
      }
      if key in h {
        assert h[key].members[0] in WithKey(cache, key, configHash);
      }
    }
  }

  lemma {:induction false} KeysAreUsed(cache: seq<Cached>, key: nat, configHash: ConfigHash)
    ensures forall c :: c in WithKey(cache, key, configHash) <==> c in cache && KeyOf(c, configHash) == key
  {
    if cache != [] {
      KeysAreUsed(cache[..|cache| - 1], key, configHash);
      assert cache == cache[..|cache| - 1] + [cache[|cache| - 1]];
    }
  }

  // ---------------------------------------------------------------- one commit

  function CommitData(e: BlueprintEvent): Json
    requires e.CommitEvent?
  {
    Obj(map["kind" := Str("commit"), "did" := Str(e.did), "collection" := Str(e.collection),
            "commit" := Obj(map["collection" := Str(e.collection), "rkey" := Str(e.rkey), "cid" := Str(e.cid),
                                "operation" := Str(e.operation), "record" := e.record]),
            "time_us" := Num(e.timeUs)])
  }

  // A payload with these values in their places, and nothing else.
  predicate HasFields(payload: Json, did: string, collection: string, rkey: string, cid: string, operation: string,
                      record: Json)
  {
    && payload.Obj? && payload.fields.Keys == {"kind", "did", "collection", "commit", "time_us"}
    && Get(payload, "kind") == Some(Str("commit"))
    && Get(payload, "did") == Some(Str(did)) && Get(payload, "collection") == Some(Str(collection))
    && payload.fields["commit"].Obj?
    && payload.fields["commit"].fields.Keys == {"collection", "rkey", "cid", "operation", "record"}
    && Get(payload.fields["commit"], "collection") == Some(Str(collection))
    && Get(payload.fields["commit"], "rkey") == Some(Str(rkey))
    && Get(payload.fields["commit"], "cid") == Some(Str(cid))
    && Get(payload.fields["commit"], "operation") == Some(Str(operation))
    && Get(payload.fields["commit"], "record") == Some(record)
    && payload.fields["time_us"].Num?
  }

  // The payload says of the event what it was.
  predicate Describes(payload: Json, e: BlueprintEvent) {
    && e.CommitEvent? && HasFields(payload, e.did, e.collection, e.rkey, e.cid, e.operation, e.record)
    && payload.fields["time_us"].n == e.timeUs
  }

  lemma DescribesIff(payload: Json, e: BlueprintEvent)
    requires e.CommitEvent?
    ensures Describes(payload, e) <==> payload == CommitData(e)
  {
    var data := CommitData(e);
    if Describes(payload, e) {
      assert payload.fields["commit"].fields == data.fields["commit"].fields;
      assert payload.fields == data.fields;
    }
  }

  // What is submitted describes the event, and is for cached blueprints that are not throttled.
  lemma {:induction false} ByGroupSubmits(cache: seq<Cached>, done: set<nat>, groups: map<nat, Group>, at: Setting,
                                          w: Work)
    requires w in ByGroup(cache, done, groups, at)
    ensures w.payload == at.data && at.throttle(w.blueprint) == Some(false)
    ensures exists c :: c in cache && c.blueprint.aturi == w.blueprint
  {
    var last := |cache| - 1;
    assert cache[last] in cache;
    if w in ByGroup(cache[..last], done, groups, at) {
      ByGroupSubmits(cache[..last], done, groups, at, w);
    }
  }

  // The factory knows the jetstream entry evaluator only.
  function FactoryEvaluate(node: Node, input: Json, logic: Logic): Result<Option<Json>, EvalError> {
    if node.nodeType == JETSTREAM_ENTRY then Evaluate(node, input, logic) else Err(NoEvaluator)
  }

  // Ok(Some(v)) with v other than false lets the whole group through.
  predicate Passes(node: Node, input: Json, logic: Logic) {
    var r := FactoryEvaluate(node, input, logic);
    r.Ok? && r.value.Some? && r.value.value != Bool(false)
  }

  // The throttler's answer for a blueprint; None is an error, which skips it as throttling does.
  type Throttle = string -> Option<bool>

  // What surrounds the handling of one commit.
  datatype Setting = Setting(configHash: ConfigHash, throttle: Throttle, logic: Logic, data: Json)

  // The work item of one blueprint, unless it is throttled.
  function Item(c: Cached, at: Setting): multiset<Work> {
    if at.throttle(c.blueprint.aturi) == Some(false) then multiset{Work(c.blueprint.aturi, at.data)} else multiset{}
  }

  function SubmitAll(members: seq<Cached>, at: Setting): multiset<Work> {
    if members == [] then multiset{}
    else SubmitAll(members[..|members| - 1], at) + Item(members[|members| - 1], at)
  }

  // A blueprint goes through if its group's key is in done and the group's entry node lets the event pass.
  predicate GroupPasses(c: Cached, done: set<nat>, groups: map<nat, Group>, at: Setting) {
    var key := KeyOf(c, at.configHash);
    key in done && key in groups && Passes(groups[key].entryNode, at.data, at.logic)
  }

  // What the groups with keys in done submit: everybody in a group shares the verdict on its entry node.
  function ByGroup(cache: seq<Cached>, done: set<nat>, groups: map<nat, Group>, at: Setting): multiset<Work> {
    if cache == [] then multiset{}
    else
      var last := |cache| - 1;
      ByGroup(cache[..last], done, groups, at)
      + (if GroupPasses(cache[last], done, groups, at) then Item(cache[last], at) else multiset{})
  }

  // What is submitted when every blueprint is judged by its own entry node.
  function ByItself(cache: seq<Cached>, at: Setting): multiset<Work> {
    if cache == [] then multiset{}
    else
      var last := |cache| - 1;
      ByItself(cache[..last], at)
      + (if Passes(cache[last].entryNode, at.data, at.logic) then Item(cache[last], at) else multiset{})
  }

  function FromGroup(entryNode: Node, members: seq<Cached>, at: Setting): multiset<Work> {
    if Passes(entryNode, at.data, at.logic) then SubmitAll(members, at) else multiset{}
  }

  lemma Reorder(a: multiset<Work>, b: multiset<Work>, m: multiset<Work>, x: multiset<Work>)
    requires a == b + m
    ensures a + x == b + (m + x) && a + x == (b + x) + m
  {
  }

  // Going through one more group adds that group's submissions.
  lemma {:induction false} OneMoreGroup(cache: seq<Cached>, done: set<nat>, key: nat, groups: map<nat, Group>,
                                        at: Setting)
    requires key !in done && key in groups
    ensures ByGroup(cache, done + {key}, groups, at)
         == ByGroup(cache, done, groups, at) + FromGroup(groups[key].entryNode, WithKey(cache, key, at.configHash), at)
  {
    if cache != [] {
      var last := |cache| - 1;
      var c, members := cache[last], WithKey(cache[..last], key, at.configHash);
      OneMoreGroup(cache[..last], done, key, groups, at);
      Reorder(ByGroup(cache[..last], done + {key}, groups, at), ByGroup(cache[..last], done, groups, at),
              FromGroup(groups[key].entryNode, members, at), Item(c, at));
      if KeyOf(c, at.configHash) == key {
        assert (members + [c])[..|members|] == members;
        assert !GroupPasses(c, done, groups, at);
      } else {
        assert members + [] == members;
        assert GroupPasses(c, done + {key}, groups, at) <==> GroupPasses(c, done, groups, at);
      }
    }
  }

  lemma {:induction false} NoneVisited(cache: seq<Cached>, groups: map<nat, Group>, at: Setting)
    ensures ByGroup(cache, {}, groups, at) == multiset{}
  {
    if cache != [] {
      NoneVisited(cache[..|cache| - 1], groups, at);
    }
  }

  // ---------------------------------------------------------------- the processor

  datatype Counters = Counters(cached: nat, invalid: nat, disabled: nat, pruned: nat, overLimit: nat)

  datatype LoadError = CacheReloadFailed

  /** BlueprintProcessor: the cached blueprints, their groups, and the queue it submits work to. */
  class BlueprintProcessor {
    const partition: Option<PartitionConfig>
    const maxCacheSize: Option<nat>
    const hash: Hash
    const configHash: ConfigHash
    var cache: seq<Cached>
    var groups: map<nat, Group>
    var outbox: seq<Work>

    constructor (partition: Option<PartitionConfig>, maxCacheSize: Option<nat>, hash: Hash, configHash: ConfigHash)
      ensures this.partition == partition && this.maxCacheSize == maxCacheSize
      ensures this.hash == hash && this.configHash == configHash
      ensures cache == [] && Indexes(groups, cache, configHash) && outbox == []
    {
      this.partition, this.maxCacheSize, this.hash, this.configHash := partition, maxCacheSize, hash, configHash;
      cache, groups, outbox := [], map[], [];
    }

    // listing is the answer of list_blueprints; None is a storage error.
    method LoadBlueprintsCache(listing: Option<seq<Stored>>) returns (r: Result<Counters, LoadError>)
      modifies this`cache, this`groups
      ensures r.Ok? <==> listing.Some? && AllReadable(listing.value)
      ensures r.Err? ==> cache == old(cache) && groups == old(groups)
      ensures r.Ok? ==>
        && cache == Limit(Cacheable(listing.value, partition, hash), maxCacheSize)
        && cache <= Cacheable(listing.value, partition, hash)
        && |cache| == (if maxCacheSize.Some? && maxCacheSize.value < |Cacheable(listing.value, partition, hash)|
                       then maxCacheSize.value else |Cacheable(listing.value, partition, hash)|)
        && Indexes(groups, cache, configHash)
        && r.value == CountersOf(listing.value, partition, hash, maxCacheSize)
    {
      if listing.None? {
        return Err(CacheReloadFailed);
      }
      var scan := Scan(listing.value, partition, hash);
      if scan.None? {
        return Err(CacheReloadFailed);
      }
      var (found, counters) := scan.value;
      if maxCacheSize.Some? && |found| > maxCacheSize.value {
        counters := counters.(overLimit := |found| - maxCacheSize.value);
        found := found[..maxCacheSize.value];
      }
      var grouped := BuildGroups(found, configHash);
      cache, groups := found, grouped;
      r := Ok(counters);
    }

    method HandleCommit(e: BlueprintEvent, throttle: Throttle, logic: Logic)
      requires Indexes(groups, cache, configHash) && e.CommitEvent?
      modifies this`outbox
      ensures old(outbox) <= outbox
      ensures multiset(outbox[|old(outbox)|..])
           == ByGroup(cache, groups.Keys, groups, Setting(configHash, throttle, logic, CommitData(e)))
      ensures forall w :: w in outbox[|old(outbox)|..] ==>
        Describes(w.payload, e) && throttle(w.blueprint) == Some(false)
        && exists c :: c in cache && c.blueprint.aturi == w.blueprint
    {
      var queued := SubmitGroups(groups, cache, Setting(configHash, throttle, logic, CommitData(e)));
      outbox := outbox + queued;
      assert outbox[|old(outbox)|..] == queued;
      forall w | w in queued
        ensures Describes(w.payload, e) && throttle(w.blueprint) == Some(false)
        ensures exists c :: c in cache && c.blueprint.aturi == w.blueprint
      {
        assert w in multiset(queued);
        ByGroupSubmits(cache, groups.Keys, groups, Setting(configHash, throttle, logic, CommitData(e)), w);
        DescribesIff(w.payload, e);
      }
    }
  }

  // The loop over the groups. The order is unknown; what is submitted does not depend on it.
  method SubmitGroups(groups: map<nat, Group>, ghost cache: seq<Cached>, at: Setting) returns (queued: seq<Work>)
    requires Indexes(groups, cache, at.configHash)
    ensures multiset(queued) == ByGroup(cache, groups.Keys, groups, at)
  {
    var todo := groups.Keys;
    ghost var done: set<nat> := {};
    queued := [];
    NoneVisited(cache, groups, at);
    while todo != {}
      invariant todo <= groups.Keys && done == groups.Keys - todo
      invariant multiset(queued) == ByGroup(cache, done, groups, at)
      decreases |todo|
    {
      var key :| key in todo;
      var more := HandleGroup(groups[key], at);
      OneMoreGroup(cache, done, key, groups, at);
      queued := queued + more;
      done := done + {key};
      todo := todo - {key};
    }
    assert done == groups.Keys;
  }

  // The pass over the stored blueprints; None when the nodes of an enabled one cannot be read.
  method Scan(all: seq<Stored>, partition: Option<PartitionConfig>, hash: Hash)
    returns (r: Option<(seq<Cached>, Counters)>)
    ensures r.Some? <==> AllReadable(all)
    ensures r.Some? ==>
      r.value == (Cacheable(all, partition, hash), CountersOf(all, partition, hash, None))
  {
    var found: seq<Cached> := [];
    var kept, invalid, disabled, pruned := 0, 0, 0, 0;
    for i := 0 to |all|
      invariant AllReadable(all[..i])
      invariant found == Cacheable(all[..i], partition, hash) && kept == |found|
      invariant invalid == Count(all[..i], Invalid, partition, hash)
      invariant disabled == Count(all[..i], Disabled, partition, hash)
      invariant pruned == Count(all[..i], Pruned, partition, hash)
    {
      assert all[..i + 1][..i] == all[..i];
      assert all[i] in all;
      var blueprint := all[i].blueprint;
      if !blueprint.enabled {
        disabled := disabled + 1;
      } else if all[i].nodes.None? {
        return None;
      } else if !IsValid(blueprint, all[i].nodes.value) {
        invalid := invalid + 1;
      } else {
        var first := all[i].nodes.value[0];
        if first.nodeType == JETSTREAM_ENTRY {
          if CouldMatch(partition, first.configuration, hash) {
            found := found + [Cached(blueprint, first)];
            kept := kept + 1;
          } else {
            pruned := pruned + 1;
          }
        }
      }
    }
    assert all[..|all|] == all;
    r := Some((found, Counters(kept, invalid, disabled, pruned, 0)));
  }

  method BuildGroups(found: seq<Cached>, configHash: ConfigHash) returns (groups: map<nat, Group>)
    ensures Indexes(groups, found, configHash)
  {
    groups := map[];
    for i := 0 to |found|
      invariant Indexes(groups, found[..i], configHash)
    {
      AddKeepsIndex(groups, found[..i], found[i], configHash);
      assert found[..i + 1] == found[..i] + [found[i]];
      groups := AddToGroup(groups, found[i], configHash);
    }
    assert found[..|found|] == found;
  }

  // What one group submits: nothing, or one item for each member that is not throttled.
  method HandleGroup(group: Group, at: Setting) returns (queued: seq<Work>)
    ensures multiset(queued) == FromGroup(group.entryNode, group.members, at)
  {
    match FactoryEvaluate(group.entryNode, at.data, at.logic)
    case Ok(Some(Bool(false))) => queued := [];
    case Ok(Some(_)) => queued := SubmitMembers(group.members, at);
    case Ok(None) => queued := [];
    case Err(_) => queued := [];
  }

  method SubmitMembers(members: seq<Cached>, at: Setting) returns (queued: seq<Work>)
    ensures multiset(queued) == SubmitAll(members, at)
  {
    queued := [];
    for i := 0 to |members|
      invariant multiset(queued) == SubmitAll(members[..i], at)
    {
      assert members[..i + 1][..i] == members[..i];
      var aturi := members[i].blueprint.aturi;
      if at.throttle(aturi) == Some(false) {
        queued := queued + [Work(aturi, at.data)];
      }
    }
    assert members[..|members|] == members;
  }

  function CountersOf(all: seq<Stored>, partition: Option<PartitionConfig>, hash: Hash, maxSize: Option<nat>): Counters
    requires AllReadable(all)
  {
    var kept := |Cacheable(all, partition, hash)|;
    Counters(kept, Count(all, Invalid, partition, hash), Count(all, Disabled, partition, hash),
             Count(all, Pruned, partition, hash),
             if maxSize.Some? && kept > maxSize.value then kept - maxSize.value else 0)
  }

  // The counters count the blueprints that are kept, disabled, malformed, and eligible but pruned.
  lemma CountersMean(all: seq<Stored>, partition: Option<PartitionConfig>, hash: Hash, maxSize: Option<nat>)
    requires AllReadable(all)
    ensures var c := CountersOf(all, partition, hash, maxSize);
      && c.cached == |Cacheable(all, partition, hash)|
      && c.disabled == |set i | 0 <= i < |all| && !all[i].blueprint.enabled|
      && c.invalid == |set i | 0 <= i < |all| && IsMalformed(all[i])|
      && c.pruned == |set i | 0 <= i < |all| && IsUnmatched(all[i], partition, hash)|
  {
    CountIsNumber(all, Disabled, partition, hash);
    CountIsNumber(all, Invalid, partition, hash);
    CountIsNumber(all, Pruned, partition, hash);
    forall i | 0 <= i < |all|
      ensures FateOf(all[i], partition, hash) == Disabled <==> !all[i].blueprint.enabled
      ensures FateOf(all[i], partition, hash) == Invalid <==> IsMalformed(all[i])
      ensures FateOf(all[i], partition, hash) == Pruned <==> IsUnmatched(all[i], partition, hash)
    {
      EligibleIff(all[i], partition, hash);
    }
    assert WithFate(all, Disabled, partition, hash) == set i | 0 <= i < |all| && !all[i].blueprint.enabled;
    assert WithFate(all, Invalid, partition, hash) == set i | 0 <= i < |all| && IsMalformed(all[i]);
    assert WithFate(all, Pruned, partition, hash) == set i | 0 <= i < |all| && IsUnmatched(all[i], partition, hash);
  }

  predicate IsMalformed(s: Stored) {
    s.blueprint.enabled && s.nodes.Some? && !WellFormed(s.blueprint.nodeOrder, s.nodes.value)
  }

  predicate IsUnmatched(s: Stored, partition: Option<PartitionConfig>, hash: Hash) {
    Eligible(s) && !CouldMatch(partition, s.nodes.value[0].configuration, hash)
  }

  // The counters and the blueprints with another entry type account for every stored blueprint, and the
  // cache holds what was counted less what the size limit cut off.
  lemma {:induction false} CountersAccountForAll(all: seq<Stored>, partition: Option<PartitionConfig>, hash: Hash,
                                                 maxSize: Option<nat>)
    requires AllReadable(all)
    ensures var c := CountersOf(all, partition, hash, maxSize);
      && c.cached + c.invalid + c.disabled + c.pruned + Count(all, NotJetstream, partition, hash) == |all|
      && |Limit(Cacheable(all, partition, hash), maxSize)| + c.overLimit == c.cached
  {
    if all != [] {
      CountersAccountForAll(all[..|all| - 1], partition, hash, maxSize);
    }
  }
}
