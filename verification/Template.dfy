// Template evaluation (src/engine/common.rs).
//
// The expression evaluator is a parameter: given an expression and the data it yields a value, or None
// when it reports an error.

module Template {
  import opened Options
  import opened Json

  type Evaluator = (Json, Json) -> Option<Json>

  const OPERATORS: set<string> := {
    "val", "var", "==", "!=", "<", ">", "<=", ">=", "===", "!==", "+", "-", "*", "/", "%", "and", "or",
    "not", "!!", "if", "cat", "in", "contains", "map", "filter", "reduce", "all", "some", "none", "merge",
    "missing", "missing_some", "now", "datetime", "metrohash", "facet_text", "parse_aturi"}

  predicate ReadsOrCompares(k: string) {
    k in {"val", "var"} || k in {"==", "!=", "<", ">", "<=", ">=", "===", "!=="}
  }

  predicate Calculates(k: string) {
    k in {"+", "-", "*", "/", "%"} || k in {"and", "or", "not", "!!"} || k == "if"
  }

  predicate HandlesTextOrLists(k: string) {
    k in {"cat", "in", "contains", "merge"} || k in {"map", "filter", "reduce", "all", "some", "none"}
  }

  predicate ChecksOrCustom(k: string) {
    k in {"missing", "missing_some", "now", "datetime"} || k in {"metrohash", "facet_text", "parse_aturi"}
  }

  predicate IsOperatorName(k: string) {
    ReadsOrCompares(k) || Calculates(k) || HandlesTextOrLists(k) || ChecksOrCustom(k)
  }

  lemma OperatorNames(k: string)
    ensures k in OPERATORS <==> IsOperatorName(k)
  {
  }

  // Which objects are tried as expressions: those with one key that reads or compares, calculates, handles texts
  // or lists, checks, tells the time, or is one of the three of the service's own.
  lemma TriedIff(t: Json)
    ensures LooksLikeOperator(t) <==> exists k, v :: t == Obj(map[k := v]) && IsOperatorName(k)
  {
    if LooksLikeOperator(t) {
      var k :| k in t.fields && k in OPERATORS;
      OperatorNames(k);
      OnlyKey(t.fields, k);
      assert t.fields == map[k := t.fields[k]];
    }
    if k, v :| t == Obj(map[k := v]) && IsOperatorName(k) {
      OperatorNames(k);
      assert k in t.fields && |t.fields.Keys| == 1;
    }
  }

  lemma OnlyKey(fields: map<string, Json>, k: string)
    requires |fields| == 1 && k in fields
    ensures fields.Keys == {k}
  {
    assert fields.Keys == {k} + (fields.Keys - {k});
    assert |fields.Keys - {k}| == 0;
  }

  // An object whose only key is an operator name.
  predicate LooksLikeOperator(t: Json) {
    t.Obj? && |t.fields| == 1 && exists k :: k in t.fields && k in OPERATORS
  }

  // What evaluating t as an expression yields, when t is tried at all.
  function Accepted(t: Json, data: Json, eval: Evaluator): Option<Json> {
    if LooksLikeOperator(t) then eval(t, data) else None
  }

  function Process(t: Json, data: Json, eval: Evaluator): Json {
    var attempt := Accepted(t, data, eval);
    if attempt.Some? then attempt.value
    else
      match t
      case Obj(fields) => Obj(map k | k in fields :: Process(fields[k], data, eval))
      case Arr(items) => Arr(seq(|items|, i requires 0 <= i < |items| => Process(items[i], data, eval)))
      case _ => t
  }

  // ---------------------------------------------------------------- positions in a value

  datatype Segment = Key(key: string) | Index(index: nat)

  function Child(v: Json, seg: Segment): Option<Json> {
    match seg
    case Key(k) => Get(v, k)
    case Index(i) => if v.Arr? && i < |v.items| then Some(v.items[i]) else None
  }

  function Lookup(v: Json, path: seq<Segment>): Option<Json> {
    if path == [] then Some(v)
    else
      var child := Child(v, path[0]);
      if child.None? then None else Lookup(child.value, path[1..])
  }

  // No subexpression strictly above the position is evaluated.
  ghost predicate Exposed(t: Json, path: seq<Segment>, data: Json, eval: Evaluator) {
    forall n :: 0 <= n < |path| && Lookup(t, path[..n]).Some? ==> Accepted(Lookup(t, path[..n]).value, data, eval).None?
  }

  // What stands at the same position before and after: the evaluator's answer for the untouched
  // subexpression, or a node of the same kind with the same keys, length or literal.
  ghost predicate Corresponds(t: Json, out: Json, data: Json, eval: Evaluator) {
    var attempt := Accepted(t, data, eval);
    if attempt.Some? then out == attempt.value
    else
      match t
      case Obj(fields) => out.Obj? && out.fields.Keys == fields.Keys
      case Arr(items) => out.Arr? && |out.items| == |items|
      case _ => out == t
  }

  lemma ExposedBelow(t: Json, path: seq<Segment>, data: Json, eval: Evaluator)
    requires path != [] && Child(t, path[0]).Some? && Exposed(t, path, data, eval)
    ensures Accepted(t, data, eval).None?
    ensures Exposed(Child(t, path[0]).value, path[1..], data, eval)
  {
    assert path[..0] == [] && Lookup(t, path[..0]) == Some(t);
    var child := Child(t, path[0]).value;
    forall n | 0 <= n < |path[1..]| && Lookup(child, path[1..][..n]).Some?
      ensures Accepted(Lookup(child, path[1..][..n]).value, data, eval).None?
    {
      assert path[..n + 1][1..] == path[1..][..n];
      assert Lookup(t, path[..n + 1]) == Lookup(child, path[1..][..n]);
    }
  }

  // At every position that is not inside an evaluated expression, template and result correspond, and
  // neither has a position there that the other lacks.
  lemma {:induction false} ProcessByPosition(t: Json, path: seq<Segment>, data: Json, eval: Evaluator)
    requires Exposed(t, path, data, eval)
    ensures Lookup(t, path).Some? <==> Lookup(Process(t, data, eval), path).Some?
    ensures Lookup(t, path).Some? ==>
      Corresponds(Lookup(t, path).value, Lookup(Process(t, data, eval), path).value, data, eval)
    decreases |path|
  {
    var out := Process(t, data, eval);
    if path != [] {
      assert path[..0] == [] && Lookup(t, path[..0]) == Some(t);
      assert Child(t, path[0]).Some? <==> Child(out, path[0]).Some?;
      if Child(t, path[0]).Some? {
        var child := Child(t, path[0]).value;
        ExposedBelow(t, path, data, eval);
        assert Child(out, path[0]).value == Process(child, data, eval);
        ProcessByPosition(child, path[1..], data, eval);
      }
    }
  }

  // Template and result correspond wherever the template has an exposed position.
  ghost predicate CorrespondsThroughout(t: Json, out: Json, data: Json, eval: Evaluator) {
    forall path :: Exposed(t, path, data, eval) && Lookup(t, path).Some? ==>
      Lookup(out, path).Some? && Corresponds(Lookup(t, path).value, Lookup(out, path).value, data, eval)
  }

  // Positions and what corresponds there leave no freedom: Process is the only such transformation.
  lemma {:induction false} CorrespondenceIsUnique(t: Json, out: Json, data: Json, eval: Evaluator)
    requires CorrespondsThroughout(t, out, data, eval)
    ensures out == Process(t, data, eval)
    decreases t
  {
    var here: seq<Segment> := [];
    assert Exposed(t, here, data, eval) && Lookup(t, here) == Some(t) && Lookup(out, here) == Some(out);
    if Accepted(t, data, eval).None? {
      match t
      case Obj(fields) =>
        forall k | k in fields
          ensures out.fields[k] == Process(fields[k], data, eval)
        {
          InheritBelow(t, out, Key(k), data, eval);
          CorrespondenceIsUnique(fields[k], out.fields[k], data, eval);
        }
        RebuiltObject(t, out, data, eval);
      case Arr(items) =>
        forall i | 0 <= i < |items|
          ensures out.items[i] == Process(items[i], data, eval)
        {
          InheritBelow(t, out, Index(i), data, eval);
          CorrespondenceIsUnique(items[i], out.items[i], data, eval);
        }
        RebuiltArray(t, out, data, eval);
      case _ =>
    }
  }

  lemma RebuiltObject(t: Json, out: Json, data: Json, eval: Evaluator)
    requires Accepted(t, data, eval).None? && t.Obj? && out.Obj? && out.fields.Keys == t.fields.Keys
    requires forall k :: k in t.fields ==> out.fields[k] == Process(t.fields[k], data, eval)
    ensures out == Process(t, data, eval)
  {
    assert out.fields == (map k | k in t.fields :: Process(t.fields[k], data, eval));
  }

  lemma RebuiltArray(t: Json, out: Json, data: Json, eval: Evaluator)
    requires Accepted(t, data, eval).None? && t.Arr? && out.Arr? && |out.items| == |t.items|
    requires forall i :: 0 <= i < |t.items| ==> out.items[i] == Process(t.items[i], data, eval)
    ensures out == Process(t, data, eval)
  {
  }

  lemma InheritBelow(t: Json, out: Json, seg: Segment, data: Json, eval: Evaluator)
    requires Accepted(t, data, eval).None?
    requires Child(t, seg).Some? && Child(out, seg).Some?
    requires CorrespondsThroughout(t, out, data, eval)
    ensures CorrespondsThroughout(Child(t, seg).value, Child(out, seg).value, data, eval)
  {
    var child := Child(t, seg).value;
    forall path | Exposed(child, path, data, eval) && Lookup(child, path).Some?
      ensures Lookup(Child(out, seg).value, path).Some?
      ensures Corresponds(Lookup(child, path).value, Lookup(Child(out, seg).value, path).value, data, eval)
    {
      var full := [seg] + path;
      assert full[1..] == path;
      forall n | 0 <= n < |full| && Lookup(t, full[..n]).Some?
        ensures Accepted(Lookup(t, full[..n]).value, data, eval).None?
      {
        if n > 0 {
          assert full[..n][1..] == path[..n - 1];
          assert Lookup(t, full[..n]) == Lookup(child, path[..n - 1]);
        }
      }
      assert Exposed(t, full, data, eval);
      assert Lookup(t, full) == Lookup(child, path);
      assert Lookup(out, full) == Lookup(Child(out, seg).value, path);
    }
  }

  // A template comes back unchanged exactly when every expression that is evaluated evaluates to itself;
  // in particular when the evaluator rejects them all, or there are none.
  lemma UnchangedIff(t: Json, data: Json, eval: Evaluator)
    ensures Process(t, data, eval) == t <==>
      forall path :: Exposed(t, path, data, eval) && Lookup(t, path).Some? ==>
        Accepted(Lookup(t, path).value, data, eval) in {None, Some(Lookup(t, path).value)}
  {
    if Process(t, data, eval) == t {
      forall path | Exposed(t, path, data, eval) && Lookup(t, path).Some?
        ensures Accepted(Lookup(t, path).value, data, eval) in {None, Some(Lookup(t, path).value)}
      {
        ProcessByPosition(t, path, data, eval);
      }
    } else if forall path :: Exposed(t, path, data, eval) && Lookup(t, path).Some? ==>
        Accepted(Lookup(t, path).value, data, eval) in {None, Some(Lookup(t, path).value)} {
      CorrespondenceIsUnique(t, t, data, eval);
    }
  }

  // ---------------------------------------------------------------- the code's own form

  // process_template_recursive: objects are rebuilt key by key, arrays item by item.
  method ProcessTemplate(t: Json, data: Json, eval: Evaluator) returns (r: Json)
    ensures r == Process(t, data, eval)
    decreases t, 1
  {
    if LooksLikeOperator(t) {
      var attempt := eval(t, data);
      if attempt.Some? {
        return attempt.value;
      }
    }
    match t
    case Obj(_) => r := ProcessObject(t, data, eval);
    case Arr(_) => r := ProcessArray(t, data, eval);
    case _ => r := t;
  }

  method ProcessObject(t: Json, data: Json, eval: Evaluator) returns (r: Json)
    requires t.Obj? && Accepted(t, data, eval).None?
    ensures r == Process(t, data, eval)
    decreases t, 0
  {
    var todo := t.fields.Keys;
    var result: map<string, Json> := map[];
    while todo != {}
      invariant todo <= t.fields.Keys && result.Keys == t.fields.Keys - todo
      invariant forall k :: k in result ==> result[k] == Process(t.fields[k], data, eval)
      decreases |todo|
    {
      var key :| key in todo;
      var processed := ProcessTemplate(t.fields[key], data, eval);
      result := result[key := processed];
      todo := todo - {key};
    }
    r := Obj(result);
    RebuiltObject(t, r, data, eval);
  }

  method ProcessArray(t: Json, data: Json, eval: Evaluator) returns (r: Json)
    requires t.Arr?
    ensures r == Process(t, data, eval)
    decreases t, 0
  {
    var processed: seq<Json> := [];
    for i := 0 to |t.items|
      invariant |processed| == i
      invariant forall j :: 0 <= j < i ==> processed[j] == Process(t.items[j], data, eval)
    {
      var item := ProcessTemplate(t.items[i], data, eval);
      processed := processed + [item];
    }
    r := Arr(processed);
  }

  const ROTATION_THRESHOLD := 10000

  // A cached evaluator instance, numbered by creation, with the uses it has served.
  datatype Slot = Slot(instance: nat, uses: nat)

  /** The thread-local cache of with_cached_datalogic. */
  class InstanceCache {
    var slot: Option<Slot>
    var created: nat

    constructor ()
      ensures slot == None && created == 0
    {
      slot, created := None, 0;
    }

    // Returns the instance that serves this use.
    method Use() returns (instance: nat)
      modifies this
      ensures (slot, created) == AfterUse(old(slot), old(created)) && slot == Some(Slot(instance, slot.value.uses))
    {
      if slot.None? || slot.value.uses >= ROTATION_THRESHOLD {
        slot := Some(Slot(created, 0));
        created := created + 1;
      }
      slot := Some(slot.value.(uses := slot.value.uses + 1));
      instance := slot.value.instance;
    }

    // The first n uses of a thread: number k, from 0, is served by instance k / 10000.
    method UseTimes(n: nat) returns (served: seq<nat>)
      requires slot == None && created == 0
      modifies this
      ensures (slot, created) == AfterUses(n)
      ensures |served| == n && forall k :: 0 <= k < n ==> served[k] == k / ROTATION_THRESHOLD
    {
      served := [];
      for i := 0 to n
        invariant (slot, created) == AfterUses(i) && |served| == i
        invariant forall k :: 0 <= k < i ==> served[k] == k / ROTATION_THRESHOLD
      {
        var instance := Use();
        UsesPerInstance(i + 1);
        served := served + [instance];
      }
    }
  }

  function AfterUse(slot: Option<Slot>, created: nat): (Option<Slot>, nat) {
    if slot.None? || slot.value.uses >= ROTATION_THRESHOLD then (Some(Slot(created, 1)), created + 1)
    else (Some(slot.value.(uses := slot.value.uses + 1)), created)
  }

  function AfterUses(n: nat): (Option<Slot>, nat) {
    if n == 0 then (None, 0) else AfterUse(AfterUses(n - 1).0, AfterUses(n - 1).1)
  }

  // Use number n (from 1) is served by instance (n - 1) / 10000: each instance serves exactly that many
  // uses before the next one is created, and none serves more.
  lemma {:induction false} UsesPerInstance(n: nat)
    requires n > 0
    ensures AfterUses(n) == (Some(Slot((n - 1) / ROTATION_THRESHOLD, (n - 1) % ROTATION_THRESHOLD + 1)),
                             (n - 1) / ROTATION_THRESHOLD + 1)
  {
    if n > 1 {
      UsesPerInstance(n - 1);
    }
  }
}
