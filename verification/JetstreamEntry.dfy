// The entry node that filters commit events (src/engine/node_type_jetstream_entry.rs).

module JetstreamEntry {
  import opened Options
  import opened Json

  datatype Node = Node(aturi: string, nodeType: string, payload: Json, configuration: Json)

  datatype EvalError = InvalidFieldType | InvalidConfiguration | LogicFailed | NoEvaluator

  // The expression evaluator: a value, or None for an error.
  type Logic = (Json, Json) -> Option<Json>

  // A filter is a string or an array; anything else is an error.
  function Allowed(filter: Json): Option<seq<string>> {
    match filter
    case Str(s) => Some([s])
    case Arr(items) => Some(Strings(items))
    case _ => None
  }

  function CommitCollection(input: Json): Option<string> {
    var commit := Get(input, "commit");
    if commit.None? then None else AsStr(Get(commit.value, "collection"))
  }

  function MatchesFilters(config: Json, input: Json): Result<bool, EvalError> {
    var didFilter, collectionFilter := Get(config, "did"), Get(config, "collection");
    if didFilter.Some? && Allowed(didFilter.value).None? then Err(InvalidFieldType)
    else if didFilter.Some? && !OneOf(AsStr(Get(input, "did")), Allowed(didFilter.value).value) then Ok(false)
    else if collectionFilter.Some? && Allowed(collectionFilter.value).None? then Err(InvalidConfiguration)
    else if collectionFilter.Some? && !OneOf(CommitCollection(input), Allowed(collectionFilter.value).value)
    then Ok(false)
    else Ok(true)
  }

  predicate OneOf(x: Option<string>, allowed: seq<string>) {
    x.Some? && x.value in allowed
  }

  // The payload's verdict on an input that passed the filters: true, false or an error.
  function Verdict(payload: Json, input: Json, logic: Logic): Result<bool, EvalError> {
    match payload
    case Bool(b) => Ok(b)
    case Obj(_) =>
      var result := logic(payload, input);
      if result.None? || !result.value.Bool? then Err(LogicFailed) else Ok(result.value.b)
    case _ => Err(InvalidFieldType)
  }

  // Ok(Some(input)) lets the event through, Ok(None) stops it.
  function Evaluate(node: Node, input: Json, logic: Logic): Result<Option<Json>, EvalError> {
    match MatchesFilters(node.configuration, input)
    case Err(e) => Err(e)
    case Ok(false) => Ok(None)
    case Ok(true) =>
      match Verdict(node.payload, input, logic)
      case Err(e) => Err(e)
      case Ok(b) => Ok(if b then Some(input) else None)
  }

  predicate Accepts(node: Node, input: Json, logic: Logic) {
    Evaluate(node, input, logic).Ok? && Evaluate(node, input, logic).value.Some?
  }

  // A filter that is absent, or a value it names as a string or as an element.
  predicate Names(filter: Option<Json>, x: Option<string>) {
    filter.None?
    || (x.Some? && (filter == Some(Str(x.value)) || (filter.value.Arr? && Str(x.value) in filter.value.items)))
  }

  predicate Malformed(filter: Option<Json>) {
    filter.Some? && !filter.value.Str? && !filter.value.Arr?
  }

  // An input passes exactly when both filters name it; a malformed collection filter is an error only for
  // inputs that the author filter lets through.
  lemma FiltersDecide(config: Json, input: Json)
    ensures MatchesFilters(config, input) == Ok(true) <==>
      Names(Get(config, "did"), AsStr(Get(input, "did"))) && Names(Get(config, "collection"), CommitCollection(input))
    ensures MatchesFilters(config, input).Err? <==>
      Malformed(Get(config, "did"))
      || (Names(Get(config, "did"), AsStr(Get(input, "did"))) && Malformed(Get(config, "collection")))
  {
  }

  // The node lets an input through, unchanged, exactly when both filters name it and the payload is true or an
  // expression that is. It errs exactly on a malformed filter, and for inputs that pass the filters on a payload
  // that is neither a boolean nor an object, and on an expression that fails or is not a boolean.
  lemma EvaluateDecides(node: Node, input: Json, logic: Logic)
    ensures var named := Names(Get(node.configuration, "did"), AsStr(Get(input, "did")))
                      && Names(Get(node.configuration, "collection"), CommitCollection(input));
      var asked := if node.payload.Obj? then logic(node.payload, input) else None;
      && (forall v :: Evaluate(node, input, logic) == Ok(Some(v)) <==>
            v == input && named && (node.payload == Bool(true) || asked == Some(Bool(true))))
      && (Evaluate(node, input, logic).Err? <==>
            || Malformed(Get(node.configuration, "did"))
            || (Names(Get(node.configuration, "did"), AsStr(Get(input, "did")))
                && Malformed(Get(node.configuration, "collection")))
            || (named && !node.payload.Bool? && !(asked.Some? && asked.value.Bool?)))
  {
    FiltersDecide(node.configuration, input);
  }

  // ---------------------------------------------------------------- when two payloads are interchangeable

  // A payload that is neither true nor an expression never lets an event through.
  datatype Gate = Open | Shut | Ask(expression: Json)

  function GateOf(payload: Json): Gate {
    match payload
    case Bool(b) => if b then Open else Shut
    case Obj(_) => Ask(payload)
    case _ => Shut
  }

  // With the same configuration, two nodes let the same events through under every evaluator exactly when
  // no event passes the filters or the payloads are the same gate.
  lemma InterchangeableIff(a: Node, b: Node)
    requires a.configuration == b.configuration
    ensures (forall input, logic :: Accepts(a, input, logic) <==> Accepts(b, input, logic))
       <==> GateOf(a.payload) == GateOf(b.payload) || forall input :: MatchesFilters(a.configuration, input) != Ok(true)
  {
    if GateOf(a.payload) != GateOf(b.payload) && exists input :: MatchesFilters(a.configuration, input) == Ok(true) {
      var input :| MatchesFilters(a.configuration, input) == Ok(true);
      var logic := Telling(a.payload, b.payload);
      TellingTells(a.payload, b.payload, input);
      assert Accepts(a, input, logic) <==> Opens(a.payload, input, logic);
      assert Accepts(b, input, logic) <==> Opens(b.payload, input, logic);
      assert Accepts(a, input, logic) != Accepts(b, input, logic);
    } else {
      forall input: Json, logic: Logic
        ensures Accepts(a, input, logic) <==> Accepts(b, input, logic)
      {
        if MatchesFilters(a.configuration, input) == Ok(true) {
          assert Accepts(a, input, logic) <==> Opens(a.payload, input, logic);
          assert Accepts(b, input, logic) <==> Opens(b.payload, input, logic);
        }
      }
    }
  }

  predicate Opens(payload: Json, input: Json, logic: Logic) {
    match GateOf(payload)
    case Open => true
    case Shut => false
    case Ask(e) => logic(e, input) == Some(Bool(true))
  }

  // An evaluator that says true to one of two different expressions only.
  function Telling(a: Json, b: Json): Logic {
    (e: Json, input: Json) =>
      Some(Bool((GateOf(a).Ask? && !GateOf(b).Open? && e == a) || (GateOf(a).Shut? && e == b)))
  }

  lemma TellingTells(a: Json, b: Json, input: Json)
    requires GateOf(a) != GateOf(b)
    ensures Opens(a, input, Telling(a, b)) != Opens(b, input, Telling(a, b))
  {
  }

  // ---------------------------------------------------------------- filters that some event can pass

  // Some value among allowed (any value, when that is empty) is named by the filter.
  predicate Admits(filter: Option<Json>, allowed: seq<string>) {
    match filter
    case None => true
    case Some(Str(s)) => allowed == [] || s in allowed
    case Some(Arr(items)) => exists x :: x in Strings(items) && (allowed == [] || x in allowed)
    case _ => false
  }

  // Some event with one of the collections can pass the filters.
  predicate LetsThrough(config: Json, collections: seq<string>) {
    Admits(Get(config, "did"), []) && Admits(Get(config, "collection"), collections)
  }

  lemma AdmitsSome(filter: Option<Json>, allowed: seq<string>) returns (x: string)
    requires Admits(filter, allowed)
    ensures (allowed == [] || x in allowed) && Names(filter, Some(x))
  {
    match filter
    case None => x := if allowed == [] then "" else allowed[0];
    case Some(Str(s)) => x := s;
    case Some(Arr(items)) => x :| x in Strings(items) && (allowed == [] || x in allowed);
  }

  lemma NamedIsAdmitted(filter: Option<Json>, allowed: seq<string>, x: string)
    requires (allowed == [] || x in allowed) && Names(filter, Some(x))
    ensures Admits(filter, allowed)
  {
    if filter.Some? && filter.value.Arr? {
      assert x in Strings(filter.value.items);
    }
  }
}
