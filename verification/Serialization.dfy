// The compact form of a blueprint (src/serialization.rs).

module Serialization {
  import Arith
  import opened Options

  const AT := "at://"
  const DID := "did:"
  const DID_PLC := "did:plc:"
  const DID_WEB := "did:web:"

  // A moment: whole seconds since the epoch, rounded down, and the rest.
  datatype Timestamp = Timestamp(seconds: int, nanos: nat)

  datatype Blueprint = Blueprint(aturi: string, did: string, nodeOrder: seq<string>, enabled: bool,
                                 error: Option<string>, createdAt: Timestamp)

  datatype CompactBlueprint = CompactBlueprint(aturiSuffix: string, didSuffix: string, nodeOrder: string,
                                               enabled: bool, error: Option<string>, createdAt: nat)

  function StripAturi(aturi: string): string {
    if AT <= aturi then aturi[|AT|..] else aturi
  }

  function RestoreAturi(suffix: string): string {
    if AT <= suffix then suffix else AT + suffix
  }

  function StripDid(did: string): string {
    if DID_PLC <= did then "p:" + did[|DID_PLC|..]
    else if DID_WEB <= did then "w:" + did[|DID_WEB|..]
    else did
  }

  function RestoreDid(suffix: string): string {
    if "p:" <= suffix then DID_PLC + suffix[2..]
    else if "w:" <= suffix then DID_WEB + suffix[2..]
    else if DID <= suffix then suffix
    else DID_PLC + suffix
  }

  function Join(parts: seq<string>): string {
    if parts == [] then ""
    else if |parts| == 1 then parts[0]
    else parts[0] + "," + Join(parts[1..])
  }

  // The pieces between commas; a string without commas is one piece, even when empty.
  function Split(s: string): (parts: seq<string>)
    ensures |parts| > 0
  {
    if s == "" then [""]
    else if s[0] == ',' then [""] + Split(s[1..])
    else
      var rest := Split(s[1..]);
      [[s[0]] + rest[0]] + rest[1..]
  }

  function FromBlueprint(b: Blueprint): CompactBlueprint {
    CompactBlueprint(StripAturi(b.aturi), StripDid(b.did), Join(b.nodeOrder), b.enabled, b.error,
                     Arith.AsU64(b.createdAt.seconds))
  }

  function ToBlueprint(c: CompactBlueprint): Blueprint {
    Blueprint(RestoreAturi(c.aturiSuffix), RestoreDid(c.didSuffix),
              if c.nodeOrder == "" then [] else Split(c.nodeOrder), c.enabled, c.error,
              Timestamp(Arith.AsI64(c.createdAt), 0))
  }

  // ---------------------------------------------------------------- what is stored

  // Of the two common kinds of DID the compact form keeps one letter, of others all; an AT-URI loses its prefix.
  lemma CompactFormIs(b: Blueprint, rest: string)
    ensures b.did == "did:plc:" + rest ==> FromBlueprint(b).didSuffix == "p:" + rest
    ensures b.did == "did:web:" + rest ==> FromBlueprint(b).didSuffix == "w:" + rest
    ensures !("did:plc:" <= b.did) && !("did:web:" <= b.did) ==> FromBlueprint(b).didSuffix == b.did
    ensures b.aturi == "at://" + rest ==> FromBlueprint(b).aturiSuffix == rest
    ensures !("at://" <= b.aturi) ==> FromBlueprint(b).aturiSuffix == b.aturi
  {
    if b.did == "did:web:" + rest {
      assert b.did[4] == 'w' && DID_PLC[4] == 'p';
    }
  }

  // The node order is stored as its elements with a comma between each two.
  lemma {:induction false} JoinedIs(parts: seq<string>, more: seq<string>)
    requires parts != [] && more != []
    ensures Join(parts + more) == Join(parts) + "," + Join(more)
  {
    if |parts| == 1 {
      assert (parts + more)[1..] == more;
    } else {
      assert (parts + more)[1..] == parts[1..] + more;
      JoinedIs(parts[1..], more);
    }
  }

  // ---------------------------------------------------------------- the prefixes

  lemma AturiSurvivesIff(aturi: string)
    ensures RestoreAturi(StripAturi(aturi)) == aturi <==> AT <= aturi && !(AT <= aturi[|AT|..])
  {
    if AT <= aturi {
      assert aturi == AT + aturi[|AT|..];
      if AT <= aturi[|AT|..] {
        assert |RestoreAturi(StripAturi(aturi))| < |aturi|;
      }
    } else {
      assert |RestoreAturi(StripAturi(aturi))| > |aturi|;
    }
  }

  lemma DidSurvivesIff(did: string)
    ensures RestoreDid(StripDid(did)) == did <==> DID <= did
  {
    if DID_PLC <= did {
      assert did == DID_PLC + did[|DID_PLC|..];
      assert DID == DID_PLC[..4];
      assert ("p:" + did[|DID_PLC|..])[2..] == did[|DID_PLC|..];
    } else if DID_WEB <= did {
      assert did == DID_WEB + did[|DID_WEB|..];
      assert DID == DID_WEB[..4];
      assert ("w:" + did[|DID_WEB|..])[2..] == did[|DID_WEB|..];
      assert ("w:" + did[|DID_WEB|..])[0] == 'w' && "p:"[0] == 'p';
    } else if DID <= did {
      assert did[0] == 'd';
    } else {
      RestoredDid(StripDid(did));
    }
  }

  // Whatever is restored is a DID.
  lemma RestoredDid(suffix: string)
    ensures DID <= RestoreDid(suffix)
  {
    assert DID == DID_PLC[..4] && DID == DID_WEB[..4];
  }

  // ---------------------------------------------------------------- the node order

  predicate NoComma(s: string) {
    forall i :: 0 <= i < |s| ==> s[i] != ','
  }

  lemma {:induction false} SplitWord(word: string)
    requires NoComma(word)
    ensures Split(word) == [word]
  {
    if word != "" {
      SplitWord(word[1..]);
      assert word == [word[0]] + word[1..];
    }
  }

  lemma {:induction false} SplitAtComma(word: string, rest: string)
    requires NoComma(word)
    ensures Split(word + "," + rest) == [word] + Split(rest)
  {
    if word == "" {
      assert (word + "," + rest)[1..] == rest;
    } else {
      assert (word + "," + rest)[1..] == word[1..] + "," + rest;
      SplitAtComma(word[1..], rest);
      assert word == [word[0]] + word[1..];
      assert ([word[1..]] + Split(rest))[1..] == Split(rest);
    }
  }

  lemma {:induction false} SplitUndoesJoin(parts: seq<string>)
    requires parts != [] && forall p :: p in parts ==> NoComma(p)
    ensures Split(Join(parts)) == parts
  {
    if |parts| == 1 {
      SplitWord(parts[0]);
    } else {
      SplitUndoesJoin(parts[1..]);
      SplitAtComma(parts[0], Join(parts[1..]));
    }
  }

  lemma {:induction false} SplitHasNoComma(s: string)
    ensures forall p :: p in Split(s) ==> NoComma(p)
  {
    if s != "" {
      SplitHasNoComma(s[1..]);
      if s[0] != ',' {
        var rest := Split(s[1..]);
        assert rest[0] in rest;
        assert Split(s) == [[s[0]] + rest[0]] + rest[1..];
      }
    }
  }

  function RestoredOrder(order: seq<string>): seq<string> {
    if Join(order) == "" then [] else Split(Join(order))
  }

  // A node order survives exactly when no element contains a comma and it is not the single empty string.
  lemma NodeOrderSurvivesIff(order: seq<string>)
    ensures RestoredOrder(order) == order <==> (forall p :: p in order ==> NoComma(p)) && order != [""]
  {
    if order != [] {
      if (forall p :: p in order ==> NoComma(p)) && order != [""] {
        SplitUndoesJoin(order);
        if |order| > 1 {
          assert Join(order) == order[0] + "," + Join(order[1..]);
        }
      } else if RestoredOrder(order) == order {
        SplitHasNoComma(Join(order));
      }
    }
  }

  // ---------------------------------------------------------------- the round trip

  lemma SecondsSurvive(seconds: int)
    requires -(Arith.U64 / 2) <= seconds < Arith.U64 / 2
    ensures Arith.AsI64(Arith.AsU64(seconds)) == seconds
  {
  }

  // What the compact form can express: a DID, an AT-URI with one prefix, and a node order that can be told
  // from its commas.
  predicate Expressible(b: Blueprint) {
    && DID <= b.did
    && AT <= b.aturi && !(AT <= b.aturi[|AT|..])
    && (forall p :: p in b.nodeOrder ==> NoComma(p)) && b.nodeOrder != [""]
  }

  // The blueprint with its time cut to whole seconds.
  function Truncated(b: Blueprint): Blueprint {
    b.(createdAt := Timestamp(b.createdAt.seconds, 0))
  }

  // Compacting and restoring gives the truncated blueprint back exactly when it is expressible.
  lemma RoundTripIff(b: Blueprint)
    requires -(Arith.U64 / 2) <= b.createdAt.seconds < Arith.U64 / 2
    ensures ToBlueprint(FromBlueprint(b)) == Truncated(b) <==> Expressible(b)
  {
    AturiSurvivesIff(b.aturi);
    DidSurvivesIff(b.did);
    NodeOrderSurvivesIff(b.nodeOrder);
    SecondsSurvive(b.createdAt.seconds);
  }

  // Different expressible blueprints have different compact forms, up to the second.
  lemma CompactIsFaithful(a: Blueprint, b: Blueprint)
    requires -(Arith.U64 / 2) <= a.createdAt.seconds < Arith.U64 / 2
    requires -(Arith.U64 / 2) <= b.createdAt.seconds < Arith.U64 / 2
    requires Expressible(a) && Expressible(b)
    ensures FromBlueprint(a) == FromBlueprint(b) <==> Truncated(a) == Truncated(b)
  {
    RoundTripIff(a);
    RoundTripIff(b);
  }
}
