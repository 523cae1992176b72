// Identity resolution through a bounded memory cache and a store of documents (src/identity_cache.rs).

module IdentityCache {
  import Arith
  import opened Options

  datatype Document = Document(id: string, body: string)

  // The resolver behind the cache; None is a failure.
  type Base = string -> Option<Document>

  type Lowercase = string -> string

  datatype Entry = Entry(key: string, document: Document, cachedAt: int)

  // Most recently used first.
  type Lru = seq<Entry>

  function Normalize(subject: string, lower: Lowercase): string {
    if "did:" <= subject then subject else lower(subject)
  }

  predicate Expired(e: Entry, now: int, ttl: int) {
    now - e.cachedAt > ttl
  }

  // ---------------------------------------------------------------- the memory cache

  predicate DistinctKeys(lru: Lru) {
    forall i, j :: 0 <= i < j < |lru| ==> lru[i].key != lru[j].key
  }

  function Find(lru: Lru, key: string): Option<Entry> {
    if lru == [] then None else if lru[0].key == key then Some(lru[0]) else Find(lru[1..], key)
  }

  function Pop(lru: Lru, key: string): Lru {
    if lru == [] then [] else if lru[0].key == key then lru[1..] else [lru[0]] + Pop(lru[1..], key)
  }

  // A found entry becomes the most recent one.
  function Touch(lru: Lru, e: Entry): Lru {
    [e] + Pop(lru, e.key)
  }

  function Put(lru: Lru, e: Entry, capacity: nat): Lru
    requires capacity > 0
  {
    var rest := Pop(lru, e.key);
    [e] + (if |rest| >= capacity then rest[..capacity - 1] else rest)
  }

  lemma {:induction false} FindMeans(lru: Lru, key: string)
    ensures Find(lru, key).Some? ==> Find(lru, key).value in lru && Find(lru, key).value.key == key
    ensures Find(lru, key).None? ==> forall e :: e in lru ==> e.key != key
  {
    if lru != [] {
      FindMeans(lru[1..], key);
    }
  }

  lemma {:induction false} PopRemoves(lru: Lru, key: string)
    requires DistinctKeys(lru)
    ensures DistinctKeys(Pop(lru, key))
    ensures forall e :: e in Pop(lru, key) <==> e in lru && e.key != key
    ensures |Pop(lru, key)| == |lru| - (if Find(lru, key).Some? then 1 else 0)
  {
    if lru != [] {
      assert lru == [lru[0]] + lru[1..];
      if lru[0].key == key {
        forall e | e in lru[1..]
          ensures e.key != key
        {
          var i :| 0 <= i < |lru[1..]| && lru[1..][i] == e;
          assert lru[i + 1].key != lru[0].key;
        }
      } else {
        PopRemoves(lru[1..], key);
        var rest := Pop(lru[1..], key);
        forall i | 0 <= i < |rest|
          ensures rest[i].key != lru[0].key
        {
          assert rest[i] in lru[1..];
        }
      }
    }
  }

  // ---------------------------------------------------------------- one resolution

  datatype Config = Config(capacity: nat, ttl: int, base: Base, lower: Lowercase)

  datatype State = State(memory: Lru, stored: map<string, Document>)

  // A call with its two clock readings, and whether the store answers its read and its write.
  datatype Request = Request(subject: string, lookupAt: int, putAt: int, readable: bool, writable: bool)

  datatype Source = Memory | Store | Resolver

  function Lookup(c: Config, lru: Lru, key: string, now: int): (Lru, Option<Document>) {
    var e := Find(lru, key);
    if e.None? then (lru, None)
    else if Expired(e.value, now, c.ttl) then (Pop(lru, key), None)
    else (Touch(lru, e.value), Some(e.value.document))
  }

  function Resolved(c: Config, s: State, q: Request): (State, Option<Document>, Source)
    requires c.capacity > 0
  {
    var key := Normalize(q.subject, c.lower);
    var (memory, hit) := Lookup(c, s.memory, key, q.lookupAt);
    if hit.Some? then (s.(memory := memory), hit, Memory)
    else if q.readable && key in s.stored then
      var d := s.stored[key];
      (s.(memory := Put(memory, Entry(key, d, q.putAt), c.capacity)), Some(d), Store)
    else
      var d := c.base(q.subject);
      if d.None? then (s.(memory := memory), None, Resolver)
      else
        (State(Put(memory, Entry(key, d.value, q.putAt), c.capacity),
               if q.writable then s.stored[d.value.id := d.value] else s.stored), d, Resolver)
  }

  predicate Fits(c: Config, s: State) {
    c.capacity > 0 && |s.memory| <= c.capacity && DistinctKeys(s.memory)
  }

  // Both caches hold what the resolver would answer.
  ghost predicate Agrees(c: Config, s: State) {
    && (forall e :: e in s.memory ==> c.base(e.key) == Some(e.document))
    && (forall key :: key in s.stored ==> c.base(key) == Some(s.stored[key]))
  }

  // The resolver does not distinguish a handle's case, and a document's own identifier resolves to it.
  ghost predicate Respectful(c: Config) {
    && (forall subject :: c.base(Normalize(subject, c.lower)) == c.base(subject))
    && (forall subject :: c.base(subject).Some? ==> c.base(c.base(subject).value.id) == c.base(subject))
  }

  lemma LookupFits(c: Config, lru: Lru, key: string, now: int)
    requires DistinctKeys(lru)
    ensures var (after, hit) := Lookup(c, lru, key, now);
      && DistinctKeys(after) && |after| <= |lru|
      && (forall e :: e in after ==> e in lru)
      && (hit.Some? ==> exists e :: e in lru && e.key == key && e.document == hit.value && now - e.cachedAt <= c.ttl)
  {
    FindMeans(lru, key);
    PopRemoves(lru, key);
    var after := Pop(lru, key);
    forall i | 0 <= i < |after|
      ensures after[i].key != key
    {
      assert after[i] in after;
    }
  }

  lemma PutFits(lru: Lru, e: Entry, capacity: nat)
    requires DistinctKeys(lru) && 0 < capacity
    ensures DistinctKeys(Put(lru, e, capacity)) && (|lru| <= capacity ==> |Put(lru, e, capacity)| <= capacity)
    ensures e in Put(lru, e, capacity)
    ensures forall x :: x in Put(lru, e, capacity) ==> x == e || x in lru
  {
    PopRemoves(lru, e.key);
    var rest := Pop(lru, e.key);
    forall i | 0 <= i < |rest|
      ensures rest[i].key != e.key && rest[i] in lru
    {
      assert rest[i] in rest;
    }
  }

  // One resolution answers what the resolver would, keeps both caches in agreement with it, and keeps
  // the memory within its capacity; an answer from memory is no older than the time to live.
  lemma ResolvedAgrees(c: Config, s: State, q: Request)
    requires Fits(c, s)
    ensures Fits(c, Resolved(c, s, q).0)
    ensures Respectful(c) && Agrees(c, s) ==> Agrees(c, Resolved(c, s, q).0) && Resolved(c, s, q).1 == c.base(q.subject)
    ensures Resolved(c, s, q).2.Memory? ==>
      exists e :: e in s.memory && e.key == Normalize(q.subject, c.lower)
               && Resolved(c, s, q).1 == Some(e.document) && q.lookupAt - e.cachedAt <= c.ttl
  {
    var key := Normalize(q.subject, c.lower);
    var (memory, hit) := Lookup(c, s.memory, key, q.lookupAt);
    LookupFits(c, s.memory, key, q.lookupAt);
    if hit.None? {
      if q.readable && key in s.stored {
        PutFits(memory, Entry(key, s.stored[key], q.putAt), c.capacity);
      } else if c.base(q.subject).Some? {
        PutFits(memory, Entry(key, c.base(q.subject).value, q.putAt), c.capacity);
      }
    }
  }

  // The caches as request k finds them, when they were empty at first.
  function Before(c: Config, requests: seq<Request>, k: nat): State
    requires c.capacity > 0 && k <= |requests|
  {
    if k == 0 then State([], map[]) else Resolved(c, Before(c, requests, k - 1), requests[k - 1]).0
  }

  // After any requests with any store failures, every further request is answered as the resolver alone would
  // answer it, failures included.
  lemma {:induction false} CacheIsTransparent(c: Config, requests: seq<Request>, k: nat, q: Request)
    requires Respectful(c) && c.capacity > 0 && k <= |requests|
    ensures var s := Before(c, requests, k);
      Fits(c, s) && Agrees(c, s) && Resolved(c, s, q).1 == c.base(q.subject)
    decreases k
  {
    if k > 0 {
      CacheIsTransparent(c, requests, k - 1, requests[k - 1]);
      ResolvedAgrees(c, Before(c, requests, k - 1), requests[k - 1]);
    }
    ResolvedAgrees(c, Before(c, requests, k), q);
  }

  // ---------------------------------------------------------------- when memory answers

  // Both are the same DID, or neither is a DID and they are the same but for case.
  predicate Alike(c: Config, a: string, b: string) {
    if "did:" <= a || "did:" <= b then a == b else c.lower(a) == c.lower(b)
  }

  function KeyOf(c: Config, q: Request): string {
    Normalize(q.subject, c.lower)
  }

  lemma AlikeShareKeys(c: Config, a: string, b: string)
    ensures Alike(c, a, b) ==> Normalize(a, c.lower) == Normalize(b, c.lower)
    ensures "did:" <= a && "did:" <= b && a != b ==> Normalize(a, c.lower) != Normalize(b, c.lower)
  {
  }

  // The caches before each request and after the last, when they were empty at first.
  ghost predicate IsRun(c: Config, requests: seq<Request>, tr: seq<State>)
    requires c.capacity > 0
  {
    && |tr| == |requests| + 1
    && tr[0] == State([], map[])
    && forall k :: 0 <= k < |requests| ==> Leads(c, tr[k], requests[k], tr[k + 1])
  }

  predicate Leads(c: Config, s: State, q: Request, s': State)
    requires c.capacity > 0
  {
    s' == Resolved(c, s, q).0
  }

  predicate FromMemory(c: Config, s: State, q: Request)
    requires c.capacity > 0
  {
    Resolved(c, s, q).2.Memory?
  }

  function AnswerTo(c: Config, s: State, q: Request): Option<Document>
    requires c.capacity > 0
  {
    Resolved(c, s, q).1
  }

  // The keys other than key of the requests answered from m on, up to k.
  function Others(c: Config, requests: seq<Request>, tr: seq<State>, key: string, m: nat, k: nat): set<string>
    requires c.capacity > 0 && k <= |requests| && |tr| == |requests| + 1
  {
    if k <= m then {}
    else
      var q := requests[k - 1];
      Others(c, requests, tr, key, m, k - 1)
      + (if AnswerTo(c, tr[k - 1], q).Some? && KeyOf(c, q) != key then {KeyOf(c, q)} else {})
  }

  lemma {:induction false} FitsAlongRun(c: Config, requests: seq<Request>, tr: seq<State>, k: nat)
    requires c.capacity > 0 && IsRun(c, requests, tr) && k < |tr|
    ensures Fits(c, tr[k])
  {
    if k > 0 {
      FitsAlongRun(c, requests, tr, k - 1);
      assert Leads(c, tr[k - 1], requests[k - 1], tr[k]);
      ResolvedAgrees(c, tr[k - 1], requests[k - 1]);
    }
  }

  // The keys that were used since.
  function Ahead(lru: Lru, key: string): set<string> {
    if lru == [] || lru[0].key == key then {} else {lru[0].key} + Ahead(lru[1..], key)
  }

  lemma {:induction false} AheadAfterPop(lru: Lru, other: string, key: string)
    requires DistinctKeys(lru) && key != other
    ensures Ahead(Pop(lru, other), key) <= Ahead(lru, key) - {other}
  {
    if lru != [] {
      PopRemoves(lru[1..], other);
      if lru[0].key == other {
        forall x | x in Ahead(lru[1..], key)
          ensures x != other
        {
          AheadIsPart(lru[1..], key, x);
        }
      } else if lru[0].key != key {
        AheadAfterPop(lru[1..], other, key);
        assert Pop(lru, other)[1..] == Pop(lru[1..], other);
      }
    }
  }

  lemma {:induction false} AheadIsPart(lru: Lru, key: string, x: string)
    requires x in Ahead(lru, key)
    ensures exists i :: 0 <= i < |lru| && lru[i].key == x
  {
    if lru[0].key != x {
      AheadIsPart(lru[1..], key, x);
      var i :| 0 <= i < |lru[1..]| && lru[1..][i].key == x;
      assert lru[i + 1].key == x;
    }
  }

  lemma FirstIsApart(lru: Lru)
    requires lru != [] && DistinctKeys(lru)
    ensures DistinctKeys(lru[1..]) && forall e :: e in lru[1..] ==> e.key != lru[0].key
  {
    forall i, j | 0 <= i < j < |lru[1..]|
      ensures lru[1..][i].key != lru[1..][j].key
    {
      assert lru[1..][i] == lru[i + 1] && lru[1..][j] == lru[j + 1];
    }
    forall e | e in lru[1..]
      ensures e.key != lru[0].key
    {
      var i :| 0 <= i < |lru[1..]| && lru[1..][i] == e;
      assert lru[i + 1] == e;
    }
  }

  lemma CutBehindFirst(first: Entry, rest: Lru, n: nat)
    requires 0 < n <= |rest| + 1
    ensures ([first] + rest)[..n] == [first] + rest[..n - 1]
  {
  }

  // An entry with few keys ahead of it survives the cut.
  lemma {:induction false} CutKeeps(lru: Lru, e: Entry, n: nat)
    requires DistinctKeys(lru) && e in lru && |Ahead(lru, e.key)| < n <= |lru|
    ensures e in lru[..n] && Ahead(lru[..n], e.key) == Ahead(lru, e.key)
  {
    var first, rest := lru[0], lru[1..];
    assert lru == [first] + rest;
    FirstIsApart(lru);
    CutBehindFirst(first, rest, n);
    if first.key != e.key {
      InFront(rest, e, first);
      if first.key in Ahead(rest, e.key) {
        AheadIsPart(rest, e.key, first.key);
      }
      CutKeeps(rest, e, n - 1);
      InFront(rest[..n - 1], e, first);
    }
  }

  // The entry is in memory, the only one with its key, and only these keys were used since.
  ghost predicate Kept(lru: Lru, e: Entry, used: set<string>) {
    e in lru && Ahead(lru, e.key) <= used
  }

  lemma PutKeeps(lru: Lru, e: Entry, other: Entry, used: set<string>, capacity: nat)
    requires DistinctKeys(lru) && Kept(lru, e, used) && other.key != e.key
    requires |used + {other.key}| < capacity
    ensures Kept(Put(lru, other, capacity), e, used + {other.key})
  {
    var rest := Pop(lru, other.key);
    PopRemoves(lru, other.key);
    AheadAfterPop(lru, other.key, e.key);
    CutKeepsAll(rest, e, other, used, capacity);
    InFront(if |rest| >= capacity then rest[..capacity - 1] else rest, e, other);
  }

  lemma CutKeepsAll(rest: Lru, e: Entry, other: Entry, used: set<string>, capacity: nat)
    requires DistinctKeys(rest) && e in rest && Ahead(rest, e.key) <= used - {other.key}
    requires |used + {other.key}| < capacity
    ensures var cut := if |rest| >= capacity then rest[..capacity - 1] else rest;
      e in cut && Ahead(cut, e.key) <= used
  {
    Arith.SubsetIsNoLarger(Ahead(rest, e.key) + {other.key}, used + {other.key});
    if |rest| >= capacity {
      CutKeeps(rest, e, capacity - 1);
    }
  }

  lemma InFront(lru: Lru, e: Entry, other: Entry)
    requires e in lru && other.key != e.key
    ensures e in [other] + lru && Ahead([other] + lru, e.key) == {other.key} + Ahead(lru, e.key)
  {
    assert ([other] + lru)[1..] == lru;
  }

  // A request for another key leaves it there.
  lemma OtherRequestKeeps(c: Config, s: State, q: Request, e: Entry, used: set<string>)
    requires Fits(c, s) && Kept(s.memory, e, used) && KeyOf(c, q) != e.key
    requires |used + {KeyOf(c, q)}| < c.capacity
    ensures var (s', answer, _) := Resolved(c, s, q);
      Kept(s'.memory, e, if answer.Some? then used + {KeyOf(c, q)} else used)
  {
    var key := KeyOf(c, q);
    var (memory, hit) := Lookup(c, s.memory, key, q.lookupAt);
    PopRemoves(s.memory, key);
    AheadAfterPop(s.memory, key, e.key);
    FindMeans(s.memory, key);
    LookupFits(c, s.memory, key, q.lookupAt);
    if hit.Some? {
      assert memory[1..] == Pop(s.memory, key);
    } else {
      assert Kept(memory, e, used);
      if Resolved(c, s, q).1.Some? {
        PutKeeps(memory, e, Entry(key, Resolved(c, s, q).1.value, q.putAt), used, c.capacity);
      }
    }
  }

  lemma PutAnswer(c: Config, s: State, q: Request, x: Entry)
    requires Fits(c, s) && Resolved(c, s, q).1.Some? && !Resolved(c, s, q).2.Memory?
    requires x in Resolved(c, s, q).0.memory && x.key == KeyOf(c, q)
    ensures x == Entry(KeyOf(c, q), Resolved(c, s, q).1.value, q.putAt)
  {
    var (memory, hit) := Lookup(c, s.memory, KeyOf(c, q), q.lookupAt);
    LookupFits(c, s.memory, KeyOf(c, q), q.lookupAt);
    PutReplaces(memory, Entry(KeyOf(c, q), Resolved(c, s, q).1.value, q.putAt), c.capacity);
  }

  // What memory holds for a key is what was put there last.
  lemma {:induction false} HeldSince(c: Config, requests: seq<Request>, tr: seq<State>, i: nat, n: nat, x: Entry)
    requires c.capacity > 0 && IsRun(c, requests, tr) && i < n <= |requests|
    requires AnswerTo(c, tr[i], requests[i]).Some? && !FromMemory(c, tr[i], requests[i])
    requires forall j :: i < j < n && KeyOf(c, requests[j]) == KeyOf(c, requests[i]) ==>
               FromMemory(c, tr[j], requests[j])
    requires x in tr[n].memory && x.key == KeyOf(c, requests[i])
    ensures x == Entry(KeyOf(c, requests[i]), AnswerTo(c, tr[i], requests[i]).value, requests[i].putAt)
    decreases n
  {
    FitsAlongRun(c, requests, tr, n - 1);
    assert Leads(c, tr[n - 1], requests[n - 1], tr[n]);
    if n == i + 1 {
      PutAnswer(c, tr[i], requests[i], x);
    } else {
      OnlyOwnEntry(c, tr[n - 1], requests[n - 1], x);
      HeldSince(c, requests, tr, i, n - 1, x);
    }
  }

  // A request brings no new entry into memory but one for its own key, and a memory hit brings none at all.
  lemma OnlyOwnEntry(c: Config, s: State, q: Request, x: Entry)
    requires Fits(c, s) && x in Resolved(c, s, q).0.memory
    requires x.key != KeyOf(c, q) || Resolved(c, s, q).2.Memory?
    ensures x in s.memory
  {
    var key := KeyOf(c, q);
    var (memory, hit) := Lookup(c, s.memory, key, q.lookupAt);
    LookupFits(c, s.memory, key, q.lookupAt);
    if hit.None? && Resolved(c, s, q).1.Some? {
      PutFits(memory, Entry(key, Resolved(c, s, q).1.value, q.putAt), c.capacity);
    }
  }

  // An answered request leaves its entry in front.
  lemma AnsweredIsInFront(c: Config, s: State, q: Request)
    requires Fits(c, s) && Resolved(c, s, q).1.Some?
    ensures var lru := Resolved(c, s, q).0.memory; lru != [] && lru[0].key == KeyOf(c, q)
  {
    FindMeans(s.memory, KeyOf(c, q));
  }

  lemma KeptAtFirst(c: Config, s: State, q: Request, e: Entry)
    requires Fits(c, s) && Resolved(c, s, q).1.Some? && KeyOf(c, q) == e.key && e in Resolved(c, s, q).0.memory
    ensures Kept(Resolved(c, s, q).0.memory, e, {})
  {
    AnsweredIsInFront(c, s, q);
  }

  lemma {:induction false} KeptSince(c: Config, requests: seq<Request>, tr: seq<State>, m: nat, n: nat, e: Entry)
    requires c.capacity > 0 && IsRun(c, requests, tr) && m < n <= |requests|
    requires AnswerTo(c, tr[m], requests[m]).Some? && KeyOf(c, requests[m]) == e.key && e in tr[m + 1].memory
    requires forall j :: m < j < n ==> KeyOf(c, requests[j]) != e.key
    requires |Others(c, requests, tr, e.key, m, n)| < c.capacity
    ensures Kept(tr[n].memory, e, Others(c, requests, tr, e.key, m, n))
    decreases n
  {
    FitsAlongRun(c, requests, tr, n - 1);
    assert Leads(c, tr[n - 1], requests[n - 1], tr[n]);
    if n == m + 1 {
      KeptAtFirst(c, tr[m], requests[m], e);
    } else {
      var used := Others(c, requests, tr, e.key, m, n - 1);
      Arith.SubsetIsNoLarger(used, Others(c, requests, tr, e.key, m, n));
      KeptSince(c, requests, tr, m, n - 1, e);
      OtherRequestKeepsOrSkips(c, tr[n - 1], requests[n - 1], e, used);
    }
  }

  // The same when the request is not answered, whatever the number of keys.
  lemma OtherRequestKeepsOrSkips(c: Config, s: State, q: Request, e: Entry, used: set<string>)
    requires Fits(c, s) && Kept(s.memory, e, used) && KeyOf(c, q) != e.key
    requires Resolved(c, s, q).1.Some? ==> |used + {KeyOf(c, q)}| < c.capacity
    ensures var (s', answer, _) := Resolved(c, s, q);
      Kept(s'.memory, e, if answer.Some? then used + {KeyOf(c, q)} else used)
  {
    if Resolved(c, s, q).1.Some? {
      OtherRequestKeeps(c, s, q, e, used);
    } else {
      PopRemoves(s.memory, KeyOf(c, q));
      AheadAfterPop(s.memory, KeyOf(c, q), e.key);
    }
  }

  lemma FoundIfKept(c: Config, s: State, q: Request, e: Entry)
    requires Fits(c, s) && e in s.memory && KeyOf(c, q) == e.key && q.lookupAt - e.cachedAt <= c.ttl
    ensures Resolved(c, s, q).2.Memory? && Resolved(c, s, q).1 == Some(e.document)
  {
    FindMeans(s.memory, e.key);
  }

  // Memory answers request k if the resolver or the store answered request i for the same subject at most the
  // time to live before, memory has answered for that subject since, and fewer than capacity others were
  // answered since the last of those requests, m.
  lemma MemoryAnswers(c: Config, requests: seq<Request>, tr: seq<State>, i: nat, m: nat, k: nat)
    requires c.capacity > 0 && IsRun(c, requests, tr) && i <= m < k < |requests|
    requires Alike(c, requests[i].subject, requests[k].subject) && Alike(c, requests[m].subject, requests[k].subject)
    requires AnswerTo(c, tr[i], requests[i]).Some? && !FromMemory(c, tr[i], requests[i])
    requires forall j :: i < j < k && KeyOf(c, requests[j]) == KeyOf(c, requests[k]) ==>
               FromMemory(c, tr[j], requests[j]) && j <= m
    requires requests[k].lookupAt - requests[i].putAt <= c.ttl
    requires |Others(c, requests, tr, KeyOf(c, requests[k]), m, k)| < c.capacity
    ensures FromMemory(c, tr[k], requests[k])
    ensures AnswerTo(c, tr[k], requests[k]) == AnswerTo(c, tr[i], requests[i])
  {
    AlikeShareKeys(c, requests[i].subject, requests[k].subject);
    AlikeShareKeys(c, requests[m].subject, requests[k].subject);
    var e := EntryOf(c, requests, tr, i, m);
    KeptSince(c, requests, tr, m, k, e);
    FitsAlongRun(c, requests, tr, k);
    FoundIfKept(c, tr[k], requests[k], e);
  }

  lemma EntryOf(c: Config, requests: seq<Request>, tr: seq<State>, i: nat, m: nat) returns (e: Entry)
    requires c.capacity > 0 && IsRun(c, requests, tr) && i <= m < |requests|
    requires KeyOf(c, requests[m]) == KeyOf(c, requests[i])
    requires AnswerTo(c, tr[i], requests[i]).Some? && !FromMemory(c, tr[i], requests[i])
    requires forall j :: i < j <= m && KeyOf(c, requests[j]) == KeyOf(c, requests[i]) ==>
               FromMemory(c, tr[j], requests[j])
    ensures e in tr[m + 1].memory && AnswerTo(c, tr[m], requests[m]).Some?
    ensures e == Entry(KeyOf(c, requests[i]), AnswerTo(c, tr[i], requests[i]).value, requests[i].putAt)
  {
    FitsAlongRun(c, requests, tr, m);
    AnsweredIsInFront(c, tr[m], requests[m]);
    assert Leads(c, tr[m], requests[m], tr[m + 1]);
    e := tr[m + 1].memory[0];
    HeldSince(c, requests, tr, i, m + 1, e);
  }

  // ---------------------------------------------------------------- how old an answer can be

  // When the resolver gave the documents that are in memory and in the store.
  datatype Stamps = Stamps(memory: map<string, int>, stored: map<string, int>)

  function At(stamps: map<string, int>, key: string): int {
    if key in stamps then stamps[key] else 0
  }

  function Restamped(c: Config, s: State, q: Request, t: Stamps): Stamps
    requires c.capacity > 0
  {
    var key := Normalize(q.subject, c.lower);
    match Resolved(c, s, q)
    case (_, _, Memory) => t
    case (_, _, Store) => t.(memory := t.memory[key := At(t.stored, key)])
    case (_, None, Resolver) => t
    case (_, Some(d), Resolver) =>
      Stamps(t.memory[key := q.putAt], if q.writable then t.stored[d.id := q.putAt] else t.stored)
  }

  function StampsBefore(c: Config, requests: seq<Request>, k: nat): Stamps
    requires c.capacity > 0 && k <= |requests|
  {
    if k == 0 then Stamps(map[], map[])
    else Restamped(c, Before(c, requests, k - 1), requests[k - 1], StampsBefore(c, requests, k - 1))
  }

  // A cached answer is fresh if the resolver gave it at most the time to live before it was asked for.
  predicate Fresh(c: Config, s: State, t: Stamps, q: Request)
    requires c.capacity > 0
  {
    var key := Normalize(q.subject, c.lower);
    match Resolved(c, s, q).2
    case Memory => q.lookupAt - At(t.memory, key) <= c.ttl
    case Store => q.lookupAt - At(t.stored, key) <= c.ttl
    case Resolver => true
  }

  ghost predicate AllFresh(c: Config, requests: seq<Request>)
    requires c.capacity > 0
  {
    forall k :: 0 <= k < |requests| ==>
      Fresh(c, Before(c, requests, k), StampsBefore(c, requests, k), requests[k])
  }

  // A request without its clock readings.
  datatype Ask = Ask(subject: string, readable: bool, writable: bool)

  function AskOf(q: Request): Ask {
    Ask(q.subject, q.readable, q.writable)
  }

  // The requests make these calls one after the other.
  ghost predicate Times(requests: seq<Request>, asks: seq<Ask>) {
    && |requests| == |asks|
    && (forall k :: 0 <= k < |asks| ==> AskOf(requests[k]) == asks[k] && requests[k].lookupAt <= requests[k].putAt)
    && (forall i, k :: 0 <= i < k < |asks| ==> requests[i].putAt <= requests[k].lookupAt)
  }

  // Call k can read from the store the document that call i could have written there.
  predicate Feeds(c: Config, asks: seq<Ask>, i: nat, k: nat) {
    && i < k < |asks| && asks[i].writable && asks[k].readable && c.base(asks[i].subject).Some?
    && c.base(asks[i].subject).value.id == Normalize(asks[k].subject, c.lower)
  }

  lemma {:induction false} FitsBefore(c: Config, requests: seq<Request>, n: nat)
    requires c.capacity > 0 && n <= |requests|
    ensures Fits(c, Before(c, requests, n))
  {
    if n > 0 {
      FitsBefore(c, requests, n - 1);
      ResolvedAgrees(c, Before(c, requests, n - 1), requests[n - 1]);
    }
  }

  lemma OnlyOwnDocument(c: Config, s: State, q: Request, key: string)
    requires c.capacity > 0 && key in Resolved(c, s, q).0.stored && key !in s.stored
    ensures q.writable && c.base(q.subject).Some? && c.base(q.subject).value.id == key
  {
  }

  // What is stored was written by an earlier call.
  lemma {:induction false} WrittenBy(c: Config, requests: seq<Request>, n: nat, key: string) returns (i: nat)
    requires c.capacity > 0 && n <= |requests| && key in Before(c, requests, n).stored
    ensures i < n <= |requests| && requests[i].writable && c.base(requests[i].subject).Some?
    ensures c.base(requests[i].subject).value.id == key
  {
    if key in Before(c, requests, n - 1).stored {
      i := WrittenBy(c, requests, n - 1, key);
    } else {
      OnlyOwnDocument(c, Before(c, requests, n - 1), requests[n - 1], key);
      i := n - 1;
    }
  }

  // What stands in memory was put there when the resolver gave it.
  ghost predicate Dated(s: State, t: Stamps) {
    forall e :: e in s.memory ==> At(t.memory, e.key) == e.cachedAt
  }

  lemma StaysDated(c: Config, s: State, t: Stamps, q: Request)
    requires Fits(c, s) && Dated(s, t) && !Resolved(c, s, q).2.Store?
    ensures Dated(Resolved(c, s, q).0, Restamped(c, s, q, t))
  {
    var key := Normalize(q.subject, c.lower);
    var (memory, hit) := Lookup(c, s.memory, key, q.lookupAt);
    LookupFits(c, s.memory, key, q.lookupAt);
    if hit.None? && c.base(q.subject).Some? {
      PutFits(memory, Entry(key, c.base(q.subject).value, q.putAt), c.capacity);
      PutReplaces(memory, Entry(key, c.base(q.subject).value, q.putAt), c.capacity);
    }
  }

  lemma PutReplaces(lru: Lru, e: Entry, capacity: nat)
    requires DistinctKeys(lru) && 0 < capacity
    ensures forall x :: x in Put(lru, e, capacity) && x.key == e.key ==> x == e
  {
    PopRemoves(lru, e.key);
  }

  lemma FreshIfDated(c: Config, s: State, t: Stamps, q: Request)
    requires Fits(c, s) && Dated(s, t) && !Resolved(c, s, q).2.Store?
    ensures Fresh(c, s, t, q)
  {
    LookupFits(c, s.memory, Normalize(q.subject, c.lower), q.lookupAt);
  }

  lemma UnfedReadsNothing(c: Config, asks: seq<Ask>, requests: seq<Request>, n: nat)
    requires c.capacity > 0 && Times(requests, asks) && n < |asks|
    requires forall i: nat, k: nat :: !Feeds(c, asks, i, k)
    ensures !ReadsStore(c, requests, n)
  {
    var s, q := Before(c, requests, n), requests[n];
    if Resolved(c, s, q).2.Store? {
      var i := WrittenBy(c, requests, n, Normalize(q.subject, c.lower));
      assert AskOf(requests[i]) == asks[i] && AskOf(q) == asks[n];
      assert Feeds(c, asks, i, n);
    }
  }

  predicate ReadsStore(c: Config, requests: seq<Request>, k: nat)
    requires c.capacity > 0 && k < |requests|
  {
    Resolved(c, Before(c, requests, k), requests[k]).2.Store?
  }

  lemma OneMoreDated(c: Config, requests: seq<Request>, k: nat)
    requires c.capacity > 0 && k < |requests| && Fits(c, Before(c, requests, k)) && !ReadsStore(c, requests, k)
    requires Dated(Before(c, requests, k), StampsBefore(c, requests, k))
    ensures Dated(Before(c, requests, k + 1), StampsBefore(c, requests, k + 1))
  {
    StaysDated(c, Before(c, requests, k), StampsBefore(c, requests, k), requests[k]);
  }

  lemma {:induction false} DatedWithoutStore(c: Config, requests: seq<Request>, n: nat)
    requires c.capacity > 0 && n <= |requests|
    requires forall k :: 0 <= k < n ==> !ReadsStore(c, requests, k)
    ensures Dated(Before(c, requests, n), StampsBefore(c, requests, n))
  {
    if n > 0 {
      DatedWithoutStore(c, requests, n - 1);
      FitsBefore(c, requests, n - 1);
      OneMoreDated(c, requests, n - 1);
    }
  }

  // Clock readings so far apart that nothing is found in memory.
  predicate Apart(c: Config, requests: seq<Request>) {
    forall k :: 0 < k < |requests| ==>
      requests[k - 1].putAt + c.ttl < requests[k].lookupAt && requests[k - 1].putAt <= requests[k].putAt
  }

  ghost predicate Old(s: State, t: Stamps, limit: int) {
    && (forall e :: e in s.memory ==> e.cachedAt <= limit)
    && (forall key :: key in s.stored ==> At(t.stored, key) <= limit)
  }

  lemma AgesOnly(c: Config, s: State, t: Stamps, q: Request, limit: int)
    requires Fits(c, s) && Old(s, t, limit) && limit <= q.putAt
    ensures Old(Resolved(c, s, q).0, Restamped(c, s, q, t), q.putAt)
  {
    var key := Normalize(q.subject, c.lower);
    var (memory, hit) := Lookup(c, s.memory, key, q.lookupAt);
    LookupFits(c, s.memory, key, q.lookupAt);
    if hit.None? {
      if q.readable && key in s.stored {
        PutFits(memory, Entry(key, s.stored[key], q.putAt), c.capacity);
      } else if c.base(q.subject).Some? {
        PutFits(memory, Entry(key, c.base(q.subject).value, q.putAt), c.capacity);
      }
    }
  }

  // What is cached is as old as the last request, at least.
  lemma {:induction false} ApartIsOld(c: Config, requests: seq<Request>, n: nat)
    requires c.capacity > 0 && Apart(c, requests) && 0 < n <= |requests|
    ensures Old(Before(c, requests, n), StampsBefore(c, requests, n), requests[n - 1].putAt)
  {
    FitsBefore(c, requests, n - 1);
    if n > 1 {
      ApartIsOld(c, requests, n - 1);
      AgesOnly(c, Before(c, requests, n - 1), StampsBefore(c, requests, n - 1), requests[n - 1], requests[n - 2].putAt);
    } else {
      AgesOnly(c, State([], map[]), Stamps(map[], map[]), requests[0], requests[0].putAt);
    }
  }

  // With such readings memory never answers, and the store never answers freshly.
  lemma OldMisses(c: Config, s: State, t: Stamps, q: Request, limit: int)
    requires Fits(c, s) && Old(s, t, limit) && limit + c.ttl < q.lookupAt
    ensures !Resolved(c, s, q).2.Memory?
    ensures Resolved(c, s, q).2.Store? <==> q.readable && Normalize(q.subject, c.lower) in s.stored
    ensures Resolved(c, s, q).2.Store? ==> !Fresh(c, s, t, q)
  {
    FindMeans(s.memory, Normalize(q.subject, c.lower));
  }

  lemma ApartMisses(c: Config, requests: seq<Request>, n: nat)
    requires c.capacity > 0 && Apart(c, requests) && n < |requests|
    ensures var s, q := Before(c, requests, n), requests[n];
      && !Resolved(c, s, q).2.Memory?
      && (Resolved(c, s, q).2.Store? <==> q.readable && Normalize(q.subject, c.lower) in s.stored)
      && (Resolved(c, s, q).2.Store? ==> !Fresh(c, s, StampsBefore(c, requests, n), q))
  {
    FitsBefore(c, requests, n);
    if n > 0 {
      ApartIsOld(c, requests, n);
      OldMisses(c, Before(c, requests, n), StampsBefore(c, requests, n), requests[n], requests[n - 1].putAt);
    }
  }

  lemma WritesOwnDocument(c: Config, s: State, q: Request)
    requires c.capacity > 0 && Resolved(c, s, q).2.Resolver? && q.writable && c.base(q.subject).Some?
    ensures c.base(q.subject).value.id in Resolved(c, s, q).0.stored
  {
  }

  lemma StoredGrows(c: Config, s: State, q: Request, key: string)
    requires c.capacity > 0 && key in s.stored
    ensures key in Resolved(c, s, q).0.stored
  {
  }

  lemma {:induction false} StaysStored(c: Config, requests: seq<Request>, m: nat, n: nat, key: string)
    requires c.capacity > 0 && m <= n <= |requests| && key in Before(c, requests, m).stored
    ensures key in Before(c, requests, n).stored
  {
    if m < n {
      StaysStored(c, requests, m, n - 1, key);
      StoredGrows(c, Before(c, requests, n - 1), requests[n - 1], key);
    }
  }

  lemma FeedingShows(c: Config, asks: seq<Ask>, requests: seq<Request>, i: nat, k: nat)
    requires c.capacity > 0 && Feeds(c, asks, i, k) && Times(requests, asks) && Apart(c, requests)
    ensures !AllFresh(c, requests)
  {
    assert AskOf(requests[i]) == asks[i] && AskOf(requests[k]) == asks[k];
    ApartMisses(c, requests, i);
    ApartMisses(c, requests, k);
    if ReadsStore(c, requests, i) {
      assert !Fresh(c, Before(c, requests, i), StampsBefore(c, requests, i), requests[i]);
    } else {
      WritesOwnDocument(c, Before(c, requests, i), requests[i]);
      StaysStored(c, requests, i + 1, k, c.base(asks[i].subject).value.id);
      assert !Fresh(c, Before(c, requests, k), StampsBefore(c, requests, k), requests[k]);
    }
  }

  function Gap(c: Config): nat {
    if c.ttl < 0 then 1 else c.ttl + 1
  }

  function Spread(c: Config, asks: seq<Ask>): seq<Request> {
    seq(|asks|, k requires 0 <= k < |asks| =>
      Request(asks[k].subject, k * Gap(c), k * Gap(c), asks[k].readable, asks[k].writable))
  }

  lemma SpreadIsApart(c: Config, asks: seq<Ask>)
    ensures Times(Spread(c, asks), asks) && Apart(c, Spread(c, asks))
  {
    forall i, k | 0 <= i < k < |asks|
      ensures i * Gap(c) <= k * Gap(c)
    {
      Arith.Monotone(i, k, Gap(c));
    }
    forall k | 0 < k < |asks|
      ensures (k - 1) * Gap(c) + c.ttl < k * Gap(c)
    {
      Arith.Distribute(k, 1, Gap(c));
    }
  }

  lemma UnfedIsFresh(c: Config, asks: seq<Ask>, requests: seq<Request>)
    requires c.capacity > 0 && Times(requests, asks)
    requires forall i: nat, k: nat :: !Feeds(c, asks, i, k)
    ensures AllFresh(c, requests)
  {
    forall n | 0 <= n < |requests|
      ensures !ReadsStore(c, requests, n)
    {
      UnfedReadsNothing(c, asks, requests, n);
    }
    forall n | 0 <= n < |requests|
      ensures Fresh(c, Before(c, requests, n), StampsBefore(c, requests, n), requests[n])
    {
      FitsBefore(c, requests, n);
      DatedWithoutStore(c, requests, n);
      assert !ReadsStore(c, requests, n);
      FreshIfDated(c, Before(c, requests, n), StampsBefore(c, requests, n), requests[n]);
    }
  }

  ghost predicate AlwaysFresh(c: Config, asks: seq<Ask>)
    requires c.capacity > 0
  {
    forall requests :: Times(requests, asks) ==> AllFresh(c, requests)
  }

  // The time to live bounds the age of every cached answer, whatever the clock, exactly when no call can read
  // from the store what an earlier call could have written there.
  lemma AnswersAreFreshIff(c: Config, asks: seq<Ask>)
    requires c.capacity > 0
    ensures AlwaysFresh(c, asks) <==> forall i: nat, k: nat :: !Feeds(c, asks, i, k)
  {
    if i: nat, k: nat :| Feeds(c, asks, i, k) {
      SpreadIsApart(c, asks);
      FeedingShows(c, asks, Spread(c, asks), i, k);
    } else {
      forall requests | Times(requests, asks)
        ensures AllFresh(c, requests)
      {
        UnfedIsFresh(c, asks, requests);
      }
    }
  }

  // ---------------------------------------------------------------- interleaved calls

  // Where a call stands between the sections in which it holds the lock: before the memory lookup, before
  // the store is read, with a stored document to remember, before the resolver is asked, with a resolved
  // document to remember, with one to store, or done. The code keeps the lock through the last two, so it
  // interleaves less than this.
  datatype Phase =
    | Begun | Missed | Stored(document: Document) | Unstored | Fetched(document: Document)
    | Remembered(document: Document) | Done(answer: Option<Document>)

  datatype Call = Call(subject: string, phase: Phase)

  datatype System = System(caches: State, calls: seq<Call>)

  datatype Action = Begin(subject: string) | Proceed(i: nat, now: int, available: bool)

  // One section of one call; now is its clock reading, available whether the store answers.
  function Section(c: Config, s: State, call: Call, now: int, available: bool): (State, Phase)
    requires c.capacity > 0
  {
    var key := Normalize(call.subject, c.lower);
    match call.phase
    case Begun =>
      var (memory, hit) := Lookup(c, s.memory, key, now);
      (s.(memory := memory), if hit.Some? then Done(hit) else Missed)
    case Missed => (s, if available && key in s.stored then Stored(s.stored[key]) else Unstored)
    case Stored(d) => (s.(memory := Put(s.memory, Entry(key, d, now), c.capacity)), Done(Some(d)))
    case Unstored =>
      var d := c.base(call.subject);
      (s, if d.Some? then Fetched(d.value) else Done(None))
    case Fetched(d) => (s.(memory := Put(s.memory, Entry(key, d, now), c.capacity)), Remembered(d))
    case Remembered(d) => (if available then s.(stored := s.stored[d.id := d]) else s, Done(Some(d)))
    case Done(_) => (s, call.phase)
  }

  function Step(c: Config, s: System, a: Action): System
    requires c.capacity > 0
  {
    match a
    case Begin(subject) => s.(calls := s.calls + [Call(subject, Begun)])
    case Proceed(i, now, available) =>
      if i >= |s.calls| then s
      else
        var (caches, phase) := Section(c, s.caches, s.calls[i], now, available);
        System(caches, s.calls[i := s.calls[i].(phase := phase)])
  }

  function Steps(c: Config, actions: seq<Action>): System
    requires c.capacity > 0
  {
    if actions == [] then System(State([], map[]), [])
    else Step(c, Steps(c, actions[..|actions| - 1]), actions[|actions| - 1])
  }

  // A document in hand, and an answer given, is the resolver's.
  predicate Honest(c: Config, call: Call) {
    match call.phase
    case Stored(d) => c.base(call.subject) == Some(d)
    case Fetched(d) => c.base(call.subject) == Some(d)
    case Remembered(d) => c.base(call.subject) == Some(d)
    case Done(answer) => answer == c.base(call.subject)
    case _ => true
  }

  lemma SectionIsHonest(c: Config, s: State, call: Call, now: int, available: bool)
    requires Respectful(c) && Fits(c, s) && Agrees(c, s) && Honest(c, call)
    ensures var (s', phase) := Section(c, s, call, now, available);
      Fits(c, s') && Agrees(c, s') && Honest(c, call.(phase := phase))
  {
    var key := Normalize(call.subject, c.lower);
    assert c.base(key) == c.base(call.subject);
    match call.phase
    case Begun => LookupFits(c, s.memory, key, now);
    case Stored(d) => PutFits(s.memory, Entry(key, d, now), c.capacity);
    case Fetched(d) => PutFits(s.memory, Entry(key, d, now), c.capacity);
    case _ =>
  }

  // However calls interleave between the sections, with any clock readings and store failures, both caches
  // fit and agree with the resolver, and every finished call was answered as the resolver would.
  lemma {:induction false} InterleavedCallsAreHonest(c: Config, actions: seq<Action>)
    requires Respectful(c) && c.capacity > 0
    ensures var s := Steps(c, actions);
      Fits(c, s.caches) && Agrees(c, s.caches) && forall call :: call in s.calls ==> Honest(c, call)
  {
    if actions != [] {
      var last := |actions| - 1;
      InterleavedCallsAreHonest(c, actions[..last]);
      var s, a := Steps(c, actions[..last]), actions[last];
      if a.Proceed? && a.i < |s.calls| {
        assert s.calls[a.i] in s.calls;
        SectionIsHonest(c, s.caches, s.calls[a.i], a.now, a.available);
      }
    }
  }

  // The sections of a call that nobody interrupts.
  function Uninterrupted(c: Config, s: State, q: Request): (State, Phase)
    requires c.capacity > 0
  {
    var (s1, p1) := Section(c, s, Call(q.subject, Begun), q.lookupAt, true);
    var (s2, p2) := Section(c, s1, Call(q.subject, p1), q.lookupAt, q.readable);
    var (s3, p3) := Section(c, s2, Call(q.subject, p2), q.putAt, true);
    var (s4, p4) := Section(c, s3, Call(q.subject, p3), q.putAt, true);
    Section(c, s4, Call(q.subject, p4), q.putAt, q.writable)
  }

  lemma UninterruptedCallResolves(c: Config, s: State, q: Request)
    requires c.capacity > 0
    ensures Uninterrupted(c, s, q) == (Resolved(c, s, q).0, Done(Resolved(c, s, q).1))
  {
  }

  // ---------------------------------------------------------------- the code's own form

  /** CachingIdentityResolver. Its sections hold the lock on the memory cache; between them it is free. */
  class CachingResolver {
    const config: Config
    var memory: Lru
    var stored: map<string, Document>

    function Contents(): State
      reads this
    {
      State(memory, stored)
    }

    constructor (size: nat, ttl: int, base: Base, lower: Lowercase)
      ensures config == Config(if size < 1 then 1 else size, ttl, base, lower)
      ensures Contents() == State([], map[]) && Fits(config, Contents())
    {
      config := Config(if size < 1 then 1 else size, ttl, base, lower);
      memory, stored := [], map[];
    }

    method LookupMemory(key: string, now: int) returns (hit: Option<Document>)
      modifies this`memory
      ensures (memory, hit) == Lookup(config, old(memory), key, now)
    {
      hit := None;
      var e := Find(memory, key);
      if e.Some? {
        memory := Touch(memory, e.value);
        if !Expired(e.value, now, config.ttl) {
          return Some(e.value.document);
        }
        FindMeans(old(memory), key);
        assert memory[1..] == Pop(old(memory), key);
        memory := Pop(memory, key);
      }
    }

    method Remember(key: string, document: Document, now: int)
      requires config.capacity > 0
      modifies this`memory
      ensures memory == Put(old(memory), Entry(key, document, now), config.capacity)
    {
      memory := Pop(memory, key);
      if |memory| >= config.capacity {
        memory := memory[..config.capacity - 1];
      }
      memory := [Entry(key, document, now)] + memory;
    }

    method Resolve(q: Request) returns (r: Option<Document>)
      requires Fits(config, Contents())
      modifies this
      ensures Contents() == Resolved(config, old(Contents()), q).0 && r == Resolved(config, old(Contents()), q).1
      ensures (Contents(), Done(r)) == Uninterrupted(config, old(Contents()), q)
      ensures Fits(config, Contents())
      ensures Respectful(config) && old(Agrees(config, Contents())) ==>
        Agrees(config, Contents()) && r == config.base(q.subject)
    {
      ResolvedAgrees(config, Contents(), q);
      UninterruptedCallResolves(config, Contents(), q);
      var key := Normalize(q.subject, config.lower);
      r := LookupMemory(key, q.lookupAt);
      if r.Some? {
        return;
      }
      if q.readable && key in stored {
        Remember(key, stored[key], q.putAt);
        return Some(stored[key]);
      }
      r := config.base(q.subject);
      if r.None? {
        return;
      }
      Remember(key, r.value, q.putAt);
      if q.writable {
        stored := stored[r.value.id := r.value];
      }
    }
  }
}
