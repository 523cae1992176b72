// A fleet whose instances share the throttle's counters (src/processor.rs and src/throttle.rs together).
//
// What the groups let through waits for the throttle. Each item is asked for by a call of its own; the calls of
// all instances interleave, command by command, on the same counters. An item is submitted when its call is
// admitted. The fleet's own throttle function stands for any other check; it may let everything through.

module SharedThrottle {
  import Arith
  import opened Options
  import opened Consumer
  import opened Processor
  import opened Dispatch
  import Counting = Throttle

  datatype Rules = Rules(config: Counting.StaticConfig, authority: Counting.Authority)

  // items[c] is what call c asks for; refused are the items whose AT-URI cannot be parsed.
  datatype System = System(counting: Counting.State, items: seq<Work>, waiting: multiset<Work>, refused: multiset<Work>)

  datatype Action = Arrive(arrival: Arrival) | Ask(item: Work) | Proceed(action: Counting.Action)

  const START := System(Counting.INITIAL, [], multiset{}, multiset{})

  predicate Refused(r: Rules, item: Work) {
    r.config.authorityLimit.Some? && r.config.authorityWindow.Some? && r.authority(item.blueprint).None?
  }

  function ChecksOf(r: Rules, item: Work): seq<Counting.Check> {
    Counting.StaticChecks(r.config, item.blueprint, r.authority)
  }

  // What the action is to the counters; one that leaves them alone is a pause of no length.
  function OnCounters(r: Rules, a: Action): Counting.Action {
    match a
    case Arrive(_) => Counting.Advance(0)
    case Ask(item) => if Refused(r, item) then Counting.Advance(0) else Counting.Begin(ChecksOf(r, item))
    case Proceed(b) => b
  }

  function Step(f: Fleet, r: Rules, s: System, a: Action): Option<System>
    requires Sound(f)
  {
    var counting := Counting.Step(s.counting, OnCounters(r, a));
    if counting.None? then None
    else
      match a
      case Arrive(arrival) => Some(s.(waiting := s.waiting + FleetOnArrival(f, f.size, arrival)))
      case Ask(item) =>
        if item !in s.waiting then None
        else if Refused(r, item)
        then Some(s.(waiting := s.waiting - multiset{item}, refused := s.refused + multiset{item}))
        else Some(System(counting.value, s.items + [item], s.waiting - multiset{item}, s.refused))
      case Proceed(b) => if b.Begin? then None else Some(s.(counting := counting.value))
  }

  ghost predicate IsRun(f: Fleet, r: Rules, tr: seq<System>, acts: seq<Action>)
    requires Sound(f)
  {
    && |tr| == |acts| + 1
    && tr[0] == START
    && forall k :: 0 <= k < |acts| ==> Step(f, r, tr[k], acts[k]) == Some(tr[k + 1])
  }

  // ---------------------------------------------------------------- nothing but the reference's work

  // The arrivals among the first n actions.
  function Arrivals(acts: seq<Action>, n: nat): seq<Arrival>
    requires n <= |acts|
  {
    if n == 0 then []
    else Arrivals(acts, n - 1) + (if acts[n - 1].Arrive? then [acts[n - 1].arrival] else [])
  }

  function All(s: System): multiset<Work> {
    s.waiting + multiset(s.items) + s.refused
  }

  // What the groups let through when an event arrives.
  function LetThrough(f: Fleet, a: Action): multiset<Work>
    requires Sound(f)
  {
    if a.Arrive? then FleetOnArrival(f, f.size, a.arrival) else multiset{}
  }

  lemma StepConserves(f: Fleet, r: Rules, s: System, a: Action, s': System)
    requires Sound(f) && Step(f, r, s, a) == Some(s')
    ensures All(s') == All(s) + LetThrough(f, a)
  {
  }

  lemma WorkGrows(f: Fleet, acts: seq<Action>, n: nat)
    requires Sound(f) && n < |acts|
    ensures FleetWork(f, f.size, Arrivals(acts, n + 1))
         == FleetWork(f, f.size, Arrivals(acts, n)) + LetThrough(f, acts[n])
  {
    var before := Arrivals(acts, n);
    if acts[n].Arrive? {
      assert (before + [acts[n].arrival])[..|before|] == before;
      OneMoreArrival(f, f.size, before + [acts[n].arrival]);
    } else {
      assert before + [] == before;
    }
  }

  // Every item that the groups let through is waiting, asked for or refused, once for each time it was let
  // through.
  lemma {:induction false} ItemsAreConserved(f: Fleet, r: Rules, tr: seq<System>, acts: seq<Action>, n: nat)
    requires Sound(f) && IsRun(f, r, tr, acts) && n < |tr|
    ensures All(tr[n]) == FleetWork(f, f.size, Arrivals(acts, n))
  {
    if n == 0 {
      NoArrivals(f, f.size);
    } else {
      var k := n - 1;
      ItemsAreConserved(f, r, tr, acts, k);
      calc {
        All(tr[n]);
        { StepConserves(f, r, tr[k], acts[k], tr[n]); }
        All(tr[k]) + LetThrough(f, acts[k]);
        FleetWork(f, f.size, Arrivals(acts, k)) + LetThrough(f, acts[k]);
        { WorkGrows(f, acts, k); }
        FleetWork(f, f.size, Arrivals(acts, n));
      }
    }
  }

  // Each item has its call, which carries the checks of its AT-URI.
  ghost predicate Paired(r: Rules, s: System) {
    && |s.items| == |s.counting.calls|
    && forall c :: 0 <= c < |s.items| ==>
         s.counting.calls[c].checks == ChecksOf(r, s.items[c]) && !Refused(r, s.items[c])
  }

  lemma {:induction false} PairedAlongRun(f: Fleet, r: Rules, tr: seq<System>, acts: seq<Action>, n: nat)
    requires Sound(f) && IsRun(f, r, tr, acts) && n < |tr|
    ensures Paired(r, tr[n])
  {
    if n > 0 {
      PairedAlongRun(f, r, tr, acts, n - 1);
      StaysPaired(f, r, tr[n - 1], acts[n - 1], tr[n]);
    }
  }

  lemma StaysPaired(f: Fleet, r: Rules, s: System, a: Action, s': System)
    requires Sound(f) && Paired(r, s) && Step(f, r, s, a) == Some(s')
    ensures Paired(r, s')
  {
  }

  // The items of the admitted among the first n calls.
  function Submitted(s: System, n: nat): multiset<Work>
    requires n <= |s.items| && n <= |s.counting.calls|
  {
    if n == 0 then multiset{}
    else
      var last := n - 1;
      Submitted(s, last) + (if s.counting.calls[last].phase.Admitted? then multiset{s.items[last]} else multiset{})
  }

  lemma {:induction false} SubmittedWasAsked(s: System, n: nat)
    requires n <= |s.items| && n <= |s.counting.calls|
    ensures Submitted(s, n) <= multiset(s.items[..n])
  {
    if n > 0 {
      SubmittedWasAsked(s, n - 1);
      assert s.items[..n] == s.items[..n - 1] + [s.items[n - 1]];
    }
  }

  // Over any stream and any interleaving, what is submitted is part of the work of one evaluator: the counters
  // take work away, and nothing is added or doubled.
  lemma SubmitsReferenceWorkOnly(f: Fleet, r: Rules, tr: seq<System>, acts: seq<Action>, n: nat)
    requires Sound(f) && Faithful(f) && IsRun(f, r, tr, acts) && n < |tr|
    ensures |tr[n].items| == |tr[n].counting.calls|
    ensures Submitted(tr[n], |tr[n].items|) <= ReferenceWork(f, Arrivals(acts, n))
  {
    PairedAlongRun(f, r, tr, acts, n);
    ItemsAreConserved(f, r, tr, acts, n);
    SubmittedWasAsked(tr[n], |tr[n].items|);
    assert tr[n].items[..|tr[n].items|] == tr[n].items;
    FleetRefinesReference(f, Arrivals(acts, n));
  }

  // ---------------------------------------------------------------- and never more than the limit

  // The counters' part of a run.
  function CountersOf(tr: seq<System>): seq<Counting.State> {
    seq(|tr|, k requires 0 <= k < |tr| => tr[k].counting)
  }

  function OnAllCounters(r: Rules, acts: seq<Action>): seq<Counting.Action> {
    seq(|acts|, k requires 0 <= k < |acts| => OnCounters(r, acts[k]))
  }

  lemma CountersRun(f: Fleet, r: Rules, tr: seq<System>, acts: seq<Action>)
    requires Sound(f) && IsRun(f, r, tr, acts)
    ensures Counting.IsRun(CountersOf(tr), OnAllCounters(r, acts))
  {
    forall k | 0 <= k < |acts|
      ensures Counting.Step(tr[k].counting, OnCounters(r, acts[k])) == Some(tr[k + 1].counting)
    {
      assert Step(f, r, tr[k], acts[k]) == Some(tr[k + 1]);
    }
  }

  // The admitted calls for items of which the predicate holds, whose clock reading falls into the window that
  // ends at bucket.
  function SubmittedIn(s: System, mine: Work -> bool, bucket: nat, window: int): set<nat>
    requires |s.items| == |s.counting.calls| && 0 < window
  {
    set c | 0 <= c < |s.items| && mine(s.items[c]) && s.counting.calls[c].phase.Admitted?
            && Counting.RoundUp(s.counting.calls[c].clock, window) == bucket
  }

  // A run whose INCRs are on time, with windows for which counters last.
  ghost predicate Landed(r: Rules, tr: seq<System>, acts: seq<Action>)
    requires |tr| == |acts| + 1
  {
    Counting.LandedRun(CountersOf(tr), OnAllCounters(r, acts), |acts|)
  }

  // If the items of which the predicate holds check this name with this window and limit, and nothing else
  // checks the name, no more than limit of them are submitted in one window.
  lemma AtMostLimitOnName(f: Fleet, r: Rules, tr: seq<System>, acts: seq<Action>, mine: Work -> bool,
                          check: Counting.Check, bucket: nat)
    requires Sound(f) && IsRun(f, r, tr, acts) && Landed(r, tr, acts) && 0 <= check.limit && 0 < check.window
    requires forall item :: mine(item) && !Refused(r, item) ==> check in ChecksOf(r, item)
    requires forall item, k :: item in tr[|acts|].items && 0 <= k < |ChecksOf(r, item)| ==>
               ChecksOf(r, item)[k].name == check.name ==> ChecksOf(r, item)[k].limit <= check.limit
    ensures |tr[|acts|].items| == |tr[|acts|].counting.calls|
    ensures |SubmittedIn(tr[|acts|], mine, bucket, check.window)| <= check.limit
  {
    var n, key := |acts|, Counting.Key(bucket, check.name);
    var s, counters, cacts := tr[n], CountersOf(tr), OnAllCounters(r, acts);
    CountersRun(f, r, tr, acts);
    PairedAlongRun(f, r, tr, acts, n);
    Counting.FromChecksAlongRun(counters, cacts, n);
    Counting.JustifiedAlongRun(counters, cacts, n);
    forall e | e in s.counting.log && e.key == key
      ensures e.limit <= check.limit
    {
      assert s.items[e.caller] in s.items;
    }
    Counting.AtMostLimitAdmitted(counters, cacts, n, key, check.limit);
    forall c | c in SubmittedIn(s, mine, bucket, check.window)
      ensures c in Counting.AdmittedOn(s.counting, key)
    {
      assert Counting.Justified(s.counting, c);
      var k :| 0 <= k < |ChecksOf(r, s.items[c])| && ChecksOf(r, s.items[c])[k] == check;
      assert Counting.KeyOf(s.counting.calls[c], k) == key;
    }
    Arith.SubsetIsNoLarger(SubmittedIn(s, mine, bucket, check.window), Counting.AdmittedOn(s.counting, key));
  }

  // Over any stream, all instances together submit at most limit items per AT-URI and window.
  lemma AtMostLimitPerAturi(f: Fleet, r: Rules, tr: seq<System>, acts: seq<Action>, aturi: string, limit: nat,
                            window: int, bucket: nat)
    requires Sound(f) && IsRun(f, r, tr, acts) && Landed(r, tr, acts) && 0 < window
    requires r.config.aturiLimit == Some(limit) && r.config.aturiWindow == Some(window)
    requires forall x :: r.authority(x) != Some(aturi)
    ensures |tr[|acts|].items| == |tr[|acts|].counting.calls|
    ensures |SubmittedIn(tr[|acts|], (item: Work) => item.blueprint == aturi, bucket, window)| <= limit
  {
    AtMostLimitOnName(f, r, tr, acts, (item: Work) => item.blueprint == aturi,
                      Counting.Check(aturi, window, limit), bucket);
  }

  // And at most limit per authority and window.
  lemma AtMostLimitPerAuthority(f: Fleet, r: Rules, tr: seq<System>, acts: seq<Action>, did: string, limit: nat,
                                window: int, bucket: nat)
    requires Sound(f) && IsRun(f, r, tr, acts) && Landed(r, tr, acts) && 0 < window
    requires r.config.authorityLimit == Some(limit) && r.config.authorityWindow == Some(window)
    requires forall item :: item in tr[|acts|].items ==> item.blueprint != did
    ensures |tr[|acts|].items| == |tr[|acts|].counting.calls|
    ensures |SubmittedIn(tr[|acts|], (item: Work) => r.authority(item.blueprint) == Some(did), bucket, window)| <= limit
  {
    AtMostLimitOnName(f, r, tr, acts, (item: Work) => r.authority(item.blueprint) == Some(did),
                      Counting.Check(did, window, limit), bucket);
  }
}
