// The lease that elects one leader (src/leadership.rs).
//
// One Redis key holds the identifier of the leader and a deadline. Instances compete for it with an
// atomic SET NX GET EX, renew it with a GET followed by a separate EXPIRE, and give it up with an atomic
// compare-and-delete. Each instance also keeps a local flag. Commands travel over a network: one may be
// executed late, after its sender stopped waiting, and a reply may be lost.

module Leadership {
  import opened Options

  type InstanceId = string

  datatype Lease = Lease(holder: InstanceId, deadline: int)

  // A key whose deadline has passed reads as absent.
  function Holder(lease: Option<Lease>, now: int): Option<InstanceId> {
    if lease.Some? && now < lease.value.deadline then Some(lease.value.holder) else None
  }

  datatype CommandKind = SetNx | Get | Expire | CompareAndDelete

  datatype Reply =
    | SetReply(previous: Option<InstanceId>)
    | GetReply(current: Option<InstanceId>)
    | ExpireReply(renewed: bool)
    | DeleteReply(deleted: int)

  // What one command does to the key.
  function Apply(kind: CommandKind, lease: Option<Lease>, now: int, id: InstanceId, ttl: nat): (Option<Lease>, Reply) {
    var holder := Holder(lease, now);
    match kind
    case SetNx =>
      if holder.None? then (Some(Lease(id, now + ttl)), SetReply(None)) else (lease, SetReply(holder))
    case Get => (lease, GetReply(holder))
    case Expire =>
      if holder.None? then (lease, ExpireReply(false))
      else (Some(Lease(holder.value, now + ttl)), ExpireReply(true))
    case CompareAndDelete =>
      if holder == Some(id) then (None, DeleteReply(1)) else (lease, DeleteReply(0))
  }

  /** The key as Redis keeps it, changed in place by the four commands the election sends. */
  class RedisKey {
    var now: int
    var lease: Option<Lease>

    constructor ()
      ensures lease == None && now == 0
    {
      now, lease := 0, None;
    }

    method Drop()
      modifies this
      ensures lease == None && now == old(now)
    {
      lease := None;
    }

    method Wait(seconds: nat)
      modifies this
      ensures now == old(now) + seconds && lease == old(lease)
    {
      now := now + seconds;
    }

    method SetNxGetEx(id: InstanceId, ttl: nat) returns (previous: Option<InstanceId>)
      modifies this
      ensures now == old(now)
      ensures (lease, SetReply(previous)) == Apply(SetNx, old(lease), now, id, ttl)
    {
      if lease.Some? && now < lease.value.deadline {
        return Some(lease.value.holder);
      }
      lease := Some(Lease(id, now + ttl));
      previous := None;
    }

    method Read() returns (current: Option<InstanceId>)
      ensures GetReply(current) == Apply(Get, lease, now, "", 0).1
    {
      current := if lease.Some? && now < lease.value.deadline then Some(lease.value.holder) else None;
    }

    method SetDeadline(ttl: nat) returns (renewed: bool)
      modifies this
      ensures now == old(now)
      ensures (lease, ExpireReply(renewed)) == Apply(Expire, old(lease), now, "", ttl)
    {
      renewed := lease.Some? && now < lease.value.deadline;
      if renewed {
        lease := Some(lease.value.(deadline := now + ttl));
      }
    }

    // The Lua script of release_leadership.
    method DeleteIfOwned(id: InstanceId) returns (deleted: int)
      modifies this
      ensures now == old(now)
      ensures (lease, DeleteReply(deleted)) == Apply(CompareAndDelete, old(lease), now, id, 0)
    {
      var current := Read();
      if current == Some(id) {
        Drop();
        return 1;
      }
      deleted := 0;
    }
  }

  // ---------------------------------------------------------------- one instance

  datatype Phase = Idle | AwaitSet | AwaitGet | AwaitExpire | Stopped

  datatype Loop = Loop(isLeader: bool, phase: Phase)

  datatype LeadershipStatus = Leader | Follower | Vacant

  function Status(id: InstanceId, current: Option<InstanceId>): LeadershipStatus {
    match current
    case None => Vacant
    case Some(holder) => if holder == id then Leader else Follower
  }

  function Waits(phase: Phase): Option<CommandKind> {
    match phase
    case AwaitSet => Some(SetNx)
    case AwaitGet => Some(Get)
    case AwaitExpire => Some(Expire)
    case Idle => None
    case Stopped => None
  }

  function OnRetryTick(l: Loop): (Loop, Option<CommandKind>) {
    if l.phase.Idle? && !l.isLeader then (l.(phase := AwaitSet), Some(SetNx)) else (l, None)
  }

  function OnHeartbeatTick(l: Loop): (Loop, Option<CommandKind>) {
    if l.phase.Idle? && l.isLeader then (l.(phase := AwaitGet), Some(Get)) else (l, None)
  }

  function OnReply(l: Loop, id: InstanceId, reply: Reply): (Loop, Option<CommandKind>) {
    match (l.phase, reply)
    case (AwaitSet, SetReply(previous)) => (Loop(previous.None?, Idle), None)
    case (AwaitGet, GetReply(current)) =>
      if Status(id, current).Leader? then (l.(phase := AwaitExpire), Some(Expire)) else (Loop(false, Idle), None)
    case (AwaitExpire, ExpireReply(renewed)) => (Loop(renewed, Idle), None)
    case _ => (l, None)
  }

  // An error keeps a failed acquisition a follower and makes a failed renewal give up the flag.
  function OnError(l: Loop): Loop {
    if Waits(l.phase).Some? then Loop(false, Idle) else l
  }

  /** The loop of start_election_loop: its flag and the call it is waiting for. */
  class ElectionLoop {
    const id: InstanceId
    var isLeader: bool
    var phase: Phase

    function State(): Loop
      reads this
    {
      Loop(isLeader, phase)
    }

    constructor (id: InstanceId)
      ensures this.id == id && State() == Loop(false, Idle)
    {
      this.id := id;
      isLeader, phase := false, Idle;
    }

    method RetryTick() returns (send: Option<CommandKind>)
      modifies this
      ensures (State(), send) == OnRetryTick(old(State()))
    {
      send := None;
      if phase.Idle? {
        if !isLeader {
          phase := AwaitSet;
          send := Some(SetNx);
        }
      }
    }

    method HeartbeatTick() returns (send: Option<CommandKind>)
      modifies this
      ensures (State(), send) == OnHeartbeatTick(old(State()))
    {
      send := None;
      if phase.Idle? {
        if isLeader {
          phase := AwaitGet;
          send := Some(Get);
        }
      }
    }

    // The continuations of try_acquire_leadership and maintain_leadership.
    method Receive(reply: Reply) returns (send: Option<CommandKind>)
      modifies this
      ensures (State(), send) == OnReply(old(State()), id, reply)
    {
      send := None;
      if phase.AwaitSet? && reply.SetReply? {
        phase := Idle;
        isLeader := reply.previous.None?;
      } else if phase.AwaitGet? && reply.GetReply? {
        if reply.current == Some(id) {
          phase := AwaitExpire;
          send := Some(Expire);
        } else {
          phase := Idle;
          isLeader := false;
        }
      } else if phase.AwaitExpire? && reply.ExpireReply? {
        phase := Idle;
        isLeader := reply.renewed;
      }
    }

    method Stop()
      modifies this
      ensures State() == Loop(false, Stopped)
    {
      isLeader, phase := false, Stopped;
    }

    method Fail()
      modifies this
      ensures State() == OnError(old(State()))
    {
      if phase.AwaitSet? || phase.AwaitGet? || phase.AwaitExpire? {
        phase := Idle;
        isLeader := false;
      }
    }
  }

  // ---------------------------------------------------------------- the whole system

  datatype Command = Command(kind: CommandKind, from: InstanceId, token: nat)

  // touched is the time at which the last command that gave or prolonged this instance's lease ran.
  datatype Instance = Instance(loop: Loop, token: nat, inbox: Option<Reply>, touched: int)

  datatype System = System(now: int, lease: Option<Lease>, insts: map<InstanceId, Instance>, net: set<Command>)

  datatype Action =
    | Advance(seconds: nat)
    | Join(id: InstanceId)
    | Restart(id: InstanceId)
    | RetryTick(id: InstanceId)
    | HeartbeatTick(id: InstanceId)
    | Execute(cmd: Command)
    | Deliver(id: InstanceId)
    | GiveUp(id: InstanceId)
    | Shutdown(id: InstanceId)
    | Crash(id: InstanceId)

  const START := System(0, None, map[], {})

  function Current(s: System): Option<InstanceId> {
    Holder(s.lease, s.now)
  }

  predicate IsLeader(s: System, id: InstanceId) {
    id in s.insts && s.insts[id].loop.isLeader
  }

  // Record a change of one instance's loop and, if it sends a command, put that on the network.
  function Send(s: System, id: InstanceId, inst: Instance, next: (Loop, Option<CommandKind>)): System {
    match next.1
    case None => s.(insts := s.insts[id := inst.(loop := next.0, inbox := None)])
    case Some(kind) =>
      var token := inst.token + 1;
      s.(insts := s.insts[id := inst.(loop := next.0, inbox := None, token := token)],
         net := s.net + {Command(kind, id, token)})
  }

  function Run1(s: System, cmd: Command, ttl: nat): System
    requires cmd.from in s.insts
  {
    var (lease, reply) := Apply(cmd.kind, s.lease, s.now, cmd.from, ttl);
    Executed(s, cmd, lease, reply)
  }

  // Record what a command did to the key; its reply reaches the sender only while that still waits for it.
  function Executed(s: System, cmd: Command, lease: Option<Lease>, reply: Reply): System
    requires cmd.from in s.insts
  {
    var inst := s.insts[cmd.from];
    var awaited := inst.token == cmd.token && Waits(inst.loop.phase) == Some(cmd.kind);
    var gained := reply == SetReply(None) || reply == ExpireReply(true);
    var inst' := if awaited
                 then inst.(inbox := Some(reply), touched := if gained then s.now else inst.touched)
                 else inst;
    s.(lease := lease, insts := s.insts[cmd.from := inst'], net := s.net - {cmd})
  }

  // None when the action cannot happen in s.
  function Step(s: System, a: Action, ttl: nat): Option<System> {
    match a
    case Advance(seconds) => Some(s.(now := s.now + seconds))
    case Join(id) =>
      if id in s.insts then None
      else Some(s.(insts := s.insts[id := Instance(Loop(false, Idle), 0, None, 0)]))
    case Restart(id) =>
      if id !in s.insts || !s.insts[id].loop.phase.Stopped? then None
      else Some(Send(s, id, s.insts[id], (Loop(false, Idle), None)))
    case RetryTick(id) =>
      if id !in s.insts || !s.insts[id].loop.phase.Idle? then None
      else Some(Send(s, id, s.insts[id], OnRetryTick(s.insts[id].loop)))
    case HeartbeatTick(id) =>
      if id !in s.insts || !s.insts[id].loop.phase.Idle? then None
      else Some(Send(s, id, s.insts[id], OnHeartbeatTick(s.insts[id].loop)))
    case Execute(cmd) =>
      if cmd !in s.net || cmd.from !in s.insts then None else Some(Run1(s, cmd, ttl))
    case Deliver(id) =>
      if id !in s.insts || s.insts[id].inbox.None? then None
      else Some(Send(s, id, s.insts[id], OnReply(s.insts[id].loop, id, s.insts[id].inbox.value)))
    case GiveUp(id) =>
      if id !in s.insts then None else Some(Send(s, id, s.insts[id], (OnError(s.insts[id].loop), None)))
    case Shutdown(id) =>
      if id !in s.insts || s.insts[id].loop.phase.Stopped? then None
      else Some(Send(s, id, s.insts[id], (Loop(false, Stopped), Some(CompareAndDelete))))
    case Crash(id) =>
      if id !in s.insts then None else Some(Send(s, id, s.insts[id], (Loop(false, Stopped), None)))
  }

  ghost predicate IsRun(tr: seq<System>, acts: seq<Action>, ttl: nat) {
    && |tr| == |acts| + 1
    && tr[0] == START
    && forall k :: 0 <= k < |acts| ==> Step(tr[k], acts[k], ttl) == Some(tr[k + 1])
  }

  // Every flagged leader completed its last renewal less than ttl ago.
  ghost predicate Timely(s: System, ttl: nat) {
    forall id :: id in s.insts && s.insts[id].loop.isLeader ==> s.now < s.insts[id].touched + ttl
  }

  // ---------------------------------------------------------------- the objects follow every run

  // The key and one loop per instance, whose states are those of the system.
  ghost predicate Mirrors(key: RedisKey, loops: map<InstanceId, ElectionLoop>, s: System)
    reads key, loops.Values
  {
    && key.now == s.now && key.lease == s.lease && loops.Keys == s.insts.Keys
    && forall id :: id in loops ==> loops[id].id == id && loops[id].State() == s.insts[id].loop
  }

  // Send a command to the key, and the reply to whoever waits for it.
  method Carry(key: RedisKey, s: System, cmd: Command, ttl: nat) returns (s': System)
    requires key.now == s.now && key.lease == s.lease && cmd.from in s.insts
    modifies key
    ensures s' == Run1(s, cmd, ttl) && key.now == s'.now && key.lease == s'.lease
  {
    var reply: Reply;
    match cmd.kind {
      case SetNx =>
        var previous := key.SetNxGetEx(cmd.from, ttl);
        reply := SetReply(previous);
      case Get =>
        var current := key.Read();
        reply := GetReply(current);
      case Expire =>
        var renewed := key.SetDeadline(ttl);
        reply := ExpireReply(renewed);
      case CompareAndDelete =>
        var deleted := key.DeleteIfOwned(cmd.from);
        reply := DeleteReply(deleted);
    }
    s' := Executed(s, cmd, key.lease, reply);
  }

  // Let one loop move on; what it sends goes on the network.
  method Move(loop: ElectionLoop, s: System, a: Action) returns (s': System)
    requires loop.id in s.insts && loop.State() == s.insts[loop.id].loop && Step(s, a, 0).Some?
    requires a in {RetryTick(loop.id), HeartbeatTick(loop.id), Deliver(loop.id), GiveUp(loop.id), Shutdown(loop.id),
                   Crash(loop.id)}
    modifies loop
    ensures Step(s, a, 0) == Some(s') && loop.State() == s'.insts[loop.id].loop
  {
    var inst := s.insts[loop.id];
    var send: Option<CommandKind> := None;
    match a {
      case RetryTick(_) => send := loop.RetryTick();
      case HeartbeatTick(_) => send := loop.HeartbeatTick();
      case Deliver(_) => send := loop.Receive(inst.inbox.value);
      case GiveUp(_) => loop.Fail();
      case Shutdown(_) =>
        loop.Stop();
        send := Some(CompareAndDelete);
      case Crash(_) => loop.Stop();
    }
    s' := Send(s, loop.id, inst, (loop.State(), send));
  }

  method Perform(key: RedisKey, loops: map<InstanceId, ElectionLoop>, s: System, a: Action, ttl: nat)
    returns (loops': map<InstanceId, ElectionLoop>, s': System)
    requires Mirrors(key, loops, s) && Step(s, a, ttl).Some?
    modifies key, loops.Values
    ensures Mirrors(key, loops', s') && Step(s, a, ttl) == Some(s')
    ensures forall id :: id in loops' ==> fresh(loops'[id]) || (id in loops && loops'[id] == loops[id])
  {
    loops' := loops;
    match a
    case Advance(seconds) =>
      key.Wait(seconds);
      s' := s.(now := key.now);
    case Execute(cmd) => s' := Carry(key, s, cmd, ttl);
    case Join(id) =>
      var loop := new ElectionLoop(id);
      loops' := loops[id := loop];
      s' := s.(insts := s.insts[id := Instance(loop.State(), 0, None, 0)]);
    case Restart(id) =>
      var loop := new ElectionLoop(id);
      loops' := loops[id := loop];
      s' := Send(s, id, s.insts[id], (loop.State(), None));
    case _ => s' := Move(loops[a.id], s, a);
  }

  // Driven by the actions of any run, the objects end in its last state.
  method Follow(ghost tr: seq<System>, acts: seq<Action>, ttl: nat)
    returns (key: RedisKey, loops: map<InstanceId, ElectionLoop>)
    requires IsRun(tr, acts, ttl)
    ensures Mirrors(key, loops, tr[|acts|])
  {
    key := new RedisKey();
    loops := map[];
    var s := START;
    for k := 0 to |acts|
      invariant s == tr[k] && Mirrors(key, loops, s)
      invariant fresh(key) && forall id :: id in loops ==> fresh(loops[id])
    {
      assert Step(tr[k], acts[k], ttl) == Some(tr[k + 1]);
      loops, s := Perform(key, loops, s, acts[k], ttl);
    }
  }

  // ---------------------------------------------------------------- the invariant

  predicate Claims(inst: Instance) {
    inst.loop.isLeader || (inst.loop.phase.AwaitSet? && inst.inbox == Some(SetReply(None)))
  }

  predicate WellShaped(inst: Instance) {
    && (inst.loop.phase.AwaitSet? || inst.loop.phase.Stopped? ==> !inst.loop.isLeader)
    && (inst.loop.phase.AwaitGet? || inst.loop.phase.AwaitExpire? ==> inst.loop.isLeader)
    && (inst.inbox.Some? ==>
          || (inst.loop.phase.AwaitSet? && inst.inbox.value.SetReply?)
          || (inst.loop.phase.AwaitGet? && inst.inbox.value.GetReply?)
          || (inst.loop.phase.AwaitExpire? && inst.inbox.value.ExpireReply?))
  }

  // While its last renewal is younger than ttl, an instance with a claim owns a lease at least that long.
  predicate Backed(s: System, id: InstanceId, ttl: nat)
    requires id in s.insts
  {
    Claims(s.insts[id]) && s.now < s.insts[id].touched + ttl ==>
      s.lease.Some? && s.lease.value.holder == id && s.insts[id].touched + ttl <= s.lease.value.deadline
  }

  // No lease reaches further than ttl ahead.
  predicate Bounded(s: System, ttl: nat) {
    s.lease.Some? ==> s.lease.value.deadline <= s.now + ttl
  }

  ghost predicate Inv(s: System, ttl: nat) {
    && Bounded(s, ttl)
    && (forall id :: id in s.insts ==> WellShaped(s.insts[id]))
    && (forall id :: id in s.insts ==> Backed(s, id, ttl))
    && (forall c :: c in s.net ==> c.from in s.insts)
    && (forall c :: c in s.net && c.kind.CompareAndDelete? ==> s.insts[c.from].loop.phase.Stopped?)
  }

  // A renewal that is about to run.
  predicate Renewing(s: System, cmd: Command) {
    && cmd in s.net && cmd.from in s.insts && cmd.kind.Expire?
    && s.insts[cmd.from].token == cmd.token && s.insts[cmd.from].loop.phase.AwaitExpire?
  }

  // What the separate GET has promised still holds when EXPIRE runs: it does not find another's lease.
  predicate SafeRenewal(s: System, a: Action) {
    a.Execute? && Renewing(s, a.cmd) ==> Current(s) in {None, Some(a.cmd.from)}
  }

  // A release sent by an earlier life of the instance that restarts is no longer on the way.
  predicate CleanRestart(s: System, a: Action) {
    a.Restart? ==> forall c :: c in s.net && c.from == a.id ==> !c.kind.CompareAndDelete?
  }

  lemma SendKeepsInv(s: System, id: InstanceId, next: (Loop, Option<CommandKind>), ttl: nat)
    requires Inv(s, ttl) && id in s.insts
    requires WellShaped(s.insts[id].(loop := next.0, inbox := None))
    requires next.0.isLeader ==> Claims(s.insts[id])
    requires next.1 == Some(CompareAndDelete) ==> next.0.phase.Stopped?
    requires s.insts[id].loop.phase.Stopped? && !next.0.phase.Stopped? ==>
      forall c :: c in s.net && c.from == id ==> !c.kind.CompareAndDelete?
    ensures Inv(Send(s, id, s.insts[id], next), ttl)
  {
    var s' := Send(s, id, s.insts[id], next);
    forall j | j in s'.insts
      ensures Backed(s', j, ttl)
    {
      assert Backed(s, j, ttl);
    }
  }

  lemma StepKeepsInv(s: System, a: Action, ttl: nat, s': System)
    requires Inv(s, ttl) && Step(s, a, ttl) == Some(s')
    requires SafeRenewal(s, a) && CleanRestart(s, a)
    ensures Inv(s', ttl)
  {
    match a
    case Execute(cmd) => ExecuteKeepsInv(s, cmd, ttl);
    case Advance(_) =>
      forall j | j in s'.insts
        ensures Backed(s', j, ttl)
      {
        assert Backed(s, j, ttl);
      }
    case Join(id) =>
      forall j | j in s'.insts
        ensures Backed(s', j, ttl)
      {
        assert j != id ==> Backed(s, j, ttl);
      }
    case Restart(id) => SendKeepsInv(s, id, (Loop(false, Idle), None), ttl);
    case RetryTick(id) =>
      assert WellShaped(s.insts[id]);
      SendKeepsInv(s, id, OnRetryTick(s.insts[id].loop), ttl);
    case HeartbeatTick(id) =>
      assert WellShaped(s.insts[id]);
      SendKeepsInv(s, id, OnHeartbeatTick(s.insts[id].loop), ttl);
    case Deliver(id) =>
      assert WellShaped(s.insts[id]);
      SendKeepsInv(s, id, OnReply(s.insts[id].loop, id, s.insts[id].inbox.value), ttl);
    case GiveUp(id) =>
      assert WellShaped(s.insts[id]);
      SendKeepsInv(s, id, (OnError(s.insts[id].loop), None), ttl);
    case Shutdown(id) => SendKeepsInv(s, id, (Loop(false, Stopped), Some(CompareAndDelete)), ttl);
    case Crash(id) => SendKeepsInv(s, id, (Loop(false, Stopped), None), ttl);
  }

  lemma ExecuteKeepsInv(s: System, cmd: Command, ttl: nat)
    requires Inv(s, ttl) && cmd in s.net
    requires Renewing(s, cmd) ==> Current(s) in {None, Some(cmd.from)}
    ensures Inv(Run1(s, cmd, ttl), ttl)
  {
    var s' := Run1(s, cmd, ttl);
    forall id | id in s'.insts
      ensures Backed(s', id, ttl)
    {
      assert Backed(s, id, ttl) && WellShaped(s.insts[id]) && WellShaped(s.insts[cmd.from]);
    }
  }

  // ---------------------------------------------------------------- safety over whole runs

  // What no timing can disturb.
  ghost predicate Shaped(s: System) {
    && (forall id :: id in s.insts ==> WellShaped(s.insts[id]))
    && (forall c :: c in s.net ==> c.from in s.insts)
  }

  lemma {:induction false} ShapedAlongRun(tr: seq<System>, acts: seq<Action>, ttl: nat, n: nat)
    requires IsRun(tr, acts, ttl) && n < |tr|
    ensures Shaped(tr[n])
  {
    if n > 0 {
      ShapedAlongRun(tr, acts, ttl, n - 1);
      StepKeepsShape(tr[n - 1], acts[n - 1], ttl, tr[n]);
    }
  }

  lemma StepKeepsShape(s: System, a: Action, ttl: nat, s': System)
    requires Shaped(s) && Step(s, a, ttl) == Some(s')
    ensures Shaped(s')
  {
    forall id | id in s'.insts
      ensures WellShaped(s'.insts[id])
    {
      assert id in s.insts ==> WellShaped(s.insts[id]);
    }
  }

  ghost predicate SafeRenewals(tr: seq<System>, acts: seq<Action>, n: nat)
    requires n <= |acts| && |tr| == |acts| + 1
  {
    forall k :: 0 <= k < n ==> SafeRenewal(tr[k], acts[k])
  }

  ghost predicate CleanRestarts(tr: seq<System>, acts: seq<Action>, n: nat)
    requires n <= |acts| && |tr| == |acts| + 1
  {
    forall k :: 0 <= k < n ==> CleanRestart(tr[k], acts[k])
  }

  lemma {:induction false} InvAlongRun(tr: seq<System>, acts: seq<Action>, ttl: nat, n: nat)
    requires IsRun(tr, acts, ttl) && n < |tr| && SafeRenewals(tr, acts, n) && CleanRestarts(tr, acts, n)
    ensures Inv(tr[n], ttl)
  {
    if n > 0 {
      InvAlongRun(tr, acts, ttl, n - 1);
      StepKeepsInv(tr[n - 1], acts[n - 1], ttl, tr[n]);
    }
  }

  // Every flagged leader whose last renewal is younger than ttl holds the key.
  ghost predicate FreshLeadersHold(s: System, ttl: nat) {
    forall i :: IsLeader(s, i) && s.now < s.insts[i].touched + ttl ==> Current(s) == Some(i)
  }

  // All through a run whose restarts are clean, leaders that renewed within ttl hold the key exactly when no
  // renewal finds another instance's lease.
  lemma CleanlyFreshIff(tr: seq<System>, acts: seq<Action>, ttl: nat, n: nat)
    requires 0 < ttl && IsRun(tr, acts, ttl) && n < |tr| && CleanRestarts(tr, acts, n)
    ensures (forall k :: 0 <= k <= n ==> FreshLeadersHold(tr[k], ttl)) <==> SafeRenewals(tr, acts, n)
  {
    if SafeRenewals(tr, acts, n) {
      forall k | 0 <= k <= n
        ensures FreshLeadersHold(tr[k], ttl)
      {
        InvAlongRun(tr, acts, ttl, k);
        assert forall i :: i in tr[k].insts ==> Backed(tr[k], i, ttl);
      }
    } else {
      var k :| 0 <= k < n && !SafeRenewal(tr[k], acts[k]);
      ShapedAlongRun(tr, acts, ttl, k);
      UnsafeRenewalShows(tr[k], acts[k], ttl, tr[k + 1]);
    }
  }

  lemma UnsafeRenewalShows(s: System, a: Action, ttl: nat, s': System)
    requires 0 < ttl && Shaped(s) && Step(s, a, ttl) == Some(s') && !SafeRenewal(s, a)
    ensures !FreshLeadersHold(s', ttl)
  {
    assert WellShaped(s.insts[a.cmd.from]);
    assert IsLeader(s', a.cmd.from) && s'.insts[a.cmd.from].touched == s'.now;
  }

  ghost predicate TimelyUpTo(tr: seq<System>, ttl: nat, n: nat)
    requires n < |tr|
  {
    forall k :: 0 <= k <= n ==> Timely(tr[k], ttl)
  }

  // Timely leaders renew safely.
  lemma {:induction false} TimelyIsSafe(tr: seq<System>, acts: seq<Action>, ttl: nat, n: nat)
    requires 0 < ttl && IsRun(tr, acts, ttl) && n < |tr| && CleanRestarts(tr, acts, n) && TimelyUpTo(tr, ttl, n)
    ensures SafeRenewals(tr, acts, n)
  {
    if n > 0 {
      TimelyIsSafe(tr, acts, ttl, n - 1);
      CleanlyFreshIff(tr, acts, ttl, n - 1);
      ShapedAlongRun(tr, acts, ttl, n - 1);
      var s, a := tr[n - 1], acts[n - 1];
      if a.Execute? && Renewing(s, a.cmd) {
        assert WellShaped(s.insts[a.cmd.from]) && IsLeader(s, a.cmd.from) && Timely(s, ttl);
        assert FreshLeadersHold(s, ttl);
      }
    }
  }

  // At every moment of a timely run at most one instance believes it leads, and the key names it.
  lemma AtMostOneLeader(tr: seq<System>, acts: seq<Action>, ttl: nat, n: nat)
    requires 0 < ttl && IsRun(tr, acts, ttl) && n < |tr| && CleanRestarts(tr, acts, n) && TimelyUpTo(tr, ttl, n)
    ensures forall i :: IsLeader(tr[n], i) ==>
      Current(tr[n]) == Some(i) && Status(i, Current(tr[n])) == Leader
    ensures forall i, j :: IsLeader(tr[n], i) && IsLeader(tr[n], j) ==> i == j
  {
    TimelyIsSafe(tr, acts, ttl, n);
    CleanlyFreshIff(tr, acts, ttl, n);
    assert FreshLeadersHold(tr[n], ttl) && Timely(tr[n], ttl);
  }

  // ---------------------------------------------------------------- fresh flags, with any restarts

  // No lease ends before the ttl of any renewal so far has passed.
  ghost predicate Lasting(s: System, ttl: nat) {
    && 0 <= s.now && (forall i :: i in s.insts ==> s.insts[i].touched <= s.now)
    && (s.lease.Some? ==>
          ttl <= s.lease.value.deadline
          && forall i :: i in s.insts ==> s.insts[i].touched + ttl <= s.lease.value.deadline)
  }

  lemma {:induction false} LastingAlongRun(tr: seq<System>, acts: seq<Action>, ttl: nat, n: nat)
    requires IsRun(tr, acts, ttl) && n < |tr|
    ensures Lasting(tr[n], ttl)
  {
    if n > 0 {
      LastingAlongRun(tr, acts, ttl, n - 1);
      assert Step(tr[n - 1], acts[n - 1], ttl) == Some(tr[n]);
    }
  }

  predicate IsFresh(s: System, id: InstanceId, ttl: nat) {
    id in s.insts && s.now < s.insts[id].touched + ttl
  }

  // The three ways in which a leader that renewed within ttl can be without the key: its EXPIRE prolonged
  // another's lease, a release sent by its earlier life reached the key, or its acquisition was undone before
  // it learned of it.
  predicate Undercuts(s: System, a: Action, ttl: nat) {
    || !SafeRenewal(s, a)
    || (a.Execute? && a.cmd.kind.CompareAndDelete? && IsLeader(s, a.cmd.from) && IsFresh(s, a.cmd.from, ttl)
        && Current(s) == Some(a.cmd.from))
    || (Learns(s, a) && IsFresh(s, a.id, ttl) && Current(s) != Some(a.id))
  }

  // The instance receives the news that it has acquired the key.
  predicate Learns(s: System, a: Action) {
    a.Deliver? && a.id in s.insts && s.insts[a.id].loop.phase.AwaitSet? && s.insts[a.id].inbox == Some(SetReply(None))
  }

  lemma UndercutIff(s: System, a: Action, ttl: nat, s': System)
    requires 0 < ttl && Shaped(s) && Lasting(s, ttl) && Step(s, a, ttl) == Some(s') && FreshLeadersHold(s, ttl)
    ensures FreshLeadersHold(s', ttl) <==> !Undercuts(s, a, ttl)
  {
    if !SafeRenewal(s, a) {
      UnsafeRenewalShows(s, a, ttl, s');
    } else if Undercuts(s, a, ttl) {
      var i := if a.Execute? then a.cmd.from else a.id;
      assert IsLeader(s', i) && Current(s') != Some(i);
    } else if a.Execute? {
      ExecuteStaysFresh(s, a.cmd, ttl);
    } else {
      forall i | IsLeader(s', i) && s'.now < s'.insts[i].touched + ttl
        ensures Current(s') == Some(i)
      {
        assert i in s.insts && WellShaped(s.insts[i]);
      }
    }
  }

  lemma ExecuteStaysFresh(s: System, cmd: Command, ttl: nat)
    requires 0 < ttl && Shaped(s) && Lasting(s, ttl) && cmd in s.net && FreshLeadersHold(s, ttl)
    requires !Undercuts(s, Execute(cmd), ttl)
    ensures FreshLeadersHold(Run1(s, cmd, ttl), ttl)
  {
    var s' := Run1(s, cmd, ttl);
    forall i | IsLeader(s', i) && s'.now < s'.insts[i].touched + ttl
      ensures Current(s') == Some(i)
    {
      assert i in s.insts && WellShaped(s.insts[i]);
    }
  }

  ghost predicate FreshUpTo(tr: seq<System>, ttl: nat, n: nat)
    requires n < |tr|
  {
    forall k :: 0 <= k <= n ==> FreshLeadersHold(tr[k], ttl)
  }

  ghost predicate NoneUndercut(tr: seq<System>, acts: seq<Action>, ttl: nat, n: nat)
    requires n <= |acts| && |tr| == |acts| + 1
  {
    forall k :: 0 <= k < n ==> !Undercuts(tr[k], acts[k], ttl)
  }

  lemma OneMoreFresh(tr: seq<System>, acts: seq<Action>, ttl: nat, n: nat)
    requires 0 < ttl && IsRun(tr, acts, ttl) && n < |acts| && FreshLeadersHold(tr[n], ttl)
    ensures FreshLeadersHold(tr[n + 1], ttl) <==> !Undercuts(tr[n], acts[n], ttl)
  {
    ShapedAlongRun(tr, acts, ttl, n);
    LastingAlongRun(tr, acts, ttl, n);
    UndercutIff(tr[n], acts[n], ttl, tr[n + 1]);
  }

  // All through any run, leaders that renewed within ttl hold the key exactly when no step undercuts one.
  lemma {:induction false} FreshLeadersHoldIff(tr: seq<System>, acts: seq<Action>, ttl: nat, n: nat)
    requires 0 < ttl && IsRun(tr, acts, ttl) && n < |tr|
    ensures FreshUpTo(tr, ttl, n) <==> NoneUndercut(tr, acts, ttl, n)
  {
    if n > 0 {
      FreshLeadersHoldIff(tr, acts, ttl, n - 1);
      if FreshLeadersHold(tr[n - 1], ttl) {
        OneMoreFresh(tr, acts, ttl, n - 1);
      }
    }
  }

  // ---------------------------------------------------------------- every flag, with no timing at all

  ghost predicate LeadersHold(s: System) {
    forall i :: IsLeader(s, i) ==> Current(s) == Some(i)
  }

  // The three ways in which a leader can be left without the key: its lease runs out, a release sent by its
  // earlier life reaches the key, or it learns of its acquisition after the lease has gone.
  predicate Strands(s: System, a: Action) {
    || (a.Advance? && Current(s).Some? && IsLeader(s, Current(s).value) && s.lease.value.deadline <= s.now + a.seconds)
    || (a.Execute? && a.cmd.kind.CompareAndDelete? && IsLeader(s, a.cmd.from) && Current(s) == Some(a.cmd.from))
    || (Learns(s, a) && Current(s) != Some(a.id))
  }

  lemma StrandedIff(s: System, a: Action, ttl: nat, s': System)
    requires 0 < ttl && Shaped(s) && Step(s, a, ttl) == Some(s') && LeadersHold(s)
    ensures LeadersHold(s') <==> !Strands(s, a)
  {
    if Strands(s, a) {
      var i := if a.Advance? then Current(s).value else if a.Execute? then a.cmd.from else a.id;
      assert IsLeader(s', i) && Current(s') != Some(i);
    } else {
      forall i | IsLeader(s', i)
        ensures Current(s') == Some(i)
      {
        assert i in s.insts && WellShaped(s.insts[i]);
      }
    }
  }

  // All through any run, every flagged instance holds the key (so that there is at most one) exactly when no
  // step strands a leader.
  lemma {:induction false} LeadersHoldIff(tr: seq<System>, acts: seq<Action>, ttl: nat, n: nat)
    requires 0 < ttl && IsRun(tr, acts, ttl) && n < |tr|
    ensures (forall k :: 0 <= k <= n ==> LeadersHold(tr[k])) <==> forall k :: 0 <= k < n ==> !Strands(tr[k], acts[k])
  {
    if n > 0 {
      LeadersHoldIff(tr, acts, ttl, n - 1);
      ShapedAlongRun(tr, acts, ttl, n - 1);
      if LeadersHold(tr[n - 1]) {
        StrandedIff(tr[n - 1], acts[n - 1], ttl, tr[n]);
      }
    }
  }

  // ---------------------------------------------------------------- what the timing hypothesis is for

  // Two instances a and b.
  function At(now: int, lease: Option<Lease>, a: Instance, b: Instance, net: set<Command>): System {
    System(now, lease, map["a" := a, "b" := b], net)
  }

  ghost predicate Reaches(tr: seq<System>, acts: seq<Action>, s: System) {
    IsRun(tr, acts, 120) && tr[|acts|] == s
  }

  predicate Expires(a: Action) {
    a.Execute? && a.cmd.kind.Expire?
  }

  ghost predicate NoExpire(acts: seq<Action>) {
    forall k :: 0 <= k < |acts| ==> !Expires(acts[k])
  }

  lemma Extend(tr: seq<System>, acts: seq<Action>, s: System, act: Action,
               now: int, lease: Option<Lease>, a: Instance, b: Instance, net: set<Command>)
    returns (tr': seq<System>, acts': seq<Action>)
    requires Reaches(tr, acts, s) && Step(s, act, 120).Some?
    requires var s' := Step(s, act, 120).value;
             && s'.now == now && s'.lease == lease
             && s'.insts == map["a" := a, "b" := b] && s'.net == net
    ensures Reaches(tr', acts', At(now, lease, a, b, net))
    ensures NoExpire(acts) && !Expires(act) ==> NoExpire(acts')
    ensures TimelyUpTo(tr, 120, |acts|) && Timely(At(now, lease, a, b, net), 120) ==> TimelyUpTo(tr', 120, |acts'|)
  {
    tr', acts' := tr + [At(now, lease, a, b, net)], acts + [act];
  }

  const IDLING := Instance(Loop(false, Idle), 0, None, 0)
  const TRYING := Instance(Loop(false, AwaitSet), 1, None, 0)
  const LEADING := Instance(Loop(true, Idle), 1, None, 0)
  const READING := Instance(Loop(true, AwaitGet), 2, None, 0)
  const LATE := Instance(Loop(true, AwaitExpire), 3, None, 0)
  const SET_A := Command(SetNx, "a", 1)
  const GET_A := Command(Get, "a", 2)
  const EXPIRE_A := Command(Expire, "a", 3)
  const SET_B := Command(SetNx, "b", 1)
  const LEASE_A := Some(Lease("a", 120))
  const LEASE_B := Some(Lease("b", 240))

  lemma TwoInstances() returns (tr: seq<System>, acts: seq<Action>)
    ensures Reaches(tr, acts, At(0, None, IDLING, IDLING, {}))
    ensures NoExpire(acts) && TimelyUpTo(tr, 120, |acts|)
  {
    var alone := START.(insts := map["a" := IDLING]);
    assert Step(START, Join("a"), 120) == Some(alone);
    tr, acts := [START, alone], [Join("a")];
    tr, acts := Extend(tr, acts, alone, Join("b"), 0, None, IDLING, IDLING, {});
  }

  lemma FirstLeader() returns (tr: seq<System>, acts: seq<Action>)
    ensures Reaches(tr, acts, At(0, LEASE_A, LEADING, IDLING, {}))
    ensures NoExpire(acts) && TimelyUpTo(tr, 120, |acts|)
  {
    tr, acts := TwoInstances();
    tr, acts := Extend(tr, acts, At(0, None, IDLING, IDLING, {}), RetryTick("a"), 0, None, TRYING, IDLING, {SET_A});
    var told := TRYING.(inbox := Some(SetReply(None)));
    tr, acts := Extend(tr, acts, At(0, None, TRYING, IDLING, {SET_A}), Execute(SET_A), 0, LEASE_A, told, IDLING, {});
    tr, acts := Extend(tr, acts, At(0, LEASE_A, told, IDLING, {}), Deliver("a"), 0, LEASE_A, LEADING, IDLING, {});
  }

  lemma RenewalDelayed() returns (tr: seq<System>, acts: seq<Action>)
    ensures Reaches(tr, acts, At(120, LEASE_A, LATE, IDLING, {EXPIRE_A}))
  {
    tr, acts := FirstLeader();
    var told := READING.(inbox := Some(GetReply(Some("a"))));
    tr, acts := Extend(tr, acts, At(0, LEASE_A, LEADING, IDLING, {}), HeartbeatTick("a"),
                       0, LEASE_A, READING, IDLING, {GET_A});
    tr, acts := Extend(tr, acts, At(0, LEASE_A, READING, IDLING, {GET_A}), Execute(GET_A),
                       0, LEASE_A, told, IDLING, {});
    tr, acts := Extend(tr, acts, At(0, LEASE_A, told, IDLING, {}), Deliver("a"), 0, LEASE_A, LATE, IDLING, {EXPIRE_A});
    tr, acts := Extend(tr, acts, At(0, LEASE_A, LATE, IDLING, {EXPIRE_A}), Advance(120),
                       120, LEASE_A, LATE, IDLING, {EXPIRE_A});
  }

  lemma SecondLeader() returns (tr: seq<System>, acts: seq<Action>)
    ensures Reaches(tr, acts, At(120, LEASE_B, LATE, LEADING.(touched := 120), {EXPIRE_A}))
  {
    tr, acts := RenewalDelayed();
    var told := TRYING.(inbox := Some(SetReply(None)), touched := 120);
    tr, acts := Extend(tr, acts, At(120, LEASE_A, LATE, IDLING, {EXPIRE_A}), RetryTick("b"),
                       120, LEASE_A, LATE, TRYING, {EXPIRE_A, SET_B});
    tr, acts := Extend(tr, acts, At(120, LEASE_A, LATE, TRYING, {EXPIRE_A, SET_B}), Execute(SET_B),
                       120, LEASE_B, LATE, told, {EXPIRE_A});
    tr, acts := Extend(tr, acts, At(120, LEASE_B, LATE, told, {EXPIRE_A}), Deliver("b"),
                       120, LEASE_B, LATE, LEADING.(touched := 120), {EXPIRE_A});
  }

  // Without timeliness the promise fails. a reads its own name, its EXPIRE is delayed until the lease has
  // run out and b has taken the key; Redis then reports the key prolonged, and both go on leading.
  lemma SplitBrain() returns (tr: seq<System>, acts: seq<Action>)
    ensures IsRun(tr, acts, 120)
    ensures IsLeader(tr[|acts|], "a") && IsLeader(tr[|acts|], "b") && Current(tr[|acts|]) == Some("b")
  {
    tr, acts := SecondLeader();
    var b := LEADING.(touched := 120);
    var told := LATE.(inbox := Some(ExpireReply(true)), touched := 120);
    tr, acts := Extend(tr, acts, At(120, LEASE_B, LATE, b, {EXPIRE_A}), Execute(EXPIRE_A), 120, LEASE_B, told, b, {});
    tr, acts := Extend(tr, acts, At(120, LEASE_B, told, b, {}), Deliver("a"),
                       120, LEASE_B, LEADING.(token := 3, touched := 120), b, {});
  }

  lemma LeaseLapsed() returns (tr: seq<System>, acts: seq<Action>)
    ensures Reaches(tr, acts, At(120, LEASE_A, LEADING, TRYING, {SET_B}))
    ensures NoExpire(acts)
  {
    tr, acts := FirstLeader();
    var a := LEADING;
    tr, acts := Extend(tr, acts, At(0, LEASE_A, a, IDLING, {}), Advance(120), 120, LEASE_A, a, IDLING, {});
    tr, acts := Extend(tr, acts, At(120, LEASE_A, a, IDLING, {}), RetryTick("b"), 120, LEASE_A, a, TRYING, {SET_B});
  }

  // Nor does it take an EXPIRE: a's renewal is merely overdue, its lease runs out, and b takes the key.
  lemma StaleFlag() returns (tr: seq<System>, acts: seq<Action>)
    ensures IsRun(tr, acts, 120) && NoExpire(acts)
    ensures IsLeader(tr[|acts|], "a") && IsLeader(tr[|acts|], "b") && Current(tr[|acts|]) == Some("b")
  {
    tr, acts := LeaseLapsed();
    var a, told := LEADING, TRYING.(inbox := Some(SetReply(None)), touched := 120);
    tr, acts := Extend(tr, acts, At(120, LEASE_A, a, TRYING, {SET_B}), Execute(SET_B), 120, LEASE_B, a, told, {});
    tr, acts := Extend(tr, acts, At(120, LEASE_B, a, told, {}), Deliver("b"),
                       120, LEASE_B, a, LEADING.(touched := 120), {});
  }

  const RELEASE_A := Command(CompareAndDelete, "a", 2)
  const SET_A_AGAIN := Command(SetNx, "a", 3)
  const LEASE_A_AGAIN := Some(Lease("a", 240))
  const STOPPED := Instance(Loop(false, Stopped), 2, None, 0)
  const REBORN := Instance(Loop(false, Idle), 2, None, 0)
  const LEADING_AGAIN := Instance(Loop(true, Idle), 3, None, 120)

  lemma LeaderReborn() returns (tr: seq<System>, acts: seq<Action>)
    ensures Reaches(tr, acts, At(120, LEASE_A, REBORN, IDLING, {RELEASE_A}))
    ensures NoExpire(acts) && TimelyUpTo(tr, 120, |acts|)
  {
    tr, acts := FirstLeader();
    tr, acts := Extend(tr, acts, At(0, LEASE_A, LEADING, IDLING, {}), Shutdown("a"),
                       0, LEASE_A, STOPPED, IDLING, {RELEASE_A});
    tr, acts := Extend(tr, acts, At(0, LEASE_A, STOPPED, IDLING, {RELEASE_A}), Advance(120),
                       120, LEASE_A, STOPPED, IDLING, {RELEASE_A});
    tr, acts := Extend(tr, acts, At(120, LEASE_A, STOPPED, IDLING, {RELEASE_A}), Restart("a"),
                       120, LEASE_A, REBORN, IDLING, {RELEASE_A});
  }

  lemma LeaderRestarted() returns (tr: seq<System>, acts: seq<Action>)
    ensures Reaches(tr, acts, At(120, LEASE_A_AGAIN, LEADING_AGAIN, IDLING, {RELEASE_A}))
    ensures NoExpire(acts) && TimelyUpTo(tr, 120, |acts|)
  {
    tr, acts := LeaderReborn();
    var trying := LEADING_AGAIN.(loop := Loop(false, AwaitSet), touched := 0);
    var told := LEADING_AGAIN.(loop := Loop(false, AwaitSet), inbox := Some(SetReply(None)));
    tr, acts := Extend(tr, acts, At(120, LEASE_A, REBORN, IDLING, {RELEASE_A}), RetryTick("a"),
                       120, LEASE_A, trying, IDLING, {RELEASE_A, SET_A_AGAIN});
    tr, acts := Extend(tr, acts, At(120, LEASE_A, trying, IDLING, {RELEASE_A, SET_A_AGAIN}), Execute(SET_A_AGAIN),
                       120, LEASE_A_AGAIN, told, IDLING, {RELEASE_A});
    tr, acts := Extend(tr, acts, At(120, LEASE_A_AGAIN, told, IDLING, {RELEASE_A}), Deliver("a"),
                       120, LEASE_A_AGAIN, LEADING_AGAIN, IDLING, {RELEASE_A});
  }

  // And timeliness alone is not enough when an instance restarts under its own name: a release that its
  // earlier life sent can still reach the key and let b in.
  lemma LateRelease() returns (tr: seq<System>, acts: seq<Action>)
    ensures IsRun(tr, acts, 120) && NoExpire(acts) && TimelyUpTo(tr, 120, |acts|)
    ensures IsLeader(tr[|acts|], "a") && IsLeader(tr[|acts|], "b") && Current(tr[|acts|]) == Some("b")
  {
    tr, acts := LeaderRestarted();
    var a, told := LEADING_AGAIN, TRYING.(inbox := Some(SetReply(None)), touched := 120);
    tr, acts := Extend(tr, acts, At(120, LEASE_A_AGAIN, a, IDLING, {RELEASE_A}), Execute(RELEASE_A),
                       120, None, a, IDLING, {});
    tr, acts := Extend(tr, acts, At(120, None, a, IDLING, {}), RetryTick("b"), 120, None, a, TRYING, {SET_B});
    tr, acts := Extend(tr, acts, At(120, None, a, TRYING, {SET_B}), Execute(SET_B), 120, LEASE_B, a, told, {});
    tr, acts := Extend(tr, acts, At(120, LEASE_B, a, told, {}), Deliver("b"),
                       120, LEASE_B, a, LEADING.(touched := 120), {});
  }

  // ---------------------------------------------------------------- a leader without the key steps down

  predicate Renews(s: System, id: InstanceId) {
    id in s.insts && (s.insts[id].loop.phase.AwaitGet? || s.insts[id].loop.phase.AwaitExpire?)
  }

  // A renewal leaves the flag set exactly when it ends with the news that EXPIRE has prolonged the lease:
  // another's name, a vacant key, a failed EXPIRE and every error clear it.
  lemma RenewalKeepsFlagIff(s: System, a: Action, ttl: nat, s': System, id: InstanceId)
    requires Step(s, a, ttl) == Some(s') && a in {Deliver(id), GiveUp(id)}
    requires Renews(s, id) && !Renews(s', id)
    ensures IsLeader(s', id) <==> a.Deliver? && s.insts[id].inbox == Some(ExpireReply(true))
  {
  }

  // Until its GET has been answered, with another's name or none.
  predicate Doubting(s: System, id: InstanceId) {
    && id in s.insts && s.insts[id].loop.phase.AwaitGet?
    && (s.insts[id].inbox.Some? ==>
          s.insts[id].inbox.value.GetReply? && s.insts[id].inbox.value.current != Some(id))
  }

  lemma DoubtingSteps(s: System, a: Action, ttl: nat, s': System, id: InstanceId)
    requires Step(s, a, ttl) == Some(s') && Doubting(s, id) && Current(s) != Some(id)
    ensures Doubting(s', id) || (!Renews(s', id) && !IsLeader(s', id))
  {
  }

  lemma {:induction false} DoubtingAlongRun(tr: seq<System>, acts: seq<Action>, ttl: nat, m: nat, n: nat,
                                            id: InstanceId)
    requires IsRun(tr, acts, ttl) && m < n < |tr| && acts[m] == HeartbeatTick(id) && IsLeader(tr[m], id)
    requires forall k :: m <= k < n ==> Current(tr[k]) != Some(id)
    requires forall k :: m < k < n ==> Renews(tr[k], id)
    ensures Doubting(tr[n], id) || (!Renews(tr[n], id) && !IsLeader(tr[n], id))
    decreases n
  {
    assert Step(tr[n - 1], acts[n - 1], ttl) == Some(tr[n]);
    if n > m + 1 {
      DoubtingAlongRun(tr, acts, ttl, m, n - 1, id);
      DoubtingSteps(tr[n - 1], acts[n - 1], ttl, tr[n], id);
    }
  }

  // In any run, a leader whose name is not in the key from its heartbeat until that renewal ends has lowered
  // its flag by then.
  lemma LostLeaderStepsDown(tr: seq<System>, acts: seq<Action>, ttl: nat, m: nat, n: nat, id: InstanceId)
    requires IsRun(tr, acts, ttl) && m < n < |tr| && acts[m] == HeartbeatTick(id) && IsLeader(tr[m], id)
    requires forall k :: m <= k < n ==> Current(tr[k]) != Some(id)
    requires (forall k :: m < k < n ==> Renews(tr[k], id)) && !Renews(tr[n], id)
    ensures !IsLeader(tr[n], id)
  {
    DoubtingAlongRun(tr, acts, ttl, m, n, id);
  }

  // A release that reaches the key while its sender holds it leaves the key vacant.
  lemma ReleaseVacates(s: System, cmd: Command, ttl: nat, s': System)
    requires Step(s, Execute(cmd), ttl) == Some(s') && cmd.kind.CompareAndDelete?
    ensures Current(s') == if Current(s) == Some(cmd.from) then None else Current(s)
  {
  }

  // Shutting down a live instance puts its release on the way and lowers its flag.
  lemma ShutdownReleases(s: System, id: InstanceId, ttl: nat, s': System)
    requires Step(s, Shutdown(id), ttl) == Some(s')
    ensures !IsLeader(s', id)
    ensures exists cmd :: cmd in s'.net && cmd.kind.CompareAndDelete? && cmd.from == id
  {
    assert Command(CompareAndDelete, id, s.insts[id].token + 1) in s'.net;
  }

  // What an instance is told of the key: nobody's, once the deadline has passed, its own, or another's.
  lemma StatusOfKey(s: System, id: InstanceId)
    ensures Status(id, Current(s)) == Vacant <==> s.lease.None? || s.lease.value.deadline <= s.now
    ensures Status(id, Current(s)) == Leader <==>
      s.lease.Some? && s.now < s.lease.value.deadline && s.lease.value.holder == id
    ensures Status(id, Current(s)) == Follower <==>
      s.lease.Some? && s.now < s.lease.value.deadline && s.lease.value.holder != id
  {
  }

  // ---------------------------------------------------------------- how the holder changes

  // Only the passing of its deadline or its own release makes a holder stop being the holder, and it
  // leaves the key vacant: no failed SET, no late EXPIRE and no other instance's release does.
  lemma StepChangesHolder(s: System, a: Action, ttl: nat, s': System, holder: InstanceId)
    requires 0 < ttl && Step(s, a, ttl) == Some(s')
    requires Current(s) == Some(holder) && Current(s') != Some(holder)
    ensures Current(s') == None
    ensures Leaves(s, a, holder)
  {
  }

  predicate Leaves(s: System, a: Action, holder: InstanceId) {
    || (a.Advance? && s.lease.Some? && s.lease.value.deadline <= s.now + a.seconds)
    || (a.Execute? && a.cmd.kind.CompareAndDelete? && a.cmd.from == holder)
  }

  // Between two different holders the key was vacant, and it became vacant by the first one's expiry or
  // own release.
  lemma {:induction false} HolderChangesThroughVacancy(tr: seq<System>, acts: seq<Action>, ttl: nat,
                                                       m: nat, n: nat, a: InstanceId, b: InstanceId)
    returns (k: nat)
    requires 0 < ttl && IsRun(tr, acts, ttl) && m < n < |tr|
    requires Current(tr[m]) == Some(a) && Current(tr[n]) == Some(b) && a != b
    ensures m <= k && k + 1 < n
    ensures forall j :: m <= j <= k ==> Current(tr[j]) == Some(a)
    ensures Current(tr[k + 1]) == None && Leaves(tr[k], acts[k], a)
    decreases n - m
  {
    if Current(tr[m + 1]) == Some(a) {
      k := HolderChangesThroughVacancy(tr, acts, ttl, m + 1, n, a, b);
    } else {
      StepChangesHolder(tr[m], acts[m], ttl, tr[m + 1], a);
      k := m;
    }
  }

  // ---------------------------------------------------------------- the key does not stay taken

  predicate Prolongs(s: System, a: Action) {
    a.Execute? && a.cmd.kind.Expire? && Current(s).Some?
  }

  predicate Acquires(s: System, a: Action) {
    a.Execute? && a.cmd.kind.SetNx? && Current(s).None?
  }

  // In any run, timely or not, a lease never reaches further than ttl ahead and the clock does not go back.
  lemma {:induction false} BoundedAlongRun(tr: seq<System>, acts: seq<Action>, ttl: nat, m: nat, n: nat)
    requires IsRun(tr, acts, ttl) && m <= n < |tr|
    ensures Bounded(tr[n], ttl) && tr[m].now <= tr[n].now
    decreases n
  {
    if n > 0 {
      BoundedAlongRun(tr, acts, ttl, if m < n then m else n - 1, n - 1);
      assert Step(tr[n - 1], acts[n - 1], ttl) == Some(tr[n]);
    }
  }

  ghost predicate Untouched(tr: seq<System>, acts: seq<Action>, m: nat, n: nat)
    requires m <= n <= |acts| && |tr| == |acts| + 1
  {
    forall k :: m <= k < n ==> !Prolongs(tr[k], acts[k]) && !Acquires(tr[k], acts[k])
  }

  lemma {:induction false} LeaseRunsOut(tr: seq<System>, acts: seq<Action>, ttl: nat, m: nat, n: nat)
    requires IsRun(tr, acts, ttl) && m <= n < |tr| && Untouched(tr, acts, m, n)
    ensures tr[n].lease.Some? ==> tr[n].lease.value.deadline <= tr[m].now + ttl
    ensures tr[m].now + ttl <= tr[n].now ==> Current(tr[n]) == None
    decreases n - m
  {
    BoundedAlongRun(tr, acts, ttl, m, n);
    if m < n {
      LeaseRunsOut(tr, acts, ttl, m, n - 1);
      assert Step(tr[n - 1], acts[n - 1], ttl) == Some(tr[n]);
      assert !Prolongs(tr[n - 1], acts[n - 1]) && !Acquires(tr[n - 1], acts[n - 1]);
    }
  }

  ghost predicate AttemptWithin(tr: seq<System>, acts: seq<Action>, m: nat, n: nat, from: int, retry: nat)
    requires m <= n <= |acts| && |tr| == |acts| + 1
  {
    exists k :: m <= k < n && from <= tr[k].now <= from + retry && acts[k].Execute? && acts[k].cmd.kind.SetNx?
  }

  // Once renewals stop, and as long as somebody tries every retry seconds, a new holder is named within
  // ttl + retry seconds.
  lemma NewLeaderInTime(tr: seq<System>, acts: seq<Action>, ttl: nat, retry: nat, m: nat, n: nat) returns (k: nat)
    requires 0 < ttl && IsRun(tr, acts, ttl) && m <= n < |tr|
    requires forall j :: m <= j < n ==> !Prolongs(tr[j], acts[j])
    requires tr[m].now + ttl + retry <= tr[n].now
    requires forall t ::
               tr[m].now <= t && t + retry <= tr[n].now ==> AttemptWithin(tr, acts, m, n, t, retry)
    ensures m <= k < n && tr[k].now <= tr[m].now + ttl + retry
    ensures Acquires(tr[k], acts[k]) && Current(tr[k + 1]) == Some(acts[k].cmd.from)
  {
    var t := tr[m].now + ttl;
    assert AttemptWithin(tr, acts, m, n, t, retry);
    var attempt :| m <= attempt < n && t <= tr[attempt].now <= t + retry
                && acts[attempt].Execute? && acts[attempt].cmd.kind.SetNx?;
    if Untouched(tr, acts, m, attempt) {
      LeaseRunsOut(tr, acts, ttl, m, attempt);
      k := attempt;
    } else {
      k :| m <= k < attempt && (Prolongs(tr[k], acts[k]) || Acquires(tr[k], acts[k]));
      BoundedAlongRun(tr, acts, ttl, k, attempt);
    }
    assert Step(tr[k], acts[k], ttl) == Some(tr[k + 1]);
  }
}
