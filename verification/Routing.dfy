/**
 Bridge registration (`serve_bridge` in src/lib.rs) as interleaved atomic steps of
 many tasks: admission, registration with takeover, shutting the displaced session,
 and generation-checked removal.  A session is named by the task that started it.
 */
module Routing {
  import opened Bytes
  import opened Counting
  import opened IpGuard

  type Key = nat

  /** Remove an entry only if it still names this session. */
  function Unrouted(table: map<Key, Task>, key: Key, t: Task): map<Key, Task>
  {
    if key in table && table[key] == t then table - {key} else table
  }

  /** Who holds the route before a newer link takes it. */
  function Displaced(table: map<Key, Task>, key: Key): Option<Task>
  {
    if key in table then Some(table[key]) else None
  }

  /** The shared routing table; each method is one atomic operation of the original. */
  class RouteTable {
    var table: map<Key, Task>

    constructor ()
      ensures table == map[]
    {
      table := map[];
    }

    /** The newest link takes the route; the caller learns whom it displaced. */
    method Insert(key: Key, t: Task) returns (previous: Option<Task>)
      modifies this
      ensures table == old(table)[key := t]
      ensures previous == Displaced(old(table), key)
      // Leaving again later undoes exactly a route that displaced nobody.
      ensures previous.None? <==> Unrouted(table, key, t) == old(table)
    {
      previous := if key in table then Some(table[key]) else None;
      table := table[key := t];
    }

    method RemoveIf(key: Key, t: Task)
      modifies this
      ensures table == Unrouted(old(table), key, t)
      ensures forall k :: k in old(table) && (k != key || old(table)[k] != t) ==> k in table && table[k] == old(table)[k]
    {
      if key in table && table[key] == t {
        table := table - {key};
      }
    }
  }

  /** Where a `serve_bridge` task stands; locals are dropped in reverse order at the end. */
  datatype Stage =
    | Permitted                            // holds a global permit
    | Admitted                             // and a per-address slot; handshaking
    | Displacing(previous: Option<Task>)   // in the table; about to shut `previous` down
    | Waiting                              // awaiting its own session
    | Leaving                              // its session ended; about to remove its entry
    | SlotDrop                             // about to decrement its address's count
    | SlotReclaim                          // decremented; about to reclaim the key
    | PermitDrop                           // only the global permit is left
    | Ended

  datatype Info = Info(ip: Ip, key: Key, stage: Stage)

  datatype State = State(
    tasks: map<Task, Info>,
    permits: nat,                 // free global permits
    counts: map<Ip, nat>,         // the per-address table
    table: map<Key, Task>,        // the routing table
    alive: set<Task>)             // sessions whose read task still runs

  datatype Event =
    | Admit(t: Task, ip: Ip)
    | ClaimSlot(t: Task)
    | HandshakeFails(t: Task)
    | Register(t: Task, key: Key)
    | ShutPrevious(t: Task)
    | LinkDies(t: Task)
    | SessionEnds(t: Task)
    | Unroute(t: Task)
    | DropSlot(t: Task)
    | ReclaimSlot(t: Task)
    | DropPermit(t: Task)

  predicate At(s: State, t: Task, stage: Stage)
  {
    t in s.tasks && s.tasks[t].stage == stage
  }

  predicate Can(s: State, e: Event)
  {
    match e
    case Admit(t, _) => t !in s.tasks && s.permits > 0
    case ClaimSlot(t) => At(s, t, Permitted)
    case HandshakeFails(t) => At(s, t, Admitted)
    case Register(t, _) => At(s, t, Admitted)
    case ShutPrevious(t) => t in s.tasks && s.tasks[t].stage.Displacing?
    case LinkDies(t) => t in s.alive
    case SessionEnds(t) => At(s, t, Waiting) && t !in s.alive
    case Unroute(t) => At(s, t, Leaving)
    case DropSlot(t) => At(s, t, SlotDrop)
    case ReclaimSlot(t) => At(s, t, SlotReclaim)
    case DropPermit(t) => At(s, t, PermitDrop)
  }

  function Move(s: State, t: Task, stage: Stage): State
    requires t in s.tasks
  {
    s.(tasks := s.tasks[t := s.tasks[t].(stage := stage)])
  }

  function Do(s: State, e: Event, perIp: nat): State
    requires Can(s, e)
  {
    match e
    case Admit(t, ip) => s.(tasks := s.tasks[t := Info(ip, 0, Permitted)], permits := s.permits - 1)
    case ClaimSlot(t) =>
      var (counts, granted) := Claimed(s.counts, s.tasks[t].ip, perIp);
      Move(s, t, if granted then Admitted else PermitDrop).(counts := counts)
    case HandshakeFails(t) => Move(s, t, SlotDrop)
    case Register(t, key) =>
      var previous := Displaced(s.table, key);
      s.(tasks := s.tasks[t := Info(s.tasks[t].ip, key, Displacing(previous))],
         table := s.table[key := t], alive := s.alive + {t})
    case ShutPrevious(t) =>
      var previous := s.tasks[t].stage.previous;
      Move(s, t, Waiting).(alive := if previous.Some? then s.alive - {previous.value} else s.alive)
    case LinkDies(t) => s.(alive := s.alive - {t})
    case SessionEnds(t) => Move(s, t, Leaving)
    case Unroute(t) =>
      Move(s, t, SlotDrop).(table := Unrouted(s.table, s.tasks[t].key, t))
    case DropSlot(t) => Move(s, t, SlotReclaim).(counts := Decremented(s.counts, s.tasks[t].ip))
    case ReclaimSlot(t) => Move(s, t, PermitDrop).(counts := Reclaimed(s.counts, s.tasks[t].ip))
    case DropPermit(t) => Move(s, t, Ended).(permits := s.permits + 1)
  }

  // ---- Routes ----

  predicate Routed(stage: Stage)
  {
    stage.Displacing? || stage.Waiting? || stage.Leaving?
  }

  /** Some task is about to shut this session down. */
  ghost predicate Doomed(s: State, t: Task)
  {
    exists u :: u in s.tasks && s.tasks[u].stage == Displacing(Some(t))
  }

  /** Every entry belongs to the task that made it, and that task has not yet left. */
  ghost predicate EntriesOwned(s: State)
  {
    forall k :: k in s.table ==>
                  s.table[k] in s.tasks && s.tasks[s.table[k]].key == k && Routed(s.tasks[s.table[k]].stage)
  }

  /** A live session is reachable by its key, or about to be shut down. */
  ghost predicate NoOrphans(s: State)
  {
    forall t :: t in s.alive ==>
                  && t in s.tasks && Routed(s.tasks[t].stage) && !s.tasks[t].stage.Leaving?
                  && ((s.tasks[t].key in s.table && s.table[s.tasks[t].key] == t) || Doomed(s, t))
  }

  lemma StepKeepsOwners(s: State, e: Event, perIp: nat)
    requires Can(s, e) && EntriesOwned(s)
    ensures EntriesOwned(Do(s, e, perIp))
  {
  }

  lemma StepKeepsRoutes(s: State, e: Event, perIp: nat)
    requires Can(s, e) && EntriesOwned(s) && NoOrphans(s)
    ensures NoOrphans(Do(s, e, perIp))
  {
    var n := Do(s, e, perIp);
    forall t | t in n.alive
      ensures && t in n.tasks && Routed(n.tasks[t].stage) && !n.tasks[t].stage.Leaving?
              && ((n.tasks[t].key in n.table && n.table[n.tasks[t].key] == t) || Doomed(n, t))
    {
      LiveStaysReachable(s, e, perIp, t);
    }
  }

  lemma LiveStaysReachable(s: State, e: Event, perIp: nat, t: Task)
    requires Can(s, e) && EntriesOwned(s) && NoOrphans(s)
    requires t in Do(s, e, perIp).alive
    ensures var n := Do(s, e, perIp);
            && t in n.tasks && Routed(n.tasks[t].stage) && !n.tasks[t].stage.Leaving?
            && ((n.tasks[t].key in n.table && n.table[n.tasks[t].key] == t) || Doomed(n, t))
  {
    var n := Do(s, e, perIp);
    if e.Register? && e.t == t {
      assert n.table[e.key] == t;
    } else {
      assert t in s.alive;
      if Doomed(s, t) {
        var u :| u in s.tasks && s.tasks[u].stage == Displacing(Some(t));
        // The only step that ends the threat carries it out.
        assert u in n.tasks && n.tasks[u].stage == Displacing(Some(t));
      } else if e.Register? && e.key == s.tasks[t].key {
        assert n.tasks[e.t].stage == Displacing(Some(t));
      }
    }
  }

  // ---- Admission ----

  predicate HoldsSlot(stage: Stage)
  {
    stage.Admitted? || Routed(stage) || stage.SlotDrop?
  }

  /** Tasks that hold a global permit. */
  function PermitHolders(s: State): set<Task>
  {
    set t | t in s.tasks && !s.tasks[t].stage.Ended?
  }

  /** The per-address guard's view of the tasks. */
  function Slots(tasks: map<Task, Info>): map<Task, Slot>
  {
    map t | t in tasks && (HoldsSlot(tasks[t].stage) || tasks[t].stage.SlotReclaim?)
      :: Slot(tasks[t].ip, tasks[t].stage.SlotReclaim?)
  }

  function GuardOf(s: State): Guard
  {
    Guard(s.counts, Slots(s.tasks))
  }

  /** The step of the guard that a step of the registration takes, if any. */
  function GuardStep(s: State, e: Event): Option<IpGuard.Step>
    requires Can(s, e)
  {
    match e
    case ClaimSlot(t) => Some(Claim(t, s.tasks[t].ip))
    case DropSlot(t) => Some(Decrement(t))
    case ReclaimSlot(t) => Some(Reclaim(t))
    case _ => None
  }

  /** A task that moves on without touching its slot looks the same to the guard. */
  lemma SlotsStay(tasks: map<Task, Info>, t: Task, info: Info)
    requires t in tasks ==> tasks[t].ip == info.ip
    requires (t in tasks && HoldsSlot(tasks[t].stage)) == HoldsSlot(info.stage)
    requires (t in tasks && tasks[t].stage.SlotReclaim?) == info.stage.SlotReclaim?
    ensures Slots(tasks[t := info]) == Slots(tasks)
  {
  }

  lemma SlotsChange(tasks: map<Task, Info>, t: Task, info: Info)
    ensures Slots(tasks[t := info]) ==
            if HoldsSlot(info.stage) || info.stage.SlotReclaim?
            then Slots(tasks)[t := Slot(info.ip, info.stage.SlotReclaim?)] else Slots(tasks) - {t}
  {
  }

  /** Registration uses the guard exactly as the guard's own tasks do. */
  lemma RefinesGuard(s: State, e: Event, perIp: nat)
    requires Can(s, e)
    ensures match GuardStep(s, e)
            case None => GuardOf(Do(s, e, perIp)) == GuardOf(s)
            case Some(x) => IpGuard.Can(GuardOf(s), x) && GuardOf(Do(s, e, perIp)) == IpGuard.Do(GuardOf(s), x, perIp)
  {
    var n := Do(s, e, perIp);
    assert e.t in s.tasks ==> (e.t in Slots(s.tasks) <==> HoldsSlot(s.tasks[e.t].stage) || s.tasks[e.t].stage.SlotReclaim?);
    hide Slots, Claimed, Decremented, Reclaimed, Unrouted;
    if !e.LinkDies? {
      var info := n.tasks[e.t];
      if e.DropSlot? || e.ReclaimSlot? || info.stage.Admitted? {
        SlotsChange(s.tasks, e.t, info);
      } else {
        SlotsStay(s.tasks, e.t, info);
      }
    }
  }

  ghost predicate Inv(s: State, maxBridges: nat, perIp: nat)
  {
    && EntriesOwned(s) && NoOrphans(s)
    && s.permits + |PermitHolders(s)| == maxBridges
    && CountsAreExact(GuardOf(s)) && WithinCeiling(GuardOf(s), perIp)
  }

  /** A task on its way through its stages keeps its permit until the end. */
  lemma KeepsHolding(tasks: map<Task, Info>, t: Task, info: Info, s: State, n: State)
    requires s.tasks == tasks && n.tasks == tasks[t := info]
    requires t in tasks && !tasks[t].stage.Ended? && !info.stage.Ended?
    ensures PermitHolders(n) == PermitHolders(s)
  {
  }

  lemma HoldersOfTasks(s: State, n: State, t: Task)
    ensures s.tasks == n.tasks ==> PermitHolders(s) == PermitHolders(n)
    ensures t !in s.tasks && t in n.tasks && !n.tasks[t].stage.Ended? && n.tasks == s.tasks[t := n.tasks[t]] ==>
              PermitHolders(n) == PermitHolders(s) + {t} && t !in PermitHolders(s)
    ensures t in s.tasks && !s.tasks[t].stage.Ended? && n.tasks == s.tasks[t := s.tasks[t].(stage := Ended)] ==>
              PermitHolders(n) == PermitHolders(s) - {t} && t in PermitHolders(s)
  {
  }

  lemma StepKeepsPermits(s: State, e: Event, perIp: nat)
    requires Can(s, e)
    ensures Do(s, e, perIp).permits + |PermitHolders(Do(s, e, perIp))| == s.permits + |PermitHolders(s)|
  {
    hide Claimed, Decremented, Reclaimed, Unrouted, PermitHolders;
    var n := Do(s, e, perIp);
    HoldersOfTasks(s, n, e.t);
    match e
    case Admit(_, _) =>
    case LinkDies(_) =>
    case DropPermit(_) =>
    case _ =>
      assert n.permits == s.permits;
      KeepsHolding(s.tasks, e.t, n.tasks[e.t], s, n);
  }

  lemma StepKeepsInv(s: State, e: Event, maxBridges: nat, perIp: nat)
    requires Can(s, e) && Inv(s, maxBridges, perIp)
    ensures Inv(Do(s, e, perIp), maxBridges, perIp)
  {
    hide EntriesOwned, NoOrphans, Can, Do, CountsAreExact, WithinCeiling, PermitHolders, GuardOf;
    StepKeepsOwners(s, e, perIp);
    StepKeepsRoutes(s, e, perIp);
    StepKeepsPermits(s, e, perIp);
    RefinesGuard(s, e, perIp);
    var x := GuardStep(s, e);
    if x.Some? {
      StepKeepsCounts(GuardOf(s), x.value, perIp);
    }
  }

  predicate Runs(s: State, run: seq<Event>, perIp: nat)
    decreases |run|
  {
    run == [] || (Can(s, run[0]) && Runs(Do(s, run[0], perIp), run[1..], perIp))
  }

  function After(s: State, run: seq<Event>, perIp: nat): State
    requires Runs(s, run, perIp)
    decreases |run|
  {
    if run == [] then s else After(Do(s, run[0], perIp), run[1..], perIp)
  }

  function Boot(maxBridges: nat): State
  {
    State(map[], maxBridges, map[], map[], {})
  }

  lemma {:induction false} RunKeepsInv(s: State, run: seq<Event>, maxBridges: nat, perIp: nat)
    requires Runs(s, run, perIp) && Inv(s, maxBridges, perIp)
    ensures Inv(After(s, run, perIp), maxBridges, perIp)
    decreases |run|
  {
    hide Inv, Can, Do;
    if run != [] {
      StepKeepsInv(s, run[0], maxBridges, perIp);
      RunKeepsInv(Do(s, run[0], perIp), run[1..], maxBridges, perIp);
    }
  }

  lemma BootIsGood(maxBridges: nat, perIp: nat)
    ensures Inv(Boot(maxBridges), maxBridges, perIp)
  {
    assert PermitHolders(Boot(maxBridges)) == {};
    assert GuardOf(Boot(maxBridges)) == EMPTY;
    EmptyIsExact();
  }

  /**
   No orphaned bridge link, over all interleavings: a session that is still running is
   the one its key routes to, or some task is just about to shut it down; and every
   route leads to a task that has not left.
   */
  lemma NoOrphanedLink(maxBridges: nat, perIp: nat, run: seq<Event>, t: Task)
    requires Runs(Boot(maxBridges), run, perIp)
    ensures var s := After(Boot(maxBridges), run, perIp);
            && (t in s.alive ==> t in s.tasks && ((s.tasks[t].key in s.table && s.table[s.tasks[t].key] == t) || Doomed(s, t)))
            && EntriesOwned(s)
  {
    BootIsGood(maxBridges, perIp);
    RunKeepsInv(Boot(maxBridges), run, maxBridges, perIp);
  }

  /**
   In every reachable state an entry changes only when its own dead session leaves or a
   newer link takes it over: the exit of an older generation leaves a newer route alone.
   */
  lemma RouteStability(maxBridges: nat, perIp: nat, run: seq<Event>, e: Event, k: Key)
    requires Runs(Boot(maxBridges), run, perIp)
    requires Can(After(Boot(maxBridges), run, perIp), e) && k in After(Boot(maxBridges), run, perIp).table
    ensures var s := After(Boot(maxBridges), run, perIp);
            var t, n := s.table[k], Do(s, e, perIp);
            || (k in n.table && n.table[k] == t)
            || (e == Unroute(t) && k !in n.table && t !in s.alive)
            || (e.Register? && e.key == k && n.table[k] == e.t && n.tasks[e.t].stage == Displacing(Some(t)))
  {
    hide Runs, After;
    BootIsGood(maxBridges, perIp);
    RunKeepsInv(Boot(maxBridges), run, maxBridges, perIp);
  }

  /** Keys whose current link came from one address. */
  function KeysFrom(s: State, ip: Ip): map<Key, Task>
  {
    map k | k in s.table && s.table[k] in s.tasks && s.tasks[s.table[k]].ip == ip :: s.table[k]
  }

  /** The routing table never holds more links than the process or one address may have. */
  lemma TableIsBounded(maxBridges: nat, perIp: nat, run: seq<Event>, ip: Ip)
    requires Runs(Boot(maxBridges), run, perIp)
    ensures var s := After(Boot(maxBridges), run, perIp);
            |s.table| <= maxBridges && |KeysFrom(s, ip)| <= perIp
  {
    BootIsGood(maxBridges, perIp);
    RunKeepsInv(Boot(maxBridges), run, maxBridges, perIp);
    var s := After(Boot(maxBridges), run, perIp);
    assert Injective(s.table);
    InjectiveSize(s.table);
    assert s.table.Values <= PermitHolders(s);
    SubsetSize(s.table.Values, PermitHolders(s));
    var local := KeysFrom(s, ip);
    assert Injective(local);
    InjectiveSize(local);
    assert local.Values <= Holders(Slots(s.tasks), ip);
    SubsetSize(local.Values, Holders(Slots(s.tasks), ip));
    assert |Holders(GuardOf(s).slots, ip)| <= perIp;
  }

  // ---- Nobody is kept ----

  /** How many stages a task still has to pass. */
  function StagesLeft(s: State, t: Task): nat
    requires t in s.tasks
  {
    match s.tasks[t].stage
    case Permitted => 8
    case Admitted => 8
    case Displacing(_) => 7
    case Waiting => if t in s.alive then 6 else 5
    case Leaving => 4
    case SlotDrop => 3
    case SlotReclaim => 2
    case PermitDrop => 1
    case Ended => 0
  }

  /** The task's own next step on its way out. */
  function WayOut(s: State, t: Task): Event
    requires t in s.tasks
  {
    match s.tasks[t].stage
    case Permitted => ClaimSlot(t)
    case Admitted => HandshakeFails(t)
    case Displacing(_) => ShutPrevious(t)
    case Waiting => if t in s.alive then LinkDies(t) else SessionEnds(t)
    case Leaving => Unroute(t)
    case SlotDrop => DropSlot(t)
    case SlotReclaim => ReclaimSlot(t)
    case PermitDrop => DropPermit(t)
    case Ended => LinkDies(t)
  }

  lemma WayOutLeads(s: State, t: Task, perIp: nat)
    requires t in s.tasks && !s.tasks[t].stage.Ended?
    ensures Can(s, WayOut(s, t))
    ensures var n := Do(s, WayOut(s, t), perIp);
            && t in n.tasks
            && (StagesLeft(n, t) < StagesLeft(s, t) || (s.tasks[t].stage.Permitted? && n.tasks[t].stage.Admitted?))
            && n.permits == s.permits + if n.tasks[t].stage.Ended? then 1 else 0
  {
  }

  /**
   Whatever stage a task is in, it can leave by its own steps alone once its link is
   dead: it gives its permit back, and no route of the table leads to it any more.
   */
  lemma {:induction false} EveryTaskCanLeave(s: State, t: Task, perIp: nat) returns (run: seq<Event>)
    requires t in s.tasks && !s.tasks[t].stage.Ended? && EntriesOwned(s)
    ensures Runs(s, run, perIp) && EntriesOwned(After(s, run, perIp))
    ensures var n := After(s, run, perIp);
            && t in n.tasks && n.tasks[t].stage == Ended && n.permits == s.permits + 1
            && forall k :: k in n.table ==> n.table[k] != t
    ensures forall i :: 0 <= i < |run| ==> run[i].t == t
    decreases StagesLeft(s, t), if s.tasks[t].stage.Permitted? then 1 else 0
  {
    hide Can, Do;
    var e := WayOut(s, t);
    WayOutLeads(s, t, perIp);
    StepKeepsOwners(s, e, perIp);
    var n := Do(s, e, perIp);
    if n.tasks[t].stage.Ended? {
      run := [e];
      assert run[1..] == [];
    } else {
      var rest := EveryTaskCanLeave(n, t, perIp);
      run := [e] + rest;
      assert run[1..] == rest;
    }
  }

  /** A task that passed its handshake can take the route of any key at once. */
  lemma AdmittedCanRegister(s: State, t: Task, key: Key, perIp: nat)
    requires At(s, t, Admitted)
    ensures Can(s, Register(t, key))
    ensures var n := Do(s, Register(t, key), perIp);
            key in n.table && n.table[key] == t && t in n.alive && n.tasks[t].stage == Displacing(Displaced(s.table, key))
  {
  }
}
