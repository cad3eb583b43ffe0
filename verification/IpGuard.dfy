/**
 The per-address guard of src/lib.rs: `IpSlot::claim` and the two-step `Drop`, with
 claims and drops of other tasks interleaved between the two steps.
 */
module IpGuard {

  type Ip = nat
  type Task = nat

  // ---- The table object ----

  function Claimed(counts: map<Ip, nat>, ip: Ip, max: nat): (map<Ip, nat>, bool)
  {
    var now := if ip in counts then counts[ip] else 0;
    if now >= max then (counts[ip := now], false) else (counts[ip := now + 1], true)
  }

  function Decremented(counts: map<Ip, nat>, ip: Ip): map<Ip, nat>
  {
    if ip in counts then counts[ip := if counts[ip] == 0 then 0 else counts[ip] - 1] else counts
  }

  function Reclaimed(counts: map<Ip, nat>, ip: Ip): map<Ip, nat>
  {
    if ip in counts && counts[ip] == 0 then counts - {ip} else counts
  }

  /** The shared map; each method body is one critical section of the original. */
  class IpTable {
    var counts: map<Ip, nat>

    constructor ()
      ensures counts == map[]
    {
      counts := map[];
    }

    method Claim(ip: Ip, max: nat) returns (granted: bool)
      modifies this
      ensures (counts, granted) == Claimed(old(counts), ip, max)
      ensures granted <==> (if ip in old(counts) then old(counts)[ip] else 0) < max
      ensures forall other :: other != ip && other in old(counts) ==> other in counts && counts[other] == old(counts)[other]
    {
      if ip !in counts {
        counts := counts[ip := 0];
      }
      if counts[ip] >= max {
        assert counts == old(counts)[ip := counts[ip]];
        return false;
      }
      counts := counts[ip := counts[ip] + 1];
      assert counts == old(counts)[ip := counts[ip]];
      return true;
    }

    method Decrement(ip: Ip)
      modifies this
      ensures counts == Decremented(old(counts), ip)
    {
      if ip in counts {
        counts := counts[ip := if counts[ip] == 0 then 0 else counts[ip] - 1];
      }
    }

    method Reclaim(ip: Ip)
      modifies this
      ensures counts == Reclaimed(old(counts), ip)
    {
      if ip in counts && counts[ip] == 0 {
        counts := counts - {ip};
      }
    }
  }

  // ---- Many tasks ----

  /** A slot is held until its drop has decremented; the drop ends by reclaiming the key. */
  datatype Slot = Slot(ip: Ip, dropping: bool)

  datatype Guard = Guard(counts: map<Ip, nat>, slots: map<Task, Slot>)

  datatype Step = Claim(t: Task, ip: Ip) | Decrement(t: Task) | Reclaim(t: Task)

  predicate Can(g: Guard, x: Step)
  {
    match x
    case Claim(t, _) => t !in g.slots
    case Decrement(t) => t in g.slots && !g.slots[t].dropping
    case Reclaim(t) => t in g.slots && g.slots[t].dropping
  }

  function Do(g: Guard, x: Step, max: nat): Guard
    requires Can(g, x)
  {
    match x
    case Claim(t, ip) =>
      var (counts, granted) := Claimed(g.counts, ip, max);
      Guard(counts, if granted then g.slots[t := Slot(ip, false)] else g.slots)
    case Decrement(t) =>
      Guard(Decremented(g.counts, g.slots[t].ip), g.slots[t := g.slots[t].(dropping := true)])
    case Reclaim(t) => Guard(Reclaimed(g.counts, g.slots[t].ip), g.slots - {t})
  }

  /** Tasks holding a slot of this address. */
  function Holders(slots: map<Task, Slot>, ip: Ip): set<Task>
  {
    set t | t in slots && slots[t] == Slot(ip, false)
  }

  ghost predicate DropUnderWay(slots: map<Task, Slot>, ip: Ip)
  {
    exists t :: t in slots && slots[t] == Slot(ip, true)
  }

  /** The stored count is the number of slots held, for every address. */
  ghost predicate CountsAreExact(g: Guard)
  {
    forall ip :: |Holders(g.slots, ip)| == if ip in g.counts then g.counts[ip] else 0
  }

  ghost predicate WithinCeiling(g: Guard, max: nat)
  {
    forall ip :: ip in g.counts ==> g.counts[ip] <= max
  }

  /** A zero entry is only ever a drop between its two steps. */
  ghost predicate ZeroIsTransient(g: Guard)
  {
    forall ip :: ip in g.counts && g.counts[ip] == 0 ==> DropUnderWay(g.slots, ip)
  }

  lemma HoldersChange(slots: map<Task, Slot>, t: Task, s: Slot, ip: Ip)
    ensures Holders(slots[t := s], ip) ==
            if s == Slot(ip, false) then Holders(slots, ip) + {t} else Holders(slots, ip) - {t}
    ensures Holders(slots - {t}, ip) == Holders(slots, ip) - {t}
    ensures t in Holders(slots, ip) <==> t in slots && slots[t] == Slot(ip, false)
  {
  }

  /** One when the task holds a slot of this address, else zero. */
  function Share(slots: map<Task, Slot>, t: Task, ip: Ip): nat
  {
    if t in slots && slots[t] == Slot(ip, false) then 1 else 0
  }

  lemma HoldersSize(slots: map<Task, Slot>, t: Task, s: Slot, ip: Ip)
    ensures |Holders(slots[t := s], ip)| + Share(slots, t, ip) == |Holders(slots, ip)| + if s == Slot(ip, false) then 1 else 0
    ensures |Holders(slots - {t}, ip)| + Share(slots, t, ip) == |Holders(slots, ip)|
  {
    HoldersChange(slots, t, s, ip);
    hide Holders;
    var held := Holders(slots, ip);
    if t in held {
      assert held == (held - {t}) + {t};
    } else {
      assert held - {t} == held;
    }
  }

  /** The guard's own decrement always finds a count above zero: `saturating_sub` never saturates. */
  lemma NeverSaturates(g: Guard, t: Task)
    requires CountsAreExact(g) && t in g.slots && !g.slots[t].dropping
    ensures g.slots[t].ip in g.counts && g.counts[g.slots[t].ip] > 0
  {
    assert t in Holders(g.slots, g.slots[t].ip);
  }

  /** The step changes one address's holders and its count alike. */
  lemma StepKeepsCount(g: Guard, x: Step, max: nat, ip: Ip)
    requires Can(g, x) && CountsAreExact(g)
    ensures var h := Do(g, x, max);
            |Holders(h.slots, ip)| == if ip in h.counts then h.counts[ip] else 0
  {
    assert |Holders(g.slots, ip)| == if ip in g.counts then g.counts[ip] else 0;
    if x.Decrement? {
      NeverSaturates(g, x.t);
    }
    hide Holders, CountsAreExact;
    match x
    case Claim(t, at) => HoldersSize(g.slots, t, Slot(at, false), ip);
    case Decrement(t) => HoldersSize(g.slots, t, g.slots[t].(dropping := true), ip);
    case Reclaim(t) => HoldersSize(g.slots, t, g.slots[t], ip);
  }

  lemma StepKeepsCeiling(g: Guard, x: Step, max: nat)
    requires Can(g, x) && WithinCeiling(g, max)
    ensures WithinCeiling(Do(g, x, max), max)
  {
  }

  lemma StepKeepsCounts(g: Guard, x: Step, max: nat)
    requires Can(g, x) && CountsAreExact(g) && WithinCeiling(g, max)
    ensures CountsAreExact(Do(g, x, max)) && WithinCeiling(Do(g, x, max), max)
  {
    hide Do, Holders;
    StepKeepsCeiling(g, x, max);
    forall ip
      ensures var h := Do(g, x, max); |Holders(h.slots, ip)| == if ip in h.counts then h.counts[ip] else 0
    {
      StepKeepsCount(g, x, max, ip);
    }
  }

  lemma StepKeepsZeroTransient(g: Guard, x: Step, max: nat)
    requires Can(g, x) && ZeroIsTransient(g) && max >= 1
    ensures ZeroIsTransient(Do(g, x, max))
  {
    var h := Do(g, x, max);
    forall ip | ip in h.counts && h.counts[ip] == 0
      ensures DropUnderWay(h.slots, ip)
    {
      if x.Decrement? && ip == g.slots[x.t].ip {
        assert h.slots[x.t] == Slot(ip, true);
      } else {
        assert ip in g.counts && g.counts[ip] == 0;
        var t :| t in g.slots && g.slots[t] == Slot(ip, true);
        assert t in h.slots && h.slots[t] == Slot(ip, true);
      }
    }
  }

  predicate Runs(g: Guard, run: seq<Step>, max: nat)
    decreases |run|
  {
    run == [] || (Can(g, run[0]) && Runs(Do(g, run[0], max), run[1..], max))
  }

  function After(g: Guard, run: seq<Step>, max: nat): Guard
    requires Runs(g, run, max)
    decreases |run|
  {
    if run == [] then g else After(Do(g, run[0], max), run[1..], max)
  }

  const EMPTY := Guard(map[], map[])

  lemma {:induction false} RunKeepsGuard(g: Guard, run: seq<Step>, max: nat)
    requires Runs(g, run, max) && CountsAreExact(g) && WithinCeiling(g, max)
    ensures CountsAreExact(After(g, run, max)) && WithinCeiling(After(g, run, max), max)
    ensures max >= 1 && ZeroIsTransient(g) ==> ZeroIsTransient(After(g, run, max))
    decreases |run|
  {
    if run != [] {
      StepKeepsCounts(g, run[0], max);
      if max >= 1 && ZeroIsTransient(g) {
        StepKeepsZeroTransient(g, run[0], max);
      }
      RunKeepsGuard(Do(g, run[0], max), run[1..], max);
    }
  }

  /**
   Drift-free accounting over every interleaving: the count is exactly the slots held
   and not yet decremented, and no address ever holds more than its ceiling.
   */
  lemma GuardAccounting(run: seq<Step>, max: nat, ip: Ip)
    requires Runs(EMPTY, run, max)
    ensures var g := After(EMPTY, run, max);
            && |Holders(g.slots, ip)| == (if ip in g.counts then g.counts[ip] else 0)
            && |Holders(g.slots, ip)| <= max
  {
    EmptyIsExact();
    RunKeepsGuard(EMPTY, run, max);
  }

  lemma EmptyIsExact()
    ensures CountsAreExact(EMPTY) && ZeroIsTransient(EMPTY)
  {
    forall ip
      ensures |Holders(EMPTY.slots, ip)| == 0
    {
      assert Holders(EMPTY.slots, ip) == {};
    }
  }

  /** A ceiling of zero leaves an entry behind that no drop will ever clear. */
  lemma ZeroCeilingLeaks() returns (run: seq<Step>)
    ensures Runs(EMPTY, run, 0) && !ZeroIsTransient(After(EMPTY, run, 0))
  {
    run := [Claim(0, 7)];
    assert run[1..] == [];
    var g := After(EMPTY, run, 0);
    assert g == Do(EMPTY, run[0], 0);
    assert 7 in g.counts && g.counts[7] == 0 && !DropUnderWay(g.slots, 7);
  }

  /** Idle addresses leave no entry behind exactly when the ceiling is at least one. */
  lemma ZeroEntriesAreTransient(max: nat)
    ensures (forall run :: Runs(EMPTY, run, max) ==> ZeroIsTransient(After(EMPTY, run, max))) <==> max >= 1
  {
    EmptyIsExact();
    if max >= 1 {
      forall run | Runs(EMPTY, run, max)
        ensures ZeroIsTransient(After(EMPTY, run, max))
      {
        RunKeepsGuard(EMPTY, run, max);
      }
    } else {
      var run := ZeroCeilingLeaks();
      assert Runs(EMPTY, run, max);
    }
  }
}
