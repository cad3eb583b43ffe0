/**
 A session's stream ceiling under concurrency (src/mux.rs).  Permits are tokens; the
 atomic steps are the ones the tasks really take: a permit is acquired before its
 stream is inserted, and given back only after the stream has left the map.
 */
module StreamBudget {
  import opened Counting

  /** `carried` are the permits owned by a task between two steps. */
  datatype Pool = Pool(free: set<nat>, carried: set<nat>, streams: map<nat, nat>)

  datatype Step =
    | Acquire(permit: nat)            // try_acquire_owned
    | Insert(id: nat, permit: nat)    // streams.insert, for a new id or over a live one
    | Remove(id: nat)                 // streams.remove, or one entry of retain
    | Drop(permit: nat)               // the owner of a permit goes away

  predicate Can(p: Pool, x: Step)
  {
    match x
    case Acquire(permit) => permit in p.free
    case Insert(_, permit) => permit in p.carried
    case Remove(id) => id in p.streams
    case Drop(permit) => permit in p.carried
  }

  function Do(p: Pool, x: Step): Pool
    requires Can(p, x)
  {
    match x
    case Acquire(permit) => p.(free := p.free - {permit}, carried := p.carried + {permit})
    case Insert(id, permit) =>
      p.(carried := p.carried - {permit} + (if id in p.streams then {p.streams[id]} else {}),
         streams := p.streams[id := permit])
    case Remove(id) => p.(carried := p.carried + {p.streams[id]}, streams := p.streams - {id})
    case Drop(permit) => p.(free := p.free + {permit}, carried := p.carried - {permit})
  }

  /** Each permit is in exactly one place. */
  ghost predicate Partitioned(p: Pool, permits: set<nat>)
  {
    && p.free !! p.carried
    && p.free !! p.streams.Values
    && p.carried !! p.streams.Values
    && p.free + p.carried + p.streams.Values == permits
    && Injective(p.streams)
  }

  lemma StepKeepsPartition(p: Pool, x: Step, permits: set<nat>)
    requires Can(p, x) && Partitioned(p, permits)
    ensures Partitioned(Do(p, x), permits)
  {
    var q := Do(p, x);
    match x
    case Acquire(_) =>
    case Insert(id, permit) => InsertedValues(p.streams, id, permit);
    case Remove(id) => RemovedValues(p.streams, id);
    case Drop(_) =>
  }

  lemma InsertedValues(m: map<nat, nat>, id: nat, v: nat)
    requires Injective(m) && v !in m.Values
    ensures Injective(m[id := v])
    ensures m[id := v].Values == m.Values - (if id in m then {m[id]} else {}) + {v}
  {
    var n := m[id := v];
    forall y | y in m.Values && (id in m ==> y != m[id])
      ensures y in n.Values
    {
      var k :| k in m && m[k] == y;
      assert n[k] == y;
    }
    assert n[id] == v;
  }

  lemma RemovedValues(m: map<nat, nat>, id: nat)
    requires Injective(m) && id in m
    ensures Injective(m - {id}) && (m - {id}).Values == m.Values - {m[id]}
  {
    var n := m - {id};
    forall y | y in m.Values - {m[id]}
      ensures y in n.Values
    {
      var k :| k in m && m[k] == y;
      assert n[k] == y;
    }
  }

  predicate Runs(p: Pool, run: seq<Step>)
    decreases |run|
  {
    run == [] || (Can(p, run[0]) && Runs(Do(p, run[0]), run[1..]))
  }

  function After(p: Pool, run: seq<Step>): Pool
    requires Runs(p, run)
    decreases |run|
  {
    if run == [] then p else After(Do(p, run[0]), run[1..])
  }

  /**
   Exact budget: under every interleaving, free permits, permits in transit and
   streams in the map add up to the ceiling, so it is never exceeded, and a permit
   that has been released is held nowhere else.
   */
  lemma {:induction false} ExactBudget(p: Pool, run: seq<Step>, permits: set<nat>)
    requires Runs(p, run) && Partitioned(p, permits)
    ensures var q := After(p, run);
            && Partitioned(q, permits)
            && |q.free| + |q.carried| + |q.streams| == |permits|
            && |q.streams| <= |permits|
            && forall permit :: permit in q.free ==> permit !in q.carried && permit !in q.streams.Values
    decreases |run|
  {
    if run == [] {
      InjectiveSize(p.streams);
      assert |p.free + p.carried| == |p.free| + |p.carried|;
      assert |p.free + p.carried + p.streams.Values| == |p.free + p.carried| + |p.streams.Values|;
    } else {
      StepKeepsPartition(p, run[0], permits);
      ExactBudget(Do(p, run[0]), run[1..], permits);
    }
  }

  /** Tokens for `n` permits. */
  function Tokens(n: nat): (r: set<nat>)
    ensures |r| == n && forall i :: i in r ==> i < n
  {
    if n == 0 then {} else Tokens(n - 1) + {n - 1}
  }

  /** A session starts with max(1, max_streams) permits, all free. */
  function Opening(maxStreams: nat): Pool
  {
    Pool(Tokens(if maxStreams == 0 then 1 else maxStreams), {}, map[])
  }

  /** Every run of a new session keeps its streams within max(1, max_streams). */
  lemma CeilingHolds(maxStreams: nat, run: seq<Step>)
    requires Runs(Opening(maxStreams), run)
    ensures var q := After(Opening(maxStreams), run);
            |q.free| + |q.carried| + |q.streams| == if maxStreams == 0 then 1 else maxStreams
  {
    var p := Opening(maxStreams);
    assert p.streams.Values == {};
    ExactBudget(p, run, p.free);
  }

  /** Wherever a permit is, it can come back: its stream removed if it has one, then its owner gone. */
  lemma PermitCanComeBack(p: Pool, permit: nat) returns (run: seq<Step>)
    requires permit in p.carried || permit in p.streams.Values
    ensures Runs(p, run) && permit in After(p, run).free && |run| <= 2
  {
    if permit in p.carried {
      run := DropRun(p, permit);
    } else {
      var id :| id in p.streams && p.streams[id] == permit;
      var rest := DropRun(Do(p, Remove(id)), permit);
      run := [Remove(id)] + rest;
      assert run[1..] == rest;
    }
  }

  lemma DropRun(p: Pool, permit: nat) returns (run: seq<Step>)
    requires permit in p.carried
    ensures Runs(p, run) && permit in After(p, run).free && |run| == 1
  {
    var nothing: seq<Step> := [];
    var q := Do(p, Drop(permit));
    assert Runs(q, nothing) && After(q, nothing) == q;
    run := [Drop(permit)];
    assert run[1..] == nothing;
  }

  /** A free permit can always be taken for any stream id. */
  lemma FreePermitOpens(p: Pool, permit: nat, id: nat)
    requires permit in p.free
    ensures Can(p, Acquire(permit)) && Can(Do(p, Acquire(permit)), Insert(id, permit))
    ensures var q := Do(Do(p, Acquire(permit)), Insert(id, permit)); id in q.streams && q.streams[id] == permit
  {
  }
}
