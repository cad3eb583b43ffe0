/**
 Many transfers on one link.  All streams of a session share its outbox of 256 frames, its
 writer task and one FIFO link that holds only so much; a frame at the head of the link
 holds back those of every other stream.  Still no transfer is ever stuck.
 */
module SharedLink {
  import opened Bytes
  import opened Wire
  import opened MuxPair
  import opened MuxInbox
  import opened MuxProgress

  /**
   `ab` and `ba` name the stream of each frame on the links, oldest first; the last
   `outA` of `ab` and the last `outB` of `ba` are still in their outboxes.
   */
  datatype Fleet = Fleet(lanes: seq<Transfer>, ab: seq<nat>, ba: seq<nat>, outA: nat, outB: nat)
  {
    function Swap(): Fleet
    {
      Fleet(Swapped(lanes), ba, ab, outB, outA)
    }
  }

  function Swapped(lanes: seq<Transfer>): (r: seq<Transfer>)
    ensures |r| == |lanes|
  {
    seq(|lanes|, i requires 0 <= i < |lanes| => lanes[i].Swap())
  }

  lemma SwapTwice(f: Fleet)
    ensures f.Swap().Swap() == f
  {
    assert Swapped(Swapped(f.lanes)) == f.lanes;
  }

  /** Work on one stream, or the writer task takes one frame out of the outbox. */
  datatype FleetMove = Lane(j: nat, w: Work) | Seal

  /** A full outbox holds back frames and grants; the link takes `room` frames. */
  predicate CanMoveA(f: Fleet, room: nat, x: FleetMove)
  {
    match x
    case Lane(j, w) =>
      && j < |f.lanes| && CanWorkA(f.lanes[j], w)
      && (w.WEnqueue? || w.WGrant? ==> f.outA < OUTBOX_FRAMES)
      && (w.WDeliver? ==> f.outB < |f.ba| && f.ba[0] == j)
    case Seal => 0 < f.outA <= |f.ab| < f.outA + room
  }

  /** How many frames a step of work puts into the outbox. */
  function Emitted(t: Transfer, w: Work): nat
    requires CanWorkA(t, w)
  {
    |WorkA(t, w).s.ab| - |t.s.ab|
  }

  function Named(j: nat, n: nat): seq<nat>
  {
    seq(n, _ => j)
  }

  function MoveA(f: Fleet, room: nat, x: FleetMove): Fleet
    requires CanMoveA(f, room, x)
  {
    match x
    case Lane(j, w) =>
      var n := Emitted(f.lanes[j], w);
      Fleet(f.lanes[j := WorkA(f.lanes[j], w)], f.ab + Named(j, n),
            if w.WDeliver? then f.ba[1..] else f.ba, f.outA + n, f.outB)
    case Seal => f.(outA := f.outA - 1)
  }

  datatype FleetEvent = OfA(x: FleetMove) | OfB(x: FleetMove)

  predicate CanMove(f: Fleet, room: nat, e: FleetEvent)
  {
    if e.OfA? then CanMoveA(f, room, e.x) else CanMoveA(f.Swap(), room, e.x)
  }

  function Move(f: Fleet, room: nat, e: FleetEvent): Fleet
    requires CanMove(f, room, e)
  {
    if e.OfA? then MoveA(f, room, e.x) else MoveA(f.Swap(), room, e.x).Swap()
  }

  predicate Moves(f: Fleet, room: nat, run: seq<FleetEvent>)
    decreases |run|
  {
    run == [] || (CanMove(f, room, run[0]) && Moves(Move(f, room, run[0]), room, run[1..]))
  }

  function Moved(f: Fleet, room: nat, run: seq<FleetEvent>): Fleet
    requires Moves(f, room, run)
    decreases |run|
  {
    if run == [] then f else Moved(Move(f, room, run[0]), room, run[1..])
  }

  // ---- What every move keeps ----

  /** The frames named on the link of the near end are those its lanes have on it. */
  ghost predicate Tracked(lanes: seq<Transfer>, link: seq<nat>, out: nat)
  {
    && (forall j :: 0 <= j < |lanes| ==> multiset(link)[j] == |lanes[j].s.ab|)
    && (forall i :: 0 <= i < |link| ==> link[i] < |lanes|)
    && out <= |link| && out <= OUTBOX_FRAMES
  }

  ghost predicate AllWorking(lanes: seq<Transfer>)
  {
    forall j :: 0 <= j < |lanes| ==> Working(lanes[j])
  }

  ghost predicate FleetWorking(f: Fleet)
  {
    AllWorking(f.lanes) && Tracked(f.lanes, f.ab, f.outA) && Tracked(Swapped(f.lanes), f.ba, f.outB)
  }

  function Total(lanes: seq<Transfer>): nat
  {
    if lanes == [] then 0 else Measure(lanes[0]) + Total(lanes[1..])
  }

  /** Twice the bytes' stations, for each frame has an outbox to leave as well. */
  function FleetMeasure(f: Fleet): nat
  {
    2 * Total(f.lanes) + f.outA + f.outB
  }

  lemma {:induction false} TotalUpdate(lanes: seq<Transfer>, j: nat, t: Transfer)
    requires j < |lanes|
    ensures Total(lanes[j := t]) + Measure(lanes[j]) == Total(lanes) + Measure(t)
  {
    hide Measure;
    if j > 0 {
      assert lanes[j := t][1..] == lanes[1..][j - 1 := t];
      TotalUpdate(lanes[1..], j - 1, t);
    } else {
      assert lanes[j := t][1..] == lanes[1..];
    }
  }

  /** The same frames cross on every stream. */
  ghost predicate SamePlans(f: Fleet, g: Fleet)
  {
    |g.lanes| == |f.lanes| && forall j :: 0 <= j < |f.lanes| ==> SamePlan(f.lanes[j], g.lanes[j])
  }

  lemma NamedCount(link: seq<nat>, j: nat, n: nat)
    requires n <= 1
    ensures multiset(link + Named(j, n)) == multiset(link)[j := multiset(link)[j] + n]
    ensures n == 0 ==> link + Named(j, n) == link
    ensures n == 1 ==> link + Named(j, n) == link + [j]
  {
    assert n == 0 ==> Named(j, n) == [];
    assert n == 1 ==> Named(j, n) == [j];
    assert link + [] == link;
  }

  lemma HeadCount(link: seq<nat>)
    requires link != []
    ensures multiset(link)[link[0]] > 0
    ensures multiset(link[1..]) == multiset(link)[link[0] := multiset(link)[link[0]] - 1]
  {
    assert link == [link[0]] + link[1..];
  }

  /** What a step of work does to the numbers of frames on the links. */
  lemma WorkCounts(t: Transfer, w: Work)
    requires Working(t) && CanWorkA(t, w)
    ensures Emitted(t, w) == if w.WEnqueue? || w.WGrant? then 1 else 0
    ensures |WorkA(t, w).s.ab| == |t.s.ab| + Emitted(t, w)
    ensures |WorkA(t, w).s.ba| == |t.s.ba| - if w.WDeliver? then 1 else 0
  {
    WorkingIsRoomy(t);
    WorkKeepsLinks(t, w);
  }

  lemma LaneKeeps(f: Fleet, room: nat, j: nat, w: Work)
    requires FleetWorking(f) && CanMoveA(f, room, Lane(j, w))
    ensures var g := MoveA(f, room, Lane(j, w));
            FleetWorking(g) && FleetMeasure(g) < FleetMeasure(f) && SamePlans(f, g)
  {
    hide Working, Measure, CanWorkA, WorkA, Plan, Tracked;
    var t := f.lanes[j];
    WorkKeeps(t, w);
    WorkCounts(t, w);
    TotalUpdate(f.lanes, j, WorkA(t, w));
    LaneTracked(f, room, j, w);
    hide Emitted;
  }

  lemma LaneTracked(f: Fleet, room: nat, j: nat, w: Work)
    requires FleetWorking(f) && CanMoveA(f, room, Lane(j, w))
    ensures var g := MoveA(f, room, Lane(j, w));
            Tracked(g.lanes, g.ab, g.outA) && Tracked(Swapped(g.lanes), g.ba, g.outB)
  {
    hide Working, CanWorkA, WorkA, Emitted;
    assert f.outA <= OUTBOX_FRAMES && f.outB <= OUTBOX_FRAMES;
    hide Tracked;
    WorkCounts(f.lanes[j], w);
    var u, n := WorkA(f.lanes[j], w), Emitted(f.lanes[j], w);
    CountsPushed(f.lanes, f.ab, f.outA, j, u, n);
    assert Swapped(f.lanes[j := u]) == Swapped(f.lanes)[j := u.Swap()];
    assert Swapped(f.lanes)[j].s.ab == f.lanes[j].s.ba && u.Swap().s.ab == u.s.ba;
    if w.WDeliver? {
      CountsPopped(Swapped(f.lanes), f.ba, f.outB, u.Swap());
    } else {
      CountsPushed(Swapped(f.lanes), f.ba, f.outB, j, u.Swap(), 0);
      assert f.ba + Named(j, 0) == f.ba;
    }
  }

  /** One lane puts `n` frames on the link, all of them into the outbox. */
  lemma CountsPushed(lanes: seq<Transfer>, link: seq<nat>, out: nat, j: nat, u: Transfer, n: nat)
    requires Tracked(lanes, link, out) && j < |lanes| && |u.s.ab| == |lanes[j].s.ab| + n && n <= 1
    requires out + n <= OUTBOX_FRAMES
    ensures Tracked(lanes[j := u], link + Named(j, n), out + n)
  {
    NamedCount(link, j, n);
  }

  /** The oldest frame leaves the link for the lane it belongs to. */
  lemma CountsPopped(lanes: seq<Transfer>, link: seq<nat>, out: nat, u: Transfer)
    requires Tracked(lanes, link, out) && out < |link| && |u.s.ab| == |lanes[link[0]].s.ab| - 1
    ensures Tracked(lanes[link[0] := u], link[1..], out)
  {
    HeadCount(link);
  }

  lemma SealKeeps(f: Fleet, room: nat)
    requires FleetWorking(f) && CanMoveA(f, room, Seal)
    ensures var g := MoveA(f, room, Seal);
            FleetWorking(g) && FleetMeasure(g) < FleetMeasure(f) && SamePlans(f, g)
  {
    hide Working, Total, Plan;
  }

  lemma {:induction false} TotalSwapped(lanes: seq<Transfer>)
    requires AllWorking(lanes)
    ensures Total(Swapped(lanes)) == Total(lanes)
  {
    hide Working, Measure;
    if lanes != [] {
      WorkingSwaps(lanes[0]);
      assert Swapped(lanes)[1..] == Swapped(lanes[1..]);
      TotalSwapped(lanes[1..]);
    }
  }

  lemma FleetSwaps(f: Fleet)
    requires FleetWorking(f)
    ensures FleetWorking(f.Swap()) && FleetMeasure(f.Swap()) == FleetMeasure(f)
  {
    hide Working, Total, Tracked;
    TotalSwapped(f.lanes);
    SwapTwice(f);
    assert Swapped(Swapped(f.lanes)) == f.lanes;
    forall j | 0 <= j < |f.lanes|
      ensures Working(f.Swap().lanes[j])
    {
      WorkingSwaps(f.lanes[j]);
    }
  }

  lemma PlansSwap(f: Fleet, g: Fleet)
    requires SamePlans(f, g)
    ensures SamePlans(f.Swap(), g.Swap())
  {
    hide Plan;
    forall j | 0 <= j < |f.lanes|
      ensures SamePlan(f.Swap().lanes[j], g.Swap().lanes[j])
    {
      assert SamePlan(f.lanes[j], g.lanes[j]);
      assert f.lanes[j].Swap().Swap() == f.lanes[j] && g.lanes[j].Swap().Swap() == g.lanes[j];
    }
  }

  /** Every move comes closer to the end, and sends on every stream what it was asked to send. */
  lemma MoveKeeps(f: Fleet, room: nat, e: FleetEvent)
    requires FleetWorking(f) && CanMove(f, room, e)
    ensures FleetWorking(Move(f, room, e)) && FleetMeasure(Move(f, room, e)) < FleetMeasure(f)
    ensures SamePlans(f, Move(f, room, e))
  {
    hide FleetWorking, FleetMeasure, SamePlans, CanMoveA, MoveA;
    var t := if e.OfA? then f else f.Swap();
    if e.OfB? {
      FleetSwaps(f);
    }
    match e.x {
      case Lane(j, w) => LaneKeeps(t, room, j, w);
      case Seal => SealKeeps(t, room);
    }
    if e.OfB? {
      FleetSwaps(MoveA(t, room, e.x));
      PlansSwap(t, MoveA(t, room, e.x));
      SwapTwice(f);
    }
  }

  // ---- Never stuck ----

  ghost predicate AllDone(f: Fleet)
  {
    forall j :: 0 <= j < |f.lanes| ==> Done(f.lanes[j])
  }

  /** Whatever is on a link or in an outbox of `a` can move on. */
  lemma LinkMoves(f: Fleet, room: nat) returns (e: FleetEvent)
    requires FleetWorking(f) && room > 0 && f.ab != []
    ensures CanMove(f, room, e)
  {
    hide Busy, OneWay, Inv, Live;
    if f.outA == |f.ab| {
      e := OfA(Seal);
    } else {
      var j := f.ab[0];
      HeadCount(f.ab);
      assert Working(f.lanes[j]) && f.lanes[j].s.ab != [];
      assert f.Swap().lanes[j] == f.lanes[j].Swap();
      DeliverWorks(f.lanes[j].Swap());
      hide CanWorkA;
      e := OfB(Lane(j, WDeliver));
    }
  }

  lemma DeliverWorks(t: Transfer)
    ensures Live(t.s.Swap()) && t.s.ba != [] ==> CanWorkA(t, WDeliver)
    ensures Working(t.Swap()) && t.s.ba != [] ==> CanWorkA(t, WDeliver)
  {
    assert t.s.Swap().Swap() == t.s;
    assert Working(t.Swap()) ==> Live(t.Swap().s);
  }

  /** As long as anything is left to do on any stream, some step is possible. */
  lemma NeverStuck(f: Fleet, room: nat) returns (e: FleetEvent)
    requires FleetWorking(f) && room > 0 && !AllDone(f)
    ensures CanMove(f, room, e)
  {
    hide Working, Done, CanMoveA;
    if f.ab != [] {
      e := LinkMoves(f, room);
    } else if f.ba != [] {
      FleetSwaps(f);
      SwapTwice(f);
      var back := LinkMoves(f.Swap(), room);
      e := if back.OfA? then OfB(back.x) else OfA(back.x);
    } else {
      var j: nat :| j < |f.lanes| && !Done(f.lanes[j]);
      assert Swapped(f.lanes)[j].s.ab == f.lanes[j].s.ba;
      assert multiset(f.ba)[j] == |Swapped(f.lanes)[j].s.ab|;
      e := IdleLaneMoves(f, room, j);
    }
  }

  lemma IdleLaneMoves(f: Fleet, room: nat, j: nat) returns (e: FleetEvent)
    requires j < |f.lanes| && Working(f.lanes[j]) && !Done(f.lanes[j])
    requires f.lanes[j].s.ab == [] && f.lanes[j].s.ba == [] && f.outA == 0 && f.outB == 0
    ensures CanMove(f, room, e)
  {
    var sw := LaneCanWork(f.lanes[j]);
    assert !sw.w.WDeliver?;
    hide CanWorkA, Working, Done;
    e := if sw.OnA? then OfA(Lane(j, sw.w)) else OfB(Lane(j, sw.w));
  }

  // ---- Always done ----

  ghost predicate AllDelivered(f: Fleet, g: Fleet)
  {
    |g.lanes| == |f.lanes| && forall j :: 0 <= j < |f.lanes| ==> Delivered(f.lanes[j], g.lanes[j])
  }

  ghost predicate AtRest(f: Fleet, room: nat)
  {
    forall e :: !CanMove(f, room, e)
  }

  lemma DoneFleetIsDelivered(f: Fleet, g: Fleet)
    requires FleetWorking(g) && AllDone(g) && SamePlans(f, g)
    ensures AllDelivered(f, g)
  {
    hide Working, Done, Plan;
    forall j | 0 <= j < |f.lanes|
      ensures Delivered(f.lanes[j], g.lanes[j])
    {
      DoneIsDelivered(g.lanes[j]);
      assert SamePlan(f.lanes[j], g.lanes[j]);
    }
  }

  lemma SamePlansJoin(f: Fleet, g: Fleet, h: Fleet)
    requires SamePlans(f, g) && SamePlans(g, h)
    ensures SamePlans(f, h)
  {
    hide Plan;
    forall j | 0 <= j < |f.lanes|
      ensures SamePlan(f.lanes[j], h.lanes[j])
    {
      assert SamePlan(f.lanes[j], g.lanes[j]) && SamePlan(g.lanes[j], h.lanes[j]);
    }
  }

  lemma {:induction false} RunKeepsFleet(f: Fleet, room: nat, run: seq<FleetEvent>)
    requires FleetWorking(f) && Moves(f, room, run)
    ensures |run| + FleetMeasure(Moved(f, room, run)) <= FleetMeasure(f)
    ensures FleetWorking(Moved(f, room, run)) && SamePlans(f, Moved(f, room, run))
    decreases |run|
  {
    hide FleetWorking, FleetMeasure, CanMove, Move;
    if run == [] {
      hide Plan;
    } else {
      hide SamePlans;
      MoveKeeps(f, room, run[0]);
      var g := Move(f, room, run[0]);
      RunKeepsFleet(g, room, run[1..]);
      SamePlansJoin(f, g, Moved(g, room, run[1..]));
    }
  }

  /**
   However the steps of all streams are scheduled, transfers of any frames in both
   directions end within `FleetMeasure` steps, over a link of any capacity, and can only
   end with every frame of every stream delivered.
   */
  lemma TransfersComplete(f: Fleet, room: nat, run: seq<FleetEvent>)
    requires FleetWorking(f) && room > 0 && Moves(f, room, run)
    ensures |run| <= FleetMeasure(f)
    ensures AtRest(Moved(f, room, run), room) ==> AllDone(Moved(f, room, run)) && AllDelivered(f, Moved(f, room, run))
  {
    hide FleetWorking, FleetMeasure, CanMove, Moves, Moved, SamePlans, AllDone, AllDelivered;
    RunKeepsFleet(f, room, run);
    var g := Moved(f, room, run);
    if AtRest(g, room) {
      if !AllDone(g) {
        var e := NeverStuck(g, room);
        assert false;
      }
      DoneFleetIsDelivered(f, g);
    }
  }

  // ---- Fresh streams ----

  /** What each stream is to carry one way. */
  type Loads = seq<seq<seq<byte>>>

  predicate AllFramed(xs: Loads)
  {
    forall j :: 0 <= j < |xs| ==> Framed(xs[j])
  }

  ghost predicate AllSafe(xs: Loads)
  {
    forall j :: 0 <= j < |xs| ==> Safe(xs[j])
  }

  function Volume(xs: Loads): nat
  {
    if xs == [] then 0 else |Concat(xs[0])| + Volume(xs[1..])
  }

  function Opened(xs: Loads, ys: Loads): (r: seq<Transfer>)
    requires |xs| == |ys|
    ensures |r| == |xs|
  {
    seq(|xs|, i requires 0 <= i < |xs| => JustOpened(xs[i], ys[i]))
  }

  /** Streams that have just been opened, with everything still to send. */
  function Launched(xs: Loads, ys: Loads): Fleet
    requires |xs| == |ys|
  {
    Fleet(Opened(xs, ys), [], [], 0, 0)
  }

  lemma {:induction false} OpenedTotal(xs: Loads, ys: Loads)
    requires |xs| == |ys| && AllFramed(xs) && AllFramed(ys) && AllSafe(xs) && AllSafe(ys)
    ensures Total(Opened(xs, ys)) == 7 * (Volume(xs) + Volume(ys))
  {
    hide Measure, Framed, Safe, Concat;
    if xs != [] {
      OpenedIsWorking(xs[0], ys[0]);
      assert Opened(xs, ys)[1..] == Opened(xs[1..], ys[1..]);
      OpenedTotal(xs[1..], ys[1..]);
    }
  }

  lemma LaunchedIsWorking(xs: Loads, ys: Loads)
    requires |xs| == |ys| && AllFramed(xs) && AllFramed(ys) && AllSafe(xs) && AllSafe(ys)
    ensures FleetWorking(Launched(xs, ys)) && FleetMeasure(Launched(xs, ys)) == 14 * (Volume(xs) + Volume(ys))
  {
    hide Working, Framed, Safe, Total, Volume;
    OpenedTotal(xs, ys);
    forall j | 0 <= j < |xs|
      ensures Working(Launched(xs, ys).lanes[j])
    {
      OpenedIsWorking(xs[j], ys[j]);
    }
  }

  /** Every stream's reader at either end has received everything it was to be sent. */
  ghost predicate AllArrived(f: Fleet, xs: Loads, ys: Loads)
    requires |f.lanes| == |xs| == |ys|
  {
    forall j :: 0 <= j < |xs| ==> f.lanes[j].s.b.got == Concat(xs[j]) && f.lanes[j].s.a.got == Concat(ys[j])
  }

  lemma DeliveredHasArrived(xs: Loads, ys: Loads, g: Fleet)
    requires |xs| == |ys| && AllFramed(xs) && AllFramed(ys) && AllSafe(xs) && AllSafe(ys)
    requires AllDelivered(Launched(xs, ys), g)
    ensures AllArrived(g, xs, ys)
  {
    hide Working, Framed, Safe, Plan;
    forall j | 0 <= j < |xs|
      ensures g.lanes[j].s.b.got == Concat(xs[j]) && g.lanes[j].s.a.got == Concat(ys[j])
    {
      OpenedIsWorking(xs[j], ys[j]);
      assert Delivered(Launched(xs, ys).lanes[j], g.lanes[j]);
    }
  }

  /** An inbox somewhere is about to be handed one frame too many. */
  ghost predicate FleetOverflows(f: Fleet)
  {
    exists j :: 0 <= j < |f.lanes| && Overflows(f.lanes[j])
  }

  /** The number of streams never changes. */
  lemma {:induction false} SameLanes(f: Fleet, room: nat, run: seq<FleetEvent>)
    requires Moves(f, room, run)
    ensures |Moved(f, room, run).lanes| == |f.lanes|
    decreases |run|
  {
    hide CanWorkA, WorkA;
    if run != [] {
      SameLanes(Move(f, room, run[0]), room, run[1..]);
    }
  }

  /**
   Any safe frames cross any number of new streams that share one link, under any
   schedule: at most fourteen steps a byte, no inbox ever overflows, and whoever
   schedules can only stop with every stream's frames delivered both ways.
   */
  lemma AnyTransfersComplete(xs: Loads, ys: Loads, room: nat, run: seq<FleetEvent>)
    requires |xs| == |ys| && AllFramed(xs) && AllFramed(ys) && AllSafe(xs) && AllSafe(ys)
    requires room > 0 && Moves(Launched(xs, ys), room, run)
    ensures |run| <= 14 * (Volume(xs) + Volume(ys))
    ensures !FleetOverflows(Moved(Launched(xs, ys), room, run))
    ensures |Moved(Launched(xs, ys), room, run).lanes| == |xs|
    ensures AtRest(Moved(Launched(xs, ys), room, run), room) ==> AllArrived(Moved(Launched(xs, ys), room, run), xs, ys)
  {
    hide Moves, Moved, Tracked, Working, FleetMeasure, CanMove, AllFramed, AllSafe, Launched, SamePlans, Overflows, Roomy, AllDone, AllDelivered;
    LaunchedIsWorking(xs, ys);
    RunKeepsFleet(Launched(xs, ys), room, run);
    TransfersComplete(Launched(xs, ys), room, run);
    var g := Moved(Launched(xs, ys), room, run);
    SameLanes(Launched(xs, ys), room, run);
    LaunchedLanes(xs, ys);
    forall j | 0 <= j < |g.lanes|
      ensures !Overflows(g.lanes[j])
    {
      WorkingNeverOverflows(g.lanes[j]);
    }
    if AtRest(g, room) {
      DeliveredHasArrived(xs, ys, g);
    }
  }

  lemma LaunchedLanes(xs: Loads, ys: Loads)
    requires |xs| == |ys|
    ensures |Launched(xs, ys).lanes| == |xs|
  {
  }

  lemma WorkingNeverOverflows(t: Transfer)
    requires Working(t)
    ensures !Overflows(t)
  {
    WorkingIsRoomy(t);
  }
}
