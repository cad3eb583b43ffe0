/**
 Which frames may cross a link without ever overflowing an inbox: exactly the safe ones,
 on every stream.  Among them are what one `send` makes, and what `serve_client` makes of
 reads that are not tiny.
 */
module SafeTraffic {
  import opened Bytes
  import opened Wire
  import opened MuxPair
  import opened MuxInbox
  import opened MuxProgress
  import opened MuxSessions
  import opened SharedLink

  // ---- Traffic that is safe ----

  /** A frame of less than 256 bytes, unless it is the first, comes right behind a full one. */
  predicate Paired(frames: seq<seq<byte>>)
  {
    && (forall i :: 0 <= i < |frames| ==> frames[i] != [])
    && (forall i :: 0 < i < |frames| ==> |frames[i]| >= 256 || |frames[i - 1]| == MAX_PAYLOAD)
  }

  /** On average such frames have 256 bytes, but for the first. */
  lemma {:induction false} PairedSize(frames: seq<seq<byte>>)
    requires Paired(frames)
    ensures |Concat(frames)| >= 256 * |frames| - 255
    decreases |frames|
  {
    hide Concat;
    var n := |frames|;
    if n == 1 {
      ConcatOne(frames[0]);
      assert frames == [frames[0]];
    } else if n > 1 {
      Last(frames);
      if |frames[n - 1]| >= 256 {
        PairedSize(frames[..n - 1]);
      } else {
        Last(frames[..n - 1]);
        assert frames[..n - 1][..n - 2] == frames[..n - 2];
        PairedSize(frames[..n - 2]);
      }
    }
  }

  lemma Last(frames: seq<seq<byte>>)
    requires frames != []
    ensures |Concat(frames)| == |Concat(frames[..|frames| - 1])| + |frames[|frames| - 1]|
  {
    var n := |frames| - 1;
    assert frames == frames[..n] + [frames[n]];
    ConcatAppend(frames[..n], [frames[n]]);
    ConcatOne(frames[n]);
  }

  lemma PairedIsSafe(frames: seq<seq<byte>>)
    requires Paired(frames)
    ensures Safe(frames)
  {
    forall i: nat
      ensures SafeAt(frames, i)
    {
      if i + INBOX_FRAMES < |frames| {
        PairedSize(frames[i..i + INBOX_FRAMES + 1]);
      }
    }
  }

  /** One `send` of any length is safe. */
  lemma OneSendIsSafe(data: seq<byte>)
    ensures Framed(CutAll(data)) && Paired(CutAll(data)) && Safe(CutAll(data))
  {
    CutAllConcat(data);
    PairedIsSafe(CutAll(data));
  }

  /** The frames of one `send` for each of these. */
  function CutEach(sends: seq<seq<byte>>): seq<seq<byte>>
  {
    if sends == [] then [] else CutAll(sends[0]) + CutEach(sends[1..])
  }

  lemma {:induction false} LargeSendsArePaired(sends: seq<seq<byte>>)
    requires forall i :: 0 <= i < |sends| ==> |sends[i]| >= 256
    ensures Framed(CutEach(sends)) && Paired(CutEach(sends))
    ensures CutEach(sends) != [] ==> |CutEach(sends)[0]| >= 256
  {
    if sends != [] {
      OneSendIsSafe(sends[0]);
      LargeSendsArePaired(sends[1..]);
    }
  }

  /** The preamble and then reads of 256 bytes or more, each of any length, are safe. */
  lemma UplinkIsSafe(head: seq<byte>, arrivals: seq<seq<byte>>)
    requires |head| == HEAD_LEN
    requires forall i :: 0 <= i < |arrivals| ==> |arrivals[i]| >= 256
    ensures Framed(CutEach([head] + arrivals)) && Safe(CutEach([head] + arrivals))
  {
    var sends := [head] + arrivals;
    assert sends[0] == head && sends[1..] == arrivals;
    OneSendIsSafe(head);
    CutAllConcat(head);
    LargeSendsArePaired(arrivals);
    PairedIsSafe(CutEach(sends));
  }

  // ---- Traffic that is not: a schedule in which only stream `j` moves ----

  datatype Course = Course(xs: Loads, ys: Loads, j: nat, room: nat)
  {
    ghost predicate Valid()
    {
      |xs| == |ys| && j < |xs| && room > 0 && Framed(xs[j])
    }

    function X(): seq<seq<byte>>
      requires j < |xs|
    {
      xs[j]
    }

    function Y(): seq<seq<byte>>
      requires j < |ys|
    {
      ys[j]
    }
  }

  /** Stream `j` alone has frames on the link, and the outboxes are empty. */
  function Solo(lanes: seq<Transfer>, j: nat, u: Transfer): Fleet
    requires j < |lanes|
  {
    Fleet(lanes[j := u], Named(j, |u.s.ab|), Named(j, |u.s.ba|), 0, 0)
  }

  lemma SoloSwaps(lanes: seq<Transfer>, j: nat, u: Transfer)
    requires j < |lanes|
    ensures Solo(lanes, j, u).Swap() == Solo(Swapped(lanes), j, u.Swap())
  {
    assert Swapped(lanes[j := u]) == Swapped(lanes)[j := u.Swap()];
  }

  /** `run` leads new streams to this state of stream `j`. */
  ghost predicate Reaches(c: Course, run: seq<FleetEvent>, u: Transfer)
    requires c.Valid()
  {
    var f := Launched(c.xs, c.ys);
    Moves(f, c.room, run) && Moved(f, c.room, run) == Solo(f.lanes, c.j, u)
  }

  /** One more move on the end of a run. */
  lemma {:induction false} MovesOn(f: Fleet, room: nat, run: seq<FleetEvent>, e: FleetEvent) returns (longer: seq<FleetEvent>)
    requires Moves(f, room, run) && CanMove(Moved(f, room, run), room, e)
    ensures Moves(f, room, longer) && Moved(f, room, longer) == Move(Moved(f, room, run), room, e)
    decreases |run|
  {
    hide CanMove, Move;
    if run == [] {
      longer := [e];
      assert [e][1..] == [];
    } else {
      var rest := MovesOn(Move(f, room, run[0]), room, run[1..], e);
      longer := [run[0]] + rest;
      assert longer[1..] == rest;
    }
  }

  /** A step of work on the only busy stream, and its frame goes straight through the outbox. */
  lemma SoloMovesA(lanes: seq<Transfer>, room: nat, j: nat, u: Transfer, w: Work)
    requires j < |lanes| && room > 0 && CanWorkA(u, w) && |WorkA(u, w).s.ab| <= 1
    ensures CanMoveA(Solo(lanes, j, u), room, Lane(j, w))
    ensures var f, v := MoveA(Solo(lanes, j, u), room, Lane(j, w)), WorkA(u, w);
            if |v.s.ab| == |u.s.ab| then f == Solo(lanes, j, v)
            else CanMoveA(f, room, Seal) && MoveA(f, room, Seal) == Solo(lanes, j, v)
  {
    assert |WorkA(u, w).s.ba| == |u.s.ba| - if w.WDeliver? then 1 else 0;
    hide CanWorkA, WorkA;
    assert lanes[j := u][j := WorkA(u, w)] == lanes[j := WorkA(u, w)];
  }

  lemma SoloMoves(lanes: seq<Transfer>, room: nat, j: nat, u: Transfer, sw: SideWork)
    requires j < |lanes| && room > 0 && CanWork(u, sw)
    requires |DoWork(u, sw).s.ab| <= 1 && |DoWork(u, sw).s.ba| <= 1
    ensures var e := if sw.OnA? then OfA(Lane(j, sw.w)) else OfB(Lane(j, sw.w));
            && CanMove(Solo(lanes, j, u), room, e)
            && var f, v := Move(Solo(lanes, j, u), room, e), DoWork(u, sw);
               f == Solo(lanes, j, v) ||
               (var s := if sw.OnA? then OfA(Seal) else OfB(Seal);
                CanMove(f, room, s) && Move(f, room, s) == Solo(lanes, j, v))
  {
    hide CanWorkA, WorkA, CanMoveA, MoveA;
    if sw.OnA? {
      SoloMovesA(lanes, room, j, u, sw.w);
    } else {
      var v := WorkA(u.Swap(), sw.w);
      SoloMovesA(Swapped(lanes), room, j, u.Swap(), sw.w);
      SoloSwaps(lanes, j, u);
      SoloSwaps(Swapped(lanes), j, v);
      assert Swapped(Swapped(lanes)) == lanes;
      hide Solo;
      SwapTwice(MoveA(Solo(Swapped(lanes), j, u.Swap()), room, Lane(j, sw.w)));
    }
  }

  lemma Onward(c: Course, run: seq<FleetEvent>, u: Transfer, sw: SideWork, v: Transfer)
    returns (longer: seq<FleetEvent>)
    requires c.Valid() && Reaches(c, run, u) && CanWork(u, sw) && DoWork(u, sw) == v
    requires |v.s.ab| <= 1 && |v.s.ba| <= 1
    ensures Reaches(c, longer, v)
  {
    hide Moves, Moved, CanWork, DoWork, CanMove, Move, Solo;
    var f := Launched(c.xs, c.ys);
    SoloMoves(f.lanes, c.room, c.j, u, sw);
    longer := MovesOn(f, c.room, run, if sw.OnA? then OfA(Lane(c.j, sw.w)) else OfB(Lane(c.j, sw.w)));
    if Moved(f, c.room, longer) != Solo(f.lanes, c.j, v) {
      longer := MovesOn(f, c.room, longer, if sw.OnA? then OfA(Seal) else OfB(Seal));
    }
  }

  /** After `k` frames were read and `m` more wait in the inbox, with everything else at rest. */
  function Resting(c: Course, k: nat, m: nat): Transfer
    requires c.j < |c.xs| == |c.ys|
    requires k + m <= |c.X()| && Owing(c.X()[..k]) + |Concat(c.X()[k..k + m])| <= WINDOW
  {
    var x := c.X();
    Transfer(
      Pair(FRESH.(credit := WINDOW - Owing(x[..k]) - |Concat(x[k..k + m])|, handed := Concat(x[..k + m])),
           FRESH.(inbox := x[k..k + m], owed := Owing(x[..k]), got := Concat(x[..k])),
           [], [], true),
      Side(x[k + m..], []), Side(c.Y(), x[..k]))
  }

  lemma Grown(x: seq<seq<byte>>, k: nat, n: nat)
    requires k <= n < |x|
    ensures x[k..n + 1] == x[k..n] + [x[n]]
    ensures Concat(x[k..n + 1]) == Concat(x[k..n]) + x[n]
    ensures x[n..][0] == x[n] && x[n..][1..] == x[n + 1..]
  {
    assert x[k..n + 1] == x[k..n] + [x[n]];
    ConcatAppend(x[k..n], [x[n]]);
    ConcatOne(x[n]);
  }

  /** The credit out at `k` pays for the next frame as well. */
  predicate Affords(c: Course, k: nat, m: nat)
    requires c.j < |c.xs|
  {
    k + m < |c.X()| && Owing(c.X()[..k]) + |Concat(c.X()[k..k + m])| + |c.X()[k + m]| <= WINDOW
  }

  /** The same with the next frame paid for, and then on the link. */
  function Paying(c: Course, k: nat, m: nat): Transfer
    requires c.j < |c.xs| == |c.ys| && Affords(c, k, m)
  {
    var t, x := Resting(c, k, m), c.X();
    t.(s := t.s.(a := t.s.a.(credit := t.s.a.credit - |x[k + m]|, reserved := x[k + m],
                             handed := t.s.a.handed + x[k + m])),
       a := t.a.(todo := x[k + m + 1..]))
  }

  function Pushing(c: Course, k: nat, m: nat): Transfer
    requires c.j < |c.xs| == |c.ys| && Affords(c, k, m)
  {
    var t := Paying(c, k, m);
    t.(s := t.s.(a := t.s.a.(reserved := []), ab := [Data(c.X()[k + m])]))
  }

  /** A step of work that leaves at most one frame on each link. */
  ghost predicate Leads(u: Transfer, sw: SideWork, v: Transfer)
  {
    CanWork(u, sw) && DoWork(u, sw) == v && |v.s.ab| <= 1 && |v.s.ba| <= 1
  }

  lemma LeadsToPaying(c: Course, k: nat, m: nat)
    requires c.Valid() && Affords(c, k, m)
    ensures Leads(Resting(c, k, m), OnA(WReserve), Paying(c, k, m))
  {
    hide Concat, Owing;
    Grown(c.X(), k, k + m);
  }

  lemma LeadsToPushing(c: Course, k: nat, m: nat)
    requires c.Valid() && Affords(c, k, m)
    ensures Leads(Paying(c, k, m), OnA(WEnqueue), Pushing(c, k, m))
  {
    hide Concat, Owing;
    assert c.X()[k + m] != [];
  }

  lemma LeadsToPiled(c: Course, k: nat, m: nat)
    requires c.Valid() && Affords(c, k, m) && m < INBOX_FRAMES
    ensures Owing(c.X()[..k]) + |Concat(c.X()[k..k + m + 1])| <= WINDOW
    ensures Leads(Pushing(c, k, m), OnB(WDeliver), Resting(c, k, m + 1))
  {
    hide Concat, Owing;
    var x := c.X();
    Grown(x, k, k + m);
    Grown(x, 0, k + m);
    assert x[0..k + m] == x[..k + m] && x[0..k + m + 1] == x[..k + m + 1];
  }

  lemma PushOne(c: Course, k: nat, m: nat, run: seq<FleetEvent>) returns (longer: seq<FleetEvent>)
    requires c.Valid() && Affords(c, k, m) && Reaches(c, run, Resting(c, k, m))
    ensures Reaches(c, longer, Pushing(c, k, m))
  {
    hide Reaches, Resting, Paying, Pushing, CanWork, DoWork, Concat, Owing;
    LeadsToPaying(c, k, m);
    LeadsToPushing(c, k, m);
    longer := Onward(c, run, Resting(c, k, m), OnA(WReserve), Paying(c, k, m));
    longer := Onward(c, longer, Paying(c, k, m), OnA(WEnqueue), Pushing(c, k, m));
  }

  lemma PileOne(c: Course, k: nat, m: nat, run: seq<FleetEvent>) returns (longer: seq<FleetEvent>)
    requires c.Valid() && Affords(c, k, m) && m < INBOX_FRAMES && Reaches(c, run, Resting(c, k, m))
    ensures Owing(c.X()[..k]) + |Concat(c.X()[k..k + m + 1])| <= WINDOW
    ensures Reaches(c, longer, Resting(c, k, m + 1))
  {
    hide Reaches, Resting, Pushing, CanWork, DoWork, Concat, Owing;
    longer := PushOne(c, k, m, run);
    LeadsToPiled(c, k, m);
    longer := Onward(c, longer, Pushing(c, k, m), OnB(WDeliver), Resting(c, k, m + 1));
  }

  lemma OwingIsSmall(frames: seq<seq<byte>>)
    ensures Owing(frames) < GRANT_THRESHOLD
  {
  }

  /** The reader takes the one frame waiting, and returns credit if it is due. */
  lemma ReadOne(c: Course, k: nat, run: seq<FleetEvent>) returns (longer: seq<FleetEvent>)
    requires c.Valid() && k < |c.X()| && Owing(c.X()[..k]) + |Concat(c.X()[k..k + 1])| <= WINDOW
    requires Reaches(c, run, Resting(c, k, 1))
    ensures Owing(c.X()[..k + 1]) + |Concat(c.X()[k + 1..k + 1])| <= WINDOW
    ensures Reaches(c, longer, Resting(c, k + 1, 0))
  {
    hide Reaches;
    var x := c.X();
    var t, f, owed := Resting(c, k, 1), x[k], Owing(x[..k]);
    Grown(x, 0, k);
    assert x[0..k] == x[..k] && x[0..k + 1] == x[..k + 1] && x[..k + 1][..k] == x[..k];
    assert x[k..k + 1] == [f] && x[k + 1..k + 1] == [];
    ConcatOne(f);
    OwingIsSmall(x[..k]);
    hide Concat, Owing;
    var inHand := t.(s := t.s.(b := t.s.b.(inbox := [], hand := |f|, got := t.s.b.got + f)), b := t.b.(read := x[..k + 1]));
    longer := Onward(c, run, t, OnB(WRecv), inHand);
    var counted := inHand.(s := inHand.s.(b := inHand.s.b.(hand := 0, owed := owed + |f|)));
    longer := Onward(c, longer, inHand, OnB(WAccount), counted);
    longer := ReturnCredit(c, k, longer, counted);
  }

  /** Two steps bring a due grant back to the sender. */
  lemma GrantBack(c: Course, run: seq<FleetEvent>, t: Transfer) returns (longer: seq<FleetEvent>)
    requires c.Valid() && Reaches(c, run, t) && t.s.up && t.s.ab == [] && t.s.ba == []
    requires t.s.b.tx && t.s.a.member && t.s.b.owed >= GRANT_THRESHOLD
    ensures Reaches(c, longer, t.(s := t.s.(a := t.s.a.(credit := t.s.a.credit + t.s.b.owed), b := t.s.b.(owed := 0))))
  {
    hide Reaches;
    var granted := t.(s := t.s.(b := t.s.b.(owed := 0), ba := [Window(t.s.b.owed)]));
    longer := Onward(c, run, t, OnB(WGrant), granted);
    var back := t.(s := t.s.(a := t.s.a.(credit := t.s.a.credit + t.s.b.owed), b := t.s.b.(owed := 0)));
    longer := Onward(c, longer, granted, OnA(WDeliver), back);
  }

  lemma OwingNext(x: seq<seq<byte>>, k: nat)
    requires k < |x|
    ensures var owed := Owing(x[..k]) + |x[k]|;
            Owing(x[..k + 1]) == if owed >= GRANT_THRESHOLD then 0 else owed
    ensures x[k + 1..k + 1] == [] && Concat(x[k + 1..k + 1]) == []
  {
    assert x[..k + 1][..k] == x[..k];
  }

  lemma ReturnCredit(c: Course, k: nat, run: seq<FleetEvent>, t: Transfer) returns (longer: seq<FleetEvent>)
    requires c.Valid() && k < |c.X()| && Owing(c.X()[..k]) < GRANT_THRESHOLD && |c.X()[k]| <= MAX_PAYLOAD
    requires var x := c.X();
             t == Transfer(
               Pair(FRESH.(credit := WINDOW - Owing(x[..k]) - |x[k]|, handed := Concat(x[..k + 1])),
                    FRESH.(owed := Owing(x[..k]) + |x[k]|, got := Concat(x[..k + 1])), [], [], true),
               Side(x[k + 1..], []), Side(c.Y(), x[..k + 1]))
    requires Reaches(c, run, t)
    ensures Owing(c.X()[..k + 1]) <= WINDOW && |Concat(c.X()[k + 1..k + 1])| == 0
    ensures Reaches(c, longer, Resting(c, k + 1, 0))
  {
    hide Reaches, Owing, Concat;
    var owed := t.s.b.owed;
    OwingNext(c.X(), k);
    longer := run;
    if owed >= GRANT_THRESHOLD {
      longer := GrantBack(c, longer, t);
    } else {
      assert t == Resting(c, k + 1, 0);
    }
  }

  /** The first `k` frames crossed one by one. */
  lemma {:induction false} ReadSome(c: Course, k: nat) returns (run: seq<FleetEvent>)
    requires c.Valid() && k <= |c.X()|
    ensures Owing(c.X()[..k]) + |Concat(c.X()[k..k])| <= WINDOW
    ensures Reaches(c, run, Resting(c, k, 0))
  {
    hide Reaches, Resting, Owing, Concat;
    NothingPiled(c, k);
    if k == 0 {
      run := [];
      StartsSolo(c);
    } else {
      run := ReadSome(c, k - 1);
      NothingPiled(c, k - 1);
      run := PileOne(c, k - 1, 0, run);
      run := ReadOne(c, k - 1, run);
    }
  }

  /** Half a window pays for any one frame. */
  lemma NothingPiled(c: Course, k: nat)
    requires c.Valid() && k <= |c.X()|
    ensures Owing(c.X()[..k]) + |Concat(c.X()[k..k])| <= WINDOW
    ensures k < |c.X()| ==> Affords(c, k, 0)
  {
    OwingIsSmall(c.X()[..k]);
    hide Owing;
    assert c.X()[k..k] == [] && Concat([]) == [];
  }

  lemma StartsSolo(c: Course)
    requires c.Valid()
    ensures Owing(c.X()[..0]) + |Concat(c.X()[0..0])| <= WINDOW
    ensures Reaches(c, [], Resting(c, 0, 0))
  {
    var f, x := Launched(c.xs, c.ys), c.X();
    assert x[..0] == [] && x[0..] == x;
    assert Resting(c, 0, 0) == JustOpened(x, c.Y());
    assert f.lanes[c.j := JustOpened(x, c.Y())] == f.lanes;
  }

  /** Then `m` more were left in the inbox. */
  lemma {:induction false} PileSome(c: Course, k: nat, m: nat) returns (run: seq<FleetEvent>)
    requires c.Valid() && k + m <= |c.X()| && m <= INBOX_FRAMES
    requires Owing(c.X()[..k]) + |Concat(c.X()[k..k + m])| <= WINDOW
    ensures Reaches(c, run, Resting(c, k, m))
  {
    hide Reaches, Resting, Owing;
    if m == 0 {
      run := ReadSome(c, k);
    } else {
      Grown(c.X(), k, k + m - 1);
      run := PileSome(c, k, m - 1);
      run := PileOne(c, k, m - 1, run);
    }
  }

  /** With unsafe frames the link can be brought to hand a full inbox one more. */
  lemma UnsafePushes(c: Course, i: nat) returns (run: seq<FleetEvent>)
    requires c.Valid() && !SafeAt(c.X(), i)
    ensures Affords(c, i, INBOX_FRAMES) && Reaches(c, run, Pushing(c, i, INBOX_FRAMES))
  {
    Grown(c.X(), i, i + INBOX_FRAMES);
    run := PileSome(c, i, INBOX_FRAMES);
    run := PushOne(c, i, INBOX_FRAMES, run);
  }

  lemma UnsafeOverflows(c: Course, i: nat) returns (run: seq<FleetEvent>)
    requires c.Valid() && !SafeAt(c.X(), i)
    ensures Moves(Launched(c.xs, c.ys), c.room, run)
    ensures FleetOverflows(Moved(Launched(c.xs, c.ys), c.room, run))
  {
    run := UnsafePushes(c, i);
    hide Moves, Moved;
    assert Overflows(Pushing(c, i, INBOX_FRAMES));
    assert Moved(Launched(c.xs, c.ys), c.room, run).lanes[c.j] == Pushing(c, i, INBOX_FRAMES);
  }

  // ---- The two directions are alike ----

  function Flipped(run: seq<FleetEvent>): (r: seq<FleetEvent>)
    ensures |r| == |run|
  {
    seq(|run|, i requires 0 <= i < |run| => if run[i].OfA? then OfB(run[i].x) else OfA(run[i].x))
  }

  lemma {:induction false} RunsFlipped(f: Fleet, room: nat, run: seq<FleetEvent>)
    requires Moves(f, room, run)
    ensures Moves(f.Swap(), room, Flipped(run)) && Moved(f.Swap(), room, Flipped(run)) == Moved(f, room, run).Swap()
    decreases |run|
  {
    hide CanMoveA, MoveA;
    if run != [] {
      SwapTwice(f);
      MoveFlips(f, room, run[0]);
      RunsFlipped(Move(f, room, run[0]), room, run[1..]);
      assert Flipped(run)[1..] == Flipped(run[1..]);
    }
  }

  lemma MoveFlips(f: Fleet, room: nat, e: FleetEvent)
    requires CanMove(f, room, e)
    ensures var back := if e.OfA? then OfB(e.x) else OfA(e.x);
            CanMove(f.Swap(), room, back) && Move(f.Swap(), room, back) == Move(f, room, e).Swap()
  {
    hide CanMoveA, MoveA;
    SwapTwice(f);
    if e.OfB? {
      SwapTwice(MoveA(f.Swap(), room, e.x));
    }
  }

  lemma LaunchedSwaps(xs: Loads, ys: Loads)
    requires |xs| == |ys|
    ensures Launched(ys, xs).Swap() == Launched(xs, ys)
  {
    assert Swapped(Opened(ys, xs)) == Opened(xs, ys);
  }

  lemma OverflowsFlipped(f: Fleet)
    requires FleetOverflows(f)
    ensures FleetOverflows(f.Swap())
  {
    var j :| 0 <= j < |f.lanes| && Overflows(f.lanes[j]);
    assert f.lanes[j].s.Swap().Swap() == f.lanes[j].s;
    assert Overflows(f.Swap().lanes[j]);
  }

  /** No schedule overflows an inbox. */
  ghost predicate NeverOverflows(xs: Loads, ys: Loads, room: nat)
    requires |xs| == |ys|
  {
    forall run :: Moves(Launched(xs, ys), room, run) ==> !FleetOverflows(Moved(Launched(xs, ys), room, run))
  }

  lemma UnsafeForward(xs: Loads, ys: Loads, room: nat)
    requires |xs| == |ys| && AllFramed(xs) && room > 0 && !AllSafe(xs)
    ensures !NeverOverflows(xs, ys, room)
  {
    hide Moves, Moved, SafeAt, Framed, FleetOverflows;
    var j: nat :| j < |xs| && !Safe(xs[j]);
    var i: nat :| !SafeAt(xs[j], i);
    var run := UnsafeOverflows(Course(xs, ys, j, room), i);
  }

  lemma OverflowsEitherWay(xs: Loads, ys: Loads, room: nat)
    requires |xs| == |ys| && !NeverOverflows(ys, xs, room)
    ensures !NeverOverflows(xs, ys, room)
  {
    hide Moves, Moved, FleetOverflows, Launched;
    var f := Launched(ys, xs);
    var run :| Moves(f, room, run) && FleetOverflows(Moved(f, room, run));
    RunsFlipped(f, room, run);
    OverflowsFlipped(Moved(f, room, run));
    LaunchedSwaps(xs, ys);
    assert Moves(Launched(xs, ys), room, Flipped(run));
  }

  /**
   No schedule ever overflows an inbox if and only if the frames of every stream are safe
   in both directions: nowhere do 1025 frames in a row fit into the credit that is out at
   that point.  Neither the other streams nor the capacity of the link matter.
   */
  lemma SafeExactly(xs: Loads, ys: Loads, room: nat)
    requires |xs| == |ys| && AllFramed(xs) && AllFramed(ys) && room > 0
    ensures NeverOverflows(xs, ys, room) <==> AllSafe(xs) && AllSafe(ys)
  {
    hide Moves, Moved, FleetOverflows, AllFramed, AllSafe, Launched;
    if AllSafe(xs) && AllSafe(ys) {
      forall run | Moves(Launched(xs, ys), room, run)
        ensures !FleetOverflows(Moved(Launched(xs, ys), room, run))
      {
        AnyTransfersComplete(xs, ys, room, run);
      }
    } else if !AllSafe(xs) {
      UnsafeForward(xs, ys, room);
    } else {
      UnsafeForward(ys, xs, room);
      OverflowsEitherWay(xs, ys, room);
    }
  }

  // ---- What an overflow costs ----

  /** The frame that found the inbox full is gone, and `b` will take in no other. */
  predicate Lost(s: Pair, n: nat)
  {
    && s.b.met && !s.b.member && OpenFree(s.ab)
    && |s.b.got| + |Concat(s.b.inbox)| < n
  }

  lemma SomeMissing(x: seq<seq<byte>>, i: nat, n: nat)
    requires Framed(x) && i <= n < |x|
    ensures |Concat(x[..i])| + |Concat(x[i..n])| < |Concat(x)|
  {
    assert x == x[..i] + x[i..n] + [x[n]] + x[n + 1..];
    ConcatAppend(x[..i] + x[i..n] + [x[n]], x[n + 1..]);
    ConcatAppend(x[..i] + x[i..n], [x[n]]);
    ConcatAppend(x[..i], x[i..n]);
    ConcatOne(x[n]);
  }

  /** One frame too many, delivered. */
  lemma OverflowLoses(t: Transfer, n: nat)
    requires WouldOverflow(t.s) && t.s.up && t.s.b.met && |t.s.ab| == 1 && t.s.ba == []
    requires |t.s.b.got| + |Concat(t.s.b.inbox)| < n
    ensures CanWork(t, OnB(WDeliver))
    ensures var u := DoWork(t, OnB(WDeliver)); Lost(u.s, n) && |u.s.ab| <= 1 && |u.s.ba| <= 1
  {
    hide Concat;
  }

  /** The frames read and queued before the overflow are all that will ever arrive. */
  lemma UnsafeLoses(c: Course, i: nat) returns (run: seq<FleetEvent>)
    requires c.Valid() && !SafeAt(c.X(), i)
    ensures Moves(Launched(c.xs, c.ys), c.room, run)
    ensures var g := Moved(Launched(c.xs, c.ys), c.room, run);
            c.j < |g.lanes| && Lost(g.lanes[c.j].s, |Concat(c.X())|)
  {
    run := UnsafePushes(c, i);
    SomeMissing(c.X(), i, i + INBOX_FRAMES);
    var t := Pushing(c, i, INBOX_FRAMES);
    OverflowLoses(t, |Concat(c.X())|);
    hide Moves, Moved, CanWork, DoWork, Concat, Lost;
    run := Onward(c, run, t, OnB(WDeliver), DoWork(t, OnB(WDeliver)));
  }

  lemma SenderKeepsLost(s: Pair, e: Event, n: nat)
    requires CanA(s, e) && !e.Announce? && !e.LinkDies? && Lost(s, n)
    ensures Lost(StepA(s, e), n)
  {
    hide Concat;
    var t := StepA(s, e);
    assert t.b == s.b;
    assert forall i :: 0 <= i < |t.ab| ==> i < |s.ab| || !t.ab[i].Open?;
  }

  lemma ReaderKeepsLost(s: Pair, e: Event, n: nat)
    requires CanA(s, e) && !e.Insert? && !e.Hangup? && !e.LinkDies? && Lost(s.Swap(), n)
    ensures Lost(StepA(s, e).Swap(), n)
  {
    hide Concat;
    InboxSizes(s.a.inbox, []);
    if e.Deliver? {
      assert !s.ba[0].Open?;
    }
  }

  lemma LostStaysLost(f: Fleet, room: nat, e: FleetEvent, j: nat, n: nat)
    requires CanMove(f, room, e) && j < |f.lanes| && Lost(f.lanes[j].s, n)
    ensures var g := Move(f, room, e); |g.lanes| == |f.lanes| && Lost(g.lanes[j].s, n)
  {
    hide Lost, CanA, StepA;
    var t := f.lanes[j];
    assert t.s.Swap().Swap() == t.s;
    if e.x.Lane? && e.x.j == j {
      if e.OfA? {
        SenderKeepsLost(t.s, EventOf(t, e.x.w), n);
      } else {
        ReaderKeepsLost(t.s.Swap(), EventOf(t.Swap(), e.x.w), n);
      }
    }
  }

  lemma {:induction false} LostForever(f: Fleet, room: nat, more: seq<FleetEvent>, j: nat, n: nat)
    requires Moves(f, room, more) && j < |f.lanes| && Lost(f.lanes[j].s, n)
    ensures var g := Moved(f, room, more); |g.lanes| == |f.lanes| && |g.lanes[j].s.b.got| < n
    decreases |more|
  {
    hide CanMove, Move, Concat;
    if more != [] {
      LostStaysLost(f, room, more[0], j, n);
      LostForever(Move(f, room, more[0]), room, more[1..], j, n);
    }
  }

  /** Some continuation delivers everything on every stream. */
  ghost predicate CanFinish(f: Fleet, room: nat, xs: Loads, ys: Loads)
    requires |xs| == |ys|
  {
    exists more :: Finishes(f, room, more, xs, ys)
  }

  ghost predicate Finishes(f: Fleet, room: nat, more: seq<FleetEvent>, xs: Loads, ys: Loads)
    requires |xs| == |ys|
  {
    Moves(f, room, more) && |Moved(f, room, more).lanes| == |xs| && AllArrived(Moved(f, room, more), xs, ys)
  }

  lemma LostCannotFinish(f: Fleet, room: nat, xs: Loads, ys: Loads, j: nat)
    requires |xs| == |ys| == |f.lanes| && j < |xs| && Lost(f.lanes[j].s, |Concat(xs[j])|)
    ensures !CanFinish(f, room, xs, ys)
  {
    hide Moves, Moved, Lost, Concat;
    forall more
      ensures !Finishes(f, room, more, xs, ys)
    {
      if Finishes(f, room, more, xs, ys) {
        HasArrived(Moved(f, room, more), xs, ys, j);
        LostForever(f, room, more, j, |Concat(xs[j])|);
      }
    }
  }

  lemma HasArrived(g: Fleet, xs: Loads, ys: Loads, j: nat)
    requires |g.lanes| == |xs| == |ys| && AllArrived(g, xs, ys) && j < |xs|
    ensures g.lanes[j].s.b.got == Concat(xs[j])
  {
  }

  lemma FinishFlips(f: Fleet, room: nat, xs: Loads, ys: Loads)
    requires |xs| == |ys| && CanFinish(f, room, xs, ys)
    ensures CanFinish(f.Swap(), room, ys, xs)
  {
    hide Moves, Moved, Concat;
    var more :| Finishes(f, room, more, xs, ys);
    RunsFlipped(f, room, more);
    assert Finishes(f.Swap(), room, Flipped(more), ys, xs);
  }

  /** Working transfers can always be brought to their end. */
  lemma {:induction false} Finish(f: Fleet, room: nat) returns (more: seq<FleetEvent>)
    requires FleetWorking(f) && room > 0
    ensures Moves(f, room, more)
    ensures FleetWorking(Moved(f, room, more)) && AllDone(Moved(f, room, more)) && SamePlans(f, Moved(f, room, more))
    decreases FleetMeasure(f)
  {
    hide FleetWorking, FleetMeasure, CanMove, Move, AllDone;
    if AllDone(f) {
      more := [];
      hide Plan;
    } else {
      hide SamePlans;
      var e := NeverStuck(f, room);
      MoveKeeps(f, room, e);
      var rest := Finish(Move(f, room, e), room);
      more := [e] + rest;
      assert more[1..] == rest;
      SamePlansJoin(f, Move(f, room, e), Moved(f, room, more));
    }
  }

  lemma SafeCanFinish(xs: Loads, ys: Loads, room: nat, run: seq<FleetEvent>)
    requires |xs| == |ys| && AllFramed(xs) && AllFramed(ys) && AllSafe(xs) && AllSafe(ys) && room > 0
    requires Moves(Launched(xs, ys), room, run)
    ensures CanFinish(Moved(Launched(xs, ys), room, run), room, xs, ys)
  {
    hide Moves, Moved, FleetWorking, FleetMeasure, AllDone, SamePlans, AllFramed, AllSafe, Launched, AllDelivered, AllArrived;
    LaunchedIsWorking(xs, ys);
    var f := Launched(xs, ys);
    RunKeepsFleet(f, room, run);
    var g := Moved(f, room, run);
    var more := Finish(g, room);
    SamePlansJoin(f, g, Moved(g, room, more));
    DoneFleetIsDelivered(f, Moved(g, room, more));
    DeliveredHasArrived(xs, ys, Moved(g, room, more));
    SameLanes(f, room, run);
    SameLanes(g, room, more);
    LaunchedLanes(xs, ys);
    assert Finishes(g, room, more, xs, ys);
  }

  /** Whatever the schedule has done so far, everything can still arrive. */
  ghost predicate NeverLost(xs: Loads, ys: Loads, room: nat)
    requires |xs| == |ys|
  {
    forall run :: Moves(Launched(xs, ys), room, run) ==> CanFinish(Moved(Launched(xs, ys), room, run), room, xs, ys)
  }

  lemma UnsafeIsLost(xs: Loads, ys: Loads, room: nat) returns (run: seq<FleetEvent>)
    requires |xs| == |ys| && AllFramed(xs) && room > 0 && !AllSafe(xs)
    ensures Moves(Launched(xs, ys), room, run) && !CanFinish(Moved(Launched(xs, ys), room, run), room, xs, ys)
  {
    hide Moves, Moved, SafeAt, Framed, CanFinish, Lost;
    var j: nat :| j < |xs| && !Safe(xs[j]);
    var i: nat :| !SafeAt(xs[j], i);
    run := UnsafeLoses(Course(xs, ys, j, room), i);
    SameLanes(Launched(xs, ys), room, run);
    LostCannotFinish(Moved(Launched(xs, ys), room, run), room, xs, ys, j);
  }

  /** Complete delivery stays possible in every run if and only if the frames of every stream are safe both ways. */
  lemma DeliveryExactly(xs: Loads, ys: Loads, room: nat)
    requires |xs| == |ys| && AllFramed(xs) && AllFramed(ys) && room > 0
    ensures NeverLost(xs, ys, room) <==> AllSafe(xs) && AllSafe(ys)
  {
    hide Moves, Moved, CanFinish, AllFramed, AllSafe, Launched;
    if AllSafe(xs) && AllSafe(ys) {
      forall run | Moves(Launched(xs, ys), room, run)
        ensures CanFinish(Moved(Launched(xs, ys), room, run), room, xs, ys)
      {
        SafeCanFinish(xs, ys, room, run);
      }
    } else if !AllSafe(xs) {
      var run := UnsafeIsLost(xs, ys, room);
    } else {
      var run := UnsafeIsLost(ys, xs, room);
      var g := Moved(Launched(ys, xs), room, run);
      RunsFlipped(Launched(ys, xs), room, run);
      LaunchedSwaps(xs, ys);
      assert Moves(Launched(xs, ys), room, Flipped(run)) && Moved(Launched(xs, ys), room, Flipped(run)) == g.Swap();
      if CanFinish(g.Swap(), room, xs, ys) {
        FinishFlips(g.Swap(), room, xs, ys);
        SwapTwice(g);
      }
    }
  }
}
