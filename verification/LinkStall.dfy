/**
 A link that stands still.  A read loop that has an answer to give waits for room in its
 own outbox before it reads on, and the idle timeout only watches the reading.  Here the
 outboxes hold 256 frames, each direction of the link holds `room` frames, and a read loop
 may hold one answer.
 */
module LinkStall {
  import opened Bytes
  import opened Wire
  import opened MuxPair
  import opened MuxSessions

  /** One end: its session, its outbox, what it has sent and the peer has not read, and an answer not yet in the outbox. */
  datatype Station = Station(end: End, outbox: seq<Packet>, wire: seq<Packet>, held: Option<Packet>)

  datatype Strait = Strait(a: Station, b: Station, up: bool)
  {
    function Swap(): Strait
    {
      Strait(b, a, up)
    }
  }

  datatype Step =
    | Say(id: nat, ev: Event)   // a step of one stream's task
    | Beat                      // a keepalive
    | Seal                      // the writer task sends one frame
    | Listen                    // the read loop takes one frame and acts on it
    | Answer                    // and puts its answer into the outbox
    | Fall                      // the link dies

  predicate CanA(s: Strait, room: nat, x: Step)
  {
    match x
    case Say(id, ev) =>
      && IsLocal(ev) && CanLocal(Get(s.a.end.halves, id), s.up, ev) && (ev.Insert? ==> s.a.end.free > 0)
      && (Emits(Get(s.a.end.halves, id), s.up, ev) != [] ==> |s.a.outbox| < OUTBOX_FRAMES)
    case Beat => s.up && |s.a.outbox| < OUTBOX_FRAMES
    case Seal => s.up && s.a.outbox != [] && |s.a.wire| < room
    case Listen => s.up && s.a.held.None? && s.b.wire != []
    case Answer => s.up && s.a.held.Some? && |s.a.outbox| < OUTBOX_FRAMES
    case Fall => s.up
  }

  function StepA(s: Strait, room: nat, x: Step): Strait
    requires CanA(s, room, x)
  {
    match x
    case Say(id, ev) =>
      var (e, out) := Local(s.a.end, s.up, id, ev);
      s.(a := s.a.(end := e, outbox := s.a.outbox + out))
    case Beat => s.(a := s.a.(outbox := s.a.outbox + [KEEPALIVE]))
    case Seal => s.(a := s.a.(outbox := s.a.outbox[1..], wire := s.a.wire + [s.a.outbox[0]]))
    case Listen =>
      var (e, reply) := Hear(s.a.end, s.b.wire[0]);
      s.(a := s.a.(end := e, held := if reply == [] then None else Some(reply[0])), b := s.b.(wire := s.b.wire[1..]))
    case Answer => s.(a := s.a.(outbox := s.a.outbox + [s.a.held.value], held := None))
    case Fall => s.(up := false)
  }

  datatype Turn = AtNear(x: Step) | AtFar(x: Step)

  predicate Can(s: Strait, room: nat, e: Turn)
  {
    if e.AtNear? then CanA(s, room, e.x) else CanA(s.Swap(), room, e.x)
  }

  function Go(s: Strait, room: nat, e: Turn): Strait
    requires Can(s, room, e)
  {
    if e.AtNear? then StepA(s, room, e.x) else StepA(s.Swap(), room, e.x).Swap()
  }

  predicate Goes(s: Strait, room: nat, run: seq<Turn>)
    decreases |run|
  {
    run == [] || (Can(s, room, run[0]) && Goes(Go(s, room, run[0]), room, run[1..]))
  }

  function Gone(s: Strait, room: nat, run: seq<Turn>): Strait
    requires Goes(s, room, run)
    decreases |run|
  {
    if run == [] then s else Gone(Go(s, room, run[0]), room, run[1..])
  }

  function Fresh(limitA: nat, limitB: nat): Strait
  {
    Strait(Station(End(map[], limitA, 0, false), [], [], None), Station(End(map[], limitB, 0, true), [], [], None), true)
  }

  // ---- Where it can come to rest ----

  /** The steps the link takes by itself: no stream's task and no keepalive is needed for them. */
  predicate OfLink(x: Step)
  {
    x.Seal? || x.Listen? || x.Answer?
  }

  ghost predicate Still(s: Strait, room: nat)
  {
    forall e: Turn :: OfLink(e.x) ==> !Can(s, room, e)
  }

  predicate Empty(p: Station)
  {
    p.outbox == [] && p.wire == [] && p.held.None?
  }

  predicate Stuck(p: Station, room: nat)
  {
    |p.outbox| == OUTBOX_FRAMES && |p.wire| == room && p.held.Some?
  }

  predicate Bounded(p: Station, room: nat)
  {
    |p.outbox| <= OUTBOX_FRAMES && |p.wire| <= room
  }

  lemma StepKeepsBounds(s: Strait, room: nat, x: Step)
    requires CanA(s, room, x) && Bounded(s.a, room) && Bounded(s.b, room)
    ensures Bounded(StepA(s, room, x).a, room) && Bounded(StepA(s, room, x).b, room)
  {
    hide Put, LocalStep, CanLocal, Hear;
  }

  lemma {:induction false} RunKeepsBounds(s: Strait, room: nat, run: seq<Turn>)
    requires Goes(s, room, run) && Bounded(s.a, room) && Bounded(s.b, room)
    ensures Bounded(Gone(s, room, run).a, room) && Bounded(Gone(s, room, run).b, room)
    decreases |run|
  {
    hide CanA, StepA, Bounded;
    if run != [] {
      StepKeepsBounds(if run[0].AtNear? then s else s.Swap(), room, run[0].x);
      RunKeepsBounds(Go(s, room, run[0]), room, run[1..]);
    }
  }

  /** No step of the link is possible exactly when nothing is left to move, or neither end can move anything. */
  lemma StillExactly(s: Strait, room: nat)
    requires s.up && room > 0 && Bounded(s.a, room) && Bounded(s.b, room)
    ensures Still(s, room) <==> (Empty(s.a) && Empty(s.b)) || (Stuck(s.a, room) && Stuck(s.b, room))
  {
    if Still(s, room) {
      assert !Can(s, room, AtNear(Seal)) && !Can(s, room, AtNear(Listen)) && !Can(s, room, AtNear(Answer));
      assert !Can(s, room, AtFar(Seal)) && !Can(s, room, AtFar(Listen)) && !Can(s, room, AtFar(Answer));
    }
  }

  /**
   In every reachable state of a live link, its writer and reader tasks all wait if and
   only if nothing is on the way, or both ends hold an answer behind a full outbox and a
   full link.
   */
  lemma ComesToRestExactly(limitA: nat, limitB: nat, room: nat, run: seq<Turn>)
    requires room > 0 && Goes(Fresh(limitA, limitB), room, run) && Gone(Fresh(limitA, limitB), room, run).up
    ensures var s := Gone(Fresh(limitA, limitB), room, run);
            Still(s, room) <==> (Empty(s.a) && Empty(s.b)) || (Stuck(s.a, room) && Stuck(s.b, room))
  {
    hide Goes, Gone;
    RunKeepsBounds(Fresh(limitA, limitB), room, run);
    StillExactly(Gone(Fresh(limitA, limitB), room, run), room);
  }

  // ---- Once stuck, stuck for good ----

  /** Nothing was put in, sent, read or answered. */
  predicate SameTraffic(p: Station, q: Station)
  {
    q.outbox == p.outbox && q.wire == p.wire && q.held == p.held
  }

  lemma StuckStepMovesNothing(s: Strait, room: nat, x: Step)
    requires CanA(s, room, x) && Stuck(s.a, room) && Stuck(s.b, room)
    ensures SameTraffic(s.a, StepA(s, room, x).a) && SameTraffic(s.b, StepA(s, room, x).b)
  {
    hide Put, LocalStep, CanLocal;
  }

  /** Whatever tasks do from then on, no frame of any stream ever moves again in either direction. */
  lemma {:induction false} StuckForGood(s: Strait, room: nat, run: seq<Turn>)
    requires Goes(s, room, run) && Stuck(s.a, room) && Stuck(s.b, room)
    ensures SameTraffic(s.a, Gone(s, room, run).a) && SameTraffic(s.b, Gone(s, room, run).b)
    decreases |run|
  {
    hide CanA, StepA;
    if run != [] {
      StuckStepMovesNothing(if run[0].AtNear? then s else s.Swap(), room, run[0].x);
      StuckForGood(Go(s, room, run[0]), room, run[1..]);
    }
  }

  // ---- Getting there ----

  /** Frames in the outboxes and on the link, all keepalives, and whether each end holds an answer. */
  datatype Load = Load(outA: nat, wireA: nat, heldA: bool, outB: nat, wireB: nat, heldB: bool)

  datatype Limits = Limits(a: nat, b: nat, room: nat)

  function Beats(n: nat): (r: seq<Packet>)
    ensures |r| == n
  {
    seq(n, _ => KEEPALIVE)
  }

  lemma OneBeat(n: nat)
    ensures Beats(n) + [KEEPALIVE] == Beats(n + 1)
    ensures n > 0 ==> Beats(n)[1..] == Beats(n - 1) && Beats(n)[0] == KEEPALIVE
  {
  }

  function StateOf(c: Limits, l: Load): Strait
  {
    Strait(
      Fresh(c.a, c.b).a.(outbox := Beats(l.outA), wire := Beats(l.wireA), held := if l.heldA then Some(KEEPALIVE) else None),
      Fresh(c.a, c.b).b.(outbox := Beats(l.outB), wire := Beats(l.wireB), held := if l.heldB then Some(KEEPALIVE) else None),
      true)
  }

  ghost predicate Reached(c: Limits, l: Load)
  {
    exists run :: Goes(Fresh(c.a, c.b), c.room, run) && Gone(Fresh(c.a, c.b), c.room, run) == StateOf(c, l)
  }

  lemma {:induction false} GoOn(s: Strait, room: nat, run: seq<Turn>, e: Turn) returns (longer: seq<Turn>)
    requires Goes(s, room, run) && Can(Gone(s, room, run), room, e)
    ensures Goes(s, room, longer) && Gone(s, room, longer) == Go(Gone(s, room, run), room, e)
    decreases |run|
  {
    hide Can, Go;
    if run == [] {
      longer := [e];
      assert [e][1..] == [];
    } else {
      var rest := GoOn(Go(s, room, run[0]), room, run[1..], e);
      longer := [run[0]] + rest;
      assert longer[1..] == rest;
    }
  }

  lemma Reach(c: Limits, l: Load, e: Turn, m: Load)
    requires Reached(c, l) && Can(StateOf(c, l), c.room, e) && Go(StateOf(c, l), c.room, e) == StateOf(c, m)
    ensures Reached(c, m)
  {
    hide Goes, Gone, Can, Go, StateOf;
    var run :| Goes(Fresh(c.a, c.b), c.room, run) && Gone(Fresh(c.a, c.b), c.room, run) == StateOf(c, l);
    var longer := GoOn(Fresh(c.a, c.b), c.room, run, e);
  }

  lemma FarBeats(c: Limits, l: Load)
    requires Reached(c, l) && l.outB < OUTBOX_FRAMES
    ensures Reached(c, l.(outB := l.outB + 1))
  {
    hide Reached, Beats;
    OneBeat(l.outB);
    Reach(c, l, AtFar(Beat), l.(outB := l.outB + 1));
  }

  lemma FarSeals(c: Limits, l: Load)
    requires Reached(c, l) && l.outB > 0 && l.wireB < c.room
    ensures Reached(c, l.(outB := l.outB - 1, wireB := l.wireB + 1))
  {
    hide Reached, Beats;
    OneBeat(l.outB);
    OneBeat(l.wireB);
    Reach(c, l, AtFar(Seal), l.(outB := l.outB - 1, wireB := l.wireB + 1));
  }

  lemma NearListens(c: Limits, l: Load)
    requires Reached(c, l) && l.wireB > 0 && !l.heldA
    ensures Reached(c, l.(wireB := l.wireB - 1, heldA := true))
  {
    hide Reached, Beats;
    OneBeat(l.wireB);
    Reach(c, l, AtNear(Listen), l.(wireB := l.wireB - 1, heldA := true));
  }

  lemma NearAnswers(c: Limits, l: Load)
    requires Reached(c, l) && l.heldA && l.outA < OUTBOX_FRAMES
    ensures Reached(c, l.(outA := l.outA + 1, heldA := false))
  {
    hide Reached, Beats;
    OneBeat(l.outA);
    Reach(c, l, AtNear(Answer), l.(outA := l.outA + 1, heldA := false));
  }

  lemma NearSeals(c: Limits, l: Load)
    requires Reached(c, l) && l.outA > 0 && l.wireA < c.room
    ensures Reached(c, l.(outA := l.outA - 1, wireA := l.wireA + 1))
  {
    hide Reached, Beats;
    OneBeat(l.outA);
    OneBeat(l.wireA);
    Reach(c, l, AtNear(Seal), l.(outA := l.outA - 1, wireA := l.wireA + 1));
  }

  lemma FarListens(c: Limits, l: Load)
    requires Reached(c, l) && l.wireA > 0 && !l.heldB
    ensures Reached(c, l.(wireA := l.wireA - 1, heldB := true))
  {
    hide Reached, Beats;
    OneBeat(l.wireA);
    Reach(c, l, AtFar(Listen), l.(wireA := l.wireA - 1, heldB := true));
  }

  /** One keepalive from the far end becomes an answer the near end holds. */
  lemma BeatIsHeard(c: Limits, l: Load)
    requires Reached(c, l) && c.room > 0 && l.outB == 0 && l.wireB == 0 && !l.heldA
    ensures Reached(c, l.(heldA := true))
  {
    hide Reached;
    FarBeats(c, l);
    FarSeals(c, l.(outB := 1));
    NearListens(c, l.(wireB := 1));
  }

  /** The near end's answers fill its direction of the link, and then its outbox. */
  lemma {:induction false} EchoesFill(c: Limits, wire: nat, out: nat)
    requires c.room > 0 && wire <= c.room && out <= OUTBOX_FRAMES && (out > 0 ==> wire == c.room)
    ensures Reached(c, Load(out, wire, false, 0, 0, false))
    decreases wire + out
  {
    var l := Load(out, wire, false, 0, 0, false);
    if out > 0 {
      EchoesFill(c, wire, out - 1);
      BeatIsHeard(c, l.(outA := out - 1));
      NearAnswers(c, l.(outA := out - 1, heldA := true));
    } else if wire > 0 {
      EchoesFill(c, wire - 1, 0);
      BeatIsHeard(c, l.(wireA := wire - 1));
      NearAnswers(c, l.(wireA := wire - 1, heldA := true));
      NearSeals(c, l.(wireA := wire - 1, outA := 1));
    } else {
      StartsEmpty(c);
    }
  }

  lemma StartsEmpty(c: Limits)
    ensures Reached(c, Load(0, 0, false, 0, 0, false))
  {
    var nothing: seq<Turn> := [];
    assert Beats(0) == [];
    assert Goes(Fresh(c.a, c.b), c.room, nothing);
  }

  /** With the near end holding an answer, keepalives fill the other direction as well. */
  lemma {:induction false} BeatsFill(c: Limits, wire: nat, out: nat)
    requires c.room > 0 && wire <= c.room && out <= OUTBOX_FRAMES && (out > 0 ==> wire == c.room)
    ensures Reached(c, Load(OUTBOX_FRAMES, c.room, true, out, wire, false))
    decreases wire + out
  {
    var l := Load(OUTBOX_FRAMES, c.room, true, out, wire, false);
    if out > 0 {
      BeatsFill(c, wire, out - 1);
      FarBeats(c, l.(outB := out - 1));
    } else if wire > 0 {
      BeatsFill(c, wire - 1, 0);
      FarBeats(c, l.(wireB := wire - 1));
      FarSeals(c, l.(wireB := wire - 1, outB := 1));
    } else {
      EchoesFill(c, c.room, OUTBOX_FRAMES);
      BeatIsHeard(c, l.(heldA := false));
    }
  }

  /** When both ends answer keepalives, a link of any capacity can come to stand still for good. */
  lemma StandstillHappens(limitA: nat, limitB: nat, room: nat) returns (run: seq<Turn>)
    requires room > 0
    ensures Goes(Fresh(limitA, limitB), room, run)
    ensures var s := Gone(Fresh(limitA, limitB), room, run);
            s.up && Stuck(s.a, room) && Stuck(s.b, room)
  {
    hide Goes, Gone, Reached;
    var c := Limits(limitA, limitB, room);
    var full := Load(OUTBOX_FRAMES, room, true, OUTBOX_FRAMES, room, true);
    BeatsFill(c, room, OUTBOX_FRAMES);
    FarListens(c, full.(heldB := false));
    NearSeals(c, full.(wireA := room - 1));
    NearAnswers(c, full.(outA := OUTBOX_FRAMES - 1));
    NearListens(c, full.(heldA := false));
    FarSeals(c, full.(wireB := room - 1));
    FarBeats(c, full.(outB := OUTBOX_FRAMES - 1));
    run := RunTo(c, full);
  }

  lemma RunTo(c: Limits, l: Load) returns (run: seq<Turn>)
    requires Reached(c, l)
    ensures Goes(Fresh(c.a, c.b), c.room, run) && Gone(Fresh(c.a, c.b), c.room, run) == StateOf(c, l)
  {
    run :| Goes(Fresh(c.a, c.b), c.room, run) && Gone(Fresh(c.a, c.b), c.room, run) == StateOf(c, l);
  }
}
