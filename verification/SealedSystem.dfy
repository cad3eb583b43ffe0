/**
 Two sessions joined by bytes.  Each direction is the session's outbox, its writer task
 with the encoder, sealed bytes cut anywhere, and the decoder in front of the peer's read
 loop.  Every run of this system is a run of the packet system of `MuxSystem`.
 */
module SealedSystem {
  import opened Bytes
  import opened Wire
  import opened NoiseCodec
  import opened NoiseLink
  import opened MuxPair
  import opened MuxSessions
  import opened MuxSystem

  datatype Pipe = Pipe(outbox: seq<Packet>, link: Link)

  datatype Wired = Wired(a: End, b: End, ab: Pipe, ba: Pipe, up: bool)
  {
    function Swap(): Wired
    {
      Wired(b, a, ba, ab, up)
    }
  }

  /** The two directions' transport keys. */
  datatype Keys = Keys(ab: Transport, ba: Transport)
  {
    function Swap(): Keys
    {
      Keys(ba, ab)
    }
  }

  ghost predicate LawfulKeys(k: Keys)
  {
    Lawful(k.ab) && Lawful(k.ba)
  }

  /**
   A step of one stream's task; a keepalive; the writer task seals one frame; `n` sealed bytes reach
   the peer's buffer; the read loop asks its decoder once; the link dies.
   */
  datatype WiredMove = Act(id: nat, ev: Event) | Beat | Seal | Arrive(n: nat) | Pull | Fall

  predicate MayMoveA(w: Wired, x: WiredMove)
  {
    match x
    case Act(id, ev) =>
      && IsLocal(ev) && CanLocal(Get(w.a.halves, id), w.up, ev)
      && (ev.Insert? ==> w.a.free > 0 && id == NextId(w.a.issued) && w.a.issued < ID_SPACE - 1)
    case Beat => w.up
    case Seal => w.up && w.ab.outbox != []
    case Arrive(n) => w.up && n <= |w.ab.link.flying|
    case Pull => w.up && !w.ba.link.broken
    case Fall => w.up
  }

  /** A frame that cannot be sealed, or a message that cannot be opened, ends the link. */
  function MakeMoveA(k: Keys, w: Wired, x: WiredMove): Wired
    requires MayMoveA(w, x)
  {
    match x
    case Act(id, ev) =>
      var (e, out) := Local(w.a, w.up, id, ev);
      w.(a := e, ab := w.ab.(outbox := w.ab.outbox + out))
    case Beat => w.(ab := w.ab.(outbox := w.ab.outbox + [KEEPALIVE]))
    case Seal =>
      var p := w.ab.outbox[0];
      if Carried(p) then w.(ab := Pipe(w.ab.outbox[1..], StepLink(k.ab, w.ab.link, Write(p))))
      else w.(ab := w.ab.(link := w.ab.link.(broken := true)), up := false)
    case Arrive(n) => w.(ab := w.ab.(link := StepLink(k.ab, w.ab.link, Carry(n))))
    case Pull =>
      var l := StepLink(k.ba, w.ba.link, Take);
      if l.broken then w.(ba := w.ba.(link := l), up := false)
      else if l.taken == w.ba.link.taken || l.taken == [] then w
      else
        var (e, out) := Hear(w.a, l.taken[|l.taken| - 1]);
        Wired(e, w.b, w.ab.(outbox := w.ab.outbox + out), w.ba.(link := l), w.up)
    case Fall => w.(up := false)
  }

  datatype WiredEvent = OfProxy(x: WiredMove) | OfBridge(x: WiredMove)

  predicate MayMove(w: Wired, e: WiredEvent)
  {
    match e
    case OfProxy(x) => MayMoveA(w, x) && !x.Beat?
    case OfBridge(x) => MayMoveA(w.Swap(), x) && (x.Act? ==> !x.ev.Insert? && !x.ev.Announce?)
  }

  function MakeMove(k: Keys, w: Wired, e: WiredEvent): Wired
    requires MayMove(w, e)
  {
    match e
    case OfProxy(x) => MakeMoveA(k, w, x)
    case OfBridge(x) => MakeMoveA(k.Swap(), w.Swap(), x).Swap()
  }

  predicate WiredRuns(k: Keys, w: Wired, run: seq<WiredEvent>)
    decreases |run|
  {
    run == [] || (MayMove(w, run[0]) && WiredRuns(k, MakeMove(k, w, run[0]), run[1..]))
  }

  function WiredAfter(k: Keys, w: Wired, run: seq<WiredEvent>): Wired
    requires WiredRuns(k, w, run)
    decreases |run|
  {
    if run == [] then w else WiredAfter(k, MakeMove(k, w, run[0]), run[1..])
  }

  function Connected(limitA: nat, limitB: nat): Wired
  {
    Wired(End(map[], limitA, 0, false), End(map[], limitB, 0, true), Pipe([], IDLE), Pipe([], IDLE), true)
  }

  // ---- The packets behind the bytes ----

  /** Packets on their way: sealed and not yet opened, then those still in the outbox. */
  function Queue(p: Pipe): seq<Packet>
  {
    (if |p.link.taken| <= |p.link.written| then Between(p.link) else []) + p.outbox
  }

  function View(w: Wired): Sys
  {
    Sys(w.a, w.b, if w.up then Queue(w.ab) else [], if w.up then Queue(w.ba) else [], w.up)
  }

  /** Both codecs in step, and every packet one they can carry. */
  ghost predicate InStep(k: Keys, w: Wired)
  {
    Faithful(k.ab, w.ab.link) && Faithful(k.ba, w.ba.link)
  }

  /** The move of the packet system that this move is, if it moves any packet at all. */
  function Shadow(k: Keys, w: Wired, x: WiredMove): Option<Move>
    requires MayMoveA(w, x)
  {
    match x
    case Act(id, ev) => Some(Task(id, ev))
    case Beat => Some(Ping)
    case Seal => None
    case Arrive(_) => None
    case Pull => if StepLink(k.ba, w.ba.link, Take).taken == w.ba.link.taken then None else Some(Read)
    case Fall => Some(Dies)
  }

  ghost predicate Shadows(k: Keys, w: Wired, x: WiredMove)
    requires MayMoveA(w, x)
  {
    var n := MakeMoveA(k, w, x);
    match Shadow(k, w, x)
    case None => View(n) == View(w)
    case Some(m) => MayA(View(w), m) && View(n) == MoveA(View(w), m)
  }

  lemma ActShadows(k: Keys, w: Wired, id: nat, ev: Event)
    requires MayMoveA(w, Act(id, ev))
    ensures Shadows(k, w, Act(id, ev))
  {
    hide LocalStep, Between, Put;
    var out := Local(w.a, w.up, id, ev).1;
    assert !w.up ==> out == [];
    Associate(if |w.ab.link.taken| <= |w.ab.link.written| then Between(w.ab.link) else [], w.ab.outbox, out);
  }

  lemma SealShadows(k: Keys, w: Wired)
    requires MayMoveA(w, Seal) && InStep(k, w) && AllCarried(View(w).ab)
    ensures Shadows(k, w, Seal) && InStep(k, MakeMoveA(k, w, Seal))
  {
    hide Carried, SealMessage, QueueBytes, PlainOf;
    var l, p := w.ab.link, w.ab.outbox[0];
    assert Queue(w.ab)[|Between(l)|] == p;
    WriteKeepsFaith(k.ab, l, p);
    var m := StepLink(k.ab, l, Write(p));
    assert Between(m) == Between(l) + [p];
    assert Between(l) + [p] + w.ab.outbox[1..] == Between(l) + w.ab.outbox;
  }

  lemma ArriveShadows(k: Keys, w: Wired, n: nat)
    requires MayMoveA(w, Arrive(n)) && InStep(k, w) && LawfulKeys(k)
    ensures Shadows(k, w, Arrive(n)) && InStep(k, MakeMoveA(k, w, Arrive(n)))
  {
    hide Faithful, Lawful;
    StepKeepsFaith(k.ab, w.ab.link, Carry(n));
  }

  /** The decoder either waits or hands over the packet at the head of the queue. */
  lemma TakesHead(t: Transport, l: Link)
    requires Lawful(t) && Faithful(t, l)
    ensures Faithful(t, StepLink(t, l, Take))
    ensures var m := StepLink(t, l, Take);
            m == l || (Between(l) != [] && m.taken == l.taken + [Between(l)[0]] && Between(m) == Between(l)[1..])
  {
    hide OpenMessage, SealMessage, QueueBytes, Head, ToPacket, Carried, PlainOf;
    TakeKeepsFaith(t, l);
    OpensFirst(t, l.dec, Between(l), l.buffer, l.flying);
    if OpenMessage(t, l.dec, l.buffer).Item? {
      PacketSurvives(Between(l)[0]);
    }
  }

  lemma PullInStep(k: Keys, w: Wired)
    requires MayMoveA(w, Pull) && InStep(k, w) && LawfulKeys(k)
    ensures InStep(k, MakeMoveA(k, w, Pull)) && !StepLink(k.ba, w.ba.link, Take).broken
  {
    TakesHead(k.ba, w.ba.link);
    hide StepLink, QueueBytes, Hear, Lawful, Between;
  }

  /** What the read loop's turn does: nothing yet, or the packet at the head. */
  lemma PullHears(k: Keys, w: Wired)
    requires MayMoveA(w, Pull) && InStep(k, w) && LawfulKeys(k)
    ensures var l, m, n := w.ba.link, StepLink(k.ba, w.ba.link, Take), MakeMoveA(k, w, Pull);
            if m.taken == l.taken then Shadow(k, w, Pull) == None && n == w
            else
              && Shadow(k, w, Pull) == Some(Read)
              && |l.taken| <= |l.written| && |m.taken| <= |m.written|
              && Between(l) != [] && Between(m) == Between(l)[1..]
              && var (e, out) := Hear(w.a, Between(l)[0]);
                 n == Wired(e, w.b, w.ab.(outbox := w.ab.outbox + out), w.ba.(link := m), w.up)
  {
    TakesHead(k.ba, w.ba.link);
    hide StepLink, QueueBytes, Hear, Lawful, Carried;
  }

  lemma PullShadows(k: Keys, w: Wired)
    requires MayMoveA(w, Pull) && InStep(k, w) && LawfulKeys(k)
    ensures Shadows(k, w, Pull)
  {
    PullHears(k, w);
    var l := w.ba.link;
    hide StepLink, InStep, LawfulKeys, MakeMoveA, Shadow, Hear, Between;
    if Shadow(k, w, Pull).Some? {
      var before := if |w.ab.link.taken| <= |w.ab.link.written| then Between(w.ab.link) else [];
      assert Queue(w.ba) == Between(l) + w.ba.outbox;
      assert Queue(w.ba)[0] == Between(l)[0];
      assert Queue(w.ba)[1..] == Between(l)[1..] + w.ba.outbox;
      Associate(before, w.ab.outbox, Hear(w.a, Between(l)[0]).1);
    }
  }

  /** Each move over bytes is one move of the packets or none, and breaks nothing. */
  lemma MoveShadows(k: Keys, w: Wired, x: WiredMove)
    requires MayMoveA(w, x) && InStep(k, w) && LawfulKeys(k) && AllCarried(View(w).ab)
    ensures Shadows(k, w, x) && InStep(k, MakeMoveA(k, w, x))
  {
    match x {
      case Act(id, ev) =>
        hide Faithful, Lawful;
        ActShadows(k, w, id, ev);
      case Beat =>
        hide Faithful, Lawful, Between;
        Associate(if |w.ab.link.taken| <= |w.ab.link.written| then Between(w.ab.link) else [], w.ab.outbox, [KEEPALIVE]);
      case Seal => SealShadows(k, w);
      case Arrive(n) => ArriveShadows(k, w, n);
      case Pull =>
        PullInStep(k, w);
        PullShadows(k, w);
      case Fall =>
        hide Faithful, Lawful;
    }
  }

  /** The packet move behind an event of either end. */
  function ShadowOf(k: Keys, w: Wired, e: WiredEvent): Option<SysEvent>
    requires MayMove(w, e)
  {
    match e
    case OfProxy(x) => (match Shadow(k, w, x) case None => None case Some(m) => Some(AtProxy(m)))
    case OfBridge(x) => (match Shadow(k.Swap(), w.Swap(), x) case None => None case Some(m) => Some(AtBridge(m)))
  }

  /** What every run over bytes keeps. */
  ghost predicate Sound(k: Keys, w: Wired)
  {
    InStep(k, w) && AllInv(View(w)) && Fitting(View(w)) && IdsIssued(View(w))
  }

  lemma SwapViews(w: Wired)
    ensures View(w.Swap()) == View(w).Swap()
  {
  }

  lemma EventShadows(k: Keys, w: Wired, e: WiredEvent)
    requires MayMove(w, e) && InStep(k, w) && LawfulKeys(k) && Fitting(View(w))
    ensures InStep(k, MakeMove(k, w, e))
    ensures match ShadowOf(k, w, e)
            case None => View(MakeMove(k, w, e)) == View(w)
            case Some(m) => May(View(w), m) && View(MakeMove(k, w, e)) == Do(View(w), m)
  {
    hide Faithful, Lawful, MayMoveA, MakeMoveA, View, AllCarried, Narrow, MayA, MoveA;
    SwapViews(w);
    match e
    case OfProxy(x) =>
      MoveShadows(k, w, x);
      ShadowOpensNothing(k, w, x);
    case OfBridge(x) =>
      MoveShadows(k.Swap(), w.Swap(), x);
      SwapViews(MakeMove(k, w, e));
      ShadowOpensNothing(k.Swap(), w.Swap(), x);
  }

  lemma ShadowOpensNothing(k: Keys, w: Wired, x: WiredMove)
    requires MayMoveA(w, x)
    ensures var m := Shadow(k, w, x);
            && (m.Some? && m.value.Task? ==> x.Act? && m.value.ev == x.ev)
            && (m.Some? && m.value.Ping? ==> x.Beat?)
  {
  }

  lemma EventKeepsSound(k: Keys, w: Wired, e: WiredEvent)
    requires MayMove(w, e) && Sound(k, w) && LawfulKeys(k)
    ensures Sound(k, MakeMove(k, w, e))
  {
    hide InStep, AllInv, Fitting, IdsIssued, LawfulKeys, MayMove, MakeMove, View, May, Do, ShadowOf;
    EventShadows(k, w, e);
    var m := ShadowOf(k, w, e);
    if m.Some? {
      DoKeepsInvs(View(w), m.value);
      DoKeepsWidths(View(w), m.value);
      DoKeepsIds(View(w), m.value);
    }
  }

  lemma ConnectedIsSound(k: Keys, limitA: nat, limitB: nat)
    ensures View(Connected(limitA, limitB)) == Booted(limitA, limitB)
    ensures Sound(k, Connected(limitA, limitB))
  {
    hide AllInv, Fitting, IdsIssued, Faithful;
    IdleIsFaithful(k.ab);
    IdleIsFaithful(k.ba);
    assert Queue(Pipe([], IDLE)) == [];
    BootedIsTidy(limitA, limitB);
  }

  /** The packet moves behind a run over bytes. */
  function ShadowRun(k: Keys, w: Wired, run: seq<WiredEvent>): seq<SysEvent>
    requires WiredRuns(k, w, run)
    decreases |run|
  {
    if run == [] then []
    else
      (match ShadowOf(k, w, run[0]) case None => [] case Some(m) => [m]) + ShadowRun(k, MakeMove(k, w, run[0]), run[1..])
  }

  /**
   Refinement: with lawful transports, any run over sealed bytes, however they are cut
   and scheduled, is a run of the packet system; neither codec ever fails and the two
   nonces of each direction stay in step.
   */
  lemma {:induction false} BytesArePackets(k: Keys, w: Wired, run: seq<WiredEvent>)
    requires WiredRuns(k, w, run) && Sound(k, w) && LawfulKeys(k)
    ensures Sound(k, WiredAfter(k, w, run))
    ensures var e := WiredAfter(k, w, run);
            && !e.ab.link.broken && !e.ba.link.broken
            && e.ab.link.taken <= e.ab.link.written && e.ba.link.taken <= e.ba.link.written
    ensures SysRuns(View(w), ShadowRun(k, w, run))
    ensures SysAfter(View(w), ShadowRun(k, w, run)) == View(WiredAfter(k, w, run))
    decreases |run|
  {
    hide AllInv, Fitting, IdsIssued, LawfulKeys, MayMove, MakeMove, View, May, Do, ShadowOf, QueueBytes;
    if run != [] {
      EventKeepsSound(k, w, run[0]);
      EventShadows(k, w, run[0]);
      var n := MakeMove(k, w, run[0]);
      BytesArePackets(k, n, run[1..]);
      var m, rest := ShadowOf(k, w, run[0]), ShadowRun(k, n, run[1..]);
      if m.Some? {
        assert ([m.value] + rest)[1..] == rest;
      } else {
        assert [] + rest == rest;
      }
    }
  }

  // ---- The converse: whatever packets can do, bytes can do ----

  function Side(proxy: bool, x: WiredMove): WiredEvent
  {
    if proxy then OfProxy(x) else OfBridge(x)
  }

  function Sees(proxy: bool, w: Wired): Wired
  {
    if proxy then w else w.Swap()
  }

  function KeysOf(proxy: bool, k: Keys): Keys
  {
    if proxy then k else k.Swap()
  }

  /** Steps of the link's own tasks are the same at either end. */
  lemma OnSide(proxy: bool, k: Keys, w: Wired, x: WiredMove)
    requires MayMoveA(Sees(proxy, w), x) && !x.Act? && !x.Beat?
    ensures MayMove(w, Side(proxy, x))
    ensures Sees(proxy, MakeMove(k, w, Side(proxy, x))) == MakeMoveA(KeysOf(proxy, k), Sees(proxy, w), x)
    ensures Sees(!proxy, MakeMove(k, w, Side(proxy, x))) == MakeMoveA(KeysOf(proxy, k), Sees(proxy, w), x).Swap()
  {
    assert w.Swap().Swap() == w && k.Swap().Swap() == k;
  }

  /** One more event on the end of a run. */
  lemma {:induction false} WiredOn(k: Keys, w: Wired, run: seq<WiredEvent>, e: WiredEvent) returns (longer: seq<WiredEvent>)
    requires WiredRuns(k, w, run) && MayMove(WiredAfter(k, w, run), e)
    ensures WiredRuns(k, w, longer) && WiredAfter(k, w, longer) == MakeMove(k, WiredAfter(k, w, run), e)
    ensures longer == run + [e]
    decreases |run|
  {
    hide MayMove, MakeMove;
    if run == [] {
      longer := [e];
      assert [e][1..] == [];
    } else {
      var rest := WiredOn(k, MakeMove(k, w, run[0]), run[1..], e);
      longer := [run[0]] + rest;
      assert longer[1..] == rest;
    }
  }

  /** With the head of the queue sealed and all its bytes there, the read loop's next turn takes it. */
  lemma PullTakes(k: Keys, w: Wired)
    requires InStep(k, w) && LawfulKeys(k) && w.up && HeadSealed(w.ba.link) && w.ba.link.flying == []
    ensures MayMoveA(w, Pull) && Shadow(k, w, Pull) == Some(Read)
  {
    var l := w.ba.link;
    PullHears(k, w);
    OpensFirst(k.ba, l.dec, Between(l), l.buffer, l.flying);
    PacketSurvives(Between(l)[0]);
    hide OpenMessage, QueueBytes, PlainOf, Head, ToPacket;
    assert OpenMessage(k.ba, l.dec, l.buffer).Item?;
    assert StepLink(k.ba, l, Take).taken == l.taken + [ToPacket(Head(PlainOf(Between(l)[0])).value)];
  }

  /** The packet at the head of this queue is sealed. */
  predicate HeadSealed(l: Link)
  {
    |l.taken| <= |l.written| && Between(l) != []
  }

  /** The far writer seals the head if it must, all bytes arrive, and the near read loop takes one turn. */
  lemma ReadInBytes(proxy: bool, k: Keys, w: Wired) returns (run: seq<WiredEvent>)
    requires Sound(k, w) && LawfulKeys(k) && w.up && View(Sees(proxy, w)).ba != []
    ensures WiredRuns(k, w, run)
    ensures var m := if proxy then AtProxy(Read) else AtBridge(Read);
            May(View(w), m) && View(WiredAfter(k, w, run)) == Do(View(w), m)
    ensures forall i :: 0 <= i < |run| ==> !run[i].x.Act?
  {
    hide Sound, LawfulKeys, View, May, Do, MayMove, MakeMove, WiredRuns, WiredAfter, HeadSealed;
    var v;
    run, v := SealStep(proxy, k, w);
    var n := ArriveStep(proxy, k, v);
    run := WiredOn(k, w, run, Side(!proxy, Arrive(|Sees(proxy, v).ba.link.flying|)));
    TurnTakes(proxy, k, n);
    run := WiredOn(k, w, run, Side(proxy, Pull));
  }

  lemma Nothing(k: Keys, w: Wired) returns (run: seq<WiredEvent>)
    ensures WiredRuns(k, w, run) && WiredAfter(k, w, run) == w && run == []
  {
    run := [];
  }

  lemma SealStep(proxy: bool, k: Keys, w: Wired) returns (run: seq<WiredEvent>, v: Wired)
    requires Sound(k, w) && LawfulKeys(k) && w.up && View(Sees(proxy, w)).ba != []
    ensures WiredRuns(k, w, run) && WiredAfter(k, w, run) == v && (run == [] || run == [Side(!proxy, Seal)])
    ensures Sound(k, v) && View(v) == View(w) && v.up && HeadSealed(Sees(proxy, v).ba.link)
  {
    hide AllInv, IdsIssued, LawfulKeys, QueueBytes, SealMessage, WiredRuns, WiredAfter;
    run := Nothing(k, w);
    v := w;
    assert |Sees(proxy, w).ba.link.taken| <= |Sees(proxy, w).ba.link.written|;
    if Between(Sees(proxy, w).ba.link) == [] {
      v := SealNow(proxy, k, w);
      run := WiredOn(k, w, run, Side(!proxy, Seal));
    }
  }

  lemma SealNow(proxy: bool, k: Keys, w: Wired) returns (v: Wired)
    requires Sound(k, w) && LawfulKeys(k) && w.up && View(Sees(proxy, w)).ba != []
    requires |Sees(proxy, w).ba.link.taken| <= |Sees(proxy, w).ba.link.written| && Between(Sees(proxy, w).ba.link) == []
    ensures MayMove(w, Side(!proxy, Seal)) && v == MakeMove(k, w, Side(!proxy, Seal))
    ensures Sound(k, v) && View(v) == View(w) && v.up && HeadSealed(Sees(proxy, v).ba.link)
  {
    hide AllInv, IdsIssued, LawfulKeys, QueueBytes, SealMessage;
    assert Sees(!proxy, w).ab == Sees(proxy, w).ba;
    OnSide(!proxy, k, w, Seal);
    v := MakeMove(k, w, Side(!proxy, Seal));
    EventShadows(k, w, Side(!proxy, Seal));
    HeadIsCarried(proxy, w);
  }

  lemma HeadIsCarried(proxy: bool, w: Wired)
    requires Fitting(View(w)) && w.up && Sees(proxy, w).ba.outbox != []
    requires |Sees(proxy, w).ba.link.taken| <= |Sees(proxy, w).ba.link.written|
    ensures Carried(Sees(proxy, w).ba.outbox[0])
  {
    var p := Sees(proxy, w).ba;
    assert Queue(p)[|Between(p.link)|] == p.outbox[0];
  }

  lemma ArriveStep(proxy: bool, k: Keys, v: Wired) returns (n: Wired)
    requires Sound(k, v) && LawfulKeys(k) && v.up && HeadSealed(Sees(proxy, v).ba.link)
    ensures var e := Side(!proxy, Arrive(|Sees(proxy, v).ba.link.flying|));
            MayMove(v, e) && n == MakeMove(k, v, e)
    ensures Sound(k, n) && View(n) == View(v) && n.up
    ensures HeadSealed(Sees(proxy, n).ba.link) && Sees(proxy, n).ba.link.flying == []
  {
    hide AllInv, IdsIssued, LawfulKeys, QueueBytes, Fitting;
    var x := Arrive(|Sees(proxy, v).ba.link.flying|);
    assert Sees(!proxy, v).ab == Sees(proxy, v).ba;
    OnSide(!proxy, k, v, x);
    EventShadows(k, v, Side(!proxy, x));
    n := MakeMove(k, v, Side(!proxy, x));
  }

  lemma TurnTakes(proxy: bool, k: Keys, n: Wired)
    requires Sound(k, n) && LawfulKeys(k) && n.up
    requires HeadSealed(Sees(proxy, n).ba.link) && Sees(proxy, n).ba.link.flying == []
    ensures MayMove(n, Side(proxy, Pull))
    ensures var m := if proxy then AtProxy(Read) else AtBridge(Read);
            May(View(n), m) && View(MakeMove(k, n, Side(proxy, Pull))) == Do(View(n), m)
  {
    hide AllInv, IdsIssued, QueueBytes, Fitting, StepLink, Faithful, Lawful;
    PullTakes(KeysOf(proxy, k), Sees(proxy, n));
    OnSide(proxy, k, n, Pull);
    EventShadows(k, n, Side(proxy, Pull));
  }

  /** Every step a stream's task takes in the run is one of these moves. */
  predicate OnlyThese(run: seq<WiredEvent>, moves: seq<SysEvent>)
  {
    forall i :: 0 <= i < |run| && run[i].x.Act? ==>
                  (if run[i].OfProxy? then AtProxy(Task(run[i].x.id, run[i].x.ev)) else AtBridge(Task(run[i].x.id, run[i].x.ev))) in moves
  }

  /** Each move of the packet system is made by some run over bytes. */
  lemma MoveInBytes(k: Keys, w: Wired, m: SysEvent) returns (run: seq<WiredEvent>)
    requires Sound(k, w) && LawfulKeys(k) && May(View(w), m)
    ensures WiredRuns(k, w, run) && View(WiredAfter(k, w, run)) == Do(View(w), m)
    ensures OnlyThese(run, [m])
  {
    hide InStep, AllInv, Fitting, IdsIssued, LawfulKeys;
    SwapViews(w);
    if m.x.Read? {
      run := ReadInBytes(m.AtProxy?, k, w);
    } else {
      var x := match m.x case Task(id, ev) => Act(id, ev) case Ping => Beat case _ => Fall;
      var e := Side(m.AtProxy?, x);
      EventShadows(k, w, e);
      run := Nothing(k, w);
      run := WiredOn(k, w, run, e);
    }
  }

  /** Every run of the packet system is the view of some run over bytes: the two systems do the same. */
  lemma {:induction false} PacketsAreBytes(k: Keys, w: Wired, moves: seq<SysEvent>) returns (run: seq<WiredEvent>)
    requires Sound(k, w) && LawfulKeys(k) && SysRuns(View(w), moves)
    ensures WiredRuns(k, w, run) && View(WiredAfter(k, w, run)) == SysAfter(View(w), moves)
    ensures OnlyThese(run, moves)
    decreases |moves|
  {
    hide Sound, LawfulKeys, May, Do, View, MayMove, MakeMove;
    if moves == [] {
      run := Nothing(k, w);
    } else {
      var first := MoveInBytes(k, w, moves[0]);
      RunKeepsSound(k, w, first);
      var rest := PacketsAreBytes(k, WiredAfter(k, w, first), moves[1..]);
      WiredAppend(k, w, first, rest);
      run := first + rest;
    }
  }

  lemma RunKeepsSound(k: Keys, w: Wired, run: seq<WiredEvent>)
    requires WiredRuns(k, w, run) && Sound(k, w) && LawfulKeys(k)
    ensures Sound(k, WiredAfter(k, w, run))
  {
    BytesArePackets(k, w, run);
  }

  lemma {:induction false} WiredAppend(k: Keys, w: Wired, run: seq<WiredEvent>, more: seq<WiredEvent>)
    requires WiredRuns(k, w, run) && WiredRuns(k, WiredAfter(k, w, run), more)
    ensures WiredRuns(k, w, run + more) && WiredAfter(k, w, run + more) == WiredAfter(k, WiredAfter(k, w, run), more)
    decreases |run|
  {
    hide MayMove, MakeMove;
    if run == [] {
      assert run + more == more;
    } else {
      assert (run + more)[1..] == run[1..] + more;
      WiredAppend(k, MakeMove(k, w, run[0]), run[1..], more);
    }
  }
}
