/**
 What the relay can do, beside what it never does wrong: a phone that names this bridge
 can have its whole payload, of any length, delivered to the bridge.
 */
module EndToEndDelivery {
  import opened Bytes
  import opened Wire
  import opened Incremental
  import opened WsCodec
  import opened WsReading
  import opened MuxPair
  import opened MuxProgress
  import opened MuxSessions
  import opened MuxSystem
  import opened SealedSystem
  import opened EndToEnd

  // ---- One frame across the link ----

  /** Both sessions have the stream, and nothing is on the link. */
  predicate Idle(s: Sys, j: nat)
  {
    j != 0 && s.ab == [] && s.ba == [] && Live(Pair(Get(s.a.halves, j), Get(s.b.halves, j), [], [], s.up))
  }

  /** The bridge has read everything it was handed and owes less than half a window. */
  predicate Settled(h: Half)
  {
    h.inbox == [] && h.hand == 0 && h.owed < GRANT_THRESHOLD
  }

  /** Opening a stream and paying for a frame belong to a phone's task. */
  predicate Free(moves: seq<SysEvent>)
  {
    forall i :: 0 <= i < |moves| && moves[i].AtProxy? && moves[i].x.Task? ==> !moves[i].x.ev.Insert? && !moves[i].x.ev.Reserve?
  }

  lemma {:induction false} MovesOn(s: Sys, moves: seq<SysEvent>, m: SysEvent) returns (longer: seq<SysEvent>)
    requires SysRuns(s, moves) && May(SysAfter(s, moves), m)
    ensures longer == moves + [m]
    ensures SysRuns(s, longer) && SysAfter(s, longer) == Do(SysAfter(s, moves), m)
    decreases |moves|
  {
    hide May, Do;
    longer := moves + [m];
    if moves == [] {
      assert [m][1..] == [];
    } else {
      assert longer[1..] == moves[1..] + [m];
      var rest := MovesOn(Do(s, moves[0]), moves[1..], m);
    }
  }

  /** What one move leads to. */
  ghost predicate Goes(s: Sys, m: SysEvent, t: Sys)
  {
    May(s, m) && Do(s, m) == t
  }

  /** The frame `a` has paid for is enqueued and read by the peer's loop. */
  lemma FrameCrosses(s: Sys, j: nat) returns (t: Sys, u: Sys)
    requires Idle(s, j) && Get(s.a.halves, j).reserved != [] && Get(s.b.halves, j).inbox == []
    ensures Goes(s, AtProxy(Task(j, Enqueue)), t) && Goes(t, AtBridge(Read), u)
    ensures Idle(u, j)
    ensures Get(u.a.halves, j) == Get(s.a.halves, j).(reserved := [])
    ensures Get(u.b.halves, j) == Get(s.b.halves, j).(inbox := [Get(s.a.halves, j).reserved])
  {
    t := Do(s, AtProxy(Task(j, Enqueue)));
    u := Do(t, AtBridge(Read));
  }

  /** The bridge's reader takes the one chunk waiting and counts it. */
  lemma ChunkIsRead(s: Sys, j: nat, chunk: seq<byte>) returns (t: Sys, u: Sys)
    requires Idle(s, j) && Get(s.b.halves, j).inbox == [chunk] && chunk != [] && Get(s.b.halves, j).hand == 0
    ensures Goes(s, AtBridge(Task(j, Recv)), t) && Goes(t, AtBridge(Task(j, Account)), u)
    ensures Idle(u, j) && Get(u.a.halves, j) == Get(s.a.halves, j)
    ensures var h := Get(s.b.halves, j);
            Get(u.b.halves, j) == h.(inbox := [], owed := h.owed + |chunk|, got := h.got + chunk)
  {
    t := Do(s, AtBridge(Task(j, Recv)));
    u := Do(t, AtBridge(Task(j, Account)));
  }

  /** A grant that is due travels back. */
  lemma GrantCrosses(s: Sys, j: nat) returns (t: Sys, u: Sys)
    requires Idle(s, j) && Get(s.b.halves, j).owed >= GRANT_THRESHOLD
    ensures Goes(s, AtBridge(Task(j, Grant)), t) && Goes(t, AtProxy(Read), u)
    ensures Idle(u, j)
    ensures var a, b := Get(s.a.halves, j), Get(s.b.halves, j);
            Get(u.a.halves, j) == a.(credit := a.credit + b.owed) && Get(u.b.halves, j) == b.(owed := 0)
  {
    t := Do(s, AtBridge(Task(j, Grant)));
    u := Do(t, AtProxy(Read));
  }

  /** A paid frame reaches the bridge's reader, and the bridge is ready for the next. */
  lemma FrameArrives(s: Sys, j: nat) returns (moves: seq<SysEvent>)
    requires Idle(s, j) && Get(s.a.halves, j).reserved != [] && Settled(Get(s.b.halves, j))
    ensures SysRuns(s, moves) && Free(moves)
    ensures var t := SysAfter(s, moves);
            && Idle(t, j) && Get(t.a.halves, j).reserved == [] && Settled(Get(t.b.halves, j))
            && Get(t.b.halves, j).got == Get(s.b.halves, j).got + Get(s.a.halves, j).reserved
  {
    var chunk := Get(s.a.halves, j).reserved;
    var s1, s2 := FrameCrosses(s, j);
    var s3, s4 := ChunkIsRead(s2, j, chunk);
    hide May, Do, Idle, SysRuns, SysAfter;
    moves := NoMoves(s);
    moves := MovesOn(s, moves, AtProxy(Task(j, Enqueue)));
    moves := MovesOn(s, moves, AtBridge(Read));
    moves := MovesOn(s, moves, AtBridge(Task(j, Recv)));
    moves := MovesOn(s, moves, AtBridge(Task(j, Account)));
    if Get(s4.b.halves, j).owed >= GRANT_THRESHOLD {
      var s5, s6 := GrantCrosses(s4, j);
      moves := MovesOn(s, moves, AtBridge(Task(j, Grant)));
      moves := MovesOn(s, moves, AtProxy(Read));
    }
  }

  lemma NoMoves(s: Sys) returns (moves: seq<SysEvent>)
    ensures moves == [] && SysRuns(s, moves) && SysAfter(s, moves) == s
  {
    moves := [];
  }

  /** A stream just inserted is announced, and the bridge takes it. */
  lemma OpenCrosses(s: Sys, j: nat) returns (moves: seq<SysEvent>)
    requires j != 0 && s.up && s.ab == [] && s.ba == [] && Get(s.a.halves, j) == FRESH.(tx := false)
    requires s.b.free > 0 && s.b.serving
    ensures SysRuns(s, moves) && Free(moves)
    ensures var t := SysAfter(s, moves);
            Idle(t, j) && Get(t.a.halves, j) == FRESH && Get(t.b.halves, j) == FRESH
  {
    var t := Do(s, AtProxy(Task(j, Announce)));
    assert t.ab == [Packet(j, Open)];
    var u := Do(t, AtBridge(Read));
    moves := [];
    moves := MovesOn(s, moves, AtProxy(Task(j, Announce)));
    moves := MovesOn(s, moves, AtBridge(Read));
  }

  // ---- The same under the relay ----

  ghost predicate Reaches(k: Keys, r: Relay, e: Relay)
  {
    exists run :: RelayRuns(k, r, run) && RelayAfter(k, r, run) == e
  }

  lemma Start(k: Keys, r: Relay)
    ensures Reaches(k, r, r)
  {
    var nothing: seq<RelayStep> := [];
    assert RelayRuns(k, r, nothing);
  }

  lemma {:induction false} StepOn(k: Keys, r: Relay, run: seq<RelayStep>, x: RelayStep) returns (longer: seq<RelayStep>)
    requires RelayRuns(k, r, run) && CanRelay(RelayAfter(k, r, run), x)
    ensures RelayRuns(k, r, longer) && RelayAfter(k, r, longer) == StepRelay(k, RelayAfter(k, r, run), x)
    decreases |run|
  {
    hide CanRelay, StepRelay;
    if run == [] {
      longer := [x];
      assert [x][1..] == [];
    } else {
      var rest := StepOn(k, StepRelay(k, r, run[0]), run[1..], x);
      longer := [run[0]] + rest;
      assert longer[1..] == rest;
    }
  }

  lemma Onward(k: Keys, r: Relay, e: Relay, x: RelayStep)
    requires Reaches(k, r, e) && CanRelay(e, x)
    ensures Reaches(k, r, StepRelay(k, e, x))
  {
    hide CanRelay, StepRelay, RelayRuns, RelayAfter;
    var run :| RelayRuns(k, r, run) && RelayAfter(k, r, run) == e;
    var longer := StepOn(k, r, run, x);
  }

  /** A run over the link is a run of the relay that leaves the phones alone. */
  lemma {:induction false} LinkRunIsRelayRun(k: Keys, r: Relay, e: Relay, run: seq<WiredEvent>)
    requires Reaches(k, r, e) && WiredRuns(k, e.link, run)
    requires forall i :: 0 <= i < |run| ==> !Attributed(run[i])
    ensures Reaches(k, r, e.(link := WiredAfter(k, e.link, run)))
    decreases |run|
  {
    hide Reaches, MayMove, MakeMove, Attributed;
    if run == [] {
      assert e.(link := e.link) == e;
    } else {
      Onward(k, r, e, Mux(run[0]));
      LinkRunIsRelayRun(k, r, e.(link := MakeMove(k, e.link, run[0])), run[1..]);
    }
  }

  /** Whatever the packets can do by themselves, the relay can let them do. */
  lemma PacketsMove(k: Keys, r: Relay, e: Relay, moves: seq<SysEvent>) returns (n: Relay)
    requires Reaches(k, r, e) && LawfulKeys(k) && Sound(k, e.link) && SysRuns(View(e.link), moves) && Free(moves)
    ensures Reaches(k, r, n) && Sound(k, n.link) && n == e.(link := n.link)
    ensures View(n.link) == SysAfter(View(e.link), moves)
  {
    hide Reaches, Sound, LawfulKeys, WiredRuns, WiredAfter, SysRuns, SysAfter, View;
    var run := PacketsAreBytes(k, e.link, moves);
    NotAttributed(run, moves);
    LinkRunIsRelayRun(k, r, e, run);
    RunKeepsSound(k, e.link, run);
    n := e.(link := WiredAfter(k, e.link, run));
  }

  lemma NotAttributed(run: seq<WiredEvent>, moves: seq<SysEvent>)
    requires OnlyThese(run, moves) && Free(moves)
    ensures forall i :: 0 <= i < |run| ==> !Attributed(run[i])
  {
    forall i | 0 <= i < |run|
      ensures !Attributed(run[i])
    {
      if run[i].OfProxy? && run[i].x.Act? {
        assert AtProxy(Task(run[i].x.id, run[i].x.ev)) in moves;
      }
    }
  }

  /** The stream of phone `p` is open and quiet, and the bridge has the first `n` bytes of its payload. */
  ghost predicate Calm(k: Keys, e: Relay, p: nat, n: nat)
  {
    && Sound(k, e.link) && p in e.phones && e.phones[p].stream.Some?
    && var ph, j, s := e.phones[p], e.phones[p].stream.value, View(e.link);
       && Idle(s, j) && Get(s.a.halves, j).reserved == [] && Settled(Get(s.b.halves, j))
       && ph.sends != [] && ph.held == [] && ph.delivered == n <= |Heard(ph)|
       && Get(s.b.halves, j).got == Heard(ph)[..n]
  }

  /** In such a state any frame can be paid for. */
  lemma CalmCanPay(k: Keys, w: Wired, j: nat, chunk: seq<byte>)
    requires Sound(k, w) && Idle(View(w), j) && 0 < |chunk| <= MAX_PAYLOAD
    requires Get(View(w).a.halves, j).reserved == [] && Settled(Get(View(w).b.halves, j))
    ensures MayMove(w, OfProxy(Act(j, Reserve(chunk))))
  {
    hide InStep, Fitting, IdsIssued, Ordered, BytesKept;
    var s := Project(View(w), j);
    assert Inv(s);
    assert s == Pair(Get(w.a.halves, j), Get(w.b.halves, j), [], [], w.up);
    assert DataOf([]) == [] && GrantsOf([]) == 0 && Concat([]) == [];
    DrainedSenderCanSend(s, chunk);
  }

  /** Nothing of the stream is under way. */
  predicate Ready(s: Sys, j: nat)
  {
    Idle(s, j) && Get(s.a.halves, j).reserved == [] && Settled(Get(s.b.halves, j))
  }

  /** A frame of it is paid for, and nothing else is under way. */
  predicate Loaded(s: Sys, j: nat, chunk: seq<byte>, far: End)
  {
    Idle(s, j) && Get(s.a.halves, j).reserved == chunk && s.b == far
  }

  /** The phone with its next frame paid for. */
  function AfterPaying(ph: Phone): Phone
  {
    ph.(held := ph.held[|Cut(ph.held)|..], sends := ph.sends + [Cut(ph.held)])
  }

  /** `send` pays for its frame. */
  lemma Pays(k: Keys, r: Relay, e: Relay, p: nat, j: nat) returns (n: Relay)
    requires Reaches(k, r, e) && LawfulKeys(k) && Sound(k, e.link)
    requires p in e.phones && e.phones[p].stream == Some(j) && e.phones[p].held != [] && Ready(View(e.link), j)
    ensures Reaches(k, r, n) && Sound(k, n.link)
    ensures n.phones == e.phones[p := AfterPaying(e.phones[p])]
    ensures Loaded(View(n.link), j, Cut(e.phones[p].held), View(e.link).b)
  {
    var ph := e.phones[p];
    var x := OfProxy(Act(j, Reserve(Cut(ph.held))));
    CalmCanPay(k, e.link, j, Cut(ph.held));
    hide Sound, Reaches, LawfulKeys, Heard;
    assert CanRelay(e, SendFrame(p));
    Onward(k, r, e, SendFrame(p));
    n := StepRelay(k, e, SendFrame(p));
    EventKeepsSound(k, e.link, x);
    PayingShows(k, e.link, j, Cut(ph.held));
  }

  lemma PayingShows(k: Keys, w: Wired, j: nat, chunk: seq<byte>)
    requires Idle(View(w), j) && MayMove(w, OfProxy(Act(j, Reserve(chunk))))
    ensures var t := View(MakeMove(k, w, OfProxy(Act(j, Reserve(chunk)))));
            Idle(t, j) && Get(t.a.halves, j).reserved == chunk && t.b == View(w).b
  {
    hide NoiseLink.StepLink;
    ActShadows(k, w, j, Reserve(chunk));
  }

  /** From a calm state with payload left, the relay can come to a calm state with more delivered. */
  lemma CalmGoesOn(k: Keys, r: Relay, e: Relay, p: nat, n: nat) returns (f: Relay, m: nat)
    requires LawfulKeys(k) && Reaches(k, r, e) && Calm(k, e, p, n) && n < |Heard(e.phones[p])|
    ensures Reaches(k, r, f) && n < m && Calm(k, f, p, m)
    ensures f.phones[p].chunks == e.phones[p].chunks && f.phones[p].wire == e.phones[p].wire && f.phones[p].stream == e.phones[p].stream
  {
    hide Sound, Reaches, LawfulKeys, Heard, View, WiredRuns, SysRuns, SysAfter;
    var ph, j := e.phones[p], e.phones[p].stream.value;
    var take := Min(|Heard(ph)| - n, MAX_PAYLOAD);
    m := n + take;
    var chunk := Heard(ph)[n..m];
    HalfSeen(e.link, j);
    assert CanRelay(e, UplinkRead(p, take));
    var e1 := StepRelay(k, e, UplinkRead(p, take));
    Onward(k, r, e, UplinkRead(p, take));
    assert e1.phones[p].held == chunk && Cut(chunk) == chunk;
    var e2 := Pays(k, r, e1, p, j);
    var moves := FrameArrives(View(e2.link), j);
    f := PacketsMove(k, r, e2, moves);
    SameChunks(ph, f.phones[p]);
    assert Heard(ph)[..n] + chunk == Heard(ph)[..m];
    assert chunk[|chunk|..] == [];
  }

  lemma HalfSeen(w: Wired, j: nat)
    ensures Get(View(w).a.halves, j) == Near(w, Some(j)) && Get(View(w).b.halves, j) == Get(w.b.halves, j)
  {
  }

  /** So it can come to deliver everything that was heard. */
  lemma {:induction false} CalmDelivers(k: Keys, r: Relay, e: Relay, p: nat, n: nat) returns (f: Relay)
    requires LawfulKeys(k) && Reaches(k, r, e) && Calm(k, e, p, n)
    ensures Reaches(k, r, f) && Calm(k, f, p, |Heard(e.phones[p])|)
    ensures f.phones[p].wire == e.phones[p].wire && f.phones[p].chunks == e.phones[p].chunks
    decreases |Heard(e.phones[p])| - n
  {
    if n == |Heard(e.phones[p])| {
      f := e;
    } else {
      var g, m := CalmGoesOn(k, r, e, p, n);
      SameChunks(e.phones[p], g.phones[p]);
      hide Calm, Reaches, Heard;
      f := CalmDelivers(k, r, g, p, m);
    }
  }

  /** The whole wire is read, its first 37 bytes are taken, and a stream is opened for them. */
  lemma HeadOpens(k: Keys, r: Relay, limitA: nat, limitB: nat, p: nat) returns (e: Relay)
    requires LawfulKeys(k) && Fresh(r, limitA, limitB) && limitA > 0 && limitB > 0 && p in r.phones
    requires HEAD_LEN <= |Meant(r.phones[p].wire)| && Addressed(r.key, Meant(r.phones[p].wire)[..HEAD_LEN])
    ensures Reaches(k, r, e) && Sound(k, e.link) && p in e.phones && e.phones[p].stream == Some(1)
    ensures var ph, wire, s := e.phones[p], r.phones[p].wire, View(e.link);
            && ph.wire == wire && Heard(ph) == Meant(wire)
            && ph.delivered == HEAD_LEN && ph.held == Meant(wire)[..HEAD_LEN] && ph.sends == []
            && s.up && s.ab == [] && s.ba == [] && Get(s.a.halves, 1) == FRESH.(tx := false)
            && s.b == End(map[], limitB, 0, true)
  {
    var wire := r.phones[p].wire;
    ConnectedIsSound(k, limitA, limitB);
    hide Sound, Reaches, LawfulKeys, ReadChunks, Scan, ClientParse, Meant, Addressed, Payload;
    Start(k, r);
    WholeRead(wire);
    assert Concat([]) + wire == wire;
    Onward(k, r, r, SocketRead(p, wire));
    var e1 := StepRelay(k, r, SocketRead(p, wire));
    assert e1.phones[p].chunks == [wire];
    Onward(k, r, e1, HeadRead(p, HEAD_LEN));
    var e2 := StepRelay(k, e1, HeadRead(p, HEAD_LEN));
    SameChunks(e1.phones[p], e2.phones[p]);
    assert NextId(0) == 1;
    Onward(k, r, e2, OpenFor(p));
    e := StepRelay(k, e2, OpenFor(p));
    SameChunks(e2.phones[p], e.phones[p]);
    EventKeepsSound(k, e2.link, OfProxy(Act(1, Insert)));
    ConnectedOpens(k, limitA, limitB);
  }

  lemma ConnectedOpens(k: Keys, limitA: nat, limitB: nat)
    requires limitA > 0
    ensures MayMove(Connected(limitA, limitB), OfProxy(Act(1, Insert)))
    ensures var s := View(MakeMove(k, Connected(limitA, limitB), OfProxy(Act(1, Insert))));
            && s.up && s.ab == [] && s.ba == [] && Get(s.a.halves, 1) == FRESH.(tx := false)
            && s.b == End(map[], limitB, 0, true)
  {
    hide NoiseLink.StepLink;
    assert NextId(0) == 1;
  }

  /** One read of the whole wire is a one-shot parse. */
  lemma WholeRead(wire: seq<byte>)
    ensures Payload(Piecewise([wire]).items) == Meant(wire)
  {
    ClientParseStable();
    var nothing: seq<seq<byte>>, one: seq<seq<byte>> := [], [wire];
    assert one[..0] == nothing;
    var before := ReadChunks(ClientParse, nothing);
    assert before == Scan(ClientParse, (), []) == Outcome([], (), [], None);
    assert ReadChunks(ClientParse, one) == ReadOne(ClientParse, before, wire);
    assert [] + wire == wire;
    var whole := Scan(ClientParse, (), wire);
    assert [] + whole.items == whole.items;
    assert ReadChunks(ClientParse, one).items == whole.items;
  }

  /** The preamble crosses by itself, and the stream is calm. */
  lemma HeadArrives(k: Keys, r: Relay, e: Relay, limitB: nat, p: nat) returns (f: Relay)
    requires LawfulKeys(k) && Reaches(k, r, e) && Sound(k, e.link) && p in e.phones && e.phones[p].stream == Some(1) && limitB > 0
    requires var ph, s := e.phones[p], View(e.link);
             && HEAD_LEN <= |Heard(ph)| && ph.delivered == HEAD_LEN && ph.held == Heard(ph)[..HEAD_LEN] && ph.sends == []
             && s.up && s.ab == [] && s.ba == [] && Get(s.a.halves, 1) == FRESH.(tx := false)
             && s.b == End(map[], limitB, 0, true)
    ensures Reaches(k, r, f) && Calm(k, f, p, HEAD_LEN)
    ensures f.phones[p].wire == e.phones[p].wire && f.phones[p].chunks == e.phones[p].chunks
  {
    hide Sound, Reaches, LawfulKeys, Heard, View, SysRuns, SysAfter;
    var moves := OpenCrosses(View(e.link), 1);
    var e1 := PacketsMove(k, r, e, moves);
    var e2 := Pays(k, r, e1, p, 1);
    var more := FrameArrives(View(e2.link), 1);
    f := PacketsMove(k, r, e2, more);
    SameChunks(e.phones[p], f.phones[p]);
    assert [] + e.phones[p].held == e.phones[p].held;
  }

  /**
   Any phone that names this bridge can have its whole payload delivered, whatever its
   length: some schedule of reads, frames, seals and grants ends with the bridge holding
   exactly the payload of the phone's wire on the phone's stream.
   */
  lemma WholePayloadArrives(k: Keys, r: Relay, limitA: nat, limitB: nat, p: nat) returns (f: Relay)
    requires LawfulKeys(k) && Fresh(r, limitA, limitB) && limitA > 0 && limitB > 0 && p in r.phones
    requires HEAD_LEN <= |Meant(r.phones[p].wire)| && Addressed(r.key, Meant(r.phones[p].wire)[..HEAD_LEN])
    ensures Reaches(k, r, f) && p in f.phones && f.phones[p].stream.Some?
    ensures Get(f.link.b.halves, f.phones[p].stream.value).got == Meant(r.phones[p].wire)
  {
    var e := HeadOpens(k, r, limitA, limitB, p);
    var wire := r.phones[p].wire;
    hide Reaches, Meant, Addressed, LawfulKeys, Sound, Heard, Fresh;
    var e1 := HeadArrives(k, r, e, limitB, p);
    SameChunks(e.phones[p], e1.phones[p]);
    f := CalmDelivers(k, r, e1, p, HEAD_LEN);
    SameChunks(e1.phones[p], f.phones[p]);
    HalfSeen(f.link, f.phones[p].stream.value);
    assert Heard(f.phones[p])[..|Heard(f.phones[p])|] == Heard(f.phones[p]);
  }

  // ---- And back ----

  lemma CanStage(k: Keys, e: Relay, p: nat, n: nat)
    requires p in e.phones && e.phones[p].stream.Some? && n <= MAX_SEND
    requires e.phones[p].accepted + n <= |Near(e.link, e.phones[p].stream).got|
    ensures CanRelay(e, StageData(p, n))
    ensures var ph := e.phones[p];
            var data := Near(e.link, ph.stream).got[ph.accepted..ph.accepted + n];
            StepRelay(k, e, StageData(p, n)) == e.(phones := e.phones[p := Accepting(ph, data)])
  {
  }

  lemma CanWrite(k: Keys, e: Relay, p: nat)
    requires p in e.phones && e.phones[p].sent <= ServerWire(e.phones[p].staged)
    ensures var ph := e.phones[p];
            var x := SocketWrite(p, |ServerWire(ph.staged)| - |ph.sent|);
            && CanRelay(e, x)
            && StepRelay(k, e, x) == e.(phones := e.phones[p := ph.(sent := ServerWire(ph.staged))])
  {
    hide ServerWire;
    var ph := e.phones[p];
    var all := ServerWire(ph.staged);
    assert ph.sent + all[|ph.sent|..|ph.sent| + (|all| - |ph.sent|)] == all;
  }

  lemma DownlinkOf(k: Keys, e: Relay, p: nat)
    requires RelayInv(k, e) && p in e.phones
    ensures DownlinkKept(e.phones[p], Near(e.link, e.phones[p].stream))
  {
    hide UplinkKept, DownlinkKept, Sound;
    assert PhoneKept(e.key, e.phones[p], Near(e.link, e.phones[p].stream));
  }

  /** All that was received from the mux can be staged for the phone. */
  lemma {:induction false} RepliesAreStaged(k: Keys, r: Relay, e: Relay, p: nat) returns (f: Relay)
    requires Reaches(k, r, e) && RelayInv(k, e) && p in e.phones && e.phones[p].stream.Some?
    ensures Reaches(k, r, f) && RelayInv(k, f) && f.link == e.link
    ensures p in f.phones && f.phones[p].stream == e.phones[p].stream
    ensures f.phones[p].accepted == |Near(f.link, f.phones[p].stream).got|
    decreases |Near(e.link, e.phones[p].stream).got| - e.phones[p].accepted
  {
    DownlinkOf(k, e, p);
    hide Reaches, RelayInv, CanRelay, StepRelay, Near, Sendable, ServerWire, Payload;
    var ph, got := e.phones[p], Near(e.link, e.phones[p].stream).got;
    if ph.accepted == |got| {
      f := e;
    } else {
      var n := Min(|got| - ph.accepted, MAX_SEND);
      CanStage(k, e, p, n);
      Onward(k, r, e, StageData(p, n));
      PhoneStepKeeps(k, e, StageData(p, n));
      f := RepliesAreStaged(k, r, StepRelay(k, e, StageData(p, n)), p);
    }
  }

  /** And with the socket taking all of it, the phone decodes exactly what was received. */
  lemma RepliesReachPhone(k: Keys, r: Relay, e: Relay, p: nat) returns (f: Relay)
    requires Reaches(k, r, e) && RelayInv(k, e) && p in e.phones && e.phones[p].stream.Some?
    ensures Stable(ServerParse)
    ensures Reaches(k, r, f) && f.link == e.link && p in f.phones
    ensures Payload(Scan(ServerParse, (), f.phones[p].sent).items) == Near(e.link, e.phones[p].stream).got
  {
    ServerParseStable();
    hide Reaches, RelayInv, CanRelay, StepRelay, Near, Scan, ServerParse, Payload;
    var g := RepliesAreStaged(k, r, e, p);
    DownlinkOf(k, g, p);
    CanWrite(k, g, p);
    var x := SocketWrite(p, |ServerWire(g.phones[p].staged)| - |g.phones[p].sent|);
    Onward(k, r, g, x);
    PhoneStepKeeps(k, g, x);
    f := StepRelay(k, g, x);
    DownlinkOf(k, f, p);
    hide ServerWire, Sendable, DownlinkKept;
    var near := Near(g.link, g.phones[p].stream);
    DownlinkIsExact(f.phones[p], near);
    assert near.got[..|near.got|] == near.got;
  }
}
