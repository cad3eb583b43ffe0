/**
 `MuxSession` of src/mux.rs: the state one end keeps for a link and all its streams.

 The class updates its map, budget, id counter and outbox in place; each method is
 tied to a function on `End`, the value of those fields, which the system of two
 sessions is built from.
 */
module MuxSessions {
  import opened Bytes
  import opened Wire
  import opened NoiseCodec
  import opened MuxPair

  /** A mux frame after its kind and body have been understood. */
  datatype Packet = Packet(id: nat, msg: Msg)

  /** The keepalive and its echo: an empty DATA frame on id 0. */
  const KEEPALIVE := Packet(0, Data([]))

  function ToPacket(f: Frame): Packet
  {
    Packet(f.id,
           if f.kind == KIND_OPEN then Open
           else if f.kind == KIND_DATA then Data(f.payload)
           else if f.kind == KIND_CLOSE then Close
           else if f.kind == KIND_WINDOW && |f.payload| == 4 then Window(FromBigEndian(f.payload))
           else Other)
  }

  /** The frame a session builds for a packet it sends; it never sends anything else. */
  function ToFrame(p: Packet): Frame
    requires !p.msg.Other?
  {
    match p.msg
    case Open => Frame(p.id, KIND_OPEN, [])
    case Data(bytes) => Frame(p.id, KIND_DATA, bytes)
    case Close => Frame(p.id, KIND_CLOSE, [])
    case Window(grant) => Frame(p.id, KIND_WINDOW, BigEndian(grant, 4))
  }

  lemma PacketRoundTrip(p: Packet)
    requires !p.msg.Other? && (p.msg.Window? ==> p.msg.grant < ID_SPACE)
    ensures ToPacket(ToFrame(p)) == p
  {
    Widths();
    if p.msg.Window? {
      BigEndianRoundTrip(p.msg.grant, 4);
    }
  }

  /** The kind byte of each frame, and what it must carry; a frame of any other shape means nothing. */
  lemma KindsOnTheWire(id: nat, bytes: seq<byte>, grant: nat, f: Frame)
    requires grant < 0x1_0000_0000
    ensures ToFrame(Packet(id, Open)) == Frame(id, 0, []) && ToFrame(Packet(id, Data(bytes))) == Frame(id, 1, bytes)
    ensures ToFrame(Packet(id, Close)) == Frame(id, 2, [])
    ensures ToFrame(Packet(id, Window(grant))).kind == 3 && |ToFrame(Packet(id, Window(grant))).payload| == 4
    ensures FromBigEndian(ToFrame(Packet(id, Window(grant))).payload) == grant
    ensures ToPacket(f).id == f.id
    ensures ToPacket(f).msg.Other? <==> f.kind > 3 || (f.kind == 3 && |f.payload| != 4)
    ensures f.kind == 3 && |f.payload| == 4 ==> ToPacket(f).msg == Window(FromBigEndian(f.payload))
    ensures ToPacket(f).msg.Open? <==> f.kind == 0
    ensures ToPacket(f).msg == Close <==> f.kind == 2
    ensures f.kind == 1 ==> ToPacket(f).msg == Data(f.payload)
  {
    Widths();
    BigEndianRoundTrip(grant, 4);
  }

  /** Two frames, byte for byte. */
  lemma FramesByteForByte()
    ensures Plain(ToFrame(Packet(1, Data([104, 105])))) == [0, 0, 0, 1, 1, 0, 2, 0, 104, 105]
    ensures Plain(ToFrame(Packet(1, Window(131072)))) == [0, 0, 0, 1, 3, 0, 4, 0, 0, 2, 0, 0]
  {
    hide BigEndian;
    Digits();
    assert Plain(Frame(1, 1, [104, 105])) == [0, 0, 0, 1] + [1] + [0, 2] + [0] + [104, 105];
    assert Plain(Frame(1, 3, [0, 2, 0, 0])) == [0, 0, 0, 1] + [3] + [0, 4] + [0] + [0, 2, 0, 0];
  }

  lemma Digits()
    ensures BigEndian(1, 4) == [0, 0, 0, 1] && BigEndian(131072, 4) == [0, 2, 0, 0]
    ensures BigEndian(2, 2) == [0, 2] && BigEndian(4, 2) == [0, 4]
  {
    assert BigEndian(1, 2) == [0, 1] by {
      assert BigEndian(0, 1) == [0];
    }
  }

  /**
   One session: the halves of every stream it has met, its free budget, how many streams
   it opened, and whether a handler for peer-opened streams is registered.
   */
  datatype End = End(halves: map<nat, Half>, free: nat, issued: nat, serving: bool)

  /** How this session treats an OPEN. */
  function Greets(e: End): Welcome
  {
    if e.free == 0 then Refused else if e.serving then Served else Unserved
  }

  function Get(m: map<nat, Half>, id: nat): Half
  {
    if id in m then m[id] else UNBORN
  }

  /** The keys of the session's stream map. */
  function Members(m: map<nat, Half>): set<nat>
  {
    set id | id in m && m[id].member
  }

  /** Ids are handed out from 1 by a 32-bit counter that wraps. */
  function NextId(issued: nat): nat
  {
    (1 + issued) % ID_SPACE
  }

  /** Replace one half; joining the map costs a permit, leaving it gives one back. */
  function Put(e: End, id: nat, h: Half): End
    requires h.member && !Get(e.halves, id).member ==> e.free > 0
  {
    var was := Get(e.halves, id).member;
    e.(halves := e.halves[id := h],
       free := if h.member == was then e.free else if was then e.free + 1 else e.free - 1)
  }

  /** What the read loop does with one packet, and what it answers. */
  function Hear(e: End, p: Packet): (End, seq<Packet>)
  {
    if p.id == 0 then (e, [KEEPALIVE])
    else
      var (h, reply) := Dispatch(Get(e.halves, p.id), p.msg, Greets(e));
      (Put(e, p.id, h), Tag(p.id, reply))
  }

  function Tag(id: nat, msgs: seq<Msg>): (r: seq<Packet>)
    ensures |r| == |msgs|
  {
    seq(|msgs|, i requires 0 <= i < |msgs| => Packet(id, msgs[i]))
  }

  /**
   The read loop answers a stream with CLOSE exactly when it refuses it for want of budget
   or drops it although the peer did not close it; it echoes keepalives and says nothing else.
   */
  lemma AnswersExactly(e: End, p: Packet)
    ensures p.id == 0 ==> Hear(e, p) == (e, [KEEPALIVE])
    ensures p.id != 0 ==> Hear(e, p).1 == [Packet(p.id, Close)] || Hear(e, p).1 == []
    ensures p.id != 0 ==>
              (Hear(e, p).1 != [] <==>
                 (p.msg.Open? && e.free == 0) ||
                 (!p.msg.Close? && Get(e.halves, p.id).member && !Get(Hear(e, p).0.halves, p.id).member))
  {
    var reply := Dispatch(Get(e.halves, p.id), p.msg, Greets(e)).1;
    assert |Tag(p.id, reply)| == |reply|;
    if reply != [] {
      assert Tag(p.id, reply) == [Packet(p.id, Close)];
    }
  }

  /** The peer's CLOSE and an overflow take a stream out of the map and shut its gate. */
  lemma HearCuts(e: End, p: Packet)
    requires p.id != 0 && Get(e.halves, p.id).member
    requires p.msg.Close? || (p.msg.Data? && Get(e.halves, p.id).listening && |Get(e.halves, p.id).inbox| >= 1024)
    ensures var h := Get(Hear(e, p).0.halves, p.id); !h.member && !h.gate
  {
  }

  /** An OPEN costs a permit and makes a stream with a full window, which has a reader exactly if there is a handler. */
  lemma OpenIsMet(e: End, id: nat)
    requires id != 0
    ensures var h := Get(Hear(e, Packet(id, Open)).0.halves, id);
            && (e.free > 0 ==> h.member && h.gate && h.credit == WINDOW && h.inbox == [] && h.listening == h.tx == e.serving)
            && (e.free == 0 ==> h == Get(e.halves, id).(met := true))
  {
  }

  /** A step of one stream's own tasks. */
  function Local(e: End, up: bool, id: nat, ev: Event): (End, seq<Packet>)
    requires IsLocal(ev) && CanLocal(Get(e.halves, id), up, ev)
    requires ev.Insert? ==> e.free > 0
  {
    var h := Get(e.halves, id);
    var next := Put(e, id, LocalStep(h, up, ev));
    (if ev.Insert? then next.(issued := e.issued + 1) else next, Tag(id, Emits(h, up, ev)))
  }

  // ---- Streams do not touch each other ----

  datatype EndEvent = Arrives(p: Packet) | Acts(id: nat, ev: Event)

  function Concerns(x: EndEvent): nat
  {
    if x.Arrives? then x.p.id else x.id
  }

  /** One half under one event of its own; an impossible step changes nothing. */
  function HalfStep(h: Half, x: EndEvent): Half
  {
    match x
    case Arrives(p) => Dispatch(h, p.msg, Refused).0
    case Acts(_, ev) => if IsLocal(ev) && CanLocal(h, true, ev) then LocalStep(h, true, ev) else h
  }

  function HalfRun(h: Half, xs: seq<EndEvent>): Half
    decreases |xs|
  {
    if xs == [] then h else HalfRun(HalfStep(h, xs[0]), xs[1..])
  }

  function EndStep(e: End, x: EndEvent): End
  {
    match x
    case Arrives(p) => Hear(e, p).0
    case Acts(id, ev) =>
      if IsLocal(ev) && CanLocal(Get(e.halves, id), true, ev) && (ev.Insert? ==> e.free > 0) then Local(e, true, id, ev).0 else e
  }

  function EndRun(e: End, xs: seq<EndEvent>): End
    decreases |xs|
  {
    if xs == [] then e else EndRun(EndStep(e, xs[0]), xs[1..])
  }

  function Only(xs: seq<EndEvent>, j: nat): seq<EndEvent>
  {
    if xs == [] then []
    else (if Concerns(xs[0]) == j then [xs[0]] else []) + Only(xs[1..], j)
  }

  /** This stream is not born in this run; any other may be. */
  predicate NotBorn(xs: seq<EndEvent>, j: nat)
  {
    forall i :: 0 <= i < |xs| && Concerns(xs[i]) == j ==>
                  match xs[i] case Arrives(p) => !p.msg.Open? case Acts(_, ev) => !ev.Insert?
  }

  /**
   Demultiplexing: whatever else arrives or happens on the link, births of other
   streams included, stream `j` ends up exactly as if only its own frames and its own
   tasks' steps had occurred.
   */
  lemma {:induction false} StreamsAreIndependent(e: End, xs: seq<EndEvent>, j: nat)
    requires NotBorn(xs, j) && j != 0
    ensures Get(EndRun(e, xs).halves, j) == HalfRun(Get(e.halves, j), Only(xs, j))
    decreases |xs|
  {
    if xs != [] {
      StreamsAreIndependent(EndStep(e, xs[0]), xs[1..], j);
      if Concerns(xs[0]) == j {
        assert Only(xs, j)[0] == xs[0] && Only(xs, j)[1..] == Only(xs[1..], j);
      } else {
        assert Get(EndStep(e, xs[0]).halves, j) == Get(e.halves, j);
        assert Only(xs, j) == Only(xs[1..], j);
      }
    }
  }

  /** Frames for a stream that has left the map change nothing, however many arrive. */
  lemma {:induction false} LateFramesAbsorbed(e: End, xs: seq<EndEvent>, j: nat)
    requires NotBorn(xs, j) && j != 0 && !Get(e.halves, j).member
    requires forall i :: 0 <= i < |xs| && Concerns(xs[i]) == j ==> xs[i].Arrives?
    ensures Get(EndRun(e, xs).halves, j) == Get(e.halves, j)
    decreases |xs|
  {
    if xs != [] {
      assert Get(EndStep(e, xs[0]).halves, j) == Get(e.halves, j);
      LateFramesAbsorbed(EndStep(e, xs[0]), xs[1..], j);
    }
  }

  /** An id is new and not the keepalive's exactly while fewer than 2^32 - 1 streams were opened. */
  lemma IdsAreFresh(n: nat)
    ensures (NextId(n) != 0 && forall m: nat :: m < n ==> NextId(m) != NextId(n)) <==> n < ID_SPACE - 1
  {
    if n >= ID_SPACE {
      assert NextId(n - ID_SPACE) == NextId(n);
    }
  }

  // ---- The session object ----

  lemma PutMembers(e: End, id: nat, h: Half)
    requires h.member && !Get(e.halves, id).member ==> e.free > 0
    ensures Members(Put(e, id, h).halves) == if h.member then Members(e.halves) + {id} else Members(e.halves) - {id}
    ensures Put(e, id, h).free + |Members(Put(e, id, h).halves)| == e.free + |Members(e.halves)|
  {
    var after := Members(Put(e, id, h).halves);
    assert id in Members(e.halves) <==> Get(e.halves, id).member;
    assert after == if h.member then Members(e.halves) + {id} else Members(e.halves) - {id};
  }

  /** The DATA frames `send` makes of a byte string: full ones, then the remainder. */
  function CutAll(data: seq<byte>): seq<seq<byte>>
  {
    if data == [] then []
    else
      var take := Min(|data|, MAX_PAYLOAD);
      [data[..take]] + CutAll(data[take..])
  }

  lemma {:induction false} CutAllConcat(data: seq<byte>)
    ensures Concat(CutAll(data)) == data
    ensures forall i :: 0 <= i < |CutAll(data)| ==> 0 < |CutAll(data)[i]| <= MAX_PAYLOAD
    ensures forall i :: 0 <= i < |CutAll(data)| - 1 ==> |CutAll(data)[i]| == MAX_PAYLOAD
  {
    if data != [] {
      var take := Min(|data|, MAX_PAYLOAD);
      CutAllConcat(data[take..]);
      assert data[..take] + data[take..] == data;
    }
  }

  function DataPackets(id: nat, chunks: seq<seq<byte>>): (r: seq<Packet>)
    ensures |r| == |chunks|
  {
    seq(|chunks|, i requires 0 <= i < |chunks| => Packet(id, Data(chunks[i])))
  }

  /** What can happen to a sender that waits: credit arrives, or its stream is closed. */
  datatype Wake = Refill(grant: nat) | Shut

  function Given(wakes: seq<Wake>): nat
  {
    if wakes == [] then 0 else (if wakes[0].Refill? then wakes[0].grant else 0) + Given(wakes[1..])
  }

  /** A close that reaches a stream in the map takes it out and closes its gate. */
  function Closed(h: Half): Half
  {
    if h.member then h.(member := false, gate := false) else h
  }

  function Woken(h: Half, wake: Wake): Half
  {
    if wake.Refill? then h.(credit := h.credit + wake.grant) else Closed(h)
  }

  /**
   From `was` to `h`, while `wakes` happened, exactly the frames `sent` were paid for, and
   nothing changed but credit, history and what a close among the wakes changes.
   */
  ghost predicate Paid(was: Half, h: Half, sent: seq<seq<byte>>, wakes: seq<Wake>)
  {
    && h == (if Shut in wakes then Closed(was) else was).(credit := h.credit, handed := was.handed + Concat(sent))
    && h.credit + |Concat(sent)| == was.credit + Given(wakes)
  }

  class MuxSession {
    /** The session's ceiling, as the permit pool was created. */
    const limit: nat
    /**
     Channel and semaphore of every stream met.  The map's `StreamState` shares them
     with the halves handed out, so they outlive it; `member` says whether the
     stream is still in the map.
     */
    var halves: map<nat, Half>
    var budget: nat
    var nextId: nat
    var outbox: seq<Packet>
    /** The writer task still takes frames off the outbox. */
    var up: bool
    /** A handler for peer-opened streams is registered, and the ids it was called with. */
    var serving: bool
    var announced: seq<nat>
    ghost var issued: nat

    ghost predicate Valid()
      reads this
    {
      && budget + |Members(halves)| == limit
      && nextId == NextId(issued)
    }

    ghost function View(): End
      reads this
    {
      End(halves, budget, issued, serving)
    }

    constructor (maxStreams: nat)
      ensures Valid() && limit == (if maxStreams == 0 then 1 else maxStreams) && budget == limit
      ensures halves == map[] && outbox == [] && up && issued == 0 && !serving && announced == []
    {
      limit := if maxStreams == 0 then 1 else maxStreams;
      budget := if maxStreams == 0 then 1 else maxStreams;
      halves, nextId, outbox, up, issued := map[], 1, [], true, 0;
      serving, announced := false, [];
    }

    /** `on_open`: register the handler, once and for all. */
    method Serve()
      requires Valid()
      modifies this`serving
      ensures Valid() && View() == old(View()).(serving := true)
    {
      serving := true;
    }

    /** Replace one half, moving its permit in or out of the pool with its membership. */
    method Store(id: nat, h: Half)
      requires h.member && !Get(halves, id).member ==> budget > 0
      requires Valid()
      modifies this`halves, this`budget
      ensures Valid() && View() == Put(old(View()), id, h) && halves == old(halves)[id := h]
    {
      ghost var before := View();
      PutMembers(before, id, h);
      var was := id in halves && halves[id].member;
      halves := halves[id := h];
      if was && !h.member {
        budget := budget + 1;
      } else if !was && h.member {
        budget := budget - 1;
      }
    }

    /** Open one stream, if the budget allows it and the link still takes the OPEN. */
    method TryOpenStream() returns (id: Option<nat>)
      requires Valid()
      modifies this`halves, this`budget, this`nextId, this`issued, this`outbox
      ensures Valid()
      ensures old(budget) == 0 ==> id == None && View() == old(View()) && outbox == old(outbox)
      ensures old(budget) > 0 ==>
                var fresh_id := NextId(old(issued));
                && issued == old(issued) + 1
                && (if up
                    then id == Some(fresh_id) && outbox == old(outbox) + [Packet(fresh_id, Open)]
                         && View() == Put(old(View()), fresh_id, FRESH).(issued := issued)
                    else id == None && outbox == old(outbox) && fresh_id !in Members(halves)
                         && Members(halves) == Members(old(halves)) - {fresh_id})
    {
      hide Members;
      if budget == 0 {
        return None;
      }
      var i := nextId;
      nextId := (nextId + 1) % ID_SPACE;
      issued := issued + 1;
      PutMembers(old(View()), i, FRESH);
      Store(i, FRESH);
      if !up {
        PutMembers(View(), i, FRESH.(member := false));
        Store(i, FRESH.(member := false));
        assert Members(old(halves)) + {i} - {i} == Members(old(halves)) - {i};
        return None;
      }
      outbox := outbox + [Packet(i, Open)];
      return Some(i);
    }

    /**
     Dispatching `p` did what the read loop's specification says, `ok` if any answer went
     out, and the handler was called for exactly an OPEN that was let in.
     */
    twostate predicate Heard(p: Packet, ok: bool)
      reads this
    {
      var (after, reply) := Hear(old(View()), p);
      && View() == after
      && outbox == old(outbox) + (if up then reply else [])
      && (ok <==> reply == [] || up)
      && announced == old(announced) + if p.id != 0 && p.msg.Open? && Greets(old(View())).Served? then [p.id] else []
    }

    /** An OPEN arrived: with a permit left its halves come into being, otherwise it is refused. */
    method OnOpen(id: nat) returns (ok: bool)
      requires Valid() && id != 0
      modifies this`halves, this`budget, this`outbox, this`announced
      ensures Valid() && Heard(Packet(id, Open), ok)
    {
      ok := true;
      if budget == 0 {
        Store(id, Get(halves, id).(met := true));
        ok := Answer(Packet(id, Close));
      } else if serving {
        Store(id, FRESH);
        announced := announced + [id];
      } else {
        Store(id, FRESH.(tx := false, listening := false));
      }
    }

    /** Payload for one stream; overflowing its inbox costs that stream and no other. */
    method OnData(id: nat, body: seq<byte>) returns (ok: bool)
      requires Valid() && id != 0
      modifies this`halves, this`budget, this`outbox
      ensures Valid() && Heard(Packet(id, Data(body)), ok)
    {
      var h := Get(halves, id);
      if !h.member || !h.listening {
        Store(id, h);
        ok := true;
      } else if |h.inbox| < INBOX_FRAMES {
        Store(id, h.(inbox := h.inbox + [body]));
        ok := true;
      } else {
        Store(id, h.(member := false, gate := false));
        ok := Answer(Packet(id, Close));
      }
    }

    /** A grant, a close, or a frame this end does not understand. */
    method OnControl(id: nat, msg: Msg) returns (ok: bool)
      requires Valid() && id != 0 && (msg.Window? || msg.Close? || msg.Other?)
      modifies this`halves, this`budget, this`outbox
      ensures Valid() && Heard(Packet(id, msg), ok)
    {
      var h := Get(halves, id);
      if msg.Window? && h.member {
        h := h.(credit := h.credit + msg.grant);
      } else if msg.Close? && h.member {
        h := h.(member := false, gate := false);
      }
      Store(id, h);
      ok := true;
    }

    /** One turn of the read loop: parse the header, dispatch the body, answer. */
    method ReadFrame(plain: seq<byte>) returns (ok: bool)
      requires Valid()
      modifies this`halves, this`budget, this`outbox, this`announced
      ensures Valid()
      ensures Head(plain).None? ==> !ok && View() == old(View()) && outbox == old(outbox) && announced == old(announced)
      ensures Head(plain).Some? ==> Heard(ToPacket(Head(plain).value), ok)
      // A stream in the map that is closed by the peer, or whose inbox overflows, leaves it with its gate shut.
      ensures forall id :: Head(plain).Some? && id == Head(plain).value.id != 0 && Get(old(halves), id).member &&
                           (plain[4] == 2 || (plain[4] == 1 && Get(old(halves), id).listening && |Get(old(halves), id).inbox| >= 1024)) ==>
                             !Get(halves, id).member && !Get(halves, id).gate
      // The handler hears of an OPEN that is let in, if there is one, and of nothing else.
      ensures announced == old(announced) +
                if Head(plain).Some? && Head(plain).value.id != 0 && plain[4] == 0 && old(budget) > 0 && serving
                then [Head(plain).value.id] else []
    {
      if |plain| < FRAME_HEAD {
        return false;
      }
      ghost var before, p := View(), ToPacket(Head(plain).value);
      ghost var h := Get(halves, p.id);
      if p.id != 0 && h.member && (p.msg.Close? || (p.msg.Data? && h.listening && |h.inbox| >= 1024)) {
        HearCuts(before, p);
      }
      hide Put, Members, Dispatch, FromBigEndian, Hear;
      var id, kind, body := FromBigEndian(plain[..4]), plain[4], plain[FRAME_HEAD..];
      if id == 0 {
        ok := Answer(KEEPALIVE);
      } else if kind == KIND_OPEN {
        ok := OnOpen(id);
      } else if kind == KIND_DATA {
        ok := OnData(id, body);
      } else if kind == KIND_WINDOW && |body| == 4 {
        ok := OnControl(id, Window(FromBigEndian(body)));
      } else if kind == KIND_CLOSE {
        ok := OnControl(id, Close);
      } else {
        ok := OnControl(id, Other);
      }
    }

    method Answer(p: Packet) returns (ok: bool)
      modifies this`outbox
      ensures ok == up && outbox == old(outbox) + if up then [p] else []
    {
      if up {
        outbox := outbox + [p];
      }
      return up;
    }

    /** Close every stream's credit gate, empty the map and stop both tasks. */
    method Shutdown()
      requires Valid()
      modifies this`halves, this`budget, this`up
      ensures Valid() && !up
      ensures Members(halves) == {} && budget == limit
      ensures forall id :: Get(halves, id) ==
                           var h := Get(old(halves), id);
                           if h.member then h.(member := false, gate := false) else h
    {
      var todo := set id | id in halves && halves[id].member;
      assert todo == Members(halves);
      hide Members;
      while todo != {}
        invariant Valid() && todo == Members(halves)
        invariant forall id :: Get(halves, id) ==
                               var h := Get(old(halves), id);
                               if h.member && id !in todo then h.(member := false, gate := false) else h
        decreases |todo|
      {
        var id :| id in todo;
        PutMembers(View(), id, halves[id].(member := false, gate := false));
        Store(id, halves[id].(member := false, gate := false));
        todo := todo - {id};
      }
      up := false;
    }

    /**
     `StreamTx::send`: cut, wait for credit, enqueue.  `wakes` is what happens while it
     waits; running out of it leaves the sender parked with `left`.  With the link gone,
     the first frame paid for is `lost` and the send fails.
     */
    method Send(id: nat, data: seq<byte>, wakes: seq<Wake>)
      returns (ok: bool, sent: seq<seq<byte>>, lost: seq<seq<byte>>, left: seq<byte>, seen: nat)
      requires Valid() && Get(halves, id).tx
      modifies this`halves, this`budget, this`outbox
      ensures Valid() && seen <= |wakes|
      // What was enqueued, what was lost and what is left are the cut of `data`, in order.
      ensures sent + lost + CutAll(left) == CutAll(data) && Concat(sent + lost) + left == data
      ensures outbox == old(outbox) + DataPackets(id, sent)
      ensures if up then lost == [] else sent == [] && |lost| <= 1
      // Every byte sent or lost was paid for, and nothing else was spent.
      ensures Paid(Get(old(halves), id), Get(halves, id), sent + lost, wakes[..seen])
      ensures forall j :: j != id ==> Get(halves, j) == Get(old(halves), j)
      // It fails on a closed gate or a lost frame, and otherwise stops early only for want of credit.
      ensures ok <==> (Get(halves, id).gate || left == []) && lost == []
      ensures ok && left != [] ==> seen == |wakes| && Get(halves, id).credit < Min(|left|, MAX_PAYLOAD)
      // Behind a shut gate nothing goes out.
      ensures !Get(old(halves), id).gate && data != [] ==> !ok && sent == [] && left == data
    {
      hide Members, Concat, CutAll, DataPackets, Given, Paid, Put, Woken;
      ghost var was := Get(halves, id);
      NothingSent(was, data, id);
      ok, sent, lost, left, seen := true, [], [], data, 0;
      while left != []
        invariant Valid() && ok && seen <= |wakes|
        invariant lost == [] && sent + lost == sent && (sent == [] || up)
        invariant sent + CutAll(left) == CutAll(data) && Concat(sent) + left == data
        invariant outbox == old(outbox) + DataPackets(id, sent)
        invariant Paid(was, Get(halves, id), sent, wakes[..seen])
        invariant !was.gate ==> Get(halves, id) == was && sent == [] && left == data
        invariant forall j :: j != id ==> Get(halves, j) == Get(old(halves), j)
        decreases |left|, |wakes| - seen
      {
        var h := Get(halves, id);
        var take := Min(|left|, MAX_PAYLOAD);
        if !h.gate {
          ok := false;
          return;
        }
        if h.credit < take {
          if seen == |wakes| {
            return;
          }
          PaidWakes(was, h, sent, wakes, seen);
          Store(id, Woken(h, wakes[seen]));
          seen := seen + 1;
        } else {
          var chunk := left[..take];
          SentOne(sent, chunk, left, id);
          PaidOne(was, h, sent, wakes[..seen], chunk);
          Store(id, h.(credit := h.credit - take, handed := h.handed + chunk));
          left := left[take..];
          if !up {
            assert sent == [] && [] + [chunk] == [chunk];
            ok, lost := false, [chunk];
            return;
          }
          outbox := outbox + [Packet(id, Data(chunk))];
          sent := sent + [chunk];
        }
      }
    }
  }

  lemma SentOne(sent: seq<seq<byte>>, chunk: seq<byte>, left: seq<byte>, id: nat)
    requires left != [] && chunk == left[..Min(|left|, MAX_PAYLOAD)]
    ensures Concat(sent + [chunk]) == Concat(sent) + chunk
    ensures Concat(sent + [chunk]) + left[|chunk|..] == Concat(sent) + left
    ensures sent + CutAll(left) == (sent + [chunk]) + CutAll(left[|chunk|..])
    ensures DataPackets(id, sent + [chunk]) == DataPackets(id, sent) + [Packet(id, Data(chunk))]
  {
    hide Concat, CutAll;
    ConcatAppend(sent, [chunk]);
    ConcatOne(chunk);
    var rest := left[|chunk|..];
    CutOne(left);
    Associate(sent, [chunk], CutAll(rest));
    Associate(Concat(sent), chunk, rest);
    assert chunk + rest == left;
  }

  lemma CutOne(left: seq<byte>)
    requires left != []
    ensures var take := Min(|left|, MAX_PAYLOAD); CutAll(left) == [left[..take]] + CutAll(left[take..])
  {
  }

  lemma {:induction false} GivenGrows(wakes: seq<Wake>, wake: Wake)
    ensures Given(wakes + [wake]) == Given(wakes) + if wake.Refill? then wake.grant else 0
  {
    if wakes == [] {
      assert [wake][1..] == [];
    } else {
      assert (wakes + [wake])[1..] == wakes[1..] + [wake];
      GivenGrows(wakes[1..], wake);
    }
  }

  /** The next wake, seen by a sender that waits. */
  lemma PaidWakes(was: Half, h: Half, sent: seq<seq<byte>>, wakes: seq<Wake>, seen: nat)
    requires seen < |wakes| && Paid(was, h, sent, wakes[..seen])
    ensures Paid(was, Woken(h, wakes[seen]), sent, wakes[..seen + 1])
    ensures Woken(h, wakes[seen]).member ==> h.member
  {
    hide Concat;
    assert wakes[..seen + 1] == wakes[..seen] + [wakes[seen]];
    GivenGrows(wakes[..seen], wakes[seen]);
    assert Shut in wakes[..seen + 1] <==> Shut in wakes[..seen] || wakes[seen] == Shut;
  }

  lemma PaidOne(was: Half, h: Half, sent: seq<seq<byte>>, wakes: seq<Wake>, chunk: seq<byte>)
    requires Paid(was, h, sent, wakes) && |chunk| <= h.credit
    ensures Paid(was, h.(credit := h.credit - |chunk|, handed := h.handed + chunk), sent + [chunk], wakes)
  {
    hide Concat;
    ConcatAppend(sent, [chunk]);
    ConcatOne(chunk);
    Associate(was.handed, Concat(sent), chunk);
  }

  lemma NothingSent(was: Half, data: seq<byte>, id: nat)
    ensures Concat([]) == [] && DataPackets(id, []) == [] && Paid(was, was, [], [])
    ensures data == [] ==> CutAll(data) == []
  {
  }
}
