/**
 The whole relay: phones on WebSockets, one stream each on one bridge link, down to the
 sealed bytes of that link.

 A phone's wire is cut into socket reads and decoded.  Its first 37 bytes name the bridge;
 only then is a stream opened, and these bytes are sent on it before anything else.  After
 that the relay reads, cuts what it read into frames, pays for each with credit and sends
 it.  On the way back the bytes received from the mux are staged as WebSocket frames
 between pongs and written out in arbitrary pieces.
 */
module EndToEnd {
  import opened Bytes
  import opened Wire
  import opened Incremental
  import opened WsCodec
  import opened WsReading
  import opened MuxPair
  import opened MuxSessions
  import opened MuxSystem
  import opened SealedSystem
  import NoiseLink

  datatype Phone = Phone(
    wire: seq<byte>,            // all bytes this phone ever puts on its socket
    chunks: seq<seq<byte>>,     // socket reads so far
    delivered: nat,             // bytes `WsStream` has handed to the relay, preamble included
    stream: Option<nat>,        // its stream on the link, once opened
    held: seq<byte>,            // bytes a running `send` has not yet paid for
    sends: seq<seq<byte>>,      // the DATA frames paid for so far
    accepted: nat,              // bytes received from the mux that `poll_write` has accepted
    staged: seq<WsFrame>,       // frames staged for the phone
    sent: seq<byte>)            // bytes the phone's socket has accepted

  /** `key` is the routing key of the bridge behind this link. */
  datatype Relay = Relay(key: seq<byte>, phones: map<nat, Phone>, link: Wired)

  /** Bytes decoded from the reads so far. */
  ghost function Heard(ph: Phone): seq<byte>
  {
    Payload(Piecewise(ph.chunks).items)
  }

  /** Bytes the phone means to send: its whole WebSocket payload stream. */
  ghost function Meant(wire: seq<byte>): seq<byte>
  {
    Payload(OneShot(wire).items)
  }

  /** A preamble of this protocol version that names this bridge. */
  predicate Addressed(key: seq<byte>, head: seq<byte>)
  {
    head == MAGIC_CLIENT + [VERSION] + key
  }

  datatype RelayStep =
    | SocketRead(p: nat, chunk: seq<byte>)    // the phone's socket has bytes
    | HeadRead(p: nat, n: nat)                // part of `read_exact` on the preamble
    | OpenFor(p: nat)                         // the preamble names this bridge: take a stream
    | SendFrame(p: nat)                       // `send` pays for its next frame
    | UplinkRead(p: nat, n: nat)              // the uplink reads again
    | StageData(p: nat, n: nat)
    | StageControl(p: nat, f: WsFrame)
    | SocketWrite(p: nat, n: nat)
    | Mux(e: WiredEvent)                      // any other step of a session or of the link

  /** The proxy's half of a stream; of no stream, none. */
  function Near(w: Wired, stream: Option<nat>): Half
  {
    if stream.Some? then Get(w.a.halves, stream.value) else UNBORN
  }

  /** The frame `send` cuts next. */
  function Cut(held: seq<byte>): seq<byte>
  {
    held[..Min(|held|, MAX_PAYLOAD)]
  }

  /** `poll_write` accepts the next bytes as one binary frame. */
  function Accepting(ph: Phone, data: seq<byte>): Phone
  {
    ph.(accepted := ph.accepted + |data|, staged := ph.staged + [WsFrame(OP_BINARY, data)])
  }

  /** Opening a stream and paying for a frame are steps of a phone's own task. */
  predicate Attributed(e: WiredEvent)
  {
    e.OfProxy? && e.x.Act? && (e.x.ev.Insert? || e.x.ev.Reserve?)
  }

  /** The step a relay step takes on the link, if any. */
  function OnLink(r: Relay, x: RelayStep): Option<WiredEvent>
  {
    match x
    case OpenFor(_) => Some(OfProxy(Act(NextId(r.link.a.issued), Insert)))
    case SendFrame(p) =>
      if p in r.phones && r.phones[p].stream.Some?
      then Some(OfProxy(Act(r.phones[p].stream.value, Reserve(Cut(r.phones[p].held))))) else None
    case Mux(e) => Some(e)
    case _ => None
  }

  ghost predicate CanPhone(ph: Phone, key: seq<byte>, near: Half, x: RelayStep)
  {
    match x
    case SocketRead(_, chunk) => Concat(ph.chunks) + chunk <= ph.wire
    case HeadRead(_, n) => ph.stream.None? && ph.delivered + n <= HEAD_LEN && ph.delivered + n <= |Heard(ph)|
    case OpenFor(_) =>
      ph.stream.None? && ph.delivered == HEAD_LEN <= |Heard(ph)| && Addressed(key, Heard(ph)[..HEAD_LEN])
    case SendFrame(_) => ph.stream.Some?
    case UplinkRead(_, n) =>
      && ph.stream.Some? && ph.sends != [] && ph.held == [] && near.reserved == []
      && 0 < n && ph.delivered + n <= |Heard(ph)|
    case StageData(_, n) => ph.stream.Some? && n <= MAX_SEND && ph.accepted + n <= |near.got|
    case StageControl(_, f) => (f.opcode == OP_PONG || f.opcode == OP_CLOSE) && |f.payload| <= MAX_CONTROL
    case SocketWrite(_, n) => |ph.sent| + n <= |ServerWire(ph.staged)|
    case Mux(_) => true
  }

  ghost function StepPhone(ph: Phone, key: seq<byte>, near: Half, id: nat, x: RelayStep): Phone
    requires CanPhone(ph, key, near, x)
  {
    match x
    case SocketRead(_, chunk) => ph.(chunks := ph.chunks + [chunk])
    case HeadRead(_, n) => ph.(delivered := ph.delivered + n)
    case OpenFor(_) => ph.(stream := Some(id), held := Heard(ph)[..HEAD_LEN])
    case SendFrame(_) => ph.(held := ph.held[|Cut(ph.held)|..], sends := ph.sends + [Cut(ph.held)])
    case UplinkRead(_, n) => ph.(delivered := ph.delivered + n, held := Heard(ph)[ph.delivered..ph.delivered + n])
    case StageData(_, n) => Accepting(ph, near.got[ph.accepted..ph.accepted + n])
    case StageControl(_, f) => ph.(staged := ph.staged + [f])
    case SocketWrite(_, n) => ph.(sent := ph.sent + ServerWire(ph.staged)[|ph.sent|..|ph.sent| + n])
    case Mux(_) => ph
  }

  ghost predicate CanRelay(r: Relay, x: RelayStep)
  {
    && (!x.Mux? ==> x.p in r.phones && CanPhone(r.phones[x.p], r.key, Near(r.link, r.phones[x.p].stream), x))
    && (x.Mux? ==> !Attributed(x.e))
    && (OnLink(r, x).Some? ==> MayMove(r.link, OnLink(r, x).value))
  }

  ghost function StepRelay(k: Keys, r: Relay, x: RelayStep): Relay
    requires CanRelay(r, x)
  {
    var link := if OnLink(r, x).Some? then MakeMove(k, r.link, OnLink(r, x).value) else r.link;
    if x.Mux? then r.(link := link)
    else
      var ph := r.phones[x.p];
      Relay(r.key, r.phones[x.p := StepPhone(ph, r.key, Near(r.link, ph.stream), NextId(r.link.a.issued), x)], link)
  }

  ghost predicate RelayRuns(k: Keys, r: Relay, run: seq<RelayStep>)
    decreases |run|
  {
    run == [] || (CanRelay(r, run[0]) && RelayRuns(k, StepRelay(k, r, run[0]), run[1..]))
  }

  ghost function RelayAfter(k: Keys, r: Relay, run: seq<RelayStep>): Relay
    requires RelayRuns(k, r, run)
    decreases |run|
  {
    if run == [] then r else RelayAfter(k, StepRelay(k, r, run[0]), run[1..])
  }

  // ---- What every step keeps ----

  /** Frames as `send` cuts them. */
  predicate Cuts(sends: seq<seq<byte>>)
  {
    forall i :: 0 <= i < |sends| ==> 0 < |sends[i]| <= MAX_PAYLOAD
  }

  /** Nothing goes out before the preamble, and the preamble goes out first, by itself. */
  ghost predicate HeadFirst(key: seq<byte>, ph: Phone)
  {
    && ph.delivered <= |Heard(ph)|
    && if ph.stream.None? then ph.delivered <= HEAD_LEN && ph.sends == [] && ph.held == []
       else
         && HEAD_LEN <= ph.delivered && Addressed(key, Heard(ph)[..HEAD_LEN])
         && if ph.sends == [] then ph.delivered == HEAD_LEN else ph.sends[0] == Heard(ph)[..HEAD_LEN]
  }

  /** What was paid for and what is held is what was delivered, in frames. */
  ghost predicate UplinkKept(key: seq<byte>, ph: Phone, near: Half)
  {
    && Concat(ph.chunks) <= ph.wire
    && HeadFirst(key, ph)
    && Cuts(ph.sends) && Concat(ph.sends) == near.handed
    && (ph.stream.Some? ==> near.handed + ph.held == Heard(ph)[..ph.delivered])
  }

  /** Downlink of one phone: only whole frames, carrying in order what was received from the mux. */
  ghost predicate DownlinkKept(ph: Phone, near: Half)
  {
    && Sendable(ph.staged) && ph.sent <= ServerWire(ph.staged)
    && ph.accepted <= |near.got| && Payload(ph.staged) == near.got[..ph.accepted]
  }

  ghost predicate PhoneKept(key: seq<byte>, ph: Phone, near: Half)
  {
    UplinkKept(key, ph, near) && DownlinkKept(ph, near)
  }

  /** Streams on the link were issued, and no two phones share one. */
  ghost predicate OwnStreams(r: Relay)
  {
    && (forall p :: p in r.phones && r.phones[p].stream.Some? ==> 0 < r.phones[p].stream.value <= r.link.a.issued)
    && (forall p, q ::
          (p in r.phones && q in r.phones && r.phones[p].stream.Some? && r.phones[p].stream == r.phones[q].stream) ==> p == q)
  }

  ghost predicate RelayInv(k: Keys, r: Relay)
  {
    && Sound(k, r.link) && OwnStreams(r)
    && forall p :: p in r.phones ==> PhoneKept(r.key, r.phones[p], Near(r.link, r.phones[p].stream))
  }

  // ---- The link under a phone ----

  /** The bytes a move of the packet system pays for. */
  function Pays(m: SysEvent, j: nat): seq<byte>
  {
    if m.AtProxy? && m.x.Task? && m.x.ev.Reserve? && m.x.id == j then m.x.ev.chunk else []
  }

  /** Only `send` adds to what a half has handed over, and what a reader got only grows. */
  lemma HistoriesGrow(s: Pair, pe: PairEvent)
    requires Inv(s) && Can(s, pe)
    ensures MuxPair.Step(s, pe).a.handed == s.a.handed + (if pe.AtA? && pe.e.Reserve? then pe.e.chunk else [])
    ensures s.a.got <= MuxPair.Step(s, pe).a.got
  {
    hide CreditKept, BytesKept, Held;
    if pe.AtA? {
      NearHistoriesGrow(s, pe.e);
    }
  }

  lemma NearHistoriesGrow(s: Pair, e: Event)
    requires Ordered(s) && CanA(s, e)
    ensures StepA(s, e).a.handed == s.a.handed + (if e.Reserve? then e.chunk else [])
    ensures s.a.got <= StepA(s, e).a.got
  {
    match e
    case Deliver(_) => assert !s.ba[0].Open?;
    case Insert =>
    case _ =>
  }

  /** One move of the system, seen by stream `j` at the proxy. */
  lemma MoveGrows(s: Sys, m: SysEvent, j: nat)
    requires May(s, m) && AllInv(s) && j != 0
    ensures var near, next := Get(s.a.halves, j), Get(Do(s, m).a.halves, j);
            && next.handed == near.handed + Pays(m, j)
            && near.got <= next.got
  {
    hide Inv, Filter, CanA, StepA, MayA, MoveA;
    var p := Project(s, j);
    assert Inv(p);
    SwapProjects(s, j);
    SwapProjects(Do(s, m), j);
    match m
    case AtProxy(x) =>
      MoveRefines(s, x, j);
      var n := Notices(s, x, j);
      if n.Some? {
        HistoriesGrow(p, AtA(n.value));
      }
    case AtBridge(x) =>
      MoveRefines(s.Swap(), x, j);
      NoOpens(s, x, j);
      var n := Notices(s.Swap(), x, j);
      if n.Some? {
        HistoriesGrow(p, AtB(n.value));
      }
  }

  /** What a step on the link pays for on one stream. */
  function Spends(e: WiredEvent, j: nat): seq<byte>
  {
    if e.OfProxy? && e.x.Act? && e.x.ev.Reserve? && e.x.id == j then e.x.ev.chunk else []
  }

  /** One step on the link, seen by one stream at the proxy. */
  lemma LinkGrows(k: Keys, w: Wired, e: WiredEvent, j: nat)
    requires MayMove(w, e) && Sound(k, w) && LawfulKeys(k) && j != 0
    ensures var near, next := Get(w.a.halves, j), Get(MakeMove(k, w, e).a.halves, j);
            next.handed == near.handed + Spends(e, j) && near.got <= next.got
  {
    hide AllInv, Fitting, IdsIssued, LawfulKeys, May, Do, InStep;
    EventShadows(k, w, e);
    var m := ShadowOf(k, w, e);
    assert View(w).a == w.a && View(MakeMove(k, w, e)).a == MakeMove(k, w, e).a;
    SpendsPays(k, w, e, j);
    hide MayMove, MakeMove, ShadowOf, View;
    if m.Some? {
      MoveGrows(View(w), m.value, j);
    }
  }

  lemma SpendsPays(k: Keys, w: Wired, e: WiredEvent, j: nat)
    requires MayMove(w, e)
    ensures var m := ShadowOf(k, w, e); Spends(e, j) == if m.Some? then Pays(m.value, j) else []
  {
    hide NoiseLink.StepLink;
  }

  lemma IssuedGrows(k: Keys, w: Wired, e: WiredEvent)
    requires MayMove(w, e)
    ensures w.a.issued <= MakeMove(k, w, e).a.issued
    ensures e.OfProxy? && e.x.Act? && e.x.ev.Insert? ==>
              && e.x.id == w.a.issued + 1 == MakeMove(k, w, e).a.issued
              && Get(MakeMove(k, w, e).a.halves, e.x.id) == FRESH.(tx := false)
  {
    hide NoiseLink.StepLink, Dispatch;
  }

  // ---- Steps of one phone ----

  /** More reads only add to what has been heard. */
  lemma HeardGrows(ph: Phone, chunk: seq<byte>)
    ensures Heard(ph) <= Heard(ph.(chunks := ph.chunks + [chunk]))
    ensures Concat(ph.chunks + [chunk]) == Concat(ph.chunks) + chunk
  {
    hide ClientParse, Scan;
    ClientParseStable();
    var longer := ph.chunks + [chunk];
    assert longer[..|longer| - 1] == ph.chunks;
    PayloadPrefix(ReadChunks(ClientParse, ph.chunks).items, ReadChunks(ClientParse, longer).items);
    ConcatAppend(ph.chunks, [chunk]);
    ConcatOne(chunk);
  }

  lemma SameChunks(ph: Phone, qh: Phone)
    requires ph.chunks == qh.chunks
    ensures Heard(ph) == Heard(qh)
  {
  }

  lemma ReadKeeps(key: seq<byte>, ph: Phone, near: Half, chunk: seq<byte>)
    requires PhoneKept(key, ph, near) && Concat(ph.chunks) + chunk <= ph.wire
    ensures PhoneKept(key, ph.(chunks := ph.chunks + [chunk]), near)
  {
    hide Heard, ServerWire, Payload, Concat, Sendable, Addressed;
    var qh := ph.(chunks := ph.chunks + [chunk]);
    HeardGrows(ph, chunk);
    assert Heard(qh)[..qh.delivered] == Heard(ph)[..ph.delivered];
    assert HEAD_LEN <= |Heard(ph)| ==> Heard(qh)[..HEAD_LEN] == Heard(ph)[..HEAD_LEN];
  }

  lemma DeliveryKeeps(key: seq<byte>, ph: Phone, near: Half, x: RelayStep)
    requires PhoneKept(key, ph, near) && CanPhone(ph, key, near, x) && (x.HeadRead? || x.UplinkRead?)
    ensures PhoneKept(key, StepPhone(ph, key, near, 0, x), near)
  {
    hide Heard, ServerWire, Payload, Concat, Sendable, Addressed;
    var qh := StepPhone(ph, key, near, 0, x);
    SameChunks(ph, qh);
    if x.UplinkRead? {
      assert near.handed + [] == near.handed;
      assert Heard(ph)[..ph.delivered] + Heard(ph)[ph.delivered..qh.delivered] == Heard(ph)[..qh.delivered];
    }
  }

  lemma StagedOne(ph: Phone, f: WsFrame)
    requires Sendable(ph.staged) && ph.sent <= ServerWire(ph.staged)
    requires f.opcode < 16 && |f.payload| <= MAX_SEND
    ensures Sendable(ph.staged + [f]) && ph.sent <= ServerWire(ph.staged + [f])
    ensures Payload(ph.staged + [f]) == Payload(ph.staged) + if IsData(f.opcode) then f.payload else []
  {
    hide ServerWire, Payload;
    Widths();
    ServerWireAppend(ph.staged, f);
    PayloadAppend(ph.staged, [f]);
    PayloadOne(f);
  }

  lemma StagingKeeps(key: seq<byte>, ph: Phone, near: Half, x: RelayStep)
    requires PhoneKept(key, ph, near) && CanPhone(ph, key, near, x) && (x.StageData? || x.StageControl? || x.SocketWrite?)
    ensures PhoneKept(key, StepPhone(ph, key, near, 0, x), near)
  {
    hide Heard, ServerWire, Payload, Concat, Sendable, Addressed;
    SameChunks(ph, StepPhone(ph, key, near, 0, x));
    match x
    case StageData(_, n) =>
      var data := near.got[ph.accepted..ph.accepted + n];
      StagedOne(ph, WsFrame(OP_BINARY, data));
      assert near.got[..ph.accepted] + data == near.got[..ph.accepted + n];
    case StageControl(_, f) =>
      StagedOne(ph, f);
      assert Payload(ph.staged) + [] == Payload(ph.staged);
    case SocketWrite(_, _) =>
  }

  /** A step on the link that pays for nothing of this stream leaves its phone in order. */
  lemma GrowingKeeps(key: seq<byte>, ph: Phone, near: Half, next: Half)
    requires PhoneKept(key, ph, near) && next.handed == near.handed && near.got <= next.got
    ensures PhoneKept(key, ph, next)
  {
    hide Heard, ServerWire, Payload, Concat, Sendable, Addressed;
    assert next.got[..ph.accepted] == near.got[..ph.accepted];
  }

  /** Paying for the next frame; the first one is the whole preamble. */
  lemma PayingKeeps(key: seq<byte>, ph: Phone, near: Half, next: Half)
    requires PhoneKept(key, ph, near) && ph.stream.Some? && ph.held != []
    requires next.handed == near.handed + Cut(ph.held) && near.got <= next.got
    ensures PhoneKept(key, ph.(held := ph.held[|Cut(ph.held)|..], sends := ph.sends + [Cut(ph.held)]), next)
  {
    hide Heard, ServerWire, Payload, Sendable, Addressed;
    var chunk, rest := Cut(ph.held), ph.held[|Cut(ph.held)|..];
    var qh := ph.(held := rest, sends := ph.sends + [chunk]);
    SameChunks(ph, qh);
    ConcatAppend(ph.sends, [chunk]);
    ConcatOne(chunk);
    assert chunk + rest == ph.held;
    Associate(near.handed, chunk, rest);
    assert next.got[..ph.accepted] == near.got[..ph.accepted];
    if ph.sends == [] {
      assert [] + ph.held == ph.held && chunk == ph.held;
    }
  }

  lemma OpeningKeeps(key: seq<byte>, ph: Phone, id: nat)
    requires PhoneKept(key, ph, UNBORN) && CanPhone(ph, key, UNBORN, OpenFor(0))
    ensures PhoneKept(key, ph.(stream := Some(id), held := Heard(ph)[..HEAD_LEN]), FRESH.(tx := false))
  {
    hide Heard, ServerWire, Payload, Sendable, Addressed;
    SameChunks(ph, ph.(stream := Some(id), held := Heard(ph)[..HEAD_LEN]));
    assert [] + Heard(ph)[..HEAD_LEN] == Heard(ph)[..HEAD_LEN];
  }

  // ---- Steps of the relay ----

  /** A step of one phone that leaves the link alone. */
  lemma PhoneStepKeeps(k: Keys, r: Relay, x: RelayStep)
    requires RelayInv(k, r) && CanRelay(r, x) && !x.OpenFor? && !x.SendFrame? && !x.Mux?
    ensures RelayInv(k, StepRelay(k, r, x))
  {
    hide Sound, PhoneKept, CanPhone, StepPhone;
    var ph := r.phones[x.p];
    var near := Near(r.link, ph.stream);
    OffLinkKeeps(r.key, ph, near, NextId(r.link.a.issued), x);
  }

  lemma OffLinkKeeps(key: seq<byte>, ph: Phone, near: Half, id: nat, x: RelayStep)
    requires PhoneKept(key, ph, near) && CanPhone(ph, key, near, x) && !x.OpenFor? && !x.SendFrame? && !x.Mux?
    ensures PhoneKept(key, StepPhone(ph, key, near, id, x), near) && StepPhone(ph, key, near, id, x).stream == ph.stream
  {
    hide PhoneKept;
    match x
    case SocketRead(_, chunk) => ReadKeeps(key, ph, near, chunk);
    case HeadRead(_, _) => DeliveryKeeps(key, ph, near, x);
    case UplinkRead(_, _) => DeliveryKeeps(key, ph, near, x);
    case _ => StagingKeeps(key, ph, near, x);
  }

  /** Phones whose stream the step does not concern stay in order. */
  lemma OthersKeep(k: Keys, r: Relay, e: WiredEvent, q: nat)
    requires RelayInv(k, r) && LawfulKeys(k) && MayMove(r.link, e) && q in r.phones
    requires r.phones[q].stream.Some? ==> Spends(e, r.phones[q].stream.value) == []
    ensures PhoneKept(r.key, r.phones[q], Near(MakeMove(k, r.link, e), r.phones[q].stream))
  {
    hide Sound, PhoneKept, MayMove, MakeMove, LawfulKeys;
    var ph := r.phones[q];
    if ph.stream.Some? {
      var j := ph.stream.value;
      LinkGrows(k, r.link, e, j);
      assert Get(r.link.a.halves, j).handed + [] == Get(r.link.a.halves, j).handed;
      GrowingKeeps(r.key, ph, Near(r.link, ph.stream), Near(MakeMove(k, r.link, e), ph.stream));
    }
  }

  lemma MuxStepKeeps(k: Keys, r: Relay, e: WiredEvent)
    requires RelayInv(k, r) && LawfulKeys(k) && CanRelay(r, Mux(e))
    ensures RelayInv(k, StepRelay(k, r, Mux(e)))
  {
    hide Sound, PhoneKept, MayMove, MakeMove, LawfulKeys;
    EventKeepsSound(k, r.link, e);
    IssuedGrows(k, r.link, e);
    forall q | q in r.phones
      ensures PhoneKept(r.key, r.phones[q], Near(MakeMove(k, r.link, e), r.phones[q].stream))
    {
      OthersKeep(k, r, e, q);
    }
  }

  lemma SendStepKeeps(k: Keys, r: Relay, p: nat)
    requires RelayInv(k, r) && LawfulKeys(k) && CanRelay(r, SendFrame(p))
    ensures RelayInv(k, StepRelay(k, r, SendFrame(p)))
  {
    hide Sound, PhoneKept, MakeMove, LawfulKeys;
    var ph, e := r.phones[p], OnLink(r, SendFrame(p)).value;
    var n := MakeMove(k, r.link, e);
    EventKeepsSound(k, r.link, e);
    IssuedGrows(k, r.link, e);
    assert ph.held != [];
    LinkGrows(k, r.link, e, ph.stream.value);
    PayingKeeps(r.key, ph, Near(r.link, ph.stream), Near(n, ph.stream));
    hide MayMove;
    forall q | q in r.phones && q != p
      ensures PhoneKept(r.key, r.phones[q], Near(n, r.phones[q].stream))
    {
      OthersKeep(k, r, e, q);
    }
  }

  lemma OpenStepKeeps(k: Keys, r: Relay, p: nat)
    requires RelayInv(k, r) && LawfulKeys(k) && CanRelay(r, OpenFor(p))
    ensures RelayInv(k, StepRelay(k, r, OpenFor(p)))
  {
    hide Sound, PhoneKept, MayMove, MakeMove, LawfulKeys;
    var ph, e := r.phones[p], OnLink(r, OpenFor(p)).value;
    var n := MakeMove(k, r.link, e);
    EventKeepsSound(k, r.link, e);
    IssuedGrows(k, r.link, e);
    OpeningKeeps(r.key, ph, e.x.id);
    forall q | q in r.phones && q != p
      ensures PhoneKept(r.key, r.phones[q], Near(n, r.phones[q].stream))
    {
      OthersKeep(k, r, e, q);
    }
  }

  lemma {:induction false} RunKeepsRelay(k: Keys, r: Relay, run: seq<RelayStep>)
    requires RelayInv(k, r) && LawfulKeys(k) && RelayRuns(k, r, run)
    ensures RelayInv(k, RelayAfter(k, r, run)) && RelayAfter(k, r, run).key == r.key
    decreases |run|
  {
    hide RelayInv, CanRelay, LawfulKeys;
    if run != [] {
      match run[0] {
        case Mux(e) => MuxStepKeeps(k, r, e);
        case SendFrame(p) => SendStepKeeps(k, r, p);
        case OpenFor(p) => OpenStepKeeps(k, r, p);
        case _ => PhoneStepKeeps(k, r, run[0]);
      }
      RunKeepsRelay(k, StepRelay(k, r, run[0]), run[1..]);
    }
  }

  /** Phones that have sent nothing yet, and a link just brought up. */
  ghost predicate Fresh(r: Relay, limitA: nat, limitB: nat)
  {
    && r.link == Connected(limitA, limitB)
    && forall p :: p in r.phones ==> r.phones[p] == Phone(r.phones[p].wire, [], 0, None, [], [], 0, [], [])
  }

  lemma FreshIsKept(k: Keys, r: Relay, limitA: nat, limitB: nat)
    requires Fresh(r, limitA, limitB)
    ensures RelayInv(k, r)
  {
    hide Sound;
    ConnectedIsSound(k, limitA, limitB);
  }

  // ---- The theorem ----

  /** What has been heard is the start of what the phone means to say. */
  lemma HeardIsMeant(ph: Phone)
    requires Concat(ph.chunks) <= ph.wire
    ensures Heard(ph) <= Meant(ph.wire)
  {
    ClientParseStable();
    PartialRead(ClientParse, ph.wire, ph.chunks);
    PayloadPrefix(ReadChunks(ClientParse, ph.chunks).items, Scan(ClientParse, (), ph.wire).items);
  }

  /** Phone to bridge, for a phone with stream `j`. */
  ghost predicate UpExact(r: Relay, ph: Phone, j: nat)
  {
    var near, far, s := Get(r.link.a.halves, j), Get(r.link.b.halves, j), Project(View(r.link), j);
    && far.got <= near.handed <= Meant(ph.wire)
    && HEAD_LEN <= ph.delivered <= |Heard(ph)| && Heard(ph) <= Meant(ph.wire)
    // Its preamble names this bridge; it goes first, by itself, and the frames behind it are the rest.
    && Meant(ph.wire)[..4] == [0x44, 0x53, 0x48, 0x43] && Meant(ph.wire)[4] == 1 && Meant(ph.wire)[5..37] == r.key
    && (near.handed != [] ==> ph.sends != [] && ph.sends[0] == Meant(ph.wire)[..HEAD_LEN])
    && Cuts(ph.sends) && Concat(ph.sends) == near.handed
    // Every byte delivered is received, queued, on the link, paid for or held, in that order.
    && (Hears(s, far) ==>
          far.got + Concat(far.inbox) + DataOf(s.ab) + near.reserved + ph.held == Heard(ph)[..ph.delivered])
  }

  /** Bridge to phone: whole frames only, and their payload is what the bridge sent. */
  ghost predicate DownExact(ph: Phone, near: Half, far: Half)
  {
    ServerParseStable();
    var decoded := Scan(ServerParse, (), ph.sent);
    && decoded.failure.None?
    && Payload(decoded.items) <= near.got <= far.handed
    && ph.accepted <= |near.got|
    && (ph.sent == ServerWire(ph.staged) ==> Payload(decoded.items) == near.got[..ph.accepted])
  }

  lemma UplinkIsExact(k: Keys, e: Relay, p: nat)
    requires RelayInv(k, e) && p in e.phones && e.phones[p].stream.Some?
    ensures var j := e.phones[p].stream.value;
            UpExact(e, e.phones[p], j) && Get(e.link.a.halves, j).got <= Get(e.link.b.halves, j).handed
  {
    hide AllInv, InStep, Fitting, IdsIssued, UplinkKept, UpExact, View, Project;
    var ph := e.phones[p];
    var j := ph.stream.value;
    assert PhoneKept(e.key, ph, Near(e.link, ph.stream));
    StreamIsExact(k, e.link, j);
    UpIsExact(e, ph, j);
  }

  /** What the mux keeps of one stream of the sealed link. */
  lemma StreamIsExact(k: Keys, w: Wired, j: nat)
    requires Sound(k, w) && j != 0
    ensures var s := Project(View(w), j);
            && s.a == Get(w.a.halves, j) && s.b == Get(w.b.halves, j)
            && s.b.got <= s.a.handed && s.a.got <= s.b.handed
            && (Hears(s, s.b) ==> s.b.got + Concat(s.b.inbox) + DataOf(s.ab) + s.a.reserved == s.a.handed)
  {
    hide InStep, Fitting, IdsIssued, DataOf, Filter, CreditKept, Ordered, Concat;
    assert Inv(Project(View(w), j));
  }

  lemma UpIsExact(e: Relay, ph: Phone, j: nat)
    requires ph.stream == Some(j) && UplinkKept(e.key, ph, Near(e.link, ph.stream))
    requires var s := Project(View(e.link), j);
             && s.a == Get(e.link.a.halves, j) && s.b == Get(e.link.b.halves, j) && s.b.got <= s.a.handed
             && (Hears(s, s.b) ==> s.b.got + Concat(s.b.inbox) + DataOf(s.ab) + s.a.reserved == s.a.handed)
    ensures UpExact(e, ph, j)
  {
    HeardIsMeant(ph);
    hide Heard, Meant, DataOf, View, Project, Hears;
    var head := Meant(ph.wire)[..HEAD_LEN];
    assert head == Heard(ph)[..HEAD_LEN];
    assert head == [0x44, 0x53, 0x48, 0x43] + [1] + e.key;
    assert Meant(ph.wire)[..4] == head[..4] && Meant(ph.wire)[4] == head[4] && Meant(ph.wire)[5..37] == head[5..];
  }

  lemma DownlinkIsExact(ph: Phone, near: Half)
    requires DownlinkKept(ph, near)
    ensures Stable(ServerParse)
    ensures Payload(Scan(ServerParse, (), ph.sent).items) <= near.got
    ensures Scan(ServerParse, (), ph.sent).failure.None?
    ensures ph.sent == ServerWire(ph.staged) ==> Payload(Scan(ServerParse, (), ph.sent).items) == near.got[..ph.accepted]
  {
    hide ServerParse, Scan, Payload, ServerWire;
    PhoneReadsPrefix(ph.staged, ph.sent);
  }

  /**
   End to end, for any number of phones in any interleaving, with any cut of each
   phone's wire into reads and of both directions' sealed bytes on the link: neither
   codec fails; a phone without a stream has had nothing sent for it; each stream
   belongs to one phone, whose preamble names this bridge; what the bridge has received
   on it is a prefix of that phone's payload, its preamble first; and what the phone can
   decode is a prefix of what the bridge sent on that stream.
   */
  lemma EndToEndExactness(k: Keys, r: Relay, limitA: nat, limitB: nat, run: seq<RelayStep>, p: nat)
    requires LawfulKeys(k) && Fresh(r, limitA, limitB) && RelayRuns(k, r, run) && p in RelayAfter(k, r, run).phones
    ensures var e := RelayAfter(k, r, run);
            var ph := e.phones[p];
            && !e.link.ab.link.broken && !e.link.ba.link.broken
            && (ph.stream.None? ==> ph.delivered <= HEAD_LEN && ph.sends == [])
            && (ph.stream.Some? ==>
                  && UpExact(e, ph, ph.stream.value)
                  && DownExact(ph, Get(e.link.a.halves, ph.stream.value), Get(e.link.b.halves, ph.stream.value))
                  && forall q :: q in e.phones && e.phones[q].stream == ph.stream ==> q == p)
  {
    FreshIsKept(k, r, limitA, limitB);
    RunKeepsRelay(k, r, run);
    var e := RelayAfter(k, r, run);
    hide ServerParse, ClientParse, RelayRuns, RelayAfter, Scan, Payload, Concat, DataOf, Heard, Meant, Fresh, UpExact, AllInv, Fitting, IdsIssued;
    assert PhoneKept(r.key, e.phones[p], Near(e.link, e.phones[p].stream));
    if e.phones[p].stream.Some? {
      UplinkIsExact(k, e, p);
      DownlinkIsExact(e.phones[p], Near(e.link, e.phones[p].stream));
    }
  }

  /** With a phone that speaks legal WebSocket, that payload is the payload of its frames. */
  lemma MeantByLegalPhone(fs: seq<PhoneFrame>)
    requires forall i :: 0 <= i < |fs| ==> Legal(fs[i])
    ensures Meant(PhoneWire(fs)) == Payload(Unwrap(fs))
  {
    ClientParseStable();
    PhoneWireDecodes(fs);
  }
}
