/**
 `WsStream` of src/ws.rs, which reads and writes plain bytes on top of WebSocket frames.

 The socket underneath is any script of poll results; ghost fields remember what
 went in and out, and `Valid` says how the buffers relate to that history after
 every call, in any order, against any script.
 */
module WsStreams {
  import opened Bytes
  import opened Incremental
  import opened WsCodec
  import opened WsReading

  /** What the socket answers to a read: bytes (none is end of file), an error, or not yet. */
  datatype ReadPoll = ReadReady(data: seq<byte>) | ReadError | ReadPending

  /** What the socket answers to a write: how much it took, an error, or not yet. */
  datatype WritePoll = Wrote(n: nat) | WriteError | WritePending

  class Socket {
    var arrivals: seq<ReadPoll>
    var answers: seq<WritePoll>
    var sent: seq<byte>

    /** Every answer given so far, and what the last write was offered. */
    ghost var heard: seq<ReadPoll>
    ghost var told: seq<WritePoll>
    ghost var offered: seq<byte>

    /** A read fills at most the scratch buffer it is given. */
    ghost predicate Valid()
      reads this
    {
      forall i :: 0 <= i < |arrivals| && arrivals[i].ReadReady? ==> |arrivals[i].data| <= SCRATCH
    }

    constructor (arrivals: seq<ReadPoll>, answers: seq<WritePoll>)
      requires forall i :: 0 <= i < |arrivals| && arrivals[i].ReadReady? ==> |arrivals[i].data| <= SCRATCH
      ensures Valid() && this.arrivals == arrivals && this.answers == answers && sent == [] && heard == [] && told == []
    {
      this.arrivals, this.answers, sent := arrivals, answers, [];
      heard, told, offered := [], [], [];
    }

    method PollRead() returns (p: ReadPoll)
      requires Valid()
      modifies this`arrivals, this`heard
      ensures Valid() && heard == old(heard) + [p]
      ensures old(arrivals) == [] ==> p.ReadPending? && arrivals == []
      ensures old(arrivals) != [] ==> p == old(arrivals)[0] && arrivals == old(arrivals)[1..]
    {
      if arrivals == [] {
        p := ReadPending;
      } else {
        p, arrivals := arrivals[0], arrivals[1..];
      }
      heard := heard + [p];
    }

    method PollWrite(buf: seq<byte>) returns (p: WritePoll)
      modifies this`answers, this`sent, this`told, this`offered
      ensures told == old(told) + [p] && offered == buf
      ensures p.Wrote? ==> p.n <= |buf| && sent == old(sent) + buf[..p.n]
      ensures !p.Wrote? ==> sent == old(sent)
      ensures |answers| < |old(answers)| || (answers == [] && p.WritePending?)
    {
      if answers == [] {
        p := WritePending;
      } else {
        p, answers := answers[0], answers[1..];
        if p.Wrote? {
          p := Wrote(Min(p.n, |buf|));
          sent := sent + buf[..p.n];
        }
      }
      told, offered := told + [p], buf;
    }
  }

  /** The bytes a socket has handed over, read by read; an end of file or an error hands over none. */
  function Arrived(polls: seq<ReadPoll>): seq<seq<byte>>
    decreases |polls|
  {
    if polls == [] then []
    else
      var last := polls[|polls| - 1];
      Arrived(polls[..|polls| - 1]) + if last.ReadReady? && last.data != [] then [last.data] else []
  }

  lemma ArrivedGrows(polls: seq<ReadPoll>, p: ReadPoll)
    ensures Arrived(polls + [p]) == Arrived(polls) + if p.ReadReady? && p.data != [] then [p.data] else []
  {
    assert (polls + [p])[..|polls|] == polls;
  }

  /** The socket's latest answers: not yet, or no more. */
  predicate Stalled(writes: seq<WritePoll>)
  {
    writes != [] && writes[|writes| - 1].WritePending?
  }

  predicate Broke(writes: seq<WritePoll>)
  {
    writes != [] && (writes[|writes| - 1].WriteError? || writes[|writes| - 1] == Wrote(0))
  }

  /** A drain that stops early says what the socket's last answer was, and only then. */
  predicate Mirrors(d: Drained, before: seq<WritePoll>, writes: seq<WritePoll>)
  {
    && before <= writes
    && (d.Blocked? <==> |before| < |writes| && Stalled(writes))
    && (d.Broken? <==> |before| < |writes| && Broke(writes))
  }

  /** What a phone expects in answer to its pings. */
  function PongsFor(frames: seq<WsFrame>): seq<WsFrame>
    decreases |frames|
  {
    if frames == [] then []
    else
      var last := frames[|frames| - 1];
      PongsFor(frames[..|frames| - 1]) + if last.opcode == OP_PING then [WsFrame(OP_PONG, last.payload)] else []
  }

  /** Some of these frames, in their order. */
  predicate SomeOf(some: seq<WsFrame>, all: seq<WsFrame>)
    decreases |all|
  {
    some == [] ||
    (all != [] &&
     (SomeOf(some, all[..|all| - 1]) ||
      (some[|some| - 1] == all[|all| - 1] && SomeOf(some[..|some| - 1], all[..|all| - 1]))))
  }

  /** One more frame, answered or not. */
  lemma PongsGrow(frames: seq<WsFrame>, f: WsFrame, pongs: seq<WsFrame>)
    requires SomeOf(pongs, PongsFor(frames))
    ensures SomeOf(pongs, PongsFor(frames + [f]))
    ensures f.opcode == OP_PING ==> SomeOf(pongs + [WsFrame(OP_PONG, f.payload)], PongsFor(frames + [f]))
  {
    assert (frames + [f])[..|frames|] == frames;
    var all, answer := PongsFor(frames), WsFrame(OP_PONG, f.payload);
    assert all + [] == all;
    assert (all + [answer])[..|all|] == all && (pongs + [answer])[..|pongs|] == pongs;
  }

  /** What was staged meanwhile are pongs, for some of the pings taken meanwhile and in their order. */
  predicate Answered(taken0: seq<WsFrame>, taken: seq<WsFrame>, staged0: seq<WsFrame>, staged: seq<WsFrame>)
  {
    taken0 <= taken && staged0 <= staged && SomeOf(staged[|staged0|..], PongsFor(taken[|taken0|..]))
  }

  lemma AnsweredOne(taken0: seq<WsFrame>, taken: seq<WsFrame>, staged0: seq<WsFrame>, staged: seq<WsFrame>, f: WsFrame, pong: bool)
    requires Answered(taken0, taken, staged0, staged) && (pong ==> f.opcode == OP_PING)
    ensures Answered(taken0, taken + [f], staged0, staged + if pong then [WsFrame(OP_PONG, f.payload)] else [])
  {
    hide SomeOf, PongsFor;
    var more := if pong then [WsFrame(OP_PONG, f.payload)] else [];
    PongsGrow(taken[|taken0|..], f, staged[|staged0|..]);
    assert (taken + [f])[|taken0|..] == taken[|taken0|..] + [f];
    assert (staged + more)[|staged0|..] == staged[|staged0|..] + more;
    assert !pong ==> staged[|staged0|..] + more == staged[|staged0|..];
  }

  lemma {:induction false} SomeOfAppend(a: seq<WsFrame>, all: seq<WsFrame>, b: seq<WsFrame>, more: seq<WsFrame>)
    requires SomeOf(a, all) && SomeOf(b, more)
    ensures SomeOf(a + b, all + more)
    decreases |more|
  {
    if more == [] {
      assert a + b == a && all + more == all;
    } else {
      var n := |more| - 1;
      assert (all + more)[..|all + more| - 1] == all + more[..n];
      if SomeOf(b, more[..n]) {
        SomeOfAppend(a, all, b, more[..n]);
      } else {
        SomeOfAppend(a, all, b[..|b| - 1], more[..n]);
        assert (a + b)[..|a + b| - 1] == a + b[..|b| - 1];
      }
    }
  }

  lemma {:induction false} PongsAppend(xs: seq<WsFrame>, ys: seq<WsFrame>)
    ensures PongsFor(xs + ys) == PongsFor(xs) + PongsFor(ys)
    decreases |ys|
  {
    if ys == [] {
      assert xs + ys == xs;
    } else {
      assert (xs + ys)[..|xs + ys| - 1] == xs + ys[..|ys| - 1];
      PongsAppend(xs, ys[..|ys| - 1]);
    }
  }

  lemma AnsweredOn(t0: seq<WsFrame>, t1: seq<WsFrame>, t2: seq<WsFrame>, s0: seq<WsFrame>, s1: seq<WsFrame>, s2: seq<WsFrame>)
    requires Answered(t0, t1, s0, s1) && Answered(t1, t2, s1, s2)
    ensures Answered(t0, t2, s0, s2)
  {
    hide SomeOf, PongsFor;
    SomeOfAppend(s1[|s0|..], PongsFor(t1[|t0|..]), s2[|s1|..], PongsFor(t2[|t1|..]));
    PongsAppend(t1[|t0|..], t2[|t1|..]);
    assert t2[|t0|..] == t1[|t0|..] + t2[|t1|..] && s2[|s0|..] == s1[|s0|..] + s2[|s1|..];
  }

  lemma NothingAnswered(taken: seq<WsFrame>, staged: seq<WsFrame>)
    ensures Answered(taken, taken, staged, staged)
  {
  }

  /** Undo a client's mask where the payload lies. */
  method Unmask(payload: array<byte>, mask: seq<byte>)
    requires |mask| == 4
    modifies payload
    ensures payload[..] == Masked(mask, old(payload[..]))
  {
    for index := 0 to payload.Length
      invariant forall i :: 0 <= i < index ==> payload[i] == Xor(old(payload[i]), mask[i % 4])
      invariant forall i :: index <= i < payload.Length ==> payload[i] == old(payload[i])
    {
      payload[index] := Xor(payload[index], mask[index % 4]);
    }
  }

  datatype Decoded = Waiting | Took | Bad(why: string)
  datatype Drained = Empty | Blocked | Broken
  datatype ReadResult = Ready(data: seq<byte>) | Pending | Failed
  datatype WriteResult = Accepted(n: nat) | NotYet | Refused

  const UNKNOWN_OPCODE := "unknown websocket opcode"

  /** A ping is answered with its own payload, unless too much is already queued. */
  function Pong(f: WsFrame, backlog: nat): seq<byte>
  {
    if f.opcode == OP_PING && backlog <= MAX_PONG_BACKLOG then ServerBytes(WsFrame(OP_PONG, f.payload)) else []
  }

  /** What a phone reads when it is answered is its own payload in a final, unmasked pong. */
  lemma PongEchoes(f: WsFrame, backlog: nat, c: seq<byte>)
    requires |f.payload| <= MAX_CONTROL
    ensures f.opcode == OP_PING && backlog <= 8192 ==>
              Pong(f, backlog) != [] && ServerParse((), Pong(f, backlog) + c) == Item((), WsFrame(10, f.payload), |Pong(f, backlog)|)
    ensures f.opcode != 9 || backlog > 8192 ==> Pong(f, backlog) == []
  {
    Widths();
    ServerFrameDecodes(WsFrame(OP_PONG, f.payload), c);
  }

  lemma QueueGrows(staged: seq<WsFrame>, f: WsFrame, sent: seq<byte>, outgoing: seq<byte>)
    requires f.opcode < 16 && |f.payload| <= MAX_SEND && Sendable(staged)
    requires sent + outgoing == ServerWire(staged)
    ensures Sendable(staged + [f])
    ensures sent + (outgoing + ServerBytes(f)) == ServerWire(staged + [f])
    ensures Payload(staged + [f]) == Payload(staged) + if IsData(f.opcode) then f.payload else []
  {
    Widths();
    ServerWireAppend(staged, f);
    PayloadAppend(staged, [f]);
    PayloadOne(f);
    Associate(sent, outgoing, ServerBytes(f));
  }

  lemma FrameLimits(b: seq<byte>)
    requires ClientParse((), b).Item?
    ensures var step := ClientParse((), b);
            && 0 < step.used <= |b|
            && |step.item.payload| <= MAX_FRAME
            && (step.item.opcode >= 8 ==> |step.item.payload| <= MAX_CONTROL)
  {
  }

  /** What it means for decoded frames and leftover bytes to come from these reads. */
  ghost predicate Accounts(chunks: seq<seq<byte>>, taken: seq<WsFrame>, incoming: seq<byte>)
  {
    Piecewise(chunks) == Prepend(taken, OneShot(incoming))
  }

  lemma TakeAccounts(chunks: seq<seq<byte>>, taken: seq<WsFrame>, incoming: seq<byte>)
    requires Accounts(chunks, taken, incoming) && ClientParse((), incoming).Item?
    ensures var step := ClientParse((), incoming);
            step.used <= |incoming| && Accounts(chunks, taken + [step.item], incoming[step.used..])
  {
    FrameLimits(incoming);
    ClientParseStable();
    assert ClientParse((), incoming).next == ();
  }

  lemma TakeDelivers(taken: seq<WsFrame>, f: WsFrame)
    ensures Payload(taken + [f]) == Payload(taken) + if IsData(f.opcode) then f.payload else []
    ensures Closes(taken + [f]) <==> Closes(taken) || f.opcode == OP_CLOSE
  {
    PayloadAppend(taken, [f]);
    PayloadOne(f);
    if Closes(taken + [f]) {
      var i :| 0 <= i < |taken + [f]| && (taken + [f])[i].opcode == OP_CLOSE;
      assert i < |taken| ==> taken[i].opcode == OP_CLOSE;
    }
    if Closes(taken) {
      var i :| 0 <= i < |taken| && taken[i].opcode == OP_CLOSE;
      assert (taken + [f])[i].opcode == OP_CLOSE;
    }
    assert (taken + [f])[|taken|] == f;
  }

  /** Everything readable in these reads has been delivered, and this was the verdict. */
  ghost predicate Exhausted(chunks: seq<seq<byte>>, delivered: seq<byte>, failure: Option<string>)
  {
    delivered == Payload(Piecewise(chunks).items) && Piecewise(chunks).failure == failure
  }

  lemma StopAccounts(chunks: seq<seq<byte>>, taken: seq<WsFrame>, incoming: seq<byte>)
    requires Accounts(chunks, taken, incoming) && !ClientParse((), incoming).Item?
    ensures ClientParse((), incoming).Fail? ==>
              Exhausted(chunks, Payload(taken), Some(ClientParse((), incoming).why))
    ensures ClientParse((), incoming).More? ==> Exhausted(chunks, Payload(taken), None)
  {
    ClientParseStable();
    assert taken + [] == taken;
  }

  /**
   The link to chunking independence: once everything readable has been delivered, and
   reading stopped because the wire ended, a CLOSE came or an error was found, the
   bytes and the verdict are those of a one-shot parse of the phone's whole wire.
   */
  lemma DeliveredIsOneShot(wire: seq<byte>, chunks: seq<seq<byte>>, delivered: seq<byte>, failure: Option<string>)
    requires Exhausted(chunks, delivered, failure) && Concat(chunks) <= wire
    requires Quiet(wire) && (Concat(chunks) == wire || Stopped(Piecewise(chunks)))
    ensures delivered == Payload(OneShot(wire).items) && failure == OneShot(wire).failure
  {
    hide ClientParse, Scan, ReadChunks, Payload, SilentAfterClose;
    ClientParseStable();
    SilenceSuffices(ClientParse, wire, chunks);
  }

  lemma ReadAccounts(chunks: seq<seq<byte>>, taken: seq<WsFrame>, incoming: seq<byte>, chunk: seq<byte>)
    requires Accounts(chunks, taken, incoming) && ClientParse((), incoming).More? && !Closes(taken)
    ensures Accounts(chunks + [chunk], taken, incoming + chunk)
  {
    ClientParseStable();
    var longer := chunks + [chunk];
    assert longer[..|longer| - 1] == chunks;
  }

  lemma PongIsSmall(f: WsFrame, backlog: nat)
    requires f.opcode >= 8 ==> |f.payload| <= MAX_CONTROL
    ensures Pong(f, backlog) != [] ==> |Pong(f, backlog)| <= MAX_CONTROL + 2 && backlog <= MAX_PONG_BACKLOG
  {
  }

  class WsStream {
    const inner: Socket
    var incoming: seq<byte>
    var plain: seq<byte>
    var outgoing: seq<byte>
    var closed: bool

    /** Everything the socket has handed over, read by read. */
    ghost var chunks: seq<seq<byte>>
    /** Frames decoded so far, and the bytes already given to the reader. */
    ghost var taken: seq<WsFrame>
    ghost var delivered: seq<byte>
    /** A read reported the socket's end of file. */
    ghost var eof: bool
    /** `PollShutdown` was called. */
    ghost var shut: bool
    /** A protocol error was reported; the reader has been told to stop. */
    ghost var failed: bool
    /** Frames staged for the phone, and the bytes `PollWrite` staged among them. */
    ghost var staged: seq<WsFrame>
    ghost var accepted: seq<byte>

    constructor (socket: Socket)
      requires socket.Valid() && socket.sent == [] && socket.heard == []
      ensures Valid() && inner == socket && fresh(this)
      ensures incoming == [] && plain == [] && outgoing == [] && !closed
      ensures chunks == [] && delivered == [] && accepted == [] && !failed && !eof
    {
      inner := socket;
      incoming, plain, outgoing, closed := [], [], [], false;
      chunks, taken, delivered, failed, eof, shut := [], [], [], false, false, false;
      staged, accepted := [], [];
    }

    /** What the decoder has seen, in terms of the chunked reading of the wire. */
    ghost predicate ReadsFaithfully()
      reads this
    {
      && Payload(taken) == delivered + plain
      && (closed <==> Closes(taken) || shut)
      && (forall i :: 0 <= i < |chunks| ==> 0 < |chunks[i]| <= SCRATCH)
      && Accounts(chunks, taken, incoming)
    }

    /** Nothing but whole frames ever leaves, and their payload is what was accepted. */
    ghost predicate WritesFrames()
      reads this, inner
    {
      && Sendable(staged)
      && inner.sent + outgoing == ServerWire(staged)
      && Payload(staged) == accepted
    }

    ghost predicate Bounded()
      reads this
    {
      && |incoming| < MAX_FRAME + 14 + SCRATCH
      && |plain| <= MAX_FRAME
      && |outgoing| <= MAX_SEND + 10 + (if closed then 2 else 0)
    }

    /** Everything the socket handed over went into the decoder. */
    ghost predicate ReadsAll()
      reads this, inner
    {
      chunks == Arrived(inner.heard)
    }

    ghost predicate Valid()
      reads this, inner
    {
      inner.Valid() && Bounded() && WritesFrames() && ReadsAll() && (!failed ==> ReadsFaithfully())
    }

    /** The bytes of one server frame behind what is already queued. */
    static method PutFrame(queue: seq<byte>, opcode: nat, payload: seq<byte>) returns (out: seq<byte>)
      requires opcode < 16
      ensures out == queue + ServerBytes(WsFrame(opcode, payload))
    {
      out := queue + [128 + opcode];
      if |payload| < 126 {
        out := out + [|payload|];
      } else if |payload| <= 65535 {
        out := out + [126];
        out := out + BigEndian(|payload|, 2);
      } else {
        out := out + [127];
        out := out + BigEndian(|payload|, 8);
      }
      out := out + payload;
    }

    /** Stage one server frame. */
    method Stage(opcode: nat, payload: seq<byte>)
      requires Known(opcode) && |payload| <= MAX_SEND && WritesFrames()
      modifies this`outgoing, this`staged, this`accepted
      ensures WritesFrames()
      ensures outgoing == old(outgoing) + ServerBytes(WsFrame(opcode, payload))
      ensures staged == old(staged) + [WsFrame(opcode, payload)]
      ensures accepted == old(accepted) + if IsData(opcode) then payload else []
    {
      ghost var f := WsFrame(opcode, payload);
      outgoing := PutFrame(outgoing, opcode, payload);
      QueueGrows(staged, f, inner.sent, old(outgoing));
      staged := staged + [f];
      accepted := accepted + if IsData(opcode) then payload else [];
    }

    /** Take the first whole frame off `incoming` and undo its mask. */
    method TakeFrame() returns (r: Decoded, opcode: nat, payload: seq<byte>)
      modifies this`incoming
      ensures match ClientParse((), old(incoming))
              case More => r == Waiting && incoming == old(incoming)
              case Item(_, f, n) => r == Took && f == WsFrame(opcode, payload) && incoming == old(incoming)[n..]
              case Fail(why) =>
                || (r == Bad(why) && incoming == old(incoming))
                || (r == Took && !Known(opcode) && |incoming| <= |old(incoming)| && why == UNKNOWN_OPCODE)
    {
      opcode, payload := 0, [];
      if |incoming| < 2 {
        return Waiting, opcode, payload;
      }
      var first, second := incoming[0], incoming[1];
      var fin, masked := first >= 128, second >= 128;
      opcode := first % 16;
      if opcode >= 8 && (!fin || second % 128 > MAX_CONTROL) {
        return Bad("oversized or fragmented control frame"), opcode, payload;
      }
      var length, offset := second % 128, 2;
      if second % 128 == 126 {
        if |incoming| < 4 {
          return Waiting, opcode, payload;
        }
        length, offset := FromBigEndian(incoming[2..4]), 4;
      } else if second % 128 == 127 {
        if |incoming| < 10 {
          return Waiting, opcode, payload;
        }
        length, offset := FromBigEndian(incoming[2..10]), 10;
      }
      if length > MAX_FRAME {
        return Bad("websocket frame is too large"), opcode, payload;
      }
      if !masked {
        return Bad("client frame is not masked"), opcode, payload;
      }
      if |incoming| < offset + 4 {
        return Waiting, opcode, payload;
      }
      var mask := incoming[offset..offset + 4];
      offset := offset + 4;
      if |incoming| < offset + length {
        return Waiting, opcode, payload;
      }
      var body := incoming[offset..offset + length];
      incoming := incoming[offset + length..];
      payload := UnmaskBody(body, mask);
      return Took, opcode, payload;
    }

    static method UnmaskBody(body: seq<byte>, mask: seq<byte>) returns (payload: seq<byte>)
      requires |mask| == 4
      ensures payload == Masked(mask, body)
    {
      var buffer := new byte[|body|](i requires 0 <= i < |body| => body[i]);
      assert buffer[..] == body;
      Unmask(buffer, mask);
      payload := buffer[..];
    }

    /** One turn of decoding: a whole frame at the front of `incoming` is consumed and carried out. */
    method Decode() returns (r: Decoded)
      requires WritesFrames()
      modifies this`incoming, this`plain, this`outgoing, this`closed, this`taken, this`staged, this`accepted
      ensures WritesFrames()
      ensures accepted == old(accepted)
      ensures match ClientParse((), old(incoming))
              case More => r == Waiting && incoming == old(incoming) && Unchanged(old(plain), old(outgoing), old(taken), old(closed))
              case Fail(why) => r == Bad(why) && |incoming| <= |old(incoming)| && Unchanged(old(plain), old(outgoing), old(taken), old(closed))
              case Item(_, f, n) =>
                && r == Took && incoming == old(incoming)[n..] && taken == old(taken) + [f]
                && plain == old(plain) + (if IsData(f.opcode) then f.payload else [])
                && closed == (old(closed) || f.opcode == OP_CLOSE)
                && outgoing == old(outgoing) + Pong(f, |old(outgoing)|)
                && staged == old(staged) +
                     if f.opcode == OP_PING && |old(outgoing)| <= MAX_PONG_BACKLOG then [WsFrame(OP_PONG, f.payload)] else []
      ensures !ClientParse((), old(incoming)).Item? ==> staged == old(staged)
    {
      hide ServerBytes, ServerWire, Payload, Sendable;
      var opcode, payload;
      r, opcode, payload := TakeFrame();
      if !r.Took? {
        return;
      }
      if opcode == OP_CONTINUATION || opcode == OP_TEXT || opcode == OP_BINARY {
        plain := plain + payload;
      } else if opcode == OP_CLOSE {
        closed := true;
      } else if opcode == OP_PING {
        if |outgoing| <= MAX_PONG_BACKLOG {
          Stage(OP_PONG, payload);
        }
      } else if opcode != OP_PONG {
        return Bad(UNKNOWN_OPCODE);
      }
      taken := taken + [WsFrame(opcode, payload)];
    }

    ghost predicate Unchanged(plain0: seq<byte>, outgoing0: seq<byte>, taken0: seq<WsFrame>, closed0: bool)
      reads this
    {
      plain == plain0 && outgoing == outgoing0 && taken == taken0 && closed == closed0
    }

    /** Offer `outgoing` to the socket until it is empty or the socket stops; the rest stays queued. */
    method Drain() returns (r: Drained)
      requires WritesFrames()
      modifies this`outgoing, inner`answers, inner`sent, inner`told, inner`offered
      ensures WritesFrames() && (old(Valid()) ==> Valid())
      ensures |outgoing| <= |old(outgoing)|
      ensures r.Empty? <==> outgoing == []
      // It stops early only when the socket does, and with everything left on offer.
      ensures Mirrors(r, old(inner.told), inner.told)
      ensures !r.Empty? ==> inner.offered == outgoing
    {
      hide Accounts, ServerBytes, ServerWire, Payload, Sendable, Closes, Arrived;
      while outgoing != []
        invariant WritesFrames() && |outgoing| <= |old(outgoing)|
        invariant Mirrors(Empty, old(inner.told), inner.told)
        invariant old(Valid()) ==> Valid()
        decreases |inner.answers|, |outgoing|
      {
        var p := inner.PollWrite(outgoing);
        match p {
          case Wrote(n) =>
            if n == 0 {
              return Broken;
            }
            Associate(inner.sent[..|inner.sent| - n], outgoing[..n], outgoing[n..]);
            outgoing := outgoing[n..];
          case WriteError => return Broken;
          case WritePending => return Blocked;
        }
      }
      return Empty;
    }

    /** One round of `Decode` inside a read, with nothing waiting for the reader. */
    method DecodeStep() returns (r: Decoded)
      requires Valid() && plain == []
      modifies this
      ensures Valid()
      ensures chunks == old(chunks) && delivered == old(delivered) && accepted == old(accepted)
      ensures eof == old(eof) && shut == old(shut) && old(taken) <= taken
      ensures r.Took? ==> |incoming| < |old(incoming)|
      ensures r.Waiting? ==> ClientParse((), incoming).More?
      ensures !r.Took? ==> plain == [] && taken == old(taken) && outgoing == old(outgoing)
      ensures r.Took? ==> taken != old(taken)
      ensures failed == (old(failed) || r.Bad?)
      ensures inner.heard == old(inner.heard) && Answered(old(taken), taken, old(staged), staged)
      ensures !r.Took? && !old(failed) ==> Exhausted(chunks, delivered, if r.Bad? then Some(r.why) else None)
    {
      hide ClientParse, Scan, ReadChunks, Accounts, Exhausted, Pong, ServerBytes, ServerWire, Payload, Sendable, Closes, Arrived, Answered;
      NothingAnswered(taken, staged);
      r := Decode();
      if r.Took? {
        AnsweredOne(old(taken), old(taken), old(staged), old(staged), ClientParse((), old(incoming)).item,
                    ClientParse((), old(incoming)).item.opcode == OP_PING && |old(outgoing)| <= MAX_PONG_BACKLOG);
        assert old(staged) + [] == old(staged);
        FrameLimits(old(incoming));
        ghost var f := ClientParse((), old(incoming)).item;
        PongIsSmall(f, |old(outgoing)|);
        if !failed {
          TakeAccounts(chunks, old(taken), old(incoming));
          TakeDelivers(old(taken), f);
        }
      } else {
        if !failed {
          StopAccounts(chunks, taken, old(incoming));
          assert delivered + [] == delivered;
        }
        failed := failed || r.Bad?;
      }
    }

    /** Hand the reader what it has room for. */
    method Deliver(cap: nat) returns (data: seq<byte>)
      requires Valid()
      modifies this`plain, this`delivered
      ensures Valid() && |data| == Min(|old(plain)|, cap)
      ensures data + plain == old(plain) && delivered == old(delivered) + data
    {
      hide Accounts, Closes, Payload, Sendable, ServerWire;
      data := plain[..Min(|plain|, cap)];
      plain := plain[|data|..];
      Associate(delivered, data, plain);
      delivered := delivered + data;
    }

    /** Ask the socket once, with no whole frame in the buffer. */
    method Refill() returns (p: ReadPoll)
      requires Valid() && !closed && ClientParse((), incoming).More?
      modifies this`incoming, this`chunks, this`eof, inner`arrivals, inner`heard
      ensures Valid() && old(chunks) <= chunks && inner.heard == old(inner.heard) + [p]
      ensures eof == (old(eof) || p == ReadReady([]))
      ensures p.ReadPending? ==> incoming == old(incoming)
      ensures p.ReadReady? && p.data != [] ==> |inner.arrivals| < |old(inner.arrivals)|
      ensures !p.ReadReady? || p.data == [] ==> chunks == old(chunks)
    {
      hide ClientParse, Scan, ReadChunks, Accounts, ServerBytes, ServerWire, Payload, Sendable, Closes, Arrived;
      p := inner.PollRead();
      ArrivedGrows(old(inner.heard), p);
      assert Arrived(old(inner.heard)) + [] == Arrived(old(inner.heard));
      if p.ReadReady? && p.data == [] {
        eof := true;
      } else if p.ReadReady? {
        WaitingIsShort(incoming);
        if !failed {
          ReadAccounts(chunks, taken, incoming, p.data);
        }
        incoming := incoming + p.data;
        chunks := chunks + [p.data];
      }
    }

    /** The socket was asked during this call, and this is the last it said. */
    ghost predicate LastRead(before: seq<ReadPoll>, p: ReadPoll)
      reads inner
    {
      before < inner.heard && inner.heard[|inner.heard| - 1] == p
    }

    /** Whatever is queued has been put to the socket since, which stopped or took it all. */
    ghost predicate Offered(before: seq<WritePoll>)
      reads this, inner
    {
      outgoing == [] || (before < inner.told && (Stalled(inner.told) || Broke(inner.told)))
    }

    /** One round of reading with nothing to deliver: decode, or ask the socket; no answer means go on. */
    method ReadStep() returns (r: Option<ReadResult>)
      requires Valid() && plain == []
      modifies this, inner
      ensures Valid() && accepted == old(accepted) && delivered == old(delivered) && shut == old(shut)
      ensures old(chunks) <= chunks && old(inner.heard) <= inner.heard && old(taken) <= taken
      ensures Answered(old(taken), taken, old(staged), staged)
      ensures old(inner.told) <= inner.told
      ensures if taken == old(taken) then outgoing == old(outgoing) && inner.told == old(inner.told) else Offered(old(inner.told))
      ensures r.None? ==> failed == old(failed) && !LastRead(old(inner.heard), ReadError)
      ensures r.None? ==> |inner.arrivals| < |old(inner.arrivals)| ||
                          (inner.arrivals == old(inner.arrivals) && |incoming| < |old(incoming)|)
      ensures r.Some? ==> plain == [] && (r.value.Ready? ==> r.value.data == [])
      ensures r == Some(Pending) ==> LastRead(old(inner.heard), ReadPending) && !closed && ClientParse((), incoming).More?
      ensures r == Some(Ready([])) ==> closed || LastRead(old(inner.heard), ReadReady([]))
      ensures r.Some? && !failed && !r.value.Failed? ==> Exhausted(chunks, delivered, None)
      ensures r == Some(Failed) ==> failed || LastRead(old(inner.heard), ReadError)
      ensures LastRead(old(inner.heard), ReadError) ==> r == Some(Failed)
      ensures failed && !old(failed) ==> r == Some(Failed) && exists why :: Exhausted(chunks, delivered, Some(why))
    {
      hide ClientParse, Accounts, Exhausted, ServerBytes, ServerWire, Payload, Sendable, Closes, Bounded, Arrived, Answered;
      var d := DecodeStep();
      if d.Bad? {
        assert !old(failed) ==> Exhausted(chunks, delivered, Some(d.why));
        return Some(Failed);
      }
      if d.Took? {
        var _ := Drain();
        return None;
      }
      if closed {
        return Some(Ready([]));
      }
      var p := Refill();
      match p {
        case ReadReady(data) =>
          if data == [] {
            return Some(Ready([]));
          }
          return None;
        case ReadError => return Some(Failed);
        case ReadPending => return Some(Pending);
      }
    }

    method PollRead(cap: nat) returns (r: ReadResult)
      requires Valid()
      modifies this, inner
      ensures Valid() && accepted == old(accepted) && old(chunks) <= chunks && shut == old(shut)
      // The caller gets the next bytes of the stream, in order, and all that fit of those already decoded.
      ensures delivered == old(delivered) + if r.Ready? then r.data else []
      ensures r.Ready? ==> |r.data| <= cap
      ensures old(plain) != [] ==> r == Ready(old(plain)[..Min(|old(plain)|, cap)]) && inner.heard == old(inner.heard)
      // It waits only for the socket, with nothing left to decode or deliver.
      ensures r.Pending? ==> LastRead(old(inner.heard), ReadPending)
      ensures r.Pending? ==> plain == [] && !closed && ClientParse((), incoming).More?
      ensures r.Pending? && !failed ==> Exhausted(chunks, delivered, None)
      // An end of stream is real, and comes after every decoded byte.
      ensures r == Ready([]) && cap > 0 ==> plain == [] && (closed || LastRead(old(inner.heard), ReadReady([])))
      ensures r == Ready([]) && cap > 0 && !failed ==> Exhausted(chunks, delivered, None)
      // A protocol error is the verdict of the wire, and comes after every good byte.
      ensures failed && !old(failed) ==> r.Failed? && plain == [] && exists why :: Exhausted(chunks, delivered, Some(why))
      ensures r.Failed? ==> failed || LastRead(old(inner.heard), ReadError)
      ensures LastRead(old(inner.heard), ReadError) ==> r.Failed?
      // All it ever puts into the other direction are pongs, and it gets them moving.
      ensures Answered(old(taken), taken, old(staged), staged)
      ensures taken != old(taken) ==> Offered(old(inner.told))
    {
      hide ClientParse, Accounts, Exhausted, ServerBytes, ServerWire, Payload, Sendable, Closes, Bounded, Arrived, Answered;
      NothingAnswered(taken, staged);
      while plain == []
        invariant Valid() && accepted == old(accepted) && delivered == old(delivered) && failed == old(failed)
        invariant old(chunks) <= chunks && shut == old(shut)
        invariant old(inner.heard) <= inner.heard && !LastRead(old(inner.heard), ReadError)
        invariant old(plain) != [] ==> plain == old(plain) && inner.heard == old(inner.heard)
        invariant Answered(old(taken), taken, old(staged), staged)
        invariant old(inner.told) <= inner.told && old(taken) <= taken
        invariant taken != old(taken) ==> Offered(old(inner.told))
        decreases |inner.arrivals|, |incoming|
      {
        ghost var taken0, staged0 := taken, staged;
        var step := ReadStep();
        AnsweredOn(old(taken), taken0, taken, old(staged), staged0, staged);
        if step.Some? {
          assert delivered + [] == delivered;
          return step.value;
        }
      }
      var data := Deliver(cap);
      return Ready(data);
    }

    method PollWrite(data: seq<byte>) returns (r: WriteResult)
      requires Valid()
      modifies this, inner
      ensures Valid() && ReadSideKept(old(chunks), old(delivered), old(plain), old(closed), old(inner.heard))
      ensures r.Accepted? ==> r.n == Min(|data|, MAX_SEND)
      ensures var f := WsFrame(OP_BINARY, data[..Min(|data|, MAX_SEND)]);
              || (staged == old(staged) + [f] && accepted == old(accepted) + f.payload && !r.NotYet?)
              || (staged == old(staged) && accepted == old(accepted) && !r.Accepted?)
      // Nothing is accepted before older bytes are gone; it waits or refuses only as the socket does.
      ensures r.NotYet? ==> outgoing != [] && old(inner.told) < inner.told && Stalled(inner.told)
      ensures r.Refused? <==> old(inner.told) < inner.told && Broke(inner.told)
      ensures old(outgoing) == [] ==> !r.NotYet?
    {
      hide Accounts, Closes, Payload, Sendable, ServerWire, Arrived;
      var d := Drain();
      if d.Blocked? {
        return NotYet;
      } else if d.Broken? {
        return Refused;
      }
      ghost var between := inner.told;
      var take := Min(|data|, MAX_SEND);
      Stage(OP_BINARY, data[..take]);
      d := Drain();
      if d.Broken? {
        return Refused;
      }
      assert |between| == |inner.told| ==> between == inner.told;
      return Accepted(take);
    }

    /** Flushing may finish only once every staged byte is with the socket. */
    method PollFlush() returns (d: Drained)
      requires Valid()
      modifies this, inner
      ensures Valid() && ReadSideKept(old(chunks), old(delivered), old(plain), old(closed), old(inner.heard))
      ensures accepted == old(accepted) && staged == old(staged)
      ensures d.Empty? <==> inner.sent == ServerWire(staged)
      ensures Mirrors(d, old(inner.told), inner.told)
    {
      d := Drain();
      assert outgoing == [] ==> inner.sent + outgoing == inner.sent;
    }

    method PollShutdown() returns (d: Drained)
      requires Valid()
      modifies this, inner
      ensures Valid() && ReadSideKept(old(chunks), old(delivered), old(plain), closed, old(inner.heard))
      ensures closed && accepted == old(accepted)
      ensures staged == old(staged) + if old(closed) then [] else [WsFrame(OP_CLOSE, [])]
      ensures d.Empty? <==> inner.sent == ServerWire(staged)
      ensures Mirrors(d, old(inner.told), inner.told)
    {
      hide Accounts, Closes, Payload, Sendable, ServerWire, Arrived;
      if !closed {
        Stage(OP_CLOSE, []);
        closed, shut := true, true;
      }
      d := Drain();
      assert outgoing == [] ==> inner.sent + outgoing == inner.sent;
    }

    ghost predicate ReadSideKept(chunks0: seq<seq<byte>>, delivered0: seq<byte>, plain0: seq<byte>, closed0: bool, heard0: seq<ReadPoll>)
      reads this, inner
    {
      chunks == chunks0 && delivered == delivered0 && plain == plain0 && closed == closed0 && inner.heard == heard0
    }
  }
}
