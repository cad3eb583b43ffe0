/**
 Reading a WebSocket in pieces.  `WsStream` stops asking the socket for bytes once
 it has decoded a CLOSE or hit an error (src/ws.rs:219-227), so how the wire was
 cut can matter after a CLOSE and nowhere else.

 The argument uses only that the frame parser `p` is stable and tight; it is
 applied to `ClientParse` at the end.
 */
module WsReading {
  import opened Bytes
  import opened Incremental
  import opened WsCodec

  type FrameParser = Parser<(), WsFrame>
  type Reading = Outcome<(), WsFrame>

  ghost predicate Stopped(r: Reading)
  {
    r.failure.Some? || Closes(r.items)
  }

  ghost function ReadOne(p: FrameParser, r: Reading, chunk: seq<byte>): Reading
    requires Stable(p)
  {
    if Stopped(r) then r else Prepend(r.items, Scan(p, (), r.rest + chunk))
  }

  /** What has been decoded after reading `chunks` one by one. */
  ghost function ReadChunks(p: FrameParser, chunks: seq<seq<byte>>): Reading
    requires Stable(p)
  {
    if chunks == [] then Scan(p, (), [])
    else ReadOne(p, ReadChunks(p, chunks[..|chunks| - 1]), chunks[|chunks| - 1])
  }

  /** What the stream's user sees: the bytes, and whether reading ended in an error. */
  ghost predicate SameVerdict(r: Reading, w: Reading)
  {
    Payload(r.items) == Payload(w.items) && r.failure == w.failure
  }

  /** A cut of the wire into non-empty reads of at most one scratch buffer. */
  ghost predicate CutOf(chunks: seq<seq<byte>>, wire: seq<byte>)
  {
    Concat(chunks) == wire && forall i :: 0 <= i < |chunks| ==> 0 < |chunks[i]| <= SCRATCH
  }

  ghost predicate FirstClose(frames: seq<WsFrame>, k: nat)
    requires k < |frames|
  {
    frames[k].opcode == OP_CLOSE && !Closes(frames[..k])
  }

  /** Nothing behind the first CLOSE carries payload or is malformed. */
  ghost predicate SilentAfterClose(p: FrameParser, wire: seq<byte>)
    requires Stable(p)
  {
    var r := Scan(p, (), wire);
    forall k :: 0 <= k < |r.items| && FirstClose(r.items, k) ==> Payload(r.items[k + 1..]) == [] && r.failure.None?
  }

  /** Reading piecewise is a one-shot parse of what was read up to the stop. */
  lemma {:induction false} ReadChunksIsScan(p: FrameParser, chunks: seq<seq<byte>>) returns (m: nat)
    requires Stable(p)
    ensures m <= |chunks|
    ensures SameResult(ReadChunks(p, chunks), Scan(p, (), Concat(chunks[..m])))
    ensures m < |chunks| ==> Stopped(ReadChunks(p, chunks))
    ensures forall j :: 0 <= j < m ==> !Stopped(Scan(p, (), Concat(chunks[..j])))
  {
    if chunks == [] {
      m := 0;
    } else {
      var front, last := chunks[..|chunks| - 1], chunks[|chunks| - 1];
      m := ReadChunksIsScan(p, front);
      if Stopped(ReadChunks(p, front)) {
        assert chunks[..m] == front[..m];
      } else {
        ScanAppend(p, (), Concat(front), last);
        assert Scan(p, (), Concat(front)).state == ();
        ConcatAppend(front, [last]);
        ConcatOne(last);
        assert front[..m] == front && front + [last] == chunks;
        m := |chunks|;
        assert chunks[..m] == chunks && chunks[..|front|] == front;
      }
      assert forall j :: 0 <= j < m && j <= |front| ==> chunks[..j] == front[..j];
    }
  }

  /** Whatever has been read of a wire, it is the start of what the whole wire says. */
  lemma PartialRead(p: FrameParser, wire: seq<byte>, chunks: seq<seq<byte>>)
    requires Stable(p) && Concat(chunks) <= wire
    ensures var part, whole := ReadChunks(p, chunks), Scan(p, (), wire);
            && part.items <= whole.items
            && (part.failure.Some? ==> part.items == whole.items && part.failure == whole.failure)
            && (!Stopped(part) && Concat(chunks) == wire ==> part.items == whole.items && part.failure == whole.failure)
  {
    hide Scan, ReadChunks, Concat, Closes;
    var m := ReadChunksIsScan(p, chunks);
    var seen := Concat(chunks[..m]);
    ConcatAppend(chunks[..m], chunks[m..]);
    assert chunks[..m] + chunks[m..] == chunks;
    ScanAppend(p, (), seen, wire[|seen|..]);
    assert seen + wire[|seen|..] == wire;
    if !Stopped(ReadChunks(p, chunks)) {
      assert chunks[..m] == chunks;
    }
  }

  lemma CloseSplits(frames: seq<WsFrame>) returns (k: nat)
    requires Closes(frames)
    ensures k < |frames| && FirstClose(frames, k)
    ensures Payload(frames) == Payload(frames[..k]) + Payload(frames[k + 1..])
  {
    k := 0;
    while frames[k].opcode != OP_CLOSE
      invariant k < |frames|
      invariant forall i :: 0 <= i < k ==> frames[i].opcode != OP_CLOSE
      decreases |frames| - k
    {
      k := k + 1;
    }
    PayloadAppend(frames[..k], frames[k..]);
    assert frames == frames[..k] + frames[k..];
    assert frames[k..][1..] == frames[k + 1..];
  }

  lemma FirstCloseInPrefix(xs: seq<WsFrame>, ys: seq<WsFrame>, k: nat)
    requires xs <= ys && k < |xs| && FirstClose(xs, k)
    ensures FirstClose(ys, k)
    ensures forall all :: 0 <= all < |ys| && FirstClose(ys, all) ==> all == k
  {
    assert xs[..k] == ys[..k];
  }

  /** Two readings of the same frames agree on the bytes when the longer adds nothing behind the CLOSE. */
  lemma SilentTail(xs: seq<WsFrame>, ys: seq<WsFrame>)
    requires xs <= ys && Closes(xs)
    requires forall k :: 0 <= k < |ys| && FirstClose(ys, k) ==> Payload(ys[k + 1..]) == []
    ensures Payload(xs) == Payload(ys)
    ensures Closes(ys)
  {
    var k := CloseSplits(xs);
    FirstCloseInPrefix(xs, ys, k);
    var all := CloseSplits(ys);
    PayloadPrefix(xs[k + 1..], ys[k + 1..]);
    assert xs[..k] == ys[..k];
  }

  /** Quiet behind the CLOSE is enough for every cut to agree with the one-shot parse. */
  lemma SilenceSuffices(p: FrameParser, wire: seq<byte>, chunks: seq<seq<byte>>)
    requires Stable(p) && SilentAfterClose(p, wire) && Concat(chunks) <= wire
    requires Concat(chunks) == wire || Stopped(ReadChunks(p, chunks))
    ensures SameVerdict(ReadChunks(p, chunks), Scan(p, (), wire))
  {
    PartialRead(p, wire, chunks);
    var part, whole := ReadChunks(p, chunks), Scan(p, (), wire);
    if part.failure.None? && Closes(part.items) {
      SilentTail(part.items, whole.items);
      var k := CloseSplits(whole.items);
      assert FirstClose(whole.items, k);
    }
  }

  /** An item is taken as soon as its last byte is there. */
  ghost predicate Tight(p: FrameParser)
  {
    forall b: seq<byte> :: p((), b).Item? && p((), b).used <= |b| ==> p((), b[..p((), b).used]) == p((), b)
  }

  /** Some prefix of the wire ends exactly behind its first `k` frames. */
  lemma {:induction false} CutBehind(p: FrameParser, b: seq<byte>, k: nat) returns (n: nat)
    requires Stable(p) && Tight(p)
    requires k <= |Scan(p, (), b).items| && p((), []) == More
    ensures n <= |b|
    ensures Scan(p, (), b[..n]) == Outcome(Scan(p, (), b).items[..k], (), [], None)
    decreases k
  {
    hide Stable, Tight, Scan;
    if k == 0 {
      n := 0;
      ScanNothing(p);
      assert b[..0] == [] && Scan(p, (), b).items[..0] == [];
    } else {
      var used := ScanOne(p, b, []);
      var more := CutBehind(p, b[used..], k - 1);
      n := used + more;
      used := ScanOne(p, b, b[used..][..more]);
      assert b[..n] == b[..used] + b[used..][..more];
      assert [p((), b).item] + Scan(p, (), b[used..]).items[..k - 1] == Scan(p, (), b).items[..k];
    }
  }

  lemma ScanNothing(p: FrameParser)
    requires Stable(p) && p((), []) == More
    ensures Scan(p, (), []) == Outcome([], (), [], None)
  {
  }

  /** The first frame of a wire, followed by anything, is read as on that wire. */
  lemma ScanOne(p: FrameParser, b: seq<byte>, c: seq<byte>) returns (used: nat)
    requires Stable(p) && Tight(p) && Scan(p, (), b).items != []
    ensures p((), b).Item? && used == p((), b).used && 0 < used <= |b|
    ensures Scan(p, (), b) == Prepend([p((), b).item], Scan(p, (), b[used..]))
    ensures Scan(p, (), b[..used] + c) == Prepend([p((), b).item], Scan(p, (), c))
  {
    assert StableAt(p, (), b, []);
    used := p((), b).used;
    assert p((), b).next == ();
    var t := b[..used];
    assert StableAt(p, (), t, c);
    assert (t + c)[used..] == c;
  }

  function Singles(wire: seq<byte>): (r: seq<seq<byte>>)
    ensures |r| == |wire|
  {
    seq(|wire|, i requires 0 <= i < |wire| => [wire[i]])
  }

  lemma {:induction false} SinglesConcat(wire: seq<byte>, m: nat)
    requires m <= |wire|
    ensures Concat(Singles(wire)[..m]) == wire[..m]
  {
    if m > 0 {
      SinglesConcat(wire, m - 1);
      assert Singles(wire)[..m] == Singles(wire)[..m - 1] + [[wire[m - 1]]];
      ConcatAppend(Singles(wire)[..m - 1], [[wire[m - 1]]]);
      ConcatOne([wire[m - 1]]);
    }
  }

  lemma OnlyLastCloses(upto: seq<WsFrame>, part: seq<WsFrame>)
    requires upto != [] && FirstClose(upto, |upto| - 1) && part <= upto && Closes(part)
    ensures part == upto
  {
    var c :| 0 <= c < |part| && part[c].opcode == OP_CLOSE;
    assert c >= |upto| - 1;
  }

  /** Byte by byte, the reader goes exactly as far as the first prefix that stops it. */
  lemma ReadSingles(p: FrameParser, wire: seq<byte>) returns (m: nat)
    requires Stable(p)
    ensures m <= |wire| && SameResult(ReadChunks(p, Singles(wire)), Scan(p, (), wire[..m]))
    ensures m < |wire| ==> Stopped(Scan(p, (), wire[..m]))
    ensures forall j :: 0 <= j < m ==> !Stopped(Scan(p, (), wire[..j]))
  {
    hide Scan, ReadChunks, Concat, Singles, Closes;
    m := ReadChunksIsScan(p, Singles(wire));
    forall j | 0 <= j <= |wire|
      ensures Concat(Singles(wire)[..j]) == wire[..j]
    {
      SinglesConcat(wire, j);
    }
  }

  /** Reading byte by byte, the reader stops with the CLOSE as its last frame. */
  lemma StopsAtClose(p: FrameParser, wire: seq<byte>, k: nat)
    requires Stable(p) && Tight(p) && p((), []) == More
    requires k < |Scan(p, (), wire).items| && FirstClose(Scan(p, (), wire).items, k)
    ensures ReadChunks(p, Singles(wire)).items == Scan(p, (), wire).items[..k + 1]
    ensures ReadChunks(p, Singles(wire)).failure.None?
  {
    hide Scan, ReadChunks, Singles, Tight;
    var upto := Scan(p, (), wire).items[..k + 1];
    assert FirstClose(upto, k) by {
      assert upto[..k] == Scan(p, (), wire).items[..k];
    }
    var n := CutBehind(p, wire, k + 1);
    var m := ReadSingles(p, wire);
    assert Closes(upto);
    assert m <= n;
    ScanPrefix(p, (), wire[..m], wire[m..n]);
    assert wire[..m] + wire[m..n] == wire[..n];
    assert Closes(Scan(p, (), wire[..m]).items) by {
      if m == |wire| {
        assert wire[..m] == wire[..n];
      }
    }
    OnlyLastCloses(upto, Scan(p, (), wire[..m]).items);
  }

  /** A wire that says something after its CLOSE is heard differently byte by byte. */
  lemma SilenceNeeded(p: FrameParser, wire: seq<byte>)
    requires Stable(p) && Tight(p) && p((), []) == More
    requires !SilentAfterClose(p, wire)
    ensures CutOf(Singles(wire), wire)
    ensures !SameVerdict(ReadChunks(p, Singles(wire)), Scan(p, (), wire))
  {
    hide Scan, ReadChunks, Tight, Payload;
    var items := Scan(p, (), wire).items;
    SinglesConcat(wire, |wire|);
    assert Singles(wire)[..|wire|] == Singles(wire) && wire[..|wire|] == wire;
    assert CutOf(Singles(wire), wire);
    var k :| 0 <= k < |items| && FirstClose(items, k) &&
             !(Payload(items[k + 1..]) == [] && Scan(p, (), wire).failure.None?);
    StopsAtClose(p, wire, k);
    PayloadAppend(items[..k + 1], items[k + 1..]);
    assert items[..k + 1] + items[k + 1..] == items;
  }

  lemma ClientParseTight()
    ensures Tight(ClientParse) && ClientParse((), []) == More
  {
    forall b: seq<byte> | ClientParse((), b).Item?
      ensures ClientParse((), b[..ClientParse((), b).used]) == ClientParse((), b)
    {
      FrameIsTight(b);
    }
  }

  lemma FrameIsTight(b: seq<byte>)
    requires ClientParse((), b).Item?
    ensures ClientParse((), b[..ClientParse((), b).used]) == ClientParse((), b)
  {
    hide Masked, FromBigEndian;
    var used := ClientParse((), b).used;
    var start := LengthEnd(b[1] % 128);
    var t := b[..used];
    assert t + b[used..] == b;
    LengthOfExtends(t, b[used..]);
    assert t[start..start + 4] == b[start..start + 4];
    assert t[start + 4..used] == b[start + 4..used];
  }

  // ---- The same for the proxy's own parser ----

  /** A one-shot parse of everything a phone sent. */
  ghost function OneShot(wire: seq<byte>): Reading
  {
    ClientParseStable();
    Scan(ClientParse, (), wire)
  }

  /** The proxy's reading of the same bytes, socket read by socket read. */
  ghost function Piecewise(chunks: seq<seq<byte>>): Reading
  {
    ClientParseStable();
    ReadChunks(ClientParse, chunks)
  }

  ghost predicate Quiet(wire: seq<byte>)
  {
    ClientParseStable();
    SilentAfterClose(ClientParse, wire)
  }

  /**
   Reading is independent of chunking exactly when nothing behind the first CLOSE
   speaks, as section 5.5.1 of RFC 6455 demands of the peer.
   */
  lemma ChunkingIndependence(wire: seq<byte>)
    ensures (forall chunks :: CutOf(chunks, wire) ==> SameVerdict(Piecewise(chunks), OneShot(wire))) <==> Quiet(wire)
  {
    hide ClientParse, Scan, ReadChunks, CutOf, SameVerdict, SilentAfterClose;
    ClientParseStable();
    if Quiet(wire) {
      forall chunks | CutOf(chunks, wire)
        ensures SameVerdict(Piecewise(chunks), OneShot(wire))
      {
        CutIsWhole(chunks, wire);
        SilenceSuffices(ClientParse, wire, chunks);
      }
    } else {
      ClientParseTight();
      SilenceNeeded(ClientParse, wire);
      assert !SameVerdict(Piecewise(Singles(wire)), OneShot(wire));
    }
  }

  lemma CutIsWhole(chunks: seq<seq<byte>>, wire: seq<byte>)
    requires CutOf(chunks, wire)
    ensures Concat(chunks) == wire
  {
  }

  lemma NothingBehindLast(frames: seq<WsFrame>, k: nat)
    requires forall i :: 0 <= i < |frames| - 1 ==> frames[i].opcode != OP_CLOSE
    requires k < |frames| && frames[k].opcode == OP_CLOSE
    ensures Payload(frames[k + 1..]) == []
  {
    assert frames[k + 1..] == [];
  }

  /** A phone that sends nothing after its CLOSE meets that condition. */
  lemma CloseLastIsSilent(fs: seq<PhoneFrame>)
    requires forall i :: 0 <= i < |fs| ==> Legal(fs[i])
    requires forall i :: 0 <= i < |fs| - 1 ==> fs[i].opcode != OP_CLOSE
    ensures Quiet(PhoneWire(fs))
    ensures Payload(OneShot(PhoneWire(fs)).items) == Payload(Unwrap(fs)) && OneShot(PhoneWire(fs)).failure.None?
  {
    ClientParseStable();
    hide ClientParse, Scan, PhoneWire, Payload, Legal;
    PhoneWireDecodes(fs);
    var items := Scan(ClientParse, (), PhoneWire(fs)).items;
    forall k | 0 <= k < |items| && FirstClose(items, k)
      ensures Payload(items[k + 1..]) == []
    {
      NothingBehindLast(items, k);
    }
  }
}
