/**
 The WebSocket frame formats of src/ws.rs: what the proxy accepts from a phone
 (sections 5.2 to 5.5 of RFC 6455) and what it sends back.
 */
module WsCodec {
  import opened Bytes
  import opened Incremental

  const MAX_FRAME := 1024 * 1024
  const MAX_CONTROL := 125
  const MAX_PONG_BACKLOG := 8 * 1024
  const MAX_SEND := 64 * 1024
  /** Size of the stack buffer one socket read fills. */
  const SCRATCH := 16 * 1024

  const OP_CONTINUATION := 0
  const OP_TEXT := 1
  const OP_BINARY := 2
  const OP_CLOSE := 8
  const OP_PING := 9
  const OP_PONG := 10

  datatype WsFrame = WsFrame(opcode: nat, payload: seq<byte>)

  predicate IsData(opcode: nat)
  {
    opcode == OP_CONTINUATION || opcode == OP_TEXT || opcode == OP_BINARY
  }

  predicate Known(opcode: nat)
  {
    IsData(opcode) || opcode == OP_CLOSE || opcode == OP_PING || opcode == OP_PONG
  }

  /** The six opcodes of section 5.2 of RFC 6455; the first three carry data, a continuation included. */
  lemma OpcodesOfTheStandard(opcode: nat)
    ensures Known(opcode) <==> opcode in {0, 1, 2, 8, 9, 10}
    ensures IsData(opcode) <==> opcode in {0, 1, 2}
    ensures opcode >= 8 && Known(opcode) && opcode != 9 && opcode != 10 ==> opcode == OP_CLOSE
    ensures Closes([WsFrame(8, [])]) && !Closes([WsFrame(9, []), WsFrame(10, []), WsFrame(2, [])])
    ensures ServerBytes(WsFrame(OP_CLOSE, [])) == [0x88, 0x00]
  {
    assert [WsFrame(8, [])][0].opcode == OP_CLOSE;
  }

  /** The byte stream carried by a list of frames: message boundaries mean nothing. */
  function Payload(frames: seq<WsFrame>): seq<byte>
  {
    if frames == [] then []
    else (if IsData(frames[0].opcode) then frames[0].payload else []) + Payload(frames[1..])
  }

  lemma {:induction false} PayloadAppend(xs: seq<WsFrame>, ys: seq<WsFrame>)
    ensures Payload(xs + ys) == Payload(xs) + Payload(ys)
  {
    if xs == [] {
      assert xs + ys == ys;
    } else {
      assert (xs + ys)[1..] == xs[1..] + ys;
      PayloadAppend(xs[1..], ys);
    }
  }

  lemma PayloadOne(f: WsFrame)
    ensures Payload([f]) == if IsData(f.opcode) then f.payload else []
  {
    assert [f][1..] == [];
  }

  lemma PayloadPrefix(xs: seq<WsFrame>, ys: seq<WsFrame>)
    requires xs <= ys
    ensures Payload(xs) <= Payload(ys)
  {
    PayloadAppend(xs, ys[|xs|..]);
    assert xs + ys[|xs|..] == ys;
  }

  ghost predicate Closes(frames: seq<WsFrame>)
  {
    exists i :: 0 <= i < |frames| && frames[i].opcode == OP_CLOSE
  }

  /** Each payload byte xor the mask byte at its index modulo four; its own inverse. */
  function Masked(mask: seq<byte>, s: seq<byte>): (r: seq<byte>)
    requires |mask| == 4
    ensures |r| == |s|
  {
    seq(|s|, i requires 0 <= i < |s| => Xor(s[i], mask[i % 4]))
  }

  lemma MaskedTwice(mask: seq<byte>, s: seq<byte>)
    requires |mask| == 4
    ensures Masked(mask, Masked(mask, s)) == s
  {
    forall i | 0 <= i < |s|
      ensures Masked(mask, Masked(mask, s))[i] == s[i]
    {
      XorInvolution(s[i], mask[i % 4]);
    }
  }

  /** The mask is used from its first byte on, and over again every four bytes. */
  lemma MaskOrder(mask: seq<byte>, s: seq<byte>, t: seq<byte>)
    requires |mask| == 4
    ensures Masked(mask, [0, 0, 0, 0]) == mask
    ensures |s| % 4 == 0 ==> Masked(mask, s + t) == Masked(mask, s) + Masked(mask, t)
  {
    hide Xor;
    forall i | 0 <= i < 4
      ensures Masked(mask, [0, 0, 0, 0])[i] == mask[i]
    {
      XorZero(mask[i]);
    }
    if |s| % 4 == 0 {
      MaskGoesOn(mask, s, t);
    }
  }

  lemma MaskGoesOn(mask: seq<byte>, s: seq<byte>, t: seq<byte>)
    requires |mask| == 4 && |s| % 4 == 0
    ensures Masked(mask, s + t) == Masked(mask, s) + Masked(mask, t)
  {
    hide Xor;
    var q := |s| / 4;
    forall i | 0 <= i < |s + t|
      ensures Masked(mask, s + t)[i] == (Masked(mask, s) + Masked(mask, t))[i]
    {
      if i >= |s| {
        assert i == 4 * q + (i - |s|) && i % 4 == (i - |s|) % 4;
      }
    }
  }

  /** Bit by bit, a masked byte is its payload byte exclusive-or the mask byte of its index modulo four. */
  lemma MaskedBits(mask: seq<byte>, s: seq<byte>, i: nat, bit: nat)
    requires |mask| == 4 && i < |s| && bit < 8
    ensures Bit(Masked(mask, s)[i], bit) == (Bit(s[i], bit) + Bit(mask[i % 4], bit)) % 2
  {
    XorIsBitwise(s[i], mask[i % 4], bit);
  }

  // ---- Phone to proxy ----

  /** Bytes of the frame head up to and including the extended length. */
  function LengthEnd(short: nat): nat
  {
    if short == 126 then 4 else if short == 127 then 10 else 2
  }

  function LengthOf(b: seq<byte>): nat
    requires |b| >= 2 && |b| >= LengthEnd(b[1] % 128)
  {
    var short := b[1] % 128;
    if short < 126 then short else FromBigEndian(b[2..LengthEnd(short)])
  }

  /** The decision `WsStream::decode` takes on its buffer, one frame at a time. */
  function ClientParse(u: (), b: seq<byte>): Step<(), WsFrame>
  {
    if |b| < 2 then More
    else
      var opcode, short := b[0] % 16, b[1] % 128;
      var start := LengthEnd(short);
      if opcode >= 8 && (b[0] < 128 || short > MAX_CONTROL) then Fail("oversized or fragmented control frame")
      else if |b| < start then More
      else if LengthOf(b) > MAX_FRAME then Fail("websocket frame is too large")
      else if b[1] < 128 then Fail("client frame is not masked")
      else
        var end := start + 4 + LengthOf(b);
        if |b| < end then More
        else if !Known(opcode) then Fail("unknown websocket opcode")
        else Item((), WsFrame(opcode, Masked(b[start..start + 4], b[start + 4..end])), end)
  }

  lemma ClientParseStable()
    ensures Stable(ClientParse)
  {
    forall u: (), b: seq<byte>, c: seq<byte>
      ensures StableAt(ClientParse, u, b, c)
    {
      ClientParseStableAt(u, b, c);
    }
  }

  lemma ClientParseStableAt(u: (), b: seq<byte>, c: seq<byte>)
    ensures StableAt(ClientParse, u, b, c)
  {
    hide Masked, FromBigEndian;
    if |b| >= 2 && |b| >= LengthEnd(b[1] % 128) {
      var start := LengthEnd(b[1] % 128);
      LengthOfExtends(b, c);
      var end := start + 4 + LengthOf(b);
      if |b| >= end {
        assert (b + c)[start..start + 4] == b[start..start + 4];
        assert (b + c)[start + 4..end] == b[start + 4..end];
      }
    }
  }

  lemma LengthOfExtends(b: seq<byte>, c: seq<byte>)
    requires |b| >= 2 && |b| >= LengthEnd(b[1] % 128)
    ensures LengthOf(b + c) == LengthOf(b)
  {
    var start := LengthEnd(b[1] % 128);
    assert (b + c)[2..start] == b[2..start];
  }

  /** A buffer that still waits for bytes is shorter than the longest legal frame. */
  lemma WaitingIsShort(b: seq<byte>)
    requires ClientParse((), b).More?
    ensures |b| < 14 + MAX_FRAME
  {
  }

  /** A frame as a phone may send it: any FIN and reserved bits, any mask. */
  datatype PhoneFrame = PhoneFrame(flags: nat, opcode: nat, mask: seq<byte>, payload: seq<byte>)

  /** What section 5 of RFC 6455 and the proxy's frame ceiling demand of a phone. */
  predicate Legal(f: PhoneFrame)
  {
    && f.flags < 16 && Known(f.opcode) && |f.mask| == 4 && |f.payload| <= 0x10_0000
    && (f.opcode >= 8 ==> f.flags >= 8 && |f.payload| <= 125)
  }

  /** The shortest length field that holds `n`. */
  function LengthField(n: nat): (r: seq<byte>)
    ensures |r| == if n < 126 then 1 else if n < 0x1_0000 then 3 else 9
    ensures r[0] < 128
  {
    if n < 126 then [n] else if n < 0x1_0000 then [126] + BigEndian(n, 2) else [127] + BigEndian(n, 8)
  }

  function PhoneBytes(f: PhoneFrame): seq<byte>
    requires Legal(f)
  {
    var length := LengthField(|f.payload|);
    [16 * f.flags + f.opcode] + [128 + length[0]] + length[1..] + f.mask + Masked(f.mask, f.payload)
  }

  function PhoneWire(fs: seq<PhoneFrame>): seq<byte>
    requires forall i :: 0 <= i < |fs| ==> Legal(fs[i])
  {
    if fs == [] then [] else PhoneBytes(fs[0]) + PhoneWire(fs[1..])
  }

  function Unwrap(fs: seq<PhoneFrame>): (r: seq<WsFrame>)
    ensures |r| == |fs|
  {
    seq(|fs|, i requires 0 <= i < |fs| => WsFrame(fs[i].opcode, fs[i].payload))
  }

  lemma LengthFieldDecodes(n: nat)
    requires n < Power256(8)
    ensures n >= 126 ==> FromBigEndian(LengthField(n)[1..]) == n
  {
    Widths();
    if 126 <= n {
      BigEndianRoundTrip(n, if n < 0x1_0000 then 2 else 8);
      assert LengthField(n)[1..] == BigEndian(n, if n < 0x1_0000 then 2 else 8);
    }
  }

  /** Where the pieces of a phone's frame lie, whatever follows it. */
  lemma PhoneFrameParts(f: PhoneFrame, c: seq<byte>)
    requires Legal(f)
    ensures var b, start := PhoneBytes(f) + c, 1 + |LengthField(|f.payload|)|;
            && |PhoneBytes(f)| == start + 4 + |f.payload|
            && b[0] == 16 * f.flags + f.opcode && b[1] >= 128 && LengthEnd(b[1] % 128) == start
            && (f.opcode >= 8 ==> b[1] % 128 == |f.payload|)
            && LengthOf(b) == |f.payload|
            && b[start..start + 4] == f.mask
            && b[start + 4..start + 4 + |f.payload|] == Masked(f.mask, f.payload)
  {
    Widths();
    var length, b := LengthField(|f.payload|), PhoneBytes(f) + c;
    LengthFieldDecodes(|f.payload|);
    assert b[1] % 128 == length[0];
    assert b[2..1 + |length|] == length[1..];
  }

  lemma PhoneFrameDecodes(f: PhoneFrame, c: seq<byte>)
    requires Legal(f)
    ensures ClientParse((), PhoneBytes(f) + c) == Item((), WsFrame(f.opcode, f.payload), |PhoneBytes(f)|)
  {
    PhoneFrameParts(f, c);
    MaskedTwice(f.mask, f.payload);
    hide PhoneBytes, LengthOf, LengthEnd, LengthField, Masked;
  }

  /** Whatever frames a phone chose, the proxy's decoder recovers exactly them. */
  lemma {:induction false} PhoneWireDecodes(fs: seq<PhoneFrame>)
    requires forall i :: 0 <= i < |fs| ==> Legal(fs[i])
    ensures Stable(ClientParse)
    ensures Scan(ClientParse, (), PhoneWire(fs)) == Outcome(Unwrap(fs), (), [], None)
  {
    ClientParseStable();
    if fs != [] {
      var head, tail := PhoneBytes(fs[0]), PhoneWire(fs[1..]);
      PhoneFrameDecodes(fs[0], tail);
      PhoneWireDecodes(fs[1..]);
      assert (head + tail)[|head|..] == tail;
      assert [WsFrame(fs[0].opcode, fs[0].payload)] + Unwrap(fs[1..]) == Unwrap(fs);
    }
  }

  // ---- What is accepted, and nothing else ----

  /** The three forms of the length field; a phone may use a longer one than it needs. */
  datatype Form = Short | Medium | Long

  predicate FormFits(n: nat, form: Form)
  {
    match form
    case Short => n < 126
    case Medium => n < 0x1_0000
    case Long => n < 0x1_0000_0000_0000_0000
  }

  function LengthIn(n: nat, form: Form): (r: seq<byte>)
    requires FormFits(n, form)
    ensures |r| == match form case Short => 1 case Medium => 3 case Long => 9
    ensures r[0] < 128
  {
    match form
    case Short => [n]
    case Medium => [126] + BigEndian(n, 2)
    case Long => [127] + BigEndian(n, 8)
  }

  /** A legal frame in a form its length fits; control frames have only the short one. */
  predicate LegalIn(f: PhoneFrame, form: Form)
  {
    Legal(f) && FormFits(|f.payload|, form) && (f.opcode >= 8 ==> form.Short?)
  }

  function BytesIn(f: PhoneFrame, form: Form): seq<byte>
    requires LegalIn(f, form)
  {
    var length := LengthIn(|f.payload|, form);
    [16 * f.flags + f.opcode] + [128 + length[0]] + length[1..] + f.mask + Masked(f.mask, f.payload)
  }

  lemma LengthInDecodes(n: nat, form: Form)
    requires FormFits(n, form)
    ensures !form.Short? ==> FromBigEndian(LengthIn(n, form)[1..]) == n
  {
    Widths();
    if !form.Short? {
      var k := if form.Medium? then 2 else 8;
      BigEndianRoundTrip(n, k);
      assert LengthIn(n, form)[1..] == BigEndian(n, k);
    }
  }

  lemma PartsIn(f: PhoneFrame, form: Form, c: seq<byte>)
    requires LegalIn(f, form)
    ensures var b, start := BytesIn(f, form) + c, 1 + |LengthIn(|f.payload|, form)|;
            && |BytesIn(f, form)| == start + 4 + |f.payload|
            && b[0] == 16 * f.flags + f.opcode && b[1] >= 128 && LengthEnd(b[1] % 128) == start
            && (f.opcode >= 8 ==> b[1] % 128 == |f.payload|)
            && LengthOf(b) == |f.payload|
            && b[start..start + 4] == f.mask
            && b[start + 4..start + 4 + |f.payload|] == Masked(f.mask, f.payload)
  {
    var length, b := LengthIn(|f.payload|, form), BytesIn(f, form) + c;
    LengthInDecodes(|f.payload|, form);
    assert b[1] % 128 == length[0];
    assert b[2..1 + |length|] == length[1..];
  }

  lemma AcceptsLegal(f: PhoneFrame, form: Form, c: seq<byte>)
    requires LegalIn(f, form)
    ensures ClientParse((), BytesIn(f, form) + c) == Item((), WsFrame(f.opcode, f.payload), |BytesIn(f, form)|)
  {
    PartsIn(f, form, c);
    MaskedTwice(f.mask, f.payload);
    hide BytesIn, LengthOf, LengthEnd, LengthIn, Masked;
  }

  /** The frame an accepted buffer starts with, and its form. */
  function FrameOf(b: seq<byte>): (PhoneFrame, Form)
    requires ClientParse((), b).Item?
  {
    var short := b[1] % 128;
    var start := LengthEnd(short);
    (PhoneFrame(b[0] / 16, b[0] % 16, b[start..start + 4], ClientParse((), b).item.payload),
     if short < 126 then Short else if short == 126 then Medium else Long)
  }

  lemma LengthOfIs(b: seq<byte>)
    requires |b| >= 2 && |b| >= LengthEnd(b[1] % 128)
    ensures var short := b[1] % 128;
            var form := if short < 126 then Short else if short == 126 then Medium else Long;
            && FormFits(LengthOf(b), form)
            && [short] + b[2..LengthEnd(short)] == LengthIn(LengthOf(b), form)
  {
    Widths();
    var short := b[1] % 128;
    if short >= 126 {
      FromBigEndianRoundTrip(b[2..LengthEnd(short)]);
    } else {
      assert b[2..2] == [];
    }
  }

  /** What acceptance says about the buffer, field by field. */
  lemma AcceptedFields(b: seq<byte>)
    requires ClientParse((), b).Item?
    ensures var (f, form) := FrameOf(b);
            var start, step := LengthEnd(b[1] % 128), ClientParse((), b);
            && step.used == start + 4 + LengthOf(b) <= |b| && LengthOf(b) <= MAX_FRAME
            && |f.payload| == LengthOf(b) && step.item == WsFrame(f.opcode, f.payload)
            && f.payload == Masked(f.mask, b[start + 4..step.used])
            && Known(f.opcode) && b[1] >= 128 && b[0] == 16 * f.flags + f.opcode
            && (f.opcode >= 8 ==> f.flags >= 8 && b[1] % 128 <= MAX_CONTROL)
  {
    hide Masked, FromBigEndian;
  }

  lemma AcceptedIsLegal(b: seq<byte>)
    requires ClientParse((), b).Item?
    ensures var (f, form) := FrameOf(b);
            && ClientParse((), b).used <= |b|
            && LegalIn(f, form) && BytesIn(f, form) == b[..ClientParse((), b).used]
            && ClientParse((), b).item == WsFrame(f.opcode, f.payload)
  {
    hide Masked, FromBigEndian;
    AcceptedFields(b);
    LengthOfIs(b);
    var (f, form) := FrameOf(b);
    var start, end := LengthEnd(b[1] % 128), ClientParse((), b).used;
    assert f.opcode >= 8 ==> form.Short? && |f.payload| <= MAX_CONTROL;
    hide LengthOf, LengthIn, FromBigEndian, Masked, ClientParse;
    MaskedTwice(f.mask, b[start + 4..end]);
    var length := LengthIn(|f.payload|, form);
    assert length == [b[1] % 128] + b[2..start];
    assert length[1..] == b[2..start];
    Reassembled(b, start, end);
  }

  lemma Reassembled(b: seq<byte>, start: nat, end: nat)
    requires 2 <= start && start + 4 <= end <= |b|
    ensures [b[0]] + [b[1]] + b[2..start] + b[start..start + 4] + b[start + 4..end] == b[..end]
  {
  }

  /** `b` starts with a legal frame. */
  ghost predicate StartsLegal(b: seq<byte>)
  {
    exists f, form :: LegalIn(f, form) && BytesIn(f, form) <= b
  }

  /**
   A buffer yields a frame exactly when it starts with a legal one: masked, of a known
   opcode, within the ceiling, and if it is a control frame then final and short.
   */
  lemma AcceptsExactly(b: seq<byte>)
    ensures ClientParse((), b).Item? <==> StartsLegal(b)
  {
    hide ClientParse, BytesIn, LegalIn;
    if ClientParse((), b).Item? {
      AcceptedIsLegal(b);
      var (f, form) := FrameOf(b);
      assert LegalIn(f, form) && BytesIn(f, form) <= b;
    }
    if StartsLegal(b) {
      var f, form :| LegalIn(f, form) && BytesIn(f, form) <= b;
      AcceptsLegal(f, form, b[|BytesIn(f, form)|..]);
      assert BytesIn(f, form) + b[|BytesIn(f, form)|..] == b;
    }
  }

  /** What is refused could not have become a legal frame, whatever bytes had followed. */
  lemma RefusesOnlyIllegal(b: seq<byte>, c: seq<byte>)
    requires ClientParse((), b).Fail?
    ensures !StartsLegal(b + c)
  {
    ClientParseStableAt((), b, c);
    AcceptsExactly(b + c);
  }

  /** Errors come early: from the two-byte head, from the length, and the last from the whole frame. */
  lemma RefusesEarly(b: seq<byte>)
    ensures |b| >= 2 && b[0] % 16 >= 8 && (b[0] < 128 || b[1] % 128 > 125) ==> ClientParse((), b).Fail?
    ensures |b| >= 2 && |b| >= LengthEnd(b[1] % 128) && (b[1] < 128 || LengthOf(b) > 0x10_0000) ==> ClientParse((), b).Fail?
    ensures |b| >= 14 + 0x10_0000 ==> !ClientParse((), b).More?
  {
  }

  /** The masked examples of section 5.7 of RFC 6455: a text of "Hello", and the pong with that body. */
  lemma MaskedExamples(opcode: nat)
    requires opcode == 1 || opcode == 10
    ensures ClientParse((), [128 + opcode, 0x85, 0x37, 0xfa, 0x21, 0x3d, 0x7f, 0x9f, 0x4d, 0x51, 0x58]) ==
            Item((), WsFrame(opcode, HELLO), 11)
  {
    hide ClientParse, Masked, Xor, BytesIn;
    HelloIsMasked();
    var f := PhoneFrame(8, opcode, HELLO_MASK, HELLO);
    AcceptsLegal(f, Short, []);
    ShortBytes(f);
    var wire: seq<byte> := [128 + opcode, 0x85, 0x37, 0xfa, 0x21, 0x3d, 0x7f, 0x9f, 0x4d, 0x51, 0x58];
    assert wire[2..6] == HELLO_MASK && wire[6..] == HELLO_MASKED;
    assert wire == [128 + opcode, 0x85] + wire[2..6] + wire[6..];
    assert BytesIn(f, Short) + [] == wire;
  }

  lemma ShortBytes(f: PhoneFrame)
    requires LegalIn(f, Short)
    ensures BytesIn(f, Short) == [16 * f.flags + f.opcode, 128 + |f.payload|] + f.mask + Masked(f.mask, f.payload)
  {
  }

  const HELLO_MASK: seq<byte> := [0x37, 0xfa, 0x21, 0x3d]
  const HELLO_MASKED: seq<byte> := [0x7f, 0x9f, 0x4d, 0x51, 0x58]

  lemma HelloIsMasked()
    ensures Masked(HELLO_MASK, HELLO) == HELLO_MASKED
  {
    XorExamples();
    hide Xor;
    assert Masked(HELLO_MASK, HELLO_MASKED) == HELLO;
    MaskedTwice(HELLO_MASK, HELLO_MASKED);
  }

  /** The unmasked examples of that section. */
  lemma UnmaskedExamples(s: seq<byte>)
    ensures ServerBytes(WsFrame(1, HELLO)) == [0x81, 0x05, 0x48, 0x65, 0x6c, 0x6c, 0x6f]
    ensures |s| == 256 ==> ServerBytes(WsFrame(2, s)) == [0x82, 0x7e, 0x01, 0x00] + s
    ensures |s| == 0x1_0000 ==> ServerBytes(WsFrame(2, s)) == [0x82, 0x7f, 0, 0, 0, 0, 0, 1, 0, 0] + s
  {
    Lengths();
    hide BigEndian;
  }

  lemma Lengths()
    ensures BigEndian(256, 2) == [1, 0] && BigEndian(0x1_0000, 8) == [0, 0, 0, 0, 0, 1, 0, 0]
  {
    assert BigEndian(1, 6) == [0, 0, 0, 0, 0, 1];
  }

  const HELLO: seq<byte> := [0x48, 0x65, 0x6c, 0x6c, 0x6f]

  lemma XorExamples()
    ensures Xor(0x7f, 0x37) == 0x48 && Xor(0x9f, 0xfa) == 0x65 && Xor(0x4d, 0x21) == 0x6c
    ensures Xor(0x51, 0x3d) == 0x6c && Xor(0x58, 0x37) == 0x6f
  {
  }

  // ---- Proxy to phone ----

  /** One unmasked, final server frame with the shortest length form. */
  function ServerBytes(f: WsFrame): seq<byte>
    requires f.opcode < 16
  {
    [128 + f.opcode] + LengthField(|f.payload|) + f.payload
  }

  /** A strict phone: final, unmasked, no reserved bits, shortest length form. */
  function ServerParse(u: (), b: seq<byte>): Step<(), WsFrame>
  {
    if |b| < 2 then More
    else if b[0] < 128 || b[0] >= 144 then Fail("fragmented or reserved")
    else if b[1] >= 128 then Fail("masked server frame")
    else
      var start := LengthEnd(b[1]);
      if |b| < start then More
      else if start != 1 + |LengthField(LengthOf(b))| then Fail("length not minimal")
      else if |b| < start + LengthOf(b) then More
      else Item((), WsFrame(b[0] - 128, b[start..start + LengthOf(b)]), start + LengthOf(b))
  }

  function ServerPrinter(): Printer<(), WsFrame>
  {
    Printer(
      (u: (), f: WsFrame) => if f.opcode < 16 then ServerBytes(f) else [],
      (u: (), f: WsFrame) => (),
      (f: WsFrame) => f.opcode < 16 && |f.payload| < Power256(8))
  }

  lemma ServerParseStable()
    ensures Stable(ServerParse)
  {
    forall u: (), b: seq<byte>, c: seq<byte>
      ensures StableAt(ServerParse, u, b, c)
    {
      ServerParseStableAt(u, b, c);
    }
  }

  lemma ServerParseStableAt(u: (), b: seq<byte>, c: seq<byte>)
    ensures StableAt(ServerParse, u, b, c)
  {
    hide FromBigEndian, LengthField;
    if |b| >= 2 && b[1] < 128 && |b| >= LengthEnd(b[1]) {
      var start := LengthEnd(b[1]);
      LengthOfExtends(b, c);
      if |b| >= start + LengthOf(b) {
        assert (b + c)[start..start + LengthOf(b)] == b[start..start + LengthOf(b)];
      }
    }
  }

  lemma ServerFramesInvert()
    ensures Inverts(ServerParse, ServerPrinter())
  {
    var e := ServerPrinter();
    forall u: (), f: WsFrame, c: seq<byte> | e.fits(f)
      ensures InvertsAt(ServerParse, e, u, f, c)
    {
      ServerFrameDecodes(f, c);
    }
  }

  lemma ServerFrameDecodes(f: WsFrame, c: seq<byte>)
    requires f.opcode < 16 && |f.payload| < Power256(8)
    ensures ServerParse((), ServerBytes(f) + c) == Item((), f, |ServerBytes(f)|)
  {
    Widths();
    var length, b := LengthField(|f.payload|), ServerBytes(f) + c;
    var start := 1 + |length|;
    LengthFieldDecodes(|f.payload|);
    assert b[1] == length[0];
    assert b[2..start] == length[1..];
    assert LengthOf(b) == |f.payload|;
    assert b[start..start + |f.payload|] == f.payload;
  }

  /** The bytes of a list of server frames. */
  function ServerWire(fs: seq<WsFrame>): seq<byte>
  {
    WriteAll(ServerPrinter(), (), fs)
  }

  lemma ServerWireAppend(fs: seq<WsFrame>, f: WsFrame)
    requires f.opcode < 16
    ensures ServerWire(fs + [f]) == ServerWire(fs) + ServerBytes(f)
  {
    var e := ServerPrinter();
    WriteAllAppend(e, (), fs, [f]);
    assert [f][1..] == [];
    assert WriteAll(e, (), [f]) == ServerBytes(f) + [];
  }

  ghost predicate Sendable(fs: seq<WsFrame>)
  {
    forall i :: 0 <= i < |fs| ==> ServerPrinter().fits(fs[i])
  }

  /** From any part of the proxy's output a phone decodes a prefix of its frames and no error. */
  lemma PhoneReadsPrefix(fs: seq<WsFrame>, sent: seq<byte>)
    requires Sendable(fs) && sent <= ServerWire(fs)
    ensures Stable(ServerParse)
    ensures Scan(ServerParse, (), sent).items <= fs
    ensures Scan(ServerParse, (), sent).failure.None?
    ensures Payload(Scan(ServerParse, (), sent).items) <= Payload(fs)
    ensures sent == ServerWire(fs) ==> Scan(ServerParse, (), sent).items == fs
  {
    ServerParseStable();
    ServerFramesInvert();
    PartialRoundTrip(ServerParse, ServerPrinter(), (), fs, sent);
    RoundTrip(ServerParse, ServerPrinter(), (), fs);
    PayloadPrefix(Scan(ServerParse, (), sent).items, fs);
  }
}
