/**
 The bridge link codec of src/noise.rs: mux frames sealed into length-prefixed
 Noise messages (sections 3 and 5.1 of the Noise Protocol Framework).  The cipher
 of one direction is a lawful pair of functions; framing and nonces are ours.
 */
module NoiseCodec {
  import opened Bytes
  import opened Wire
  import opened Incremental

  datatype Frame = Frame(id: nat, kind: nat, payload: seq<byte>)

  /** The widths of the frame's Rust type. */
  predicate Typed(f: Frame)
  {
    f.id < ID_SPACE && f.kind < 256
  }

  /** A finished handshake, one direction of it. */
  datatype Transport = Transport(seal: (nat, seq<byte>) -> seq<byte>, open: (nat, seq<byte>) -> Option<seq<byte>>)

  ghost predicate Lawful(t: Transport)
  {
    forall n: nat, p: seq<byte> :: |t.seal(n, p)| == |p| + TAG_LEN && t.open(n, t.seal(n, p)) == Some(p)
  }

  /** Plaintext of one frame; the length field holds the low 16 bits of the payload length. */
  function Plain(f: Frame): (r: seq<byte>)
    requires Typed(f)
    ensures |r| == FRAME_HEAD + |f.payload|
  {
    BigEndian(f.id, 4) + [f.kind] + BigEndian(|f.payload|, 2) + [0] + f.payload
  }

  /** How the read loop takes a plaintext apart; it never looks at the length field. */
  function Head(plain: seq<byte>): Option<Frame>
  {
    if |plain| < FRAME_HEAD then None
    else
      Widths();
      Some(Frame(FromBigEndian(plain[..4]), plain[4], plain[FRAME_HEAD..]))
  }

  lemma HeadPlain(f: Frame)
    requires Typed(f)
    ensures Head(Plain(f)) == Some(f)
  {
    Widths();
    BigEndianRoundTrip(f.id, 4);
    assert Plain(f)[..4] == BigEndian(f.id, 4);
    assert Plain(f)[FRAME_HEAD..] == f.payload;
  }

  /** A reader of its own for the header: every field at its place, and the length field is believed. */
  function StrictHead(plain: seq<byte>): Option<Frame>
  {
    if |plain| < 8 || plain[7] != 0 || |plain| != 8 + 0x100 * (plain[5] as int) + plain[6] then None
    else
      Some(Frame(0x100_0000 * (plain[0] as int) + 0x1_0000 * (plain[1] as int) + 0x100 * (plain[2] as int) + plain[3],
                 plain[4], plain[8..]))
  }

  /** Id, kind, length and the reserved zero byte lie where the frame header has them, most significant byte first. */
  lemma StrictHeadPlain(f: Frame)
    requires Typed(f) && |f.payload| < 0x1_0000
    ensures StrictHead(Plain(f)) == Some(f)
  {
    Widths();
    BigEndianRoundTrip(f.id, 4);
    BigEndianRoundTrip(|f.payload|, 2);
    FirstByteWeighsMost(BigEndian(f.id, 4));
    FirstByteWeighsMost(BigEndian(|f.payload|, 2));
    hide BigEndian, FromBigEndian;
    var plain := Plain(f);
    assert plain[..4] == BigEndian(f.id, 4) && plain[5..7] == BigEndian(|f.payload|, 2);
    assert plain[0] == plain[..4][0] && plain[1] == plain[..4][1] && plain[2] == plain[..4][2] && plain[3] == plain[..4][3];
    assert plain[5] == plain[5..7][0] && plain[6] == plain[5..7][1];
    assert plain[8..] == f.payload;
  }

  /** The read loop takes the id from where the strict reader does. */
  lemma HeadAgrees(plain: seq<byte>)
    requires StrictHead(plain).Some?
    ensures Head(plain) == StrictHead(plain)
  {
    FirstByteWeighsMost(plain[..4]);
  }

  function NextNonce(n: nat): nat
  {
    (n + 1) % NONCE_SPACE
  }

  function OpenMessage(t: Transport, nonce: nat, b: seq<byte>): Step<nat, seq<byte>>
  {
    if |b| < 2 then More
    else
      var len := FromBigEndian(b[..2]);
      if len < TAG_LEN then Fail("short noise message")
      else if |b| < 2 + len then More
      else
        match t.open(nonce, b[2..2 + len])
        case None => Fail("decrypt error")
        case Some(plain) => Item(NextNonce(nonce), plain, 2 + len)
  }

  /**
   Nothing is handed over that does not open under the expected nonce: a plaintext comes
   out exactly when a whole message is there, at least a tag long, and opens to it, and
   it uses exactly that message.
   */
  lemma OpensExactly(t: Transport, nonce: nat, b: seq<byte>, plain: seq<byte>)
    ensures (OpenMessage(t, nonce, b).Item? && OpenMessage(t, nonce, b).item == plain) <==>
            (exists sealed: seq<byte>, rest: seq<byte> :: IsMessage(b, sealed, rest) && t.open(nonce, sealed) == Some(plain))
    ensures OpenMessage(t, nonce, b).Fail? <==>
            (|b| >= 2 && 0x100 * (b[0] as int) + b[1] < 16) ||
            (exists sealed: seq<byte>, rest: seq<byte> :: IsMessage(b, sealed, rest) && t.open(nonce, sealed).None?)
    ensures OpenMessage(t, nonce, b).Item? ==>
              OpenMessage(t, nonce, b).used == 2 + 0x100 * (b[0] as int) + b[1] && OpenMessage(t, nonce, b).next == (nonce + 1) % NONCE_SPACE
  {
    if |b| >= 2 {
      FirstByteWeighsMost(b[..2]);
      var len := FromBigEndian(b[..2]);
      hide FromBigEndian;
      assert len == 0x100 * (b[0] as int) + b[1];
      if len >= 16 && |b| >= 2 + len {
        MessageIs(b, len);
        assert IsMessage(b, b[2..2 + len], b[2 + len..]);
      } else {
        NoMessage(b);
      }
    }
  }

  /** `b` is one length-prefixed message of at least a tag, and what follows it. */
  predicate IsMessage(b: seq<byte>, sealed: seq<byte>, rest: seq<byte>)
  {
    |sealed| >= 16 && |b| >= 2 && |sealed| == 0x100 * (b[0] as int) + b[1] && b[2..] == sealed + rest
  }

  lemma MessageIs(b: seq<byte>, len: nat)
    requires |b| >= 2 + len && len == 0x100 * (b[0] as int) + b[1] && len >= 16
    ensures IsMessage(b, b[2..2 + len], b[2 + len..])
    ensures forall sealed, rest :: IsMessage(b, sealed, rest) ==> sealed == b[2..2 + len]
  {
    assert b[2..] == b[2..2 + len] + b[2 + len..];
    forall sealed, rest | IsMessage(b, sealed, rest)
      ensures sealed == b[2..2 + len]
    {
      assert (sealed + rest)[..len] == sealed && b[2..][..len] == b[2..2 + len];
    }
  }

  lemma NoMessage(b: seq<byte>)
    requires |b| >= 2 && (0x100 * (b[0] as int) + b[1] < 16 || |b| < 2 + 0x100 * (b[0] as int) + b[1])
    ensures forall sealed, rest :: !IsMessage(b, sealed, rest)
  {
    forall sealed, rest
      ensures !IsMessage(b, sealed, rest)
    {
      assert b[2..] == sealed + rest ==> |b| - 2 == |sealed| + |rest|;
    }
  }

  function Opener(t: Transport): Parser<nat, seq<byte>>
  {
    (nonce: nat, b: seq<byte>) => OpenMessage(t, nonce, b)
  }

  predicate Fits(plain: seq<byte>)
  {
    |plain| + TAG_LEN <= MAX_NOISE_MSG
  }

  function SealMessage(t: Transport, nonce: nat, plain: seq<byte>): seq<byte>
  {
    BigEndian(|plain| + TAG_LEN, 2) + t.seal(nonce, plain)
  }

  function Sealer(t: Transport): Printer<nat, seq<byte>>
  {
    Printer((n: nat, p: seq<byte>) => SealMessage(t, n, p), (n: nat, p: seq<byte>) => NextNonce(n), Fits)
  }

  lemma OpenerStable(t: Transport)
    ensures Stable(Opener(t))
  {
    forall n: nat, b: seq<byte>, c: seq<byte>
      ensures StableAt(Opener(t), n, b, c)
    {
      if |b| >= 2 {
        var len := FromBigEndian(b[..2]);
        assert (b + c)[..2] == b[..2];
        if |b| >= 2 + len {
          assert (b + c)[2..2 + len] == b[2..2 + len];
        }
      }
    }
  }

  lemma SealerInverts(t: Transport)
    requires Lawful(t)
    ensures Inverts(Opener(t), Sealer(t))
  {
    forall n: nat, p: seq<byte>, c: seq<byte> | Fits(p)
      ensures InvertsAt(Opener(t), Sealer(t), n, p, c)
    {
      Widths();
      var b := SealMessage(t, n, p) + c;
      BigEndianRoundTrip(|p| + TAG_LEN, 2);
      assert b[..2] == BigEndian(|p| + TAG_LEN, 2);
      assert b[2..2 + |p| + TAG_LEN] == t.seal(n, p);
    }
  }

  /** Seals frames onto the link and owns the sending nonce. */
  class NoiseEncoder {
    const transport: Transport
    var nonce: nat
    var scratch: seq<byte>

    constructor (transport: Transport)
      ensures this.transport == transport && nonce == 0
    {
      this.transport, nonce, scratch := transport, 0, [];
    }

    /** One frame behind `dst`, or nothing at all when it would not fit a Noise message. */
    method Encode(frame: Frame, dst: seq<byte>) returns (ok: bool, out: seq<byte>)
      requires Typed(frame) && Lawful(transport)
      modifies this
      ensures ok <==> |frame.payload| <= MAX_NOISE_MSG - TAG_LEN - FRAME_HEAD
      ensures ok ==> out == dst + Sealer(transport).write(old(nonce), Plain(frame)) && nonce == NextNonce(old(nonce))
      ensures !ok ==> out == dst && nonce == old(nonce)
    {
      scratch := [];
      scratch := scratch + BigEndian(frame.id, 4);
      scratch := scratch + [frame.kind];
      scratch := scratch + BigEndian(|frame.payload|, 2);
      scratch := scratch + [0];
      scratch := scratch + frame.payload;
      assert scratch == Plain(frame);
      var sealed := |scratch| + TAG_LEN;
      if sealed > MAX_NOISE_MSG {
        return false, dst;
      }
      out := dst + BigEndian(sealed, 2);
      out := out + transport.seal(nonce, scratch);
      assert out == dst + SealMessage(transport, nonce, scratch);
      nonce := (nonce + 1) % NONCE_SPACE;
      return true, out;
    }
  }

  /** Opens frames arriving on the link and owns the receiving nonce. */
  class NoiseDecoder {
    const transport: Transport
    var nonce: nat

    constructor (transport: Transport)
      ensures this.transport == transport && nonce == 0
    {
      this.transport, nonce := transport, 0;
    }

    method Decode(src: seq<byte>) returns (r: Step<nat, seq<byte>>, left: seq<byte>)
      modifies this
      ensures r == OpenMessage(transport, old(nonce), src)
      ensures r.Item? ==> r.used <= |src| && left == src[r.used..] && nonce == r.next
      ensures !r.Item? ==> nonce == old(nonce)
      ensures r.More? ==> left == src
    {
      left := src;
      if |src| < 2 {
        return More, left;
      }
      var len := FromBigEndian(src[..2]);
      if len < TAG_LEN {
        return Fail("short noise message"), left;
      }
      if |src| < 2 + len {
        return More, left;
      }
      var sealed := src[2..2 + len];
      left := src[2 + len..];
      match transport.open(nonce, sealed) {
        case None => return Fail("decrypt error"), left;
        case Some(plain) =>
          nonce := (nonce + 1) % NONCE_SPACE;
          return Item(nonce, plain, 2 + len), left;
      }
    }
  }

  // ---- One direction of the link, from frames written to frames read ----

  function Plains(frames: seq<Frame>): (r: seq<seq<byte>>)
    requires forall i :: 0 <= i < |frames| ==> Typed(frames[i])
    ensures |r| == |frames|
    ensures forall i :: 0 <= i < |frames| ==> r[i] == Plain(frames[i])
  {
    seq(|frames|, i requires 0 <= i < |frames| => Plain(frames[i]))
  }

  /** What the read loop makes of a list of plaintexts. */
  function Heads(plains: seq<seq<byte>>): (r: seq<Option<Frame>>)
    ensures |r| == |plains|
  {
    seq(|plains|, i requires 0 <= i < |plains| => Head(plains[i]))
  }

  ghost predicate Sendable(frames: seq<Frame>)
  {
    forall i :: 0 <= i < |frames| ==> Typed(frames[i]) && Fits(Plain(frames[i]))
  }

  /** The bytes an encoder that starts at nonce `n` puts on the wire. */
  function LinkBytes(t: Transport, n: nat, frames: seq<Frame>): seq<byte>
    requires forall i :: 0 <= i < |frames| ==> Typed(frames[i])
  {
    WriteAll(Sealer(t), n, Plains(frames))
  }

  lemma {:induction false} NonceAfter(t: Transport, n: nat, items: seq<seq<byte>>)
    requires n < NONCE_SPACE
    ensures StateAfter(Sealer(t), n, items) == (n + |items|) % NONCE_SPACE
    decreases |items|
  {
    if items != [] {
      NonceAfter(t, NextNonce(n), items[1..]);
    }
  }

  lemma LinkScan(t: Transport, frames: seq<Frame>)
    requires Lawful(t) && Sendable(frames)
    ensures Stable(Opener(t))
    ensures Scan(Opener(t), 0, LinkBytes(t, 0, frames)) == Outcome(Plains(frames), |frames| % NONCE_SPACE, [], None)
  {
    OpenerStable(t);
    SealerInverts(t);
    NonceAfter(t, 0, Plains(frames));
    assert forall i :: 0 <= i < |frames| ==> Sealer(t).fits(Plains(frames)[i]);
    hide Lawful, Stable, Inverts, Scan, WriteAll, StateAfter, Opener, Sealer, Plain, Sendable;
    RoundTrip(Opener(t), Sealer(t), 0, Plains(frames));
  }

  /**
   Whatever pieces the socket hands over, the decoder yields exactly the frames
   written, in order, and ends with its nonce equal to the encoder's.
   */
  lemma LinkRoundTrip(t: Transport, frames: seq<Frame>, chunks: seq<seq<byte>>)
    requires Lawful(t) && Sendable(frames)
    requires Concat(chunks) == LinkBytes(t, 0, frames)
    ensures Stable(Opener(t))
    ensures var r := Feed(Opener(t), Scan(Opener(t), 0, []), chunks);
            && r.failure == None && r.rest == []
            && r.items == Plains(frames)
            && Heads(r.items) == seq(|frames|, i requires 0 <= i < |frames| => Some(frames[i]))
            && r.state == |frames| % NONCE_SPACE
  {
    hide Lawful, Stable, Scan, Feed, LinkBytes, Opener, Plain, Heads, Concat;
    LinkScan(t, frames);
    FeedIsScan(Opener(t), 0, [], chunks);
    assert [] + Concat(chunks) == Concat(chunks);
    HeadsOfPlains(frames);
  }

  lemma HeadsOfPlains(frames: seq<Frame>)
    requires forall i :: 0 <= i < |frames| ==> Typed(frames[i])
    ensures Heads(Plains(frames)) == seq(|frames|, i requires 0 <= i < |frames| => Some(frames[i]))
  {
    hide Head, Plain;
    forall i | 0 <= i < |frames|
      ensures Head(Plains(frames)[i]) == Some(frames[i])
    {
      HeadPlain(frames[i]);
    }
  }

  /** The decoder's nonce counts the messages it has opened. */
  lemma {:induction false} NonceCounts(t: Transport, n: nat, b: seq<byte>)
    requires n < NONCE_SPACE
    ensures Stable(Opener(t))
    ensures Scan(Opener(t), n, b).state == (n + |Scan(Opener(t), n, b).items|) % NONCE_SPACE
    decreases |b|
  {
    hide OpenMessage;
    OpenerStable(t);
    assert StableAt(Opener(t), n, b, []);
    var step := OpenMessage(t, n, b);
    if step.Item? {
      OpenAdvances(t, n, b);
      NonceCounts(t, step.next, b[step.used..]);
    }
  }

  lemma OpenAdvances(t: Transport, n: nat, b: seq<byte>)
    requires OpenMessage(t, n, b).Item?
    ensures OpenMessage(t, n, b).next == NextNonce(n)
  {
  }

  /**
   Having received any part of those bytes, it has read a prefix of the frames
   without error, and opened the k-th with the nonce that sealed the k-th.
   */
  lemma LinkPrefix(t: Transport, frames: seq<Frame>, chunks: seq<seq<byte>>)
    requires Lawful(t) && Sendable(frames)
    requires Concat(chunks) <= LinkBytes(t, 0, frames)
    ensures Stable(Opener(t))
    ensures var r := Feed(Opener(t), Scan(Opener(t), 0, []), chunks);
            && r.failure == None && |r.items| <= |frames|
            && r.state == StateAfter(Sealer(t), 0, Plains(frames)[..|r.items|])
            && (forall i :: 0 <= i < |r.items| ==> Head(r.items[i]) == Some(frames[i]))
  {
    hide Feed, Scan, WriteAll, StateAfter, OpenMessage, Concat, Head;
    OpenerStable(t);
    SealerInverts(t);
    FeedIsScan(Opener(t), 0, [], chunks);
    assert [] + Concat(chunks) == Concat(chunks);
    PartialRoundTrip(Opener(t), Sealer(t), 0, Plains(frames), Concat(chunks));
    var r := Feed(Opener(t), Scan(Opener(t), 0, []), chunks);
    NonceCounts(t, 0, Concat(chunks));
    NonceAfter(t, 0, Plains(frames)[..|r.items|]);
    forall i | 0 <= i < |r.items|
      ensures Head(r.items[i]) == Some(frames[i])
    {
      assert r.items[i] == Plains(frames)[i];
      HeadPlain(frames[i]);
    }
  }
}
