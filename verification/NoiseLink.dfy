/**
 One direction of a bridge link down to its bytes.  The system of two sessions joins
 them by FIFO queues of packets; here the queue is an encoder, a byte stream cut
 anywhere, and a decoder, and it is shown to be exactly such a queue.
 */
module NoiseLink {
  import opened Bytes
  import opened Wire
  import opened Incremental
  import opened NoiseCodec
  import opened MuxPair
  import opened MuxSessions
  import opened MuxSystem

  datatype Link = Link(
    enc: nat,                 // the encoder's nonce
    flying: seq<byte>,        // written, not yet read off the socket
    buffer: seq<byte>,        // read off the socket, not yet a whole message
    dec: nat,                 // the decoder's nonce
    written: seq<Packet>,
    taken: seq<Packet>,
    broken: bool)             // the decoder reported an error

  const IDLE := Link(0, [], [], 0, [], [], false)

  datatype LinkStep = Write(p: Packet) | Carry(n: nat) | Take

  predicate CanLink(l: Link, x: LinkStep)
  {
    match x
    case Write(p) => Carried(p)
    case Carry(n) => n <= |l.flying|
    case Take => !l.broken
  }

  function PlainOf(p: Packet): seq<byte>
    requires Carried(p)
  {
    Plain(ToFrame(p))
  }

  function StepLink(t: Transport, l: Link, x: LinkStep): Link
    requires CanLink(l, x)
  {
    match x
    case Write(p) =>
      l.(enc := NextNonce(l.enc), flying := l.flying + SealMessage(t, l.enc, PlainOf(p)), written := l.written + [p])
    case Carry(n) => l.(flying := l.flying[n..], buffer := l.buffer + l.flying[..n])
    case Take =>
      match OpenMessage(t, l.dec, l.buffer)
      case More => l
      case Fail(_) => l.(broken := true)
      case Item(next, plain, used) =>
        if Head(plain).None? || used > |l.buffer| then l.(broken := true)
        else l.(dec := next, buffer := l.buffer[used..], taken := l.taken + [ToPacket(Head(plain).value)])
  }

  predicate LinkRuns(t: Transport, l: Link, run: seq<LinkStep>)
    decreases |run|
  {
    run == [] || (CanLink(l, run[0]) && LinkRuns(t, StepLink(t, l, run[0]), run[1..]))
  }

  function LinkAfter(t: Transport, l: Link, run: seq<LinkStep>): Link
    requires LinkRuns(t, l, run)
    decreases |run|
  {
    if run == [] then l else LinkAfter(t, StepLink(t, l, run[0]), run[1..])
  }

  /** The sealed bytes of a queue of packets, from a given nonce on. */
  function QueueBytes(t: Transport, n: nat, queue: seq<Packet>): seq<byte>
    requires AllCarried(queue)
    decreases |queue|
  {
    if queue == [] then [] else SealMessage(t, n, PlainOf(queue[0])) + QueueBytes(t, NextNonce(n), queue[1..])
  }

  lemma NonceShift(n: nat, k: nat)
    requires n < NONCE_SPACE
    ensures NextNonce(n) < NONCE_SPACE
    ensures (NextNonce(n) + k) % NONCE_SPACE == (n + (k + 1)) % NONCE_SPACE
  {
    if n + 1 == NONCE_SPACE {
      assert n + (k + 1) == k + NONCE_SPACE;
    }
  }

  lemma NonceAdds(n: nat, k: nat)
    ensures NextNonce((n + k) % NONCE_SPACE) == (n + (k + 1)) % NONCE_SPACE
    ensures (n % NONCE_SPACE + k) % NONCE_SPACE == (n + k) % NONCE_SPACE
  {
  }

  lemma {:induction false} QueueGrows(t: Transport, n: nat, queue: seq<Packet>, p: Packet)
    requires AllCarried(queue) && Carried(p) && n < NONCE_SPACE
    ensures AllCarried(queue + [p])
    ensures QueueBytes(t, n, queue + [p]) ==
            QueueBytes(t, n, queue) + SealMessage(t, (n + |queue|) % NONCE_SPACE, PlainOf(p))
    decreases |queue|
  {
    hide SealMessage, PlainOf, Carried, NextNonce;
    if queue == [] {
      assert [p][1..] == [];
    } else {
      assert (queue + [p])[1..] == queue[1..] + [p];
      NonceShift(n, |queue[1..]|);
      QueueGrows(t, NextNonce(n), queue[1..], p);
      var head, more := SealMessage(t, n, PlainOf(queue[0])), SealMessage(t, (n + |queue|) % NONCE_SPACE, PlainOf(p));
      var middle := QueueBytes(t, NextNonce(n), queue[1..]);
      assert head + (middle + more) == (head + middle) + more;
    }
  }

  /** The packets between the two codecs. */
  function Between(l: Link): seq<Packet>
    requires |l.taken| <= |l.written|
  {
    l.written[|l.taken|..]
  }

  ghost predicate Faithful(t: Transport, l: Link)
  {
    && !l.broken && l.taken <= l.written && AllCarried(l.written) && l.dec < NONCE_SPACE
    && l.enc == (l.dec + |Between(l)|) % NONCE_SPACE
    && l.dec == |l.taken| % NONCE_SPACE
    && l.buffer + l.flying == QueueBytes(t, l.dec, Between(l))
  }

  /** A packet of a session comes out of the codec as it went in. */
  lemma PacketSurvives(p: Packet)
    requires Carried(p)
    ensures Fits(PlainOf(p)) && Head(PlainOf(p)) == Some(ToFrame(p)) && ToPacket(ToFrame(p)) == p
  {
    HeadPlain(ToFrame(p));
    PacketRoundTrip(p);
  }

  /** The decoder, shown the front of the sealed queue, opens its first packet or waits. */
  lemma OpensFirst(t: Transport, n: nat, queue: seq<Packet>, buffer: seq<byte>, flying: seq<byte>)
    requires Lawful(t) && AllCarried(queue) && buffer + flying == QueueBytes(t, n, queue)
    ensures match OpenMessage(t, n, buffer)
            case More => true
            case Fail(_) => false
            case Item(next, plain, used) =>
              && queue != [] && plain == PlainOf(queue[0]) && next == NextNonce(n) && used <= |buffer|
              && buffer[used..] + flying == QueueBytes(t, NextNonce(n), queue[1..])
    ensures queue != [] && flying == [] ==> OpenMessage(t, n, buffer).Item?
  {
    hide OpenMessage, Plain, ToFrame;
    OpenerStable(t);
    assert StableAt(Opener(t), n, buffer, flying);
    if queue == [] {
      assert buffer == [];
      EmptyWaits(t, n);
    } else {
      var head, tail := SealMessage(t, n, PlainOf(queue[0])), QueueBytes(t, NextNonce(n), queue[1..]);
      SealerInverts(t);
      assert Carried(queue[0]);
      PacketSurvives(queue[0]);
      assert InvertsAt(Opener(t), Sealer(t), n, PlainOf(queue[0]), tail);
      assert Opener(t)(n, head + tail) == OpenMessage(t, n, head + tail);
      if OpenMessage(t, n, buffer).Item? {
        Split(buffer, flying, head, tail);
      }
      if flying == [] {
        assert buffer + flying == buffer;
      }
    }
  }

  lemma EmptyWaits(t: Transport, n: nat)
    ensures OpenMessage(t, n, []).More?
  {
  }

  lemma Split(a: seq<byte>, b: seq<byte>, head: seq<byte>, tail: seq<byte>)
    requires a + b == head + tail && |head| <= |a|
    ensures a[|head|..] + b == tail
  {
    assert (a + b)[|head|..] == a[|head|..] + b;
    assert (head + tail)[|head|..] == tail;
  }

  lemma WriteKeepsFaith(t: Transport, l: Link, p: Packet)
    requires Faithful(t, l) && Carried(p)
    ensures Faithful(t, StepLink(t, l, Write(p)))
  {
    hide OpenMessage, SealMessage, QueueBytes, Carried, PlainOf, NextNonce;
    QueueGrows(t, l.dec, Between(l), p);
    NonceAdds(l.dec, |Between(l)|);
    var m := StepLink(t, l, Write(p));
    assert Between(m) == Between(l) + [p];
    var more := SealMessage(t, l.enc, PlainOf(p));
    assert l.buffer + (l.flying + more) == (l.buffer + l.flying) + more;
  }

  lemma TakeKeepsFaith(t: Transport, l: Link)
    requires Lawful(t) && Faithful(t, l)
    ensures Faithful(t, StepLink(t, l, Take))
  {
    hide OpenMessage, SealMessage, QueueBytes, Head, ToPacket, Carried, PlainOf, NextNonce;
    OpensFirst(t, l.dec, Between(l), l.buffer, l.flying);
    if OpenMessage(t, l.dec, l.buffer).Item? {
      NonceShift(l.dec, |Between(l)| - 1);
      NonceAdds(|l.taken|, 0);
      PacketSurvives(Between(l)[0]);
      var m := StepLink(t, l, Take);
      assert m.taken == l.taken + [Between(l)[0]];
      assert Between(m) == Between(l)[1..];
    }
  }

  lemma StepKeepsFaith(t: Transport, l: Link, x: LinkStep)
    requires Lawful(t) && Faithful(t, l) && CanLink(l, x)
    ensures Faithful(t, StepLink(t, l, x))
  {
    hide OpenMessage, SealMessage, QueueBytes, Carried;
    match x
    case Write(p) => WriteKeepsFaith(t, l, p);
    case Carry(n) => assert (l.buffer + l.flying[..n]) + l.flying[n..] == l.buffer + l.flying;
    case Take => TakeKeepsFaith(t, l);
  }

  lemma {:induction false} RunKeepsFaith(t: Transport, l: Link, run: seq<LinkStep>)
    requires Lawful(t) && Faithful(t, l) && LinkRuns(t, l, run)
    ensures Faithful(t, LinkAfter(t, l, run))
    decreases |run|
  {
    hide StepLink, CanLink, Lawful, Faithful;
    if run != [] {
      StepKeepsFaith(t, l, run[0]);
      RunKeepsFaith(t, StepLink(t, l, run[0]), run[1..]);
    }
  }

  lemma IdleIsFaithful(t: Transport)
    ensures Faithful(t, IDLE)
  {
  }

  lemma FaithfulIsFifo(t: Transport, l: Link)
    requires Lawful(t) && Faithful(t, l)
    ensures l.dec == |l.taken| % NONCE_SPACE && l.enc == |l.written| % NONCE_SPACE
    ensures !l.broken && l.taken <= l.written
    ensures l.flying == [] && OpenMessage(t, l.dec, l.buffer).More? ==> l.taken == l.written
  {
    hide OpenMessage, QueueBytes, Carried, Lawful;
    OpensFirst(t, l.dec, Between(l), l.buffer, l.flying);
    NonceAdds(|l.taken|, |Between(l)|);
  }

  /**
   However the bytes are cut and scheduled, the decoder never errs and hands over the
   packets written, in order, the k-th opened with the nonce that sealed the k-th;
   and once all bytes have arrived, it is waiting only if it has handed over all.
   */
  lemma LinkIsFifo(t: Transport, run: seq<LinkStep>)
    requires Lawful(t) && LinkRuns(t, IDLE, run)
    ensures var e := LinkAfter(t, IDLE, run);
            && !e.broken && e.taken <= e.written
            && e.dec == |e.taken| % NONCE_SPACE && e.enc == |e.written| % NONCE_SPACE
            && (e.flying == [] && OpenMessage(t, e.dec, e.buffer).More? ==> e.taken == e.written)
  {
    hide OpenMessage, LinkRuns, LinkAfter, Faithful, Lawful;
    IdleIsFaithful(t);
    RunKeepsFaith(t, IDLE, run);
    FaithfulIsFifo(t, LinkAfter(t, IDLE, run));
  }
}
