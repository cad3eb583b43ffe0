/**
 Decoders that pull whole items off the front of a growing buffer.

 The WebSocket reader, the Noise reader and the phone's own WebSocket reader all
 have this shape: a step either asks for more bytes, or gives up, or takes one
 item.  When such a step never changes its mind as bytes are added behind what
 it has seen, how the wire was cut into reads cannot matter.
 */
module Incremental {
  import opened Bytes

  datatype Step<+S, +I> = More | Fail(why: string) | Item(next: S, item: I, used: nat)

  type Parser<!S, +I> = (S, seq<byte>) -> Step<S, I>

  /** On `b` followed by anything, the step decides as it did on `b` alone. */
  ghost predicate StableAt<S, I>(p: Parser<S, I>, s: S, b: seq<byte>, c: seq<byte>)
  {
    && (p(s, b).Item? ==> 0 < p(s, b).used <= |b|)
    && (!p(s, b).More? ==> p(s, b + c) == p(s, b))
  }

  ghost predicate Stable<S(!new), I>(p: Parser<S, I>)
  {
    forall s: S, b: seq<byte>, c: seq<byte> :: StableAt(p, s, b, c)
  }

  datatype Outcome<S, I> = Outcome(items: seq<I>, state: S, rest: seq<byte>, failure: Option<string>)

  function Prepend<S, I>(items: seq<I>, r: Outcome<S, I>): Outcome<S, I>
  {
    r.(items := items + r.items)
  }

  /** Everything that can be taken off `b` in one go. */
  ghost function Scan<S(!new), I>(p: Parser<S, I>, s: S, b: seq<byte>): Outcome<S, I>
    requires Stable(p)
    decreases |b|
  {
    assert StableAt(p, s, b, []);
    match p(s, b)
    case More => Outcome([], s, b, None)
    case Fail(why) => Outcome([], s, b, Some(why))
    case Item(next, item, used) => Prepend([item], Scan(p, next, b[used..]))
  }

  /** Bytes arriving later pick up exactly where the buffer left off. */
  lemma {:induction false} ScanAppend<S(!new), I>(p: Parser<S, I>, s: S, b: seq<byte>, c: seq<byte>)
    requires Stable(p)
    ensures var r := Scan(p, s, b);
            Scan(p, s, b + c) ==
              if r.failure.Some? then r.(rest := r.rest + c)
              else Prepend(r.items, Scan(p, r.state, r.rest + c))
    decreases |b|
  {
    assert StableAt(p, s, b, c);
    match p(s, b)
    case More =>
    case Fail(_) =>
    case Item(next, item, used) =>
      assert (b + c)[used..] == b[used..] + c;
      ScanAppend(p, next, b[used..], c);
  }

  /** What a decoder that keeps its leftover has produced after reading `chunks` one by one. */
  ghost function Feed<S(!new), I>(p: Parser<S, I>, r: Outcome<S, I>, chunks: seq<seq<byte>>): Outcome<S, I>
    requires Stable(p)
    decreases |chunks|
  {
    if chunks == [] || r.failure.Some? then r
    else Feed(p, Prepend(r.items, Scan(p, r.state, r.rest + chunks[0])), chunks[1..])
  }

  ghost predicate SameResult<S, I>(r: Outcome<S, I>, w: Outcome<S, I>)
  {
    && r.items == w.items && r.state == w.state && r.failure == w.failure
    && (r.failure.None? ==> r.rest == w.rest)
  }

  /** Any cut of the wire into reads gives the items and the verdict of a one-shot parse. */
  lemma {:induction false} FeedIsScan<S(!new), I>(p: Parser<S, I>, s: S, b: seq<byte>, chunks: seq<seq<byte>>)
    requires Stable(p)
    ensures SameResult(Feed(p, Scan(p, s, b), chunks), Scan(p, s, b + Concat(chunks)))
    decreases |chunks|
  {
    ScanAppend(p, s, b, Concat(chunks));
    if chunks == [] {
      assert b + Concat(chunks) == b;
    } else if Scan(p, s, b).failure.None? {
      ScanAppend(p, s, b, chunks[0]);
      FeedIsScan(p, s, b + chunks[0], chunks[1..]);
      assert b + chunks[0] + Concat(chunks[1..]) == b + Concat(chunks);
    }
  }

  /** A shorter wire yields a prefix of the items, and an early failure is final. */
  lemma ScanPrefix<S(!new), I>(p: Parser<S, I>, s: S, b: seq<byte>, c: seq<byte>)
    requires Stable(p)
    ensures Scan(p, s, b).items <= Scan(p, s, b + c).items
    ensures Scan(p, s, b).failure.Some? ==> Scan(p, s, b + c).failure == Scan(p, s, b).failure
    ensures Scan(p, s, b).failure.Some? ==> Scan(p, s, b + c).items == Scan(p, s, b).items
  {
    ScanAppend(p, s, b, c);
  }

  /** How one item is written in state `s`, and the state after it. */
  datatype Printer<!S, !I> = Printer(write: (S, I) -> seq<byte>, next: (S, I) -> S, fits: I -> bool)

  ghost predicate Inverts<S(!new), I(!new)>(p: Parser<S, I>, e: Printer<S, I>)
  {
    && (forall s: S, i: I, c: seq<byte> :: e.fits(i) ==> InvertsAt(p, e, s, i, c))
    && (forall s: S :: p(s, []) == More)
  }

  ghost predicate InvertsAt<S, I>(p: Parser<S, I>, e: Printer<S, I>, s: S, i: I, c: seq<byte>)
  {
    p(s, e.write(s, i) + c) == Item(e.next(s, i), i, |e.write(s, i)|)
  }

  function WriteAll<S, I>(e: Printer<S, I>, s: S, items: seq<I>): seq<byte>
    decreases |items|
  {
    if items == [] then [] else e.write(s, items[0]) + WriteAll(e, e.next(s, items[0]), items[1..])
  }

  function StateAfter<S, I>(e: Printer<S, I>, s: S, items: seq<I>): S
    decreases |items|
  {
    if items == [] then s else StateAfter(e, e.next(s, items[0]), items[1..])
  }

  lemma {:induction false} WriteAllAppend<S, I>(e: Printer<S, I>, s: S, xs: seq<I>, ys: seq<I>)
    ensures WriteAll(e, s, xs + ys) == WriteAll(e, s, xs) + WriteAll(e, StateAfter(e, s, xs), ys)
    ensures StateAfter(e, s, xs + ys) == StateAfter(e, StateAfter(e, s, xs), ys)
    decreases |xs|
  {
    if xs == [] {
      assert xs + ys == ys;
    } else {
      assert (xs + ys)[1..] == xs[1..] + ys;
      WriteAllAppend(e, e.next(s, xs[0]), xs[1..], ys);
    }
  }

  /** Reading back a printed list gives the list, in lockstep with the printer's state. */
  lemma {:induction false} RoundTrip<S(!new), I(!new)>(p: Parser<S, I>, e: Printer<S, I>, s: S, items: seq<I>)
    requires Stable(p) && Inverts(p, e)
    requires forall i :: 0 <= i < |items| ==> e.fits(items[i])
    ensures Scan(p, s, WriteAll(e, s, items)) == Outcome(items, StateAfter(e, s, items), [], None)
    decreases |items|
  {
    if items != [] {
      var next := e.next(s, items[0]);
      var head, tail := e.write(s, items[0]), WriteAll(e, next, items[1..]);
      assert InvertsAt(p, e, s, items[0], tail);
      assert StableAt(p, s, head + tail, []);
      RoundTrip(p, e, next, items[1..]);
      assert (head + tail)[|head|..] == tail;
      assert [items[0]] + items[1..] == items;
    }
  }

  /** A reader that has seen any part of a printed list has read a prefix of it, without error. */
  lemma PartialRoundTrip<S(!new), I(!new)>(p: Parser<S, I>, e: Printer<S, I>, s: S, items: seq<I>, seen: seq<byte>)
    requires Stable(p) && Inverts(p, e)
    requires forall i :: 0 <= i < |items| ==> e.fits(items[i])
    requires seen <= WriteAll(e, s, items)
    ensures Scan(p, s, seen).items <= items
    ensures Scan(p, s, seen).failure.None?
  {
    var all := WriteAll(e, s, items);
    RoundTrip(p, e, s, items);
    ScanPrefix(p, s, seen, all[|seen|..]);
    assert seen + all[|seen|..] == all;
  }
}
