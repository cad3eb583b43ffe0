/**
 How large an inbox must be: the frame size from which 1024 slots cover a window.
 */
module MuxInbox {
  import opened Bytes
  import opened Wire
  import opened MuxPair

  /** The next DATA frame for `b` would find its inbox full. */
  predicate WouldOverflow(s: Pair)
  {
    && s.ab != [] && s.ab[0].Data? && s.b.member && s.b.listening
    && |s.b.inbox| >= INBOX_FRAMES
  }

  /** That sender only ever sends DATA frames of at least `m` bytes. */
  predicate SendsAtLeast(opener: bool, run: seq<PairEvent>, m: nat)
  {
    forall i :: 0 <= i < |run| ==> BigEnough(opener, run[i], m)
  }

  predicate BigEnough(opener: bool, pe: PairEvent, m: nat)
  {
    pe.e.Reserve? && pe.AtA? == opener ==> |pe.e.chunk| >= m
  }

  predicate AllAtLeast(s: Pair, m: nat)
  {
    && (s.a.reserved != [] ==> |s.a.reserved| >= m)
    && DataAtLeast(s.ab, m)
    && ChunksAtLeast(s.b.inbox, m)
  }

  predicate DataAtLeast(link: seq<Msg>, m: nat)
  {
    forall i :: 0 <= i < |link| && link[i].Data? ==> |link[i].bytes| >= m
  }

  predicate ChunksAtLeast(chunks: seq<seq<byte>>, m: nat)
  {
    forall i :: 0 <= i < |chunks| ==> |chunks[i]| >= m
  }

  lemma AppendAtLeast(link: seq<Msg>, more: seq<Msg>, m: nat)
    requires DataAtLeast(link, m) && DataAtLeast(more, m)
    ensures DataAtLeast(link + more, m)
  {
  }

  lemma TailAtLeast(link: seq<Msg>, inbox: seq<seq<byte>>, m: nat)
    requires DataAtLeast(link, m) && ChunksAtLeast(inbox, m)
    ensures link != [] ==> DataAtLeast(link[1..], m)
    ensures link != [] && link[0].Data? ==> ChunksAtLeast(inbox + [link[0].bytes], m)
    ensures inbox != [] ==> ChunksAtLeast(inbox[1..], m)
    ensures DataAtLeast([], m) && ChunksAtLeast([], m)
  {
  }

  lemma {:induction false} RunKeepsSizes(opener: bool, s: Pair, run: seq<PairEvent>, m: nat)
    requires Runs(s, run) && SendsAtLeast(opener, run, m) && AllAtLeast(From(opener, s), m)
    ensures AllAtLeast(From(opener, After(s, run)), m)
    decreases |run|
  {
    if run != [] {
      StepKeepsSizes(opener, s, run[0], m);
      RunKeepsSizes(opener, Step(s, run[0]), run[1..], m);
    }
  }

  lemma StepKeepsSizes(opener: bool, s: Pair, pe: PairEvent, m: nat)
    requires Can(s, pe) && AllAtLeast(From(opener, s), m) && BigEnough(opener, pe, m)
    ensures AllAtLeast(From(opener, Step(s, pe)), m)
  {
    hide AllAtLeast, CanA, StepA;
    if pe.AtA? == opener {
      SenderKeepsSizes(From(opener, s), pe.e, m);
    } else {
      assert s.Swap().Swap() == s;
      ReaderKeepsSizes(From(!opener, s), pe.e, m);
    }
  }

  lemma SenderKeepsSizes(s: Pair, e: Event, m: nat)
    requires CanA(s, e) && AllAtLeast(s, m) && (e.Reserve? ==> |e.chunk| >= m)
    ensures AllAtLeast(StepA(s, e), m)
  {
    hide ChunksAtLeast;
    match e
    case LinkDies =>
    case Deliver(how) => AppendAtLeast(s.ab, Dispatch(s.a, s.ba[0], how).1, m);
    case _ => AppendAtLeast(s.ab, Emits(s.a, s.up, e), m);
  }

  lemma ReaderKeepsSizes(s: Pair, e: Event, m: nat)
    requires CanA(s, e) && AllAtLeast(s.Swap(), m)
    ensures AllAtLeast(StepA(s, e).Swap(), m)
  {
    hide DataAtLeast, ChunksAtLeast, Dispatch;
    TailAtLeast(s.ba, s.a.inbox, m);
    var t := StepA(s, e);
    match e
    case Deliver(how) => DispatchKeepsSizes(s.a, s.ba, how, m);
    case Recv => assert t.ba == s.ba;
    case Hangup => assert t.ba == s.ba;
    case LinkDies => assert t.a == s.a;
    case Insert =>
    case _ => assert t.ba == s.ba && t.a.inbox == s.a.inbox;
  }

  lemma DispatchKeepsSizes(h: Half, link: seq<Msg>, how: Welcome, m: nat)
    requires link != [] && DataAtLeast(link, m) && ChunksAtLeast(h.inbox, m)
    ensures ChunksAtLeast(Dispatch(h, link[0], how).0.inbox, m)
  {
  }

  lemma {:induction false} ConcatAtLeast(chunks: seq<seq<byte>>, m: nat)
    requires ChunksAtLeast(chunks, m)
    ensures |Concat(chunks)| >= m * |chunks|
  {
    if chunks != [] {
      ConcatAtLeast(chunks[1..], m);
      assert m * |chunks| == m + m * |chunks[1..]|;
    }
  }

  /** With frames of 256 bytes or more, a peer inside its credit never fills an inbox. */
  lemma InboxNeverFull(opener: bool, run: seq<PairEvent>, m: nat)
    requires Runs(START, run) && m >= 256 && SendsAtLeast(opener, run, m)
    ensures !WouldOverflow(From(opener, After(START, run)))
  {
    RunKeepsInv(START, run);
    RunKeepsSizes(opener, START, run, m);
    hide Runs, After, SendsAtLeast, Ordered, BytesKept;
    var s := From(opener, After(START, run));
    if WouldOverflow(s) {
      ConcatAtLeast(s.b.inbox, 256);
      LinkHead(s.ab);
      assert false;
    }
  }

  function Small(): (r: seq<byte>)
    ensures |r| == 255
  {
    seq(255, _ => 0)
  }

  function Copies(k: nat): seq<seq<byte>>
  {
    seq(k, _ => Small())
  }

  /** The stream after `k` small frames were sent and dispatched, none of them read. */
  function Piled(k: nat): Pair
    requires 255 * k <= WINDOW
  {
    Pair(FRESH.(credit := WINDOW - 255 * k, handed := Concat(Copies(k))), FRESH.(inbox := Copies(k)), [], [], true)
  }

  lemma OpenedRun() returns (run: seq<PairEvent>)
    ensures Runs(START, run) && After(START, run) == Pair(FRESH, FRESH, [], [], true)
    ensures forall opener :: SendsAtLeast(opener, run, WINDOW)
  {
    run := [];
    run := Extend(START, run, AtA(Insert));
    run := Extend(START, run, AtA(Announce));
    run := Extend(START, run, AtB(Deliver(Served)));
  }

  /** The same with one more small frame on the link. */
  function Pushed(k: nat): Pair
    requires 255 * (k + 1) <= WINDOW
  {
    Pair(FRESH.(credit := WINDOW - 255 * (k + 1), handed := Concat(Copies(k)) + Small()),
         FRESH.(inbox := Copies(k)), [Data(Small())], [], true)
  }

  /** `run` leads to `s`, as that sender sees it, with frames of 255 bytes and more. */
  ghost predicate LeadsTo(opener: bool, run: seq<PairEvent>, s: Pair)
  {
    Runs(START, run) && From(opener, After(START, run)) == s && SendsAtLeast(opener, run, 255)
  }

  lemma ExtendBy(opener: bool, run: seq<PairEvent>, s: Pair, side: bool, e: Event) returns (longer: seq<PairEvent>)
    requires LeadsTo(opener, run, s) && !e.Insert? && !e.Announce?
    requires CanA(From(side, s), e) && (side && e.Reserve? ==> |e.chunk| >= 255)
    ensures LeadsTo(opener, longer, From(side, StepA(From(side, s), e)))
  {
    hide Runs, After, CanA, StepA;
    assert s.Swap().Swap() == s;
    longer := Extend(START, run, By(side == opener, e));
  }

  lemma PushSmall(opener: bool, k: nat, run: seq<PairEvent>) returns (longer: seq<PairEvent>)
    requires 255 * (k + 1) <= WINDOW && LeadsTo(opener, run, Piled(k))
    ensures LeadsTo(opener, longer, Pushed(k))
  {
    hide LeadsTo, Concat;
    var paid := StepA(Piled(k), Reserve(Small()));
    longer := ExtendBy(opener, run, Piled(k), true, Reserve(Small()));
    longer := ExtendBy(opener, longer, paid, true, Enqueue);
    assert StepA(paid, Enqueue) == Pushed(k);
  }

  lemma SendSmall(opener: bool, k: nat, run: seq<PairEvent>) returns (longer: seq<PairEvent>)
    requires k < INBOX_FRAMES && LeadsTo(opener, run, Piled(k))
    ensures LeadsTo(opener, longer, Piled(k + 1))
  {
    hide LeadsTo, Concat;
    longer := PushSmall(opener, k, run);
    longer := ExtendBy(opener, longer, Pushed(k), false, Deliver(Refused));
    assert Copies(k + 1) == Copies(k) + [Small()];
    ConcatAppend(Copies(k), [Small()]);
    ConcatOne(Small());
    assert From(false, StepA(From(false, Pushed(k)), Deliver(Refused))) == Piled(k + 1);
  }

  lemma {:induction false} PiledRun(opener: bool, k: nat) returns (run: seq<PairEvent>)
    requires k <= INBOX_FRAMES
    ensures LeadsTo(opener, run, Piled(k))
  {
    if k == 0 {
      run := OpenedRun();
      assert SendsAtLeast(opener, run, WINDOW);
      assert Copies(0) == [];
    } else {
      run := PiledRun(opener, k - 1);
      run := SendSmall(opener, k - 1, run);
    }
  }

  /** Frames of 255 bytes, all inside the granted credit, can overflow an inbox. */
  lemma SmallFramesOverflow(opener: bool) returns (run: seq<PairEvent>)
    ensures Runs(START, run) && SendsAtLeast(opener, run, 255) && WouldOverflow(From(opener, After(START, run)))
  {
    hide Runs, After, Concat;
    run := PiledRun(opener, INBOX_FRAMES);
    run := PushSmall(opener, INBOX_FRAMES, run);
  }

  /** For either direction, 256 bytes is exactly the frame size for which 1024 slots cover a window. */
  lemma InboxSizing(opener: bool, m: nat)
    ensures m >= 256 <==>
      (forall run :: Runs(START, run) && SendsAtLeast(opener, run, m) ==> !WouldOverflow(From(opener, After(START, run))))
  {
    if m >= 256 {
      forall run | Runs(START, run) && SendsAtLeast(opener, run, m)
        ensures !WouldOverflow(From(opener, After(START, run)))
      {
        InboxNeverFull(opener, run, m);
      }
    } else {
      var run := SmallFramesOverflow(opener);
      assert SendsAtLeast(opener, run, m);
    }
  }
}
