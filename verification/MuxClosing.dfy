/**
 What can still happen behind a CLOSE.  Both ways of closing a stream locally leave a
 sender behind that may hold credit, hold a frame, or wait for credit: the uplink task
 of `serve_client` is detached, not stopped.
 */
module MuxClosing {
  import opened Bytes
  import opened Wire
  import opened MuxPair
  import opened MuxInbox

  /** This end puts a DATA frame into its outbox during the run. */
  predicate Speaks(opener: bool, run: seq<PairEvent>)
  {
    exists i :: 0 <= i < |run| && run[i] == By(opener, Enqueue)
  }

  /** `StreamTx::close`, or `close_stream` with room in the outbox. */
  predicate SaysClose(e: Event)
  {
    e == CloseTx || e == CloseStream(true)
  }

  /** Read off the half before the close: a frame already paid for, or credit behind a gate that stays open. */
  predicate MaySpeakAfter(h: Half, e: Event)
  {
    h.reserved != [] || (h.credit > 0 && h.gate && (e.CloseTx? || !h.member))
  }

  /** A half that has left the map with nothing in hand and nothing to take. */
  predicate Mute(h: Half)
  {
    h.met && !h.member && h.reserved == [] && (h.credit == 0 || !h.gate)
  }

  /** Nothing reaches a half that has left the map: no OPEN comes again. */
  lemma ClosedHearsNothing(opener: bool, s: Pair, pe: PairEvent)
    requires Ordered(s) && Can(s, pe)
    requires From(opener, s).a.met && !From(opener, s).a.member
    ensures pe.AtA? == opener && IsLocal(pe.e) ==>
              && CanLocal(From(opener, s).a, s.up, pe.e)
              && From(opener, Step(s, pe)).a == LocalStep(From(opener, s).a, s.up, pe.e)
    ensures !(pe.AtA? == opener && IsLocal(pe.e)) ==> From(opener, Step(s, pe)).a == From(opener, s).a
  {
    if pe.AtA? == opener && pe.e.Deliver? {
      assert !From(opener, s).ba[0].Open?;
    }
  }

  lemma MuteStaysMute(opener: bool, s: Pair, pe: PairEvent)
    requires Ordered(s) && Can(s, pe) && Mute(From(opener, s).a)
    ensures Mute(From(opener, Step(s, pe)).a) && pe != By(opener, Enqueue)
  {
    hide Ordered, Can, Step;
    ClosedHearsNothing(opener, s, pe);
  }

  lemma {:induction false} MuteSaysNothing(opener: bool, s: Pair, run: seq<PairEvent>)
    requires Ordered(s) && Runs(s, run) && Mute(From(opener, s).a)
    ensures !Speaks(opener, run)
    decreases |run|
  {
    hide Ordered, Can, Step, Mute;
    if run != [] {
      MuteStaysMute(opener, s, run[0]);
      StepKeepsOrder(s, run[0]);
      MuteSaysNothing(opener, Step(s, run[0]), run[1..]);
      forall i | 0 <= i < |run|
        ensures run[i] != By(opener, Enqueue)
      {
        assert i > 0 ==> run[i] == run[1..][i - 1];
      }
    }
  }

  /** The two steps that put a byte behind the CLOSE. */
  lemma SpeaksUp(opener: bool, s: Pair) returns (run: seq<PairEvent>)
    requires s.up
    requires var h := From(opener, s).a; h.reserved != [] || (h.tx && h.gate && h.credit > 0)
    ensures Runs(s, run) && Speaks(opener, run)
  {
    run := [];
    if From(opener, s).a.reserved == [] {
      run := Extend(s, run, By(opener, Reserve([0])));
    }
    run := Extend(s, run, By(opener, Enqueue));
    assert run[|run| - 1] == By(opener, Enqueue);
  }

  /** In some continuation this end puts DATA into its outbox. */
  ghost predicate MayStillSpeak(opener: bool, s: Pair)
  {
    exists run :: Runs(s, run) && Speaks(opener, run)
  }

  /**
   DATA can follow this end's own CLOSE exactly when, at the moment it closes, it holds
   a frame it has paid for, or it holds credit and the close leaves its gate open.
   */
  lemma DataBehindClose(opener: bool, s: Pair, e: Event)
    requires Ordered(s) && s.up && SaysClose(e) && Can(s, By(opener, e))
    ensures From(opener, Step(s, By(opener, e))).ab == From(opener, s).ab + [Close]
    ensures MayStillSpeak(opener, Step(s, By(opener, e))) <==> MaySpeakAfter(From(opener, s).a, e)
  {
    var n := Step(s, By(opener, e));
    StepKeepsOrder(s, By(opener, e));
    var h, was := From(opener, n).a, From(opener, s).a;
    assert n.up && h.met && h.tx && !h.member && h.credit == was.credit && h.reserved == was.reserved;
    assert h.gate == (was.gate && (e.CloseTx? || !was.member));
    hide Ordered, Can, Step, Runs, Speaks;
    if MaySpeakAfter(was, e) {
      var run := SpeaksUp(opener, n);
    } else {
      forall run | Runs(n, run)
        ensures !Speaks(opener, run)
      {
        MuteSaysNothing(opener, n, run);
      }
    }
  }

  /** From the start: an uplink that holds credit when its stream is closed still sends its frame. */
  lemma DataMayFollowClose(chunk: seq<byte>) returns (run: seq<PairEvent>)
    requires 0 < |chunk| <= MAX_PAYLOAD
    ensures Runs(START, run) && After(START, run).ab == [Open, Close, Data(chunk)]
  {
    run := [];
    run := Extend(START, run, AtA(Insert));
    run := Extend(START, run, AtA(Announce));
    run := Extend(START, run, AtA(Reserve(chunk)));
    run := Extend(START, run, AtA(CloseTx));
    run := Extend(START, run, AtA(Enqueue));
  }

  // ---- The sender that waits ----

  /** `acquire_many` for this frame neither succeeds nor fails. */
  predicate Parked(h: Half, chunk: seq<byte>)
  {
    h.gate && h.credit < |chunk|
  }

  lemma {:induction false} StaysParked(opener: bool, s: Pair, chunk: seq<byte>, run: seq<PairEvent>)
    requires Ordered(s) && Runs(s, run)
    requires From(opener, s).a.met && !From(opener, s).a.member && Parked(From(opener, s).a, chunk)
    ensures Parked(From(opener, After(s, run)).a, chunk)
    decreases |run|
  {
    hide Ordered, Can, Step;
    if run != [] {
      ClosedHearsNothing(opener, s, run[0]);
      StepKeepsOrder(s, run[0]);
      StaysParked(opener, Step(s, run[0]), chunk, run[1..]);
    }
  }

  /** Whatever happens from here on, on either end, that sender goes on waiting. */
  ghost predicate ParkedForever(opener: bool, s: Pair, chunk: seq<byte>)
  {
    forall run :: Runs(s, run) ==> Parked(From(opener, After(s, run)).a, chunk)
  }

  lemma ParkedNow(opener: bool, s: Pair, chunk: seq<byte>)
    requires ParkedForever(opener, s, chunk)
    ensures Parked(From(opener, s).a, chunk)
  {
    hide Parked;
    var nothing: seq<PairEvent> := [];
    assert Runs(s, nothing) && After(s, nothing) == s;
  }

  /**
   `StreamTx::close` wakes nobody: a sender of the stream waits for ever exactly when
   its credit does not cover its frame at the moment of the close and its gate has not
   been closed before.
   */
  lemma CloseWakesNobody(opener: bool, s: Pair, chunk: seq<byte>)
    requires Ordered(s) && Can(s, By(opener, CloseTx))
    ensures ParkedForever(opener, Step(s, By(opener, CloseTx)), chunk) <==> Parked(From(opener, s).a, chunk)
  {
    var n := Step(s, By(opener, CloseTx));
    StepKeepsOrder(s, By(opener, CloseTx));
    assert From(opener, n).a == From(opener, s).a.(member := false) && From(opener, n).a.met;
    hide Ordered, Can, Step, Runs, After;
    if Parked(From(opener, s).a, chunk) {
      forall run | Runs(n, run)
        ensures Parked(From(opener, After(n, run)).a, chunk)
      {
        StaysParked(opener, n, chunk, run);
      }
    } else if ParkedForever(opener, n, chunk) {
      ParkedNow(opener, n, chunk);
    }
  }

  /**
   Such a sender occurs: 1024 frames of 255 bytes lie unread at the far end, a frame of
   more than the 1024 bytes of credit left waits, and the stream is closed.
   */
  lemma SenderLeftWaiting(chunk: seq<byte>) returns (run: seq<PairEvent>)
    requires 1024 < |chunk| <= MAX_PAYLOAD
    ensures Runs(START, run) && ParkedForever(true, After(START, run), chunk)
  {
    hide Runs, After;
    run := PiledRun(true, INBOX_FRAMES);
    RunKeepsInv(START, run);
    CloseWakesNobody(true, After(START, run), chunk);
    run := Extend(START, run, AtA(CloseTx));
  }

  // ---- The gate, once shut ----

  /** What shuts a stream's gate: dropping the stream, tearing the link down, the peer's CLOSE, an overflow. */
  predicate Cuts(s: Pair, e: Event)
  {
    || e.CloseStream?
    || e.Teardown?
    || (e.Deliver? && s.ba != [] && s.ba[0].Close?)
    || (e.Deliver? && s.ba != [] && s.ba[0].Data? && s.a.listening && |s.a.inbox| >= 1024)
  }

  /** The open gate of a stream in the map is shut by these and by nothing else, at either end. */
  lemma GateShutsExactly(opener: bool, s: Pair, pe: PairEvent)
    requires Ordered(s) && Can(s, pe) && From(opener, s).a.member && From(opener, s).a.gate
    ensures !From(opener, Step(s, pe)).a.gate <==> (pe.AtA? == opener && Cuts(From(opener, s), pe.e))
    ensures !From(opener, Step(s, pe)).a.member <==> (pe.AtA? == opener && (Cuts(From(opener, s), pe.e) || pe.e.CloseTx?))
  {
    if pe.AtA? == opener {
      NoOpenComes(opener, s);
      hide Ordered;
      OwnStepShuts(From(opener, s), pe.e);
    } else {
      assert From(opener, Step(s, pe)).a == From(opener, s).a;
    }
  }

  lemma NoOpenComes(opener: bool, s: Pair)
    requires Ordered(s) && (From(opener, s).a.met || From(opener, s).a.member)
    ensures From(opener, s).a.met
    ensures From(opener, s).ba != [] ==> !From(opener, s).ba[0].Open?
  {
  }

  lemma OwnStepShuts(s: Pair, e: Event)
    requires CanA(s, e) && s.a.met && s.a.member && s.a.gate && (s.ba != [] ==> !s.ba[0].Open?)
    ensures !StepA(s, e).a.gate <==> Cuts(s, e)
    ensures !StepA(s, e).a.member <==> Cuts(s, e) || e.CloseTx?
  {
  }

  lemma OwnStepStaysShut(s: Pair, e: Event)
    requires CanA(s, e) && s.a.met && !s.a.gate && (s.ba != [] ==> !s.ba[0].Open?)
    ensures StepA(s, e).a.met && !StepA(s, e).a.gate
  {
  }

  lemma ShutStaysShut(opener: bool, s: Pair, pe: PairEvent)
    requires Ordered(s) && Can(s, pe) && From(opener, s).a.met && !From(opener, s).a.gate
    ensures From(opener, Step(s, pe)).a.met && !From(opener, Step(s, pe)).a.gate
  {
    if pe.AtA? == opener {
      NoOpenComes(opener, s);
      hide Ordered;
      OwnStepStaysShut(From(opener, s), pe.e);
    } else {
      assert From(opener, Step(s, pe)).a == From(opener, s).a;
    }
  }

  lemma {:induction false} ShutForGood(opener: bool, s: Pair, run: seq<PairEvent>)
    requires Ordered(s) && Runs(s, run) && From(opener, s).a.met && !From(opener, s).a.gate
    ensures !From(opener, After(s, run)).a.gate
    decreases |run|
  {
    hide Ordered, Can, Step;
    if run != [] {
      ShutStaysShut(opener, s, run[0]);
      StepKeepsOrder(s, run[0]);
      ShutForGood(opener, Step(s, run[0]), run[1..]);
    }
  }

  /**
   The counterpart of `CloseWakesNobody`: after the peer's CLOSE, an overflow, a dropped
   stream or a torn-down link, whatever happens later, no sender of the stream waits and
   none can pay for another frame.
   */
  lemma CutWakesEverybody(opener: bool, s: Pair, e: Event, run: seq<PairEvent>, chunk: seq<byte>)
    requires Ordered(s) && Can(s, By(opener, e)) && From(opener, s).a.member && Cuts(From(opener, s), e)
    requires Runs(Step(s, By(opener, e)), run)
    ensures var end := After(Step(s, By(opener, e)), run);
            !Parked(From(opener, end).a, chunk) && !Can(end, By(opener, Reserve(chunk)))
  {
    CutShuts(opener, s, e);
    StepKeepsOrder(s, By(opener, e));
    var n := Step(s, By(opener, e));
    hide Ordered, Step;
    ShutForGood(opener, n, run);
  }

  lemma CutShuts(opener: bool, s: Pair, e: Event)
    requires Ordered(s) && Can(s, By(opener, e)) && From(opener, s).a.member && Cuts(From(opener, s), e)
    ensures From(opener, Step(s, By(opener, e))).a.met && !From(opener, Step(s, By(opener, e))).a.gate
  {
  }

  // ---- Nobody is left holding a stream the other has dropped ----

  /** Every end that may still hold the stream is about to be told that the other does not. */
  ghost predicate Informed(s: Pair)
  {
    && (Close in s.ab ==> !s.a.member)
    && (Close in s.ba ==> !s.b.member)
    && (s.a.tx && !s.a.member && (s.b.member || !s.b.met) ==> Close in s.ab)
    && (s.b.met && !s.b.member && s.a.member ==> Close in s.ba)
    && (s.a.met && !s.a.tx ==> s.a.member)
  }

  /** A stream is dropped silently when the link is torn down, or when `close_stream` finds the outbox full. */
  predicate Silent(e: Event)
  {
    e.Teardown? || e == CloseStream(false)
  }

  predicate Outspoken(run: seq<PairEvent>)
  {
    forall i :: 0 <= i < |run| ==> !Silent(run[i].e)
  }

  lemma Appended(link: seq<Msg>, more: seq<Msg>)
    ensures Close in link + more <==> Close in link || Close in more
    ensures link != [] && link[0] != Close ==> (Close in link[1..] <==> Close in link)
    ensures link != [] ==> (Close in link[1..] ==> Close in link)
  {
    if link != [] {
      assert link == [link[0]] + link[1..];
    }
  }

  lemma OpenerInforms(s: Pair, e: Event)
    requires Ordered(s) && Informed(s) && CanA(s, e) && !Silent(e) && StepA(s, e).up
    ensures Informed(StepA(s, e))
  {
    Appended(s.ba, []);
    if e.Deliver? {
      assert !s.ba[0].Open?;
      Appended(s.ab, Dispatch(s.a, s.ba[0], e.how).1);
    } else {
      Appended(s.ab, Emits(s.a, s.up, e));
    }
  }

  lemma PeerInforms(s: Pair, e: Event)
    requires Ordered(s) && Informed(s) && CanA(s.Swap(), e) && !e.Insert? && !e.Announce? && !Silent(e) && StepA(s.Swap(), e).up
    ensures Informed(StepA(s.Swap(), e).Swap())
  {
    Appended(s.ab, []);
    if e.Deliver? {
      Appended(s.ba, Dispatch(s.b, s.ab[0], e.how).1);
    } else {
      Appended(s.ba, Emits(s.b, s.up, e));
    }
  }

  lemma {:induction false} RunInforms(s: Pair, run: seq<PairEvent>)
    requires Ordered(s) && Informed(s) && Runs(s, run) && Outspoken(run) && After(s, run).up
    ensures Informed(After(s, run)) && Ordered(After(s, run))
    decreases |run|
  {
    hide Ordered, Informed, CanA, StepA;
    if run != [] {
      StaysDown(Step(s, run[0]), run[1..]);
      StepKeepsOrder(s, run[0]);
      if run[0].AtA? {
        OpenerInforms(s, run[0].e);
      } else {
        PeerInforms(s, run[0].e);
      }
      RunInforms(Step(s, run[0]), run[1..]);
    }
  }

  /** A dead link stays dead. */
  lemma {:induction false} StaysDown(s: Pair, run: seq<PairEvent>)
    requires Runs(s, run)
    ensures !s.up ==> !After(s, run).up
    decreases |run|
  {
    hide CanLocal, LocalStep, Dispatch;
    if run != [] {
      StaysDown(Step(s, run[0]), run[1..]);
    }
  }

  /**
   No half-open streams: in every run without a silent drop, on a live link, an end that
   still has a stream the other has dropped finds a CLOSE on its way; so once both
   directions are empty, either both ends have the stream or neither has.
   */
  lemma NoHalfOpenStream(run: seq<PairEvent>)
    requires Runs(START, run) && Outspoken(run) && After(START, run).up
    ensures var s := After(START, run);
            && (s.a.met && !s.a.member && s.b.member ==> Close in s.ab)
            && (s.b.met && !s.b.member && s.a.member ==> Close in s.ba)
            && (s.ab == [] && s.ba == [] && s.a.tx ==> s.b.met && s.a.member == s.b.member)
  {
    RunInforms(START, run);
  }

  /** Dropping a stream both ends have leaves the other end informed if and only if the CLOSE was queued. */
  lemma DropInformsExactly(opener: bool, s: Pair, queued: bool)
    requires Ordered(s) && Informed(s) && s.up && Can(s, By(opener, CloseStream(queued)))
    requires s.a.member && s.b.member
    ensures Informed(Step(s, By(opener, CloseStream(queued)))) <==> queued
  {
    Appended(From(opener, s).ab, [Close]);
  }

  /** From the start: with the outbox full at the wrong moment, the far end keeps the stream and nothing will tell it. */
  lemma SilentDropHappens() returns (run: seq<PairEvent>)
    ensures Runs(START, run)
    ensures var s := After(START, run); s.up && s.ab == [] && s.ba == [] && !s.a.member && s.b.member
  {
    run := [];
    run := Extend(START, run, AtA(Insert));
    run := Extend(START, run, AtA(Announce));
    run := Extend(START, run, AtB(Deliver(Served)));
    run := Extend(START, run, AtA(CloseStream(false)));
  }

  // ---- A reader that has hung up ----

  /** Nothing is kept for a reader that is gone. */
  predicate Forgotten(h: Half)
  {
    h.met && !h.listening && h.inbox == [] && h.hand == 0 && h.owed == 0
  }

  lemma OwnStepForgets(s: Pair, e: Event)
    requires CanA(s, e) && Forgotten(s.a) && (s.ba != [] ==> !s.ba[0].Open?)
    ensures Forgotten(StepA(s, e).a) && !e.Recv? && !e.Account? && !e.Grant?
  {
  }

  /** Once a stream's receiver is dropped, nothing is queued for it, received by it or granted for it again. */
  lemma {:induction false} HungUpForGood(opener: bool, s: Pair, run: seq<PairEvent>, e: Event)
    requires Ordered(s) && Runs(s, run) && Forgotten(From(opener, s).a)
    ensures Forgotten(From(opener, After(s, run)).a)
    ensures e.Recv? || e.Account? || e.Grant? ==> !Can(After(s, run), By(opener, e))
    decreases |run|
  {
    if run != [] {
      if run[0].AtA? == opener {
        NoOpenComes(opener, s);
        hide Ordered;
        OwnStepForgets(From(opener, s), run[0].e);
      } else {
        assert From(opener, Step(s, run[0])).a == From(opener, s).a;
      }
      hide Can, Step;
      StepKeepsOrder(s, run[0]);
      HungUpForGood(opener, Step(s, run[0]), run[1..], e);
    }
  }

  lemma HangupForgets(opener: bool, s: Pair)
    requires Ordered(s) && Can(s, By(opener, Hangup))
    ensures Forgotten(From(opener, Step(s, By(opener, Hangup))).a)
  {
  }
}
