/**
 One mux stream between two `MuxSession` ends, as a step system.

 Each end holds a `Half`: its entry in the session's map, the credit semaphore its
 `StreamTx` shares with that entry, and the inbox its `StreamRx` drains.  The ends
 are joined by two FIFO links.  A step is one atomic action of one task.
 */
module MuxPair {
  import opened Bytes
  import opened Wire

  datatype Msg = Open | Data(bytes: seq<byte>) | Window(grant: nat) | Close | Other

  datatype Half = Half(
    met: bool,                // this end has dealt with the stream's birth
    member: bool,             // in the session's map
    tx: bool,                 // StreamTx and StreamRx have been handed out
    gate: bool,               // the credit semaphore is open
    credit: nat,              // permits in the credit semaphore
    reserved: seq<byte>,      // taken from the semaphore, not yet in the outbox
    inbox: seq<seq<byte>>,    // dispatched, not yet received
    listening: bool,          // StreamRx has not been dropped
    hand: nat,                // received by the reader, not yet counted as owed
    owed: nat,                // credit to give back
    handed: seq<byte>,        // all bytes ever passed to the semaphore by `send`
    got: seq<byte>)           // all bytes the reader ever received

  const UNBORN := Half(false, false, false, true, WINDOW, [], [], true, 0, 0, [], [])

  /** A stream just materialised: a full window, nothing sent, nothing received. */
  const FRESH := UNBORN.(met := true, member := true, tx := true)

  /** `a` is the end that opened the stream. */
  datatype Pair = Pair(a: Half, b: Half, ab: seq<Msg>, ba: seq<Msg>, up: bool)
  {
    function Swap(): Pair
    {
      Pair(b, a, ba, ab, up)
    }
  }

  const START := Pair(UNBORN, UNBORN, [], [], true)

  /**
   What an arriving OPEN meets: no budget, no handler registered for peer-opened
   streams (both halves are dropped on the spot), or a handler that takes them.
   */
  datatype Welcome = Refused | Unserved | Served

  datatype Event =
    | Insert
    | Announce
    | Reserve(chunk: seq<byte>)
    | Enqueue
    | Recv
    | Account
    | Grant
    | Hangup
    | CloseTx
    | CloseStream(queued: bool)
    | Teardown
    | Deliver(how: Welcome)
    | LinkDies

  /** Steps that concern one end alone; the others take a message off a link or kill it. */
  predicate IsLocal(e: Event)
  {
    !e.Deliver? && !e.LinkDies?
  }

  /** Whether a task of this end can take the step now. */
  predicate CanLocal(h: Half, up: bool, e: Event)
    requires IsLocal(e)
  {
    match e
    case Insert => !h.met
    case Announce => h.met && !h.tx && up
    case Reserve(chunk) => h.tx && h.gate && h.reserved == [] && 0 < |chunk| <= MAX_PAYLOAD && |chunk| <= h.credit
    case Enqueue => h.reserved != [] && up
    case Recv => h.tx && h.listening && h.hand == 0 && h.inbox != []
    case Account => h.hand > 0
    case Grant => h.tx && h.owed > 0 && up
    case Hangup => h.tx && h.listening
    case CloseTx => h.tx
    case CloseStream(_) => h.tx
    case Teardown => h.met
  }

  function LocalStep(h: Half, up: bool, e: Event): Half
    requires IsLocal(e) && CanLocal(h, up, e)
  {
    match e
    case Insert => FRESH.(tx := false)
    case Announce => h.(tx := true)
    case Reserve(chunk) => h.(credit := h.credit - |chunk|, reserved := chunk, handed := h.handed + chunk)
    case Enqueue => h.(reserved := [])
    case Recv => h.(inbox := h.inbox[1..], hand := |h.inbox[0]|, got := h.got + h.inbox[0])
    case Account => h.(hand := 0, owed := h.owed + h.hand)
    case Grant => h.(owed := 0)
    case Hangup => h.(listening := false, inbox := [], hand := 0, owed := 0)
    case CloseTx => h.(member := false)
    case CloseStream(_) => h.(member := false, gate := h.gate && !h.member)
    case Teardown => h.(member := false, gate := h.gate && !h.member)
  }

  /** What the step puts into the outbox; a dead link takes nothing. */
  function Emits(h: Half, up: bool, e: Event): seq<Msg>
    requires IsLocal(e)
  {
    match e
    case Announce => [Open]
    case Enqueue => [Data(h.reserved)]
    case Grant => [Window(h.owed)]
    case CloseTx => if up then [Close] else []
    case CloseStream(queued) => if up && queued then [Close] else []
    case _ => []
  }

  /** What one dispatched message does to a half, and the reply it provokes. */
  function Dispatch(h: Half, m: Msg, how: Welcome): (Half, seq<Msg>)
  {
    match m
    case Open =>
      (match how
       case Refused => (h.(met := true), [Close])
       case Unserved => (FRESH.(tx := false, listening := false), [])
       case Served => (FRESH, []))
    case Data(bytes) =>
      if !h.member || !h.listening then (h, [])
      else if |h.inbox| < INBOX_FRAMES then (h.(inbox := h.inbox + [bytes]), [])
      else (h.(member := false, gate := false), [Close])
    case Window(grant) => (if h.member then h.(credit := h.credit + grant) else h, [])
    case Close => (if h.member then h.(member := false, gate := false) else h, [])
    case Other => (h, [])
  }

  predicate CanA(s: Pair, e: Event)
  {
    match e
    case Deliver(_) => s.ba != [] && s.up
    case LinkDies => s.up
    case _ => CanLocal(s.a, s.up, e)
  }

  /** The step of end `a`. */
  function StepA(s: Pair, e: Event): Pair
    requires CanA(s, e)
  {
    match e
    case Deliver(how) =>
      var (h, reply) := Dispatch(s.a, s.ba[0], how);
      s.(a := h, ba := s.ba[1..], ab := s.ab + reply)
    case LinkDies => s.(ab := [], ba := [], up := false)
    case _ => s.(a := LocalStep(s.a, s.up, e), ab := s.ab + Emits(s.a, s.up, e))
  }

  datatype PairEvent = AtA(e: Event) | AtB(e: Event)

  /** The far end never opens streams of its own. */
  predicate Can(s: Pair, pe: PairEvent)
  {
    match pe
    case AtA(e) => CanA(s, e)
    case AtB(e) => !e.Insert? && !e.Announce? && CanA(s.Swap(), e)
  }

  function Step(s: Pair, pe: PairEvent): Pair
    requires Can(s, pe)
  {
    match pe
    case AtA(e) => StepA(s, e)
    case AtB(e) => StepA(s.Swap(), e).Swap()
  }

  /** A run: steps of both ends in any interleaving, each possible when taken. */
  predicate Runs(s: Pair, run: seq<PairEvent>)
    decreases |run|
  {
    run == [] || (Can(s, run[0]) && Runs(Step(s, run[0]), run[1..]))
  }

  function After(s: Pair, run: seq<PairEvent>): Pair
    requires Runs(s, run)
    decreases |run|
  {
    if run == [] then s else After(Step(s, run[0]), run[1..])
  }

  // ---- What is in flight ----

  /** Payload of the DATA frames on a link, in order. */
  function DataOf(link: seq<Msg>): seq<byte>
  {
    if link == [] then []
    else (if link[0].Data? then link[0].bytes else []) + DataOf(link[1..])
  }

  /** Credit riding on a link in WINDOW frames. */
  function GrantsOf(link: seq<Msg>): nat
  {
    if link == [] then 0
    else (if link[0].Window? then link[0].grant else 0) + GrantsOf(link[1..])
  }

  predicate OpenFree(link: seq<Msg>)
  {
    forall i :: 0 <= i < |link| ==> !link[i].Open?
  }

  lemma {:induction false} LinkAppend(xs: seq<Msg>, ys: seq<Msg>)
    ensures DataOf(xs + ys) == DataOf(xs) + DataOf(ys)
    ensures GrantsOf(xs + ys) == GrantsOf(xs) + GrantsOf(ys)
  {
    if xs == [] {
      assert xs + ys == ys;
    } else {
      assert (xs + ys)[1..] == xs[1..] + ys;
      LinkAppend(xs[1..], ys);
    }
  }

  lemma LinkPush(link: seq<Msg>, m: Msg)
    ensures DataOf(link + [m]) == DataOf(link) + if m.Data? then m.bytes else []
    ensures GrantsOf(link + [m]) == GrantsOf(link) + if m.Window? then m.grant else 0
  {
    LinkAppend(link, [m]);
    assert [m][1..] == [];
  }

  // ---- What every run keeps, for the direction from `a` to `b` ----

  /** The whole window of `a`, wherever its bytes are. */
  function Held(s: Pair): nat
  {
    s.a.credit + |s.a.reserved| + |DataOf(s.ab)| + |Concat(s.b.inbox)| + s.b.hand + s.b.owed + GrantsOf(s.ba)
  }

  /** Frames for this half are taken in rather than dropped. */
  predicate Hears(s: Pair, h: Half)
  {
    s.up && (h.met ==> h.member) && h.listening
  }

  /** Both halves are live: nothing sent either way can be lost. */
  predicate Whole(s: Pair)
  {
    Hears(s, s.b) && (s.a.met ==> s.a.member)
  }

  ghost predicate CreditKept(s: Pair)
  {
    Held(s) <= WINDOW && (Whole(s) ==> Held(s) == WINDOW)
  }

  ghost predicate BytesKept(s: Pair)
  {
    && s.b.got + Concat(s.b.inbox) <= s.a.handed
    && (Hears(s, s.b) ==> s.b.got + Concat(s.b.inbox) + DataOf(s.ab) + s.a.reserved == s.a.handed)
  }

  /** The OPEN travels first, once, and nothing comes back before it. */
  ghost predicate Ordered(s: Pair)
  {
    && (!s.a.met ==> s.a == UNBORN)
    && (!s.a.tx ==> s.ab == [] && s.ba == [] && !s.b.met && s.a == UNBORN.(met := s.a.met, member := s.a.member, gate := s.a.gate))
    && (!s.b.met ==> s.b == UNBORN && s.ba == [])
    && (!s.b.met && s.a.tx && s.up ==> s.ab != [])
    && (!s.b.met && s.ab != [] ==> s.ab[0].Open? && OpenFree(s.ab[1..]))
    && (s.b.met ==> OpenFree(s.ab))
    && OpenFree(s.ba)
    && (s.a.member || s.a.tx ==> s.a.met) && (s.b.member || s.b.tx ==> s.b.met)
  }

  ghost predicate Inv(s: Pair)
  {
    && Ordered(s)
    && CreditKept(s) && CreditKept(s.Swap())
    && BytesKept(s) && BytesKept(s.Swap())
  }

  /** What a step of `a` needs to know about who has met the stream. */
  ghost predicate Orderly(s: Pair)
  {
    && (s.ba != [] ==> (s.ba[0].Open? <==> !s.a.met))
    && (!s.a.met ==> s.a == UNBORN)
  }

  /** What a step of `a` puts on its own link. */
  lemma StepPushes(s: Pair, e: Event)
    requires CanA(s, e) && !e.LinkDies?
    ensures var t := StepA(s, e);
            && DataOf(t.ab) == (if e.Enqueue? then DataOf(s.ab) + s.a.reserved else DataOf(s.ab))
            && GrantsOf(t.ab) == GrantsOf(s.ab) + (if e.Grant? then s.a.owed else 0)
  {
    hide DataOf, GrantsOf;
    assert s.ab + [] == s.ab;
    LinkPush(s.ab, Open);
    LinkPush(s.ab, Data(s.a.reserved));
    LinkPush(s.ab, Window(s.a.owed));
    LinkPush(s.ab, Close);
  }

  lemma LinkHead(link: seq<Msg>)
    requires link != []
    ensures DataOf(link) == if link[0].Data? then link[0].bytes + DataOf(link[1..]) else DataOf(link[1..])
    ensures GrantsOf(link) == GrantsOf(link[1..]) + if link[0].Window? then link[0].grant else 0
  {
  }

  /** A step of `a` keeps the window it sends into. */
  lemma SenderKeepsCredit(s: Pair, e: Event)
    requires CanA(s, e) && Orderly(s) && CreditKept(s)
    ensures CreditKept(StepA(s, e))
  {
    hide DataOf, GrantsOf, Concat;
    if e.LinkDies? {
      EmptyLink();
    } else {
      StepPushes(s, e);
      if e.Deliver? {
        LinkHead(s.ba);
      }
    }
  }

  lemma EmptyLink()
    ensures DataOf([]) == [] && GrantsOf([]) == 0
  {
  }

  lemma InboxSizes(inbox: seq<seq<byte>>, bytes: seq<byte>)
    ensures |Concat(inbox + [bytes])| == |Concat(inbox)| + |bytes|
    ensures inbox != [] ==> |Concat(inbox)| == |inbox[0]| + |Concat(inbox[1..])|
    ensures Concat([]) == []
  {
    ConcatAppend(inbox, [bytes]);
    ConcatOne(bytes);
  }

  /** A step of `a` keeps the window it receives from. */
  lemma ReceiverKeepsCredit(s: Pair, e: Event)
    requires CanA(s, e) && Orderly(s) && CreditKept(s.Swap())
    ensures CreditKept(StepA(s, e).Swap())
  {
    hide DataOf, GrantsOf, Concat;
    if e.LinkDies? {
      EmptyLink();
    } else if e.Deliver? {
      DeliveryKeepsCredit(s, e.how);
    } else {
      InboxSizes(s.a.inbox, []);
      StepPushes(s, e);
    }
  }

  lemma DeliveryKeepsCredit(s: Pair, how: Welcome)
    requires CanA(s, Deliver(how)) && Orderly(s) && CreditKept(s.Swap())
    ensures CreditKept(StepA(s, Deliver(how)).Swap())
  {
    hide DataOf, GrantsOf, Concat;
    StepPushes(s, Deliver(how));
    LinkHead(s.ba);
    if s.ba[0].Data? {
      InboxSizes(s.a.inbox, s.ba[0].bytes);
    }
  }

  /** A step of `a` neither loses, repeats nor reorders what it has sent. */
  lemma SenderKeepsBytes(s: Pair, e: Event)
    requires CanA(s, e) && Orderly(s) && BytesKept(s)
    ensures BytesKept(StepA(s, e))
  {
    hide DataOf, GrantsOf, Concat;
    var t := StepA(s, e);
    var base := s.b.got + Concat(s.b.inbox);
    assert t.b == s.b;
    match e
    case Reserve(chunk) =>
      StepPushes(s, e);
      assert base + DataOf(s.ab) + chunk == base + DataOf(s.ab) + s.a.reserved + chunk;
    case Enqueue =>
      StepPushes(s, e);
      assert base + (DataOf(s.ab) + s.a.reserved) + [] == base + DataOf(s.ab) + s.a.reserved;
    case LinkDies =>
    case _ => StepPushes(s, e);
  }

  /** A step of `a` takes in what was sent to it, in order. */
  lemma ReceiverKeepsBytes(s: Pair, e: Event)
    requires CanA(s, e) && Orderly(s) && BytesKept(s.Swap())
    ensures BytesKept(StepA(s, e).Swap())
  {
    hide DataOf, Concat;
    var t := StepA(s, e);
    match e
    case Recv => ConcatTakes(s.a.got, s.a.inbox);
    case Deliver(how) => DeliveryKeepsBytes(s, how);
    case Hangup => ConcatNothing(s.a.got, s.a.inbox);
    case LinkDies =>
    case _ => assert t.b == s.b && t.ba == s.ba;
  }

  lemma ConcatTakes(got: seq<byte>, inbox: seq<seq<byte>>)
    requires inbox != []
    ensures got + Concat(inbox) == got + inbox[0] + Concat(inbox[1..])
  {
  }

  lemma ConcatNothing(got: seq<byte>, inbox: seq<seq<byte>>)
    ensures got + Concat([]) == got <= got + Concat(inbox)
  {
  }

  lemma DeliveryKeepsBytes(s: Pair, how: Welcome)
    requires CanA(s, Deliver(how)) && Orderly(s) && BytesKept(s.Swap())
    ensures BytesKept(StepA(s, Deliver(how)).Swap())
  {
    hide DataOf, Concat;
    var t := StepA(s, Deliver(how));
    LinkHead(s.ba);
    if s.ba[0].Data? && s.a.member && s.a.listening && |s.a.inbox| < INBOX_FRAMES {
      TakeIn(s.a.got, s.a.inbox, s.ba[0].bytes, DataOf(t.ba), s.b.reserved);
    } else {
      assert t.a.got == s.a.got && t.a.inbox == s.a.inbox;
    }
  }

  lemma TakeIn(got: seq<byte>, inbox: seq<seq<byte>>, bytes: seq<byte>, after: seq<byte>, reserved: seq<byte>)
    ensures got + Concat(inbox + [bytes]) + after + reserved == got + Concat(inbox) + (bytes + after) + reserved
    ensures got + Concat(inbox + [bytes]) <= got + Concat(inbox) + (bytes + after) + reserved
  {
    ConcatAppend(inbox, [bytes]);
    ConcatOne(bytes);
  }

  /** What `Ordered` asks of the opener's half. */
  predicate HalfInOrder(h: Half)
  {
    && (!h.met ==> h == UNBORN)
    && (!h.tx ==> h == UNBORN.(met := h.met, member := h.member, gate := h.gate))
    && (h.member || h.tx ==> h.met)
  }

  lemma LocalKeepsHalf(h: Half, up: bool, e: Event)
    requires IsLocal(e) && CanLocal(h, up, e) && HalfInOrder(h)
    ensures var n := LocalStep(h, up, e);
            HalfInOrder(n) && n.met && (n.tx <==> h.tx || e.Announce?)
    ensures !h.tx ==> e.Insert? || e.Announce? || e.Teardown?
    ensures Emits(h, up, e) != [] ==> up
  {
  }

  lemma OpenerKeepsOrder(s: Pair, e: Event)
    requires CanA(s, e) && Ordered(s)
    ensures Ordered(StepA(s, e))
  {
    hide LocalStep, CanLocal;
    if IsLocal(e) {
      LocalKeepsOrder(s, e);
    }
  }

  lemma LocalKeepsOrder(s: Pair, e: Event)
    requires IsLocal(e) && CanA(s, e) && Ordered(s)
    ensures Ordered(StepA(s, e))
  {
    assert HalfInOrder(s.a);
    if e.Announce? {
      AnnounceOnce(s);
    } else {
      LocalKeepsHalf(s.a, s.up, e);
      SaysNoOpen(s.a, s.up, e);
      hide LocalStep, CanLocal, Emits, CanA, StepA, Ordered;
      RepliesKeepOrder(s, LocalStep(s.a, s.up, e), Emits(s.a, s.up, e));
      LocalStepShape(s, e);
    }
  }

  lemma LocalStepShape(s: Pair, e: Event)
    requires IsLocal(e) && CanA(s, e)
    ensures StepA(s, e) == s.(a := LocalStep(s.a, s.up, e), ab := s.ab + Emits(s.a, s.up, e))
  {
  }

  lemma SaysNoOpen(h: Half, up: bool, e: Event)
    requires IsLocal(e) && !e.Announce? && CanLocal(h, up, e) && HalfInOrder(h)
    ensures OpenFree(Emits(h, up, e)) && (!h.tx ==> Emits(h, up, e) == [])
  {
  }

  /** Anything but an OPEN may be said once the OPEN has been. */
  lemma RepliesKeepOrder(s: Pair, n: Half, out: seq<Msg>)
    requires Ordered(s) && HalfInOrder(n) && n.met && n.tx == s.a.tx
    requires OpenFree(out) && (!s.a.tx ==> out == []) && (out != [] ==> s.up)
    ensures Ordered(s.(a := n, ab := s.ab + out))
  {
    assert s.ab + [] == s.ab;
    assert s.ab != [] ==> (s.ab + out)[1..] == s.ab[1..] + out;
  }

  lemma AnnounceOnce(s: Pair)
    requires CanA(s, Announce) && Ordered(s)
    ensures s.ab == [] && !s.b.met && s.a.met
  {
  }

  lemma PeerKeepsOrder(s: Pair, e: Event)
    requires !e.Insert? && !e.Announce? && CanA(s.Swap(), e) && Ordered(s)
    ensures Ordered(StepA(s.Swap(), e).Swap())
  {
    hide LocalStep, CanLocal;
    if IsLocal(e) {
      PeerLocalKeeps(s.b, s.up, e);
      assert OpenFree(s.ba + Emits(s.b, s.up, e));
    }
  }

  /** The far end takes steps of its own only once it has met the stream, and announces nothing. */
  lemma PeerLocalKeeps(h: Half, up: bool, e: Event)
    requires IsLocal(e) && !e.Insert? && !e.Announce? && CanLocal(h, up, e)
    requires (!h.met ==> h == UNBORN) && (h.member || h.tx ==> h.met)
    ensures h.met && LocalStep(h, up, e).met && OpenFree(Emits(h, up, e))
  {
  }

  lemma StepKeepsOrder(s: Pair, pe: PairEvent)
    requires Can(s, pe) && Ordered(s)
    ensures Ordered(Step(s, pe))
  {
    hide Ordered, CanA, StepA;
    if pe.AtA? {
      OpenerKeepsOrder(s, pe.e);
    } else {
      PeerKeepsOrder(s, pe.e);
    }
  }

  /** The invariant holds after every step of either end. */
  lemma StepKeepsInv(s: Pair, pe: PairEvent)
    requires Can(s, pe) && Inv(s)
    ensures Inv(Step(s, pe))
  {
    StepKeepsOrder(s, pe);
    var t := if pe.AtA? then s else s.Swap();
    SenderKeepsCredit(t, pe.e);
    ReceiverKeepsCredit(t, pe.e);
    SenderKeepsBytes(t, pe.e);
    ReceiverKeepsBytes(t, pe.e);
  }

  lemma {:induction false} RunKeepsInv(s: Pair, run: seq<PairEvent>)
    requires Runs(s, run) && Inv(s)
    ensures Inv(After(s, run))
    decreases |run|
  {
    if run != [] {
      StepKeepsInv(s, run[0]);
      RunKeepsInv(Step(s, run[0]), run[1..]);
    }
  }

  /**
   Credit conservation in every reachable state, for both directions: exactly one
   window while both halves are live, never more once one of them is gone.
   */
  lemma CreditConservation(run: seq<PairEvent>)
    requires Runs(START, run)
    ensures var s := After(START, run);
            && Held(s) <= WINDOW && (Whole(s) ==> Held(s) == WINDOW)
            && Held(s.Swap()) <= WINDOW && (Whole(s.Swap()) ==> Held(s.Swap()) == WINDOW)
  {
    RunKeepsInv(START, run);
  }

  /**
   Bytes arrive in order, none lost, none twice: what the reader holds is always a
   prefix of what the sender handed over, and all of it is accounted for as long as
   the receiving half is live.
   */
  lemma StreamExactness(run: seq<PairEvent>)
    requires Runs(START, run)
    ensures var s := After(START, run);
            && s.b.got <= s.a.handed && s.a.got <= s.b.handed
            && (Hears(s, s.b) ==> s.a.handed == s.b.got + Concat(s.b.inbox) + DataOf(s.ab) + s.a.reserved)
            && (Hears(s, s.a) ==> s.b.handed == s.a.got + Concat(s.a.inbox) + DataOf(s.ba) + s.b.reserved)
  {
    RunKeepsInv(START, run);
  }

  lemma {:induction false} GrantBelowSum(link: seq<Msg>, i: nat)
    requires i < |link| && link[i].Window?
    ensures link[i].grant <= GrantsOf(link)
  {
    if i > 0 {
      GrantBelowSum(link[1..], i - 1);
    }
  }

  /** No counter overflows its type and no semaphore is ever given more than a window. */
  lemma CountersBounded(run: seq<PairEvent>, i: nat)
    requires Runs(START, run)
    ensures var s := After(START, run);
            && s.a.credit <= WINDOW && s.b.credit <= WINDOW
            && s.a.owed + s.a.hand <= WINDOW < ID_SPACE && s.b.owed + s.b.hand <= WINDOW
            && (i < |s.ab| && s.ab[i].Window? ==> s.ab[i].grant + s.b.credit <= WINDOW)
            && (i < |s.ba| && s.ba[i].Window? ==> s.ba[i].grant + s.a.credit <= WINDOW)
  {
    RunKeepsInv(START, run);
    var s := After(START, run);
    if i < |s.ab| && s.ab[i].Window? {
      GrantBelowSum(s.ab, i);
    }
    if i < |s.ba| && s.ba[i].Window? {
      GrantBelowSum(s.ba, i);
    }
  }

  // ---- Both directions at once, and runs put together ----

  /** The stream as one end sees it: the end that opened it, or the other. */
  function From(opener: bool, s: Pair): Pair
  {
    if opener then s else s.Swap()
  }

  function By(opener: bool, e: Event): PairEvent
  {
    if opener then AtA(e) else AtB(e)
  }

  lemma {:induction false} RunsAppend(s: Pair, run: seq<PairEvent>, more: seq<PairEvent>)
    requires Runs(s, run) && Runs(After(s, run), more)
    ensures Runs(s, run + more) && After(s, run + more) == After(After(s, run), more)
    decreases |run|
  {
    if run == [] {
      assert run + more == more;
    } else {
      assert (run + more)[1..] == run[1..] + more;
      RunsAppend(Step(s, run[0]), run[1..], more);
    }
  }

  lemma RunsOne(s: Pair, pe: PairEvent)
    requires Can(s, pe)
    ensures Runs(s, [pe]) && After(s, [pe]) == Step(s, pe)
  {
    assert [pe][1..] == [];
  }

  /** One more step on the end of a run. */
  lemma Extend(s: Pair, run: seq<PairEvent>, pe: PairEvent) returns (longer: seq<PairEvent>)
    requires Runs(s, run) && Can(After(s, run), pe)
    ensures longer == run + [pe]
    ensures Runs(s, longer) && After(s, longer) == Step(After(s, run), pe)
  {
    longer := run + [pe];
    RunsOne(After(s, run), pe);
    RunsAppend(s, run, [pe]);
  }
}
