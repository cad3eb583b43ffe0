/**
 No flow-control deadlock, and what a transfer over one stream keeps although credit comes
 back in half-window batches.  The outboxes and links that streams share are in
 `SharedLink`.
 */
module MuxProgress {
  import opened Bytes
  import opened Wire
  import opened MuxPair
  import opened MuxInbox

  // ---- No flow-control deadlock ----

  /** Both ends hold a live stream on a live link. */
  predicate Live(s: Pair)
  {
    && s.up
    && s.a.met && s.a.member && s.a.tx && s.a.gate && s.a.listening
    && s.b.met && s.b.member && s.b.tx && s.b.gate && s.b.listening
  }

  /** Nothing of this direction is on its way and the reader holds back less than it must return. */
  predicate Drained(s: Pair)
  {
    && s.a.reserved == [] && DataOf(s.ab) == [] && Concat(s.b.inbox) == [] && s.b.hand == 0
    && s.b.owed < GRANT_THRESHOLD && GrantsOf(s.ba) == 0
  }

  /** A sender facing a drained reader holds more than half a window. */
  lemma DrainedSenderCanSend(s: Pair, chunk: seq<byte>)
    requires CreditKept(s) && Live(s) && Drained(s)
    requires 0 < |chunk| <= MAX_PAYLOAD
    ensures s.a.credit > WINDOW / 2 >= MAX_PAYLOAD
    ensures CanA(s, Reserve(chunk))
  {
  }

  /**
   No credit deadlock, in every reachable state and either direction: when both ends
   are live, nothing is on its way and the reader holds back less than half a window,
   any frame can be paid for, although credit comes back only in half windows.
   */
  lemma NoCreditDeadlock(opener: bool, run: seq<PairEvent>, chunk: seq<byte>)
    requires Runs(START, run) && 0 < |chunk| <= MAX_PAYLOAD
    requires Live(From(opener, After(START, run))) && Drained(From(opener, After(START, run)))
    ensures From(opener, After(START, run)).a.credit > WINDOW / 2 >= MAX_PAYLOAD
    ensures Can(After(START, run), By(opener, Reserve(chunk)))
  {
    hide Runs, After, Drained;
    RunKeepsInv(START, run);
    DrainedSenderCanSend(From(opener, After(START, run)), chunk);
  }

  // ---- Transfers ----

  /**
   One end of a transfer: the frames its `send` calls have still to pay for, and the
   frames its reader has taken.
   */
  datatype Side = Side(todo: seq<seq<byte>>, read: seq<seq<byte>>)

  datatype Transfer = Transfer(s: Pair, a: Side, b: Side)
  {
    function Swap(): Transfer
    {
      Transfer(s.Swap(), b, a)
    }
  }

  datatype Work = WReserve | WEnqueue | WDeliver | WRecv | WAccount | WGrant

  /**
   The steps of `send`, the read loop and `serve_client`'s downlink: a due grant comes
   before the next read.
   */
  predicate CanWorkA(t: Transfer, w: Work)
  {
    match w
    case WReserve => t.a.todo != [] && CanA(t.s, Reserve(t.a.todo[0]))
    case WEnqueue => CanA(t.s, Enqueue)
    case WDeliver => CanA(t.s, Deliver(Served))
    case WRecv => CanA(t.s, Recv) && t.s.a.owed < GRANT_THRESHOLD
    case WAccount => CanA(t.s, Account)
    case WGrant => CanA(t.s, Grant) && t.s.a.owed >= GRANT_THRESHOLD
  }

  function EventOf(t: Transfer, w: Work): Event
    requires CanWorkA(t, w)
  {
    match w
    case WReserve => Reserve(t.a.todo[0])
    case WEnqueue => Enqueue
    case WDeliver => Deliver(Served)
    case WRecv => Recv
    case WAccount => Account
    case WGrant => Grant
  }

  function WorkA(t: Transfer, w: Work): Transfer
    requires CanWorkA(t, w)
  {
    Transfer(StepA(t.s, EventOf(t, w)),
             Side(if w.WReserve? then t.a.todo[1..] else t.a.todo,
                  if w.WRecv? then t.a.read + [t.s.a.inbox[0]] else t.a.read),
             t.b)
  }

  datatype SideWork = OnA(w: Work) | OnB(w: Work)

  predicate CanWork(t: Transfer, sw: SideWork)
  {
    if sw.OnA? then CanWorkA(t, sw.w) else CanWorkA(t.Swap(), sw.w)
  }

  function DoWork(t: Transfer, sw: SideWork): Transfer
    requires CanWork(t, sw)
  {
    if sw.OnA? then WorkA(t, sw.w) else WorkA(t.Swap(), sw.w).Swap()
  }

  // ---- What may be sent ----

  /** The frames `send` makes are neither empty nor longer than a payload. */
  predicate Framed(plan: seq<seq<byte>>)
  {
    forall i :: 0 <= i < |plan| ==> 0 < |plan[i]| <= MAX_PAYLOAD
  }

  /** What a reader that returns credit in half windows owes after these frames. */
  function Owing(frames: seq<seq<byte>>): nat
    decreases |frames|
  {
    if frames == [] then 0
    else
      var owed := Owing(frames[..|frames| - 1]) + |frames[|frames| - 1]|;
      if owed >= GRANT_THRESHOLD then 0 else owed
  }

  /** From frame `i` on, one frame more than an inbox holds costs more than the credit out at that point. */
  ghost predicate SafeAt(plan: seq<seq<byte>>, i: nat)
  {
    i + INBOX_FRAMES < |plan| ==> |Concat(plan[i..i + INBOX_FRAMES + 1])| + Owing(plan[..i]) > WINDOW
  }

  ghost predicate Safe(plan: seq<seq<byte>>)
  {
    forall i: nat :: SafeAt(plan, i)
  }

  // ---- What work keeps ----

  /** Frames of one direction between the semaphore and the reader, oldest first. */
  function InFlight(s: Pair): seq<seq<byte>>
  {
    s.b.inbox + Frames(s.ab) + if s.a.reserved == [] then [] else [s.a.reserved]
  }

  function Frames(link: seq<Msg>): seq<seq<byte>>
  {
    if link == [] then []
    else (if link[0].Data? then [link[0].bytes] else []) + Frames(link[1..])
  }

  /** All frames of the direction from `a` to `b`, wherever they are. */
  function Plan(t: Transfer): seq<seq<byte>>
  {
    t.b.read + InFlight(t.s) + t.a.todo
  }

  /** Only DATA and WINDOW frames, none of them empty. */
  predicate Busy(link: seq<Msg>)
  {
    forall i :: 0 <= i < |link| ==> (link[i].Data? && link[i].bytes != []) || (link[i].Window? && link[i].grant > 0)
  }

  /** Credit owed is settled by the frames read, up to the one in hand or the grant now due. */
  predicate OwesFor(h: Half, read: seq<seq<byte>>)
  {
    if h.hand > 0 then read != [] && h.hand == |read[|read| - 1]| && h.owed == Owing(read[..|read| - 1])
    else if h.owed >= GRANT_THRESHOLD then Owing(read) == 0
    else h.owed == Owing(read)
  }

  ghost predicate OneWay(t: Transfer)
  {
    && Framed(Plan(t)) && Safe(Plan(t))
    && OwesFor(t.s.b, t.b.read) && t.s.b.got == Concat(t.b.read)
  }

  ghost predicate Working(t: Transfer)
  {
    && Inv(t.s) && Live(t.s) && Busy(t.s.ab) && Busy(t.s.ba)
    && OneWay(t) && OneWay(t.Swap())
  }

  /** Everything has been sent and received. */
  predicate Done(t: Transfer)
  {
    && t.a.todo == [] && t.b.todo == [] && t.s.ab == [] && t.s.ba == []
    && t.s.a.reserved == [] && t.s.b.reserved == [] && t.s.a.inbox == [] && t.s.b.inbox == []
    && t.s.a.hand == 0 && t.s.b.hand == 0
  }

  /** Each byte has seven stations to pass; this counts the stations still ahead. */
  function Ahead(s: Pair, todo: seq<seq<byte>>): nat
  {
    7 * |Concat(todo)| + 6 * |s.a.reserved| + 5 * |DataOf(s.ab)| + 4 * |Concat(s.b.inbox)| + 3 * s.b.hand + 2 * s.b.owed + GrantsOf(s.ba)
  }

  function Measure(t: Transfer): nat
  {
    Ahead(t.s, t.a.todo) + Ahead(t.s.Swap(), t.b.todo)
  }

  lemma {:induction false} FramesAppend(xs: seq<Msg>, ys: seq<Msg>)
    ensures Frames(xs + ys) == Frames(xs) + Frames(ys)
  {
    if xs == [] {
      assert xs + ys == ys;
    } else {
      assert (xs + ys)[1..] == xs[1..] + ys;
      FramesAppend(xs[1..], ys);
    }
  }

  lemma FramesPush(link: seq<Msg>, m: Msg)
    ensures Frames(link + [m]) == Frames(link) + if m.Data? then [m.bytes] else []
  {
    FramesAppend(link, [m]);
    assert [m][1..] == [];
  }

  lemma FramesHead(link: seq<Msg>)
    requires link != []
    ensures Frames(link) == (if link[0].Data? then [link[0].bytes] + Frames(link[1..]) else Frames(link[1..]))
  {
  }

  lemma {:induction false} FramesCarryData(link: seq<Msg>)
    ensures Concat(Frames(link)) == DataOf(link)
  {
    if link != [] {
      FramesCarryData(link[1..]);
      FramesHead(link);
      if link[0].Data? {
        ConcatAppend([link[0].bytes], Frames(link[1..]));
        ConcatOne(link[0].bytes);
      }
    }
  }

  lemma InFlightSize(s: Pair)
    ensures |Concat(InFlight(s))| == |Concat(s.b.inbox)| + |DataOf(s.ab)| + |s.a.reserved|
  {
    hide Frames, DataOf;
    var last := if s.a.reserved == [] then [] else [s.a.reserved];
    ConcatAppend(s.b.inbox + Frames(s.ab), last);
    ConcatAppend(s.b.inbox, Frames(s.ab));
    FramesCarryData(s.ab);
    ConcatOne(s.a.reserved);
  }

  /** What `a` is about to be handed fits and is neither an OPEN nor a CLOSE. */
  predicate Roomy(s: Pair)
  {
    s.ba != [] ==> s.ba[0].Window? || (s.ba[0].Data? && |s.a.inbox| < INBOX_FRAMES)
  }

  /** Work moves frames along its own direction; only `send` adds one. */
  lemma WorkSendsFrames(t: Transfer, w: Work)
    requires CanWorkA(t, w) && Live(t.s) && Roomy(t.s)
    ensures InFlight(WorkA(t, w).s) == InFlight(t.s) + (if w.WReserve? then [t.a.todo[0]] else [])
  {
    hide Frames;
    assert t.s.ab + [] == t.s.ab;
    if w.WEnqueue? {
      FramesPush(t.s.ab, Data(t.s.a.reserved));
      assert InFlight(WorkA(t, w).s) == t.s.b.inbox + (Frames(t.s.ab) + [t.s.a.reserved]) + [];
    } else if w.WGrant? {
      FramesPush(t.s.ab, Window(t.s.a.owed));
    } else if w.WReserve? {
      assert InFlight(t.s) == t.s.b.inbox + Frames(t.s.ab);
    }
  }

  /** On the way in, frames keep their order; only the reader takes one. */
  lemma WorkReadsFrames(t: Transfer, w: Work)
    requires CanWorkA(t, w) && Live(t.s) && Roomy(t.s)
    ensures var f := InFlight(t.s.Swap());
            w.WRecv? ==> f != [] && f[0] == t.s.a.inbox[0]
    ensures InFlight(WorkA(t, w).s.Swap()) == if w.WRecv? then InFlight(t.s.Swap())[1..] else InFlight(t.s.Swap())
  {
    hide Frames;
    var u := WorkA(t, w);
    if w.WDeliver? {
      DeliveryKeepsFrames(t.s);
    } else {
      assert u.s.ba == t.s.ba && u.s.b == t.s.b;
    }
  }

  lemma DeliveryKeepsFrames(s: Pair)
    requires CanA(s, Deliver(Served)) && Live(s) && Roomy(s)
    ensures InFlight(StepA(s, Deliver(Served)).Swap()) == InFlight(s.Swap())
  {
    hide Frames;
    var tail := if s.b.reserved == [] then [] else [s.b.reserved];
    FramesHead(s.ba);
    if s.ba[0].Data? {
      var bytes, rest := s.ba[0].bytes, Frames(s.ba[1..]);
      assert s.a.inbox + [bytes] + rest + tail == s.a.inbox + ([bytes] + rest) + tail;
    }
  }

  /** What a step of work does to the two sides' own lists. */
  lemma SidesMove(t: Transfer, w: Work)
    requires CanWorkA(t, w)
    ensures var u := WorkA(t, w);
            && u.b == t.b
            && (if w.WReserve? then t.a.todo != [] && u.a.todo == t.a.todo[1..] else u.a.todo == t.a.todo)
            && (if w.WRecv? then t.s.a.inbox != [] && u.a.read == t.a.read + [t.s.a.inbox[0]] else u.a.read == t.a.read)
  {
  }

  /** Work never changes which frames cross in either direction, nor their order. */
  lemma WorkKeepsPlan(t: Transfer, w: Work)
    requires CanWorkA(t, w) && Live(t.s) && Roomy(t.s)
    ensures Plan(WorkA(t, w)) == Plan(t) && Plan(WorkA(t, w).Swap()) == Plan(t.Swap())
  {
    WorkSendsFrames(t, w);
    WorkReadsFrames(t, w);
    SidesMove(t, w);
    hide InFlight, CanWorkA, WorkA, Live, Roomy;
    if w.WReserve? {
      PaidMoves(t.b.read, InFlight(t.s), t.a.todo);
    } else if w.WRecv? {
      var f := InFlight(t.s.Swap());
      assert (t.a.read + [f[0]]) + f[1..] == t.a.read + f;
    } else {
      assert InFlight(t.s) + [] == InFlight(t.s);
    }
  }

  lemma PaidMoves(read: seq<seq<byte>>, f: seq<seq<byte>>, todo: seq<seq<byte>>)
    requires todo != []
    ensures read + (f + [todo[0]]) + todo[1..] == read + f + todo
  {
  }

  /** A safe plan leaves room in the inbox for whatever comes next. */
  lemma WorkingIsRoomy(t: Transfer)
    requires Working(t)
    ensures Roomy(t.s) && Roomy(t.s.Swap())
  {
    hide OneWay;
    RoomFor(t);
    RoomFor(t.Swap());
  }

  lemma RoomFor(t: Transfer)
    requires CreditKept(t.s) && Busy(t.s.ab) && OneWay(t)
    ensures Roomy(t.s.Swap())
  {
    if t.s.ab != [] && t.s.ab[0].Data? && |t.s.b.inbox| >= INBOX_FRAMES {
      var f, i := InFlight(t.s), |t.b.read|;
      FramesHead(t.s.ab);
      assert SafeAt(Plan(t), i);
      assert Plan(t)[..i] == t.b.read;
      assert Plan(t)[i..i + INBOX_FRAMES + 1] == f[..INBOX_FRAMES + 1];
      PartIsSmaller(f, INBOX_FRAMES + 1);
      InFlightSize(t.s);
      hide InFlight, Frames, DataOf, GrantsOf, Concat, Owing, SafeAt, Safe, Framed;
      assert false;
    }
  }

  lemma PartIsSmaller(f: seq<seq<byte>>, k: nat)
    requires k <= |f|
    ensures |Concat(f[..k])| <= |Concat(f)|
  {
    ConcatAppend(f[..k], f[k..]);
    assert f[..k] + f[k..] == f;
  }

  /** The reader's accounts follow from the frames it has read. */
  lemma WorkKeepsAccounts(t: Transfer, w: Work)
    requires CanWorkA(t, w) && Live(t.s) && Roomy(t.s) && OwesFor(t.s.a, t.a.read) && t.s.a.got == Concat(t.a.read)
    requires t.s.a.inbox != [] ==> t.s.a.inbox[0] != []
    ensures var u := WorkA(t, w);
            OwesFor(u.s.a, u.a.read) && u.s.a.got == Concat(u.a.read)
    ensures WorkA(t, w).s.b == t.s.b && WorkA(t, w).b == t.b
  {
    hide Concat;
    if w.WRecv? {
      var frame := t.s.a.inbox[0];
      ConcatAppend(t.a.read, [frame]);
      ConcatOne(frame);
      assert (t.a.read + [frame])[..|t.a.read|] == t.a.read;
    }
  }

  /** A step of work keeps both ends live and the links full of real frames; only sends and grants add one. */
  lemma WorkKeepsLinks(t: Transfer, w: Work)
    requires CanWorkA(t, w) && Live(t.s) && Busy(t.s.ab) && Busy(t.s.ba) && Roomy(t.s)
    ensures var u := WorkA(t, w);
            Live(u.s) && Busy(u.s.ab) && Busy(u.s.ba)
    ensures |WorkA(t, w).s.ab| == |t.s.ab| + if w.WEnqueue? || w.WGrant? then 1 else 0
    ensures |WorkA(t, w).s.ba| == |t.s.ba| - if w.WDeliver? then 1 else 0
  {
  }

  /** A step of work moves at least one byte one station on. */
  lemma WorkAdvances(t: Transfer, w: Work)
    requires CanWorkA(t, w) && Live(t.s) && Busy(t.s.ba) && Roomy(t.s)
    requires t.s.a.inbox != [] ==> t.s.a.inbox[0] != []
    ensures Measure(WorkA(t, w)) < Measure(t)
  {
    hide Measure, Busy, Roomy, Live;
    match w
    case WDeliver => DeliveryAdvances(t);
    case WReserve => SendAdvances(t, w);
    case WEnqueue => SendAdvances(t, w);
    case WRecv => RecvAdvances(t);
    case WAccount => AccountAdvances(t);
    case WGrant => GrantAdvances(t);
  }

  lemma SendAdvances(t: Transfer, w: Work)
    requires CanWorkA(t, w) && (w.WReserve? || w.WEnqueue?)
    ensures Measure(WorkA(t, w)) < Measure(t)
  {
    hide DataOf, GrantsOf, Concat;
    StepPushes(t.s, EventOf(t, w));
    InboxSizes(t.a.todo, []);
  }

  lemma RecvAdvances(t: Transfer)
    requires CanWorkA(t, WRecv) && t.s.a.inbox[0] != []
    ensures Measure(WorkA(t, WRecv)) < Measure(t)
  {
    hide DataOf, GrantsOf, Concat;
    assert t.s.ab + [] == t.s.ab;
    InboxSizes(t.s.a.inbox, []);
  }

  lemma AccountAdvances(t: Transfer)
    requires CanWorkA(t, WAccount)
    ensures Measure(WorkA(t, WAccount)) < Measure(t)
  {
    hide DataOf, GrantsOf, Concat;
    assert t.s.ab + [] == t.s.ab;
  }

  lemma GrantAdvances(t: Transfer)
    requires CanWorkA(t, WGrant)
    ensures Measure(WorkA(t, WGrant)) < Measure(t)
  {
    hide DataOf, GrantsOf, Concat;
    StepPushes(t.s, Grant);
  }

  lemma DeliveryAdvances(t: Transfer)
    requires CanWorkA(t, WDeliver) && Live(t.s) && Busy(t.s.ba) && Roomy(t.s)
    ensures Measure(WorkA(t, WDeliver)) < Measure(t)
  {
    hide DataOf, GrantsOf, Concat;
    StepPushes(t.s, Deliver(Served));
    LinkHead(t.s.ba);
    if t.s.ba[0].Data? {
      InboxSizes(t.s.a.inbox, t.s.ba[0].bytes);
    }
  }

  lemma HeadNotEmpty(t: Transfer)
    requires Framed(Plan(t.Swap()))
    ensures t.s.a.inbox != [] ==> t.s.a.inbox[0] != []
  {
    if t.s.a.inbox != [] {
      assert Plan(t.Swap())[|t.a.read|] == t.s.a.inbox[0];
    }
  }

  /** A live transfer looks the same from both ends. */
  lemma WorkingSwaps(t: Transfer)
    requires Working(t)
    ensures Working(t.Swap()) && Measure(t.Swap()) == Measure(t)
  {
    hide CreditKept, BytesKept, Ahead, OneWay;
    assert t.Swap().Swap() == t && t.s.Swap().Swap() == t.s;
  }

  /** The same frames cross in both directions. */
  ghost predicate SamePlan(t: Transfer, u: Transfer)
  {
    Plan(u) == Plan(t) && Plan(u.Swap()) == Plan(t.Swap())
  }

  /** Work keeps a transfer working, comes closer to its end, and sends what it was asked to send. */
  lemma WorkKeeps(t: Transfer, w: Work)
    requires Working(t) && CanWorkA(t, w)
    ensures Working(WorkA(t, w)) && Measure(WorkA(t, w)) < Measure(t)
    ensures SamePlan(t, WorkA(t, w))
  {
    hide Inv, Busy, Ahead, Plan, OwesFor, Safe, Framed, Live, Roomy;
    WorkingIsRoomy(t);
    HeadNotEmpty(t);
    WorkKeepsPlan(t, w);
    WorkKeepsAccounts(t, w);
    WorkKeepsLinks(t, w);
    WorkAdvances(t, w);
    StepKeepsInv(t.s, AtA(EventOf(t, w)));
  }

  lemma DoWorkKeeps(t: Transfer, sw: SideWork)
    requires Working(t) && CanWork(t, sw)
    ensures Working(DoWork(t, sw)) && Measure(DoWork(t, sw)) < Measure(t)
    ensures SamePlan(t, DoWork(t, sw))
  {
    hide Working, Measure, CanWorkA, WorkA, Plan;
    if sw.OnA? {
      WorkKeeps(t, sw.w);
    } else {
      WorkingSwaps(t);
      WorkKeeps(t.Swap(), sw.w);
      WorkingSwaps(WorkA(t.Swap(), sw.w));
      assert t.Swap().Swap() == t;
    }
  }

  // ---- Never stuck, always done ----

  /** One end with something left to send can send it, once everything else has come to rest. */
  lemma SideCanWork(t: Transfer) returns (w: Work)
    requires CreditKept(t.s) && Live(t.s) && Framed(Plan(t)) && t.s.ab == [] && t.s.ba == []
    requires t.s.b.inbox == [] && t.s.b.hand == 0 && t.s.b.owed < GRANT_THRESHOLD
    requires t.a.todo != [] || t.s.a.reserved != []
    ensures CanWorkA(t, w)
  {
    if t.s.a.reserved != [] {
      w := WEnqueue;
    } else {
      w := WReserve;
      assert Plan(t)[|t.b.read|] == t.a.todo[0];
      DrainedSenderCanSend(t.s, t.a.todo[0]);
    }
  }

  /** A transfer that is not finished always has something to do, if its frames get through. */
  lemma LaneCanWork(t: Transfer) returns (sw: SideWork)
    requires Working(t) && !Done(t)
    ensures CanWork(t, sw)
  {
    hide Busy, Ordered, CreditKept, BytesKept, Plan, Safe, OwesFor;
    var s := t.s;
    if s.ba != [] { return OnA(WDeliver); }
    if s.ab != [] { return OnB(WDeliver); }
    if s.a.hand > 0 { return OnA(WAccount); }
    if s.b.hand > 0 { return OnB(WAccount); }
    if s.a.owed >= GRANT_THRESHOLD { return OnA(WGrant); }
    if s.b.owed >= GRANT_THRESHOLD { return OnB(WGrant); }
    if s.a.inbox != [] { return OnA(WRecv); }
    if s.b.inbox != [] { return OnB(WRecv); }
    if t.a.todo != [] || s.a.reserved != [] {
      var w := SideCanWork(t);
      return OnA(w);
    }
    var w := SideCanWork(t.Swap());
    return OnB(w);
  }

  /** Both readers have taken exactly the frames the other end was asked to send. */
  ghost predicate Delivered(t: Transfer, u: Transfer)
  {
    && u.b.read == Plan(t) && u.s.b.got == Concat(Plan(t))
    && u.a.read == Plan(t.Swap()) && u.s.a.got == Concat(Plan(t.Swap()))
  }

  lemma DoneIsDelivered(t: Transfer)
    requires Working(t) && Done(t)
    ensures Delivered(t, t)
  {
    hide Inv, Safe, Framed, OwesFor;
    assert InFlight(t.s) == [] && InFlight(t.s.Swap()) == [];
    assert t.b.read + [] + [] == t.b.read && t.a.read + [] + [] == t.a.read;
  }

  /** A stream that has just been opened, with everything still to send. */
  function JustOpened(x: seq<seq<byte>>, y: seq<seq<byte>>): Transfer
  {
    Transfer(Pair(FRESH, FRESH, [], [], true), Side(x, []), Side(y, []))
  }

  lemma OpenedIsWorking(x: seq<seq<byte>>, y: seq<seq<byte>>)
    requires Framed(x) && Framed(y) && Safe(x) && Safe(y)
    ensures Working(JustOpened(x, y)) && Measure(JustOpened(x, y)) == 7 * (|Concat(x)| + |Concat(y)|)
    ensures Plan(JustOpened(x, y)) == x && Plan(JustOpened(x, y).Swap()) == y
  {
    hide Framed, Safe;
    var s := Pair(FRESH, FRESH, [], [], true);
    assert Concat([]) == [] && DataOf([]) == [] && GrantsOf([]) == 0;
    assert Inv(s);
    assert InFlight(s) == [] && InFlight(s.Swap()) == [];
    assert [] + [] + x == x && [] + [] + y == y;
  }

  /** An inbox somewhere is about to be handed one frame too many. */
  predicate Overflows(t: Transfer)
  {
    WouldOverflow(t.s) || WouldOverflow(t.s.Swap())
  }
}
