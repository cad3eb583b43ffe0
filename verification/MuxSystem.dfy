/**
 Two sessions joined by two FIFO links, every stream at once.  Seen from any one
 stream the whole system behaves as the two-ended stream of `MuxPair`, so what is
 proved there holds of every stream of every run here.
 */
module MuxSystem {
  import opened Bytes
  import opened Wire
  import opened MuxPair
  import opened MuxSessions

  datatype Sys = Sys(a: End, b: End, ab: seq<Packet>, ba: seq<Packet>, up: bool)
  {
    function Swap(): Sys
    {
      Sys(b, a, ba, ab, up)
    }
  }

  /** A step of one stream's task, one turn of the read loop, a keepalive, or the death of the link. */
  datatype Move = Task(id: nat, ev: Event) | Read | Ping | Dies

  predicate MayA(s: Sys, x: Move)
  {
    match x
    case Task(id, ev) =>
      && IsLocal(ev) && CanLocal(Get(s.a.halves, id), s.up, ev)
      && (ev.Insert? ==> s.a.free > 0 && id == NextId(s.a.issued) && s.a.issued < ID_SPACE - 1)
    case Read => s.ba != [] && s.up
    case Ping => s.up
    case Dies => s.up
  }

  function MoveA(s: Sys, x: Move): Sys
    requires MayA(s, x)
  {
    match x
    case Task(id, ev) =>
      var (e, out) := Local(s.a, s.up, id, ev);
      s.(a := e, ab := s.ab + out)
    case Read =>
      var (e, out) := Hear(s.a, s.ba[0]);
      s.(a := e, ba := s.ba[1..], ab := s.ab + out)
    case Ping => s.(ab := s.ab + [KEEPALIVE])
    case Dies => s.(ab := [], ba := [], up := false)
  }

  datatype SysEvent = AtProxy(x: Move) | AtBridge(x: Move)

  /** Streams are opened by the proxy, keepalives come from the bridge. */
  predicate May(s: Sys, m: SysEvent)
  {
    match m
    case AtProxy(x) => MayA(s, x) && !x.Ping?
    case AtBridge(x) => MayA(s.Swap(), x) && (x.Task? ==> !x.ev.Insert? && !x.ev.Announce?)
  }

  function Do(s: Sys, m: SysEvent): Sys
    requires May(s, m)
  {
    match m
    case AtProxy(x) => MoveA(s, x)
    case AtBridge(x) => MoveA(s.Swap(), x).Swap()
  }

  predicate SysRuns(s: Sys, run: seq<SysEvent>)
    decreases |run|
  {
    run == [] || (May(s, run[0]) && SysRuns(Do(s, run[0]), run[1..]))
  }

  function SysAfter(s: Sys, run: seq<SysEvent>): Sys
    requires SysRuns(s, run)
    decreases |run|
  {
    if run == [] then s else SysAfter(Do(s, run[0]), run[1..])
  }

  /** A link just brought up: the proxy registers no handler, the bridge does. */
  function Booted(limitA: nat, limitB: nat): Sys
  {
    Sys(End(map[], limitA, 0, false), End(map[], limitB, 0, true), [], [], true)
  }

  // ---- One stream's view ----

  function Filter(link: seq<Packet>, j: nat): seq<Msg>
  {
    if link == [] then []
    else (if link[0].id == j then [link[0].msg] else []) + Filter(link[1..], j)
  }

  function Project(s: Sys, j: nat): Pair
  {
    Pair(Get(s.a.halves, j), Get(s.b.halves, j), Filter(s.ab, j), Filter(s.ba, j), s.up)
  }

  lemma {:induction false} FilterAppend(xs: seq<Packet>, ys: seq<Packet>, j: nat)
    ensures Filter(xs + ys, j) == Filter(xs, j) + Filter(ys, j)
    decreases |xs|
  {
    hide Filter;
    if xs == [] {
      FilterNothing(j);
      assert xs + ys == ys && [] + Filter(ys, j) == Filter(ys, j);
    } else {
      FilterHead(xs, j);
      FilterHead(xs + ys, j);
      assert (xs + ys)[0] == xs[0] && (xs + ys)[1..] == xs[1..] + ys;
      FilterAppend(xs[1..], ys, j);
      Associate([xs[0].msg], Filter(xs[1..], j), Filter(ys, j));
    }
  }

  lemma {:induction false} FilterTag(id: nat, msgs: seq<Msg>, j: nat)
    ensures Filter(Tag(id, msgs), j) == if id == j then msgs else []
    decreases |msgs|
  {
    if msgs != [] {
      assert Tag(id, msgs)[1..] == Tag(id, msgs[1..]);
      FilterTag(id, msgs[1..], j);
      assert [msgs[0]] + msgs[1..] == msgs;
    }
  }

  /** What stream `j` notices of a move of the near end. */
  function Notices(s: Sys, x: Move, j: nat): Option<Event>
    requires MayA(s, x)
  {
    match x
    case Task(id, ev) => if id == j then Some(ev) else None
    case Read => if s.ba[0].id == j then Some(Deliver(Greets(s.a))) else None
    case Ping => None
    case Dies => Some(LinkDies)
  }

  /** Each move is one step of the streams it concerns and no step of the others. */
  lemma MoveRefines(s: Sys, x: Move, j: nat)
    requires MayA(s, x) && j != 0
    ensures match Notices(s, x, j)
            case None => Project(MoveA(s, x), j) == Project(s, j)
            case Some(ev) => CanA(Project(s, j), ev) && Project(MoveA(s, x), j) == StepA(Project(s, j), ev)
  {
    hide Filter;
    match x
    case Task(id, ev) =>
      var out := Emits(Get(s.a.halves, id), s.up, ev);
      FilterAppend(s.ab, Tag(id, out), j);
      FilterTag(id, out, j);
      assert Filter(s.ab, j) + [] == Filter(s.ab, j);
    case Read =>
      var p := s.ba[0];
      var out := Hear(s.a, p).1;
      FilterAppend(s.ab, out, j);
      FilterHead(s.ba, j);
      if p.id == 0 {
        FilterTag(0, [Data([])], j);
        assert Tag(0, [Data([])]) == out;
      } else {
        FilterTag(p.id, Dispatch(Get(s.a.halves, p.id), p.msg, Greets(s.a)).1, j);
      }
      assert Filter(s.ab, j) + [] == Filter(s.ab, j);
    case Ping =>
      FilterAppend(s.ab, [KEEPALIVE], j);
      FilterTag(0, [Data([])], j);
      assert Tag(0, [Data([])]) == [KEEPALIVE];
      assert Filter(s.ab, j) + [] == Filter(s.ab, j);
    case Dies => FilterNothing(j);
  }

  lemma FilterHead(link: seq<Packet>, j: nat)
    requires link != []
    ensures Filter(link, j) == if link[0].id == j then [link[0].msg] + Filter(link[1..], j) else Filter(link[1..], j)
  {
  }

  lemma FilterNothing(j: nat)
    ensures Filter([], j) == []
  {
  }

  /** The steps stream `j` takes part in during a run. */
  function RunOf(s: Sys, run: seq<SysEvent>, j: nat): seq<PairEvent>
    requires SysRuns(s, run)
    decreases |run|
  {
    if run == [] then []
    else
      var here := match run[0]
        case AtProxy(x) => (match Notices(s, x, j) case None => [] case Some(ev) => [AtA(ev)])
        case AtBridge(x) => (match Notices(s.Swap(), x, j) case None => [] case Some(ev) => [AtB(ev)]);
      here + RunOf(Do(s, run[0]), run[1..], j)
  }

  /**
   Refinement: any interleaved run of all streams is, for each stream, a run of that
   stream alone, and ends with that stream in the same state.
   */
  lemma {:induction false} EachStreamRunsAlone(s: Sys, run: seq<SysEvent>, j: nat)
    requires SysRuns(s, run) && j != 0
    ensures Runs(Project(s, j), RunOf(s, run, j))
    ensures After(Project(s, j), RunOf(s, run, j)) == Project(SysAfter(s, run), j)
    decreases |run|
  {
    hide Project, CanA, StepA, MoveA, MayA;
    if run != [] {
      var p, next := Project(s, j), Do(s, run[0]);
      EachStreamRunsAlone(next, run[1..], j);
      var rest := RunOf(next, run[1..], j);
      SwapProjects(s, j);
      SwapProjects(next, j);
      match run[0] {
        case AtProxy(x) =>
          MoveRefines(s, x, j);
          if Notices(s, x, j).Some? {
            RunsCons(p, AtA(Notices(s, x, j).value), rest);
          } else {
            assert [] + rest == rest;
          }
        case AtBridge(x) =>
          MoveRefines(s.Swap(), x, j);
          NoOpens(s, x, j);
          if Notices(s.Swap(), x, j).Some? {
            RunsCons(p, AtB(Notices(s.Swap(), x, j).value), rest);
          } else {
            assert [] + rest == rest;
          }
      }
    }
  }

  lemma SwapProjects(s: Sys, j: nat)
    ensures Project(s.Swap(), j) == Project(s, j).Swap()
  {
  }

  lemma NoOpens(s: Sys, x: Move, j: nat)
    requires May(s, AtBridge(x))
    ensures var n := Notices(s.Swap(), x, j);
            n.Some? ==> !n.value.Insert? && !n.value.Announce?
  {
  }

  lemma RunsCons(p: Pair, pe: PairEvent, rest: seq<PairEvent>)
    requires Can(p, pe) && Runs(Step(p, pe), rest)
    ensures Runs(p, [pe] + rest) && After(p, [pe] + rest) == After(Step(p, pe), rest)
  {
    assert ([pe] + rest)[1..] == rest;
  }

  /** Credit conservation for every stream of every run of the whole system. */
  lemma SystemCreditConservation(limitA: nat, limitB: nat, run: seq<SysEvent>, j: nat)
    requires SysRuns(Booted(limitA, limitB), run) && j != 0
    ensures var s := Project(SysAfter(Booted(limitA, limitB), run), j);
            && Held(s) <= WINDOW && (Whole(s) ==> Held(s) == WINDOW)
            && Held(s.Swap()) <= WINDOW && (Whole(s.Swap()) ==> Held(s.Swap()) == WINDOW)
  {
    EachStreamRunsAlone(Booted(limitA, limitB), run, j);
    CreditConservation(RunOf(Booted(limitA, limitB), run, j));
  }

  /** No stream's bytes are lost, repeated, reordered or mixed with another's. */
  lemma SystemExactness(limitA: nat, limitB: nat, run: seq<SysEvent>, j: nat)
    requires SysRuns(Booted(limitA, limitB), run) && j != 0
    ensures var s := Project(SysAfter(Booted(limitA, limitB), run), j);
            && s.b.got <= s.a.handed && s.a.got <= s.b.handed
            && (Hears(s, s.b) ==> s.a.handed == s.b.got + Concat(s.b.inbox) + DataOf(s.ab) + s.a.reserved)
            && (Hears(s, s.a) ==> s.b.handed == s.a.got + Concat(s.a.inbox) + DataOf(s.ba) + s.b.reserved)
  {
    EachStreamRunsAlone(Booted(limitA, limitB), run, j);
    StreamExactness(RunOf(Booted(limitA, limitB), run, j));
  }

  // ---- Budget and ids ----

  /** Permits are either free or each held by one stream in the map; ids met are ids issued. */
  ghost predicate Budgeted(s: Sys, limitA: nat, limitB: nat)
  {
    && s.a.free + |Members(s.a.halves)| == limitA
    && s.b.free + |Members(s.b.halves)| == limitB
  }

  lemma MoveKeepsBudget(s: Sys, x: Move, limit: nat)
    requires MayA(s, x) && s.a.free + |Members(s.a.halves)| == limit
    ensures MoveA(s, x).a.free + |Members(MoveA(s, x).a.halves)| == limit
    ensures MoveA(s, x).b == s.b
  {
    match x
    case Task(id, ev) => PutMembers(s.a, id, LocalStep(Get(s.a.halves, id), s.up, ev));
    case Read =>
      var p := s.ba[0];
      if p.id != 0 {
        PutMembers(s.a, p.id, Dispatch(Get(s.a.halves, p.id), p.msg, Greets(s.a)).0);
      }
    case Ping =>
    case Dies =>
  }

  /** In every run neither session ever carries more streams than its ceiling. */
  lemma {:induction false} SystemBudget(s: Sys, run: seq<SysEvent>, limitA: nat, limitB: nat)
    requires SysRuns(s, run) && Budgeted(s, limitA, limitB)
    ensures Budgeted(SysAfter(s, run), limitA, limitB)
    ensures |Members(SysAfter(s, run).a.halves)| <= limitA && |Members(SysAfter(s, run).b.halves)| <= limitB
    decreases |run|
  {
    if run != [] {
      match run[0] {
        case AtProxy(x) => MoveKeepsBudget(s, x, limitA);
        case AtBridge(x) => MoveKeepsBudget(s.Swap(), x, limitB);
      }
      SystemBudget(Do(s, run[0]), run[1..], limitA, limitB);
    }
  }

  // ---- Every frame is one the link codec can carry ----

  /** The widths of the frame types: a 32-bit id, a payload within the frame ceiling, a 32-bit grant. */
  predicate Carried(p: Packet)
  {
    && p.id < ID_SPACE && !p.msg.Other?
    && (p.msg.Data? ==> |p.msg.bytes| <= MAX_PAYLOAD)
    && (p.msg.Window? ==> p.msg.grant <= WINDOW)
  }

  predicate AllCarried(link: seq<Packet>)
  {
    forall i :: 0 <= i < |link| ==> Carried(link[i])
  }

  predicate Narrow(e: End)
  {
    && e.issued < ID_SPACE
    && forall id :: id in e.halves ==> 0 < id < ID_SPACE && |e.halves[id].reserved| <= MAX_PAYLOAD
  }

  predicate Fitting(s: Sys)
  {
    AllCarried(s.ab) && AllCarried(s.ba) && Narrow(s.a) && Narrow(s.b)
  }

  /** Every stream, seen alone, keeps its invariant. */
  ghost predicate AllInv(s: Sys)
  {
    forall j: nat :: j != 0 ==> Inv(Project(s, j))
  }

  /** What the proxy has met is what it has issued. */
  ghost predicate IdsIssued(s: Sys)
  {
    forall j: nat :: Get(s.a.halves, j).met ==> 0 < j <= s.a.issued
  }

  lemma TaskSaysCarried(s: Sys, id: nat, ev: Event)
    requires MayA(s, Task(id, ev)) && Narrow(s.a) && Get(s.a.halves, id).owed <= WINDOW
    ensures AllCarried(Tag(id, Emits(Get(s.a.halves, id), s.up, ev)))
    ensures Narrow(Local(s.a, s.up, id, ev).0)
  {
    assert id in s.a.halves || ev.Insert?;
  }

  lemma ReadSaysCarried(s: Sys)
    requires MayA(s, Read) && Narrow(s.a) && AllCarried(s.ba)
    ensures AllCarried(Hear(s.a, s.ba[0]).1) && Narrow(Hear(s.a, s.ba[0]).0)
  {
    assert Carried(s.ba[0]);
  }

  lemma KeepaliveIsCarried()
    ensures Carried(KEEPALIVE)
  {
  }

  lemma MoveKeepsWidths(s: Sys, x: Move)
    requires MayA(s, x) && Fitting(s)
    requires x.Task? ==> Get(s.a.halves, x.id).owed <= WINDOW
    ensures Fitting(MoveA(s, x))
  {
    hide Carried, Narrow;
    match x
    case Task(id, ev) => TaskSaysCarried(s, id, ev);
    case Read => ReadSaysCarried(s);
    case Ping => KeepaliveIsCarried();
    case Dies =>
  }

  /** A half owes at most a window; id 0 has no half at all. */
  lemma OwesAWindow(s: Sys, id: nat)
    requires AllInv(s) && Fitting(s)
    ensures Get(s.a.halves, id).owed <= WINDOW && Get(s.b.halves, id).owed <= WINDOW
  {
    if id != 0 {
      assert Inv(Project(s, id));
    }
  }

  lemma DoKeepsWidths(s: Sys, m: SysEvent)
    requires May(s, m) && AllInv(s) && Fitting(s)
    ensures Fitting(Do(s, m))
  {
    hide AllInv, AllCarried, Narrow, MayA, MoveA;
    if m.x.Task? {
      OwesAWindow(s, m.x.id);
    }
    MoveKeepsWidths(if m.AtProxy? then s else s.Swap(), m.x);
  }

  lemma DoKeepsInvs(s: Sys, m: SysEvent)
    requires May(s, m) && AllInv(s)
    ensures AllInv(Do(s, m))
  {
    hide Inv, Project, May, Do, RunOf;
    var one := [m];
    var rest := one[1..];
    assert rest == [];
    assert SysRuns(Do(s, m), rest) && SysAfter(Do(s, m), rest) == Do(s, m);
    assert SysRuns(s, one) && SysAfter(s, one) == Do(s, m);
    forall j: nat | j != 0
      ensures Inv(Project(Do(s, m), j))
    {
      EachStreamRunsAlone(s, one, j);
      RunKeepsInv(Project(s, j), RunOf(s, one, j));
    }
  }

  lemma NoOpenComesBack(s: Sys)
    requires AllInv(s) && s.ba != [] && s.ba[0].id != 0
    ensures !s.ba[0].msg.Open?
  {
    assert Inv(Project(s, s.ba[0].id));
    assert OpenFree(Filter(s.ba, s.ba[0].id));
    assert Filter(s.ba, s.ba[0].id)[0] == s.ba[0].msg;
  }

  lemma MoveKeepsIds(s: Sys, x: Move)
    requires MayA(s, x) && s.a.issued < ID_SPACE && IdsIssued(s)
    requires x.Read? && s.ba[0].id != 0 ==> !s.ba[0].msg.Open?
    ensures IdsIssued(MoveA(s, x))
  {
    var t := MoveA(s, x);
    forall j: nat | Get(t.a.halves, j).met
      ensures 0 < j <= t.a.issued
    {
      var was := Get(s.a.halves, j);
      match x
      case Task(id, ev) =>
        if id == j && ev.Insert? {
          assert NextId(s.a.issued) == 1 + s.a.issued;
        } else {
          assert was.met;
        }
      case _ => assert was.met;
    }
  }

  lemma DoKeepsIds(s: Sys, m: SysEvent)
    requires May(s, m) && AllInv(s) && Fitting(s) && IdsIssued(s)
    ensures IdsIssued(Do(s, m))
  {
    hide AllInv, AllCarried, Narrow;
    NarrowIssued(s.a);
    if m.AtProxy? {
      if m.x.Read? && s.ba[0].id != 0 {
        NoOpenComesBack(s);
      }
      MoveKeepsIds(s, m.x);
    }
  }

  lemma NarrowIssued(e: End)
    requires Narrow(e)
    ensures e.issued < ID_SPACE
  {
  }

  lemma {:induction false} RunKeepsTidy(s: Sys, run: seq<SysEvent>)
    requires SysRuns(s, run) && AllInv(s) && Fitting(s) && IdsIssued(s)
    ensures AllInv(SysAfter(s, run)) && Fitting(SysAfter(s, run)) && IdsIssued(SysAfter(s, run))
    decreases |run|
  {
    hide AllInv, Fitting, IdsIssued, May, Do;
    if run != [] {
      DoKeepsInvs(s, run[0]);
      DoKeepsWidths(s, run[0]);
      DoKeepsIds(s, run[0]);
      RunKeepsTidy(Do(s, run[0]), run[1..]);
    }
  }

  lemma BootedIsTidy(limitA: nat, limitB: nat)
    ensures var s := Booted(limitA, limitB); AllInv(s) && Fitting(s) && IdsIssued(s)
  {
    forall j: nat
      ensures Inv(Project(Booted(limitA, limitB), j))
    {
      assert Runs(START, []);
      RunKeepsInv(START, []);
    }
  }

  /**
   In every run each frame on either link is one a Noise message can carry, and an
   open that gets a permit always gets an id nothing on the link has used.
   */
  lemma SystemFramesFit(limitA: nat, limitB: nat, run: seq<SysEvent>)
    requires SysRuns(Booted(limitA, limitB), run)
    ensures var s := SysAfter(Booted(limitA, limitB), run);
            && AllCarried(s.ab) && AllCarried(s.ba)
            && (s.a.free > 0 && s.a.issued < ID_SPACE - 1 ==> MayA(s, Task(NextId(s.a.issued), Insert)))
  {
    BootedIsTidy(limitA, limitB);
    RunKeepsTidy(Booted(limitA, limitB), run);
  }

  // ---- The converse: what a stream can do alone, it can do in the system ----

  /** The read loop comes to the first frame of stream `j` by reading those in front of it. */
  lemma {:induction false} ReadsUpTo(s: Sys, j: nat) returns (run: seq<Move>)
    requires s.up && j != 0 && Filter(s.ba, j) != []
    ensures NearRuns(s, run) && Project(NearAfter(s, run), j) == Project(s, j)
    ensures NearAfter(s, run).ba != [] && NearAfter(s, run).ba[0].id == j && NearAfter(s, run).up
    decreases |s.ba|
  {
    if s.ba[0].id == j {
      run := [];
    } else {
      MoveRefines(s, Read, j);
      hide Project, Hear;
      var n := MoveA(s, Read);
      assert Filter(n.ba, j) == Filter(s.ba, j);
      var rest := ReadsUpTo(n, j);
      run := [Read] + rest;
      assert run[1..] == rest;
    }
  }

  /** Moves of the near end alone. */
  predicate NearRuns(s: Sys, run: seq<Move>)
    decreases |run|
  {
    run == [] || (MayA(s, run[0]) && NearRuns(MoveA(s, run[0]), run[1..]))
  }

  function NearAfter(s: Sys, run: seq<Move>): Sys
    requires NearRuns(s, run)
    decreases |run|
  {
    if run == [] then s else NearAfter(MoveA(s, run[0]), run[1..])
  }

  lemma {:induction false} NearAppend(s: Sys, run: seq<Move>, x: Move) returns (longer: seq<Move>)
    requires NearRuns(s, run) && MayA(NearAfter(s, run), x)
    ensures NearRuns(s, longer) && NearAfter(s, longer) == MoveA(NearAfter(s, run), x)
    decreases |run|
  {
    hide MayA, MoveA;
    if run == [] {
      longer := [x];
      assert [x][1..] == [];
    } else {
      var rest := NearAppend(MoveA(s, run[0]), run[1..], x);
      longer := [run[0]] + rest;
      assert longer[1..] == rest;
    }
  }

  /**
   Whatever a stream could do next if it were alone, it can do among the others after
   finitely many turns of the read loop, and it ends in the same state.
   */
  lemma StreamMovesOn(s: Sys, j: nat, ev: Event) returns (run: seq<Move>)
    requires j != 0 && CanA(Project(s, j), ev) && !ev.Insert?
    requires ev.Deliver? && Filter(s.ba, j) != [] ==> !Filter(s.ba, j)[0].Open?
    ensures NearRuns(s, run) && Project(NearAfter(s, run), j) == StepA(Project(s, j), ev)
  {
    if ev.Deliver? {
      run := ReadsUpTo(s, j);
      var n := NearAfter(s, run);
      MoveRefines(n, Read, j);
      run := NearAppend(s, run, Read);
    } else {
      run := [];
      var x := if ev.LinkDies? then Dies else Task(j, ev);
      MoveRefines(s, x, j);
      run := NearAppend(s, run, x);
    }
  }

  /** With a permit and an id left a new stream can always be opened, and it is born as in `MuxPair`. */
  lemma StreamIsBorn(s: Sys)
    requires s.a.free > 0 && s.a.issued < ID_SPACE - 1 && !Get(s.a.halves, NextId(s.a.issued)).met
    ensures var j := NextId(s.a.issued);
            && MayA(s, Task(j, Insert)) && j != 0
            && Project(MoveA(s, Task(j, Insert)), j) == StepA(Project(s, j), Insert)
  {
    MoveRefines(s, Task(NextId(s.a.issued), Insert), NextId(s.a.issued));
  }
}
