/**
 `MuxStreamIo` of src/mux.rs: one mux stream as a byte stream, with credit given back
 opportunistically and writes coalesced into one in-flight send at a time.
 */
module MuxStreamIos {
  import opened Bytes
  import opened Wire

  datatype ReadPoll = Ready(data: seq<byte>) | NotReady
  /** What polling the in-flight `StreamTx::send` answers. */
  datatype SendPoll = Sent | SendFailed | SendPending
  datatype FlushPoll = Flushed | FlushFailed | Flushing

  function BytesOf(o: Option<seq<byte>>): seq<byte>
  {
    if o.Some? then o.value else []
  }

  lemma Unqueue(returned: seq<byte>, queue: seq<seq<byte>>)
    requires queue != []
    ensures returned + [] + Concat(queue) == returned + queue[0] + Concat(queue[1..])
  {
  }

  // ---- Flushing, as a function of the writing side ----

  /** Bytes buffered, the send in flight, and the bytes of sends that have completed. */
  datatype WriteSide = WriteSide(out: seq<byte>, pending: Option<seq<byte>>, handed: seq<byte>)
  {
    /** Everything accepted that no failed send has lost, in order. */
    function All(): seq<byte>
    {
      handed + BytesOf(pending) + out
    }

    /** A send in flight owns the buffer. */
    predicate Ordered()
    {
      pending.Some? ==> out == [] && pending.value != []
    }
  }

  /** One poll of the flush, when polling the send in flight answers `sending`. */
  function FlushOnce(w: WriteSide, sending: SendPoll): (WriteSide, FlushPoll)
  {
    if w.pending.Some? && sending.SendPending? then (w, Flushing)
    else if w.pending.Some? && sending.SendFailed? then (w.(pending := None), FlushFailed)
    else
      var rest := w.(pending := None, handed := w.handed + BytesOf(w.pending));
      if w.out == [] then (rest, Flushed)
      else (rest.(out := [], pending := Some(w.out)), Flushing)
  }

  /** A flush starts the send of everything buffered at once, and reports ready only with nothing left. */
  lemma FlushStartsSend(w: WriteSide, sending: SendPoll)
    requires w.Ordered()
    ensures var (n, r) := FlushOnce(w, sending);
            && n.Ordered() && n.out == []
            && (r.Flushing? ==> n.pending.Some? && n.All() == w.All())
            && (r.Flushed? ==> n.pending.None? && n.handed == w.All())
            && (r.FlushFailed? <==> w.pending.Some? && sending.SendFailed?)
  {
    assert w.handed + [] == w.handed;
    assert w.handed + w.out + [] == w.handed + [] + w.out;
  }

  /**
   As soon as the send in flight succeeds, flushing takes at most one more poll: the
   first poll that finds no send in flight starts one for all that is buffered, and
   polling that one hands everything accepted over.
   */
  lemma FlushEnds(w: WriteSide)
    requires w.Ordered()
    ensures var (n, r) := FlushOnce(w, Sent);
            if w.pending.Some? || w.out == [] then r == Flushed && n.handed == w.All()
            else r == Flushing && n.pending == Some(w.out) && FlushOnce(n, Sent) == (WriteSide([], None, w.All()), Flushed)
  {
    assert w.handed + [] == w.handed;
    assert w.handed + w.out + [] == w.handed + [] + w.out;
  }

  class MuxStreamIo {
    /** The receive channel: chunks dispatched and not yet received, and whether its sender is gone. */
    var queue: seq<seq<byte>>
    var ended: bool
    /** What is left of the chunk the reader is in the middle of. */
    var inbox: Option<seq<byte>>
    var out: seq<byte>
    var pending: Option<seq<byte>>
    var creditDue: nat
    /** `close_stream` has been called. */
    var closed: bool

    ghost var dispatched: seq<byte>
    ghost var returned: seq<byte>
    ghost var granted: nat
    ghost var accepted: seq<byte>
    /** Bytes of sends that have completed. */
    ghost var handed: seq<byte>
    /** A send failed, so its bytes are gone. */
    ghost var failed: bool

    /** Bytes come out in the order they were dispatched, and each is granted back or still owed. */
    ghost predicate ReadsKept()
      reads this
    {
      && (inbox.Some? ==> inbox.value != [])
      && returned + BytesOf(inbox) + Concat(queue) == dispatched
      && granted + creditDue == |returned|
    }

    /** Bytes go out in the order they were accepted, through at most one send at a time. */
    ghost predicate WritesKept()
      reads this
    {
      && (pending.Some? ==> out == [] && pending.value != [])
      && |out| < WRITE_COALESCE
      && (!failed ==> handed + BytesOf(pending) + out == accepted)
    }

    ghost predicate Valid()
      reads this
    {
      ReadsKept() && WritesKept()
    }

    ghost function Writing(): WriteSide
      reads this
    {
      WriteSide(out, pending, handed)
    }

    constructor ()
      ensures Valid() && dispatched == [] && returned == [] && accepted == [] && handed == []
      ensures granted == 0 && !failed && !closed && !ended
    {
      queue, ended, inbox, out, pending, creditDue, closed := [], false, None, [], None, 0, false;
      dispatched, returned, granted, accepted, handed, failed := [], [], 0, [], [], false;
    }

    /** The read loop dispatches one more chunk to this stream. */
    method Dispatch(chunk: seq<byte>)
      requires Valid() && !ended
      modifies this`queue, this`dispatched
      ensures Valid() && dispatched == old(dispatched) + chunk && queue == old(queue) + [chunk]
    {
      ConcatAppend(queue, [chunk]);
      ConcatOne(chunk);
      assert returned + BytesOf(inbox) + (Concat(queue) + chunk) == returned + BytesOf(inbox) + Concat(queue) + chunk;
      queue, dispatched := queue + [chunk], dispatched + chunk;
    }

    /** Offer all credit owed; a full outbox leaves it owed. */
    method FlushCredit(room: bool)
      requires Valid()
      modifies this`creditDue, this`granted
      ensures Valid() && granted + creditDue == old(granted) + old(creditDue)
      ensures creditDue == (if room then 0 else old(creditDue))
    {
      if creditDue == 0 {
        return;
      }
      if room {
        granted := granted + creditDue;
        creditDue := 0;
      }
    }

    /** What fits the reader's buffer, and the tail that stays in hand. */
    static method Split(chunk: seq<byte>, cap: nat) returns (data: seq<byte>, rest: Option<seq<byte>>)
      ensures data + BytesOf(rest) == chunk && |data| == Min(|chunk|, cap)
      ensures rest.Some? ==> rest.value != []
    {
      data := chunk[..Min(|chunk|, cap)];
      rest := if |data| < |chunk| then Some(chunk[|data|..]) else None;
    }

    /** Take up to `cap` bytes out of the frame in hand or the next one. */
    method TakeBytes(cap: nat) returns (data: seq<byte>)
      requires Valid() && (inbox.Some? || queue != [])
      modifies this`inbox, this`queue, this`returned, this`creditDue
      ensures Valid() && returned == old(returned) + data && |data| <= cap
      ensures creditDue == old(creditDue) + |data|
      ensures |data| == Min(cap, if old(inbox).Some? then |old(inbox).value| else |old(queue)[0]|)
      ensures data == [] <==> cap == 0 || (old(inbox).None? && old(queue)[0] == [])
    {
      hide Concat;
      if inbox.Some? {
        data, inbox := Split(inbox.value, cap);
      } else {
        Unqueue(returned, queue);
        data, inbox := Split(queue[0], cap);
        queue := queue[1..];
      }
      Associate(returned, data, BytesOf(inbox));
      returned := returned + data;
      creditDue := creditDue + |data|;
    }

    /** `room` says whether the outbox would take a grant right now. */
    method PollRead(cap: nat, room: bool) returns (r: ReadPoll)
      requires Valid()
      modifies this
      ensures Valid() && WriteSideKept(old(out), old(pending), old(accepted), old(handed))
      ensures returned == old(returned) + if r.Ready? then r.data else []
      ensures granted + creditDue == |returned| && dispatched == old(dispatched)
      ensures r.NotReady? <==> old(inbox).None? && old(queue) == [] && !old(ended)
      // An empty answer means the end, except that an empty DATA frame looks just like it.
      ensures r == Ready([]) && cap > 0 <==>
              cap > 0 && old(inbox).None? && (if old(queue) == [] then old(ended) else old(queue)[0] == [])
      // As much of the chunk in hand, or else of the next one, as fits.
      ensures old(inbox).Some? || old(queue) != [] ==>
                r.Ready? && |r.data| == Min(cap, if old(inbox).Some? then |old(inbox).value| else |old(queue)[0]|)
      // Credit is granted from half a window on, and all of it at the end of the stream; a full outbox leaves it owed.
      ensures var due := old(creditDue) + if r.Ready? then |r.data| else 0;
              var atEnd := old(inbox).None? && old(queue) == [] && old(ended);
              creditDue == if r.Ready? && room && (due >= GRANT_THRESHOLD || atEnd) then 0 else due
    {
      if inbox.None? && queue == [] {
        if !ended {
          return NotReady;
        }
        FlushCredit(room);
        return Ready([]);
      }
      var data := TakeBytes(cap);
      if creditDue >= GRANT_THRESHOLD {
        FlushCredit(room);
      }
      return Ready(data);
    }

    ghost predicate WriteSideKept(out0: seq<byte>, pending0: Option<seq<byte>>, accepted0: seq<byte>, handed0: seq<byte>)
      reads this
    {
      out == out0 && pending == pending0 && accepted == accepted0 && handed == handed0
    }

    /** Accept all of `data`, or nothing while a send is in flight. */
    method PollWrite(data: seq<byte>) returns (n: Option<nat>)
      requires Valid()
      modifies this`out, this`pending, this`accepted
      ensures Valid()
      ensures n.None? <==> old(pending).Some?
      ensures n.None? ==> accepted == old(accepted) && out == old(out) && pending == old(pending)
      ensures n.Some? ==> n.value == |data| && accepted == old(accepted) + data
      // From 32 KiB on it becomes a send; below that it stays buffered.
      ensures n.Some? ==> if |old(out) + data| >= WRITE_COALESCE then out == [] && pending == Some(old(out) + data)
                          else out == old(out) + data && pending == None
    {
      if pending.Some? {
        return None;
      }
      assert handed + [] + (out + data) == handed + [] + out + data;
      out := out + data;
      accepted := accepted + data;
      if |out| >= WRITE_COALESCE {
        assert handed + out + [] == handed + [] + out;
        pending := Some(out);
        out := [];
      }
      return Some(|data|);
    }

    /** `sending` is what polling the in-flight send answers. */
    method PollFlush(sending: SendPoll) returns (r: FlushPoll)
      requires Valid()
      modifies this`out, this`pending, this`handed, this`failed
      ensures Valid() && (old(failed) ==> failed)
      ensures (Writing(), r) == FlushOnce(old(Writing()), sending)
      ensures r.Flushed? ==> out == [] && pending == None && (!failed ==> handed == accepted)
      ensures r.FlushFailed? <==> old(pending).Some? && sending.SendFailed?
      ensures failed == (old(failed) || r.FlushFailed?)
    {
      if pending.Some? {
        var bytes := pending.value;
        match sending {
          case Sent =>
            assert handed + bytes + [] + out == handed + bytes + out;
            handed := handed + bytes;
            pending := None;
          case SendFailed =>
            pending, failed := None, true;
            return FlushFailed;
          case SendPending => return Flushing;
        }
      }
      if out == [] {
        assert old(pending).None? ==> handed + [] == handed;
        assert handed + [] + [] == handed;
        return Flushed;
      }
      assert old(pending).None? ==> handed + [] == handed;
      assert handed + out + [] == handed + [] + out;
      pending := Some(out);
      out := [];
      return Flushing;
    }

    /** The stream is closed only after the flush has come to an end. */
    method PollShutdown(sending: SendPoll, room: bool) returns (r: FlushPoll)
      requires Valid()
      modifies this
      ensures Valid() && returned == old(returned) && dispatched == old(dispatched) && accepted == old(accepted)
      ensures closed == (old(closed) || !r.Flushing?)
      ensures !r.Flushing? && room ==> creditDue == 0
      ensures r.Flushed? && !failed ==> handed == accepted
    {
      r := PollFlush(sending);
      if !r.Flushing? {
        FlushCredit(room);
        closed := true;
      }
    }

    /** Dropping the stream gives back what credit it can and releases the bridge's slot. */
    method Drop(room: bool)
      requires Valid()
      modifies this
      ensures Valid() && closed && (room ==> creditDue == 0)
      ensures granted + creditDue == |returned| && returned == old(returned)
    {
      FlushCredit(room);
      closed := true;
    }
  }
}
