/**
 The loops of `serve_client` in src/lib.rs: the preamble re-sent, the uplink that moves
 what was read into sends, and the downlink that grants credit in half windows.
 */
module ServeClient {
  import opened Bytes
  import opened Wire
  import opened MuxSessions
  import opened MuxProgress

  function Sum(xs: seq<nat>): nat
  {
    if xs == [] then 0 else xs[0] + Sum(xs[1..])
  }

  /** One read of the client's byte stream: bytes, or an end or error. */
  datatype Read = Bytes(data: seq<byte>) | Stop

  /** The bytes of the reads before the first end, error or empty read. */
  function BeforeStop(arrivals: seq<Read>): seq<seq<byte>>
  {
    if arrivals == [] || arrivals[0].Stop? || arrivals[0].data == [] then [] else [arrivals[0].data] + BeforeStop(arrivals[1..])
  }

  /** These are exactly the reads in front of the first end, error or empty read, if there is one. */
  lemma {:induction false} BeforeStopExactly(arrivals: seq<Read>)
    ensures var sends := BeforeStop(arrivals);
            && |sends| <= |arrivals|
            && (forall i :: 0 <= i < |sends| ==> arrivals[i] == Bytes(sends[i]) && sends[i] != [])
            && (|sends| < |arrivals| ==> arrivals[|sends|] == Stop || arrivals[|sends|] == Bytes([]))
  {
    if arrivals != [] && arrivals[0].Bytes? && arrivals[0].data != [] {
      BeforeStopExactly(arrivals[1..]);
    }
  }

  /**
   Preamble and uplink: each element of `sent` is one `StreamTx::send`; `accepts` is how
   many of them the link accepts before one fails.
   */
  method Uplink(head: seq<byte>, arrivals: seq<Read>, accepts: nat) returns (sent: seq<seq<byte>>)
    requires |head| == HEAD_LEN
    ensures |sent| == Min(1 + |BeforeStop(arrivals)|, accepts)
    ensures sent == ([head] + BeforeStop(arrivals))[..|sent|]
    ensures Concat(sent) <= head + Concat(BeforeStop(arrivals))
    ensures accepts > |BeforeStop(arrivals)| ==> Concat(sent) == head + Concat(BeforeStop(arrivals))
  {
    hide Concat;
    ghost var all := [head] + BeforeStop(arrivals);
    PrefixConcat(head, BeforeStop(arrivals), Min(|all|, accepts));
    assert all[..|all|] == all && arrivals[0..] == arrivals;
    sent := [];
    if accepts == 0 {
      return;
    }
    sent := [head];
    var buf: seq<byte> := [];
    var i := 0;
    while i < |arrivals|
      invariant 0 <= i <= |arrivals| && buf == [] && |sent| <= accepts
      invariant sent + BeforeStop(arrivals[i..]) == all
      decreases |arrivals| - i
    {
      match arrivals[i] {
        case Stop => return;
        case Bytes(data) =>
          var n := |data|;
          if n == 0 {
            return;
          }
          buf := buf + data;
          if |sent| == accepts {
            return;
          }
          assert arrivals[i..][1..] == arrivals[i + 1..];
          assert sent + ([data] + BeforeStop(arrivals[i + 1..])) == (sent + [data]) + BeforeStop(arrivals[i + 1..]);
          assert buf == data && buf[..n] == data;
          sent, buf := sent + [buf[..n]], buf[n..];
      }
      i := i + 1;
    }
  }

  lemma PrefixConcat(head: seq<byte>, rest: seq<seq<byte>>, k: nat)
    requires k <= 1 + |rest|
    ensures Concat(([head] + rest)[..k]) <= head + Concat(rest)
    ensures Concat([head] + rest) == head + Concat(rest)
  {
    hide Concat;
    ConcatAppend([head], rest);
    ConcatOne(head);
    ConcatPrefix([head] + rest, k);
  }

  lemma ConcatPrefix(all: seq<seq<byte>>, k: nat)
    requires k <= |all|
    ensures Concat(all[..k]) <= Concat(all)
  {
    hide Concat;
    ConcatAppend(all[..k], all[k..]);
    assert all[..k] + all[k..] == all;
  }

  /**
   The downlink: chunks are written to the client, `writes` of them before a write fails;
   `accepts` grants go out before one fails.
   */
  method Downlink(chunks: seq<seq<byte>>, writes: nat, accepts: nat)
    returns (written: seq<seq<byte>>, grants: seq<nat>, pending: nat)
    ensures written <= chunks
    // Every byte written is granted back or still pending, and a grant is at least half a window.
    ensures Sum(grants) + pending == |Concat(written)|
    ensures forall i :: 0 <= i < |grants| ==> grants[i] >= GRANT_THRESHOLD
    // It never sits on half a window, unless it stopped because a grant failed.
    ensures |grants| <= accepts && (pending < GRANT_THRESHOLD || |grants| == accepts)
    // Credit is given back as soon as half a window is due, and what stays owed follows from the chunks.
    ensures pending < GRANT_THRESHOLD ==> pending == Owing(written)
    ensures pending >= GRANT_THRESHOLD ==> written != [] && Owing(written) == 0 && pending - |written[|written| - 1]| < GRANT_THRESHOLD
    // It stops at the end, at a failed write, or at a failed grant.
    ensures |written| == Min(|chunks|, writes) || (pending >= GRANT_THRESHOLD && |written| < Min(|chunks|, writes))
    ensures writes >= |chunks| && (accepts + 1) * GRANT_THRESHOLD > |Concat(chunks)| ==> written == chunks
  {
    written, grants, pending := [], [], 0;
    var i := 0;
    while i < |chunks|
      invariant 0 <= i <= |chunks| && written == chunks[..i]
      invariant Sum(grants) + pending == |Concat(written)| && pending < GRANT_THRESHOLD
      invariant |grants| <= accepts && |grants| * GRANT_THRESHOLD <= Sum(grants)
      invariant pending == Owing(written) && i <= writes
      invariant forall j :: 0 <= j < |grants| ==> grants[j] >= GRANT_THRESHOLD
      decreases |chunks| - i
    {
      if i >= writes {
        return;
      }
      GrowsByOne(chunks, i);
      written, pending := written + [chunks[i]], pending + |chunks[i]|;
      i := i + 1;
      assert written == chunks[..i] && written[..|written| - 1] == chunks[..i - 1];
      if pending >= GRANT_THRESHOLD {
        if |grants| == accepts {
          return;
        }
        SumAppend(grants, pending);
        grants, pending := grants + [pending], 0;
      }
    }
  }

  lemma GrowsByOne(chunks: seq<seq<byte>>, i: nat)
    requires i < |chunks|
    ensures chunks[..i] + [chunks[i]] == chunks[..i + 1]
    ensures |Concat(chunks[..i + 1])| == |Concat(chunks[..i])| + |chunks[i]|
    ensures |Concat(chunks[..i + 1])| <= |Concat(chunks)|
  {
    assert chunks[..i] + [chunks[i]] == chunks[..i + 1];
    ConcatAppend(chunks[..i], [chunks[i]]);
    ConcatOne(chunks[i]);
    ConcatAppend(chunks[..i + 1], chunks[i + 1..]);
    assert chunks[..i + 1] + chunks[i + 1..] == chunks;
  }

  lemma {:induction false} SumAppend(xs: seq<nat>, x: nat)
    ensures Sum(xs + [x]) == Sum(xs) + x
  {
    if xs == [] {
      assert [x][1..] == [];
    } else {
      assert (xs + [x])[1..] == xs[1..] + [x];
      SumAppend(xs[1..], x);
    }
  }
}
