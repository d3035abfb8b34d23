/**
 * A session (client.go): the per-connection outbound queue with its closed
 * flag, the inbound loop that dispatches a driver's location reports, and the
 * outbound loop that coalesces queued messages into newline-joined frames.
 *
 * The Go channel `send` becomes a bounded sequence `send` plus `closed`; the
 * connection becomes a script of read results (inbound) or of wake-ups with
 * their write outcomes (outbound), and what the loops do to the connection
 * becomes a log.
 */
module Session {
  import opened Models

  const Newline: byte := 10

  /** What a non-blocking send (`select { case ch <- m: default: }`) leaves in a
      queue of the given capacity: the message is appended when there is room and
      dropped otherwise. */
  function Offer(queue: seq<Bytes>, capacity: nat, m: Bytes): seq<Bytes>
  {
    if |queue| < capacity then queue + [m] else queue
  }

  /** Successive non-blocking sends of `ms`, in order. */
  function OfferAll(queue: seq<Bytes>, capacity: nat, ms: seq<Bytes>): seq<Bytes>
    decreases |ms|
  {
    if ms == [] then queue else OfferAll(Offer(queue, capacity, ms[0]), capacity, ms[1..])
  }

  function Min(a: int, b: int): int { if a < b then a else b }

  /** Successive non-blocking sends never reorder or skip: what arrives is the
      longest prefix of `ms` that fits, and the queue stays within its capacity. */
  lemma {:induction false} OfferAllKeepsPrefix(queue: seq<Bytes>, capacity: nat, ms: seq<Bytes>)
    requires |queue| <= capacity
    ensures OfferAll(queue, capacity, ms) == queue + ms[..Min(|ms|, capacity - |queue|)]
    ensures |OfferAll(queue, capacity, ms)| <= capacity
    decreases |ms|
  {
    if ms != [] {
      var q1 := Offer(queue, capacity, ms[0]);
      OfferAllKeepsPrefix(q1, capacity, ms[1..]);
      if |queue| < capacity {
        assert q1 + ms[1..][..Min(|ms| - 1, capacity - |q1|)] == queue + ms[..Min(|ms|, capacity - |queue|)];
      } else {
        assert ms[1..][..0] == ms[..0];
      }
    }
  }

  /** Sending one batch and then another is sending their concatenation. */
  lemma {:induction false} OfferAllAppend(queue: seq<Bytes>, capacity: nat, ms1: seq<Bytes>, ms2: seq<Bytes>)
    ensures OfferAll(OfferAll(queue, capacity, ms1), capacity, ms2) == OfferAll(queue, capacity, ms1 + ms2)
    decreases |ms1|
  {
    if ms1 != [] {
      assert (ms1 + ms2)[0] == ms1[0];
      assert (ms1 + ms2)[1..] == ms1[1..] + ms2;
      OfferAllAppend(Offer(queue, capacity, ms1[0]), capacity, ms1[1..], ms2);
    } else {
      assert ms1 + ms2 == ms2;
    }
  }

  /** The bytes of one data frame: the messages separated by newlines. */
  function Join(ms: seq<Bytes>): Bytes
    decreases |ms|
  {
    if ms == [] then []
    else if |ms| == 1 then ms[0]
    else ms[0] + [Newline] + Join(ms[1..])
  }

  /** Position of the first newline in `b`, or |b| if there is none. */
  function NewlineIndex(b: Bytes): (i: nat)
    ensures i <= |b|
    ensures i < |b| ==> b[i] == Newline
    ensures forall j :: 0 <= j < i ==> b[j] != Newline
    decreases |b|
  {
    if b == [] || b[0] == Newline then 0 else 1 + NewlineIndex(b[1..])
  }

  /** How a receiver cuts a frame back into messages, at every newline. */
  function Split(b: Bytes): seq<Bytes>
    decreases |b|
  {
    var i := NewlineIndex(b);
    if i == |b| then [b] else [b[..i]] + Split(b[i + 1..])
  }

  predicate NoNewline(m: Bytes) { Newline !in m }

  /** Appending one message to a joined batch, as the drain loop does. */
  lemma {:induction false} JoinSnoc(ms: seq<Bytes>, m: Bytes)
    requires ms != []
    ensures Join(ms + [m]) == Join(ms) + [Newline] + m
    decreases |ms|
  {
    if |ms| == 1 {
      assert ms + [m] == [ms[0], m];
      assert [ms[0], m][1..] == [m];
    } else {
      assert (ms + [m])[1..] == ms[1..] + [m];
      JoinSnoc(ms[1..], m);
    }
  }

  /** A coalesced frame loses nothing and keeps FIFO order: splitting it at the
      newlines gives back exactly the batch, provided no message holds a raw
      newline itself (compact JSON never does). */
  lemma {:induction false} SplitJoin(ms: seq<Bytes>)
    requires ms != []
    requires forall i :: 0 <= i < |ms| ==> NoNewline(ms[i])
    ensures Split(Join(ms)) == ms
    decreases |ms|
  {
    if |ms| == 1 {
      assert NoNewline(ms[0]);
      assert NewlineIndex(ms[0]) == |ms[0]|;
    } else {
      var b := Join(ms);
      assert NoNewline(ms[0]);
      assert b == ms[0] + [Newline] + Join(ms[1..]);
      assert b[|ms[0]|] == Newline;
      assert forall j :: 0 <= j < |ms[0]| ==> b[j] == ms[0][j];
      assert NewlineIndex(b) == |ms[0]|;
      assert b[..|ms[0]|] == ms[0];
      assert b[|ms[0]| + 1..] == Join(ms[1..]);
      SplitJoin(ms[1..]);
    }
  }

  // ---------------------------------------------------------------------------
  // Inbound side
  // ---------------------------------------------------------------------------

  /** An inbound envelope as decoded from a frame. `msgType` is whatever string
      the peer sent; `data` is the result of decoding the raw payload as a
      driver location (None when that decoding fails). */
  datatype InboundEnvelope = InboundEnvelope(msgType: string, timestamp: Time, data: Option<DriverLocation>)

  /** One read from the connection: a frame (with the result of decoding it as
      an envelope, None when that fails) or a read error. */
  datatype ReadResult = Frame(envelope: Option<InboundEnvelope>) | ReadFailed

  /** What the inbound loop asks of the rest of the system. */
  datatype ReadEffect =
    | LocationAccepted(report: DriverLocation)
    | UnregisterRequested
    | ReaderClosedConn

  /** A frame that the driver dispatch accepts for processing. */
  predicate IsLocationReport(envelope: Option<InboundEnvelope>)
  {
    && envelope.Some?
    && envelope.value.msgType == MessageTypeName(TypeLocationUpdate)
    && envelope.value.data.Some?
  }

  /** The dispatch of one driver frame: an envelope that fails to decode, an
      envelope of any type other than location_update, and a location_update
      whose payload fails to decode are all dropped. */
  method HandleDriverMessage(envelope: Option<InboundEnvelope>) returns (report: Option<DriverLocation>)
    ensures report.Some? <==> IsLocationReport(envelope)
    ensures report.Some? ==> report.value == envelope.value.data.value
  {
    if envelope.None? {
      return None;
    }
    var msg := envelope.value;
    if msg.msgType == MessageTypeName(TypeLocationUpdate) {
      if msg.data.None? {
        return None;
      }
      return Some(msg.data.value);
    }
    return None;
  }

  /** What one successful read leads to: a driver's location report is accepted;
      anything else is dropped. */
  function Dispatched(userType: string, r: ReadResult): seq<ReadEffect>
  {
    if r.Frame? && userType == "driver" && IsLocationReport(r.envelope)
    then [LocationAccepted(r.envelope.value.data.value)] else []
  }

  /** The log of the inbound loop of a session with the given role, over a
      script of reads: one acceptance per location report of a driver up to
      the first read error (or the end of the script, which is the connection
      going away), then the unregistration request, then the close. */
  function ReadLog(userType: string, script: seq<ReadResult>): seq<ReadEffect>
    decreases |script|
  {
    if script == [] || script[0].ReadFailed? then [UnregisterRequested, ReaderClosedConn]
    else Dispatched(userType, script[0]) + ReadLog(userType, script[1..])
  }

  /** One read of the loop, then the rest of it. */
  lemma ReadLogUnfold(userType: string, script: seq<ReadResult>, i: nat)
    requires i < |script| && !script[i].ReadFailed?
    ensures ReadLog(userType, script[i..])
      == Dispatched(userType, script[i]) + ReadLog(userType, script[i + 1..])
  {
    assert script[i..][0] == script[i];
    assert script[i..][1..] == script[i + 1..];
  }

  /** The loop's invariant carried across one read. */
  lemma ReadLogStep(userType: string, script: seq<ReadResult>, i: nat,
                    log: seq<ReadEffect>, accepted: seq<ReadEffect>)
    requires i < |script| && !script[i].ReadFailed?
    requires accepted == Dispatched(userType, script[i])
    requires log + ReadLog(userType, script[i..]) == ReadLog(userType, script)
    ensures (log + accepted) + ReadLog(userType, script[i + 1..]) == ReadLog(userType, script)
  {
    ReadLogUnfold(userType, script, i);
    assert (log + accepted) + ReadLog(userType, script[i + 1..])
      == log + (accepted + ReadLog(userType, script[i + 1..]));
  }

  /** Only driver sessions dispatch anything: every other role's frames are read
      and discarded, and the loop still ends by unregistering and closing. */
  lemma {:induction false} NonDriverDispatchesNothing(userType: string, script: seq<ReadResult>)
    requires userType != "driver"
    ensures ReadLog(userType, script) == [UnregisterRequested, ReaderClosedConn]
    decreases |script|
  {
    if script != [] && !script[0].ReadFailed? {
      NonDriverDispatchesNothing(userType, script[1..]);
    }
  }

  /** However the loop ends, the log ends with the unregistration request followed by the
      close, and everything before them is an accepted location report. */
  lemma {:induction false} ReadLogEndsWithCleanup(userType: string, script: seq<ReadResult>)
    ensures |ReadLog(userType, script)| >= 2
    ensures var log := ReadLog(userType, script);
      log[|log| - 2..] == [UnregisterRequested, ReaderClosedConn]
      && forall i :: 0 <= i < |log| - 2 ==> log[i].LocationAccepted?
    decreases |script|
  {
    if script != [] && !script[0].ReadFailed? {
      ReadLogEndsWithCleanup(userType, script[1..]);
    }
  }

  /** Every accepted report comes from a driver session's location_update frame
      whose payload decoded, read before any read error. */
  lemma {:induction false} AcceptedOnlyFromLocationFrames(userType: string, script: seq<ReadResult>, r: DriverLocation)
    requires LocationAccepted(r) in ReadLog(userType, script)
    ensures userType == "driver"
    ensures exists i :: 0 <= i < |script| && script[i].Frame? && IsLocationReport(script[i].envelope)
                        && script[i].envelope.value.data.value == r
                        && forall j :: 0 <= j <= i ==> !script[j].ReadFailed?
    decreases |script|
  {
    if script != [] && !script[0].ReadFailed? {
      if LocationAccepted(r) in Dispatched(userType, script[0]) {
        assert script[0].Frame? && IsLocationReport(script[0].envelope);
        assert forall j :: 0 <= j <= 0 ==> !script[j].ReadFailed?;
      } else {
        AcceptedOnlyFromLocationFrames(userType, script[1..], r);
        var i :| 0 <= i < |script[1..]| && script[1..][i].Frame? && IsLocationReport(script[1..][i].envelope)
                 && script[1..][i].envelope.value.data.value == r
                 && forall j :: 0 <= j <= i ==> !script[1..][j].ReadFailed?;
        assert script[i + 1] == script[1..][i];
        forall j | 0 <= j <= i + 1
          ensures !script[j].ReadFailed?
        {
          if j > 0 {
            assert script[j] == script[1..][j - 1];
          }
        }
      }
    }
  }

  /** A read error ends the loop: nothing read after it leaves a trace. */
  lemma {:induction false} ReadLogStopsAtFailure(userType: string, script: seq<ReadResult>, k: nat)
    requires k < |script| && script[k].ReadFailed?
    ensures ReadLog(userType, script) == ReadLog(userType, script[..k])
    decreases k
  {
    if k > 0 && !script[0].ReadFailed? {
      ReadLogStopsAtFailure(userType, script[1..], k - 1);
      assert script[..k][0] == script[0];
      assert script[..k][1..] == script[1..][..k - 1];
    }
  }

  /** Reads `a` with no read error among them, then reads `b`: the log is what
      `a` dispatched (its own run's log without the cleanup), followed by the
      log of `b`. */
  lemma {:induction false} ReadLogAppend(userType: string, a: seq<ReadResult>, b: seq<ReadResult>)
    requires forall j :: 0 <= j < |a| ==> !a[j].ReadFailed?
    ensures |ReadLog(userType, a)| >= 2
    ensures var pre := ReadLog(userType, a);
      ReadLog(userType, a + b) == pre[..|pre| - 2] + ReadLog(userType, b)
    decreases |a|
  {
    if a == [] {
      assert a + b == b;
    } else {
      var tail := a[1..];
      assert forall j :: 0 <= j < |tail| ==> tail[j] == a[j + 1];
      ReadLogAppend(userType, tail, b);
      assert (a + b)[0] == a[0] && (a + b)[1..] == tail + b;
      var d := Dispatched(userType, a[0]);
      var p1 := ReadLog(userType, tail);
      DropCleanup(d, p1, ReadLog(userType, b));
    }
  }

  /** Up to a point `k` before any read error, the log is what the first `k`
      reads dispatched (the prefix run's log without its cleanup), followed by
      the log of the rest of the script. */
  lemma ReadLogSplit(userType: string, script: seq<ReadResult>, k: nat)
    requires k <= |script|
    requires forall j :: 0 <= j < k ==> !script[j].ReadFailed?
    ensures |ReadLog(userType, script[..k])| >= 2
    ensures var pre := ReadLog(userType, script[..k]);
      ReadLog(userType, script) == pre[..|pre| - 2] + ReadLog(userType, script[k..])
  {
    ReadLogAppend(userType, script[..k], script[k..]);
    assert script[..k] + script[k..] == script;
  }

  /** Dropping the two cleanup entries commutes with prepending. */
  lemma DropCleanup(d: seq<ReadEffect>, log: seq<ReadEffect>, rest: seq<ReadEffect>)
    requires |log| >= 2
    ensures (d + log)[..|d + log| - 2] + rest == d + (log[..|log| - 2] + rest)
  {
    assert (d + log)[..|d + log| - 2] == d + log[..|log| - 2];
  }

  /** A driver's location report read before any read error is accepted, after
      everything the earlier reads dispatched and before everything the later
      reads dispatch. */
  lemma LocationFrameAccepted(userType: string, script: seq<ReadResult>, i: nat)
    requires userType == "driver"
    requires i < |script| && script[i].Frame? && IsLocationReport(script[i].envelope)
    requires forall j :: 0 <= j < i ==> !script[j].ReadFailed?
    ensures |ReadLog(userType, script[..i])| >= 2
    ensures var pre := ReadLog(userType, script[..i]);
      ReadLog(userType, script)
        == pre[..|pre| - 2] + [LocationAccepted(script[i].envelope.value.data.value)]
           + ReadLog(userType, script[i + 1..])
  {
    ReadLogSplit(userType, script, i);
    ReadLogUnfold(userType, script, i);
  }

  // ---------------------------------------------------------------------------
  // Outbound side
  // ---------------------------------------------------------------------------

  /** How the writes of one data frame go: both succeed, obtaining the frame
      writer fails, or flushing the frame fails. */
  datatype WriteOutcome = WriteOk | WriterFailed | FlushFailed

  /** Which case of the outbound `select` fires: the queue is ready, or the
      ping ticker fired (with whether the ping write succeeds). */
  datatype Wake = QueueReady(outcome: WriteOutcome) | TickerFired(pingOk: bool)

  /** What the outbound loop does to the connection. */
  datatype Output =
    | DataFrame(frame: Bytes)
    | PingFrame
    | CloseFrame
    | WriterClosedConn

  datatype StepResult = StepResult(out: seq<Output>, queue: seq<Bytes>, exited: bool)

  /** One pass of the outbound loop. A receive from a closed queue still yields
      the buffered messages first; only a closed AND drained queue gives the
      close frame. An open empty queue is not ready, so that wake does nothing. */
  function WriteStepSpec(queue: seq<Bytes>, closed: bool, wake: Wake): StepResult
  {
    match wake
    case QueueReady(outcome) =>
      if queue == [] then
        if closed then StepResult([CloseFrame, WriterClosedConn], [], true)
        else StepResult([], [], false)
      else (
        match outcome
        case WriterFailed => StepResult([WriterClosedConn], queue[1..], true)
        case FlushFailed => StepResult([WriterClosedConn], [], true)
        case WriteOk => StepResult([DataFrame(Join(queue))], [], false))
    case TickerFired(pingOk) =>
      if pingOk then StepResult([PingFrame], queue, false)
      else StepResult([WriterClosedConn], queue, true)
  }

  /** The outbound loop over a script of wake-ups, stopping at the first exit. */
  function WriteRun(queue: seq<Bytes>, closed: bool, wakes: seq<Wake>): StepResult
    decreases |wakes|
  {
    if wakes == [] then StepResult([], queue, false)
    else
      var s := WriteStepSpec(queue, closed, wakes[0]);
      if s.exited then s
      else
        var rest := WriteRun(s.queue, closed, wakes[1..]);
        StepResult(s.out + rest.out, rest.queue, rest.exited)
  }

  /** A run `r` preceded by the output `out` of earlier passes. */
  function After(out: seq<Output>, r: StepResult): StepResult
  {
    StepResult(out + r.out, r.queue, r.exited)
  }

  lemma AfterAfter(a: seq<Output>, b: seq<Output>, r: StepResult)
    ensures After(a, After(b, r)) == After(a + b, r)
  {
    assert a + (b + r.out) == (a + b) + r.out;
  }

  /** One pass of a run, then the rest of it. */
  lemma WriteRunUnfold(queue: seq<Bytes>, closed: bool, wakes: seq<Wake>)
    requires wakes != []
    ensures var s := WriteStepSpec(queue, closed, wakes[0]);
      WriteRun(queue, closed, wakes)
        == if s.exited then s else After(s.out, WriteRun(s.queue, closed, wakes[1..]))
  {
  }

  /** The loop exits exactly when its log ends with closing the connection, and
      the connection is closed at most once, as the last action. */
  lemma {:induction false} WriteRunClosesOnceAtExit(queue: seq<Bytes>, closed: bool, wakes: seq<Wake>)
    ensures var r := WriteRun(queue, closed, wakes);
      && (r.exited <==> r.out != [] && r.out[|r.out| - 1] == WriterClosedConn)
      && forall i :: 0 <= i < |r.out| - 1 ==> r.out[i] != WriterClosedConn
    decreases |wakes|
  {
    if wakes != [] {
      var s := WriteStepSpec(queue, closed, wakes[0]);
      if !s.exited {
        WriteRunClosesOnceAtExit(s.queue, closed, wakes[1..]);
      }
    }
  }

  /** A close frame is written only once the queue is closed and drained, is followed only
      by closing the connection, and never comes after a data frame in the same pass. */
  lemma WriteStepCloseFrame(queue: seq<Bytes>, closed: bool, wake: Wake)
    ensures CloseFrame in WriteStepSpec(queue, closed, wake).out
        <==> closed && queue == [] && wake.QueueReady?
    ensures CloseFrame in WriteStepSpec(queue, closed, wake).out
        ==> WriteStepSpec(queue, closed, wake).out == [CloseFrame, WriterClosedConn]
  {
  }

  /** Coalescing: a successful data frame carries every message queued at that
      instant, and a receiver splitting it gets them back in FIFO order. */
  lemma DataFrameCarriesWholeQueue(queue: seq<Bytes>, closed: bool)
    requires queue != []
    requires forall i :: 0 <= i < |queue| ==> NoNewline(queue[i])
    ensures var s := WriteStepSpec(queue, closed, QueueReady(WriteOk));
      && s.out == [DataFrame(Join(queue))]
      && Split(s.out[0].frame) == queue
      && s.queue == []
      && !s.exited
  {
    SplitJoin(queue);
  }

  /** A connected peer as the registry and the tracker see it (the Client
      struct of models.go): its identity, and its outbound queue `send` of a
      fixed capacity with the channel's closed flag. */
  class Client {
    const userID: string
    const userType: string
    const deliveryID: string
    const capacity: nat
    var send: seq<Bytes>
    var closed: bool

    constructor (userID: string, userType: string, deliveryID: string, capacity: nat)
      ensures this.userID == userID && this.userType == userType && this.deliveryID == deliveryID
      ensures this.capacity == capacity
      ensures send == [] && !closed
    {
      this.userID := userID;
      this.userType := userType;
      this.deliveryID := deliveryID;
      this.capacity := capacity;
      send := [];
      closed := false;
    }

    /** A non-blocking send into an open queue (a send on a closed channel
        would panic, so callers must rule it out). */
    method TrySend(m: Bytes) returns (sent: bool)
      requires !closed
      modifies this
      ensures sent <==> |old(send)| < capacity
      ensures send == Offer(old(send), capacity, m)
      ensures !closed
    {
      sent := |send| < capacity;
      if sent {
        send := send + [m];
      }
    }

    /** Closing the queue (closing a closed channel would panic). */
    method Close()
      requires !closed
      modifies this
      ensures closed && send == old(send)
    {
      closed := true;
    }

    /** The inbound loop: read until a read fails, dispatching only when this
        session is a driver's; on the way out, request unregistration, then
        close the connection. */
    method ReadPump(script: seq<ReadResult>) returns (log: seq<ReadEffect>)
      ensures log == ReadLog(userType, script)
    {
      log := [];
      var i := 0;
      while i < |script| && !script[i].ReadFailed?
        invariant 0 <= i <= |script|
        invariant log + ReadLog(userType, script[i..]) == ReadLog(userType, script)
      {
        var accepted: seq<ReadEffect> := [];
        if userType == "driver" {
          var report := HandleDriverMessage(script[i].envelope);
          if report.Some? {
            accepted := [LocationAccepted(report.value)];
          }
        }
        ReadLogStep(userType, script, i, log, accepted);
        log := log + accepted;
        i := i + 1;
      }
      assert ReadLog(userType, script[i..]) == [UnregisterRequested, ReaderClosedConn];
      log := log + [UnregisterRequested, ReaderClosedConn];
    }

    /** One pass of the outbound loop: take one message, then exactly as many
        further messages as are queued at that instant, and write them as one
        newline-joined frame; or write the close frame when the queue is closed
        and drained; or write a ping on a tick. */
    method WriteStep(wake: Wake) returns (out: seq<Output>, exited: bool)
      modifies this
      ensures var s := WriteStepSpec(old(send), closed, wake);
        out == s.out && send == s.queue && exited == s.exited
      ensures closed == old(closed)
    {
      match wake {
        case QueueReady(outcome) =>
          if send == [] {
            if closed {
              return [CloseFrame, WriterClosedConn], true;
            }
            return [], false;
          }
          ghost var batch := send;
          var message := send[0];
          send := send[1..];
          if outcome == WriterFailed {
            return [WriterClosedConn], true;
          }
          var frame := message;
          var n := |send|;
          for i := 0 to n
            invariant send == batch[i + 1..]
            invariant closed == old(closed)
            invariant frame == Join(batch[..i + 1])
          {
            JoinSnoc(batch[..i + 1], send[0]);
            assert batch[..i + 1] + [send[0]] == batch[..i + 2];
            frame := frame + [Newline] + send[0];
            send := send[1..];
          }
          assert batch[..n + 1] == batch;
          if outcome == FlushFailed {
            return [WriterClosedConn], true;
          }
          return [DataFrame(frame)], false;
        case TickerFired(pingOk) =>
          if !pingOk {
            return [WriterClosedConn], true;
          }
          return [PingFrame], false;
      }
    }

    /** The outbound loop over a script of wake-ups, until it exits. */
    method WritePump(wakes: seq<Wake>) returns (out: seq<Output>, exited: bool)
      modifies this
      ensures var r := WriteRun(old(send), closed, wakes);
        out == r.out && send == r.queue && exited == r.exited
      ensures closed == old(closed)
    {
      out, exited := [], false;
      ghost var cl := closed;
      var i := 0;
      while i < |wakes| && !exited
        invariant 0 <= i <= |wakes|
        invariant closed == cl
        invariant exited ==> WriteRun(old(send), cl, wakes) == StepResult(out, send, true)
        invariant !exited ==> WriteRun(old(send), cl, wakes) == After(out, WriteRun(send, cl, wakes[i..]))
      {
        ghost var before := send;
        ghost var rest := wakes[i..];
        WriteRunUnfold(before, cl, rest);
        assert rest[0] == wakes[i] && rest[1..] == wakes[i + 1..];
        var stepOut, stepExited := WriteStep(wakes[i]);
        ghost var s := WriteStepSpec(before, cl, wakes[i]);
        assert s == StepResult(stepOut, send, stepExited);
        if !stepExited {
          AfterAfter(out, stepOut, WriteRun(send, cl, wakes[i + 1..]));
        }
        out := out + stepOut;
        exited := stepExited;
        i := i + 1;
      }
      if !exited {
        assert WriteRun(send, cl, wakes[i..]) == StepResult([], send, false);
        assert out + [] == out;
      }
    }
  }
}
