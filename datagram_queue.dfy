/**
 * The DATAGRAM frame queue of a QUIC connection (the unreliable datagram
 * extension, RFC 9221): a one-slot outbound hand-off between application
 * senders and the packet packer, a bounded inbound FIFO that drops the newest
 * frame when full, and a one-shot close.
 *
 * Every operation is modelled as one atomic step. The specification of each
 * step is a function on the value `QueueState`; the class `DatagramQueue`
 * holds the same state in fields and its methods are tied to those functions.
 * A goroutine that would block is a step that reports `...Blocked` and changes
 * nothing; the random choice a Go `select` makes between two ready cases is
 * a parameter (`preferClose`, `Ready`).
 */
module Quic {
  import opened Wrappers

  newtype byte = b: int | 0 <= b < 256

  /** protocol.DatagramRcvQueueLen: how many received frames are buffered. */
  const DatagramRcvQueueLen: nat := 128

  /**
   * Go errors as far as the queue sees them. `NoError` is Go's nil error
   * (a successful hand-off), `ContextDone` is what `ctx.Err()` returns and
   * `ConnectionError` stands for any error the connection closes with or
   * passes to Pop.
   */
  datatype Error = NoError | DatagramQueuedTooLong | ContextDone | ConnectionError(code: nat)

  /** A point in time; `ZeroTime` is Go's zero `time.Time`, meaning "no deadline". */
  datatype Time = ZeroTime | Instant(t: int)

  /** A received or outgoing DATAGRAM frame; only its payload matters here. */
  datatype DatagramFrame = DatagramFrame(data: seq<byte>)

  datatype QueuedFrame = QueuedFrame(frame: DatagramFrame, expireTime: Time)

  predicate HasExpired(qf: QueuedFrame, now: int)
  {
    match qf.expireTime
    case ZeroTime => false
    case Instant(t) => t < now
  }

  /** The deadline AddAndWait gives a frame: none unless a positive timeout is set. */
  function ExpireTime(sendTimeout: int, now: int): Time
  {
    if sendTimeout > 0 then Instant(now + sendTimeout) else ZeroTime
  }

  function Min(a: int, b: int): int
  {
    if a <= b then a else b
  }

  /**
   * The whole state of a datagram queue.
   *   sendQueue    the one buffered element of the capacity-1 channel
   *   nextFrame    the frame Peek took out of that channel and has not popped
   *   dequeued     an error Pop has offered on the unbuffered channel and no
   *                sender has taken yet
   *   hasDataCalls how often the hasData callback has been invoked
   *   waiting      how many AddAndWait calls have placed a frame and wait
   *                for its result
   *   results      every error Pop has handed over, in order
   */
  datatype QueueState = QueueState(
    sendQueue: Option<QueuedFrame>,
    nextFrame: Option<QueuedFrame>,
    dequeued: Option<Error>,
    sendTimeout: int,
    rcvQueue: seq<seq<byte>>,
    closeErr: Error,
    closed: bool,
    hasDataCalls: nat,
    waiting: nat,
    results: seq<Error>)

  /** Frames and results on their way to a waiting sender. */
  function Outstanding(s: QueueState): nat
  {
    Count(s.sendQueue) + Count(s.nextFrame) + Count(s.dequeued)
  }

  /**
   * The receive buffer never exceeds its capacity, and while the queue is
   * open every waiting sender has exactly one frame or result on its way.
   */
  predicate Inv(s: QueueState)
  {
    && |s.rcvQueue| <= DatagramRcvQueueLen
    && (!s.closed ==> Outstanding(s) == s.waiting)
  }

  /** newDatagramQueue: the timeout argument is not stored. */
  function NewState(sendTimeout: int): (s: QueueState)
    ensures Inv(s)
    ensures s.sendTimeout == 0 && !s.closed
    ensures s.sendQueue.None? && s.nextFrame.None? && s.dequeued.None? && s.rcvQueue == []
    ensures s.waiting == 0 && s.hasDataCalls == 0 && s.results == []
  {
    QueueState(None, None, None, 0, [], NoError, false, 0, 0, [])
  }

  // ---------------------------------------------------------------------------
  // Outbound: AddAndWait, Peek, dequeueNextFrame, Pop
  // ---------------------------------------------------------------------------

  datatype AddOutcome = Placed | AddBlocked | AddReturned(err: Error)
  datatype Added = Added(next: QueueState, outcome: AddOutcome)

  /**
   * The first select of AddAndWait: put the frame into the free channel slot
   * and call hasData, or return the close error. `now` is the time AddAndWait
   * was entered, when Go computes the deadline; a sender that got AddBlocked
   * and tries again passes the same `now`.
   */
  function AddStep(s: QueueState, f: DatagramFrame, now: int, preferClose: bool): (r: Added)
    ensures Inv(s) ==> Inv(r.next)
    ensures r.outcome.Placed? <==> s.sendQueue.None? && !(s.closed && preferClose)
    ensures r.outcome.Placed? ==>
              && r.next.sendQueue == Some(QueuedFrame(f, ExpireTime(s.sendTimeout, now)))
              && r.next.waiting == s.waiting + 1
              && r.next.(sendQueue := s.sendQueue, hasDataCalls := s.hasDataCalls, waiting := s.waiting) == s
    ensures r.next.hasDataCalls == s.hasDataCalls + (if r.outcome.Placed? then 1 else 0)
    ensures r.outcome.AddBlocked? <==> s.sendQueue.Some? && !s.closed
    ensures r.outcome.AddReturned? ==> s.closed && r.outcome.err == s.closeErr
    ensures !r.outcome.Placed? ==> r.next == s
  {
    var frame := QueuedFrame(f, ExpireTime(s.sendTimeout, now));
    if s.sendQueue.None? && !(s.closed && preferClose) then
      Added(s.(sendQueue := Some(frame), hasDataCalls := s.hasDataCalls + 1, waiting := s.waiting + 1), Placed)
    else if s.closed then
      Added(s, AddReturned(s.closeErr))
    else
      Added(s, AddBlocked)
  }

  datatype WaitOutcome = WaitBlocked | WaitReturned(err: Error)
  datatype Waited = Waited(next: QueueState, outcome: WaitOutcome)

  /**
   * The second select of AddAndWait, taken by a sender that has placed its
   * frame: receive the error Pop hands over, or return the close error.
   */
  function WaitStep(s: QueueState, preferClose: bool): (r: Waited)
    requires s.waiting > 0
    ensures Inv(s) ==> Inv(r.next)
    ensures s.dequeued.Some? && !(s.closed && preferClose) ==>
              r == Waited(s.(dequeued := None, waiting := s.waiting - 1), WaitReturned(s.dequeued.value))
    ensures s.closed && (preferClose || s.dequeued.None?) ==>
              r == Waited(s.(waiting := s.waiting - 1), WaitReturned(s.closeErr))
    ensures r.outcome.WaitBlocked? <==> s.dequeued.None? && !s.closed
    ensures r.outcome.WaitBlocked? ==> r.next == s
  {
    if s.dequeued.Some? && !(s.closed && preferClose) then
      Waited(s.(dequeued := None, waiting := s.waiting - 1), WaitReturned(s.dequeued.value))
    else if s.closed then
      Waited(s.(waiting := s.waiting - 1), WaitReturned(s.closeErr))
    else
      Waited(s, WaitBlocked)
  }

  /**
   * Pop: forget the peeked frame and hand `err` to the waiting sender. Go
   * panics when no frame has been peeked; the send on the unbuffered channel
   * completes before Pop returns, so a consumer never finds an earlier error
   * still on its way.
   */
  function PopStep(s: QueueState, err: Error): (r: QueueState)
    requires s.nextFrame.Some? && s.dequeued.None?
    ensures Inv(s) ==> Inv(r)
    ensures r.nextFrame.None? && r.dequeued == Some(err)
    ensures r.results == s.results + [err]
    ensures r.(nextFrame := s.nextFrame, dequeued := s.dequeued, results := s.results) == s
  {
    s.(nextFrame := None, dequeued := Some(err), results := s.results + [err])
  }

  datatype Peeked = Peeked(next: QueueState, frame: Option<DatagramFrame>)

  /** dequeueNextFrame: return the peeked frame, or complete it as expired. */
  function DequeueNextFrameStep(s: QueueState, now: int): (r: Peeked)
    requires s.nextFrame.Some? && s.dequeued.None?
    ensures Inv(s) ==> Inv(r.next)
    ensures !HasExpired(s.nextFrame.value, now) ==> r == Peeked(s, Some(s.nextFrame.value.frame))
    ensures HasExpired(s.nextFrame.value, now) ==>
              r == Peeked(s.(nextFrame := None, dequeued := Some(DatagramQueuedTooLong),
                             results := s.results + [DatagramQueuedTooLong]), None)
  {
    if HasExpired(s.nextFrame.value, now) then
      Peeked(PopStep(s, DatagramQueuedTooLong), None)
    else
      Peeked(s, Some(s.nextFrame.value.frame))
  }

  /** The frame Peek looks at: the one already peeked, else the one in the channel. */
  function Pending(s: QueueState): Option<QueuedFrame>
  {
    if s.nextFrame.Some? then s.nextFrame else s.sendQueue
  }

  /** The state once Peek has taken the channel's frame into nextFrame (if it had to). */
  function Staged(s: QueueState): QueueState
  {
    if s.nextFrame.Some? then s else s.(nextFrame := s.sendQueue, sendQueue := None)
  }

  /**
   * Peek: never blocks. With nothing pending it returns nil and changes
   * nothing; a live pending frame is returned and stays pending; an expired
   * one is completed with DatagramQueuedTooLong and nil is returned.
   */
  function PeekStep(s: QueueState, now: int): (r: Peeked)
    requires s.dequeued.None?
    ensures Inv(s) ==> Inv(r.next)
    ensures Pending(s).None? ==> r == Peeked(s, None)
    ensures Pending(s).Some? && !HasExpired(Pending(s).value, now) ==>
              && r.frame == Some(Pending(s).value.frame)
              && r.next == Staged(s)
              && r.next.nextFrame == Pending(s)
    ensures Pending(s).Some? && HasExpired(Pending(s).value, now) ==>
              && r.frame.None?
              && r.next == Staged(s).(nextFrame := None, dequeued := Some(DatagramQueuedTooLong),
                                      results := s.results + [DatagramQueuedTooLong])
    ensures s.nextFrame.Some? ==> r.next.sendQueue == s.sendQueue
  {
    if s.nextFrame.Some? then
      DequeueNextFrameStep(s, now)
    else if s.sendQueue.Some? then
      DequeueNextFrameStep(s.(nextFrame := s.sendQueue, sendQueue := None), now)
    else
      Peeked(s, None)
  }

  // ---------------------------------------------------------------------------
  // Inbound: HandleDatagramFrame, Receive
  // ---------------------------------------------------------------------------

  /**
   * HandleDatagramFrame: append a copy of the payload when there is room,
   * otherwise drop the new frame; buffered frames are never evicted.
   */
  function HandleStep(s: QueueState, f: DatagramFrame): (r: QueueState)
    ensures Inv(s) ==> Inv(r)
    ensures |s.rcvQueue| <= DatagramRcvQueueLen ==> |r.rcvQueue| <= DatagramRcvQueueLen
    ensures s.rcvQueue <= r.rcvQueue
    ensures |s.rcvQueue| < DatagramRcvQueueLen <==> r.rcvQueue != s.rcvQueue
    ensures r.rcvQueue != s.rcvQueue ==> r.rcvQueue == s.rcvQueue + [f.data]
    ensures r.(rcvQueue := s.rcvQueue) == s
  {
    if |s.rcvQueue| < DatagramRcvQueueLen then s.(rcvQueue := s.rcvQueue + [f.data]) else s
  }

  /** The select case Receive wakes up on when its buffer is empty. */
  datatype Ready = Woken | CloseReady | CtxDone

  datatype ReceiveOutcome = Received(data: seq<byte>) | ReceiveFailed(err: Error) | Recheck
  datatype ReceiveResult = ReceiveResult(next: QueueState, outcome: ReceiveOutcome)

  /**
   * One pass of Receive's loop. A buffered frame is returned first, whatever
   * else is ready; on an empty buffer a wake-up goes round the loop again,
   * closing returns the close error and cancellation the context's error,
   * neither touching the buffer. `select` only fires a ready case, so
   * `CloseReady` needs a closed queue.
   */
  function ReceiveStep(s: QueueState, ready: Ready): (r: ReceiveResult)
    requires ready.CloseReady? ==> s.closed
    ensures Inv(s) ==> Inv(r.next)
    ensures |s.rcvQueue| > 0 ==>
              && r.outcome == Received(s.rcvQueue[0])
              && [s.rcvQueue[0]] + r.next.rcvQueue == s.rcvQueue
              && r.next.(rcvQueue := s.rcvQueue) == s
    ensures |s.rcvQueue| == 0 ==> r.next == s
    ensures |s.rcvQueue| == 0 ==> r.outcome == match ready
                                               case Woken => Recheck
                                               case CloseReady => ReceiveFailed(s.closeErr)
                                               case CtxDone => ReceiveFailed(ContextDone)
  {
    if |s.rcvQueue| > 0 then
      ReceiveResult(s.(rcvQueue := s.rcvQueue[1..]), Received(s.rcvQueue[0]))
    else
      match ready
      case Woken => ReceiveResult(s, Recheck)
      case CloseReady => ReceiveResult(s, ReceiveFailed(s.closeErr))
      case CtxDone => ReceiveResult(s, ReceiveFailed(ContextDone))
  }

  // ---------------------------------------------------------------------------
  // CloseWithError
  // ---------------------------------------------------------------------------

  /** CloseWithError: record the error and close; closing twice panics in Go. */
  function CloseStep(s: QueueState, e: Error): (r: QueueState)
    requires !s.closed
    ensures Inv(s) ==> Inv(r)
    ensures r.closed && r.closeErr == e
    ensures r.(closed := s.closed, closeErr := s.closeErr) == s
  {
    s.(closeErr := e, closed := true)
  }

  // ---------------------------------------------------------------------------
  // The queue object
  // ---------------------------------------------------------------------------

  class DatagramQueue {
    var sendQueue: Option<QueuedFrame>
    var nextFrame: Option<QueuedFrame>
    var sendTimeout: int
    var rcvQueue: seq<seq<byte>>
    var closeErr: Error
    var closed: bool
    var dequeued: Option<Error>
    ghost var hasDataCalls: nat
    ghost var waiting: nat
    ghost var results: seq<Error>

    ghost function State(): QueueState
      reads this
    {
      QueueState(sendQueue, nextFrame, dequeued, sendTimeout, rcvQueue, closeErr, closed,
                 hasDataCalls, waiting, results)
    }

    ghost predicate Valid()
      reads this
    {
      Inv(State())
    }

    /** newDatagramQueue; `sendTimeout` is accepted and not stored. */
    constructor (sendTimeout: int)
      ensures Valid()
      ensures State() == NewState(sendTimeout)
    {
      this.sendQueue := None;
      this.nextFrame := None;
      this.sendTimeout := 0;
      this.rcvQueue := [];
      this.closeErr := NoError;
      this.closed := false;
      this.dequeued := None;
      this.hasDataCalls := 0;
      this.waiting := 0;
      this.results := [];
      new;
      assert State() == QueueState(None, None, None, 0, [], NoError, false, 0, 0, []);
    }

    /**
     * The first half of AddAndWait: place the frame or return on close. `now`
     * is the time AddAndWait was entered; a retry after AddBlocked passes the
     * same value.
     */
    method AddAndWaitEnqueue(f: DatagramFrame, now: int, preferClose: bool) returns (outcome: AddOutcome)
      requires Valid()
      modifies this
      ensures Valid()
      ensures Added(State(), outcome) == AddStep(old(State()), f, now, preferClose)
    {
      var expireTime := ExpireTime(sendTimeout, now);
      var frame := QueuedFrame(f, expireTime);
      if sendQueue.None? && !(closed && preferClose) {
        sendQueue := Some(frame);
        hasDataCalls := hasDataCalls + 1;
        waiting := waiting + 1;
        outcome := Placed;
      } else if closed {
        outcome := AddReturned(closeErr);
      } else {
        outcome := AddBlocked;
      }
    }

    /** The second half of AddAndWait: receive Pop's error or return on close. */
    method AddAndWaitResult(preferClose: bool) returns (outcome: WaitOutcome)
      requires Valid() && waiting > 0
      modifies this
      ensures Valid()
      ensures Waited(State(), outcome) == WaitStep(old(State()), preferClose)
    {
      if dequeued.Some? && !(closed && preferClose) {
        outcome := WaitReturned(dequeued.value);
        dequeued := None;
        waiting := waiting - 1;
      } else if closed {
        outcome := WaitReturned(closeErr);
        waiting := waiting - 1;
      } else {
        outcome := WaitBlocked;
      }
    }

    method Peek(now: int) returns (f: Option<DatagramFrame>)
      requires Valid() && dequeued.None?
      modifies this
      ensures Valid()
      ensures Peeked(State(), f) == PeekStep(old(State()), now)
    {
      if nextFrame.Some? {
        f := DequeueNextFrame(now);
        return;
      }
      if sendQueue.Some? {
        nextFrame := sendQueue;
        sendQueue := None;
        f := DequeueNextFrame(now);
      } else {
        f := None;
      }
    }

    method DequeueNextFrame(now: int) returns (f: Option<DatagramFrame>)
      requires Valid() && nextFrame.Some? && dequeued.None?
      modifies this
      ensures Valid()
      ensures Peeked(State(), f) == DequeueNextFrameStep(old(State()), now)
    {
      if HasExpired(nextFrame.value, now) {
        Pop(DatagramQueuedTooLong);
        f := None;
      } else {
        f := Some(nextFrame.value.frame);
      }
    }

    method Pop(err: Error)
      requires Valid() && nextFrame.Some? && dequeued.None?
      modifies this
      ensures Valid()
      ensures nextFrame.None? && dequeued == Some(err)
      ensures State() == PopStep(old(State()), err)
    {
      nextFrame := None;
      dequeued := Some(err);
      results := results + [err];
    }

    method HandleDatagramFrame(f: DatagramFrame)
      requires Valid()
      modifies this
      ensures Valid()
      ensures State() == HandleStep(old(State()), f)
    {
      var data := f.data;
      if |rcvQueue| < DatagramRcvQueueLen {
        rcvQueue := rcvQueue + [data];
      }
    }

    /** One pass of Receive's loop; `Recheck` means the loop goes round again. */
    method Receive(ready: Ready) returns (outcome: ReceiveOutcome)
      requires Valid() && (ready.CloseReady? ==> closed)
      modifies this
      ensures Valid()
      ensures ReceiveResult(State(), outcome) == ReceiveStep(old(State()), ready)
    {
      if |rcvQueue| > 0 {
        var data := rcvQueue[0];
        rcvQueue := rcvQueue[1..];
        return Received(data);
      }
      match ready
      case Woken => outcome := Recheck;
      case CloseReady => outcome := ReceiveFailed(closeErr);
      case CtxDone => outcome := ReceiveFailed(ContextDone);
    }

    method CloseWithError(e: Error)
      requires Valid() && !closed
      modifies this
      ensures Valid()
      ensures closed && closeErr == e
      ensures State() == CloseStep(old(State()), e)
    {
      closeErr := e;
      closed := true;
    }
  }
}
